/** The proxy of a remote stream over the SSE client that reads it. */
module RemoteReader {
  import opened Common
  import opened JsonText
  import opened RemoteStream
  import Sse

  /** Schema validation of a wire event; only `stream.end` becomes an end. */
  ghost predicate Validates(v: Sse.Event -> Option<Event>) {
    forall e :: v(e).Some? ==> (v(e).value.End? <==> e.name == Sse.STREAM_END)
  }

  function Validated(v: Sse.Event -> Option<Event>, events: seq<Sse.Event>): seq<Option<Event>> {
    seq(|events|, i requires 0 <= i < |events| => v(events[i]))
  }

  lemma {:induction false} UpToEndShape(events: seq<Sse.Event>)
    ensures var r := Sse.UpToEnd(events);
            && (forall i :: 0 <= i < |r.events| && r.events[i].name == Sse.STREAM_END ==> i == |r.events| - 1 && !r.failed)
            && (!r.failed ==> r.events != [] && r.events[|r.events| - 1].name == Sse.STREAM_END)
    decreases |events|
  {
    if events != [] {
      UpToEndShape(events[1..]);
    }
  }

  /** The reader of the SSE client, with any validation on top, is such a source. */
  lemma ClientIsReader(d: Sse.Decoder, body: Bytes, v: Sse.Event -> Option<Event>)
    requires Validates(v)
    ensures FromReader(Validated(v, Sse.Client(d, body).events), Sse.Client(d, body).failed)
  {
    UpToEndShape(Sse.Read(d, body).events);
  }
}
