/**
 Server-sent Task events: encoder, record parser, and the round trip through
 comment lines, line-end styles, chunk cuts and a broken connection.
 A string is represented by its UTF-8 bytes; JSON decoding and the decimal
 test are parameters.
 */
module Sse {
  import opened Common
  import opened JsonText
  import opened SseLines

  const MAX_SSE_EVENT_BYTES: nat := 768 * 1024
  const MAX_CURSOR_LENGTH: nat := 4096

  datatype Event = Event(name: Bytes, data: Json, id: Option<Bytes>)

  const COLON: byte := 0x3A
  const SPACE: byte := 0x20

  const EVENT: Bytes := [0x65, 0x76, 0x65, 0x6E, 0x74]
  const ID: Bytes := [0x69, 0x64]
  const DATA: Bytes := [0x64, 0x61, 0x74, 0x61]
  const RETRY: Bytes := [0x72, 0x65, 0x74, 0x72, 0x79]

  // ----- the encoder

  predicate NoBreaks(s: Bytes) {
    forall i :: 0 <= i < |s| ==> !Break(s[i])
  }

  /** `is_valid_task_event_cursor`. */
  predicate CursorOk(id: Bytes) {
    0 < |id| <= MAX_CURSOR_LENGTH && id[0] != SPACE && id[|id| - 1] != SPACE
    && forall i :: 0 <= i < |id| ==> 0x20 <= id[i] <= 0x7E
  }

  function FieldLine(name: Bytes, value: Bytes): Bytes {
    name + [COLON, SPACE] + value
  }

  function EventLines(e: Event): seq<Bytes> {
    (if e.id.Some? then [FieldLine(ID, e.id.value)] else [])
    + [FieldLine(EVENT, e.name), FieldLine(DATA, Print(e.data))]
  }

  function TotalSize(lines: seq<Bytes>): nat
    decreases |lines|
  {
    if lines == [] then 0 else |lines[0]| + TotalSize(lines[1..])
  }

  /** Every check of the encoder. */
  predicate Encodable(e: Event) {
    e.name != [] && NoBreaks(e.name)
    && (e.id.Some? ==> CursorOk(e.id.value))
    && WellFormed(e.data)
    && |Print(e.data)| <= MAX_SSE_EVENT_BYTES
    && Utf8Valid(e.name)
    && (forall i :: 0 <= i < |EventLines(e)| ==> |EventLines(e)[i]| <= MAX_SSE_LINE_BYTES)
    && TotalSize(EventLines(e)) <= MAX_SSE_EVENT_BYTES
  }

  function Join(lines: seq<Bytes>): Bytes
    requires lines != []
    decreases |lines|
  {
    if |lines| == 1 then lines[0] else lines[0] + [LF] + Join(lines[1..])
  }

  /** `encode_gateway_task_event`; None is the protocol error. */
  function Encode(e: Event): Option<Bytes> {
    if Encodable(e) then Some(Join(EventLines(e)) + [LF, LF]) else None
  }

  // ----- the record parser

  datatype Record = Record(name: Option<Bytes>, id: Option<Bytes>, data: seq<Bytes>, size: nat)

  const EMPTY := Record(None, None, [], 0)

  datatype Decoder = Decoder(loads: Bytes -> Option<Json>, isDecimal: Bytes -> bool)

  function ColonAt(line: Bytes): (n: nat)
    ensures n <= |line|
    ensures n < |line| ==> line[n] == COLON
    ensures forall i :: 0 <= i < n ==> line[i] != COLON
    decreases |line|
  {
    if line == [] || line[0] == COLON then 0
    else
      var m := ColonAt(line[1..]);
      assert forall i :: 1 <= i < m + 1 ==> line[i] == line[1..][i - 1];
      m + 1
  }

  /** Field name and value: the text around the first colon, less one leading space. */
  function Partition(line: Bytes): (Bytes, Bytes) {
    var n := ColonAt(line);
    if n == |line| then (line, [])
    else
      var value := line[n + 1..];
      (line[..n], if value != [] && value[0] == SPACE then value[1..] else value)
  }

  predicate Comment(line: Bytes) {
    line != [] && line[0] == COLON
  }

  datatype Step = Go(next: Record) | Emit(event: Event) | Fail

  /** `_decode_record`. */
  function DecodeRecord(d: Decoder, r: Record): Step {
    if r.name.None? || r.name.value == [] || r.data == [] then Fail
    else
      var text := Join(r.data);
      if !DepthOk(text) then Fail
      else
        var data := d.loads(text);
        if data.None? || !data.value.JObject? then Fail else Emit(Event(r.name.value, data.value, r.id))
  }

  /** One pass of the line loop; an empty record between blank lines is dropped. */
  function ParseLine(d: Decoder, r: Record, line: Bytes): Step {
    if |line| > MAX_SSE_LINE_BYTES then Fail
    else if line == [] then
      if r.name.Some? || r.data != [] || r.id.Some? then DecodeRecord(d, r) else Go(EMPTY)
    else if Comment(line) then Go(r)
    else
      var (field, value) := Partition(line);
      var next := r.(size := r.size + |line|);
      if next.size > MAX_SSE_EVENT_BYTES then Fail
      else if field == EVENT then Go(next.(name := Some(value)))
      else if field == ID then (if 0 in value then Fail else Go(next.(id := Some(value))))
      else if field == DATA then Go(next.(data := r.data + [value]))
      else if field == RETRY then (if value != [] && !d.isDecimal(value) then Fail else Go(next))
      else Fail
  }

  /** What the event iterator yields before it ends or raises. */
  datatype Events = Events(events: seq<Event>, failed: bool)

  function Before(e: Event, later: Events): Events {
    later.(events := [e] + later.events)
  }

  function Parse(d: Decoder, r: Record, lines: Lines): Events
    decreases |lines.lines|
  {
    if lines.lines == [] then Events([], lines.failed)
    else
      var rest := Lines(lines.lines[1..], lines.failed);
      match ParseLine(d, r, lines.lines[0])
      case Fail => Events([], true)
      case Go(next) => Parse(d, next, rest)
      case Emit(e) => Before(e, Parse(d, EMPTY, rest))
  }

  /** Reading a whole body: splitter, then record parser. */
  function Read(d: Decoder, body: Bytes): Events {
    Parse(d, EMPTY, Split(body, true))
  }

  /** The part of the loop body that handles a field; false is a protocol error. */
  method TakeField(d: Decoder, name0: Option<Bytes>, id0: Option<Bytes>, data0: seq<Bytes>, size0: nat, line: Bytes)
    returns (ok: bool, name: Option<Bytes>, id: Option<Bytes>, data: seq<Bytes>, size: nat)
    requires 0 < |line| <= MAX_SSE_LINE_BYTES && !Comment(line)
    ensures ParseLine(d, Record(name0, id0, data0, size0), line) == if ok then Go(Record(name, id, data, size)) else Fail
  {
    var (field, value) := Partition(line);
    ok, name, id, data, size := true, name0, id0, data0, size0 + |line|;
    if size > MAX_SSE_EVENT_BYTES {
      ok := false;
    } else if field == EVENT {
      name := Some(value);
    } else if field == ID {
      ok := 0 !in value;
      id := Some(value);
    } else if field == DATA {
      data := data + [value];
    } else if field == RETRY {
      ok := value == [] || d.isDecimal(value);
    } else {
      ok := false;
    }
  }

  /** `iter_gateway_task_events`. */
  method IterGatewayTaskEvents(d: Decoder, lines: Lines) returns (out: Events)
    ensures out == Parse(d, EMPTY, lines)
  {
    var name: Option<Bytes>, id: Option<Bytes>, data: seq<Bytes>, size := None, None, [], 0;
    var events: seq<Event> := [];
    ghost var all := Parse(d, EMPTY, lines);
    var i := 0;
    assert lines.lines[0..] == lines.lines;
    while i < |lines.lines|
      invariant 0 <= i <= |lines.lines| && 0 <= size
      invariant Yields(events, Parse(d, Record(name, id, data, size), Lines(lines.lines[i..], lines.failed)), all)
    {
      var line := lines.lines[i];
      ghost var r := Record(name, id, data, size);
      ParseStep(d, r, lines, i, events, all);
      i := i + 1;
      if |line| > MAX_SSE_LINE_BYTES {
        return Events(events, true);
      }
      if line == [] {
        if name.Some? || data != [] || id.Some? {
          var step := DecodeRecord(d, Record(name, id, data, size));
          if step.Fail? {
            return Events(events, true);
          }
          events := events + [step.event];
        }
        name, id, data, size := None, None, [], 0;
        continue;
      }
      if Comment(line) {
        continue;
      }
      var ok;
      ok, name, id, data, size := TakeField(d, name, id, data, size, line);
      if !ok {
        return Events(events, true);
      }
    }
    return Events(events, lines.failed);
  }

  predicate Yields(events: seq<Event>, rest: Events, all: Events) {
    all == Events(events + rest.events, rest.failed)
  }

  lemma ParseStep(d: Decoder, r: Record, lines: Lines, i: nat, events: seq<Event>, all: Events)
    requires i < |lines.lines|
    requires Yields(events, Parse(d, r, Lines(lines.lines[i..], lines.failed)), all)
    ensures var rest := Lines(lines.lines[i + 1..], lines.failed);
            match ParseLine(d, r, lines.lines[i])
            case Fail => all == Events(events, true)
            case Go(next) => Yields(events, Parse(d, next, rest), all)
            case Emit(e) => Yields(events + [e], Parse(d, EMPTY, rest), all)
  {
    var left := lines.lines[i..];
    assert left[1..] == lines.lines[i + 1..];
    match ParseLine(d, r, lines.lines[i])
    case Fail => assert events + [] == events;
    case Go(_) =>
    case Emit(e) =>
      var later := Parse(d, EMPTY, Lines(left[1..], lines.failed)).events;
      assert events + ([e] + later) == events + [e] + later;
  }

  // ----- what the encoder writes is one record of well-formed lines

  function RecordsLines(events: seq<Event>): seq<Bytes>
    decreases |events|
  {
    if events == [] then [] else EventLines(events[0]) + [[]] + RecordsLines(events[1..])
  }

  lemma EncodeIsLines(e: Event)
    requires Encodable(e)
    ensures Encode(e) == Some(Render(EventLines(e) + [[]]))
  {
    var lines := EventLines(e);
    JoinRender(lines);
    var blank: seq<Bytes> := [[]];
    RenderConcat(lines, blank);
    assert Render(blank) == [LF] by {
      assert blank[1..] == [];
      assert blank[0] + [LF] + [] == [LF];
    }
    assert Join(lines) + [LF] + [LF] == Join(lines) + [LF, LF];
  }

  lemma {:induction false} JoinRender(lines: seq<Bytes>)
    requires lines != []
    ensures Render(lines) == Join(lines) + [LF]
    decreases |lines|
  {
    if |lines| == 1 {
      assert lines[1..] == [];
      assert lines[0] + [LF] + [] == lines[0] + [LF];
    } else {
      JoinRender(lines[1..]);
      assert lines[0] + [LF] + (Join(lines[1..]) + [LF]) == lines[0] + [LF] + Join(lines[1..]) + [LF];
    }
  }

  function EncodeAll(events: seq<Event>): Bytes
    requires forall i :: 0 <= i < |events| ==> Encodable(events[i])
    decreases |events|
  {
    if events == [] then [] else Encode(events[0]).value + EncodeAll(events[1..])
  }

  lemma {:induction false} EncodeAllIsLines(events: seq<Event>)
    requires forall i :: 0 <= i < |events| ==> Encodable(events[i])
    ensures EncodeAll(events) == Render(RecordsLines(events))
    decreases |events|
  {
    if events != [] {
      EncodeIsLines(events[0]);
      EncodeAllIsLines(events[1..]);
      RenderConcat(EventLines(events[0]) + [[]], RecordsLines(events[1..]));
    }
  }

  // ----- the parser undoes the encoder

  lemma PartitionField(name: Bytes, value: Bytes)
    requires COLON !in name
    ensures Partition(FieldLine(name, value)) == (name, value)
  {
    var line := FieldLine(name, value);
    ColonIs(line, |name|);
    assert line[..|name|] == name;
    assert line[|name| + 1..] == [SPACE] + value;
    assert ([SPACE] + value)[1..] == value;
  }

  lemma ColonIs(line: Bytes, n: nat)
    requires n < |line| && line[n] == COLON && forall i :: 0 <= i < n ==> line[i] != COLON
    ensures ColonAt(line) == n
  {
  }

  /** The events a reader gets before the first one nested too deeply, and whether there is one. */
  function Readable(events: seq<Event>): Events
    decreases |events|
  {
    if events == [] then Events([], false)
    else if Depth(events[0].data) > MAX_JSON_DEPTH then Events([], true)
    else Before(events[0], Readable(events[1..]))
  }

  predicate Understood(d: Decoder, e: Event) {
    Encodable(e) && e.data.JObject? && d.loads(Print(e.data)) == Some(e.data)
  }

  lemma CursorHasNoNull(id: Bytes)
    requires CursorOk(id)
    ensures 0 !in id
  {
  }

  lemma ParseField(d: Decoder, r: Record, name: Bytes, value: Bytes)
    requires name == EVENT || name == DATA || (name == ID && 0 !in value)
    requires |FieldLine(name, value)| <= MAX_SSE_LINE_BYTES
    requires r.size + |FieldLine(name, value)| <= MAX_SSE_EVENT_BYTES
    ensures ParseLine(d, r, FieldLine(name, value))
         == var next := r.(size := r.size + |FieldLine(name, value)|);
            Go(if name == EVENT then next.(name := Some(value))
               else if name == DATA then next.(data := r.data + [value])
               else next.(id := Some(value)))
  {
    PartitionField(name, value);
  }

  /** The record after all lines of one event. */
  function Collected(e: Event): Record {
    Record(Some(e.name), e.id, [Print(e.data)], TotalSize(EventLines(e)))
  }

  lemma ParseTwo(d: Decoder, r: Record, a: Bytes, b: Bytes, mid: Record, end: Record, rest: Lines)
    requires ParseLine(d, r, a) == Go(mid) && ParseLine(d, mid, b) == Go(end)
    ensures Parse(d, r, Lines([a, b] + rest.lines, rest.failed)) == Parse(d, end, rest)
  {
    var all := [a, b] + rest.lines;
    assert all[1..] == [b] + rest.lines;
    assert all[1..][1..] == rest.lines;
  }

  lemma ParseOne(d: Decoder, r: Record, a: Bytes, end: Record, rest: Lines)
    requires ParseLine(d, r, a) == Go(end)
    ensures Parse(d, r, Lines([a] + rest.lines, rest.failed)) == Parse(d, end, rest)
  {
    assert ([a] + rest.lines)[1..] == rest.lines;
  }

  lemma TotalSizes(e: Event)
    ensures TotalSize(EventLines(e))
         == (if e.id.Some? then |FieldLine(ID, e.id.value)| else 0)
            + |FieldLine(EVENT, e.name)| + |FieldLine(DATA, Print(e.data))|
  {
    var a, b := FieldLine(EVENT, e.name), FieldLine(DATA, Print(e.data));
    var lines: seq<Bytes> := [a, b];
    assert TotalSize(lines) == |a| + |b| by {
      assert lines[1..] == [b];
      assert TotalSize([b]) == |b|;
    }
    if e.id.Some? {
      assert EventLines(e)[1..] == lines;
    } else {
      assert EventLines(e) == lines;
    }
  }

  /** The two lines every event has. */
  lemma CollectBody(d: Decoder, e: Event, size: nat, rest: Lines)
    requires Encodable(e) && TotalSize(EventLines(e)) == size + |FieldLine(EVENT, e.name)| + |FieldLine(DATA, Print(e.data))|
    ensures Parse(d, Record(None, e.id, [], size),
                  Lines([FieldLine(EVENT, e.name), FieldLine(DATA, Print(e.data))] + rest.lines, rest.failed))
         == Parse(d, Collected(e), rest)
  {
    var a, b, lines := FieldLine(EVENT, e.name), FieldLine(DATA, Print(e.data)), EventLines(e);
    assert lines[|lines| - 2] == a && lines[|lines| - 1] == b;
    var mid := Record(Some(e.name), e.id, [], size + |a|);
    ParseField(d, Record(None, e.id, [], size), EVENT, e.name);
    ParseField(d, mid, DATA, Print(e.data));
    assert EMPTY.data + [Print(e.data)] == [Print(e.data)];
    ParseTwo(d, Record(None, e.id, [], size), a, b, mid, Collected(e), rest);
  }

  lemma CollectWithId(d: Decoder, e: Event, body: seq<Bytes>, rest: Lines)
    requires Encodable(e) && e.id.Some? && EventLines(e) == [FieldLine(ID, e.id.value)] + body
    ensures Parse(d, EMPTY, Lines(EventLines(e) + rest.lines, rest.failed))
         == Parse(d, Record(None, e.id, [], |FieldLine(ID, e.id.value)|), Lines(body + rest.lines, rest.failed))
  {
    var i := FieldLine(ID, e.id.value);
    TotalSizes(e);
    assert EventLines(e)[0] == i;
    CursorHasNoNull(e.id.value);
    ParseField(d, EMPTY, ID, e.id.value);
    assert EventLines(e) + rest.lines == [i] + (body + rest.lines);
    ParseOne(d, EMPTY, i, Record(None, e.id, [], |i|), Lines(body + rest.lines, rest.failed));
  }

  lemma CollectLines(d: Decoder, e: Event, rest: Lines)
    requires Encodable(e)
    ensures Parse(d, EMPTY, Lines(EventLines(e) + rest.lines, rest.failed)) == Parse(d, Collected(e), rest)
  {
    TotalSizes(e);
    var body: seq<Bytes> := [FieldLine(EVENT, e.name), FieldLine(DATA, Print(e.data))];
    if e.id.Some? {
      CollectWithId(d, e, body, rest);
      CollectBody(d, e, |FieldLine(ID, e.id.value)|, rest);
    } else {
      CollectBody(d, e, 0, rest);
      assert EventLines(e) == body;
    }
  }

  lemma FinishRecord(d: Decoder, e: Event)
    requires Understood(d, e)
    ensures ParseLine(d, Collected(e), [])
         == if Depth(e.data) > MAX_JSON_DEPTH then Fail else Emit(e)
  {
    DepthScanIsExact(e.data);
    assert Join([Print(e.data)]) == Print(e.data);
  }

  lemma ParseRecord(d: Decoder, e: Event, rest: Lines)
    requires Understood(d, e)
    ensures Parse(d, EMPTY, Lines(EventLines(e) + [[]] + rest.lines, rest.failed))
         == if Depth(e.data) > MAX_JSON_DEPTH then Events([], true)
            else Before(e, Parse(d, EMPTY, rest))
  {
    var blank := Lines([[]] + rest.lines, rest.failed);
    assert EventLines(e) + [[]] + rest.lines == EventLines(e) + blank.lines;
    CollectLines(d, e, blank);
    FinishRecord(d, e);
    assert blank.lines[1..] == rest.lines;
  }

  lemma {:induction false} ParseRecords(d: Decoder, events: seq<Event>)
    requires forall i :: 0 <= i < |events| ==> Understood(d, events[i])
    ensures Parse(d, EMPTY, Lines(RecordsLines(events), false)) == Readable(events)
    decreases |events|
  {
    if events != [] {
      ParseRecord(d, events[0], Lines(RecordsLines(events[1..]), false));
      ParseRecords(d, events[1..]);
    }
  }

  // ----- comments

  function Uncommented(lines: seq<Bytes>): seq<Bytes>
    decreases |lines|
  {
    if lines == [] then []
    else if Comment(lines[0]) then Uncommented(lines[1..])
    else [lines[0]] + Uncommented(lines[1..])
  }

  /** Comment lines may stand anywhere, even inside a record, and are not counted in its size. */
  lemma {:induction false} CommentsAreInvisible(d: Decoder, r: Record, lines: Lines)
    requires forall i :: 0 <= i < |lines.lines| ==> |lines.lines[i]| <= MAX_SSE_LINE_BYTES
    ensures Parse(d, r, lines) == Parse(d, r, Lines(Uncommented(lines.lines), lines.failed))
    decreases |lines.lines|
  {
    if lines.lines != [] {
      var line, rest := lines.lines[0], Lines(lines.lines[1..], lines.failed);
      var clean := Uncommented(rest.lines);
      if Comment(line) {
        CommentsAreInvisible(d, r, rest);
      } else {
        assert ([line] + clean)[1..] == clean;
        match ParseLine(d, r, line)
        case Go(next) => CommentsAreInvisible(d, next, rest);
        case Emit(_) => CommentsAreInvisible(d, EMPTY, rest);
        case Fail =>
      }
    }
  }

  // ----- the round trip

  lemma EventLineOk(e: Event, i: nat)
    requires Encodable(e) && i < |EventLines(e)|
    ensures LineOk(EventLines(e)[i]) && EventLines(e)[i] != [] && EventLines(e)[i][0] < 0x80
  {
    var lines := EventLines(e);
    if i == |lines| - 1 {
      PrintClean(e.data);
      FieldLineOk(DATA, Print(e.data));
    } else if i == |lines| - 2 {
      FieldLineOk(EVENT, e.name);
    } else {
      AsciiValid(e.id.value);
      FieldLineOk(ID, e.id.value);
    }
  }

  lemma FieldLineOk(name: Bytes, value: Bytes)
    requires name == EVENT || name == DATA || name == ID
    requires Utf8Valid(value) && NoBreaks(value)
    ensures Utf8Valid(FieldLine(name, value)) && NoBreaks(FieldLine(name, value))
    ensures FieldLine(name, value)[0] < 0x80
  {
    AsciiValid(name + [COLON, SPACE]);
    Utf8Concat(name + [COLON, SPACE], value);
  }

  lemma {:induction false} RecordLineOk(events: seq<Event>, i: nat)
    requires (forall k :: 0 <= k < |events| ==> Encodable(events[k])) && i < |RecordsLines(events)|
    ensures LineOk(RecordsLines(events)[i])
    ensures RecordsLines(events)[i] == [] || RecordsLines(events)[i][0] < 0x80
    decreases |events|
  {
    var head := EventLines(events[0]);
    if i < |head| {
      EventLineOk(events[0], i);
      assert RecordsLines(events)[i] == head[i];
    } else if i > |head| {
      RecordLineOk(events[1..], i - |head| - 1);
      assert RecordsLines(events)[i] == RecordsLines(events[1..])[i - |head| - 1];
    } else {
      assert RecordsLines(events)[i] == [];
    }
  }

  lemma {:induction false} UncommentedIndex(lines: seq<Bytes>, i: nat) returns (k: nat)
    requires i < |lines| && !Comment(lines[i])
    ensures k < |Uncommented(lines)| && Uncommented(lines)[k] == lines[i]
    decreases |lines|
  {
    if i == 0 {
      k := 0;
    } else {
      k := UncommentedIndex(lines[1..], i - 1);
      k := if Comment(lines[0]) then k else k + 1;
    }
  }

  /** `lines` are the records of `events` with well-formed comment lines inserted anywhere. */
  predicate Carries(lines: seq<Bytes>, events: seq<Event>) {
    Uncommented(lines) == RecordsLines(events)
    && forall i :: 0 <= i < |lines| && Comment(lines[i]) ==> LineOk(lines[i])
  }

  lemma CarriedLineOk(lines: seq<Bytes>, events: seq<Event>, i: nat)
    requires (forall k :: 0 <= k < |events| ==> Encodable(events[k])) && Carries(lines, events) && i < |lines|
    ensures LineOk(lines[i]) && StripBom(lines[i], true) == lines[i]
  {
    if !Comment(lines[i]) {
      var k := UncommentedIndex(lines, i);
      RecordLineOk(events, k);
    }
    assert |lines[i]| >= 3 ==> lines[i][..3][0] == lines[i][0] < 0x80 <= BOM[0];
  }

  /** The body is a rendering of the events: any line ends, comment lines anywhere. */
  ghost predicate Transmits(d: Decoder, events: seq<Event>, lines: seq<Bytes>, body: Bytes) {
    (forall i :: 0 <= i < |events| ==> Understood(d, events[i])) && Carries(lines, events) && Normalized(body) == Render(lines)
  }

  /**
   The round trip. Take any encodable events, put comment lines anywhere
   between or inside their records, and end each line with LF, CR or CR LF:
   the reader yields exactly those events. If some event is nested more deeply
   than the reader allows, it yields exactly the events before the first such
   one and then fails. How the body is cut into chunks does not matter
   (`ReadChunks`).
   */
  lemma RoundTrip(d: Decoder, events: seq<Event>, lines: seq<Bytes>, body: Bytes)
    requires Transmits(d, events, lines, body)
    ensures Read(d, body) == Readable(events)
  {
    forall i | 0 <= i < |lines| ensures LineOk(lines[i]) && StripBom(lines[i], true) == lines[i] {
      CarriedLineOk(lines, events, i);
    }
    LineEndsAgree(body, true);
    SplitRender(lines, true);
    CommentsAreInvisible(d, EMPTY, Lines(lines, false));
    ParseRecords(d, events);
  }

  /** `stream.end`. */
  const STREAM_END: Bytes := [0x73, 0x74, 0x72, 0x65, 0x61, 0x6D, 0x2E, 0x65, 0x6E, 0x64]

  /** What a client gets: events up to the first `stream.end`; without one it fails. */
  function UpToEnd(events: seq<Event>): (r: Events)
    decreases |events|
  {
    if events == [] then Events([], true)
    else if events[0].name == STREAM_END then Events([events[0]], false)
    else Before(events[0], UpToEnd(events[1..]))
  }

  function Client(d: Decoder, body: Bytes): Events {
    UpToEnd(Read(d, body).events)
  }

  /** The client's reader over a chunked response, `_iter_task_events`. */
  method ReadChunks(d: Decoder, chunks: seq<Bytes>) returns (out: Events)
    ensures out == Client(d, Flatten(chunks))
  {
    var lines := IterUtf8SseLines(chunks);
    var all := IterGatewayTaskEvents(d, lines);
    out := StopAtEnd(all.events);
  }

  method StopAtEnd(events: seq<Event>) returns (out: Events)
    ensures out == UpToEnd(events)
  {
    var seen: seq<Event> := [];
    ghost var all := UpToEnd(events);
    var i := 0;
    assert events[0..] == events;
    while i < |events|
      invariant 0 <= i <= |events|
      invariant Yields(seen, UpToEnd(events[i..]), all)
    {
      StopStep(seen, events, i, all);
      seen := seen + [events[i]];
      if events[i].name == STREAM_END {
        return Events(seen, false);
      }
      i := i + 1;
    }
    assert seen + [] == seen;
    return Events(seen, true);
  }

  lemma StopStep(seen: seq<Event>, events: seq<Event>, i: nat, all: Events)
    requires i < |events| && Yields(seen, UpToEnd(events[i..]), all)
    ensures if events[i].name == STREAM_END then all == Events(seen + [events[i]], false)
            else Yields(seen + [events[i]], UpToEnd(events[i + 1..]), all)
  {
    assert events[i..][1..] == events[i + 1..];
    var later := UpToEnd(events[i + 1..]).events;
    assert seen + ([events[i]] + later) == seen + [events[i]] + later;
  }

  /** The reader gets every event exactly when none is too deep. */
  lemma {:induction false} ReadableIsAll(events: seq<Event>)
    ensures Readable(events) == Events(events, false)
       <==> forall i :: 0 <= i < |events| ==> Depth(events[i].data) <= MAX_JSON_DEPTH
    ensures !Readable(events).failed ==> Readable(events).events == events
    decreases |events|
  {
    if events != [] {
      ReadableIsAll(events[1..]);
      assert forall i :: 0 <= i < |events| ==> events[i] == if i == 0 then events[0] else events[1..][i - 1];
      assert events == [events[0]] + events[1..];
    }
  }

  lemma {:induction false} UncommentedNone(lines: seq<Bytes>)
    requires forall i :: 0 <= i < |lines| ==> !Comment(lines[i])
    ensures Uncommented(lines) == lines
    decreases |lines|
  {
    if lines != [] {
      UncommentedNone(lines[1..]);
      assert lines == [lines[0]] + lines[1..];
    }
  }

  lemma {:induction false} NormalizedRender(lines: seq<Bytes>)
    requires forall i :: 0 <= i < |lines| ==> NoBreaks(lines[i])
    ensures Normalized(Render(lines)) == Render(lines)
    decreases |lines|
  {
    if lines != [] {
      var line, s := lines[0], Render(lines);
      assert s == line + ([LF] + Render(lines[1..]));
      FirstBreakAt(s, |line|);
      NormalizedLine(s);
      assert s[..|line|] == line;
      assert s[NextStart(s, |line|)..] == Render(lines[1..]);
      NormalizedRender(lines[1..]);
    }
  }

  lemma {:induction false} RecordLineNotComment(events: seq<Event>, i: nat)
    requires i < |RecordsLines(events)|
    ensures !Comment(RecordsLines(events)[i])
    decreases |events|
  {
    var head := EventLines(events[0]);
    if i > |head| {
      RecordLineNotComment(events[1..], i - |head| - 1);
      assert RecordsLines(events)[i] == RecordsLines(events[1..])[i - |head| - 1];
    } else if i < |head| {
      assert RecordsLines(events)[i] == head[i];
    } else {
      assert RecordsLines(events)[i] == [];
    }
  }

  ghost predicate AllUnderstood(d: Decoder, events: seq<Event>) {
    forall i :: 0 <= i < |events| ==> Encodable(events[i]) && Understood(d, events[i])
  }

  /** The encoder's own output. */
  lemma EncodedRoundTrip(d: Decoder, events: seq<Event>)
    requires AllUnderstood(d, events)
    ensures Read(d, EncodeAll(events)) == Readable(events)
  {
    var lines := RecordsLines(events);
    EncodeAllIsLines(events);
    forall i | 0 <= i < |lines| ensures LineOk(lines[i]) && NoBreaks(lines[i]) && !Comment(lines[i]) {
      RecordLineOk(events, i);
      RecordLineNotComment(events, i);
    }
    UncommentedNone(lines);
    NormalizedRender(lines);
    RoundTrip(d, events, lines, EncodeAll(events));
  }

  // ----- a connection that breaks

  /** `a` shows no event that `b` does not show at the same place. */
  predicate Within(a: Events, b: Events) {
    |a.events| <= |b.events| && a.events == b.events[..|a.events|]
  }

  lemma ParseCons(d: Decoder, r: Record, line: Bytes, rest: Lines)
    ensures var step := ParseLine(d, r, line);
            Parse(d, r, Cons(line, rest)) == (if step.Fail? then Events([], true)
                                              else if step.Go? then Parse(d, step.next, rest)
                                              else Before(step.event, Parse(d, EMPTY, rest)))
  {
    assert ([line] + rest.lines)[1..] == rest.lines;
  }

  /** Bytes without a line end never complete a record. */
  lemma CutLineYieldsNothing(d: Decoder, r: Record, s: Bytes, first: bool)
    requires NoBreaks(s) && (first ==> r == EMPTY)
    ensures Parse(d, r, Split(s, first)).events == []
  {
    if s != [] {
      FirstBreakAt(s, |s|);
      if |s| <= MAX_SSE_LINE_BYTES && Utf8Valid(s[..|s|]) {
        assert s[..|s|] == s;
        ParseCons(d, r, StripBom(s, first), Lines([], false));
      }
    }
  }

  lemma WithinStep(d: Decoder, r: Record, line: Bytes, a: Lines, b: Lines)
    requires ParseLine(d, r, line).Go? ==> Within(Parse(d, ParseLine(d, r, line).next, a), Parse(d, ParseLine(d, r, line).next, b))
    requires ParseLine(d, r, line).Emit? ==> Within(Parse(d, EMPTY, a), Parse(d, EMPTY, b))
    ensures Within(Parse(d, r, Cons(line, a)), Parse(d, r, Cons(line, b)))
  {
    ParseCons(d, r, line, a);
    ParseCons(d, r, line, b);
  }

  lemma CutTail(s: Bytes, n: nat, k: nat)
    requires k < n <= |s|
    ensures NextStart(s[..n], k) <= n
    ensures s[..n][NextStart(s[..n], k)..] == []
         || (NextStart(s[..n], k) == NextStart(s, k)
             && s[..n][NextStart(s, k)..] == s[NextStart(s, k)..][..n - NextStart(s, k)])
  {
  }

  /** Cutting after a line end leaves that line, and a cut of the rest. */
  lemma CutSplit(s: Bytes, first: bool, n: nat) returns (line: Bytes, rest: Bytes, m: nat)
    requires FirstBreak(s) < n <= |s|
    ensures |rest| < |s| && m <= |rest|
    ensures (Split(s, first) == Lines([], true) && Split(s[..n], first) == Lines([], true))
         || (Split(s, first) == Cons(line, Split(rest, false)) && Split(s[..n], first) == Cons(line, Split(rest[..m], false)))
  {
    var t, k := s[..n], FirstBreak(s);
    FirstBreakAt(t, k);
    assert t[..k] == s[..k];
    CutTail(s, n, k);
    line, rest := StripBom(s[..k], first), s[NextStart(s, k)..];
    m := if t[NextStart(t, k)..] == [] then 0 else n - NextStart(s, k);
    assert rest[..m] == t[NextStart(t, k)..];
  }

  lemma {:induction false} CutParse(d: Decoder, r: Record, s: Bytes, first: bool, n: nat)
    requires n <= |s| && (first ==> r == EMPTY)
    ensures Within(Parse(d, r, Split(s[..n], first)), Parse(d, r, Split(s, first)))
    decreases |s|, 0
  {
    if n <= FirstBreak(s) {
      CutLineYieldsNothing(d, r, s[..n], first);
    } else {
      var line, rest, m := CutSplit(s, first, n);
      if Split(s, first) != Lines([], true) {
        CutStep(d, r, line, rest, m);
      }
    }
  }

  lemma {:induction false} CutStep(d: Decoder, r: Record, line: Bytes, rest: Bytes, m: nat)
    requires m <= |rest|
    ensures Within(Parse(d, r, Cons(line, Split(rest[..m], false))), Parse(d, r, Cons(line, Split(rest, false))))
    decreases |rest|, 1
  {
    var step := ParseLine(d, r, line);
    if step.Go? {
      CutParse(d, step.next, rest, false, m);
    } else if step.Emit? {
      CutParse(d, EMPTY, rest, false, m);
    }
    WithinStep(d, r, line, Split(rest[..m], false), Split(rest, false));
  }

  /** A connection cut after any byte shows only events the whole body shows, and each of them complete. */
  lemma CutConnection(d: Decoder, body: Bytes, n: nat)
    requires n <= |body|
    ensures Within(Read(d, body[..n]), Read(d, body))
  {
    CutParse(d, EMPTY, body, true, n);
  }

  lemma {:induction false} EndInPrefix(a: seq<Event>, b: seq<Event>)
    requires |a| <= |b| && a == b[..|a|] && !UpToEnd(a).failed
    ensures UpToEnd(b) == UpToEnd(a)
    decreases |a|
  {
    assert a[0] == b[0];
    if a[0].name != STREAM_END {
      assert a[1..] == b[1..][..|a| - 1];
      EndInPrefix(a[1..], b[1..]);
    }
  }

  /** A broken connection never passes for a finished stream: the client fails, or has what the whole body gives. */
  lemma CutFailsOrIsComplete(d: Decoder, body: Bytes, n: nat)
    requires n <= |body| && !Client(d, body[..n]).failed
    ensures Client(d, body[..n]) == Client(d, body)
  {
    CutConnection(d, body, n);
    EndInPrefix(Read(d, body[..n]).events, Read(d, body).events);
  }
}
