/**
 One Task event subscription: an asynchronous reader of the append-only event
 log, resumed by event id, with transient deltas interleaved and an end that is
 decided against the log and the Task row at one moment.

 Between any two reads of the store the log may have grown and the Task row may
 have changed; every read is therefore given its own `View`.
 */
module EventStream {
  import opened Common
  import opened EventLog

  const EVENT_BATCH_SIZE: nat := 100

  datatype EndReason = ReviewRequired | RunCompleted | RunFailed | RunCancelled | RunInterrupted | Superseded | StreamError

  /** The Task row; `projectedReview` is what survives projecting its pending review. */
  datatype TaskRow = TaskRow(run: nat, state: TaskState, pendingReview: bool, projectedReview: bool, body: string)

  datatype View = View(log: Log, row: Option<TaskRow>)

  datatype Out =
    | Snapshot(id: nat, data: EventData)
    | Durable(event: StoredEvent)
    | Delta(text: string)
    | End(reason: EndReason)

  function StateReason(state: TaskState): Option<EndReason>
  {
    match state
    case WaitingForHuman => Some(ReviewRequired)
    case Completed => Some(RunCompleted)
    case Failed => Some(RunFailed)
    case Cancelled => Some(RunCancelled)
    case Interrupted => Some(RunInterrupted)
    case _ => None
  }

  /** `end_reason_for_record`. */
  function RowReason(row: TaskRow): Option<EndReason> {
    if row.pendingReview then Some(ReviewRequired) else StateReason(row.state)
  }

  /** `end_reason_from_data`. */
  function DataReason(data: EventData): Option<EndReason> {
    if data.pendingReview then Some(ReviewRequired)
    else if data.status.None? then None
    else StateReason(data.status.value)
  }

  function RowData(row: TaskRow): EventData {
    EventData(Some(row.state), row.projectedReview, row.body)
  }

  function LifecycleType(state: TaskState): EventType
  {
    match state
    case Pending => TaskCreated
    case Running => TaskRunning
    case WaitingForHuman => TaskReviewRequested
    case Completed => TaskCompleted
    case Failed => TaskFailed
    case Cancelled => TaskCancelled
    case Interrupted => TaskInterrupted
  }

  /** `TaskEventSubscription`; `subscribed` says whether a live subscriber is registered. */
  datatype Sub = Sub(
    task: string,
    run: nat,
    after: nat,
    pending: seq<Out>,
    subscribed: bool,
    historical: bool,
    endReason: Option<EndReason>,
    closed: bool)

  // ----- opening

  datatype OpenError = UnknownTask | RunMismatch | InvalidCursor

  /**
   `open_stream`.  A fresh stream anchors itself at the latest event of the run,
   or appends one under the next id, and starts with a snapshot; a resumed one
   starts right after its cursor.
   */
  function OpenStream(view: View, task: string, run: nat, cursor: Option<nat>, nextId: nat): Result<(Sub, View), OpenError>
  {
    if view.row.None? then Err(UnknownTask)
    else
      var row := view.row.value;
      match cursor
      case None =>
        if row.run != run then Err(RunMismatch)
        else
          var known := After(view.log, task, run, 0);
          if known != [] then
            var anchor := known[|known| - 1].id;
            Ok((Sub(task, run, anchor, [Snapshot(anchor, RowData(row))], true, false, None, false), view))
          else
            var anchor := StoredEvent(nextId, task, run, LifecycleType(row.state), RowData(row));
            Ok((Sub(task, run, nextId, [Snapshot(nextId, RowData(row))], true, false, None, false),
                view.(log := view.log + [anchor])))
      case Some(id) =>
        if !exists e :: e in view.log && e.id == id && e.task == task && e.run == run then Err(InvalidCursor)
        else if row.run < run then Err(RunMismatch)
        else Ok((Sub(task, run, id, [], row.run == run, row.run > run, None, false), view))
  }

  // ----- one pass of the loop in `__anext__`

  /**
   What one pass finds: the delta the subscriber queue hands out (if any),
   whether the ledger was closed, and the store at each of the three places the
   pass may read it.  The end decision holds the ledger lock, so it sees one
   store only, `first`.
   */
  datatype Input =
    | Poll(item: Option<string>, ledgerClosed: bool, first: View, second: View, third: View)
    | Abandon  // `aclose`

  datatype Step = Yield(out: Out) | Again | Stop | Unavailable

  function FullState(out: Out): Option<EventData>
  {
    match out
    case Snapshot(_, data) => Some(data)
    case Durable(event) => if event.kind == ArtifactPublished then None else Some(event.data)
    case _ => None
  }

  /** `_observe_event`. */
  function Observe(s: Sub, out: Out): Sub {
    if s.historical || FullState(out).None? then s
    else s.(endReason := DataReason(FullState(out).value))
  }

  function AsOuts(events: Log): (outs: seq<Out>)
    ensures |outs| == |events|
    ensures forall i :: 0 <= i < |events| ==> outs[i] == Durable(events[i])
  {
    seq(|events|, i requires 0 <= i < |events| => Durable(events[i]))
  }

  function NextBatch(s: Sub, log: Log): Log {
    ListEvents(log, s.task, s.run, s.after, EVENT_BATCH_SIZE)
  }

  /** `_queue_stored_events`, when there is a batch. */
  function Queue(s: Sub, batch: Log): Sub
    requires batch != []
  {
    s.(pending := s.pending + AsOuts(batch), after := batch[|batch| - 1].id)
  }

  /** The decision made under the ledger lock once an end reason is at hand. */
  function Decide(s: Sub, view: View): (Sub, Step)
    requires s.endReason.Some?
  {
    var batch := NextBatch(s, view.log);
    if batch != [] then (Queue(s, batch), Again)
    else
      var closing := s.(endReason := None, closed := true, subscribed := false);
      if view.row.Some? && view.row.value.run > s.run then (closing, Yield(End(Superseded)))
      else if view.row.Some? && view.row.value.run == s.run then
        match RowReason(view.row.value)
        case None => (s.(endReason := None), Again)
        case Some(reason) => (closing, Yield(End(reason)))
      else (closing, Yield(End(s.endReason.value)))
  }

  /** The reason the Task row gives for ending, read without the lock. */
  function RowEnds(s: Sub, row: Option<TaskRow>): Option<EndReason> {
    if row.None? then Some(StreamError)
    else if row.value.run > s.run || s.historical then Some(Superseded)
    else RowReason(row.value)
  }

  function Tail(s: Sub, first: View, second: View, third: View): (Sub, Step)
  {
    var batch := NextBatch(s, first.log);
    if batch != [] then (Queue(s, batch), Again)
    else
      var reason := RowEnds(s, second.row);
      if reason.Some? then
        var late := NextBatch(s, third.log);
        if late != [] then (Queue(s, late), Again) else (s.(endReason := reason), Again)
      else if !s.subscribed then (s.(endReason := Some(Superseded)), Again)
      else (s, Again)
  }

  function Pass(s: Sub, input: Input): (Sub, Step)
  {
    match input
    case Abandon => (if s.closed then s else s.(closed := true, subscribed := false), Again)
    case Poll(item, ledgerClosed, first, second, third) =>
      if s.pending != [] then (Observe(s.(pending := s.pending[1..]), s.pending[0]), Yield(s.pending[0]))
      else if s.endReason.Some? then Decide(s, first)
      else if s.closed then (s, Stop)
      else if s.subscribed && item.Some? then (s, Yield(Delta(item.value)))
      else if s.subscribed && ledgerClosed then (s.(closed := true, subscribed := false), Unavailable)
      else Tail(s, first, second, third)
  }

  function Yielded(r: Step): seq<Out> {
    if r.Yield? then [r.out] else []
  }

  /** A whole run of a subscription: its final state and everything it yielded. */
  function RunStream(s: Sub, inputs: seq<Input>): (Sub, seq<Out>)
    decreases |inputs|
  {
    if inputs == [] then (s, [])
    else
      var (s', r) := Pass(s, inputs[0]);
      var (end, outs) := RunStream(s', inputs[1..]);
      (end, Yielded(r) + outs)
  }

  // ----- how the store may change meanwhile

  /** Commits append; the log never changes otherwise. */
  predicate Grows(a: Log, b: Log) {
    a <= b && Increasing(b)
  }

  predicate Admissible(log: Log, input: Input) {
    input.Poll? ==> Grows(log, input.first.log) && Grows(input.first.log, input.second.log) && Grows(input.second.log, input.third.log)
  }

  function LogAfter(log: Log, input: Input): Log {
    if input.Poll? then input.third.log else log
  }

  predicate Chained(log: Log, inputs: seq<Input>)
    decreases |inputs|
  {
    inputs == [] || (Admissible(log, inputs[0]) && Chained(LogAfter(log, inputs[0]), inputs[1..]))
  }

  function FinalLog(log: Log, inputs: seq<Input>): Log
    decreases |inputs|
  {
    if inputs == [] then log else FinalLog(LogAfter(log, inputs[0]), inputs[1..])
  }

  // ----- the invariant of a stream

  /** The durable events among the outputs, in order. */
  function StoredOf(outs: seq<Out>): Log
  {
    if outs == [] then []
    else StoredOf(outs[..|outs| - 1]) + if outs[|outs| - 1].Durable? then [outs[|outs| - 1].event] else []
  }

  predicate HasEnded(outs: seq<Out>) {
    outs != [] && outs[|outs| - 1].End?
  }

  predicate NoEnd(outs: seq<Out>) {
    forall o :: o in outs ==> !o.End?
  }

  /** At most one end, nothing after it, and nothing left to yield. */
  predicate EndClosesStream(s: Sub, done: seq<Out>) {
    if HasEnded(done) then NoEnd(done[..|done| - 1]) && s.closed && s.endReason == None && s.pending == []
    else NoEnd(done)
  }

  /** `start` is where the stream began, `done` what it has yielded, `log` the log so far. */
  predicate StreamOk(s: Sub, start: nat, done: seq<Out>, log: Log) {
    && Increasing(log)
    && start <= s.after <= LastId(log)
    && StoredOf(done + s.pending) == Select(log, s.task, s.run, start, s.after)
    && NoEnd(s.pending)
    && EndClosesStream(s, done)
  }

  lemma {:induction false} StoredOfAppend(a: seq<Out>, b: seq<Out>)
    ensures StoredOf(a + b) == StoredOf(a) + StoredOf(b)
    decreases |b|
  {
    if b == [] {
      assert a + b == a;
    } else {
      assert (a + b)[..|a + b| - 1] == a + b[..|b| - 1];
      StoredOfAppend(a, b[..|b| - 1]);
    }
  }

  lemma {:induction false} StoredOfOuts(events: Log)
    ensures StoredOf(AsOuts(events)) == events
    decreases |events|
  {
    if events == [] {
    } else {
      assert AsOuts(events)[..|events| - 1] == AsOuts(events[..|events| - 1]);
      StoredOfOuts(events[..|events| - 1]);
    }
  }

  lemma StreamGrows(s: Sub, start: nat, done: seq<Out>, a: Log, b: Log)
    requires StreamOk(s, start, done, a) && Grows(a, b)
    ensures StreamOk(s, start, done, b)
  {
    LastIdGrows(a, b);
    SelectGrows(a, b, s.task, s.run, start, s.after);
  }

  lemma LastIdGrows(a: Log, b: Log)
    requires Grows(a, b)
    ensures LastId(a) <= LastId(b)
  {
    if a != [] {
      assert a[|a| - 1] == b[|a| - 1];
    }
  }

  lemma NoEndAppend(a: seq<Out>, events: Log)
    requires NoEnd(a)
    ensures NoEnd(a + AsOuts(events))
  {
    forall o | o in a + AsOuts(events) ensures !o.End? {
      if o !in a {
        assert o in AsOuts(events);
      }
    }
  }

  lemma QueueKeeps(s: Sub, start: nat, done: seq<Out>, log: Log)
    requires StreamOk(s, start, done, log) && !HasEnded(done) && NextBatch(s, log) != []
    ensures StreamOk(Queue(s, NextBatch(s, log)), start, done, log)
  {
    var batch := NextBatch(s, log);
    var s' := Queue(s, batch);
    PrefixIsRange(log, s.task, s.run, s.after, LastId(log), batch);
    SelectSplit(log, s.task, s.run, start, s.after, s'.after);
    StoredOfOuts(batch);
    StoredOfAppend(done + s.pending, AsOuts(batch));
    assert done + s'.pending == (done + s.pending) + AsOuts(batch);
    assert batch <= After(log, s.task, s.run, s.after);
    NoEndAppend(s.pending, batch);
  }

  lemma PopKeeps(s: Sub, start: nat, done: seq<Out>, log: Log)
    requires StreamOk(s, start, done, log) && s.pending != []
    ensures StreamOk(Observe(s.(pending := s.pending[1..]), s.pending[0]), start, done + [s.pending[0]], log)
  {
    var x := s.pending[0];
    assert done + [x] + s.pending[1..] == done + s.pending;
    assert x in s.pending;
    assert NoEnd(done + [x]);
  }

  lemma DeltaKeeps(s: Sub, start: nat, done: seq<Out>, log: Log, text: string)
    requires StreamOk(s, start, done, log) && s.pending == [] && !s.closed
    ensures StreamOk(s, start, done + [Delta(text)], log)
  {
    assert done + [Delta(text)] + s.pending == done + [Delta(text)];
    assert done + s.pending == done;
    StoredOfAppend(done, [Delta(text)]);
    assert [Delta(text)][..0] == [];
  }

  lemma EndKeeps(s: Sub, start: nat, done: seq<Out>, log: Log, reason: EndReason)
    requires StreamOk(s, start, done, log) && s.pending == [] && !HasEnded(done)
    ensures StreamOk(s.(endReason := None, closed := true, subscribed := false), start, done + [End(reason)], log)
  {
    assert done + [End(reason)] + s.pending == done + [End(reason)];
    assert done + s.pending == done;
    StoredOfAppend(done, [End(reason)]);
    assert [End(reason)][..0] == [];
  }

  /** One pass keeps the stream invariant, whatever was committed during it. */
  lemma PassKeeps(s: Sub, start: nat, done: seq<Out>, log: Log, input: Input)
    requires StreamOk(s, start, done, log) && Admissible(log, input)
    ensures StreamOk(Pass(s, input).0, start, done + Yielded(Pass(s, input).1), LogAfter(log, input))
  {
    assert done + [] == done;
    if input.Poll? {
      var first, third := input.first.log, input.third.log;
      var (s', r) := Pass(s, input);
      StreamGrows(s, start, done, log, first);
      if s.pending != [] {
        PopKeeps(s, start, done, first);
        StreamGrows(s', start, done + Yielded(r), first, third);
      } else if s.endReason.Some? {
        DecideKeeps(s, start, done, input.first);
        StreamGrows(s', start, done + Yielded(r), first, third);
      } else if s.closed {
        StreamGrows(s, start, done, first, third);
      } else if s.subscribed && input.item.Some? {
        DeltaKeeps(s, start, done, first, input.item.value);
        StreamGrows(s', start, done + Yielded(r), first, third);
      } else {
        OpenPassKeeps(s, start, done, input);
      }
    }
  }

  lemma OpenPassKeeps(s: Sub, start: nat, done: seq<Out>, input: Input)
    requires input.Poll? && StreamOk(s, start, done, input.first.log) && Admissible(input.first.log, input)
    requires s.pending == [] && s.endReason == None && !s.closed && !(s.subscribed && input.item.Some?)
    ensures StreamOk(Pass(s, input).0, start, done, input.third.log) && !Pass(s, input).1.Yield?
  {
    var first, third := input.first.log, input.third.log;
    StreamGrows(s, start, done, first, third);
    if !(s.subscribed && input.ledgerClosed) {
      if NextBatch(s, first) != [] {
        QueueKeeps(s, start, done, first);
        StreamGrows(Queue(s, NextBatch(s, first)), start, done, first, third);
      } else if RowEnds(s, input.second.row).Some? && NextBatch(s, third) != [] {
        QueueKeeps(s, start, done, third);
      }
    }
  }

  lemma DecideKeeps(s: Sub, start: nat, done: seq<Out>, view: View)
    requires StreamOk(s, start, done, view.log) && s.pending == [] && s.endReason.Some?
    ensures StreamOk(Decide(s, view).0, start, done + Yielded(Decide(s, view).1), view.log)
  {
    assert done + [] == done;
    if NextBatch(s, view.log) != [] {
      QueueKeeps(s, start, done, view.log);
    } else if Decide(s, view).1.Yield? {
      EndKeeps(s, start, done, view.log, Decide(s, view).1.out.reason);
    }
  }

  lemma Associate(a: seq<Out>, b: seq<Out>, c: seq<Out>)
    ensures (a + b) + c == a + (b + c)
  {
  }

  lemma {:induction false} RunKeeps(s: Sub, start: nat, done: seq<Out>, log: Log, inputs: seq<Input>)
    requires StreamOk(s, start, done, log) && Chained(log, inputs)
    ensures StreamOk(RunStream(s, inputs).0, start, done + RunStream(s, inputs).1, FinalLog(log, inputs))
    decreases |inputs|
  {
    if inputs == [] {
      assert done + [] == done;
    } else {
      var (s', r) := Pass(s, inputs[0]);
      PassKeeps(s, start, done, log, inputs[0]);
      RunKeeps(s', start, done + Yielded(r), LogAfter(log, inputs[0]), inputs[1..]);
      Associate(done, Yielded(r), RunStream(s', inputs[1..]).1);
    }
  }
}
