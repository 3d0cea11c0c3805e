/** Guarantees of a Task event stream over every run, and the subscription object itself. */
module EventStreamTheorems {
  import opened Common
  import opened EventLog
  import opened EventStream

  // ----- delivery

  predicate Opens(view: View, task: string, run: nat, cursor: Option<nat>, nextId: nat) {
    && Increasing(view.log)
    && LastId(view.log) < nextId
    && OpenStream(view, task, run, cursor, nextId).Ok?
  }

  lemma EmptyRange(log: Log, task: string, run: nat, at: nat)
    requires Increasing(log)
    ensures Select(log, task, run, at, at) == []
  {
    SelectEnds(log, task, run, at, at);
  }

  lemma FreshOk(log: Log, s: Sub, at: nat, data: EventData)
    requires Increasing(log) && at <= LastId(log)
    requires s.after == at && s.pending == [Snapshot(at, data)]
    ensures StreamOk(s, at, [], log)
  {
    EmptyRange(log, s.task, s.run, at);
    assert [] + s.pending == s.pending;
    assert s.pending[..0] == [];
  }

  lemma ResumedOk(log: Log, s: Sub, e: StoredEvent)
    requires Increasing(log) && e in log && s.after == e.id && s.pending == []
    ensures StreamOk(s, e.id, [], log)
  {
    EmptyRange(log, s.task, s.run, e.id);
    assert [] + s.pending == [];
  }

  lemma OpenedOk(view: View, task: string, run: nat, cursor: Option<nat>, nextId: nat)
    requires Opens(view, task, run, cursor, nextId)
    ensures var (s, view') := OpenStream(view, task, run, cursor, nextId).value;
            && Grows(view.log, view'.log)
            && StreamOk(s, s.after, [], view'.log)
            && s.task == task && s.run == run && !s.closed
            && (cursor.Some? ==> s.after == cursor.value && view' == view)
  {
    var (s, view') := OpenStream(view, task, run, cursor, nextId).value;
    match cursor
    case Some(id) =>
      var e :| e in view.log && e.id == id && e.task == task && e.run == run;
      ResumedOk(view.log, s, e);
    case None =>
      var known := After(view.log, task, run, 0);
      SelectSound(view.log, task, run, 0, LastId(view.log));
      if known != [] {
        assert known[|known| - 1] in known;
      }
      FreshOk(view'.log, s, s.after, s.pending[0].data);
  }

  /**
   However commits, batches and deltas interleave, the durable events a stream
   yields are a gap-free, duplicate-free initial part of its run's events after
   its start, in strictly increasing id order; `stream.end` comes at most once
   and last.
   */
  lemma StreamDelivers(view: View, task: string, run: nat, cursor: Option<nat>, nextId: nat, inputs: seq<Input>)
    requires Opens(view, task, run, cursor, nextId)
    requires Chained(OpenStream(view, task, run, cursor, nextId).value.1.log, inputs)
    ensures var (s, view') := OpenStream(view, task, run, cursor, nextId).value;
            var outs := RunStream(s, inputs).1;
            && StoredOf(outs) <= After(FinalLog(view'.log, inputs), task, run, s.after)
            && Increasing(StoredOf(outs))
            && (forall i :: 0 <= i < |outs| && outs[i].End? ==> i == |outs| - 1)
  {
    var (s, view') := OpenStream(view, task, run, cursor, nextId).value;
    OpenedOk(view, task, run, cursor, nextId);
    OpenRunDelivers(s, s.after, view'.log, inputs);
    var outs := RunStream(s, inputs).1;
    RunKeeps(s, s.after, [], view'.log, inputs);
    assert [] + outs == outs;
    if HasEnded(outs) {
      NoEndAt(outs[..|outs| - 1]);
      assert forall i :: 0 <= i < |outs| - 1 ==> outs[i] == outs[..|outs| - 1][i];
    } else {
      NoEndAt(outs);
    }
  }

  lemma NoEndAt(outs: seq<Out>)
    requires NoEnd(outs)
    ensures forall i :: 0 <= i < |outs| ==> !outs[i].End?
  {
    forall i | 0 <= i < |outs| ensures !outs[i].End? {
      assert outs[i] in outs;
    }
  }

  lemma OpenRunDelivers(s: Sub, start: nat, log: Log, inputs: seq<Input>)
    requires StreamOk(s, start, [], log) && Chained(log, inputs)
    ensures var outs := RunStream(s, inputs).1;
            StoredOf(outs) <= After(FinalLog(log, inputs), s.task, s.run, start) && Increasing(StoredOf(outs))
  {
    var (s', outs) := RunStream(s, inputs);
    var final := FinalLog(log, inputs);
    RunKeeps(s, start, [], log, inputs);
    SameStream(s, inputs);
    assert [] + outs == outs;
    StoredOfAppend(outs, s'.pending);
    SelectSplit(final, s.task, s.run, start, s'.after, LastId(final));
    SelectSound(final, s.task, s.run, start, LastId(final));
    var all := After(final, s.task, s.run, start);
    assert StoredOf(outs) <= all;
    forall i, j | 0 <= i < j < |StoredOf(outs)| ensures StoredOf(outs)[i].id < StoredOf(outs)[j].id {
      assert StoredOf(outs)[i] == all[i] && StoredOf(outs)[j] == all[j];
    }
  }

  lemma {:induction false} SameStream(s: Sub, inputs: seq<Input>)
    ensures RunStream(s, inputs).0.task == s.task && RunStream(s, inputs).0.run == s.run
    decreases |inputs|
  {
    if inputs == [] {
    } else {
      PassSameStream(s, inputs[0]);
      SameStream(Pass(s, inputs[0]).0, inputs[1..]);
    }
  }

  lemma PassSameStream(s: Sub, input: Input)
    ensures Pass(s, input).0.task == s.task && Pass(s, input).0.run == s.run
  {
  }

  // ----- cutting and resuming

  /** The id a client resumes from. */
  function LastDelivered(start: nat, outs: seq<Out>): nat {
    if StoredOf(outs) == [] then start else StoredOf(outs)[|StoredOf(outs)| - 1].id
  }

  /**
   Cutting a stream anywhere and resuming from the last delivered id yields the
   same concatenated sequence as one uncut stream: together the two parts are an
   initial part of the run's events after the first start.
   */
  lemma ResumeContinues(view: View, task: string, run: nat, cursor: Option<nat>, nextId: nat, first: seq<Input>,
                        later: View, laterId: nat, second: seq<Input>)
    requires Opens(view, task, run, cursor, nextId)
    requires Chained(OpenStream(view, task, run, cursor, nextId).value.1.log, first)
    requires var (s, view') := OpenStream(view, task, run, cursor, nextId).value;
             && Grows(FinalLog(view'.log, first), later.log)
             && Opens(later, task, run, Some(LastDelivered(s.after, RunStream(s, first).1)), laterId)
    requires Chained(later.log, second)
    ensures var (s, view') := OpenStream(view, task, run, cursor, nextId).value;
            var cut := RunStream(s, first).1;
            var (t, _) := OpenStream(later, task, run, Some(LastDelivered(s.after, cut)), laterId).value;
            StoredOf(cut) + StoredOf(RunStream(t, second).1) <= After(FinalLog(later.log, second), task, run, s.after)
  {
    var (s, view') := OpenStream(view, task, run, cursor, nextId).value;
    var d := LastDelivered(s.after, RunStream(s, first).1);
    var (t, _) := OpenStream(later, task, run, Some(d), laterId).value;
    OpenedOk(view, task, run, cursor, nextId);
    OpenedOk(later, task, run, Some(d), laterId);
    ResumeFrom(s, view'.log, first, t, later.log, second);
  }

  lemma ResumeFrom(s: Sub, log: Log, first: seq<Input>, t: Sub, later: Log, second: seq<Input>)
    requires StreamOk(s, s.after, [], log) && Chained(log, first)
    requires Grows(FinalLog(log, first), later)
    requires t.task == s.task && t.run == s.run && t.after == LastDelivered(s.after, RunStream(s, first).1)
    requires StreamOk(t, t.after, [], later) && Chained(later, second)
    ensures StoredOf(RunStream(s, first).1) + StoredOf(RunStream(t, second).1) <=
              After(FinalLog(later, second), s.task, s.run, s.after)
  {
    var middle, final := FinalLog(log, first), FinalLog(later, second);
    var cut := StoredOf(RunStream(s, first).1);
    OpenRunDelivers(s, s.after, log, first);
    OpenRunDelivers(t, t.after, later, second);
    ChainGrows(log, first);
    ChainGrows(later, second);
    CutIsRange(middle, s.task, s.run, s.after, cut, t.after);
    assert Grows(middle, final);
    SelectGrows(middle, final, s.task, s.run, s.after, t.after);
    LastIdGrows(middle, final);
    SelectSplit(final, s.task, s.run, s.after, t.after, LastId(final));
    PrefixAfter(cut, StoredOf(RunStream(t, second).1), After(final, s.task, s.run, t.after));
  }

  lemma PrefixAfter(a: Log, b: Log, c: Log)
    requires b <= c
    ensures a + b <= a + c
  {
  }

  lemma CutIsRange(log: Log, task: string, run: nat, start: nat, part: Log, d: nat)
    requires Increasing(log) && start <= LastId(log) && part <= After(log, task, run, start)
    requires d == if part == [] then start else part[|part| - 1].id
    ensures Select(log, task, run, start, d) == part && start <= d <= LastId(log)
  {
    if part == [] {
      SelectSplit(log, task, run, start, start, start);
      var empty := Select(log, task, run, start, start);
      assert |empty| + |empty| == |empty|;
    } else {
      PrefixIsRange(log, task, run, start, LastId(log), part);
    }
  }

  lemma {:induction false} ChainGrows(log: Log, inputs: seq<Input>)
    requires Increasing(log) && Chained(log, inputs)
    ensures Grows(log, FinalLog(log, inputs)) && LastId(log) <= LastId(FinalLog(log, inputs))
    decreases |inputs|
  {
    if inputs == [] {
    } else {
      ChainGrows(LogAfter(log, inputs[0]), inputs[1..]);
      LastIdGrows(log, FinalLog(log, inputs));
    }
  }

  // ----- the end

  /**
   When a stream ends, every event of its run in the log has been delivered, and
   the reason is the Task row's at that very moment: `superseded` if a later run
   has started, the row's own end reason if it is still this run.
   */
  lemma StreamEndsTruthfully(s: Sub, start: nat, log: Log, before: seq<Input>, poll: Input, after: seq<Input>)
    requires StreamOk(s, start, [], log) && poll.Poll?
    requires Chained(log, before) && Admissible(FinalLog(log, before), poll) && Chained(poll.third.log, after)
    requires var s' := RunStream(s, before).0; Pass(s', poll).1.Yield? && Pass(s', poll).1.out.End?
    ensures var s' := RunStream(s, before).0;
            var reason := Pass(s', poll).1.out.reason;
            var outs := RunStream(s, before + [poll] + after).1;
            && outs == RunStream(s, before).1 + [End(reason)]
            && StoredOf(outs) == After(poll.first.log, s.task, s.run, start)
            && (poll.first.row.Some? && poll.first.row.value.run > s.run ==> reason == Superseded)
            && (poll.first.row.Some? && poll.first.row.value.run == s.run ==> RowReason(poll.first.row.value) == Some(reason))
  {
    var (s', done) := RunStream(s, before);
    RunKeeps(s, start, [], log, before);
    SameStream(s, before);
    assert [] + done == done;
    StreamGrows(s', start, done, FinalLog(log, before), poll.first.log);
    EndMoment(s', start, done, poll);
    ClosedStaysSilent(Pass(s', poll).0, after);
    RunThree(s, before, poll, after);
    assert done + Yielded(Pass(s', poll).1) + [] == done + [Pass(s', poll).1.out];
  }

  lemma RunThree(s: Sub, before: seq<Input>, poll: Input, after: seq<Input>)
    ensures var (s', done) := RunStream(s, before);
            var (e, r) := Pass(s', poll);
            RunStream(s, before + [poll] + after).1 == done + Yielded(r) + RunStream(e, after).1
  {
    var (s', done) := RunStream(s, before);
    var (e, r) := Pass(s', poll);
    RunAppend(s, before, [poll] + after);
    assert ([poll] + after)[0] == poll && ([poll] + after)[1..] == after;
    assert before + [poll] + after == before + ([poll] + after);
    Associate(done, Yielded(r), RunStream(e, after).1);
  }

  /** The pass that ends the stream. */
  lemma EndMoment(s: Sub, start: nat, done: seq<Out>, poll: Input)
    requires poll.Poll? && StreamOk(s, start, done, poll.first.log)
    requires Pass(s, poll).1.Yield? && Pass(s, poll).1.out.End?
    ensures var (e, r) := Pass(s, poll);
            && e.closed && e.endReason == None && e.pending == []
            && StoredOf(done + [r.out]) == After(poll.first.log, s.task, s.run, start)
            && (poll.first.row.Some? && poll.first.row.value.run > s.run ==> r.out.reason == Superseded)
            && (poll.first.row.Some? && poll.first.row.value.run == s.run ==> RowReason(poll.first.row.value) == Some(r.out.reason))
  {
    var r := Pass(s, poll).1;
    NoEndAt(s.pending);
    assert done + s.pending == done;
    EverythingDelivered(s, start, poll.first.log);
    StoredOfAppend(done, [r.out]);
    assert [r.out][..0] == [];
  }

  lemma EverythingDelivered(s: Sub, start: nat, log: Log)
    requires Increasing(log) && start <= s.after <= LastId(log)
    requires NextBatch(s, log) == []
    ensures Select(log, s.task, s.run, start, s.after) == After(log, s.task, s.run, start)
  {
    NothingToBatch(s, log);
    SelectSplit(log, s.task, s.run, start, s.after, LastId(log));
  }

  lemma NothingToBatch(s: Sub, log: Log)
    ensures NextBatch(s, log) == [] <==> After(log, s.task, s.run, s.after) == []
  {
  }

  lemma {:induction false} ClosedStaysSilent(s: Sub, inputs: seq<Input>)
    requires s.closed && s.endReason == None && s.pending == []
    ensures RunStream(s, inputs) == (s, [])
    decreases |inputs|
  {
    if inputs == [] {
    } else {
      assert Pass(s, inputs[0]).0 == s && Yielded(Pass(s, inputs[0]).1) == [];
      ClosedStaysSilent(s, inputs[1..]);
      assert [] + RunStream(s, inputs[1..]).1 == [];
    }
  }

  lemma {:induction false} RunAppend(s: Sub, a: seq<Input>, b: seq<Input>)
    ensures RunStream(s, a + b).0 == RunStream(RunStream(s, a).0, b).0
    ensures RunStream(s, a + b).1 == RunStream(s, a).1 + RunStream(RunStream(s, a).0, b).1
    decreases |a|
  {
    if a == [] {
      assert a + b == b;
    } else {
      var (s', r) := Pass(s, a[0]);
      assert (a + b)[1..] == a[1..] + b;
      RunAppend(s', a[1..], b);
      Associate(Yielded(r), RunStream(s', a[1..]).1, RunStream(RunStream(s, a).0, b).1);
    }
  }

  // ----- completeness: a settled run is delivered to its end

  /** Nothing is committed any more, and the run is over. */
  predicate SettledView(s: Sub, v: View) {
    && Increasing(v.log)
    && (v.row.Some? ==> v.row.value.run >= s.run && (v.row.value.run == s.run ==> RowReason(v.row.value).Some?))
    && (v.row.Some? && v.row.value.run == s.run ==> !s.historical)
  }

  function FinalReason(s: Sub, v: View): EndReason
    requires SettledView(s, v)
  {
    if v.row.None? then StreamError
    else if v.row.value.run > s.run then Superseded
    else RowReason(v.row.value).value
  }

  function QuietPoll(v: View): Input {
    Poll(None, false, v, v, v)
  }

  function Remaining(s: Sub, v: View): nat {
    2 * |After(v.log, s.task, s.run, s.after)| + |s.pending|
  }

  /** What an open stream of a settled run still owes, apart from its end. */
  function Owed(s: Sub, v: View): seq<Out> {
    s.pending + AsOuts(After(v.log, s.task, s.run, s.after))
  }

  predicate Draining(s: Sub, v: View) {
    SettledView(s, v) && s.after <= LastId(v.log) && !s.closed && NoEnd(s.pending)
  }

  /** Polling an open stream of a settled run yields what is left of it and then its end. */
  lemma {:induction false} QuietDrain(s: Sub, v: View) returns (polls: nat, reason: EndReason)
    requires Draining(s, v)
    ensures RunStream(s, seq(polls, _ => QuietPoll(v))).1 == Owed(s, v) + [End(reason)]
    ensures v.row.Some? ==> reason == FinalReason(s, v)
    decreases Remaining(s, v), if s.endReason.None? then 1 else 0
  {
    var p := QuietPoll(v);
    var (s', r) := Pass(s, p);
    if r.Yield? && r.out.End? {
      polls, reason := 1, r.out.reason;
      DrainEnd(s, v);
      assert seq(1, _ => p)[1..] == [];
      assert Yielded(r) + [] == [End(reason)];
    } else {
      DrainStep(s, v);
      polls, reason := QuietDrain(s', v);
      assert seq(polls + 1, _ => p)[1..] == seq(polls, _ => p);
      Associate(Yielded(r), Owed(s', v), [End(reason)]);
      polls := polls + 1;
    }
  }

  lemma DrainEnd(s: Sub, v: View)
    requires Draining(s, v)
    requires var r := Pass(s, QuietPoll(v)).1; r.Yield? && r.out.End?
    ensures Owed(s, v) == []
    ensures v.row.Some? ==> Pass(s, QuietPoll(v)).1.out.reason == FinalReason(s, v)
  {
    NoEndAt(s.pending);
    EverythingDelivered(s, s.after, v.log);
    EmptyRange(v.log, s.task, s.run, s.after);
  }

  /** A batch is the front of what is stored after the start. */
  lemma BatchIsFront(s: Sub, v: View)
    requires Draining(s, v) && NextBatch(s, v.log) != []
    ensures var batch := NextBatch(s, v.log);
            After(v.log, s.task, s.run, s.after) == batch + After(v.log, s.task, s.run, batch[|batch| - 1].id)
            && batch[|batch| - 1].id <= LastId(v.log)
  {
    var batch := NextBatch(s, v.log);
    PrefixIsRange(v.log, s.task, s.run, s.after, LastId(v.log), batch);
    SelectSplit(v.log, s.task, s.run, s.after, batch[|batch| - 1].id, LastId(v.log));
  }

  lemma AsOutsAppend(a: Log, b: Log)
    ensures AsOuts(a + b) == AsOuts(a) + AsOuts(b)
  {
  }

  lemma DrainQueue(s: Sub, v: View)
    requires Draining(s, v) && s.pending == [] && NextBatch(s, v.log) != []
    ensures var s' := Queue(s, NextBatch(s, v.log));
            Draining(s', v) && Owed(s', v) == Owed(s, v) && Remaining(s', v) < Remaining(s, v)
  {
    var batch := NextBatch(s, v.log);
    var left := After(v.log, s.task, s.run, batch[|batch| - 1].id);
    BatchIsFront(s, v);
    AsOutsAppend(batch, left);
    NoEndAppend([], batch);
    assert [] + AsOuts(batch) == AsOuts(batch);
    assert [] + AsOuts(batch + left) == AsOuts(batch + left);
  }

  lemma DrainPop(s: Sub, v: View)
    requires Draining(s, v) && s.pending != []
    ensures var (s', r) := Pass(s, QuietPoll(v));
            Draining(s', v) && Owed(s, v) == Yielded(r) + Owed(s', v) && Remaining(s', v) < Remaining(s, v)
  {
    assert s.pending == [s.pending[0]] + s.pending[1..];
  }

  /** One quiet pass yields the next pending output, queues stored events, or learns the end reason. */
  lemma DrainStep(s: Sub, v: View)
    requires Draining(s, v)
    requires var r := Pass(s, QuietPoll(v)).1; !(r.Yield? && r.out.End?)
    ensures var (s', r) := Pass(s, QuietPoll(v));
            && Draining(s', v)
            && FinalReason(s', v) == FinalReason(s, v)
            && Owed(s, v) == Yielded(r) + Owed(s', v)
            && (Remaining(s', v) < Remaining(s, v)
                || (Remaining(s', v) == Remaining(s, v) && s.endReason.None? && s'.endReason.Some?))
  {
    var s' := Pass(s, QuietPoll(v)).0;
    assert [] + Owed(s', v) == Owed(s', v);
    if s.pending != [] {
      DrainPop(s, v);
    } else if NextBatch(s, v.log) != [] {
      DrainQueue(s, v);
    } else {
      DrainReason(s, v);
    }
  }

  lemma DrainReason(s: Sub, v: View)
    requires Draining(s, v) && s.pending == [] && NextBatch(s, v.log) == []
    requires var r := Pass(s, QuietPoll(v)).1; !(r.Yield? && r.out.End?)
    ensures Pass(s, QuietPoll(v)) == (s.(endReason := RowEnds(s, v.row)), Again)
    ensures s.endReason.None? && RowEnds(s, v.row).Some?
  {
  }

  // ----- the object

  /** `__anext__` over a supply of passes: the state, the outcome, and how many passes it took. */
  function Anext(s: Sub, polls: seq<Input>): (Sub, Step, nat)
    decreases |polls|
  {
    if polls == [] then (s, Again, 0)
    else
      var (s', r) := Pass(s, polls[0]);
      if r != Again then (s', r, 1)
      else
        var (end, r', n) := Anext(s', polls[1..]);
        (end, r', n + 1)
  }

  /** Calling it is running the stream over the passes it used. */
  lemma {:induction false} AnextIsRun(s: Sub, polls: seq<Input>)
    ensures var (end, r, n) := Anext(s, polls);
            n <= |polls| && RunStream(s, polls[..n]) == (end, Yielded(r))
    decreases |polls|
  {
    if polls == [] {
    } else {
      var (s', r) := Pass(s, polls[0]);
      if r != Again {
        assert polls[..1][1..] == [];
        assert Yielded(r) + [] == Yielded(r);
      } else {
        AnextIsRun(s', polls[1..]);
        var n := Anext(s, polls).2;
        assert polls[..n][1..] == polls[1..][..n - 1];
        assert [] + RunStream(s', polls[1..][..n - 1]).1 == RunStream(s', polls[1..][..n - 1]).1;
      }
    }
  }

  class TaskEventSubscription {
    const task: string
    const run: nat
    const historical: bool
    var afterEventId: nat
    var pending: seq<Out>
    var subscribed: bool
    var endReason: Option<EndReason>
    var closed: bool

    ghost function State(): Sub
      reads this
    {
      Sub(task, run, afterEventId, pending, subscribed, historical, endReason, closed)
    }

    constructor (initial: Sub)
      ensures State() == initial
    {
      task := initial.task;
      run := initial.run;
      historical := initial.historical;
      afterEventId := initial.after;
      pending := initial.pending;
      subscribed := initial.subscribed;
      endReason := initial.endReason;
      closed := initial.closed;
    }

    method QueueStoredEvents(log: Log) returns (queued: bool)
      requires Increasing(log)
      modifies this`pending, this`afterEventId
      ensures var batch := NextBatch(old(State()), log);
              queued == (batch != []) && State() == if batch != [] then Queue(old(State()), batch) else old(State())
    {
      var events := ScanEvents(log, task, run, afterEventId, EVENT_BATCH_SIZE);
      if events == [] {
        return false;
      }
      pending := pending + AsOuts(events);
      afterEventId := events[|events| - 1].id;
      return true;
    }

    method ObserveEvent(event: Out)
      modifies this`endReason
      ensures State() == Observe(old(State()), event)
    {
      if historical {
        return;
      }
      match event
      case Snapshot(_, data) => endReason := DataReason(data);
      case Durable(stored) =>
        if stored.kind != ArtifactPublished {
          endReason := DataReason(stored.data);
        }
      case _ =>
    }

    method Aclose()
      modifies this`closed, this`subscribed
      ensures State() == Pass(old(State()), Abandon).0
    {
      if closed {
        return;
      }
      closed := true;
      subscribed := false;
    }

    /** The decision under the ledger lock; `Again` means the loop goes on. */
    method DecideEnd(view: View) returns (r: Step)
      requires endReason.Some? && Increasing(view.log)
      modifies this
      ensures (State(), r) == Decide(old(State()), view)
    {
      var queued := QueueStoredEvents(view.log);
      if queued {
        return Again;
      }
      var reason := endReason.value;
      if view.row.Some? && view.row.value.run > run {
        reason := Superseded;
      } else if view.row.Some? && view.row.value.run == run {
        var current := RowReason(view.row.value);
        if current.None? {
          endReason := None;
          return Again;
        }
        reason := current.value;
      }
      endReason := None;
      closed := true;
      subscribed := false;
      return Yield(End(reason));
    }

    /** One turn of the loop of `__anext__`; `Again` means another turn. */
    method TakePass(poll: Input) returns (r: Step)
      requires poll.Poll? && Increasing(poll.first.log) && Increasing(poll.third.log)
      modifies this
      ensures (State(), r) == Pass(old(State()), poll)
    {
      if pending != [] {
        var event := pending[0];
        pending := pending[1..];
        ObserveEvent(event);
        return Yield(event);
      }
      if endReason.Some? {
        r := DecideEnd(poll.first);
        return;
      }
      if closed {
        return Stop;
      }
      if subscribed {
        if poll.item.Some? {
          return Yield(Delta(poll.item.value));
        }
        if poll.ledgerClosed {
          Aclose();
          return Unavailable;
        }
      }
      TailOnce(poll.first, poll.second, poll.third);
      return Again;
    }

    method Next(polls: seq<Input>) returns (r: Step, used: nat)
      requires forall p :: p in polls ==> p.Poll? && Increasing(p.first.log) && Increasing(p.third.log)
      modifies this
      ensures (State(), r, used) == Anext(old(State()), polls)
    {
      used := 0;
      ghost var start := State();
      while used < |polls|
        invariant 0 <= used <= |polls|
        invariant var (s, rr, n) := Anext(State(), polls[used..]);
                  Anext(start, polls) == (s, rr, n + used)
        decreases |polls| - used
      {
        assert polls[used..][0] == polls[used] && polls[used..][1..] == polls[used + 1..];
        r := TakePass(polls[used]);
        used := used + 1;
        if r != Again {
          return;
        }
      }
      return Again, used;
    }

    /** Both tail queries and the row read between them. */
    method TailOnce(first: View, second: View, third: View)
      requires Increasing(first.log) && Increasing(third.log)
      modifies this
      ensures (State(), Again) == Tail(old(State()), first, second, third)
    {
      var queued := QueueStoredEvents(first.log);
      if queued {
        return;
      }
      var ending: Option<EndReason> := None;
      if second.row.None? {
        ending := Some(StreamError);
      } else if second.row.value.run > run || historical {
        ending := Some(Superseded);
      } else {
        ending := RowReason(second.row.value);
      }
      if ending.Some? {
        queued := QueueStoredEvents(third.log);
        if !queued {
          endReason := ending;
        }
      } else if !subscribed {
        endReason := Some(Superseded);
      }
    }
  }
}
