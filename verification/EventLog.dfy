/** The append-only log of durable Task events and the queries a stream makes on it. */
module EventLog {
  import opened Common

  datatype TaskState = Pending | Running | WaitingForHuman | Completed | Failed | Cancelled | Interrupted

  datatype EventType =
    | TaskCreated
    | TaskRunning
    | TaskReviewRequested
    | TaskCompleted
    | TaskFailed
    | TaskCancelled
    | TaskInterrupted
    | ArtifactPublished

  /** The part of an event's data the stream looks at, and the rest of it. */
  datatype EventData = EventData(status: Option<TaskState>, pendingReview: bool, body: string)

  datatype StoredEvent = StoredEvent(id: nat, task: string, run: nat, kind: EventType, data: EventData)

  type Log = seq<StoredEvent>

  /** Event ids are positive and strictly increasing in commit order. */
  predicate Increasing(log: Log) {
    && (forall i :: 0 <= i < |log| ==> 0 < log[i].id)
    && (forall i, j :: 0 <= i < j < |log| ==> log[i].id < log[j].id)
  }

  function LastId(log: Log): nat {
    if log == [] then 0 else log[|log| - 1].id
  }

  /** The events of one run with `lo < id <= hi`, in order. */
  function Select(log: Log, task: string, run: nat, lo: nat, hi: nat): Log
  {
    if log == [] then []
    else
      var last := log[|log| - 1];
      var earlier := Select(log[..|log| - 1], task, run, lo, hi);
      if last.task == task && last.run == run && lo < last.id <= hi then earlier + [last] else earlier
  }

  /** Everything of a run after an id, as of this log. */
  function After(log: Log, task: string, run: nat, lo: nat): Log {
    Select(log, task, run, lo, LastId(log))
  }

  /** `TaskEventRepository.list`: the first `limit` events of a run after an id. */
  function ListEvents(log: Log, task: string, run: nat, after: nat, limit: nat): Log {
    var all := After(log, task, run, after);
    if |all| <= limit then all else all[..limit]
  }

  /** The query as a scan; it stops at the limit. */
  method ScanEvents(log: Log, task: string, run: nat, after: nat, limit: nat) returns (found: Log)
    requires Increasing(log) && limit > 0
    ensures found == ListEvents(log, task, run, after, limit)
  {
    found := [];
    var i := 0;
    while i < |log| && |found| < limit
      invariant 0 <= i <= |log| && |found| <= limit
      invariant found == Select(log[..i], task, run, after, LastId(log))
    {
      var e := log[i];
      assert log[..i + 1][..i] == log[..i];
      if e.task == task && e.run == run && after < e.id {
        found := found + [e];
      }
      i := i + 1;
    }
    SelectPrefix(log, i, task, run, after, LastId(log));
    assert log[..|log|] == log;
  }

  lemma {:induction false} SelectPrefix(log: Log, n: nat, task: string, run: nat, lo: nat, hi: nat)
    requires n <= |log|
    ensures Select(log[..n], task, run, lo, hi) <= Select(log, task, run, lo, hi)
    decreases |log|
  {
    if n == |log| {
      assert log[..n] == log;
    } else {
      assert log[..|log| - 1][..n] == log[..n];
      SelectPrefix(log[..|log| - 1], n, task, run, lo, hi);
    }
  }

  lemma {:induction false} SelectMembers(log: Log, task: string, run: nat, lo: nat, hi: nat)
    ensures forall e :: e in Select(log, task, run, lo, hi) <==> e in log && e.task == task && e.run == run && lo < e.id <= hi
    decreases |log|
  {
    if log == [] {
    } else {
      SelectMembers(log[..|log| - 1], task, run, lo, hi);
      assert log == log[..|log| - 1] + [log[|log| - 1]];
    }
  }

  lemma {:induction false} SelectIncreases(log: Log, task: string, run: nat, lo: nat, hi: nat)
    requires Increasing(log)
    ensures Increasing(Select(log, task, run, lo, hi))
    decreases |log|
  {
    if log == [] {
    } else {
      var front, last := log[..|log| - 1], log[|log| - 1];
      var s := Select(front, task, run, lo, hi);
      SelectIncreases(front, task, run, lo, hi);
      SelectMembers(front, task, run, lo, hi);
      forall i | 0 <= i < |s| ensures s[i].id < last.id {
        assert s[i] in s && s[i] in front;
      }
    }
  }

  /** What is selected is what the bounds say, in increasing order. */
  lemma {:induction false} SelectSound(log: Log, task: string, run: nat, lo: nat, hi: nat)
    requires Increasing(log)
    ensures Increasing(Select(log, task, run, lo, hi))
    ensures forall e :: e in Select(log, task, run, lo, hi) <==> e in log && e.task == task && e.run == run && lo < e.id <= hi
  {
    SelectMembers(log, task, run, lo, hi);
    SelectIncreases(log, task, run, lo, hi);
  }

  /** The first and the last event of a range are within it. */
  lemma SelectEnds(log: Log, task: string, run: nat, lo: nat, hi: nat)
    requires Increasing(log)
    ensures var s := Select(log, task, run, lo, hi);
            s == [] || (lo < s[0].id <= hi && s[0].id <= LastId(log) && lo < s[|s| - 1].id <= hi && s[|s| - 1].id <= LastId(log))
  {
    SelectSound(log, task, run, lo, hi);
    var s := Select(log, task, run, lo, hi);
    if s != [] {
      assert s[0] in s && s[|s| - 1] in s;
    }
  }

  lemma {:induction false} SelectNone(log: Log, task: string, run: nat, lo: nat, hi: nat)
    requires Increasing(log) && LastId(log) <= lo
    ensures Select(log, task, run, lo, hi) == []
  {
    SelectEnds(log, task, run, lo, hi);
  }

  /** Adjacent ranges concatenate: nothing is lost or repeated at the seam. */
  lemma {:induction false} SelectSplit(log: Log, task: string, run: nat, lo: nat, mid: nat, hi: nat)
    requires Increasing(log) && lo <= mid <= hi
    ensures Select(log, task, run, lo, mid) + Select(log, task, run, mid, hi) == Select(log, task, run, lo, hi)
    decreases |log|
  {
    if log == [] {
    } else {
      var front := log[..|log| - 1];
      SelectSplit(front, task, run, lo, mid, hi);
      if log[|log| - 1].id <= mid {
        SelectNone(front, task, run, mid, hi);
      }
    }
  }

  /** Commits only append, so they never change a range that was already visible. */
  lemma {:induction false} SelectGrows(a: Log, b: Log, task: string, run: nat, lo: nat, hi: nat)
    requires Increasing(b) && a <= b && hi <= LastId(a)
    ensures Select(b, task, run, lo, hi) == Select(a, task, run, lo, hi)
    decreases |b|
  {
    if |a| == |b| {
      assert a == b;
    } else {
      var front := b[..|b| - 1];
      assert a <= front;
      if a == [] {
        SelectNoneUpTo(b, task, run, lo);
      } else {
        assert a[|a| - 1] == b[|a| - 1];
        SelectGrows(a, front, task, run, lo, hi);
      }
    }
  }

  lemma {:induction false} SelectNoneUpTo(log: Log, task: string, run: nat, lo: nat)
    requires Increasing(log)
    ensures Select(log, task, run, lo, 0) == []
  {
    SelectEnds(log, task, run, lo, 0);
  }

  /** A non-empty prefix of a range is exactly the range up to its own last id. */
  lemma {:induction false} PrefixIsRange(log: Log, task: string, run: nat, lo: nat, hi: nat, part: Log)
    requires Increasing(log) && part <= Select(log, task, run, lo, hi) && part != []
    ensures var next := part[|part| - 1].id;
            lo < next <= hi && next <= LastId(log) && Select(log, task, run, lo, next) == part
  {
    var all := Select(log, task, run, lo, hi);
    var last, next := |part| - 1, part[|part| - 1].id;
    SelectSound(log, task, run, lo, hi);
    assert part[last] == all[last] && all[last] in all;
    SelectSplit(log, task, run, lo, next, hi);
    SplitByBound(log, task, run, lo, next, hi);
    var head := Select(log, task, run, lo, next);
    assert last < |head|;
    assert all[|head| - 1].id <= next;
    assert |head| - 1 <= last;
  }

  /** In a split range, exactly the first part has ids up to the seam. */
  lemma SplitByBound(log: Log, task: string, run: nat, lo: nat, mid: nat, hi: nat)
    requires Increasing(log) && lo <= mid <= hi
    ensures var head, all := Select(log, task, run, lo, mid), Select(log, task, run, lo, hi);
            head <= all && forall i :: 0 <= i < |all| ==> (all[i].id <= mid <==> i < |head|)
  {
    var head, tail := Select(log, task, run, lo, mid), Select(log, task, run, mid, hi);
    var all := Select(log, task, run, lo, hi);
    SelectSplit(log, task, run, lo, mid, hi);
    SelectSound(log, task, run, lo, mid);
    SelectSound(log, task, run, mid, hi);
    assert head + tail == all;
    forall i | 0 <= i < |all| ensures all[i].id <= mid <==> i < |head| {
      if i < |head| {
        assert all[i] == head[i] && head[i] in head;
      } else {
        assert all[i] == tail[i - |head|] && tail[i - |head|] in tail;
      }
    }
  }
}
