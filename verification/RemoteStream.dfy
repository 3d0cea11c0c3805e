/**
 The proxy of a remote Gateway's Task stream: what it lets through whatever
 the peer sends. Events are given after schema validation; None is an event
 the validation rejected.
 */
module RemoteStream {
  import opened Common

  datatype TaskState = Pending | Running | WaitingForHuman | Completed | Failed | Cancelled | Interrupted

  datatype Reason = ReviewRequired | Settled(state: TaskState) | Superseded | ErrorEnd

  datatype Event =
    | FullState(snapshot: bool, review: bool, state: TaskState)
    | Incremental
    | StreamError
    | End(reason: Reason)

  predicate IsSnapshot(e: Event) {
    e.FullState? && e.snapshot
  }

  /** `_public_state_end_reason`. */
  function PublicEndReason(e: Event): Option<Reason>
    requires e.FullState?
  {
    if e.review || e.state == WaitingForHuman then Some(ReviewRequired)
    else if e.state in {Completed, Failed, Cancelled, Interrupted} then Some(Settled(e.state))
    else None
  }

  /** The last full-state event. */
  function Latest(s: seq<Event>): (e: Option<Event>)
    ensures e.Some? ==> e.value.FullState? && e.value in s
    ensures e.None? ==> forall i :: 0 <= i < |s| ==> !s[i].FullState?
    decreases |s|
  {
    if s == [] then None
    else if s[|s| - 1].FullState? then Some(s[|s| - 1])
    else
      var e := Latest(s[..|s| - 1]);
      assert forall i :: 0 <= i < |s| - 1 ==> s[i] == s[..|s| - 1][i];
      e
  }

  // ----- the language

  /** The only snapshot is the first event of a fresh stream, and a fresh stream begins with one. */
  predicate SnapshotAt(isNew: bool, s: seq<Event>, i: nat)
    requires i < |s|
  {
    IsSnapshot(s[i]) <==> isNew && i == 0
  }

  /** An error and its end stand together or not at all. */
  predicate PairAt(s: seq<Event>, i: nat)
    requires i < |s|
  {
    (s[i].StreamError? ==> i + 1 < |s| && s[i + 1] == End(ErrorEnd))
    && (s[i] == End(ErrorEnd) ==> i > 0 && s[i - 1].StreamError?)
  }

  /** Any other end is `superseded` or what the latest forwarded state implies. */
  predicate EndAt(s: seq<Event>, i: nat)
    requires i < |s|
  {
    s[i].End? && s[i].reason != ErrorEnd && s[i].reason != Superseded && Latest(s[..i]).Some? ==>
      PublicEndReason(Latest(s[..i]).value) == Some(s[i].reason)
  }

  predicate Good(isNew: bool, s: seq<Event>) {
    forall i :: 0 <= i < |s| ==> SnapshotAt(isNew, s, i) && PairAt(s, i) && EndAt(s, i)
  }

  /** In a fresh stream an end that is neither an error nor `superseded` always has a state to agree with. */
  lemma FreshEndsAgree(s: seq<Event>, i: nat)
    requires Good(true, s) && i < |s| && s[i].End? && s[i].reason != ErrorEnd && s[i].reason != Superseded
    ensures Latest(s[..i]).Some? && PublicEndReason(Latest(s[..i]).value) == Some(s[i].reason)
  {
    assert SnapshotAt(true, s, 0) && SnapshotAt(true, s, i) && EndAt(s, i);
    assert s[..i][0] == s[0];
  }

  // ----- the monitor

  /** The peer's events up to the first rejected one. */
  function Values(input: seq<Option<Event>>): (s: seq<Event>)
    ensures |s| <= |input|
    ensures forall i :: 0 <= i < |s| ==> input[i] == Some(s[i])
    ensures |s| < |input| ==> input[|s|].None?
    decreases |input|
  {
    if input == [] || input[0].None? then [] else [input[0].value] + Values(input[1..])
  }

  /** No prefix longer than n lies in the language. */
  ghost predicate Longest(isNew: bool, all: seq<Event>, n: nat) {
    n <= |all| && Good(isNew, all[..n]) && forall m :: n < m <= |all| ==> !Good(isNew, all[..m])
  }

  /** The only unforwarded input that is not a failure: one last error without its end. */
  predicate TrailingError(isNew: bool, input: seq<Option<Event>>, n: nat) {
    n + 1 == |input| && input[n] == Some(StreamError) && (isNew ==> n > 0)
  }

  lemma LatestAppend(s: seq<Event>, e: Event)
    ensures Latest(s + [e]) == if e.FullState? then Some(e) else Latest(s)
  {
    assert (s + [e])[..|s|] == s;
  }

  lemma PrefixConditions(isNew: bool, all: seq<Event>, m: nat, i: nat)
    requires i < m <= |all| && Good(isNew, all[..m])
    ensures SnapshotAt(isNew, all, i) && EndAt(all, i)
    ensures all[i] == End(ErrorEnd) ==> i > 0 && all[i - 1].StreamError?
    ensures all[i].StreamError? ==> i + 1 < m && all[i + 1] == End(ErrorEnd)
  {
    var p := all[..m];
    assert p[..i] == all[..i];
    assert SnapshotAt(isNew, p, i) && PairAt(p, i) && EndAt(p, i);
  }

  /** One more event after a forwarded prefix. */
  lemma GoodStep(isNew: bool, all: seq<Event>, n: nat)
    requires n < |all| && Good(isNew, all[..n])
    requires SnapshotAt(isNew, all, n) && EndAt(all, n) && !all[n].StreamError? && all[n] != End(ErrorEnd)
    ensures Good(isNew, all[..n + 1])
  {
    var p := all[..n + 1];
    forall i | 0 <= i < |p| ensures SnapshotAt(isNew, p, i) && PairAt(p, i) && EndAt(p, i) {
      assert p[..i] == all[..i];
      if i < n {
        PrefixConditions(isNew, all, n, i);
      }
    }
  }

  /** An error and its end. */
  lemma GoodPair(isNew: bool, all: seq<Event>, n: nat)
    requires n + 1 < |all| && Good(isNew, all[..n])
    requires all[n].StreamError? && all[n + 1] == End(ErrorEnd) && SnapshotAt(isNew, all, n)
    ensures Good(isNew, all[..n + 2])
  {
    var p := all[..n + 2];
    forall i | 0 <= i < |p| ensures SnapshotAt(isNew, p, i) && PairAt(p, i) && EndAt(p, i) {
      assert p[..i] == all[..i];
      if i < n {
        PrefixConditions(isNew, all, n, i);
      }
    }
  }

  /** A rule broken at index k bars every prefix that contains it. */
  lemma Barred(isNew: bool, all: seq<Event>, n: nat, k: nat)
    requires n <= k < |all| && k <= n + 1 && Good(isNew, all[..n])
    requires k == n + 1 ==> all[n].StreamError?
    requires !SnapshotAt(isNew, all, k) || !EndAt(all, k)
             || (all[k] == End(ErrorEnd) && !(k > 0 && all[k - 1].StreamError?))
             || (k > n && all[k] != End(ErrorEnd))
    ensures Longest(isNew, all, n)
  {
    forall m | n < m <= |all| ensures !Good(isNew, all[..m]) {
      if Good(isNew, all[..m]) {
        PrefixConditions(isNew, all, m, n);
        if m > k {
          PrefixConditions(isNew, all, m, k);
        }
        assert false;
      }
    }
  }

  lemma AllForwarded(isNew: bool, all: seq<Event>, n: nat)
    requires n <= |all| && Good(isNew, all[..n])
    requires n == |all| || (n + 1 == |all| && all[n].StreamError?)
    ensures Longest(isNew, all, n)
  {
    if n + 1 == |all| {
      assert all[..|all|] == all;
      assert !PairAt(all, n);
    }
  }

  /** What the monitor knows after forwarding n events. */
  ghost predicate Knows(all: seq<Event>, n: nat, hasFullState: bool, known: Option<Reason>)
    requires n <= |all|
  {
    var latest := Latest(all[..n]);
    hasFullState == latest.Some? && (latest.Some? ==> known == PublicEndReason(latest.value))
  }

  lemma KnowsNext(all: seq<Event>, n: nat, hasFullState: bool, known: Option<Reason>)
    requires n < |all| && Knows(all, n, hasFullState, known)
    ensures if all[n].FullState? then Knows(all, n + 1, true, PublicEndReason(all[n]))
            else Knows(all, n + 1, hasFullState, known)
  {
    assert all[..n + 1] == all[..n] + [all[n]];
    LatestAppend(all[..n], all[n]);
  }

  /** The loop's variables after i events, of which `out` were forwarded and at most one error is held back. */
  ghost predicate Tracking(isNew: bool, all: seq<Event>, i: nat, out: seq<Event>, pending: Option<Event>, hasFullState: bool, known: Option<Reason>) {
    i <= |all| && |out| <= i && out == all[..|out|] && Good(isNew, out) && Knows(all, |out|, hasFullState, known)
    && if pending.Some? then i == |out| + 1 && all[i - 1] == pending.value && pending.value.StreamError? && SnapshotAt(isNew, all, i - 1)
       else i == |out|
  }

  predicate SnapshotMisplaced(isNew: bool, first: bool, e: Event) {
    if first then isNew != IsSnapshot(e) else IsSnapshot(e)
  }

  lemma Misplaced(isNew: bool, all: seq<Event>, i: nat, out: seq<Event>, pending: Option<Event>, hasFullState: bool, known: Option<Reason>)
    requires Tracking(isNew, all, i, out, pending, hasFullState, known) && i < |all|
    requires SnapshotMisplaced(isNew, i == 0, all[i])
    ensures Longest(isNew, all, |out|)
  {
    Barred(isNew, all, |out|, i);
  }

  lemma Unpaired(isNew: bool, all: seq<Event>, i: nat, out: seq<Event>, pending: Option<Event>, hasFullState: bool, known: Option<Reason>)
    requires Tracking(isNew, all, i, out, pending, hasFullState, known) && i < |all| && pending.Some?
    requires all[i] != End(ErrorEnd)
    ensures Longest(isNew, all, |out|)
  {
    Barred(isNew, all, |out|, i);
  }

  lemma Paired(isNew: bool, all: seq<Event>, i: nat, out: seq<Event>, pending: Option<Event>, hasFullState: bool, known: Option<Reason>)
    requires Tracking(isNew, all, i, out, pending, hasFullState, known) && i < |all| && pending.Some?
    requires all[i] == End(ErrorEnd)
    ensures Tracking(isNew, all, i + 1, out + [pending.value] + [all[i]], None, hasFullState, known)
  {
    var n := |out|;
    GoodPair(isNew, all, n);
    KnowsNext(all, n, hasFullState, known);
    KnowsNext(all, n + 1, hasFullState, known);
    assert out + [pending.value] + [all[i]] == all[..n + 2];
  }

  /** An end whose reason is an error without its event, or contradicts the latest state. */
  lemma BadEnd(isNew: bool, all: seq<Event>, i: nat, out: seq<Event>, hasFullState: bool, known: Option<Reason>)
    requires Tracking(isNew, all, i, out, None, hasFullState, known) && i < |all| && all[i].End?
    requires all[i].reason == ErrorEnd || (hasFullState && all[i].reason != Superseded && Some(all[i].reason) != known)
    ensures Longest(isNew, all, |out|)
  {
    if all[i].reason == ErrorEnd && i > 0 {
      PrefixConditions(isNew, all, i, i - 1);
    }
    Barred(isNew, all, i, i);
  }

  lemma Forwarded(isNew: bool, all: seq<Event>, i: nat, out: seq<Event>, hasFullState: bool, known: Option<Reason>)
    requires Tracking(isNew, all, i, out, None, hasFullState, known) && i < |all|
    requires !SnapshotMisplaced(isNew, i == 0, all[i]) && !all[i].StreamError?
    requires all[i].End? ==> all[i].reason != ErrorEnd && (hasFullState && all[i].reason != Superseded ==> Some(all[i].reason) == known)
    ensures if all[i].FullState? then Tracking(isNew, all, i + 1, out + [all[i]], None, true, PublicEndReason(all[i]))
            else Tracking(isNew, all, i + 1, out + [all[i]], None, hasFullState, known)
  {
    GoodStep(isNew, all, i);
    KnowsNext(all, i, hasFullState, known);
    assert out + [all[i]] == all[..i + 1];
  }

  lemma Exhausted(isNew: bool, all: seq<Event>, out: seq<Event>, pending: Option<Event>, hasFullState: bool, known: Option<Reason>)
    requires Tracking(isNew, all, |all|, out, pending, hasFullState, known)
    ensures Longest(isNew, all, |out|)
  {
    AllForwarded(isNew, all, |out|);
  }

  /** The last part of the loop body: an event that is neither an error nor paired with one. */
  method Forward(isNew: bool, ghost all: seq<Event>, ghost i: nat, e: Event, out: seq<Event>, hasFullState: bool, known: Option<Reason>)
    returns (ok: bool, after: seq<Event>, full: bool, reason: Option<Reason>)
    requires Tracking(isNew, all, i, out, None, hasFullState, known) && i < |all| && e == all[i]
    requires !SnapshotMisplaced(isNew, i == 0, e) && !e.StreamError?
    ensures ok ==> Tracking(isNew, all, i + 1, after, None, full, reason)
    ensures !ok ==> after == out && Longest(isNew, all, |out|) && !TrailingEvent(all, |out|)
  {
    ok, after, full, reason := true, out, hasFullState, known;
    if e.End? && (e.reason == ErrorEnd || (hasFullState && e.reason != Superseded && Some(e.reason) != known)) {
      BadEnd(isNew, all, i, out, hasFullState, known);
      ok := false;
      return;
    }
    Forwarded(isNew, all, i, out, hasFullState, known);
    if e.FullState? {
      full, reason := true, PublicEndReason(e);
    }
    after := out + [e];
  }

  /** The next event is an error. */
  predicate TrailingEvent(all: seq<Event>, n: nat) {
    n < |all| && all[n].StreamError?
  }

  /**
   What the monitor may do with `input`, after which the reader below it ended
   or, when `broken`, raised: forward exactly the longest prefix that lies in the
   language, and fail unless that was everything but possibly a last unpaired
   error.
   */
  ghost predicate Projected(isNew: bool, input: seq<Option<Event>>, broken: bool, out: seq<Event>, failed: bool) {
    |out| <= |Values(input)| && out == Values(input)[..|out|]
    && Longest(isNew, Values(input), |out|)
    && (!failed <==> !broken && (|out| == |input| || TrailingError(isNew, input, |out|)))
  }

  /** The monitor stopped with an error: nothing more is acceptable. */
  ghost predicate Stopped(isNew: bool, input: seq<Option<Event>>, out: seq<Event>) {
    |out| < |input| && |out| <= |Values(input)| && out == Values(input)[..|out|]
    && Longest(isNew, Values(input), |out|) && !TrailingError(isNew, input, |out|)
  }

  /** The loop body; false is a protocol error. */
  method TakeEvent(isNew: bool, ghost input: seq<Option<Event>>, ghost i: nat, first: bool, e: Event,
                   out: seq<Event>, pending: Option<Event>, hasFullState: bool, known: Option<Reason>)
    returns (ok: bool, after: seq<Event>, held: Option<Event>, full: bool, reason: Option<Reason>)
    requires Tracking(isNew, Values(input), i, out, pending, hasFullState, known)
    requires i < |input| && input[i] == Some(e) && first == (i == 0)
    ensures if ok then Tracking(isNew, Values(input), i + 1, after, held, full, reason) else Stopped(isNew, input, after)
  {
    ghost var all := Values(input);
    ok, after, held, full, reason := false, out, pending, hasFullState, known;
    if SnapshotMisplaced(isNew, first, e) {
      Misplaced(isNew, all, i, out, pending, hasFullState, known);
      return;
    }
    if pending.Some? {
      if e != End(ErrorEnd) {
        Unpaired(isNew, all, i, out, pending, hasFullState, known);
        return;
      }
      Paired(isNew, all, i, out, pending, hasFullState, known);
      ok, after, held := true, out + [pending.value] + [e], None;
      return;
    }
    if e.StreamError? {
      ok, held := true, Some(e);
      return;
    }
    ok, after, full, reason := Forward(isNew, all, i, e, out, hasFullState, known);
  }

  /** `project_remote`, whatever the peer sends. */
  method ProjectRemote(isNew: bool, input: seq<Option<Event>>, broken: bool) returns (out: seq<Event>, failed: bool)
    ensures Projected(isNew, input, broken, out, failed)
  {
    var hasFullState, ok := false, true;
    var pending: Option<Event>, known: Option<Reason> := None, None;
    out := [];
    var i := 0;
    while i < |input|
      invariant 0 <= i <= |input|
      invariant Tracking(isNew, Values(input), i, out, pending, hasFullState, known)
    {
      if input[i].None? {
        Exhausted(isNew, Values(input), out, pending, hasFullState, known);
        return out, true;
      }
      ok, out, pending, hasFullState, known := TakeEvent(isNew, input, i, i == 0, input[i].value, out, pending, hasFullState, known);
      if !ok {
        return out, true;
      }
      i := i + 1;
    }
    Exhausted(isNew, Values(input), out, pending, hasFullState, known);
    return out, broken;
  }

  // ----- what follows an end

  predicate EndsOnlyLast(s: seq<Event>) {
    forall i :: 0 <= i < |s| && s[i].End? ==> i == |s| - 1
  }

  predicate EndsWithEnd(s: seq<Event>) {
    s != [] && s[|s| - 1].End?
  }

  /** What the client's reader hands over: nothing follows an end, and it raises exactly when none came. */
  predicate FromReader(input: seq<Option<Event>>, broken: bool) {
    (forall i :: 0 <= i < |input| && input[i].Some? && input[i].value.End? ==> i == |input| - 1 && !broken)
    && (!broken ==> input != [] && (input[|input| - 1].None? || input[|input| - 1].value.End?))
  }

  /** As the monitor is composed, an end is the last thing it yields, and it succeeds exactly when it yields one. */
  lemma EndIsLast(isNew: bool, input: seq<Option<Event>>, broken: bool, out: seq<Event>, failed: bool)
    requires Projected(isNew, input, broken, out, failed) && FromReader(input, broken)
    ensures EndsOnlyLast(out)
    ensures !failed <==> EndsWithEnd(out)
  {
    assert forall i :: 0 <= i < |out| ==> input[i] == Some(out[i]);
  }

  predicate HasEventAfterEnd(s: seq<Event>) {
    exists i :: 0 <= i < |s| - 1 && s[i].End?
  }

  /** The first m events are acceptable and go on after an end. */
  predicate GoesOnAfterEnd(isNew: bool, all: seq<Event>, m: nat) {
    m <= |all| && Good(isNew, all[..m]) && HasEventAfterEnd(all[..m])
  }

  ghost predicate CanGoOn(isNew: bool, all: seq<Event>) {
    exists m: nat :: GoesOnAfterEnd(isNew, all, m)
  }

  lemma AfterEndOf(isNew: bool, all: seq<Event>, out: seq<Event>)
    requires |out| <= |all| && out == all[..|out|] && Longest(isNew, all, |out|)
    ensures HasEventAfterEnd(out) <==> CanGoOn(isNew, all)
  {
    if HasEventAfterEnd(out) {
      assert GoesOnAfterEnd(isNew, all, |out|);
    }
    forall m: nat | GoesOnAfterEnd(isNew, all, m) ensures HasEventAfterEnd(out) {
      assert m <= |out|;
      assert out[..m] == all[..m];
      AfterEndInPrefix(out, m);
    }
  }

  /** The monitor alone lets an event follow an end exactly when an acceptable beginning of its input has one. */
  lemma AfterEndExactly(isNew: bool, input: seq<Option<Event>>, broken: bool, out: seq<Event>, failed: bool)
    requires Projected(isNew, input, broken, out, failed)
    ensures HasEventAfterEnd(out) <==> CanGoOn(isNew, Values(input))
  {
    AfterEndOf(isNew, Values(input), out);
  }

  lemma AfterEndInPrefix(s: seq<Event>, m: nat)
    requires m <= |s|
    ensures HasEventAfterEnd(s[..m]) ==> HasEventAfterEnd(s)
  {
    if HasEventAfterEnd(s[..m]) {
      var i :| 0 <= i < |s[..m]| - 1 && s[..m][i].End?;
      assert s[i].End?;
    }
  }
}
