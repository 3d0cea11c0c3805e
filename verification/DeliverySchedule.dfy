/**
 The reconciler's schedule of failed deliveries: one ranked query that must
 agree with the two simple queries it replaces.
 */
module DeliverySchedule {
  import opened Common
  import opened DeliveryLedger

  /** A stored intent of the reconciler's platform. */
  datatype Entry = Entry(id: nat, createdAt: real, row: Row)

  /** A failed delivery with a redrive time that nobody has leased. */
  predicate Candidate(e: Entry, now: real) {
    e.row.state == Failed && e.row.nextAt.Some?
    && (e.row.owner.None? || e.row.until.None? || e.row.until.value <= now)
  }

  predicate Due(e: Entry, now: real) {
    Candidate(e, now) && e.row.nextAt.value <= now
  }

  predicate Waiting(e: Entry, now: real) {
    Candidate(e, now) && e.row.nextAt.value > now
  }

  /** ORDER BY next_attempt_at, created_at, intent_id. */
  predicate Before(a: Entry, b: Entry)
    requires a.row.nextAt.Some? && b.row.nextAt.Some?
  {
    var x, y := a.row.nextAt.value, b.row.nextAt.value;
    x < y || (x == y && (a.createdAt < b.createdAt || (a.createdAt == b.createdAt && a.id < b.id)))
  }

  /** Intent ids are a primary key. */
  predicate Keyed(rows: set<Entry>) {
    forall a, b :: a in rows && b in rows && a.id == b.id ==> a == b
  }

  predicate Timed(rows: set<Entry>) {
    forall e :: e in rows ==> e.row.nextAt.Some?
  }

  predicate Precedes(a: Entry, b: Entry) {
    a.row.nextAt.Some? && b.row.nextAt.Some? && Before(a, b)
  }

  predicate Ordered(s: seq<Entry>) {
    forall i, j :: 0 <= i < j < |s| ==> Precedes(s[i], s[j])
  }

  /** s lists exactly the rows, in order. */
  ghost predicate Listing(s: seq<Entry>, rows: set<Entry>) {
    Ordered(s) && forall e :: e in s <==> e in rows
  }

  function DueSet(rows: set<Entry>, now: real): set<Entry> {
    set e | e in rows && Due(e, now)
  }

  function WaitingSet(rows: set<Entry>, now: real): set<Entry> {
    set e | e in rows && Waiting(e, now)
  }

  // ----- the two simple queries

  /** `list_due_errors`: the first `limit` due rows. */
  ghost predicate ListDueErrors(rows: set<Entry>, now: real, limit: nat, result: seq<Entry>) {
    exists all: seq<Entry> {:trigger Listing(all, DueSet(rows, now))} ::
      Listing(all, DueSet(rows, now)) && result == if |all| <= limit then all else all[..limit]
  }

  /** `next_due_error_at`: the earliest time of a row that is not due yet. */
  ghost predicate NextDueErrorAt(rows: set<Entry>, now: real, at: Option<real>) {
    if at.None? then WaitingSet(rows, now) == {}
    else (exists e :: e in WaitingSet(rows, now) && e.row.nextAt == at)
         && forall e :: e in WaitingSet(rows, now) ==> at.value <= e.row.nextAt.value
  }

  // ----- the ranked query

  function Rank(e: Entry, partition: set<Entry>): nat
    requires e.row.nextAt.Some? && Timed(partition)
  {
    1 + |set other | other in partition && Before(other, e)|
  }

  /** The rows the ranked query returns: due ones up to the limit, and the first waiting one. */
  function Ranked(rows: set<Entry>, now: real, limit: nat): set<Entry> {
    (set e | e in DueSet(rows, now) && Rank(e, DueSet(rows, now)) <= limit)
    + (set e | e in WaitingSet(rows, now) && Rank(e, WaitingSet(rows, now)) == 1)
  }

  /** ORDER BY is_due DESC, then the listing order; `cut` rows are due. */
  ghost predicate Answer(rows: set<Entry>, now: real, limit: nat, s: seq<Entry>, cut: nat) {
    (forall e :: e in s <==> e in Ranked(rows, now, limit))
    && cut <= |s| && (forall i :: 0 <= i < |s| ==> (Due(s[i], now) <==> i < cut))
    && Ordered(s[..cut]) && Ordered(s[cut..])
  }

  // ----- ranks are positions

  lemma BeforeTotal(a: Entry, b: Entry)
    requires a.row.nextAt.Some? && b.row.nextAt.Some? && a.id != b.id
    ensures Before(a, b) != Before(b, a)
  {
  }

  function Elements(s: seq<Entry>): set<Entry> {
    set e | e in s
  }

  lemma LastIsNew(s: seq<Entry>, k: nat)
    requires Ordered(s) && 0 < k <= |s|
    ensures s[k - 1] !in s[..k - 1]
  {
    forall i | 0 <= i < k - 1 ensures s[i] != s[k - 1] {
      assert Precedes(s[i], s[k - 1]);
    }
  }

  lemma {:induction false} PrefixSize(s: seq<Entry>, k: nat)
    requires Ordered(s) && k <= |s|
    ensures |Elements(s[..k])| == k
    decreases k
  {
    if k > 0 {
      PrefixSize(s, k - 1);
      LastIsNew(s, k);
      assert s[..k] == s[..k - 1] + [s[k - 1]];
      assert Elements(s[..k]) == Elements(s[..k - 1]) + {s[k - 1]};
    }
  }

  lemma RankIsPosition(s: seq<Entry>, rows: set<Entry>, k: nat)
    requires Listing(s, rows) && Timed(rows) && k < |s|
    ensures s[k] in rows && Rank(s[k], rows) == k + 1
  {
    assert s[k] in s;
    var earlier := set other | other in rows && Before(other, s[k]);
    forall e | e in earlier ensures e in s[..k] {
      assert e in s;
      var i :| 0 <= i < |s| && s[i] == e;
      assert i < k;
      assert s[..k][i] == e;
    }
    forall e | e in s[..k] ensures e in earlier {
      var i :| 0 <= i < k && s[i] == e;
      assert e in s && Precedes(s[i], s[k]);
    }
    assert earlier == Elements(s[..k]);
    PrefixSize(s, k);
  }

  /** Two ordered lists of the same rows are the same list. */
  lemma {:induction false} OrderedUnique(a: seq<Entry>, b: seq<Entry>)
    requires Ordered(a) && Ordered(b) && forall e :: e in a <==> e in b
    ensures a == b
    decreases |a|
  {
    if a == [] {
      if b != [] {
        SameHead(b, a);
      }
    } else {
      SameHead(a, b);
      var x, y := a[1..], b[1..];
      forall e ensures e in x <==> e in y {
        TailMember(a, e);
        TailMember(b, e);
      }
      OrderedUnique(x, y);
      assert a == [a[0]] + x && b == [b[0]] + y;
    }
  }

  lemma SameHead(a: seq<Entry>, b: seq<Entry>)
    requires Ordered(a) && Ordered(b) && a != [] && forall e :: e in a <==> e in b
    ensures b != [] && a[0] == b[0]
  {
    assert a[0] in a;
    var j :| 0 <= j < |b| && b[j] == a[0];
    assert b[0] in b;
    var i :| 0 <= i < |a| && a[i] == b[0];
    assert i == 0 || Precedes(a[0], a[i]);
    assert j == 0 || Precedes(b[0], b[j]);
  }

  lemma TailMember(s: seq<Entry>, e: Entry)
    requires Ordered(s) && s != []
    ensures e in s[1..] <==> e in s && e != s[0]
  {
    assert s == [s[0]] + s[1..];
    if e in s[1..] {
      var i :| 0 <= i < |s[1..]| && s[1..][i] == e;
      assert Precedes(s[0], s[i + 1]);
    }
  }

  lemma OrderedSlice(s: seq<Entry>, n: nat)
    requires Ordered(s) && n <= |s|
    ensures Ordered(s[..n])
  {
    var p := s[..n];
    forall i, j | 0 <= i < j < |p| ensures Precedes(p[i], p[j]) {
      assert p[i] == s[i] && p[j] == s[j];
    }
  }

  /** The due rows of rank at most `limit`, in order, are the first `limit` due rows. */
  lemma RankedDueIsPrefix(all: seq<Entry>, rows: set<Entry>, limit: nat, due: seq<Entry>)
    requires Listing(all, rows) && Timed(rows) && Ordered(due)
    requires forall e :: e in due <==> e in rows && Rank(e, rows) <= limit
    ensures due == if |all| <= limit then all else all[..limit]
  {
    var n := if |all| <= limit then |all| else limit;
    var front := all[..n];
    OrderedSlice(all, n);
    forall e | e in due ensures e in front {
      assert e in all;
      var k :| 0 <= k < |all| && all[k] == e;
      RankIsPosition(all, rows, k);
      assert front[k] == e;
    }
    forall e | e in front ensures e in due {
      var i :| 0 <= i < n && front[i] == e;
      RankIsPosition(all, rows, i);
    }
    OrderedUnique(due, front);
    assert all[..|all|] == all;
  }

  // ----- the loop that reads the answer

  datatype Schedule = Schedule(due: seq<Entry>, earliest: Option<real>)

  /** The loop of `schedule_snapshot`: due rows in order, and the first other row's time. */
  method ReadSchedule(answer: seq<Entry>, now: real, ghost cut: nat) returns (r: Schedule)
    requires forall i :: 0 <= i < |answer| ==> answer[i].row.nextAt.Some?
    requires cut <= |answer| && forall i :: 0 <= i < |answer| ==> (Due(answer[i], now) <==> i < cut)
    ensures r.due == answer[..cut]
    ensures r.earliest == if cut < |answer| then answer[cut].row.nextAt else None
  {
    r := Schedule([], None);
    var i := 0;
    while i < |answer|
      invariant 0 <= i <= |answer|
      invariant r.due == answer[..if i < cut then i else cut]
      invariant r.earliest == if cut < i then answer[cut].row.nextAt else None
    {
      if Due(answer[i], now) {
        r := r.(due := r.due + [answer[i]]);
      } else if r.earliest.None? {
        r := r.(earliest := answer[i].row.nextAt);
      }
      i := i + 1;
    }
  }

  /**
   The refinement: reading the one ranked answer gives what the two simple
   queries give, for every table, time and limit.
   */
  lemma ScheduleAgrees(rows: set<Entry>, now: real, limit: nat, answer: seq<Entry>, cut: nat)
    requires Keyed(rows) && limit > 0 && Answer(rows, now, limit, answer, cut)
    ensures ListDueErrors(rows, now, limit, answer[..cut])
    ensures forall i :: 0 <= i < |answer| ==> answer[i].row.nextAt.Some?
    ensures NextDueErrorAt(rows, now, if cut < |answer| then answer[cut].row.nextAt else None)
  {
    forall i | 0 <= i < |answer| ensures answer[i] in Ranked(rows, now, limit) {
      assert answer[i] in answer;
    }
    var all := ListingExists(DueSet(rows, now));
    DueAgrees(rows, now, limit, answer, cut, all);
    WaitingAgrees(rows, now, limit, answer, cut);
  }

  /** Every table has such an answer. */
  lemma AnswerExists(rows: set<Entry>, now: real, limit: nat) returns (answer: seq<Entry>, cut: nat)
    requires Keyed(rows)
    ensures Answer(rows, now, limit, answer, cut)
  {
    var due := set e | e in DueSet(rows, now) && Rank(e, DueSet(rows, now)) <= limit;
    var waiting := set e | e in WaitingSet(rows, now) && Rank(e, WaitingSet(rows, now)) == 1;
    var front := ListingExists(due);
    var back := ListingExists(waiting);
    answer, cut := front + back, |front|;
    assert answer[..cut] == front && answer[cut..] == back;
    forall i | 0 <= i < |answer| ensures Due(answer[i], now) <==> i < cut {
      if i < cut {
        assert answer[i] == front[i] && front[i] in front;
      } else {
        assert answer[i] == back[i - cut] && back[i - cut] in back;
      }
    }
  }

  lemma DueAgrees(rows: set<Entry>, now: real, limit: nat, answer: seq<Entry>, cut: nat, all: seq<Entry>)
    requires Answer(rows, now, limit, answer, cut) && Listing(all, DueSet(rows, now))
    ensures ListDueErrors(rows, now, limit, answer[..cut])
  {
    var due := answer[..cut];
    forall e | e in due ensures e in DueSet(rows, now) && Rank(e, DueSet(rows, now)) <= limit {
      var i :| 0 <= i < cut && answer[i] == e;
      assert e in answer;
    }
    forall e | e in DueSet(rows, now) && Rank(e, DueSet(rows, now)) <= limit ensures e in due {
      assert e in Ranked(rows, now, limit);
      assert e in answer;
      var i :| 0 <= i < |answer| && answer[i] == e;
      assert due[i] == e;
    }
    RankedDueIsPrefix(all, DueSet(rows, now), limit, due);
  }

  /** Every finite set of rows has its ordered list. */
  lemma {:induction false} ListingExists(rows: set<Entry>) returns (s: seq<Entry>)
    requires Timed(rows) && Keyed(rows)
    ensures Listing(s, rows)
    decreases |rows|
  {
    if rows == {} {
      s := [];
    } else {
      var first := HasFirst(rows);
      var rest := ListingExists(rows - {first});
      s := [first] + rest;
      forall j | 0 <= j < |rest| ensures Precedes(first, rest[j]) {
        assert rest[j] in rest;
        assert rest[j] in rows && rest[j].id != first.id;
        BeforeTotal(first, rest[j]);
      }
    }
  }

  lemma FirstHasRankOne(rows: set<Entry>, e: Entry)
    requires Timed(rows) && e in rows && forall other :: other in rows ==> !Before(other, e)
    ensures Rank(e, rows) == 1
  {
    assert (set other | other in rows && Before(other, e)) == {};
  }

  lemma RankOneIsFirst(rows: set<Entry>, e: Entry, other: Entry)
    requires Timed(rows) && Keyed(rows) && e in rows && other in rows && Rank(e, rows) == 1
    ensures e.row.nextAt.value <= other.row.nextAt.value
  {
    var earlier := set o | o in rows && Before(o, e);
    assert earlier == {};
    assert other !in earlier;
    if other.id != e.id {
      BeforeTotal(other, e);
    }
  }

  /** A non-empty finite set of rows has a first one. */
  lemma {:induction false} HasFirst(rows: set<Entry>) returns (first: Entry)
    requires Timed(rows) && Keyed(rows) && rows != {}
    ensures first in rows && forall other :: other in rows ==> !Before(other, first)
    decreases |rows|
  {
    var e :| e in rows;
    var rest := rows - {e};
    if rest == {} {
      first := e;
      assert rows == {e};
    } else {
      var f := HasFirst(rest);
      first := if Before(e, f) then e else f;
      forall other | other in rows ensures !Before(other, first) {
        assert other == e || other in rest;
      }
    }
  }

  lemma NoneWaiting(rows: set<Entry>, now: real, limit: nat, answer: seq<Entry>)
    requires Keyed(rows) && forall e :: e in answer <==> e in Ranked(rows, now, limit)
    requires forall e :: e in WaitingSet(rows, now) ==> e !in answer
    ensures WaitingSet(rows, now) == {}
  {
    var waiting := WaitingSet(rows, now);
    if waiting != {} {
      var first := HasFirst(waiting);
      FirstHasRankOne(waiting, first);
    }
  }

  lemma WaitingAgrees(rows: set<Entry>, now: real, limit: nat, answer: seq<Entry>, cut: nat)
    requires Keyed(rows) && Answer(rows, now, limit, answer, cut)
    requires forall i :: 0 <= i < |answer| ==> answer[i] in Ranked(rows, now, limit)
    ensures NextDueErrorAt(rows, now, if cut < |answer| then answer[cut].row.nextAt else None)
  {
    var waiting := WaitingSet(rows, now);
    if cut < |answer| {
      var e := answer[cut];
      assert e in waiting && Rank(e, waiting) == 1;
      forall other | other in waiting ensures e.row.nextAt.value <= other.row.nextAt.value {
        RankOneIsFirst(waiting, e, other);
      }
    } else {
      forall e | e in waiting ensures e !in answer {
      }
      NoneWaiting(rows, now, limit, answer);
    }
  }
}
