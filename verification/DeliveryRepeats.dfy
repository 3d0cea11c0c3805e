/**
 When a recorded delivery step can be sent again: only by a watch that had
 already found it unrecorded, at most once by each, and never by a later watch.
 */
module DeliveryRepeats {
  import opened Common
  import opened DeliveryLedger
  import opened DeliveryProtocol
  import opened DeliveryTheorems

  /** The watch found x unrecorded and is about to send it. */
  predicate AimsAt(w: Watcher, x: Step) {
    w.pc.Work? && w.pc.stage.Launch? && w.pc.stage.i < |JobSteps(w.pc.job)| && JobSteps(w.pc.job)[w.pc.stage.i] == x
  }

  function Aiming(w: World, x: Step): set<Token> {
    set t | t in w.watchers && AimsAt(w.watchers[t], x)
  }

  /** One step of one watch: what it sends it aimed at, and it newly aims only at what is unrecorded. */
  lemma TurnAims(cfg: Config, token: Token, l: Ledger, w: Watcher, m: Move, x: Step)
    ensures var t := TakeStep(cfg, token, l, w, m);
            && (t.launched == Some(x) ==> AimsAt(w, x) && (t.w.Some? ==> !AimsAt(t.w.value, x)))
            && (t.w.Some? && AimsAt(t.w.value, x) ==> AimsAt(w, x) || (x !in l.steps && t.l == l))
  {
    if w.pc.Work? {
      WorkAims(cfg, token, l, w, m, x);
    }
  }

  lemma WorkAims(cfg: Config, token: Token, l: Ledger, w: Watcher, m: Move, x: Step)
    requires w.pc.Work?
    ensures var t := WorkStep(cfg, token, l, w, w.pc.job, w.pc.stage, m);
            && (t.launched == Some(x) ==> AimsAt(w, x) && (t.w.Some? ==> !AimsAt(t.w.value, x)))
            && (t.w.Some? && AimsAt(t.w.value, x) ==> AimsAt(w, x) || (x !in l.steps && t.l == l))
  {
    var stage := w.pc.stage;
    if stage.Check? || stage.Launch? || stage.Send? {
      TroubleIsIdle(cfg, w, m);
    } else {
      OtherStageAims(cfg, token, l, w, m, x);
    }
  }

  lemma OtherStageAims(cfg: Config, token: Token, l: Ledger, w: Watcher, m: Move, x: Step)
    requires w.pc.Work? && !w.pc.stage.Check? && !w.pc.stage.Launch? && !w.pc.stage.Send?
    ensures var t := WorkStep(cfg, token, l, w, w.pc.job, w.pc.stage, m);
            t.launched.None? && (t.w.Some? ==> !AimsAt(t.w.value, x))
  {
    TroubleIsIdle(cfg, w, m);
  }

  lemma StepsGrow(cfg: Config, w: World, act: Act)
    ensures w.l.steps <= Next(cfg, w, act).l.steps
  {
    NextIsOps(cfg, w, act);
    HistoryEvolves(w.l, ActOps(cfg, w, act));
  }

  /** One step of the world, once x is recorded. */
  lemma AimsShrink(cfg: Config, w: World, act: Act, x: Step)
    requires x in w.l.steps
    ensures var after := Next(cfg, w, act);
            && x in after.l.steps && Aiming(after, x) <= Aiming(w, x)
            && w.log <= after.log && |after.log| <= |w.log| + 1
            && (|after.log| > |w.log| && after.log[|w.log|].step == x ==>
                  after.log[|w.log|].token in Aiming(w, x) && after.log[|w.log|].token !in Aiming(after, x))
  {
    StepsGrow(cfg, w, act);
    if act.Take? && act.token in w.watchers {
      TurnAims(cfg, act.token, w.l, w.watchers[act.token], act.move, x);
    }
  }

  /** The step that records x makes nobody aim at it. */
  lemma RecordingAims(cfg: Config, w: World, act: Act, x: Step)
    requires x !in w.l.steps && x in Next(cfg, w, act).l.steps
    ensures Aiming(Next(cfg, w, act), x) <= Aiming(w, x)
  {
    if act.Take? && act.token in w.watchers {
      TurnAims(cfg, act.token, w.l, w.watchers[act.token], act.move, x);
    }
  }

  /** The sendings of x from entry n on. */
  predicate SendsOf(log: seq<Sending>, n: nat, i: nat, x: Step) {
    n <= i < |log| && log[i].step == x
  }

  /**
   Once x is recorded, whoever sends it in any continuation was about to send it
   already, its check behind it, and does so once.
   */
  lemma {:induction false} RepeatsWereAimed(cfg: Config, w: World, acts: seq<Act>, x: Step)
    requires x in w.l.steps
    ensures var b := DeliveryProtocol.Run(cfg, w, acts);
            && w.log <= b.log
            && (forall i: nat :: SendsOf(b.log, |w.log|, i, x) ==> b.log[i].token in Aiming(w, x))
            && (forall i: nat, j: nat :: SendsOf(b.log, |w.log|, i, x) && SendsOf(b.log, |w.log|, j, x) && i != j ==> b.log[i].token != b.log[j].token)
    decreases |acts|
  {
    if acts != [] {
      var w1 := Next(cfg, w, acts[0]);
      var b := DeliveryProtocol.Run(cfg, w1, acts[1..]);
      AimsShrink(cfg, w, acts[0], x);
      RepeatsWereAimed(cfg, w1, acts[1..], x);
      forall i: nat | SendsOf(b.log, |w.log|, i, x)
        ensures b.log[i].token in Aiming(w, x)
        ensures i < |w1.log| ==> i == |w.log| && b.log[i].token !in Aiming(w1, x)
        ensures i >= |w1.log| ==> SendsOf(b.log, |w1.log|, i, x) && b.log[i].token in Aiming(w1, x)
      {
        if i < |w1.log| {
          assert b.log[i] == w1.log[i];
        } else {
          assert SendsOf(b.log, |w1.log|, i, x);
        }
      }
      forall i: nat, j: nat | SendsOf(b.log, |w.log|, i, x) && SendsOf(b.log, |w.log|, j, x) && i != j
        ensures b.log[i].token != b.log[j].token
      {
      }
    }
  }

  lemma AimingIsIssued(w: World, x: Step)
    requires WorldOk(w)
    ensures forall t :: t in Aiming(w, x) ==> t < w.issued
  {
    forall t | t in Aiming(w, x) ensures t < w.issued {
      assert WatcherOk(w.l, w.completed, w.issued, t, w.watchers[t]);
    }
  }

  /**
   A recorded step is never sent again by a later watch: whatever happens after
   x is recorded, no token drawn from then on ever sends it, in any watch,
   redrive, lease change or restart, fenced out or not.
   */
  lemma LaterWatchesNeverResend(cfg: Config, run: nat, before: seq<Act>, after: seq<Act>, x: Step)
    requires x in DeliveryProtocol.Run(cfg, NewWorld(run), before).l.steps
    ensures var a := DeliveryProtocol.Run(cfg, NewWorld(run), before);
            var b := DeliveryProtocol.Run(cfg, a, after);
            forall i :: |a.log| <= i < |b.log| && b.log[i].token >= a.issued ==> b.log[i].step != x
  {
    var a := DeliveryProtocol.Run(cfg, NewWorld(run), before);
    var b := DeliveryProtocol.Run(cfg, a, after);
    RunKeeps(cfg, NewWorld(run), before);
    AimingIsIssued(a, x);
    RepeatsWereAimed(cfg, a, after, x);
    forall i: nat | |a.log| <= i < |b.log| ensures b.log[i].step == x ==> b.log[i].token < a.issued {
      if b.log[i].step == x {
        assert SendsOf(b.log, |a.log|, i, x);
      }
    }
  }

  /** Some continuation sends x again. */
  ghost predicate CanRepeat(cfg: Config, w: World, x: Step) {
    exists acts, i: nat :: SendsOf(DeliveryProtocol.Run(cfg, w, acts).log, |w.log|, i, x)
  }

  lemma LaunchSends(cfg: Config, w: World, t: Token, x: Step)
    requires t in Aiming(w, x)
    ensures var after := Next(cfg, w, Take(t, Tick(0.0, Proceed)));
            |after.log| == |w.log| + 1 && after.log[|w.log|].step == x
  {
    var me := w.watchers[t];
    assert TakeStep(cfg, t, w.l, me, Tick(0.0, Proceed)) == WorkStep(cfg, t, w.l, me, me.pc.job, me.pc.stage, Tick(0.0, Proceed));
  }

  /** A recorded step can be repeated exactly while some watch that found it unrecorded has not sent it yet. */
  lemma RepeatableExactly(cfg: Config, w: World, x: Step)
    requires x in w.l.steps
    ensures CanRepeat(cfg, w, x) <==> Aiming(w, x) != {}
  {
    if Aiming(w, x) != {} {
      var t :| t in Aiming(w, x);
      var act := Take(t, Tick(0.0, Proceed));
      RunAct(cfg, w, [], act);
      assert [act] + [] == [act];
      var b := DeliveryProtocol.Run(cfg, w, [act]);
      LaunchSends(cfg, w, t, x);
      assert SendsOf(b.log, |w.log|, |w.log|, x);
    }
    forall acts, i: nat | SendsOf(DeliveryProtocol.Run(cfg, w, acts).log, |w.log|, i, x) ensures Aiming(w, x) != {} {
      RepeatsWereAimed(cfg, w, acts, x);
    }
  }

  // ----- the rule for a repeat

  lemma EntryIsNew(cfg: Config, w: World, act: Act)
    ensures var after := Next(cfg, w, act);
            && w.log <= after.log && |after.log| <= |w.log| + 1
            && (|after.log| > |w.log| ==> (after.log[|w.log|].recorded <==> after.log[|w.log|].step in w.l.steps))
  {
  }

  lemma {:induction false} LogGrows(cfg: Config, w: World, acts: seq<Act>)
    ensures w.log <= DeliveryProtocol.Run(cfg, w, acts).log
    decreases |acts|
  {
    if acts != [] {
      EntryIsNew(cfg, w, acts[0]);
      LogGrows(cfg, Next(cfg, w, acts[0]), acts[1..]);
    }
  }

  /** The moment x is recorded: unrecorded after k acts, recorded after one more. */
  predicate RecordedAt(cfg: Config, w: World, acts: seq<Act>, k: nat, x: Step) {
    k < |acts|
    && x !in DeliveryProtocol.Run(cfg, w, acts[..k]).l.steps
    && x in DeliveryProtocol.Run(cfg, w, acts[..k + 1]).l.steps
  }

  lemma ShiftRecordedAt(cfg: Config, w: World, acts: seq<Act>, k: nat, x: Step)
    requires acts != [] && RecordedAt(cfg, Next(cfg, w, acts[0]), acts[1..], k, x)
    ensures RecordedAt(cfg, w, acts, k + 1, x)
    ensures DeliveryProtocol.Run(cfg, w, acts[..k + 1]) == DeliveryProtocol.Run(cfg, Next(cfg, w, acts[0]), acts[1..][..k])
    ensures DeliveryProtocol.Run(cfg, w, acts[..k + 2]) == DeliveryProtocol.Run(cfg, Next(cfg, w, acts[0]), acts[1..][..k + 1])
  {
    assert acts[..k + 1][1..] == acts[1..][..k];
    assert acts[..k + 2][1..] == acts[1..][..k + 1];
  }

  lemma {:induction false} FindRecording(cfg: Config, w: World, acts: seq<Act>, i: nat) returns (k: nat)
    requires var b := DeliveryProtocol.Run(cfg, w, acts);
             |w.log| <= i < |b.log| && b.log[i].recorded && b.log[i].step !in w.l.steps
    ensures var s := DeliveryProtocol.Run(cfg, w, acts).log[i];
            && RecordedAt(cfg, w, acts, k, s.step)
            && s.token in Aiming(DeliveryProtocol.Run(cfg, w, acts[..k]), s.step)
            && |DeliveryProtocol.Run(cfg, w, acts[..k + 1]).log| <= i
    decreases |acts|
  {
    var w1, b := Next(cfg, w, acts[0]), DeliveryProtocol.Run(cfg, w, acts);
    var x := b.log[i].step;
    EntryIsNew(cfg, w, acts[0]);
    LogGrows(cfg, w1, acts[1..]);
    assert forall j :: 0 <= j < |w1.log| ==> b.log[j] == w1.log[j];
    if x in w1.l.steps {
      k := 0;
      RepeatsWereAimed(cfg, w1, acts[1..], x);
      assert SendsOf(b.log, |w1.log|, i, x);
      RecordingAims(cfg, w, acts[0], x);
      assert acts[..1][1..] == [] && acts[..0] == [];
      assert DeliveryProtocol.Run(cfg, w, acts[..1]) == w1;
    } else {
      k := FindRecording(cfg, w1, acts[1..], i);
      ShiftRecordedAt(cfg, w, acts, k, x);
      k := k + 1;
    }
  }

  /**
   The rule: whoever sends a recorded step had drawn its token and made its
   check before the step was recorded, and has been fenced out since.
   */
  lemma RepeatRule(cfg: Config, run: nat, acts: seq<Act>, i: nat) returns (k: nat)
    requires var b := DeliveryProtocol.Run(cfg, NewWorld(run), acts);
             i < |b.log| && b.log[i].recorded
    ensures RecordedAt(cfg, NewWorld(run), acts, k, DeliveryProtocol.Run(cfg, NewWorld(run), acts).log[i].step)
    ensures var s := DeliveryProtocol.Run(cfg, NewWorld(run), acts).log[i];
            var a := DeliveryProtocol.Run(cfg, NewWorld(run), acts[..k]);
            && s.token < a.issued && s.token in Aiming(a, s.step)
            && |DeliveryProtocol.Run(cfg, NewWorld(run), acts[..k + 1]).log| <= i
            && !s.current
  {
    k := FindRecording(cfg, NewWorld(run), acts, i);
    RecordedIsNotResent(cfg, run, acts, i);
    RunKeeps(cfg, NewWorld(run), acts[..k]);
    AimingIsIssued(DeliveryProtocol.Run(cfg, NewWorld(run), acts[..k]),
                   DeliveryProtocol.Run(cfg, NewWorld(run), acts).log[i].step);
  }
}
