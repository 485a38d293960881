/**
 How far a parked waiter is from its wake: a distance that falls with each step that pays
 the wake, and that no other step raises.
 */
module PoolProgress {
  import opened Options
  import opened Sizing
  import opened Runs
  import opened PoolModel
  import opened PoolSafety
  import opened PoolSystem
  import opened PoolInvariant
  import opened PoolWakes
  import opened PoolTheorems

  /** One: its event is about to be set.  Two: an actor outside the lock, the checker's next
      round or the end of a stop will see to that.  Three: the checker is about to be
      signalled.  Four: nothing is on its way. */
  function WakeDistance(s: Sys, w: WaiterId): nat
    requires w in s.loop.parked
  {
    if SetAvailability(s.loop.parked[w]) in s.loop.ready then 1
    else if s.debts.wakes > 0 || s.loop.scaleSet || s.pool.stopping then 2
    else if SetScale(s.loop.epoch) in s.loop.ready then 3
    else 4
  }

  /** Steps that actors already at work take by themselves. */
  predicate Inner(l: Label) {
    l.WakeWaiters? || l.RunCallback? || l.CheckerTick? || l.StopEnds?
  }

  /** The steps that bring the wake closer; all are steps of actors already at work. */
  predicate Pays(s: Sys, l: Label, w: WaiterId)
    requires w in s.loop.parked
  {
    || l == RunCallback(SetAvailability(s.loop.parked[w]))
    || (WakeDistance(s, w) >= 2 && (l.WakeWaiters? || l.CheckerTick? || l.StopEnds?))
    || (WakeDistance(s, w) == 3 && l == RunCallback(SetScale(s.loop.epoch)))
  }

  /** Could an acquire succeed for this waiter, or has its event been given up? */
  predicate Served(cfg: Config, s: Sys, w: WaiterId)
    requires w in s.loop.parked
  {
    s.pool.started && s.loop.parked[w] == s.loop.epoch ==> |s.pool.leased| < cfg.maxPools
  }

  /** While a unit is free the wake is near. */
  lemma WakeIsNear(cfg: Config, s: Sys, w: WaiterId)
    requires cfg.Valid() && Inv(cfg, s) && w in s.loop.parked && Served(cfg, s, w)
    ensures 1 <= WakeDistance(s, w) <= 3
  {
    hide Balanced, Exclusive, Lifecycle, WorkInv, ExpiryInv;
  }

  /** And when it is near, a step that pays it can be taken. */
  lemma PayingStep(cfg: Config, s: Sys, w: WaiterId, r: Reading) returns (l: Label)
    requires cfg.Valid() && Inv(cfg, s) && w in s.loop.parked && WakeDistance(s, w) <= 3
    ensures Inner(l) && Enabled(cfg, s, l) && Pays(s, l, w)
  {
    hide Balanced, Exclusive, Lifecycle, WorkInv, ExpiryInv;
    if SetAvailability(s.loop.parked[w]) in s.loop.ready {
      l := RunCallback(SetAvailability(s.loop.parked[w]));
    } else if s.debts.wakes > 0 {
      l := WakeWaiters;
    } else if s.pool.stopping {
      l := StopEnds;
    } else if s.loop.scaleSet {
      FarWaiterIsCurrent(cfg, s, w);
      l := CheckerTick(r, r, r);
    } else {
      l := RunCallback(SetScale(s.loop.epoch));
    }
  }

  /** Unless its event is about to be set, a parked waiter waits on the present event of a
      started manager. */
  lemma FarWaiterIsCurrent(cfg: Config, s: Sys, w: WaiterId)
    requires Inv(cfg, s) && w in s.loop.parked && WakeDistance(s, w) >= 2
    ensures s.pool.started && s.loop.events && s.loop.parked[w] == s.loop.epoch
  {
    hide Balanced, Exclusive, Lifecycle, WorkInv, ExpiryInv;
  }

  ghost predicate NoFarther(s: Sys, t: Sys, w: WaiterId)
    requires w in s.loop.parked
  {
    w in t.loop.parked ==> t.loop.parked[w] == s.loop.parked[w] && WakeDistance(t, w) <= WakeDistance(s, w)
  }

  lemma SectionNoFarther(cfg: Config, s: Sys, l: Label, w: WaiterId)
    requires cfg.Valid() && Solvent(cfg, s.pool, s.debts.shutdowns) && Enabled(cfg, s, l) && w in s.loop.parked
    requires l.ReleaseLease? || l.RunDoneCallback? || l.SubmitWork?
    ensures NoFarther(s, Apply(cfg, s, l), w)
  {
    hide PoolInv, Balanced, Release, FutureDone;
    if l.ReleaseLease? {
      ReleaseSafe(cfg, s.pool, l.id, s.now, l.keep, l.fill, s.debts.shutdowns);
    } else if l.RunDoneCallback? {
      var k := s.ledger.work[l.f];
      FutureDoneSafe(cfg, s.pool, k.lease, l.f, k.broken, s.now, l.keep, l.fill, s.debts.shutdowns);
    } else {
      SubmitNoFarther(cfg, s, l, w);
    }
  }

  lemma SubmitNoFarther(cfg: Config, s: Sys, l: Label, w: WaiterId)
    requires cfg.Valid() && Solvent(cfg, s.pool, s.debts.shutdowns) && Enabled(cfg, s, l) && w in s.loop.parked
    requires l.SubmitWork?
    ensures NoFarther(s, Apply(cfg, s, l), w)
  {
    hide PoolInv, Balanced, FutureDone;
    var (o, reply) := Submit(cfg, s.pool, l.id, s.now, l.answer, l.fill);
    SubmitSafe(cfg, s.pool, l.id, s.now, l.answer, l.fill, s.debts.shutdowns);
    if reply.Submitted? && l.atOnce.Some? {
      FutureDoneSafe(cfg, o.pool, l.id, reply.future, l.atOnce == Some(true), s.now, l.keep, l.refill,
                     s.debts.shutdowns + Owed(o.toShutdown));
    }
  }

  /** The waiter stays where it is, and nothing that is to wake it is taken away. */
  ghost predicate StillWaiting(loop: Loop, next: Loop, w: WaiterId)
    requires w in loop.parked
  {
    && w in next.parked && next.parked[w] == loop.parked[w] && next.epoch == loop.epoch
    && (loop.scaleSet ==> next.scaleSet)
    && (forall c :: c in loop.ready ==> c in next.ready)
  }

  lemma WaitingIsNoFarther(s: Sys, t: Sys, w: WaiterId)
    requires w in s.loop.parked && StillWaiting(s.loop, t.loop, w)
    requires t.debts.wakes >= s.debts.wakes && (s.pool.stopping ==> t.pool.stopping)
    ensures NoFarther(s, t, w)
  {
  }

  lemma OthersLeaveWaiting(loop: Loop, other: WaiterId, now: real, w: WaiterId)
    requires w in loop.parked && other != w
    ensures var r := Resume(loop, other);
            StillWaiting(loop, r, w) && StillWaiting(loop, Park(r, other), w)
              && StillWaiting(loop, ScheduleScale(r, now), w)
  {
  }

  lemma AcquireNoFarther(cfg: Config, s: Sys, l: Label, w: WaiterId)
    requires cfg.Valid() && Solvent(cfg, s.pool, s.debts.shutdowns) && LeasesKnown(s.pool, s.ledger)
    requires Enabled(cfg, s, l) && w in s.loop.parked && l.TryAcquire?
    ensures NoFarther(s, Apply(cfg, s, l), w)
  {
    hide Balanced, PoolInv, Acquire, Resume, Park, ScheduleScale, StillWaiting, NoFarther;
    AcquireSafe(cfg, s.pool, s.now, l.id, l.seconds, l.reading, s.debts.shutdowns);
    OthersLeaveWaiting(s.loop, l.waiter, s.now, w);
    WaitingIsNoFarther(s, Apply(cfg, s, l), w);
  }

  /** Signalling the checker. */
  lemma SignalNoFarther(s: Sys, e: nat, w: WaiterId)
    requires w in s.loop.parked && SetScale(e) in s.loop.ready
    ensures var t := s.(loop := RunReady(s.loop, SetScale(e)));
            && NoFarther(s, t, w)
            && (Pays(s, RunCallback(SetScale(e)), w) ==> w in t.loop.parked && WakeDistance(t, w) < WakeDistance(s, w))
  {
    OthersStayReady(s.loop.ready, SetScale(e));
  }

  /** Setting an availability event: the waiter's own, or another. */
  lemma SettingNoFarther(s: Sys, e: nat, w: WaiterId)
    requires w in s.loop.parked && SetAvailability(e) in s.loop.ready
    ensures var t := s.(loop := RunReady(s.loop, SetAvailability(e)));
            NoFarther(s, t, w) && (Pays(s, RunCallback(SetAvailability(e)), w) <==> w !in t.loop.parked)
  {
    hide NoFarther, WakeDistance;
    OthersStayReady(s.loop.ready, SetAvailability(e));
    var t := s.(loop := RunReady(s.loop, SetAvailability(e)));
    if s.loop.parked[w] == e {
      GoneIsNoFarther(s, t, w);
    } else {
      StaysIsNoFarther(s, t, e, w);
    }
  }

  lemma StaysIsNoFarther(s: Sys, t: Sys, e: nat, w: WaiterId)
    requires w in s.loop.parked && s.loop.parked[w] != e && w in t.loop.parked && t.loop.parked[w] == s.loop.parked[w]
    requires t.loop.epoch == s.loop.epoch && t.loop.scaleSet == s.loop.scaleSet && t.pool == s.pool
             && t.debts == s.debts
    requires forall c :: c in s.loop.ready && c != SetAvailability(e) ==> c in t.loop.ready
    ensures NoFarther(s, t, w)
  {
  }

  lemma CallbackNoFarther(cfg: Config, s: Sys, l: Label, w: WaiterId)
    requires cfg.Valid() && w in s.loop.parked && l.RunCallback? && Enabled(cfg, s, l)
    ensures var t := Apply(cfg, s, l);
            && NoFarther(s, t, w)
            && (Pays(s, l, w) && w in t.loop.parked ==> WakeDistance(t, w) < WakeDistance(s, w))
  {
    hide NoFarther, WakeDistance, Pays, RunReady;
    match l.callback
    case SetScale(e) => SignalNoFarther(s, e, w);
    case SetAvailability(e) => SettingNoFarther(s, e, w);
  }

  /** With its event about to be set, a waiter is as near as it can be. */
  lemma SetEventIsNearest(s: Sys, t: Sys, w: WaiterId)
    requires w in s.loop.parked && (w in t.loop.parked ==> t.loop.parked[w] == s.loop.parked[w])
    requires SetAvailability(s.loop.parked[w]) in t.loop.ready
    ensures NoFarther(s, t, w)
  {
  }

  lemma ModesNoFarther(cfg: Config, s: Sys, l: Label, w: WaiterId)
    requires cfg.Valid() && Inv(cfg, s) && Enabled(cfg, s, l) && w in s.loop.parked
    requires l.Begin? || l.BeginFails? || l.StopBegins?
    ensures NoFarther(s, Apply(cfg, s, l), w)
  {
    hide Start, StartFails, PoolInv, Balanced, WorkInv, ExpiryInv, NoFarther;
    if l.StopBegins? {
      WaitingIsNoFarther(s, Apply(cfg, s, l), w);
    } else {
      SetEventIsNearest(s, Apply(cfg, s, l), w);
    }
  }

  lemma OthersNoFarther(cfg: Config, s: Sys, l: Label, w: WaiterId)
    requires cfg.Valid() && Enabled(cfg, s, l) && w in s.loop.parked
    requires (LoopOnly(l) && !l.RunCallback? && !l.WakeWaiters?) || l.ShutDown?
    ensures NoFarther(s, Apply(cfg, s, l), w)
  {
    hide NoFarther, WakeDistance;
    var t := Apply(cfg, s, l);
    if l == GiveUp(w) {
      GoneIsNoFarther(s, t, w);
    } else {
      WaitingIsNoFarther(s, t, w);
    }
  }

  lemma GoneIsNoFarther(s: Sys, t: Sys, w: WaiterId)
    requires w in s.loop.parked && w !in t.loop.parked
    ensures NoFarther(s, t, w)
  {
  }

  /** Waking the waiters, a round of the checker and the end of a stop bring it to one. */
  lemma WakersPay(cfg: Config, s: Sys, l: Label, w: WaiterId)
    requires cfg.Valid() && Inv(cfg, s) && Enabled(cfg, s, l) && w in s.loop.parked
    requires l.WakeWaiters? || l.CheckerTick? || l.StopEnds?
    ensures var t := Apply(cfg, s, l);
            w in t.loop.parked && t.loop.parked[w] == s.loop.parked[w] && WakeDistance(t, w) == 1
  {
    hide Tick, StopFinish, Balanced, Exclusive, Lifecycle, WorkInv, ExpiryInv;
    if WakeDistance(s, w) >= 2 { FarWaiterIsCurrent(cfg, s, w); }
  }

  lemma WakeComesCloser(cfg: Config, s: Sys, l: Label, w: WaiterId)
    requires cfg.Valid() && Inv(cfg, s) && Enabled(cfg, s, l) && w in s.loop.parked
    ensures var t := Apply(cfg, s, l);
            && NoFarther(s, t, w)
            && (Pays(s, l, w) && w in t.loop.parked ==> WakeDistance(t, w) < WakeDistance(s, w))
  {
    hide Apply, Enabled, PoolInv, Balanced, WakeInv, ExpiryInv, PendingKnown, WorkKnown, LeasesKnown, NoFarther,
         WakeDistance;
    if l.RunCallback? {
      CallbackNoFarther(cfg, s, l, w);
    } else if l.WakeWaiters? || l.CheckerTick? || l.StopEnds? {
      WakersPay(cfg, s, l, w);
      OneIsLeast(s, w);
      OneIsNoFarther(s, Apply(cfg, s, l), w);
    } else if l.ReleaseLease? || l.RunDoneCallback? || l.SubmitWork? {
      SectionNoFarther(cfg, s, l, w);
    } else if l.TryAcquire? {
      AcquireNoFarther(cfg, s, l, w);
    } else if l.Begin? || l.BeginFails? || l.StopBegins? {
      ModesNoFarther(cfg, s, l, w);
    } else {
      OthersNoFarther(cfg, s, l, w);
    }
  }

  lemma OneIsLeast(s: Sys, w: WaiterId)
    requires w in s.loop.parked
    ensures WakeDistance(s, w) >= 1
  {
  }

  lemma OneIsNoFarther(s: Sys, t: Sys, w: WaiterId)
    requires w in s.loop.parked && w in t.loop.parked && t.loop.parked[w] == s.loop.parked[w]
    requires WakeDistance(t, w) == 1
    ensures NoFarther(s, t, w)
  {
  }

  /** Who is no longer parked after such a step is about to run again. */
  lemma PaidIsWoken(cfg: Config, s: Sys, l: Label, w: WaiterId)
    requires cfg.Valid() && Enabled(cfg, s, l) && w in s.loop.parked && Inner(l)
    ensures var t := Apply(cfg, s, l); t.now == s.now && (w in t.loop.parked || w in t.loop.woken)
  {
    hide Tick, StopFinish;
  }

  /** So the actors at work can bring the wake in at most as many steps as it is far. */
  lemma {:induction false} WakeArrives(cfg: Config, s: Sys, w: WaiterId, r: Reading) returns (steps: seq<Label>)
    requires cfg.Valid() && Inv(cfg, s) && w in s.loop.parked && WakeDistance(s, w) <= 3
    ensures 1 <= |steps| <= WakeDistance(s, w) && (forall i :: 0 <= i < |steps| ==> Inner(steps[i]))
    ensures Legal(Next(cfg), s, steps)
    ensures var t := Exec(Next(cfg), s, steps); w !in t.loop.parked && w in t.loop.woken && t.now == s.now
    decreases WakeDistance(s, w)
  {
    hide Inv, Apply, Enabled, Legal, Exec, Pays, WakeDistance, NoFarther;
    var l := PayingStep(cfg, s, w, r);
    var t := Apply(cfg, s, l);
    InvStep(cfg, s, l);
    WakeComesCloser(cfg, s, l, w);
    PaidIsWoken(cfg, s, l, w);
    if w !in t.loop.parked {
      OneIsLeast(s, w);
      steps := [l];
      Unfold(Next(cfg), t, []);
      assert steps[1..] == [];
    } else {
      var rest := WakeArrives(cfg, t, w, r);
      steps := [l] + rest;
      assert steps[1..] == rest;
    }
    Unfold(Next(cfg), s, steps);
  }

  // ------------------------------------------------------------------------------
  // Every schedule
  // ------------------------------------------------------------------------------

  /** The waiter is parked before and after each step of the run. */
  ghost predicate StaysParked(cfg: Config, s: Sys, run: seq<Label>, w: WaiterId)
    requires cfg.Valid() && Legal(Next(cfg), s, run)
    decreases |run|
  {
    Unfold(Next(cfg), s, run);
    w in s.loop.parked && (run == [] || StaysParked(cfg, Next(cfg)(s, run[0]).value, run[1..], w))
  }

  /** How many steps of the run pay the wake of a waiter that stays parked. */
  ghost function Payments(cfg: Config, s: Sys, run: seq<Label>, w: WaiterId): nat
    requires cfg.Valid() && Legal(Next(cfg), s, run) && StaysParked(cfg, s, run, w)
    decreases |run|
  {
    Unfold(Next(cfg), s, run);
    if run == [] then 0
    else (if Pays(s, run[0], w) then 1 else 0) + Payments(cfg, Next(cfg)(s, run[0]).value, run[1..], w)
  }

  lemma {:induction false} PaymentsCount(cfg: Config, s: Sys, run: seq<Label>, w: WaiterId)
    requires cfg.Valid() && Inv(cfg, s) && Legal(Next(cfg), s, run) && StaysParked(cfg, s, run, w)
    ensures var t := Exec(Next(cfg), s, run);
            w in t.loop.parked && Payments(cfg, s, run, w) + WakeDistance(t, w) <= WakeDistance(s, w)
    decreases |run|
  {
    hide Inv, Apply, Enabled, Legal, Exec, Pays, WakeDistance;
    Unfold(Next(cfg), s, run);
    if run == [] {
    } else {
      var t := Apply(cfg, s, run[0]);
      InvStep(cfg, s, run[0]);
      WakeComesCloser(cfg, s, run[0], w);
      PaymentsCount(cfg, t, run[1..], w);
    }
  }

  /** Whatever else happens and in whatever order: from a moment when a unit is free, a waiter
      stays parked through at most two of the steps that pay its wake. */
  lemma EverySchedulePaysOff(cfg: Config, run: seq<Label>, rest: seq<Label>, w: WaiterId)
    requires Run(cfg, run) && w in After(cfg, run).loop.parked && Served(cfg, After(cfg, run), w)
    requires Legal(Next(cfg), After(cfg, run), rest) && StaysParked(cfg, After(cfg, run), rest, w)
    ensures Payments(cfg, After(cfg, run), rest, w) <= 2
  {
    hide Inv, Apply, Enabled, Legal, Exec, Pays, WakeDistance;
    var s := After(cfg, run);
    Reachable(cfg, run);
    WakeIsNear(cfg, s, w);
    PaymentsCount(cfg, s, rest, w);
    OneIsLeast(Exec(Next(cfg), s, rest), w);
  }
}
