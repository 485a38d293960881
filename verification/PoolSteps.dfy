/**
 What each step of the loop does, to the last field: attempts and their waiting, the
 checker's rounds, starts and stops, and the small steps between.
 */
module PoolSteps {
  import opened Options
  import opened Reals
  import opened Sizing
  import opened Runs
  import opened PoolModel
  import opened PoolLaws
  import opened PoolSystem
  import opened PoolInvariant
  import opened PoolWakes
  import opened PoolTheorems
  import opened PoolEffects

  // ------------------------------------------------------------------------------
  // Revoking
  // ------------------------------------------------------------------------------

  function InTime(leased: map<LeaseId, Rec>, now: real): map<LeaseId, Rec> {
    map id | id in leased && !Lapsed(leased[id], now) :: leased[id]
  }

  function LapsedExecutors(leased: map<LeaseId, Rec>, now: real): set<ExecId> {
    set id | id in leased && Lapsed(leased[id], now) :: leased[id].executor
  }

  /** Without the leases whose time is over, their executors shut down; and if there were
      any, with as many made as are wanted. */
  function Purged(p: Pool, now: real, wanted: nat): Pool {
    if forall id :: id in p.leased ==> !Lapsed(p.leased[id], now) then p
    else
      var q := p.(leased := InTime(p.leased, now),
                  shutdowns := p.shutdowns + multiset(LapsedExecutors(p.leased, now)));
      Made(q, Need(|q.available| + |q.leased|, wanted))
  }

  lemma LapsedIsExpired(leased: map<LeaseId, Rec>, now: real)
    ensures forall id :: id in ExpiredIds(leased, now) <==> id in leased && Lapsed(leased[id], now)
  {
  }

  lemma GoneAreLapsed(leased: map<LeaseId, Rec>, now: real)
    ensures var gone := ExpiredIds(leased, now);
            && (gone == {} <==> forall id :: id in leased ==> !Lapsed(leased[id], now))
            && leased - gone == InTime(leased, now)
            && ExecutorsOf(leased, gone) == LapsedExecutors(leased, now)
  {
    hide Lapsed, ExpiredIds;
    LapsedIsExpired(leased, now);
    var gone := ExpiredIds(leased, now);
    if gone != {} {
      var id :| id in gone;
      assert Lapsed(leased[id], now);
    }
  }

  lemma RevokeIs(cfg: Config, p: Pool, now: real, reading: Reading)
    requires cfg.Valid()
    ensures Revoke(cfg, p, now, reading) == Purged(p, now, cfg.Desired(reading))
  {
    hide EnsureMinimum, Made, Config.Desired, ExpiredIds, ExecutorsOf, InTime, LapsedExecutors, Lapsed;
    GoneAreLapsed(p.leased, now);
    FillIs(Drop(p, ExpiredIds(p.leased, now)), cfg.Desired(reading));
  }

  // ------------------------------------------------------------------------------
  // Attempts
  // ------------------------------------------------------------------------------

  /** What an attempt does to the pool, and whether it leases. */
  function Attempted(p: Pool, now: real, id: LeaseId, seconds: real, grace: real, wanted: nat, most: nat): (Pool, bool)
  {
    var q := Purged(p, now, wanted);
    if q.available != [] then
      (q.(available := q.available[1..],
          leased := q.leased[id := Rec(q.available[0], now, seconds, grace, {}, false, false)]), true)
    else if |q.leased| < most then
      var e := q.executorSeq + 1;
      (q.(executorSeq := e, created := q.created + {e},
          leased := q.leased[id := Rec(e, now, seconds, grace, {}, false, false)]), true)
    else (q, false)
  }

  lemma AcquireIs(cfg: Config, p: Pool, now: real, id: LeaseId, seconds: real, reading: Reading)
    requires cfg.Valid() && p.started && !p.stopping
    ensures var (q, a) := Acquire(cfg, p, now, id, seconds, reading);
            var (r, ok) := Attempted(p, now, id, seconds, cfg.graceSeconds, cfg.Desired(reading), cfg.maxPools);
            q == r && a == (if ok then Leased else Unavailable) && (ok ==> id in q.leased)
  {
    hide Revoke, Purged;
    RevokeIs(cfg, p, now, reading);
  }

  /** A waiter that runs again clears the event it waited on. */
  function RunsAgain(loop: Loop, w: WaiterId): Loop {
    if w in loop.woken
    then loop.(availabilitySet := loop.availabilitySet && loop.woken[w] != Some(loop.epoch), woken := loop.woken - {w})
    else loop
  }

  /** The checker is signalled, if the manager has its event. */
  function Signalled(loop: Loop, now: real): Loop {
    if loop.events
    then loop.(ready := loop.ready + multiset{SetScale(loop.epoch)}, due := if loop.due < now then loop.due else now)
    else loop
  }

  /** The waiters are woken, if the manager has their event. */
  function Called(loop: Loop): Loop {
    if loop.events then loop.(ready := loop.ready + multiset{SetAvailability(loop.epoch)}) else loop
  }

  /** Waiting: at once over if the event is set, which is cleared; else for the event. */
  function StartsToWait(loop: Loop, w: WaiterId): Loop {
    if loop.availabilitySet
    then loop.(availabilitySet := false, woken := loop.woken[w := None])
    else loop.(parked := loop.parked[w := loop.epoch])
  }

  lemma LoopsAgree(loop: Loop, w: WaiterId, now: real)
    ensures Resume(loop, w) == RunsAgain(loop, w)
    ensures ScheduleScale(loop, now) == Signalled(loop, now)
    ensures Park(loop, w) == StartsToWait(loop, w)
  {
  }

  /** An attempt fails at once with a manager that is not running; it leases, records whose
      executor that is and signals the checker; or it is in vain, and then waits if it may. */
  lemma AttemptEffect(cfg: Config, run: seq<Label>, w: WaiterId, id: LeaseId, seconds: real, wait: bool,
                      reading: Reading)
    requires Run(cfg, run) && Enabled(cfg, After(cfg, run), TryAcquire(w, id, seconds, wait, reading))
    ensures var s := After(cfg, run);
            var t := Apply(cfg, s, TryAcquire(w, id, seconds, wait, reading));
            var loop := RunsAgain(s.loop, w);
            if !s.pool.started || s.pool.stopping then t == s.(loop := loop)
            else
              var (q, ok) :=
                Attempted(s.pool, s.now, id, seconds, cfg.graceSeconds, cfg.Desired(reading), cfg.maxPools);
              if ok then
                && id in q.leased
                && t == s.(pool := q, loop := Signalled(loop, s.now),
                           ledger := s.ledger.(issued := s.ledger.issued[id := q.leased[id].executor]))
              else t == s.(pool := q, loop := if wait then StartsToWait(loop, w) else loop)
  {
    hide Legal, Exec, Inv, Acquire, Attempted, Resume, RunsAgain, ScheduleScale, Signalled, Park, StartsToWait;
    var s := After(cfg, run);
    LoopsAgree(s.loop, w, s.now);
    LoopsAgree(RunsAgain(s.loop, w), w, s.now);
    if s.pool.started && !s.pool.stopping {
      AcquireIs(cfg, s.pool, s.now, id, seconds, reading);
    } else {
      NotStartedFails(cfg, s.pool, s.now, id, seconds, reading);
    }
  }

  predicate IsWaiting(loop: Loop, w: WaiterId) {
    w in loop.parked || w in loop.woken
  }

  lemma WhoWaits(loop: Loop, w: WaiterId, now: real)
    requires w !in loop.parked
    ensures var r := RunsAgain(loop, w);
            !IsWaiting(r, w) && !IsWaiting(Signalled(r, now), w) && IsWaiting(StartsToWait(r, w), w)
  {
  }

  /** An attempt in vain is one that meets the most leases in time, and leaves the pool. */
  lemma VainIsFull(cfg: Config, s: Sys, id: LeaseId, seconds: real, reading: Reading)
    requires cfg.Valid() && Solvent(cfg, s.pool, s.debts.shutdowns) && id !in s.pool.leased
    requires s.pool.started && !s.pool.stopping
    ensures var (q, ok) := Attempted(s.pool, s.now, id, seconds, cfg.graceSeconds, cfg.Desired(reading), cfg.maxPools);
            (!ok <==> |InTime(s.pool.leased, s.now)| >= cfg.maxPools) && (!ok ==> q == s.pool)
  {
    hide Balanced, Exclusive, Lifecycle, Attempted, Acquire;
    AcquireIs(cfg, s.pool, s.now, id, seconds, reading);
    assert s.pool.leased - ExpiredIds(s.pool.leased, s.now) == InTime(s.pool.leased, s.now);
    AcquireIsSemaphore(cfg, s.pool, s.now, id, seconds, reading, s.debts.shutdowns);
  }

  /** On a running manager an attempt is in vain if and only if the most leases are held in
      time; the pool is then as it was, and the acquirer waits if and only if it may.  Else
      it has its lease, and does not wait. */
  lemma WaitingAcquireWaits(cfg: Config, run: seq<Label>, w: WaiterId, id: LeaseId, seconds: real, wait: bool,
                            reading: Reading)
    requires Run(cfg, run) && Enabled(cfg, After(cfg, run), TryAcquire(w, id, seconds, wait, reading))
    requires After(cfg, run).pool.started && !After(cfg, run).pool.stopping
    ensures var s := After(cfg, run);
            var t := Apply(cfg, s, TryAcquire(w, id, seconds, wait, reading));
            if |InTime(s.pool.leased, s.now)| >= cfg.maxPools
            then t.pool == s.pool && (IsWaiting(t.loop, w) <==> wait)
            else id in t.pool.leased && !IsWaiting(t.loop, w)
  {
    hide Legal, Exec, PoolInv, Balanced, WakeInv, ExpiryInv, PendingKnown, WorkKnown, Attempted, Apply, InTime,
         IsWaiting, RunsAgain, StartsToWait, Signalled;
    var s := After(cfg, run);
    Reachable(cfg, run);
    AttemptEffect(cfg, run, w, id, seconds, wait, reading);
    VainIsFull(cfg, s, id, seconds, reading);
    WhoWaits(s.loop, w, s.now);
  }

  // ------------------------------------------------------------------------------
  // The checker's round
  // ------------------------------------------------------------------------------

  /** Purged, then filled to one size, then shed to another. */
  function Round(p: Pool, now: real, revoke: nat, fill: nat, shrink: nat): Pool {
    var q := Purged(p, now, revoke);
    var r := Made(q, Need(|q.available| + |q.leased|, fill));
    Shed(r, Room(|r.available|, |r.leased|, shrink))
  }

  lemma TickIs(cfg: Config, p: Pool, now: real, revoke: Reading, fill: Reading, shrink: Reading)
    requires cfg.Valid()
    ensures Tick(cfg, p, now, revoke, fill, shrink) ==
            Round(p, now, cfg.Desired(revoke), cfg.Desired(fill), cfg.Desired(shrink))
  {
    hide Revoke, Purged, EnsureMinimum, ShrinkIdle, Made, Shed;
    RevokeIs(cfg, p, now, revoke);
    var q := Revoke(cfg, p, now, revoke);
    FillIs(q, cfg.Desired(fill));
    ShrinkIs(EnsureMinimum(q, cfg.Desired(fill)), cfg.Desired(shrink));
  }

  /** The checker sleeps for its interval, or until the first lease's time is over if that is
      sooner; not at all if it is over by now. */
  ghost predicate RightAppointment(leased: map<LeaseId, Rec>, interval: real, now: real, wake: real) {
    var ends := (rec: Rec) => RealMax(now, rec.leasedAt + rec.leaseSeconds + rec.graceSeconds);
    && wake <= now + interval
    && (forall id :: id in leased ==> wake <= ends(leased[id]))
    && (wake == now + interval || exists id :: id in leased && wake == ends(leased[id]))
  }

  lemma WaitIsRight(cfg: Config, p: Pool, now: real)
    requires cfg.Valid()
    ensures RightAppointment(p.leased, cfg.checkInterval, now, now + WaitSeconds(cfg, p, now))
  {
    if p.leased != map[] {
      forall id | id in p.leased ensures now + WaitSeconds(cfg, p, now) <= RealMax(now, p.leased[id].HardExpiresAt()) {
        EarliestIsFirst(p.leased, id);
      }
      EarliestIsAttained(p.leased);
    }
  }

  /** The loop after a round that ends with an appointment. */
  function Rounded(loop: Loop, now: real, wake: real): Loop {
    Called(loop).(scaleSet := false, checker := Some(wake),
                  due := if SetScale(loop.epoch) in loop.ready && now < wake then now else wake)
  }

  lemma RoundedLoop(loop: Loop, now: real, wake: real)
    ensures CheckerRound(loop, now, wake) == Rounded(loop, now, wake)
  {
  }

  lemma RoundedChecker(loop: Loop, now: real, wake: real)
    ensures Rounded(loop, now, wake).checker == Some(wake)
  {
  }

  /** Signalled, or at its time, a round clears the signal, does its work, wakes the waiters
      and makes the appointment. */
  lemma RoundEffect(cfg: Config, run: seq<Label>, revoke: Reading, fill: Reading, shrink: Reading)
    requires Run(cfg, run) && Enabled(cfg, After(cfg, run), CheckerTick(revoke, fill, shrink))
    ensures var s := After(cfg, run);
            var t := Apply(cfg, s, CheckerTick(revoke, fill, shrink));
            && s.loop.checker.Some? && (s.loop.scaleSet || s.now >= s.loop.checker.value)
            && t.now == s.now && t.debts == s.debts && t.ledger == s.ledger
            && t.pool == Round(s.pool, s.now, cfg.Desired(revoke), cfg.Desired(fill), cfg.Desired(shrink))
            && t.loop.checker.Some?
            && RightAppointment(t.pool.leased, cfg.checkInterval, s.now, t.loop.checker.value)
            && t.loop == Rounded(s.loop, s.now, t.loop.checker.value)
  {
    hide Legal, Exec, Inv, TickStep, Round, RightAppointment, Rounded;
    RoundStep(cfg, After(cfg, run), revoke, fill, shrink);
  }

  lemma RoundStep(cfg: Config, s: Sys, revoke: Reading, fill: Reading, shrink: Reading)
    requires cfg.Valid()
    ensures var t := TickStep(cfg, s, revoke, fill, shrink);
            && t.now == s.now && t.debts == s.debts && t.ledger == s.ledger
            && t.pool == Round(s.pool, s.now, cfg.Desired(revoke), cfg.Desired(fill), cfg.Desired(shrink))
            && t.loop.checker.Some?
            && RightAppointment(t.pool.leased, cfg.checkInterval, s.now, t.loop.checker.value)
            && t.loop == Rounded(s.loop, s.now, t.loop.checker.value)
  {
    hide Tick, Round, WaitSeconds, RightAppointment, CheckerRound, Rounded;
    var q := Tick(cfg, s.pool, s.now, revoke, fill, shrink);
    TickIs(cfg, s.pool, s.now, revoke, fill, shrink);
    WaitIsRight(cfg, q, s.now);
    RoundedLoop(s.loop, s.now, s.now + WaitSeconds(cfg, q, s.now));
    RoundedChecker(s.loop, s.now, s.now + WaitSeconds(cfg, q, s.now));
  }

  // ------------------------------------------------------------------------------
  // Starting and stopping
  // ------------------------------------------------------------------------------

  /** A new pair of events, with no one waiting on it. */
  function NewEvents(loop: Loop, now: real, checker: Option<real>): Loop {
    Loop(loop.epoch + 1, true, false, false, checker, now, loop.parked, loop.woken, loop.ready)
  }

  /** A start makes as many executors as are wanted; one that fails makes some, and all of
      those are shut down, once each, and one more number is used up. */
  lemma StartEffect(cfg: Config, run: seq<Label>, fill: Reading, creations: nat)
    requires Run(cfg, run) && !After(cfg, run).pool.started
    ensures var s := After(cfg, run);
            && Enabled(cfg, s, Begin(fill))
            && Apply(cfg, s, Begin(fill)) ==
               s.(pool := Made(s.pool, cfg.Desired(fill)).(started := true),
                  loop := NewEvents(s.loop, s.now, Some(s.now)))
            && (Enabled(cfg, s, BeginFails(creations, fill)) <==> creations < cfg.Desired(fill))
            && (creations < cfg.Desired(fill) ==>
                  var made := Numbers(s.pool.executorSeq, creations);
                  Apply(cfg, s, BeginFails(creations, fill)) ==
                  s.(pool := s.pool.(executorSeq := s.pool.executorSeq + creations + 1,
                                     created := s.pool.created + AsSet(made),
                                     shutdowns := s.pool.shutdowns + multiset(made)),
                     loop := NewEvents(s.loop, s.now, None)))
  {
    hide Legal, Exec, Balanced, Exclusive, Lifecycle, WakeInv, ExpiryInv, WorkInv, Start, StartFails, Made;
    var s := After(cfg, run);
    Reachable(cfg, run);
    StartIs(cfg, s.pool, fill);
    StartFailsIs(s.pool, creations);
  }

  lemma StartIs(cfg: Config, p: Pool, fill: Reading)
    requires cfg.Valid() && p.leased == map[] && p.available == [] && !p.stopping
    ensures Start(cfg, p, fill) == Made(p, cfg.Desired(fill)).(started := true)
  {
    hide EnsureMinimum, Config.Desired, Numbers, AsSet;
    FillIs(p.(stopping := false), cfg.Desired(fill));
    StartedPool(p);
  }

  lemma StartFailsIs(p: Pool, creations: nat)
    requires p.leased == map[] && p.available == [] && !p.stopping
    ensures var made := Numbers(p.executorSeq, creations);
            StartFails(p, creations) ==
            p.(executorSeq := p.executorSeq + creations + 1, created := p.created + AsSet(made),
               shutdowns := p.shutdowns + multiset(made))
  {
    hide EnsureMinimum;
    FillIs(p.(stopping := false), p.Total() + creations);
    StartedPool(p);
    assert [] + Numbers(p.executorSeq, creations) == Numbers(p.executorSeq, creations);
    StartedPool(EnsureMinimum(p.(stopping := false), p.Total() + creations));
    assert p.shutdowns + multiset(Numbers(p.executorSeq, creations)) + multiset{} ==
           p.shutdowns + multiset(Numbers(p.executorSeq, creations));
  }

  lemma StartedPool(p: Pool)
    requires p.leased == map[]
    ensures p.Held() == {} && multiset(p.Held()) == multiset{} && |p.leased| == 0
  {
  }

  /** A stop refuses new leases at once and ends the checker. */
  lemma StopBeginsEffect(cfg: Config, run: seq<Label>)
    requires Run(cfg, run) && Enabled(cfg, After(cfg, run), StopBegins)
    ensures var s := After(cfg, run);
            Apply(cfg, s, StopBegins) ==
            s.(pool := s.pool.(stopping := true),
               loop := s.loop.(checker := None, due := RealMin(s.loop.due, s.now)))
  {
    hide Legal, Exec;
  }

  /** Its end shuts down all that is owned, forgets it, wakes the waiters and drops the
      events. */
  lemma StopEndsEffect(cfg: Config, run: seq<Label>)
    requires Run(cfg, run) && Enabled(cfg, After(cfg, run), StopEnds)
    ensures var s := After(cfg, run);
            var held := set id | id in s.pool.leased :: s.pool.leased[id].executor;
            Apply(cfg, s, StopEnds) ==
            s.(pool := s.pool.(available := [], leased := map[], started := false, stopping := false,
                               shutdowns := s.pool.shutdowns + multiset(s.pool.available) + multiset(held)),
               loop := Called(s.loop).(events := false))
  {
    hide Legal, Exec;
  }

  // ------------------------------------------------------------------------------
  // The small steps
  // ------------------------------------------------------------------------------

  /** Setting an event wakes those who wait on it, and no others; it stays set if the manager
      still has it. */
  function EventSet(loop: Loop, e: nat): Loop {
    loop.(availabilitySet := loop.availabilitySet || (e == loop.epoch && loop.events),
          parked := map w | w in loop.parked && loop.parked[w] != e :: loop.parked[w],
          woken := loop.woken + map w | w in loop.parked && loop.parked[w] == e :: Some(e))
  }

  /** A waiter that leaves, timed out or cancelled, clears its event too. */
  function Leaves(loop: Loop, w: WaiterId): Loop {
    if w in loop.parked
    then loop.(availabilitySet := loop.availabilitySet && loop.parked[w] != loop.epoch, parked := loop.parked - {w})
    else RunsAgain(loop, w)
  }

  lemma SmallStepEffect(cfg: Config, run: seq<Label>, l: Label)
    requires Run(cfg, run) && Enabled(cfg, After(cfg, run), l)
    ensures var s := After(cfg, run);
            var t := Apply(cfg, s, l);
            match l
            case GiveUp(w) => t == s.(loop := Leaves(s.loop, w))
            case WorkFinishes(f, broken) =>
              var work := s.ledger.work[f].(done := true, broken := broken);
              t == s.(ledger := s.ledger.(work := s.ledger.work[f := work]))
            case ShutDown(e) =>
              t == s.(pool := s.pool.(shutdowns := s.pool.shutdowns + multiset{e}),
                      debts := s.debts.(shutdowns := s.debts.shutdowns - multiset{e}))
            case WakeWaiters => t == s.(loop := Called(s.loop), debts := s.debts.(wakes := s.debts.wakes - 1))
            case WakeChecker =>
              t == s.(loop := Signalled(s.loop, s.now), debts := s.debts.(checks := s.debts.checks - 1))
            case NotifyScaleChanged => t == s.(loop := Signalled(s.loop, s.now))
            case RunCallback(SetAvailability(e)) =>
              t == s.(loop := EventSet(s.loop, e).(ready := s.loop.ready - multiset{SetAvailability(e)}))
            case RunCallback(SetScale(e)) =>
              t == s.(loop := s.loop.(ready := s.loop.ready - multiset{SetScale(e)},
                                      scaleSet := s.loop.scaleSet || e == s.loop.epoch))
            case TimePasses(seconds) => t == s.(now := s.now + seconds)
            case _ => true
  {
    hide Legal, Exec, Acquire, Tick, Release, FutureDone, Submit, Start, StartFails, StopFinish;
  }
}
