/**
 The pool at work: acquirers waiting on the availability event, the checker task, the
 event loop's queue, threads that submit and run callbacks, and the clock.  One label is
 one atomic step; a run is a sequence of labels, each enabled where it is taken.
 */
module PoolSystem {
  import opened Options
  import opened Reals
  import opened Sizing
  import opened PoolModel

  type WaiterId = nat

  /** `event.set` calls handed to the loop; each start makes a new pair of events. */
  datatype Callback = SetAvailability(epoch: nat) | SetScale(epoch: nat)

  /** A submitted future: under which lease, on which executor, and how far it is. */
  datatype Work = Work(lease: LeaseId, executor: ExecId, done: bool, broken: bool, called: bool)

  /** The owning event loop's side of the manager. */
  datatype Loop = Loop(
    epoch: nat,                            // number of the latest pair of events
    events: bool,                          // the manager still refers to that pair
    availabilitySet: bool,
    scaleSet: bool,
    checker: Option<real>,                 // when the checker wakes by itself; None: no task
    due: real,                             // since when the loop has checker or stop work to do
    parked: map<WaiterId, nat>,            // waiting on the availability event of an epoch
    woken: map<WaiterId, Option<nat>>,     // about to run again, with an event to clear first
    ready: multiset<Callback>)             // scheduled, not yet run

  /** What actors that have left the lock have yet to do. */
  datatype Debts = Debts(shutdowns: multiset<ExecId>, wakes: nat, checks: nat)

  /** Every future submitted and every lease granted so far. */
  datatype Ledger = Ledger(work: map<FutureId, Work>, issued: map<LeaseId, ExecId>)

  datatype Sys = Sys(pool: Pool, now: real, loop: Loop, debts: Debts, ledger: Ledger)

  ghost function Init(): Sys {
    Sys(INITIAL, 0.0,
        Loop(0, false, false, false, None, 0.0, map[], map[], multiset{}),
        Debts(multiset{}, 0, 0),
        Ledger(map[], map[]))
  }

  /** Parameters are what the outside decides: identities, the executor's answers, and
      one reading of the size provider for each time the section asks for one. */
  datatype Label =
    | Begin(fill: Reading)
    | BeginFails(creations: nat, fill: Reading)
    | StopBegins
    | StopEnds
    | TryAcquire(waiter: WaiterId, id: LeaseId, seconds: real, wait: bool, reading: Reading)
    | GiveUp(waiter: WaiterId)
    | ReleaseLease(id: LeaseId, keep: Reading, fill: Reading)
    | SubmitWork(id: LeaseId, answer: Answer, atOnce: Option<bool>, fill: Reading, keep: Reading, refill: Reading)
    | WorkFinishes(f: FutureId, broken: bool)
    | RunDoneCallback(f: FutureId, keep: Reading, fill: Reading)
    | ShutDown(e: ExecId)
    | WakeWaiters
    | WakeChecker
    | RunCallback(callback: Callback)
    | CheckerTick(revoke: Reading, fill: Reading, shrink: Reading)
    | NotifyScaleChanged
    | TimePasses(seconds: real)

  predicate Enabled(cfg: Config, s: Sys, l: Label)
    requires cfg.Valid()
  {
    match l
    case Begin(_) => !s.pool.started
    case BeginFails(creations, fill) => !s.pool.started && creations < cfg.Desired(fill)
    case StopBegins => s.pool.started && !s.pool.stopping
    case StopEnds => s.pool.stopping
    case TryAcquire(w, id, seconds, _, _) => w !in s.loop.parked && id !in s.ledger.issued && seconds > 0.0
    case GiveUp(w) => w in s.loop.parked || w in s.loop.woken
    case ReleaseLease(_, _, _) => true
    case SubmitWork(_, answer, _, _, _, _) => answer.Accepts? ==> answer.future !in s.ledger.work
    case WorkFinishes(f, _) => f in s.ledger.work && !s.ledger.work[f].done
    case RunDoneCallback(f, _, _) => f in s.ledger.work && s.ledger.work[f].done && !s.ledger.work[f].called
    case ShutDown(e) => e in s.debts.shutdowns
    case WakeWaiters => s.debts.wakes > 0
    case WakeChecker => s.debts.checks > 0
    case RunCallback(c) => c in s.loop.ready
    case CheckerTick(_, _, _) => s.loop.checker.Some? && (s.loop.scaleSet || s.now >= s.loop.checker.value)
    case NotifyScaleChanged => true
    case TimePasses(seconds) => seconds > 0.0
  }

  // ------------------------------------------------------------------------------
  // The event loop
  // ------------------------------------------------------------------------------

  /** Schedule `set` on the availability event, if the manager has one. */
  function ScheduleAvailability(loop: Loop): Loop {
    if loop.events then loop.(ready := loop.ready + multiset{SetAvailability(loop.epoch)}) else loop
  }

  function ScheduleScale(loop: Loop, now: real): Loop {
    if loop.events
    then loop.(ready := loop.ready + multiset{SetScale(loop.epoch)}, due := RealMin(loop.due, now))
    else loop
  }

  /** A waiter that runs again first clears the event it waited on. */
  function ClearOnReturn(loop: Loop, event: Option<nat>): Loop {
    if event == Some(loop.epoch) then loop.(availabilitySet := false) else loop
  }

  function Resume(loop: Loop, w: WaiterId): Loop {
    if w in loop.woken then ClearOnReturn(loop, loop.woken[w]).(woken := loop.woken - {w}) else loop
  }

  /** Waiting on an event that is already set returns at once, clearing it. */
  function Park(loop: Loop, w: WaiterId): Loop {
    if loop.availabilitySet
    then loop.(availabilitySet := false, woken := loop.woken[w := None])
    else loop.(parked := loop.parked[w := loop.epoch])
  }

  function StopWaiting(loop: Loop, w: WaiterId): Loop {
    if w in loop.parked
    then ClearOnReturn(loop, Some(loop.parked[w])).(parked := loop.parked - {w})
    else Resume(loop, w)
  }

  function RunReady(loop: Loop, c: Callback): Loop {
    var rest := loop.(ready := loop.ready - multiset{c});
    match c
    case SetAvailability(e) => SetAvailable(rest, e)
    case SetScale(e) => if e == rest.epoch then rest.(scaleSet := true) else rest
  }

  /** `set` on the availability event of an epoch wakes all who wait on it. */
  function SetAvailable(loop: Loop, e: nat): Loop {
    loop.(availabilitySet := loop.availabilitySet || (e == loop.epoch && loop.events),
          parked := map w | w in loop.parked && loop.parked[w] != e :: loop.parked[w],
          woken := loop.woken + map w | w in loop.parked && loop.parked[w] == e :: Some(e))
  }

  /** The checker clears its event, does its round, wakes the waiters and sleeps again. */
  function CheckerRound(loop: Loop, now: real, wake: real): Loop {
    ScheduleAvailability(
      loop.(scaleSet := false, checker := Some(wake),
            due := if SetScale(loop.epoch) in loop.ready then RealMin(now, wake) else wake))
  }

  function FreshEvents(loop: Loop, now: real, started: bool): Loop {
    loop.(epoch := loop.epoch + 1, events := true, availabilitySet := false, scaleSet := false,
          checker := if started then Some(now) else None, due := now)
  }

  function CancelChecker(loop: Loop, now: real): Loop {
    loop.(checker := None, due := RealMin(loop.due, now))
  }

  function DropEvents(loop: Loop): Loop {
    ScheduleAvailability(loop).(events := false)
  }

  // ------------------------------------------------------------------------------
  // Steps
  // ------------------------------------------------------------------------------

  /** What a section leaves to be done after the lock: an executor to shut down, a wake for
      the waiters, a wake for the checker. */
  function Owe(d: Debts, o: Outcome): Debts {
    var n := if o.ended then 1 else 0;
    Debts(d.shutdowns + Owed(o.toShutdown), d.wakes + n, d.checks + n)
  }

  function AcquireStep(cfg: Config, s: Sys, w: WaiterId, id: LeaseId, seconds: real, wait: bool, reading: Reading): Sys
    requires cfg.Valid()
  {
    var loop := Resume(s.loop, w);
    var (q, a) := Acquire(cfg, s.pool, s.now, id, seconds, reading);
    match a
    case NotStarted => s.(loop := loop)
    case Leased =>
      s.(pool := q, loop := ScheduleScale(loop, s.now),
         ledger := s.ledger.(issued := s.ledger.issued[id := q.leased[id].executor]))
    case Unavailable => s.(pool := q, loop := if wait then Park(loop, w) else loop)
  }

  function MarkCalled(ledger: Ledger, f: FutureId): Ledger
    requires f in ledger.work
  {
    ledger.(work := ledger.work[f := ledger.work[f].(called := true)])
  }

  function CallbackStep(cfg: Config, s: Sys, f: FutureId, keep: Reading, fill: Reading): Sys
    requires cfg.Valid() && f in s.ledger.work
  {
    var o := FutureDone(cfg, s.pool, s.ledger.work[f].lease, f, s.ledger.work[f].broken, s.now, keep, fill);
    s.(pool := o.pool, debts := Owe(s.debts, o), ledger := MarkCalled(s.ledger, f))
  }

  /** A callback that runs at once runs inside the section. */
  function SubmitStep(cfg: Config, s: Sys, id: LeaseId, answer: Answer, atOnce: Option<bool>,
                      fill: Reading, keep: Reading, refill: Reading): Sys
    requires cfg.Valid()
  {
    var (o, reply) := Submit(cfg, s.pool, id, s.now, answer, fill);
    if reply.Submitted? then
      var t := s.(pool := o.pool, ledger := Accept(s.ledger, id, s.pool.leased[id].executor, reply.future, atOnce));
      if atOnce.Some? then CallbackStep(cfg, t, reply.future, keep, refill) else t
    else
      s.(pool := o.pool, debts := Owe(s.debts, o))
  }

  /** In one: the section with what may run inside it, and what it leaves to be done. */
  lemma SubmitIsOneSection(cfg: Config, s: Sys, id: LeaseId, answer: Answer, atOnce: Option<bool>,
                           fill: Reading, keep: Reading, refill: Reading)
    requires cfg.Valid()
    ensures var (o, _) := SubmitAtOnce(cfg, s.pool, id, s.now, answer, atOnce, fill, keep, refill);
            var t := SubmitStep(cfg, s, id, answer, atOnce, fill, keep, refill);
            t.pool == o.pool && t.debts == Owe(s.debts, o)
  {
    hide FutureDone, Retire;
    assert s.debts.shutdowns + multiset{} == s.debts.shutdowns;
  }

  function Accept(ledger: Ledger, id: LeaseId, e: ExecId, f: FutureId, atOnce: Option<bool>): Ledger {
    ledger.(work := ledger.work[f := Work(id, e, atOnce.Some?, atOnce == Some(true), false)])
  }

  function ReleaseStep(cfg: Config, s: Sys, id: LeaseId, keep: Reading, fill: Reading): Sys
    requires cfg.Valid()
  {
    var o := Release(cfg, s.pool, id, s.now, keep, fill);
    s.(pool := o.pool, debts := Owe(s.debts, o))
  }

  ghost function TickStep(cfg: Config, s: Sys, revoke: Reading, fill: Reading, shrink: Reading): Sys
    requires cfg.Valid()
  {
    var q := Tick(cfg, s.pool, s.now, revoke, fill, shrink);
    s.(pool := q, loop := CheckerRound(s.loop, s.now, s.now + WaitSeconds(cfg, q, s.now)))
  }

  function Finish(ledger: Ledger, f: FutureId, broken: bool): Ledger
    requires f in ledger.work
  {
    ledger.(work := ledger.work[f := ledger.work[f].(done := true, broken := broken)])
  }

  function PayShutdown(s: Sys, e: ExecId): Sys {
    s.(debts := s.debts.(shutdowns := s.debts.shutdowns - multiset{e}),
       pool := s.pool.(shutdowns := s.pool.shutdowns + multiset{e}))
  }

  ghost function Apply(cfg: Config, s: Sys, l: Label): Sys
    requires cfg.Valid() && Enabled(cfg, s, l)
  {
    match l
    case Begin(fill) => s.(pool := Start(cfg, s.pool, fill), loop := FreshEvents(s.loop, s.now, true))
    case BeginFails(creations, _) =>
      s.(pool := StartFails(s.pool, creations), loop := FreshEvents(s.loop, s.now, false))
    case StopBegins => s.(pool := StopBegin(s.pool), loop := CancelChecker(s.loop, s.now))
    case StopEnds => s.(pool := StopFinish(s.pool), loop := DropEvents(s.loop))
    case TryAcquire(w, id, seconds, wait, reading) => AcquireStep(cfg, s, w, id, seconds, wait, reading)
    case GiveUp(w) => s.(loop := StopWaiting(s.loop, w))
    case ReleaseLease(id, keep, fill) => ReleaseStep(cfg, s, id, keep, fill)
    case SubmitWork(id, answer, atOnce, fill, keep, refill) =>
      SubmitStep(cfg, s, id, answer, atOnce, fill, keep, refill)
    case WorkFinishes(f, broken) => s.(ledger := Finish(s.ledger, f, broken))
    case RunDoneCallback(f, keep, fill) => CallbackStep(cfg, s, f, keep, fill)
    case ShutDown(e) => PayShutdown(s, e)
    case WakeWaiters => s.(debts := s.debts.(wakes := s.debts.wakes - 1), loop := ScheduleAvailability(s.loop))
    case WakeChecker => s.(debts := s.debts.(checks := s.debts.checks - 1), loop := ScheduleScale(s.loop, s.now))
    case RunCallback(c) => s.(loop := RunReady(s.loop, c))
    case CheckerTick(revoke, fill, shrink) => TickStep(cfg, s, revoke, fill, shrink)
    case NotifyScaleChanged => s.(loop := ScheduleScale(s.loop, s.now))
    case TimePasses(seconds) => s.(now := s.now + seconds)
  }

  /** One step as a partial function, for the theory of runs. */
  ghost function Next(cfg: Config): (Sys, Label) -> Option<Sys>
    requires cfg.Valid()
  {
    (s: Sys, l: Label) => if Enabled(cfg, s, l) then Some(Apply(cfg, s, l)) else None
  }
}
