/**
 More of what holds in every run: each executor is retired once, ids die for good, the
 bounds hold, expiry is prompt, and the whole pool is one bounded counting semaphore.
 */
module PoolGuarantees {
  import opened Options
  import opened Reals
  import opened Sizing
  import opened Runs
  import opened PoolModel
  import opened PoolSafety
  import opened PoolLaws
  import opened PoolSystem
  import opened PoolInvariant
  import opened PoolWakes
  import opened PoolTheorems

  // ------------------------------------------------------------------------------
  // Conservation and retirement
  // ------------------------------------------------------------------------------

  /** One if it holds, else none. */
  function Indicator(b: bool): nat {
    if b then 1 else 0
  }

  /** Every executor ever created is idle, leased or retired, and just one of these; it has
      been shut down or is owed a shutdown just once if it is retired, and else never. */
  lemma EveryExecutorIsInOnePlace(cfg: Config, run: seq<Label>, e: ExecId)
    requires Run(cfg, run)
    ensures var s := After(cfg, run);
            && multiset(s.pool.available)[e] + Indicator(e in s.pool.Held()) + Indicator(s.pool.Retired(e)) ==
               Indicator(e in s.pool.created)
            && s.pool.shutdowns[e] + s.debts.shutdowns[e] == Indicator(s.pool.Retired(e))
            && (!s.pool.started ==> s.pool.available == [] && s.pool.Held() == {})
  {
    hide Apply, Enabled, Exec, Lifecycle, WakeInv, ExpiryInv, WorkInv;
    Reachable(cfg, run);
    CountInDistinct(After(cfg, run).pool.available, e);
  }

  /** Once retired, an executor is never idle or leased again, and when all actors have done
      what they owe it has been shut down exactly once. */
  lemma RetirementIsFinal(cfg: Config, earlier: seq<Label>, rest: seq<Label>, e: ExecId)
    requires Run(cfg, earlier + rest) && Run(cfg, earlier) && After(cfg, earlier).pool.Retired(e)
    ensures var t := After(cfg, earlier + rest);
            && e !in t.pool.available && e !in t.pool.Held()
            && t.pool.shutdowns[e] <= 1 && (e !in t.debts.shutdowns ==> t.pool.shutdowns[e] == 1)
  {
    hide Apply, Enabled, Exec, PoolInv, WakeInv, ExpiryInv, WorkInv;
    Moments(cfg, earlier, rest);
    assert After(cfg, earlier + rest).pool.Retired(e);
  }

  // ------------------------------------------------------------------------------
  // Leases that are over stay over
  // ------------------------------------------------------------------------------

  /** Issued once, and now gone, asked to end, or past its hard expiry. */
  ghost predicate Over(s: Sys, id: LeaseId) {
    && id in s.ledger.issued
    && (id in s.pool.leased ==> s.pool.leased[id].releaseRequested || s.pool.leased[id].Expired(s.now))
  }

  /** From then on, through restarts too, nothing can be submitted under the id. */
  lemma RejectionIsPermanent(cfg: Config, earlier: seq<Label>, rest: seq<Label>, id: LeaseId, answer: Answer,
                             r: Reading)
    requires Run(cfg, earlier + rest) && Run(cfg, earlier) && Over(After(cfg, earlier), id)
    ensures var t := After(cfg, earlier + rest);
            var reply := Submit(cfg, t.pool, id, t.now, answer, r).1;
            && Over(t, id)
            && (reply == NotActive || reply == AlreadyReleased || reply == PoolModel.LeaseExpired)
  {
    hide Apply, Enabled, Exec, PoolInv, Balanced, WakeInv, ExpiryInv;
    Moments(cfg, earlier, rest);
  }

  /** An id that has left the table does nothing any more: neither a release nor a late
      callback changes the pool, whoever holds its executor by then. */
  lemma StaleIdsAreHarmless(cfg: Config, earlier: seq<Label>, rest: seq<Label>, id: LeaseId,
                            f: FutureId, keep: Reading, fill: Reading)
    requires Run(cfg, earlier + rest) && Run(cfg, earlier)
    requires id in After(cfg, earlier).ledger.issued && id !in After(cfg, earlier).pool.leased
    requires f in After(cfg, earlier + rest).ledger.work && After(cfg, earlier + rest).ledger.work[f].lease == id
    ensures var t := After(cfg, earlier + rest);
            && id !in t.pool.leased
            && Apply(cfg, t, ReleaseLease(id, keep, fill)) == t
            && CallbackStep(cfg, t, f, keep, fill) == t.(ledger := MarkCalled(t.ledger, f))
  {
    hide Enabled, Exec, PoolInv, Balanced, WakeInv, ExpiryInv, Finalize, Retire;
    Moments(cfg, earlier, rest);
    var t := After(cfg, earlier + rest);
    assert t.debts.shutdowns + multiset{} == t.debts.shutdowns;
  }

  /** A held lease is never marked broken, and one that was asked to end is still draining
      work that is not accounted for, so some callback is still to come that will end it. */
  lemma HeldLeasesAreSound(cfg: Config, run: seq<Label>, id: LeaseId) returns (f: FutureId)
    requires Run(cfg, run) && id in After(cfg, run).pool.leased
    ensures var s := After(cfg, run);
            && !s.pool.leased[id].broken
            && (s.pool.leased[id].releaseRequested ==>
                  && f in s.pool.leased[id].pending && f in s.ledger.work
                  && s.ledger.work[f].lease == id && !s.ledger.work[f].called)
  {
    hide Apply, Enabled, Exec, Balanced, Exclusive, WakeInv, ExpiryInv;
    Reachable(cfg, run);
    f := 0;
    if After(cfg, run).pool.leased[id].releaseRequested {
      f :| f in After(cfg, run).pool.leased[id].pending;
    }
  }

  /** The last callback of a draining lease ends it, and so does any callback that reports a
      broken executor. */
  lemma LastCallbackEndsLease(cfg: Config, run: seq<Label>, f: FutureId, keep: Reading, fill: Reading)
    requires Run(cfg, run) && Enabled(cfg, After(cfg, run), RunDoneCallback(f, keep, fill))
    ensures var s := After(cfg, run);
            var k := s.ledger.work[f];
            var t := Apply(cfg, s, RunDoneCallback(f, keep, fill));
            k.lease in s.pool.leased ==>
              (k.lease !in t.pool.leased <==>
                 k.broken || (s.pool.leased[k.lease].releaseRequested && s.pool.leased[k.lease].pending == {f}))
  {
    hide Exec, Balanced, Exclusive, WakeInv, ExpiryInv;
    var s := After(cfg, run);
    var k := s.ledger.work[f];
    Reachable(cfg, run);
    DoneKeys(cfg, s.pool, k.lease, f, k.broken, s.now, keep, fill, s.debts.shutdowns);
  }

  // ------------------------------------------------------------------------------
  // Bounds
  // ------------------------------------------------------------------------------

  /** All readings of the size provider in a step ask for d executors. */
  ghost predicate Reads(cfg: Config, l: Label, d: nat)
    requires cfg.Valid()
  {
    match l
    case Begin(fill) => cfg.Desired(fill) == d
    case TryAcquire(_, _, _, _, reading) => cfg.Desired(reading) == d
    case ReleaseLease(_, keep, fill) => cfg.Desired(keep) == d && cfg.Desired(fill) == d
    case SubmitWork(_, _, _, fill, keep, refill) =>
      cfg.Desired(fill) == d && cfg.Desired(keep) == d && cfg.Desired(refill) == d
    case RunDoneCallback(_, keep, fill) => cfg.Desired(keep) == d && cfg.Desired(fill) == d
    case CheckerTick(revoke, fill, shrink) =>
      cfg.Desired(revoke) == d && cfg.Desired(fill) == d && cfg.Desired(shrink) == d
    case _ => true
  }

  ghost predicate Stocked(s: Sys, d: nat) {
    s.pool.started ==> d <= s.pool.Total()
  }

  lemma AcquireStocked(cfg: Config, p: Pool, now: real, id: LeaseId, seconds: real, reading: Reading,
                       owed: multiset<ExecId>)
    requires cfg.Valid() && Solvent(cfg, p, owed) && id !in p.leased && p.started && cfg.Desired(reading) <= p.Total()
    ensures cfg.Desired(reading) <= Acquire(cfg, p, now, id, seconds, reading).0.Total()
  {
    hide Balanced, Lifecycle, Exclusive, Revoke, TakeOrCreate;
    if !p.stopping {
      RevokeSize(cfg, p, now, reading, owed);
      RevokeSafe(cfg, p, now, reading, owed);
      TakeTotal(cfg, Revoke(cfg, p, now, reading));
      var (q, o) := TakeOrCreate(cfg, Revoke(cfg, p, now, reading));
      if o.Some? {
        AddsOne(q.leased, id, Rec(o.value, now, seconds, cfg.graceSeconds, {}, false, false));
      }
    }
  }

  lemma TakeTotal(cfg: Config, p: Pool)
    ensures var (q, o) := TakeOrCreate(cfg, p);
            q.leased == p.leased && q.Total() + (if o.Some? then 1 else 0) >= p.Total()
  {
  }

  lemma AddsOne(m: map<LeaseId, Rec>, id: LeaseId, rec: Rec)
    requires id !in m
    ensures |m[id := rec]| == |m| + 1
  {
    assert m[id := rec] - {id} == m;
    SizeOfDifference(m[id := rec], {id});
  }

  lemma SectionStocked(cfg: Config, s: Sys, l: Label, d: nat)
    requires cfg.Valid() && Inv(cfg, s) && Enabled(cfg, s, l) && Reads(cfg, l, d) && Stocked(s, d)
    requires l.ReleaseLease? || l.RunDoneCallback?
    ensures Stocked(Apply(cfg, s, l), d)
  {
    hide WakeInv, ExpiryInv, WorkInv;
    if l.ReleaseLease? {
      ReleaseStocked(cfg, s.pool, l.id, s.now, l.keep, l.fill, s.debts.shutdowns);
    } else {
      var k := s.ledger.work[l.f];
      DoneStocked(cfg, s.pool, k.lease, l.f, k.broken, s.now, l.keep, l.fill, s.debts.shutdowns);
    }
  }

  /** A section that may end a lease leaves at least what its last reading asks for, if
      that much was there before. */
  lemma ReleaseStocked(cfg: Config, p: Pool, id: LeaseId, now: real, keep: Reading, fill: Reading,
                       owed: multiset<ExecId>)
    requires cfg.Valid() && Solvent(cfg, p, owed)
    ensures var q := Release(cfg, p, id, now, keep, fill).pool;
            q.started == p.started && (q.Total() >= p.Total() || q.Total() >= cfg.Desired(fill))
  {
    if id in p.leased {
      var rec := p.leased[id].(releaseRequested := true);
      UpdateSafe(cfg, p, id, rec, owed);
      if p.leased[id].pending == {} {
        FinalizeSafe(cfg, p.(leased := p.leased[id := rec]), id, now, keep, fill, owed);
      }
    }
  }

  lemma DoneStocked(cfg: Config, p: Pool, id: LeaseId, f: FutureId, broken: bool, now: real,
                    keep: Reading, fill: Reading, owed: multiset<ExecId>)
    requires cfg.Valid() && Solvent(cfg, p, owed)
    ensures var q := FutureDone(cfg, p, id, f, broken, now, keep, fill).pool;
            q.started == p.started && (q.Total() >= p.Total() || q.Total() >= cfg.Desired(fill))
  {
    if id in p.leased {
      var rec := p.leased[id].(pending := p.leased[id].pending - {f});
      var q := p.(leased := p.leased[id := rec]);
      UpdateSafe(cfg, p, id, rec, owed);
      if broken {
        RetireSafe(cfg, q, id, fill, owed);
      } else if rec.releaseRequested && rec.pending == {} {
        FinalizeSafe(cfg, q, id, now, keep, fill, owed);
      }
    }
  }

  lemma SubmitSectionStocked(cfg: Config, p: Pool, id: LeaseId, now: real, answer: Answer, fill: Reading,
                             owed: multiset<ExecId>)
    requires cfg.Valid() && Solvent(cfg, p, owed)
    ensures var q := Submit(cfg, p, id, now, answer, fill).0.pool;
            q.started == p.started && (q.Total() >= p.Total() || q.Total() >= cfg.Desired(fill))
  {
    hide Balanced, Lifecycle, EnsureMinimum;
    var (o, reply) := Submit(cfg, p, id, now, answer, fill);
    if o.ended {
      RetireSafe(cfg, p, id, fill, owed);
    } else if reply.Submitted? {
      UpdateSafe(cfg, p, id, p.leased[id].(pending := p.leased[id].pending + {answer.future}), owed);
    }
  }

  lemma SubmitStocked(cfg: Config, s: Sys, l: Label, d: nat)
    requires cfg.Valid() && Inv(cfg, s) && Enabled(cfg, s, l) && Reads(cfg, l, d) && Stocked(s, d) && l.SubmitWork?
    ensures Stocked(Apply(cfg, s, l), d)
  {
    hide WakeInv, ExpiryInv, WorkInv, PoolInv, Balanced, FutureDone;
    var (o, reply) := Submit(cfg, s.pool, l.id, s.now, l.answer, l.fill);
    SubmitSectionStocked(cfg, s.pool, l.id, s.now, l.answer, l.fill, s.debts.shutdowns);
    if reply.Submitted? && l.atOnce.Some? {
      SubmitSafe(cfg, s.pool, l.id, s.now, l.answer, l.fill, s.debts.shutdowns);
      DoneStocked(cfg, o.pool, l.id, reply.future, l.atOnce == Some(true), s.now, l.keep, l.refill,
                  s.debts.shutdowns + Owed(o.toShutdown));
    }
  }

  lemma StockedStep(cfg: Config, s: Sys, l: Label, d: nat)
    requires cfg.Valid() && Inv(cfg, s) && Enabled(cfg, s, l) && Reads(cfg, l, d) && Stocked(s, d)
    ensures Stocked(Apply(cfg, s, l), d)
  {
    hide WakeInv, ExpiryInv, PendingKnown, WorkKnown, Balanced, Exclusive, Lifecycle, Release, FutureDone, Submit,
         Tick, Start, StartFails, Acquire;
    if LoopOnly(l) {
      LoopOnlyFrame(cfg, s, l);
    } else if l.ReleaseLease? || l.RunDoneCallback? {
      SectionStocked(cfg, s, l, d);
    } else if l.SubmitWork? {
      SubmitStocked(cfg, s, l, d);
    } else if l.TryAcquire? {
      TryAcquireStocked(cfg, s, l, d);
    } else if l.CheckerTick? {
      TickStocked(cfg, s.pool, s.now, l.revoke, l.fill, l.shrink, s.debts.shutdowns);
    } else if l.Begin? {
      StartSafe(cfg, s.pool, l.fill, s.debts.shutdowns);
    } else if l.BeginFails? {
      StartFailsSafe(cfg, s.pool, l.creations, s.debts.shutdowns);
    }
  }

  lemma TryAcquireStocked(cfg: Config, s: Sys, l: Label, d: nat)
    requires cfg.Valid() && Solvent(cfg, s.pool, s.debts.shutdowns) && LeasesKnown(s.pool, s.ledger)
    requires Enabled(cfg, s, l) && Reads(cfg, l, d) && Stocked(s, d) && l.TryAcquire?
    ensures Stocked(Apply(cfg, s, l), d)
  {
    hide Balanced, Exclusive, Lifecycle, Acquire;
    AcquireSafe(cfg, s.pool, s.now, l.id, l.seconds, l.reading, s.debts.shutdowns);
    if s.pool.started {
      AcquireStocked(cfg, s.pool, s.now, l.id, l.seconds, l.reading, s.debts.shutdowns);
    }
    var (q, a) := Acquire(cfg, s.pool, s.now, l.id, l.seconds, l.reading);
    assert Apply(cfg, s, l).pool in {s.pool, q};
  }

  lemma TickStocked(cfg: Config, p: Pool, now: real, revoke: Reading, fill: Reading, shrink: Reading,
                    owed: multiset<ExecId>)
    requires cfg.Valid() && Solvent(cfg, p, owed) && p.started && cfg.Desired(fill) == cfg.Desired(shrink)
    ensures cfg.Desired(shrink) <= Tick(cfg, p, now, revoke, fill, shrink).Total()
  {
    hide Balanced, Exclusive, Lifecycle;
    RevokeSafe(cfg, p, now, revoke, owed);
    var r := Revoke(cfg, p, now, revoke);
    EnsureMinimumSafe(cfg, r, cfg.Desired(fill), owed);
    ShrinkIdleSafe(cfg, EnsureMinimum(r, cfg.Desired(fill)), cfg.Desired(shrink), owed);
  }

  lemma {:induction false} StockedRun(cfg: Config, s: Sys, run: seq<Label>, d: nat)
    requires cfg.Valid() && Inv(cfg, s) && Stocked(s, d) && Legal(Next(cfg), s, run)
    requires forall i :: 0 <= i < |run| ==> Reads(cfg, run[i], d)
    ensures Stocked(Exec(Next(cfg), s, run), d)
    decreases |run|
  {
    hide Apply, Inv, Enabled, Reads, Legal, Exec;
    Unfold(Next(cfg), s, run);
    if run == [] {
    } else {
      InvStep(cfg, s, run[0]);
      StockedStep(cfg, s, run[0], d);
      StockedRun(cfg, Next(cfg)(s, run[0]).value, run[1..], d);
    }
  }

  /** There are never more executors than `maxPools`, whatever is read from the size provider
      within a step, and none at all in a stopped manager. */
  lemma TotalIsBounded(cfg: Config, run: seq<Label>)
    requires Run(cfg, run)
    ensures var p := After(cfg, run).pool;
            p.Total() <= cfg.maxPools && (!p.started ==> p.Total() == 0 && forall e :: e in p.created ==> p.Retired(e))
  {
    hide Apply, Enabled, Exec, Lifecycle, Balanced, WakeInv, ExpiryInv, WorkInv;
    Reachable(cfg, run);
  }

  /** Until it is started again, nothing that comes late changes a stopped manager: no
      release, submission, callback or attempt, and no wake. */
  lemma StoppedPoolIsInert(cfg: Config, run: seq<Label>, l: Label)
    requires Run(cfg, run) && !After(cfg, run).pool.started && Enabled(cfg, After(cfg, run), l)
    requires !l.Begin? && !l.BeginFails?
    ensures var s, t := After(cfg, run), Apply(cfg, After(cfg, run), l);
            && t.pool == (if l.ShutDown? then s.pool.(shutdowns := t.pool.shutdowns) else s.pool)
            && (!l.ShutDown? && !l.WakeWaiters? && !l.WakeChecker? ==> t.debts == s.debts)
  {
    hide Exec, Lifecycle, Exclusive, Balanced, WakeInv, ExpiryInv, WorkInv, Retire, Finalize;
    Reachable(cfg, run);
    var s := After(cfg, run);
    assert s.debts.shutdowns + multiset{} == s.debts.shutdowns;
  }

  /** With a steady signal a started manager owns at least what the signal asks for. */
  lemma SteadySignalIsMet(cfg: Config, run: seq<Label>, d: nat)
    requires Run(cfg, run) && forall i :: 0 <= i < |run| ==> Reads(cfg, run[i], d)
    ensures After(cfg, run).pool.started ==> d <= After(cfg, run).pool.Total()
  {
    hide Apply, Inv, Enabled, Reads, Exec;
    InitInv(cfg);
    StockedRun(cfg, Init(), run, d);
  }

  // ------------------------------------------------------------------------------
  // Prompt expiry
  // ------------------------------------------------------------------------------

  /** The loop is never more than d late with checker or stop work. */
  ghost predicate OnTime(s: Sys, d: real) {
    s.pool.started ==> s.now <= s.loop.due + d
  }

  /** The clock does not run ahead of a loop that takes at most d to get to due work. */
  ghost predicate Paced(cfg: Config, s: Sys, run: seq<Label>, d: real)
    requires cfg.Valid() && Legal(Next(cfg), s, run)
    decreases |run|
  {
    Unfold(Next(cfg), s, run);
    run == [] ||
    (var t := Next(cfg)(s, run[0]).value; (run[0].TimePasses? ==> OnTime(t, d)) && Paced(cfg, t, run[1..], d))
  }

  lemma OnTimeStep(cfg: Config, s: Sys, l: Label, d: real)
    requires cfg.Valid() && Inv(cfg, s) && Enabled(cfg, s, l) && d >= 0.0 && OnTime(s, d) && !l.TimePasses?
    ensures OnTime(Apply(cfg, s, l), d)
  {
    hide WakeInv, PendingKnown, WorkKnown, Balanced, Exclusive, Lifecycle, Release, FutureDone, Submit, Tick, Start,
         StartFails, Acquire, AcquireStep;
    if LoopOnly(l) {
      LoopOnlyFrame(cfg, s, l);
    } else if l.ReleaseLease? || l.SubmitWork? || l.RunDoneCallback? {
      SectionTerms(cfg, s, l);
    } else if l.TryAcquire? {
      AcquireSafe(cfg, s.pool, s.now, l.id, l.seconds, l.reading, s.debts.shutdowns);
      AcquireDelay(cfg, s, l);
    } else if l.CheckerTick? {
      var q := Tick(cfg, s.pool, s.now, l.revoke, l.fill, l.shrink);
      assert WaitSeconds(cfg, q, s.now) >= 0.0;
    } else if l.BeginFails? {
      StartFailsSafe(cfg, s.pool, l.creations, s.debts.shutdowns);
    }
  }

  lemma AcquireLoop(loop: Loop, w: WaiterId, now: real)
    ensures var r := Resume(loop, w);
            r.due == loop.due && Park(r, w).due == loop.due && ScheduleScale(r, now).due >= RealMin(loop.due, now)
  {
  }

  /** What the acquire step does around the section. */
  lemma AcquireDelay(cfg: Config, s: Sys, l: Label)
    requires cfg.Valid() && l.TryAcquire? && Enabled(cfg, s, l)
    ensures var (q, a) := Acquire(cfg, s.pool, s.now, l.id, l.seconds, l.reading);
            var t := Apply(cfg, s, l);
            t.now == s.now && t.loop.due >= RealMin(s.loop.due, s.now)
              && t.pool == (if a == NotStarted then s.pool else q)
  {
    hide Acquire, Resume, Park, ScheduleScale;
    AcquireLoop(s.loop, l.waiter, s.now);
  }

  lemma {:induction false} OnTimeRun(cfg: Config, s: Sys, run: seq<Label>, d: real)
    requires cfg.Valid() && Inv(cfg, s) && d >= 0.0 && OnTime(s, d) && Legal(Next(cfg), s, run) && Paced(cfg, s, run, d)
    ensures OnTime(Exec(Next(cfg), s, run), d)
    decreases |run|
  {
    hide Apply, Inv, Enabled, OnTime, Legal, Exec;
    Unfold(Next(cfg), s, run);
    if run == [] {
    } else {
      InvStep(cfg, s, run[0]);
      if !run[0].TimePasses? {
        OnTimeStep(cfg, s, run[0], d);
      }
      OnTimeRun(cfg, Next(cfg)(s, run[0]).value, run[1..], d);
    }
  }

  /** No record outlives its hard expiry by more than the loop's delay, however long the
      check interval; and the checker's appointment, unless it has been signalled or a stop
      is under way, is not after any hard expiry. */
  lemma ExpiryIsPrompt(cfg: Config, run: seq<Label>, d: real, id: LeaseId)
    requires Run(cfg, run) && id in After(cfg, run).pool.leased
    ensures var s := After(cfg, run);
            s.pool.stopping || CheckerSignalled(s.loop) ||
            (s.loop.checker.Some? && s.loop.checker.value <= s.pool.leased[id].HardExpiresAt())
    ensures d >= 0.0 && Paced(cfg, Init(), run, d) ==>
            After(cfg, run).now <= After(cfg, run).pool.leased[id].HardExpiresAt() + d
  {
    hide Apply, Enabled, Exec, Lifecycle, Balanced, Exclusive, WakeInv, WorkInv;
    Reachable(cfg, run);
    if d >= 0.0 && Paced(cfg, Init(), run, d) {
      InitInv(cfg);
      OnTimeRun(cfg, Init(), run, d);
    }
  }

  // ------------------------------------------------------------------------------
  // The semaphore
  // ------------------------------------------------------------------------------

  /** What a bounded counting semaphore with leases would do: take one unit if one is left
      after the expired ones are dropped. */
  function TakeUnit(capacity: nat, held: set<LeaseId>, expired: set<LeaseId>, id: LeaseId): set<LeaseId> {
    if |held - expired| < capacity then (held - expired) + {id} else held
  }

  /** The one way each kind of step ends a held lease. */
  ghost predicate Ends(s: Sys, l: Label, id: LeaseId)
    requires id in s.pool.leased
  {
    var rec := s.pool.leased[id];
    match l
    case TryAcquire(_, _, _, _, _) => rec.Expired(s.now) && !s.pool.stopping
    case CheckerTick(_, _, _) => rec.Expired(s.now)
    case StopEnds => true
    case ReleaseLease(released, _, _) => released == id && rec.pending == {}
    case SubmitWork(under, answer, atOnce, _, _, _) => under == id && EndsBySubmit(rec, s.now, answer, atOnce)
    case RunDoneCallback(f, _, _) =>
      f in s.ledger.work && s.ledger.work[f].lease == id
      && EndsByCallback(rec, f, s.ledger.work[f].broken)
    case _ => false
  }

  /** Expired, refused by a broken executor, or accepted by one that is broken at once. */
  predicate EndsBySubmit(rec: Rec, now: real, answer: Answer, atOnce: Option<bool>) {
    !rec.releaseRequested
    && (rec.Expired(now) || answer.Breaks? || (answer.Accepts? && atOnce == Some(true)))
  }

  predicate EndsByCallback(rec: Rec, f: FutureId, broken: bool) {
    broken || (rec.releaseRequested && rec.pending <= {f})
  }

  /** Seen through the ids that are held, the pool is that semaphore: an acquire takes a unit
      under exactly its condition, and each step gives back exactly the units that it ends. */
  lemma PoolRefinesSemaphore(cfg: Config, run: seq<Label>, l: Label)
    requires Run(cfg, run) && Enabled(cfg, After(cfg, run), l)
    ensures var s := After(cfg, run);
            var held, held' := s.pool.leased.Keys, Apply(cfg, s, l).pool.leased.Keys;
            && |held'| <= cfg.maxPools
            && (l.TryAcquire? && s.pool.started && !s.pool.stopping ==>
                  held' == TakeUnit(cfg.maxPools, held, ExpiredIds(s.pool.leased, s.now), l.id))
            && (!(l.TryAcquire? && s.pool.started && !s.pool.stopping) ==> held' <= held)
            && forall id :: id in held ==> (id !in held' <==> Ends(s, l, id))
  {
    hide Exec, WakeInv, PendingKnown, WorkKnown, Balanced, Exclusive, Lifecycle, Apply, Acquire, Ends, TakeUnit;
    var s := After(cfg, run);
    Reachable(cfg, run);
    InvStep(cfg, s, l);
    HeldIsBounded(cfg, s.pool);
    HeldIsBounded(cfg, Apply(cfg, s, l).pool);
    if l.TryAcquire? {
      AcquireDelay(cfg, s, l);
      AcquireTakesUnit(cfg, s.pool, s.now, l.id, l.seconds, l.reading, s.debts.shutdowns);
      AcquireEndsExpired(cfg, s, l);
    } else {
      OthersGiveBack(cfg, s, l);
    }
  }

  lemma AcquireEndsExpired(cfg: Config, s: Sys, l: Label)
    requires cfg.Valid() && l.TryAcquire? && l.id !in s.pool.leased && |s.pool.leased.Keys| <= cfg.maxPools
    requires s.pool.stopping ==> s.pool.started
    requires !s.pool.started ==> s.pool.leased == map[]
    ensures var held := s.pool.leased.Keys;
            var held' := if s.pool.started && !s.pool.stopping
                         then TakeUnit(cfg.maxPools, held, ExpiredIds(s.pool.leased, s.now), l.id) else held;
            forall id :: id in held ==> (id !in held' <==> Ends(s, l, id))
  {
    var held, gone := s.pool.leased.Keys, ExpiredIds(s.pool.leased, s.now);
    if gone != {} {
      SizeOfDifference(s.pool.leased, gone);
      assert (s.pool.leased - gone).Keys == held - gone;
    } else {
      assert held - gone == held;
    }
  }

  lemma HeldIsBounded(cfg: Config, p: Pool)
    requires PoolInv(cfg, p)
    ensures |p.leased.Keys| <= cfg.maxPools
  {
    assert |p.leased.Keys| == |p.leased|;
  }

  lemma AcquireTakesUnit(cfg: Config, p: Pool, now: real, id: LeaseId, seconds: real, reading: Reading,
                         owed: multiset<ExecId>)
    requires cfg.Valid() && Solvent(cfg, p, owed) && id !in p.leased
    ensures var (q, a) := Acquire(cfg, p, now, id, seconds, reading);
            if p.started && !p.stopping
            then a != NotStarted
              && q.leased.Keys == TakeUnit(cfg.maxPools, p.leased.Keys, ExpiredIds(p.leased, now), id)
            else a == NotStarted
  {
    hide Balanced, Exclusive, Lifecycle, Acquire, Standing, ExpiredIds;
    if p.started && !p.stopping {
      var (q, a) := Acquire(cfg, p, now, id, seconds, reading);
      AcquireIsSemaphore(cfg, p, now, id, seconds, reading, owed);
      StandingKeys(p, now);
      if a == Leased {
        KeysWithout(q.leased, id);
      }
    } else {
      NotStartedFails(cfg, p, now, id, seconds, reading);
    }
  }

  lemma KeysWithout(m: map<LeaseId, Rec>, id: LeaseId)
    requires id in m
    ensures m.Keys == (m - {id}).Keys + {id}
  {
  }

  lemma StandingKeys(p: Pool, now: real)
    ensures Standing(p, now).Keys == p.leased.Keys - ExpiredIds(p.leased, now)
    ensures |Standing(p, now)| == |p.leased.Keys - ExpiredIds(p.leased, now)|
  {
    assert |Standing(p, now).Keys| == |Standing(p, now)|;
  }

  lemma OthersGiveBack(cfg: Config, s: Sys, l: Label)
    requires cfg.Valid() && Inv(cfg, s) && Enabled(cfg, s, l) && !l.TryAcquire?
    ensures var held, held' := s.pool.leased.Keys, Apply(cfg, s, l).pool.leased.Keys;
            && held' <= held
            && forall id :: id in held ==> (id !in held' <==> Ends(s, l, id))
  {
    hide WakeInv, PendingKnown, WorkKnown, Balanced, Lifecycle, Exclusive, Release, FutureDone, Submit, Tick, Start,
         StartFails, Acquire,
         EndsBySubmit, EndsByCallback;
    if LoopOnly(l) {
      LoopOnlyFrame(cfg, s, l);
    } else if l.ReleaseLease? {
      ReleaseKeys(cfg, s.pool, l.id, s.now, l.keep, l.fill, s.debts.shutdowns);
    } else if l.SubmitWork? {
      SubmitKeys(cfg, s, l);
    } else if l.RunDoneCallback? {
      var k := s.ledger.work[l.f];
      DoneKeys(cfg, s.pool, k.lease, l.f, k.broken, s.now, l.keep, l.fill, s.debts.shutdowns);
    } else if l.CheckerTick? {
      TickSafe(cfg, s.pool, s.now, l.revoke, l.fill, l.shrink, s.debts.shutdowns);
    } else if l.Begin? {
      StartSafe(cfg, s.pool, l.fill, s.debts.shutdowns);
    } else if l.BeginFails? {
      StartFailsSafe(cfg, s.pool, l.creations, s.debts.shutdowns);
    }
  }

  lemma ReleaseKeys(cfg: Config, p: Pool, id: LeaseId, now: real, keep: Reading, fill: Reading, owed: multiset<ExecId>)
    requires cfg.Valid() && Solvent(cfg, p, owed)
    ensures Release(cfg, p, id, now, keep, fill).pool.leased.Keys ==
            p.leased.Keys - if id in p.leased && p.leased[id].pending == {} then {id} else {}
  {
    if id in p.leased {
      var rec := p.leased[id].(releaseRequested := true);
      UpdateSafe(cfg, p, id, rec, owed);
      FinalizeSafe(cfg, p.(leased := p.leased[id := rec]), id, now, keep, fill, owed);
    }
  }

  lemma DoneKeys(cfg: Config, p: Pool, id: LeaseId, f: FutureId, broken: bool, now: real,
                 keep: Reading, fill: Reading, owed: multiset<ExecId>)
    requires cfg.Valid() && Solvent(cfg, p, owed)
    ensures FutureDone(cfg, p, id, f, broken, now, keep, fill).pool.leased.Keys ==
            p.leased.Keys - if id in p.leased && EndsByCallback(p.leased[id], f, broken) then {id} else {}
  {
    hide Balanced, Exclusive, Lifecycle, EnsureMinimum, Retire, Finalize;
    if id in p.leased {
      var rec := p.leased[id].(pending := p.leased[id].pending - {f});
      var q := p.(leased := p.leased[id := rec]);
      UpdateSafe(cfg, p, id, rec, owed);
      assert rec.pending == {} <==> p.leased[id].pending <= {f};
      assert q.leased.Keys == p.leased.Keys;
      EndKeys(cfg, q, id, now, keep, fill, owed);
    }
  }

  lemma EndKeys(cfg: Config, p: Pool, id: LeaseId, now: real, keep: Reading, fill: Reading, owed: multiset<ExecId>)
    requires cfg.Valid() && Exclusive(cfg, p) && Balanced(p, owed) && id in p.leased
    ensures Retire(cfg, p, id, fill).pool.leased.Keys == p.leased.Keys - {id}
    ensures Finalize(cfg, p, id, now, keep, fill).pool.leased.Keys == p.leased.Keys - {id}
  {
    hide Balanced, Exclusive, EnsureMinimum, Retire, Finalize;
    RetireSafe(cfg, p, id, fill, owed);
    FinalizeSafe(cfg, p, id, now, keep, fill, owed);
  }

  lemma SubmitKeys(cfg: Config, s: Sys, l: Label)
    requires cfg.Valid() && Solvent(cfg, s.pool, s.debts.shutdowns) && Enabled(cfg, s, l) && l.SubmitWork?
    ensures Apply(cfg, s, l).pool.leased.Keys ==
            s.pool.leased.Keys -
              if l.id in s.pool.leased
                && EndsBySubmit(s.pool.leased[l.id], s.now, l.answer, l.atOnce) then {l.id} else {}
  {
    hide Balanced, PoolInv, FutureDone, Retire;
    var (o, reply) := Submit(cfg, s.pool, l.id, s.now, l.answer, l.fill);
    SubmitSafe(cfg, s.pool, l.id, s.now, l.answer, l.fill, s.debts.shutdowns);
    SubmitSectionKeys(cfg, s.pool, l.id, s.now, l.answer, l.fill, s.debts.shutdowns);
    if reply.Submitted? && l.atOnce.Some? {
      DoneKeys(cfg, o.pool, l.id, reply.future, l.atOnce == Some(true), s.now, l.keep, l.refill,
               s.debts.shutdowns + Owed(o.toShutdown));
    }
  }

  lemma SubmitSectionKeys(cfg: Config, p: Pool, id: LeaseId, now: real, answer: Answer, fill: Reading,
                          owed: multiset<ExecId>)
    requires cfg.Valid() && Solvent(cfg, p, owed)
    ensures Submit(cfg, p, id, now, answer, fill).0.pool.leased.Keys ==
            p.leased.Keys - if id in p.leased && EndsBySubmit(p.leased[id], now, answer, None) then {id} else {}
  {
    hide Balanced, Exclusive, Lifecycle, EnsureMinimum;
    if Submit(cfg, p, id, now, answer, fill).0.ended {
      RetireSafe(cfg, p, id, fill, owed);
    }
  }
}
