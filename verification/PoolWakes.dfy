/**
 The parts of the invariant about wakes and appointments are kept by every step.
 */
module PoolWakes {
  import opened Options
  import opened Reals
  import opened Sizing
  import opened PoolModel
  import opened PoolSafety
  import opened PoolEvolution
  import opened PoolSystem
  import opened PoolInvariant

  // ------------------------------------------------------------------------------
  // Part 3 is kept
  // ------------------------------------------------------------------------------

  /** No one new waits, no scheduled wake is lost. */
  ghost predicate LoopGoesOn(loop: Loop, next: Loop) {
    && next.epoch == loop.epoch
    && (forall w :: w in next.parked ==> w in loop.parked && next.parked[w] == loop.parked[w])
    && (forall e :: SetAvailability(e) in loop.ready ==> SetAvailability(e) in next.ready)
  }

  lemma WakeAfter(cfg: Config, p: Pool, loop: Loop, wakes: nat, q: Pool, next: Loop, wakes': nat)
    requires WakeInv(cfg, p, loop, wakes) && LoopGoesOn(loop, next) && q.started == p.started
    requires q.started ==>
               || WakeInFlight(q.stopping, next, wakes')
               || (|q.leased| == |p.leased|
                  && (WakeInFlight(p.stopping, loop, wakes) ==> WakeInFlight(q.stopping, next, wakes')))
    ensures WakeInv(cfg, q, next, wakes')
  {
  }

  lemma ResumeGoesOn(loop: Loop, w: WaiterId, now: real)
    ensures var r := Resume(loop, w);
            && LoopGoesOn(loop, r) && LoopGoesOn(loop, ScheduleScale(r, now))
            && r.scaleSet == loop.scaleSet && r.ready == loop.ready && r.events == loop.events
            && (loop.events ==> CheckerSignalled(ScheduleScale(r, now)))
  {
  }

  lemma AcquireWakes(cfg: Config, s: Sys, w: WaiterId, id: LeaseId, seconds: real, wait: bool, reading: Reading)
    requires cfg.Valid() && Solvent(cfg, s.pool, s.debts.shutdowns) && Wired(s.pool, s.loop) && id !in s.pool.leased
    requires WakeInv(cfg, s.pool, s.loop, s.debts.wakes)
    ensures var t := AcquireStep(cfg, s, w, id, seconds, wait, reading); WakeInv(cfg, t.pool, t.loop, t.debts.wakes)
  {
    hide PoolInv, Balanced, Acquire, Resume, Park, ScheduleScale, WakeInv, LoopGoesOn;
    var (q, a) := Acquire(cfg, s.pool, s.now, id, seconds, reading);
    var r := Resume(s.loop, w);
    ResumeGoesOn(s.loop, w, s.now);
    if a == Leased {
      GrantNeedsStart(cfg, s.pool, s.now, id, seconds, reading);
      AcquireSafe(cfg, s.pool, s.now, id, seconds, reading, s.debts.shutdowns);
      WakeAfter(cfg, s.pool, s.loop, s.debts.wakes, q, ScheduleScale(r, s.now), s.debts.wakes);
    } else {
      WakeAfter(cfg, s.pool, s.loop, s.debts.wakes, s.pool, r, s.debts.wakes);
      if a == Unavailable {
        FailureMeansFull(cfg, s.pool, s.now, id, seconds, reading, s.debts.shutdowns);
        ParkWakes(cfg, s.pool, r, s.debts.wakes, w);
      }
    }
  }

  lemma GrantNeedsStart(cfg: Config, p: Pool, now: real, id: LeaseId, seconds: real, reading: Reading)
    requires cfg.Valid() && Acquire(cfg, p, now, id, seconds, reading).1 == Leased
    ensures p.started && !p.stopping
  {
  }

  lemma FailureMeansFull(cfg: Config, p: Pool, now: real, id: LeaseId, seconds: real, reading: Reading,
                         owed: multiset<ExecId>)
    requires cfg.Valid() && Solvent(cfg, p, owed) && id !in p.leased
    requires Acquire(cfg, p, now, id, seconds, reading).1 == Unavailable
    ensures Acquire(cfg, p, now, id, seconds, reading).0 == p && |p.leased| == cfg.maxPools && p.started
  {
    hide Balanced, Exclusive, Lifecycle;
    AcquireEvolves(cfg, p, now, id, seconds, reading, owed);
    RevokeSafe(cfg, p, now, reading, owed);
    TakeSafe(cfg, Revoke(cfg, p, now, reading), owed);
  }

  lemma ParkWakes(cfg: Config, p: Pool, loop: Loop, wakes: nat, w: WaiterId)
    requires WakeInv(cfg, p, loop, wakes) && p.started && |p.leased| == cfg.maxPools
    ensures WakeInv(cfg, p, Park(loop, w), wakes)
  {
  }

  /** A section that ends no lease keeps their number. */
  lemma DebtWakes(cfg: Config, s: Sys, o: Outcome)
    requires WakeInv(cfg, s.pool, s.loop, s.debts.wakes) && o.pool.started == s.pool.started
             && o.pool.stopping == s.pool.stopping
    requires !o.ended ==> |o.pool.leased| == |s.pool.leased|
    ensures WakeInv(cfg, o.pool, s.loop, Owe(s.debts, o).wakes)
  {
    WakeAfter(cfg, s.pool, s.loop, s.debts.wakes, o.pool, s.loop, Owe(s.debts, o).wakes);
  }

  lemma SameKeysSameSize(a: map<LeaseId, Rec>, b: map<LeaseId, Rec>)
    requires a.Keys == b.Keys
    ensures |a| == |b|
  {
    assert |a| == |a.Keys| && |b| == |b.Keys|;
  }

  lemma ReleaseWakes(cfg: Config, s: Sys, id: LeaseId, keep: Reading, fill: Reading)
    requires cfg.Valid() && Solvent(cfg, s.pool, s.debts.shutdowns) && WakeInv(cfg, s.pool, s.loop, s.debts.wakes)
    ensures var t := ReleaseStep(cfg, s, id, keep, fill); WakeInv(cfg, t.pool, t.loop, t.debts.wakes)
  {
    hide PoolInv, Balanced;
    var o := Release(cfg, s.pool, id, s.now, keep, fill);
    ReleaseSafe(cfg, s.pool, id, s.now, keep, fill, s.debts.shutdowns);
    if !o.ended { SameKeysSameSize(o.pool.leased, s.pool.leased); }
    DebtWakes(cfg, s, o);
  }

  lemma CallbackWakes(cfg: Config, s: Sys, f: FutureId, keep: Reading, fill: Reading)
    requires cfg.Valid() && Solvent(cfg, s.pool, s.debts.shutdowns) && WakeInv(cfg, s.pool, s.loop, s.debts.wakes)
    requires f in s.ledger.work
    ensures var t := CallbackStep(cfg, s, f, keep, fill); WakeInv(cfg, t.pool, t.loop, t.debts.wakes)
  {
    hide PoolInv, Balanced;
    var k := s.ledger.work[f];
    var o := FutureDone(cfg, s.pool, k.lease, f, k.broken, s.now, keep, fill);
    FutureDoneSafe(cfg, s.pool, k.lease, f, k.broken, s.now, keep, fill, s.debts.shutdowns);
    if !o.ended { SameKeysSameSize(o.pool.leased, s.pool.leased); }
    DebtWakes(cfg, s, o);
  }

  lemma SubmitWakes(cfg: Config, s: Sys, id: LeaseId, answer: Answer, atOnce: Option<bool>,
                    fill: Reading, keep: Reading, refill: Reading)
    requires cfg.Valid() && Solvent(cfg, s.pool, s.debts.shutdowns) && WakeInv(cfg, s.pool, s.loop, s.debts.wakes)
    ensures var t := SubmitStep(cfg, s, id, answer, atOnce, fill, keep, refill);
            WakeInv(cfg, t.pool, t.loop, t.debts.wakes)
  {
    hide PoolInv, Balanced, FutureDone;
    var (o, reply) := Submit(cfg, s.pool, id, s.now, answer, fill);
    SubmitSafe(cfg, s.pool, id, s.now, answer, fill, s.debts.shutdowns);
    if !o.ended { SameKeysSameSize(o.pool.leased, s.pool.leased); }
    DebtWakes(cfg, s, o);
    if reply.Submitted? && atOnce.Some? {
      var t := s.(pool := o.pool, ledger := Accept(s.ledger, id, s.pool.leased[id].executor, reply.future, atOnce));
      assert s.debts.shutdowns + Owed(o.toShutdown) == s.debts.shutdowns;
      CallbackWakes(cfg, t, reply.future, keep, refill);
    }
  }

  lemma RunWakes(cfg: Config, p: Pool, loop: Loop, wakes: nat, c: Callback)
    requires WakeInv(cfg, p, loop, wakes) && c in loop.ready
    ensures WakeInv(cfg, p, RunReady(loop, c), wakes)
  {
    var rest := loop.(ready := loop.ready - multiset{c});
    OthersStayReady(loop.ready, c);
    if c.SetScale? {
      WakeAfter(cfg, p, loop, wakes, p, RunReady(loop, c), wakes);
    } else {
      hide RunReady;
      forall w | w in SetAvailable(rest, c.epoch).parked
        ensures w in loop.parked && loop.parked[w] != c.epoch && SetAvailable(rest, c.epoch).parked[w] == loop.parked[w]
      {
      }
      RunSets(loop, c);
    }
  }

  lemma RunSets(loop: Loop, c: Callback)
    requires c.SetAvailability?
    ensures RunReady(loop, c) == SetAvailable(loop.(ready := loop.ready - multiset{c}), c.epoch)
  {
  }

  lemma OthersStayReady(ready: multiset<Callback>, c: Callback)
    ensures forall d :: d != c && d in ready ==> d in ready - multiset{c}
  {
  }

  lemma ModeWakes(cfg: Config, s: Sys, l: Label)
    requires cfg.Valid() && Wired(s.pool, s.loop) && WakeInv(cfg, s.pool, s.loop, s.debts.wakes) && Enabled(cfg, s, l)
    requires s.pool.stopping ==> s.pool.started
    requires l.Begin? || l.BeginFails? || l.StopBegins? || l.StopEnds?
    requires Apply(cfg, s, l).pool.started <==> l.Begin? || l.StopBegins?
    ensures var t := Apply(cfg, s, l); WakeInv(cfg, t.pool, t.loop, t.debts.wakes)
  {
  }

  lemma TickWakes(cfg: Config, s: Sys, revoke: Reading, fill: Reading, shrink: Reading)
    requires cfg.Valid() && Solvent(cfg, s.pool, s.debts.shutdowns) && Wired(s.pool, s.loop)
    requires WakeInv(cfg, s.pool, s.loop, s.debts.wakes) && s.loop.checker.Some?
    ensures var t := TickStep(cfg, s, revoke, fill, shrink); WakeInv(cfg, t.pool, t.loop, t.debts.wakes)
  {
    hide Balanced, Exclusive, Lifecycle, Tick;
    TickSafe(cfg, s.pool, s.now, revoke, fill, shrink, s.debts.shutdowns);
    var t := TickStep(cfg, s, revoke, fill, shrink);
    WakeAfter(cfg, s.pool, s.loop, s.debts.wakes, t.pool, t.loop, t.debts.wakes);
  }

  lemma LoopOnlyWakes(cfg: Config, s: Sys, l: Label)
    requires cfg.Valid() && Wired(s.pool, s.loop) && WakeInv(cfg, s.pool, s.loop, s.debts.wakes)
    requires LoopOnly(l) && Enabled(cfg, s, l)
    ensures var t := Apply(cfg, s, l); WakeInv(cfg, t.pool, t.loop, t.debts.wakes)
  {
    LoopOnlyFrame(cfg, s, l);
    if l.RunCallback? {
      RunWakes(cfg, s.pool, s.loop, s.debts.wakes, l.callback);
    } else {
      var t := Apply(cfg, s, l);
      WakeAfter(cfg, s.pool, s.loop, s.debts.wakes, t.pool, t.loop, t.debts.wakes);
    }
  }

  lemma WakeStep(cfg: Config, s: Sys, l: Label)
    requires cfg.Valid() && Inv(cfg, s) && Enabled(cfg, s, l)
    ensures var t := Apply(cfg, s, l); WakeInv(cfg, t.pool, t.loop, t.debts.wakes)
  {
    if LoopOnly(l) {
      LoopOnlyWakes(cfg, s, l);
    } else if l.TryAcquire? {
      AcquireWakes(cfg, s, l.waiter, l.id, l.seconds, l.wait, l.reading);
    } else if l.ReleaseLease? {
      ReleaseWakes(cfg, s, l.id, l.keep, l.fill);
    } else if l.SubmitWork? {
      SubmitWakes(cfg, s, l.id, l.answer, l.atOnce, l.fill, l.keep, l.refill);
    } else if l.RunDoneCallback? {
      CallbackWakes(cfg, s, l.f, l.keep, l.fill);
    } else if l.CheckerTick? {
      TickWakes(cfg, s, l.revoke, l.fill, l.shrink);
    } else if l.ShutDown? {
    } else {
      ModesFollow(cfg, s, l);
      ModeWakes(cfg, s, l);
    }
  }

  lemma ModesFollow(cfg: Config, s: Sys, l: Label)
    requires cfg.Valid() && Solvent(cfg, s.pool, s.debts.shutdowns) && Enabled(cfg, s, l)
    requires l.Begin? || l.BeginFails? || l.StopBegins? || l.StopEnds?
    ensures Apply(cfg, s, l).pool.started <==> l.Begin? || l.StopBegins?
  {
    if l.BeginFails? {
      StartFailsSafe(cfg, s.pool, l.creations, s.debts.shutdowns);
    }
  }

  // ------------------------------------------------------------------------------
  // Part 4 is kept
  // ------------------------------------------------------------------------------

  /** Leases come only from before, with the terms they had. */
  ghost predicate SameTerms(p: Pool, q: Pool) {
    forall id :: id in q.leased ==>
      && id in p.leased && q.leased[id].HardExpiresAt() == p.leased[id].HardExpiresAt()
      && (p.leased[id].releaseRequested ==> q.leased[id].releaseRequested)
  }

  lemma DueAfter(p: Pool, due: real, q: Pool, due': real)
    requires DueBefore(p, due) && SameTerms(p, q) && p.started == q.started && due' <= due
    ensures DueBefore(q, due')
  {
  }

  lemma EarliestIsFirst(leased: map<LeaseId, Rec>, id: LeaseId)
    requires id in leased
    ensures EarliestExpiry(leased).Some? && EarliestExpiry(leased).value <= leased[id].HardExpiresAt()
    decreases |leased|
  {
    var i :| i in leased && EarliestExpiry(leased) ==
             (var rest := EarliestExpiry(leased - {i});
              if rest == None || leased[i].HardExpiresAt() < rest.value then Some(leased[i].HardExpiresAt()) else rest);
    if id != i {
      SizeOfDifference(leased, {i});
      EarliestIsFirst(leased - {i}, id);
    }
  }

  lemma EarliestIsAttained(m: map<LeaseId, Rec>)
    requires m != map[]
    ensures exists i :: i in m && EarliestExpiry(m) == Some(m[i].HardExpiresAt())
    decreases |m|
  {
    var i :| i in m && EarliestExpiry(m) ==
             (var rest := EarliestExpiry(m - {i});
              if rest == None || m[i].HardExpiresAt() < rest.value then Some(m[i].HardExpiresAt()) else rest);
    if m - {i} != map[] {
      SizeOfDifference(m, {i});
      EarliestIsAttained(m - {i});
    }
  }

  /** The checker never sleeps past the first expiry it has seen. */
  lemma WakesInTime(cfg: Config, p: Pool, now: real, id: LeaseId)
    requires cfg.Valid() && id in p.leased && !p.leased[id].Expired(now)
    requires forall i :: i in p.leased ==> !p.leased[i].Expired(now)
    ensures now + WaitSeconds(cfg, p, now) <= p.leased[id].HardExpiresAt()
  {
    EarliestIsFirst(p.leased, id);
  }

  lemma TickExpiry(cfg: Config, s: Sys, revoke: Reading, fill: Reading, shrink: Reading)
    requires cfg.Valid() && Solvent(cfg, s.pool, s.debts.shutdowns) && s.pool.started
    ensures var t := TickStep(cfg, s, revoke, fill, shrink); ExpiryInv(t.pool, t.loop)
  {
    hide Balanced, Exclusive, Lifecycle, Tick;
    TickSafe(cfg, s.pool, s.now, revoke, fill, shrink, s.debts.shutdowns);
    var q := Tick(cfg, s.pool, s.now, revoke, fill, shrink);
    var wake := s.now + WaitSeconds(cfg, q, s.now);
    forall id | id in q.leased ensures wake <= q.leased[id].HardExpiresAt() {
      WakesInTime(cfg, q, s.now, id);
    }
  }

  lemma AcquireDue(cfg: Config, p: Pool, due: real, now: real, id: LeaseId, seconds: real, reading: Reading,
                   owed: multiset<ExecId>)
    requires cfg.Valid() && Solvent(cfg, p, owed) && DueBefore(p, due) && id !in p.leased && seconds > 0.0
    ensures var (q, a) := Acquire(cfg, p, now, id, seconds, reading);
            if a == Leased then DueBefore(q, RealMin(due, now)) else q == p
  {
    hide Balanced, Exclusive, Lifecycle;
    AcquireEvolves(cfg, p, now, id, seconds, reading, owed);
  }

  lemma AcquireExpiry(cfg: Config, s: Sys, w: WaiterId, id: LeaseId, seconds: real, wait: bool, reading: Reading)
    requires cfg.Valid() && Solvent(cfg, s.pool, s.debts.shutdowns) && Wired(s.pool, s.loop)
    requires ExpiryInv(s.pool, s.loop) && id !in s.pool.leased && seconds > 0.0
    ensures var t := AcquireStep(cfg, s, w, id, seconds, wait, reading); ExpiryInv(t.pool, t.loop)
  {
    hide Balanced, Exclusive, Lifecycle, Acquire;
    AcquireDue(cfg, s.pool, s.loop.due, s.now, id, seconds, reading, s.debts.shutdowns);
    if s.pool.started {
      ScheduleMeaning(Resume(s.loop, w), s.now);
    } else {
      NotStartedFails(cfg, s.pool, s.now, id, seconds, reading);
    }
  }

  lemma NotStartedFails(cfg: Config, p: Pool, now: real, id: LeaseId, seconds: real, reading: Reading)
    requires cfg.Valid() && (!p.started || p.stopping)
    ensures Acquire(cfg, p, now, id, seconds, reading) == (p, NotStarted)
  {
  }

  lemma ScheduleMeaning(loop: Loop, now: real)
    requires DueMeaning(loop) && (loop.checker.Some? ==> loop.events)
    ensures DueMeaning(ScheduleScale(loop, now)) && ScheduleScale(loop, now).due <= loop.due
  {
  }

  lemma RunMeaning(loop: Loop, c: Callback)
    requires DueMeaning(loop) && c in loop.ready
    ensures DueMeaning(RunReady(loop, c)) && RunReady(loop, c).due == loop.due
  {
    assert forall d :: d != c && d in loop.ready ==> d in RunReady(loop, c).ready;
  }

  lemma LoopOnlyExpiry(cfg: Config, s: Sys, l: Label)
    requires cfg.Valid() && Wired(s.pool, s.loop) && ExpiryInv(s.pool, s.loop) && LoopOnly(l) && Enabled(cfg, s, l)
    ensures var t := Apply(cfg, s, l); ExpiryInv(t.pool, t.loop)
  {
    LoopOnlyFrame(cfg, s, l);
    if l.RunCallback? {
      RunMeaning(s.loop, l.callback);
    } else if l.WakeChecker? || l.NotifyScaleChanged? {
      ScheduleMeaning(s.loop, s.now);
    }
  }

  lemma SectionTerms(cfg: Config, s: Sys, l: Label)
    requires cfg.Valid() && Solvent(cfg, s.pool, s.debts.shutdowns) && Enabled(cfg, s, l)
    requires l.ReleaseLease? || l.SubmitWork? || l.RunDoneCallback?
    ensures var t := Apply(cfg, s, l); SameTerms(s.pool, t.pool) && t.pool.started == s.pool.started && t.loop == s.loop
  {
    if l.ReleaseLease? {
      ReleaseTerms(cfg, s.pool, l.id, s.now, l.keep, l.fill, s.debts.shutdowns);
    } else if l.SubmitWork? {
      SubmitTerms(cfg, s, l.id, l.answer, l.atOnce, l.fill, l.keep, l.refill);
    } else {
      var k := s.ledger.work[l.f];
      DoneTerms(cfg, s.pool, k.lease, l.f, k.broken, s.now, l.keep, l.fill, s.debts.shutdowns);
    }
  }

  lemma RecordTerms(p: Pool, id: LeaseId, rec: Rec)
    requires id in p.leased && rec.HardExpiresAt() == p.leased[id].HardExpiresAt()
    requires p.leased[id].releaseRequested ==> rec.releaseRequested
    ensures SameTerms(p, p.(leased := p.leased[id := rec]))
  {
  }

  lemma EndTerms(p: Pool, id: LeaseId, rec: Rec, q: Pool)
    requires SameTerms(p, p.(leased := p.leased[id := rec])) && q.leased == p.leased[id := rec] - {id}
    ensures SameTerms(p, q)
  {
  }

  lemma ReleaseTerms(cfg: Config, p: Pool, id: LeaseId, now: real, keep: Reading, fill: Reading, owed: multiset<ExecId>)
    requires cfg.Valid() && Solvent(cfg, p, owed)
    ensures var q := Release(cfg, p, id, now, keep, fill).pool; SameTerms(p, q) && q.started == p.started
  {
    hide Balanced, Exclusive, Lifecycle, Finalize, SameTerms;
    if id in p.leased {
      var rec := p.leased[id].(releaseRequested := true);
      var q := p.(leased := p.leased[id := rec]);
      RecordTerms(p, id, rec);
      if p.leased[id].pending == {} {
        UpdateSafe(cfg, p, id, rec, owed);
        FinalizeSafe(cfg, q, id, now, keep, fill, owed);
        EndTerms(p, id, rec, Finalize(cfg, q, id, now, keep, fill).pool);
      }
    } else {
      SameTermsRefl(p);
    }
  }

  lemma SameTermsRefl(p: Pool)
    ensures SameTerms(p, p)
  {
  }

  lemma DoneTerms(cfg: Config, p: Pool, id: LeaseId, f: FutureId, broken: bool, now: real,
                  keep: Reading, fill: Reading, owed: multiset<ExecId>)
    requires cfg.Valid() && Solvent(cfg, p, owed)
    ensures var q := FutureDone(cfg, p, id, f, broken, now, keep, fill).pool; SameTerms(p, q) && q.started == p.started
  {
    hide Balanced, Exclusive, Lifecycle, Finalize, Retire, SameTerms;
    if id in p.leased {
      var rec := p.leased[id].(pending := p.leased[id].pending - {f});
      var q := p.(leased := p.leased[id := rec]);
      RecordTerms(p, id, rec);
      UpdateSafe(cfg, p, id, rec, owed);
      if broken {
        RetireSafe(cfg, q, id, fill, owed);
        EndTerms(p, id, rec, Retire(cfg, q, id, fill).pool);
      } else if rec.releaseRequested && rec.pending == {} {
        FinalizeSafe(cfg, q, id, now, keep, fill, owed);
        EndTerms(p, id, rec, Finalize(cfg, q, id, now, keep, fill).pool);
      }
    } else {
      SameTermsRefl(p);
    }
  }

  lemma TermsCompose(p: Pool, q: Pool, r: Pool)
    requires SameTerms(p, q) && SameTerms(q, r)
    ensures SameTerms(p, r)
  {
  }

  lemma SubmitSectionTerms(cfg: Config, p: Pool, id: LeaseId, now: real, answer: Answer, fill: Reading,
                           owed: multiset<ExecId>)
    requires cfg.Valid() && Solvent(cfg, p, owed)
    ensures SameTerms(p, Submit(cfg, p, id, now, answer, fill).0.pool)
  {
    hide Balanced, Exclusive, Lifecycle, EnsureMinimum, Retire;
    if id in p.leased {
      RetireSafe(cfg, p, id, fill, owed);
    }
  }

  lemma SubmitTerms(cfg: Config, s: Sys, id: LeaseId, answer: Answer, atOnce: Option<bool>,
                    fill: Reading, keep: Reading, refill: Reading)
    requires cfg.Valid() && Solvent(cfg, s.pool, s.debts.shutdowns)
    ensures var t := SubmitStep(cfg, s, id, answer, atOnce, fill, keep, refill);
            SameTerms(s.pool, t.pool) && t.pool.started == s.pool.started && t.loop == s.loop
  {
    hide Balanced, PoolInv, SameTerms, FutureDone;
    var (o, reply) := Submit(cfg, s.pool, id, s.now, answer, fill);
    SubmitSafe(cfg, s.pool, id, s.now, answer, fill, s.debts.shutdowns);
    SubmitSectionTerms(cfg, s.pool, id, s.now, answer, fill, s.debts.shutdowns);
    if reply.Submitted? && atOnce.Some? {
      DoneTerms(cfg, o.pool, id, reply.future, atOnce == Some(true), s.now, keep, refill,
                s.debts.shutdowns + Owed(o.toShutdown));
      TermsCompose(s.pool, o.pool,
                   FutureDone(cfg, o.pool, id, reply.future, atOnce == Some(true), s.now, keep, refill).pool);
    }
  }

  lemma ExpiryStep(cfg: Config, s: Sys, l: Label)
    requires cfg.Valid() && Inv(cfg, s) && Enabled(cfg, s, l)
    ensures var t := Apply(cfg, s, l); ExpiryInv(t.pool, t.loop)
  {
    if LoopOnly(l) {
      LoopOnlyExpiry(cfg, s, l);
    } else if l.TryAcquire? {
      AcquireExpiry(cfg, s, l.waiter, l.id, l.seconds, l.wait, l.reading);
    } else if l.ReleaseLease? || l.SubmitWork? || l.RunDoneCallback? {
      SectionTerms(cfg, s, l);
      DueAfter(s.pool, s.loop.due, Apply(cfg, s, l).pool, s.loop.due);
    } else if l.CheckerTick? {
      TickExpiry(cfg, s, l.revoke, l.fill, l.shrink);
    } else if l.ShutDown? {
    } else {
      ModeExpiry(cfg, s, l);
    }
  }

  lemma ModeExpiry(cfg: Config, s: Sys, l: Label)
    requires cfg.Valid() && Solvent(cfg, s.pool, s.debts.shutdowns) && ExpiryInv(s.pool, s.loop) && Enabled(cfg, s, l)
    requires l.Begin? || l.BeginFails? || l.StopBegins? || l.StopEnds?
    ensures var t := Apply(cfg, s, l); ExpiryInv(t.pool, t.loop)
  {
    if l.Begin? {
      StartSafe(cfg, s.pool, l.fill, s.debts.shutdowns);
    } else if l.BeginFails? {
      StartFailsSafe(cfg, s.pool, l.creations, s.debts.shutdowns);
    }
  }

  /** Every step keeps the whole invariant. */
  lemma InvStep(cfg: Config, s: Sys, l: Label)
    requires cfg.Valid() && Inv(cfg, s) && Enabled(cfg, s, l)
    ensures Inv(cfg, Apply(cfg, s, l))
  {
    SolventStep(cfg, s, l);
    WorkStep(cfg, s, l);
    WakeStep(cfg, s, l);
    ExpiryStep(cfg, s, l);
  }
}
