/**
 The invariant of the whole system, in four parts, each over just the components it
 is about, and the proof that every step keeps it.
 */
module PoolInvariant {
  import opened Options
  import opened Sizing
  import opened PoolModel
  import opened PoolSafety
  import opened PoolEvolution
  import opened PoolSystem

  // ------------------------------------------------------------------------------
  // Part 1: the pool is sound, and its debts are what actors outside the lock owe.
  // ------------------------------------------------------------------------------

  ghost predicate Solvent(cfg: Config, p: Pool, owed: multiset<ExecId>) {
    PoolInv(cfg, p) && Balanced(p, owed)
  }

  ghost predicate Wired(p: Pool, loop: Loop) {
    && (p.started ==> loop.events)
    && (loop.checker.Some? <==> p.started && !p.stopping)
  }

  // ------------------------------------------------------------------------------
  // Part 2: work.  A future whose callback is still to come is tracked by its lease, or
  // its executor is retired; leases and issued ids agree on executors.
  // ------------------------------------------------------------------------------

  ghost predicate LeasesKnown(p: Pool, g: Ledger) {
    && (forall id :: id in p.leased ==> id in g.issued && g.issued[id] == p.leased[id].executor)
    && (forall id :: id in g.issued ==> g.issued[id] in p.created)
  }

  ghost predicate PendingKnown(p: Pool, g: Ledger) {
    forall id, f :: id in p.leased && f in p.leased[id].pending ==>
      f in g.work && g.work[f].lease == id && !g.work[f].called
  }

  ghost predicate Tracked(p: Pool, k: Work, f: FutureId) {
    || p.Retired(k.executor)
    || (k.lease in p.leased && f in p.leased[k.lease].pending)
  }

  ghost predicate WorkKnown(p: Pool, g: Ledger) {
    forall f :: f in g.work ==>
      && g.work[f].lease in g.issued && g.issued[g.work[f].lease] == g.work[f].executor
      && (g.work[f].called ==> g.work[f].done)
      && (!g.work[f].called ==> Tracked(p, g.work[f], f))
  }

  ghost predicate WorkInv(p: Pool, g: Ledger) {
    LeasesKnown(p, g) && PendingKnown(p, g) && WorkKnown(p, g)
  }

  // ------------------------------------------------------------------------------
  // Part 3: wakes
  // ------------------------------------------------------------------------------

  ghost predicate CheckerSignalled(loop: Loop) {
    loop.scaleSet || SetScale(loop.epoch) in loop.ready
  }

  /** A wake for the waiters of the current event is on its way: owed, scheduled, to come
      from the checker's next round, or to come from the end of a stop. */
  ghost predicate WakeInFlight(stopping: bool, loop: Loop, wakes: nat) {
    wakes > 0 || SetAvailability(loop.epoch) in loop.ready || CheckerSignalled(loop) || stopping
  }

  ghost predicate WakeInv(cfg: Config, p: Pool, loop: Loop, wakes: nat) {
    forall w :: w in loop.parked ==>
      && loop.parked[w] <= loop.epoch
      && (if p.started && loop.parked[w] == loop.epoch
          then |p.leased| < cfg.maxPools ==> WakeInFlight(p.stopping, loop, wakes)
          else SetAvailability(loop.parked[w]) in loop.ready)
  }

  // ------------------------------------------------------------------------------
  // Part 4: the checker's appointments
  // ------------------------------------------------------------------------------

  ghost predicate DueBefore(p: Pool, due: real) {
    p.started ==> forall id :: id in p.leased ==> due <= p.leased[id].HardExpiresAt()
  }

  /** `due` is the checker's appointment, or earlier because it was signalled. */
  ghost predicate DueMeaning(loop: Loop) {
    loop.checker.Some? ==>
      loop.due <= loop.checker.value && (loop.due < loop.checker.value ==> CheckerSignalled(loop))
  }

  ghost predicate ExpiryInv(p: Pool, loop: Loop) {
    DueBefore(p, loop.due) && DueMeaning(loop)
  }

  ghost predicate Inv(cfg: Config, s: Sys) {
    && Solvent(cfg, s.pool, s.debts.shutdowns)
    && Wired(s.pool, s.loop)
    && WorkInv(s.pool, s.ledger)
    && WakeInv(cfg, s.pool, s.loop, s.debts.wakes)
    && ExpiryInv(s.pool, s.loop)
  }

  lemma InitInv(cfg: Config)
    ensures Inv(cfg, Init())
  {
  }

  // ------------------------------------------------------------------------------
  // Part 1 is kept
  // ------------------------------------------------------------------------------

  lemma SubmitSolvent(cfg: Config, s: Sys, id: LeaseId, answer: Answer, atOnce: Option<bool>,
                      fill: Reading, keep: Reading, refill: Reading)
    requires cfg.Valid() && Solvent(cfg, s.pool, s.debts.shutdowns)
    ensures var t := SubmitStep(cfg, s, id, answer, atOnce, fill, keep, refill);
            && Solvent(cfg, t.pool, t.debts.shutdowns) && SameMode(s.pool, t.pool) && t.loop == s.loop
  {
    SubmitSafe(cfg, s.pool, id, s.now, answer, fill, s.debts.shutdowns);
    var (o, reply) := Submit(cfg, s.pool, id, s.now, answer, fill);
    if reply.Submitted? {
      assert s.debts.shutdowns + Owed(o.toShutdown) == s.debts.shutdowns;
      if atOnce.Some? {
        FutureDoneSafe(cfg, o.pool, id, reply.future, atOnce == Some(true), s.now, keep, refill, s.debts.shutdowns);
      }
    }
  }

  lemma PaySolvent(cfg: Config, p: Pool, owed: multiset<ExecId>, e: ExecId)
    requires Solvent(cfg, p, owed) && e in owed
    ensures Solvent(cfg, p.(shutdowns := p.shutdowns + multiset{e}), owed - multiset{e})
  {
    assert (owed - multiset{e}) + multiset{e} == owed;
    Settle(p, multiset{e}, owed - multiset{e});
    assert p.(shutdowns := p.shutdowns + multiset{e}).Held() == p.Held();
  }

  lemma StopBeginSolvent(cfg: Config, p: Pool, owed: multiset<ExecId>)
    requires Solvent(cfg, p, owed) && p.started
    ensures Solvent(cfg, StopBegin(p), owed)
  {
    assert StopBegin(p).Held() == p.Held();
  }

  /** Steps that change neither the pool nor what is owed to executors. */
  predicate LoopOnly(l: Label) {
    || l.GiveUp? || l.WorkFinishes? || l.WakeWaiters? || l.WakeChecker? || l.RunCallback?
    || l.NotifyScaleChanged? || l.TimePasses?
  }

  lemma LoopOnlyFrame(cfg: Config, s: Sys, l: Label)
    requires cfg.Valid() && LoopOnly(l) && Enabled(cfg, s, l)
    ensures var t := Apply(cfg, s, l);
            && t.pool == s.pool && t.debts.shutdowns == s.debts.shutdowns
            && t.loop.events == s.loop.events && t.loop.checker == s.loop.checker && t.loop.epoch == s.loop.epoch
            && t.ledger.issued == s.ledger.issued
  {
    hide Start, StartFails, StopFinish, AcquireStep, ReleaseStep, SubmitStep, CallbackStep, TickStep;
  }

  lemma LifecycleSolvent(cfg: Config, s: Sys, l: Label)
    requires cfg.Valid() && Solvent(cfg, s.pool, s.debts.shutdowns) && Wired(s.pool, s.loop)
    requires (l.Begin? || l.BeginFails? || l.StopBegins? || l.StopEnds? || l.CheckerTick?) && Enabled(cfg, s, l)
    ensures var t := Apply(cfg, s, l); Solvent(cfg, t.pool, t.debts.shutdowns) && Wired(t.pool, t.loop)
  {
    if l.Begin? {
      StartSafe(cfg, s.pool, l.fill, s.debts.shutdowns);
    } else if l.BeginFails? {
      StartFailsSafe(cfg, s.pool, l.creations, s.debts.shutdowns);
    } else if l.StopBegins? {
      StopBeginSolvent(cfg, s.pool, s.debts.shutdowns);
    } else if l.StopEnds? {
      StopFinishSafe(cfg, s.pool, s.debts.shutdowns);
    } else {
      TickSafe(cfg, s.pool, s.now, l.revoke, l.fill, l.shrink, s.debts.shutdowns);
    }
  }

  lemma AcquireWiring(loop: Loop, w: WaiterId, now: real)
    ensures var r := Resume(loop, w);
            forall k :: k in {r, Park(r, w), ScheduleScale(r, now)} ==>
              k.events == loop.events && k.checker == loop.checker
  {
  }

  lemma AcquireSolvent(cfg: Config, s: Sys, w: WaiterId, id: LeaseId, seconds: real, wait: bool, reading: Reading)
    requires cfg.Valid() && Solvent(cfg, s.pool, s.debts.shutdowns) && Wired(s.pool, s.loop) && id !in s.pool.leased
    ensures var t := AcquireStep(cfg, s, w, id, seconds, wait, reading);
            Solvent(cfg, t.pool, t.debts.shutdowns) && Wired(t.pool, t.loop)
  {
    AcquireSafe(cfg, s.pool, s.now, id, seconds, reading, s.debts.shutdowns);
    AcquireWiring(s.loop, w, s.now);
    var (q, a) := Acquire(cfg, s.pool, s.now, id, seconds, reading);
    var t := AcquireStep(cfg, s, w, id, seconds, wait, reading);
    assert t.debts == s.debts && t.pool in {s.pool, q};
    assert t.loop in {Resume(s.loop, w), Park(Resume(s.loop, w), w), ScheduleScale(Resume(s.loop, w), s.now)};
  }

  lemma CallbackSolvent(cfg: Config, s: Sys, f: FutureId, keep: Reading, fill: Reading)
    requires cfg.Valid() && Solvent(cfg, s.pool, s.debts.shutdowns) && Wired(s.pool, s.loop) && f in s.ledger.work
    ensures var t := CallbackStep(cfg, s, f, keep, fill);
            Solvent(cfg, t.pool, t.debts.shutdowns) && Wired(t.pool, t.loop)
  {
    FutureDoneSafe(cfg, s.pool, s.ledger.work[f].lease, f, s.ledger.work[f].broken, s.now, keep, fill,
      s.debts.shutdowns);
  }

  lemma ReleaseSolvent(cfg: Config, s: Sys, id: LeaseId, keep: Reading, fill: Reading)
    requires cfg.Valid() && Solvent(cfg, s.pool, s.debts.shutdowns) && Wired(s.pool, s.loop)
    ensures var t := ReleaseStep(cfg, s, id, keep, fill);
            Solvent(cfg, t.pool, t.debts.shutdowns) && Wired(t.pool, t.loop)
  {
    ReleaseSafe(cfg, s.pool, id, s.now, keep, fill, s.debts.shutdowns);
  }

  lemma SolventStep(cfg: Config, s: Sys, l: Label)
    requires cfg.Valid() && Solvent(cfg, s.pool, s.debts.shutdowns) && Wired(s.pool, s.loop)
    requires LeasesKnown(s.pool, s.ledger) && Enabled(cfg, s, l)
    ensures var t := Apply(cfg, s, l); Solvent(cfg, t.pool, t.debts.shutdowns) && Wired(t.pool, t.loop)
  {
    if LoopOnly(l) {
      LoopOnlyFrame(cfg, s, l);
    } else if l.TryAcquire? {
      AcquireSolvent(cfg, s, l.waiter, l.id, l.seconds, l.wait, l.reading);
    } else if l.ReleaseLease? {
      ReleaseSolvent(cfg, s, l.id, l.keep, l.fill);
    } else if l.SubmitWork? {
      SubmitSolvent(cfg, s, l.id, l.answer, l.atOnce, l.fill, l.keep, l.refill);
    } else if l.RunDoneCallback? {
      CallbackSolvent(cfg, s, l.f, l.keep, l.fill);
    } else if l.ShutDown? {
      PaySolvent(cfg, s.pool, s.debts.shutdowns, l.e);
    } else {
      LifecycleSolvent(cfg, s, l);
    }
  }

  // ------------------------------------------------------------------------------
  // Part 2 is kept
  // ------------------------------------------------------------------------------

  /** The pool evolves; work and issued ids do not change. */
  lemma WorkAfterEvolution(p: Pool, q: Pool, g: Ledger)
    requires WorkInv(p, g) && Evolves(p, q)
    ensures WorkInv(q, g)
  {
    forall f | f in g.work && !g.work[f].called ensures Tracked(q, g.work[f], f) {
      assert Tracked(p, g.work[f], f);
    }
  }

  lemma WorkAfterLease(p: Pool, q: Pool, g: Ledger, id: LeaseId)
    requires WorkInv(p, g) && Leases(p, q, id) && id !in g.issued
    ensures WorkInv(q, g.(issued := g.issued[id := q.leased[id].executor]))
  {
    forall f | f in g.work && !g.work[f].called ensures Tracked(q, g.work[f], f) {
      assert Tracked(p, g.work[f], f);
    }
  }

  /** Changing only what one lease has pending. */
  function WithPending(p: Pool, id: LeaseId, pending: set<FutureId>): Pool
    requires id in p.leased
  {
    p.(leased := p.leased[id := p.leased[id].(pending := pending)])
  }

  lemma WithPendingRetires(p: Pool, id: LeaseId, pending: set<FutureId>)
    requires id in p.leased
    ensures forall e :: WithPending(p, id, pending).Retired(e) <==> p.Retired(e)
  {
    HeldSubset(WithPending(p, id, pending).leased, p.leased);
    HeldSubset(p.leased, WithPending(p, id, pending).leased);
  }

  /** The callback of a future has run and the future has left its lease. */
  lemma WorkAfterCallback(p: Pool, g: Ledger, f: FutureId)
    requires WorkInv(p, g) && f in g.work && g.work[f].done
    ensures var id := g.work[f].lease;
            WorkInv(if id in p.leased then WithPending(p, id, p.leased[id].pending - {f}) else p, MarkCalled(g, f))
  {
    var id := g.work[f].lease;
    var h := MarkCalled(g, f);
    if id in p.leased {
      WithPendingRetires(p, id, p.leased[id].pending - {f});
      var q := WithPending(p, id, p.leased[id].pending - {f});
      forall x | x in h.work && !h.work[x].called ensures Tracked(q, h.work[x], x) {
        assert Tracked(p, g.work[x], x);
      }
    }
  }

  lemma CallbackWork(cfg: Config, p: Pool, g: Ledger, f: FutureId, now: real, keep: Reading, fill: Reading,
                     owed: multiset<ExecId>)
    requires cfg.Valid() && Solvent(cfg, p, owed) && WorkInv(p, g) && f in g.work && g.work[f].done
    ensures WorkInv(FutureDone(cfg, p, g.work[f].lease, f, g.work[f].broken, now, keep, fill).pool, MarkCalled(g, f))
  {
    var id := g.work[f].lease;
    WorkAfterCallback(p, g, f);
    if id in p.leased {
      var q := WithPending(p, id, p.leased[id].pending - {f});
      UpdateSafe(cfg, p, id, q.leased[id], owed);
      if g.work[f].broken {
        RetireEvolves(cfg, q, id, fill, owed);
        WorkAfterEvolution(q, Retire(cfg, q, id, fill).pool, MarkCalled(g, f));
      } else if q.leased[id].releaseRequested && q.leased[id].pending == {} {
        FinalizeEvolves(cfg, q, id, now, keep, fill, owed);
        WorkAfterEvolution(q, Finalize(cfg, q, id, now, keep, fill).pool, MarkCalled(g, f));
      }
    }
  }

  /** A future accepted under a lease is tracked by it from the start. */
  lemma AcceptWork(p: Pool, g: Ledger, id: LeaseId, f: FutureId, atOnce: Option<bool>)
    requires WorkInv(p, g) && id in p.leased && f !in g.work
    ensures WorkInv(WithPending(p, id, p.leased[id].pending + {f}), Accept(g, id, p.leased[id].executor, f, atOnce))
  {
    var q := WithPending(p, id, p.leased[id].pending + {f});
    var h := Accept(g, id, p.leased[id].executor, f, atOnce);
    WithPendingRetires(p, id, p.leased[id].pending + {f});
    forall x | x in h.work && !h.work[x].called ensures Tracked(q, h.work[x], x) {
      if x != f { assert Tracked(p, g.work[x], x); }
    }
  }

  lemma AcceptedWorkInv(cfg: Config, p: Pool, g: Ledger, id: LeaseId, f: FutureId, atOnce: Option<bool>, now: real,
                        keep: Reading, refill: Reading, owed: multiset<ExecId>)
    requires cfg.Valid() && id in p.leased && f !in g.work && WorkInv(p, g)
    requires Solvent(cfg, WithPending(p, id, p.leased[id].pending + {f}), owed)
    ensures var q := WithPending(p, id, p.leased[id].pending + {f});
            var h := Accept(g, id, p.leased[id].executor, f, atOnce);
            WorkInv(q, h) && (atOnce.Some? ==>
              WorkInv(FutureDone(cfg, q, id, f, atOnce == Some(true), now, keep, refill).pool, MarkCalled(h, f)))
  {
    AcceptWork(p, g, id, f, atOnce);
    if atOnce.Some? {
      CallbackWork(cfg, WithPending(p, id, p.leased[id].pending + {f}),
                   Accept(g, id, p.leased[id].executor, f, atOnce), f, now, keep, refill, owed);
    }
  }

  lemma RejectedWorkInv(cfg: Config, p: Pool, g: Ledger, id: LeaseId, fill: Reading, owed: multiset<ExecId>)
    requires cfg.Valid() && Solvent(cfg, p, owed) && WorkInv(p, g) && id in p.leased
    ensures WorkInv(Retire(cfg, p, id, fill).pool, g)
  {
    hide Balanced, Exclusive, Lifecycle, Retire;
    assert Exclusive(cfg, p);
    RetireEvolves(cfg, p, id, fill, owed);
    WorkAfterEvolution(p, Retire(cfg, p, id, fill).pool, g);
  }

  lemma SubmitWorkInv(cfg: Config, s: Sys, id: LeaseId, answer: Answer, atOnce: Option<bool>,
                      fill: Reading, keep: Reading, refill: Reading)
    requires cfg.Valid() && Solvent(cfg, s.pool, s.debts.shutdowns) && WorkInv(s.pool, s.ledger)
    requires answer.Accepts? ==> answer.future !in s.ledger.work
    ensures var t := SubmitStep(cfg, s, id, answer, atOnce, fill, keep, refill); WorkInv(t.pool, t.ledger)
  {
    hide Balanced, PoolInv, FutureDone, WorkInv, Retire;
    var (o, reply) := Submit(cfg, s.pool, id, s.now, answer, fill);
    SubmitSafe(cfg, s.pool, id, s.now, answer, fill, s.debts.shutdowns);
    if reply.Submitted? {
      AcceptedWorkInv(cfg, s.pool, s.ledger, id, reply.future, atOnce, s.now, keep, refill,
                      s.debts.shutdowns + Owed(o.toShutdown));
    } else if id in s.pool.leased {
      RejectedWorkInv(cfg, s.pool, s.ledger, id, fill, s.debts.shutdowns);
    }
  }

  lemma AcquireWork(cfg: Config, s: Sys, w: WaiterId, id: LeaseId, seconds: real, wait: bool, reading: Reading)
    requires cfg.Valid() && Solvent(cfg, s.pool, s.debts.shutdowns) && WorkInv(s.pool, s.ledger)
             && id !in s.ledger.issued
    ensures var t := AcquireStep(cfg, s, w, id, seconds, wait, reading); WorkInv(t.pool, t.ledger)
  {
    AcquireEvolves(cfg, s.pool, s.now, id, seconds, reading, s.debts.shutdowns);
    var (q, a) := Acquire(cfg, s.pool, s.now, id, seconds, reading);
    if a == Leased {
      WorkAfterLease(s.pool, q, s.ledger, id);
    }
  }

  /** A pool that owns nothing has retired everything. */
  lemma WorkAfterClear(p: Pool, q: Pool, g: Ledger)
    requires WorkInv(p, g) && q.leased == map[] && p.created <= q.created && q.available == []
    ensures WorkInv(q, g)
  {
    assert forall e :: e in q.created ==> q.Retired(e);
  }

  lemma WorkLike(p: Pool, q: Pool, g: Ledger)
    requires WorkInv(p, g) && q.available == p.available && q.leased == p.leased && q.created == p.created
    ensures WorkInv(q, g)
  {
    assert p.Held() == q.Held();
    WorkAfterEvolution(p, q, g);
  }

  lemma FinishWork(p: Pool, g: Ledger, f: FutureId, broken: bool)
    requires WorkInv(p, g) && f in g.work
    ensures WorkInv(p, Finish(g, f, broken))
  {
    var h := Finish(g, f, broken);
    forall x | x in h.work && !h.work[x].called ensures Tracked(p, h.work[x], x) {
      assert Tracked(p, g.work[x], x);
    }
  }

  lemma WorkStep(cfg: Config, s: Sys, l: Label)
    requires cfg.Valid() && Solvent(cfg, s.pool, s.debts.shutdowns) && Wired(s.pool, s.loop)
    requires WorkInv(s.pool, s.ledger) && Enabled(cfg, s, l)
    ensures var t := Apply(cfg, s, l); WorkInv(t.pool, t.ledger)
  {
    match l
    case Begin(fill) =>
      StartEvolves(cfg, s.pool, fill, s.debts.shutdowns);
      WorkAfterEvolution(s.pool, Start(cfg, s.pool, fill), s.ledger);
    case BeginFails(creations, _) =>
      StartFailsSafe(cfg, s.pool, creations, s.debts.shutdowns);
      WorkAfterClear(s.pool, StartFails(s.pool, creations), s.ledger);
    case StopBegins => WorkLike(s.pool, StopBegin(s.pool), s.ledger);
    case StopEnds => WorkAfterClear(s.pool, StopFinish(s.pool), s.ledger);
    case TryAcquire(w, id, seconds, wait, reading) => AcquireWork(cfg, s, w, id, seconds, wait, reading);
    case GiveUp(_) =>
    case ReleaseLease(id, keep, fill) =>
      ReleaseEvolves(cfg, s.pool, id, s.now, keep, fill, s.debts.shutdowns);
      WorkAfterEvolution(s.pool, Release(cfg, s.pool, id, s.now, keep, fill).pool, s.ledger);
    case SubmitWork(id, answer, atOnce, fill, keep, refill) =>
      SubmitWorkInv(cfg, s, id, answer, atOnce, fill, keep, refill);
    case WorkFinishes(f, broken) => FinishWork(s.pool, s.ledger, f, broken);
    case RunDoneCallback(f, keep, fill) =>
      CallbackWork(cfg, s.pool, s.ledger, f, s.now, keep, fill, s.debts.shutdowns);
    case ShutDown(e) => WorkLike(s.pool, PayShutdown(s, e).pool, s.ledger);
    case WakeWaiters =>
    case WakeChecker =>
    case RunCallback(_) =>
    case CheckerTick(revoke, fill, shrink) =>
      TickEvolves(cfg, s.pool, s.now, revoke, fill, shrink, s.debts.shutdowns);
      WorkAfterEvolution(s.pool, Tick(cfg, s.pool, s.now, revoke, fill, shrink), s.ledger);
    case NotifyScaleChanged =>
    case TimePasses(_) =>
  }
}
