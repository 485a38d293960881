/**
 What never changes back: how a state relates to any later one in a run.
 */
module PoolHistory {
  import opened Options
  import opened Sizing
  import opened Runs
  import opened PoolModel
  import opened PoolSafety
  import opened PoolEvolution
  import opened PoolSystem
  import opened PoolInvariant
  import opened PoolWakes

  /** Ids are issued once and for one executor; futures keep lease and executor. */
  ghost predicate LedgerGrows(g: Ledger, h: Ledger) {
    && (forall id :: id in g.issued ==> id in h.issued && h.issued[id] == g.issued[id])
    && (forall f :: f in g.work ==>
          && f in h.work && h.work[f].lease == g.work[f].lease && h.work[f].executor == g.work[f].executor
          && (g.work[f].done ==> h.work[f].done) && (g.work[f].called ==> h.work[f].called))
  }

  /** A lease that is held now and was issued before was held then, on the same terms; once
      asked to end it stays asked. */
  ghost predicate LeasesAge(p: Pool, issued: map<LeaseId, ExecId>, q: Pool) {
    forall id :: id in q.leased && id in issued ==>
      && id in p.leased && q.leased[id].HardExpiresAt() == p.leased[id].HardExpiresAt()
      && (p.leased[id].releaseRequested ==> q.leased[id].releaseRequested)
  }

  ghost predicate Later(s: Sys, t: Sys) {
    && s.now <= t.now
    && s.pool.created <= t.pool.created
    && s.pool.shutdowns <= t.pool.shutdowns
    && RetiredStay(s.pool, t.pool)
    && LedgerGrows(s.ledger, t.ledger)
    && LeasesAge(s.pool, s.ledger.issued, t.pool)
  }

  lemma LaterIsTransitive(s: Sys, t: Sys, u: Sys)
    requires Later(s, t) && Later(t, u)
    ensures Later(s, u)
  {
  }

  lemma LedgerStep(cfg: Config, s: Sys, l: Label)
    requires cfg.Valid() && Enabled(cfg, s, l)
    ensures LedgerGrows(s.ledger, Apply(cfg, s, l).ledger) && s.now <= Apply(cfg, s, l).now
  {
  }

  // ------------------------------------------------------------------------------
  // Shutdown calls are never taken back
  // ------------------------------------------------------------------------------

  lemma {:induction false} FillKeepsBooks(p: Pool, target: nat)
    ensures EnsureMinimum(p, target).shutdowns == p.shutdowns && p.created <= EnsureMinimum(p, target).created
    decreases target - p.Total()
  {
    if p.Total() >= target {
    } else {
      FillKeepsBooks(Grow(p), target);
    }
  }

  lemma {:induction false} ShrinkKeepsBooks(p: Pool, target: nat)
    ensures p.shutdowns <= ShrinkIdle(p, target).shutdowns && p.created <= ShrinkIdle(p, target).created
    decreases |p.available|
  {
    if p.available == [] || p.Total() <= target {
    } else {
      var n := |p.available| - 1;
      ShrinkKeepsBooks(p.(available := p.available[..n], shutdowns := p.shutdowns + multiset{p.available[n]}), target);
    }
  }

  ghost predicate BooksGrow(p: Pool, q: Pool) {
    p.shutdowns <= q.shutdowns && p.created <= q.created
  }

  lemma RevokeBooks(cfg: Config, p: Pool, now: real, reading: Reading)
    requires cfg.Valid()
    ensures BooksGrow(p, Revoke(cfg, p, now, reading))
  {
    FillKeepsBooks(Drop(p, ExpiredIds(p.leased, now)), cfg.Desired(reading));
  }

  lemma TickBooks(cfg: Config, p: Pool, now: real, revoke: Reading, fill: Reading, shrink: Reading)
    requires cfg.Valid()
    ensures BooksGrow(p, Tick(cfg, p, now, revoke, fill, shrink))
  {
    RevokeBooks(cfg, p, now, revoke);
    var r := Revoke(cfg, p, now, revoke);
    FillKeepsBooks(r, cfg.Desired(fill));
    ShrinkKeepsBooks(EnsureMinimum(r, cfg.Desired(fill)), cfg.Desired(shrink));
  }

  lemma AcquireBooks(cfg: Config, p: Pool, now: real, id: LeaseId, seconds: real, reading: Reading)
    requires cfg.Valid()
    ensures BooksGrow(p, Acquire(cfg, p, now, id, seconds, reading).0)
  {
    hide Revoke;
    RevokeBooks(cfg, p, now, reading);
  }

  lemma FinalizeBooks(cfg: Config, p: Pool, id: LeaseId, now: real, keep: Reading, fill: Reading)
    requires cfg.Valid() && id in p.leased
    ensures BooksGrow(p, Finalize(cfg, p, id, now, keep, fill).pool)
    ensures BooksGrow(p, Retire(cfg, p, id, fill).pool)
  {
    var q := p.(leased := p.leased - {id});
    FillKeepsBooks(q, cfg.Desired(fill));
    FillKeepsBooks(q.(available := q.available + [p.leased[id].executor]), cfg.Desired(fill));
  }

  lemma ReleaseBooks(cfg: Config, p: Pool, id: LeaseId, now: real, keep: Reading, fill: Reading)
    requires cfg.Valid()
    ensures BooksGrow(p, Release(cfg, p, id, now, keep, fill).pool)
  {
    if id in p.leased {
      FinalizeBooks(cfg, p.(leased := p.leased[id := p.leased[id].(releaseRequested := true)]), id, now, keep, fill);
    }
  }

  lemma SubmitBooks(cfg: Config, p: Pool, id: LeaseId, now: real, answer: Answer, fill: Reading)
    requires cfg.Valid()
    ensures BooksGrow(p, Submit(cfg, p, id, now, answer, fill).0.pool)
  {
    if id in p.leased {
      FinalizeBooks(cfg, p, id, now, fill, fill);
    }
  }

  lemma DoneBooks(cfg: Config, p: Pool, id: LeaseId, f: FutureId, broken: bool, now: real, keep: Reading, fill: Reading)
    requires cfg.Valid()
    ensures BooksGrow(p, FutureDone(cfg, p, id, f, broken, now, keep, fill).pool)
  {
    if id in p.leased {
      var rec := p.leased[id].(pending := p.leased[id].pending - {f});
      FinalizeBooks(cfg, p.(leased := p.leased[id := rec]), id, now, keep, fill);
    }
  }

  lemma ClearBooks(p: Pool)
    ensures BooksGrow(p, Clear(p))
  {
    forall e: ExecId ensures p.shutdowns[e] <= Clear(p).shutdowns[e] {
    }
  }

  lemma StartFailsBooks(p: Pool, creations: nat)
    ensures BooksGrow(p, StartFails(p, creations))
  {
    hide EnsureMinimum, Clear;
    var q := EnsureMinimum(p.(stopping := false), p.Total() + creations);
    FillKeepsBooks(p.(stopping := false), p.Total() + creations);
    ClearBooks(q.(executorSeq := q.executorSeq + 1));
  }

  /** What has been shut down or is owed a shutdown only grows. */
  ghost predicate AccountGrows(s: Sys, t: Sys) {
    && BooksGrow(s.pool, t.pool)
    && forall e: ExecId :: s.pool.shutdowns[e] + s.debts.shutdowns[e] <= t.pool.shutdowns[e] + t.debts.shutdowns[e]
  }

  lemma SubmitAccount(cfg: Config, s: Sys, id: LeaseId, answer: Answer, atOnce: Option<bool>,
                      fill: Reading, keep: Reading, refill: Reading)
    requires cfg.Valid()
    ensures AccountGrows(s, SubmitStep(cfg, s, id, answer, atOnce, fill, keep, refill))
  {
    hide FutureDone;
    var (o, reply) := Submit(cfg, s.pool, id, s.now, answer, fill);
    SubmitBooks(cfg, s.pool, id, s.now, answer, fill);
    if reply.Submitted? && atOnce.Some? {
      DoneBooks(cfg, o.pool, id, reply.future, atOnce == Some(true), s.now, keep, refill);
    }
  }

  lemma AcquireAccount(cfg: Config, s: Sys, w: WaiterId, id: LeaseId, seconds: real, wait: bool, reading: Reading)
    requires cfg.Valid()
    ensures AccountGrows(s, AcquireStep(cfg, s, w, id, seconds, wait, reading))
  {
    hide Acquire;
    AcquireBooks(cfg, s.pool, s.now, id, seconds, reading);
    var q := Acquire(cfg, s.pool, s.now, id, seconds, reading).0;
    var t := AcquireStep(cfg, s, w, id, seconds, wait, reading);
    assert t.debts == s.debts && (t.pool == s.pool || t.pool == q);
  }

  lemma AccountStep(cfg: Config, s: Sys, l: Label)
    requires cfg.Valid() && Enabled(cfg, s, l)
    ensures AccountGrows(s, Apply(cfg, s, l))
  {
    hide Finalize, Release, FutureDone, Submit, Acquire, Tick, StartFails;
    if LoopOnly(l) {
      LoopOnlyFrame(cfg, s, l);
    } else if l.Begin? {
      FillKeepsBooks(s.pool.(stopping := false), cfg.Desired(l.fill));
    } else if l.BeginFails? {
      StartFailsBooks(s.pool, l.creations);
    } else if l.TryAcquire? {
      AcquireAccount(cfg, s, l.waiter, l.id, l.seconds, l.wait, l.reading);
    } else if l.ReleaseLease? {
      ReleaseBooks(cfg, s.pool, l.id, s.now, l.keep, l.fill);
    } else if l.SubmitWork? {
      SubmitAccount(cfg, s, l.id, l.answer, l.atOnce, l.fill, l.keep, l.refill);
    } else if l.RunDoneCallback? {
      var k := s.ledger.work[l.f];
      DoneBooks(cfg, s.pool, k.lease, l.f, k.broken, s.now, l.keep, l.fill);
    } else if l.CheckerTick? {
      TickBooks(cfg, s.pool, s.now, l.revoke, l.fill, l.shrink);
    }
  }

  /** So retirement is for good. */
  lemma RetiredForGood(cfg: Config, s: Sys, t: Sys)
    requires Solvent(cfg, s.pool, s.debts.shutdowns) && Solvent(cfg, t.pool, t.debts.shutdowns) && AccountGrows(s, t)
    ensures RetiredStay(s.pool, t.pool)
  {
    hide PoolInv;
    forall e | s.pool.Retired(e) ensures t.pool.Retired(e) {
      assert s.pool.shutdowns[e] + s.debts.shutdowns[e] == 1;
      assert t.pool.shutdowns[e] + t.debts.shutdowns[e] >= 1;
    }
  }

  // ------------------------------------------------------------------------------
  // Leases only age
  // ------------------------------------------------------------------------------

  lemma LeasesStep(cfg: Config, s: Sys, l: Label)
    requires cfg.Valid() && Inv(cfg, s) && Enabled(cfg, s, l)
    ensures LeasesAge(s.pool, s.ledger.issued, Apply(cfg, s, l).pool)
  {
    hide Balanced, Exclusive, Lifecycle, WakeInv, ExpiryInv, PendingKnown, WorkKnown, Release, FutureDone, Submit, Tick,
         StartFails, Start;
    if LoopOnly(l) {
      LoopOnlyFrame(cfg, s, l);
    } else if l.ReleaseLease? || l.SubmitWork? || l.RunDoneCallback? {
      SectionTerms(cfg, s, l);
    } else if l.TryAcquire? {
      AcquireAges(cfg, s, l.waiter, l.id, l.seconds, l.wait, l.reading);
    } else if l.CheckerTick? {
      TickSafe(cfg, s.pool, s.now, l.revoke, l.fill, l.shrink, s.debts.shutdowns);
    } else if l.Begin? {
      StartSafe(cfg, s.pool, l.fill, s.debts.shutdowns);
    } else if l.BeginFails? {
      StartFailsSafe(cfg, s.pool, l.creations, s.debts.shutdowns);
    }
  }

  lemma AcquireAges(cfg: Config, s: Sys, w: WaiterId, id: LeaseId, seconds: real, wait: bool, reading: Reading)
    requires cfg.Valid() && Solvent(cfg, s.pool, s.debts.shutdowns) && id !in s.pool.leased && id !in s.ledger.issued
    ensures LeasesAge(s.pool, s.ledger.issued, AcquireStep(cfg, s, w, id, seconds, wait, reading).pool)
  {
    hide Balanced, Exclusive, Lifecycle, Acquire;
    AcquireEvolves(cfg, s.pool, s.now, id, seconds, reading, s.debts.shutdowns);
    var (q, a) := Acquire(cfg, s.pool, s.now, id, seconds, reading);
    assert AcquireStep(cfg, s, w, id, seconds, wait, reading).pool == (if a == NotStarted then s.pool else q);
  }

  lemma LaterStep(cfg: Config, s: Sys, l: Label)
    requires cfg.Valid() && Inv(cfg, s) && Enabled(cfg, s, l)
    ensures Later(s, Apply(cfg, s, l))
  {
    hide Apply, PoolInv, Balanced, WakeInv, ExpiryInv;
    InvStep(cfg, s, l);
    LedgerStep(cfg, s, l);
    AccountStep(cfg, s, l);
    RetiredForGood(cfg, s, Apply(cfg, s, l));
    LeasesStep(cfg, s, l);
  }

  /** The invariant holds, and the state is a later one, after every run. */
  lemma {:induction false} RunsAge(cfg: Config, s: Sys, run: seq<Label>)
    requires cfg.Valid() && Inv(cfg, s) && Legal(Next(cfg), s, run)
    ensures Inv(cfg, Exec(Next(cfg), s, run)) && Later(s, Exec(Next(cfg), s, run))
    decreases |run|
  {
    hide Apply, Inv, Enabled, Legal, Exec;
    Unfold(Next(cfg), s, run);
    if run == [] {
      LaterIsReflexive(cfg, s);
    } else {
      var t := Next(cfg)(s, run[0]).value;
      InvStep(cfg, s, run[0]);
      LaterStep(cfg, s, run[0]);
      RunsAge(cfg, t, run[1..]);
      LaterIsTransitive(s, t, Exec(Next(cfg), s, run));
    }
  }

  lemma LaterIsReflexive(cfg: Config, s: Sys)
    requires Inv(cfg, s)
    ensures Later(s, s)
  {
  }
}
