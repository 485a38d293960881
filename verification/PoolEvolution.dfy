/**
 What the sections do to history: no retired executor comes back, no surviving lease
 changes hands, and no lease with work pending gives its executor to anyone else.
 */
module PoolEvolution {
  import opened Sizing
  import opened PoolModel
  import opened PoolSafety

  /** What any section but a successful acquire does to history: retired executors stay
      retired, surviving leases keep executor and pending work, and a lease that goes
      either had no work pending or takes its executor into retirement. */
  ghost predicate Evolves(p: Pool, q: Pool) {
    && p.created <= q.created
    && RetiredStay(p, q)
    && (forall id :: id in q.leased ==>
          id in p.leased && q.leased[id].executor == p.leased[id].executor
            && q.leased[id].pending == p.leased[id].pending)
    && GoneSettled(p, q)
  }

  ghost predicate RetiredStay(p: Pool, q: Pool) {
    forall e :: p.Retired(e) ==> q.Retired(e)
  }

  ghost predicate GoneSettled(p: Pool, q: Pool) {
    forall id :: id in p.leased && id !in q.leased ==>
      p.leased[id].pending == {} || q.Retired(p.leased[id].executor)
  }

  lemma HeldSubset(a: map<LeaseId, Rec>, b: map<LeaseId, Rec>)
    requires forall id :: id in a ==> id in b && a[id].executor == b[id].executor
    ensures HeldBy(a) <= HeldBy(b)
  {
    forall e | e in HeldBy(a) ensures e in HeldBy(b) {
      var i :| i in a && a[i].executor == e;
      assert i in b && b[i].executor == e;
    }
  }

  lemma FewerLeasesEvolve(cfg: Config, p: Pool, q: Pool)
    requires Exclusive(cfg, p) && p.created <= q.created && OnlyFreshIdle(p, q)
    requires forall id :: id in q.leased ==> id in p.leased && q.leased[id] == p.leased[id]
    ensures Evolves(p, q)
  {
    HeldSubset(q.leased, p.leased);
    forall id | id in p.leased && id !in q.leased ensures p.leased[id].executor !in q.Held() {
      assert forall i :: i in q.leased ==> q.leased[i].executor != p.leased[id].executor;
    }
  }

  /** Giving an executor back to the idle queue, for a lease with nothing pending. */
  lemma ReturnEvolves(cfg: Config, p: Pool, q: Pool, id: LeaseId)
    requires Exclusive(cfg, p) && id in p.leased && q.leased == p.leased - {id} && p.created <= q.created
    requires forall e :: e in q.available ==> e in p.available || e == p.leased[id].executor || e !in p.created
    requires p.leased[id].pending == {}
    ensures Evolves(p, q)
  {
    HeldSubset(q.leased, p.leased);
    assert p.leased[id].executor in p.Held();
  }

  /** Bookkeeping that leaves executor and pending work of a lease alone. */
  lemma SameHandsEvolve(p: Pool, q: Pool, r: Pool, id: LeaseId, rec: Rec)
    requires id in p.leased && rec.executor == p.leased[id].executor && rec.pending == p.leased[id].pending
    requires q == p.(leased := p.leased[id := rec]) && Evolves(q, r)
    ensures Evolves(p, r)
  {
    HeldSubset(q.leased, p.leased);
    HeldSubset(p.leased, q.leased);
    assert forall e :: q.Retired(e) <==> p.Retired(e);
  }

  lemma RevokeEvolves(cfg: Config, p: Pool, now: real, reading: Reading, owed: multiset<ExecId>)
    requires cfg.Valid() && PoolInv(cfg, p) && p.started && Balanced(p, owed)
    ensures Evolves(p, Revoke(cfg, p, now, reading))
  {
    RevokeSafe(cfg, p, now, reading, owed);
    FewerLeasesEvolve(cfg, p, Revoke(cfg, p, now, reading));
  }

  lemma RetireEvolves(cfg: Config, p: Pool, id: LeaseId, fill: Reading, owed: multiset<ExecId>)
    requires cfg.Valid() && Exclusive(cfg, p) && Balanced(p, owed) && id in p.leased
    ensures Evolves(p, Retire(cfg, p, id, fill).pool)
  {
    RetireSafe(cfg, p, id, fill, owed);
    FewerLeasesEvolve(cfg, p, Retire(cfg, p, id, fill).pool);
  }

  lemma FinalizeEvolves(cfg: Config, p: Pool, id: LeaseId, now: real, keep: Reading, fill: Reading,
                        owed: multiset<ExecId>)
    requires cfg.Valid() && Exclusive(cfg, p) && Balanced(p, owed) && id in p.leased && p.leased[id].pending == {}
    ensures Evolves(p, Finalize(cfg, p, id, now, keep, fill).pool)
  {
    FinalizeSafe(cfg, p, id, now, keep, fill, owed);
    ReturnEvolves(cfg, p, Finalize(cfg, p, id, now, keep, fill).pool, id);
  }

  lemma ReleaseEvolves(cfg: Config, p: Pool, id: LeaseId, now: real, keep: Reading, fill: Reading,
                       owed: multiset<ExecId>)
    requires cfg.Valid() && PoolInv(cfg, p) && Balanced(p, owed)
    ensures Evolves(p, Release(cfg, p, id, now, keep, fill).pool)
  {
    if id in p.leased {
      var rec := p.leased[id].(releaseRequested := true);
      var q := p.(leased := p.leased[id := rec]);
      UpdateSafe(cfg, p, id, rec, owed);
      if p.leased[id].pending == {} {
        FinalizeEvolves(cfg, q, id, now, keep, fill, owed);
      }
      SameHandsEvolve(p, q, Release(cfg, p, id, now, keep, fill).pool, id, rec);
    }
  }

  lemma TickEvolves(cfg: Config, p: Pool, now: real, revoke: Reading, fill: Reading, shrink: Reading,
                    owed: multiset<ExecId>)
    requires cfg.Valid() && PoolInv(cfg, p) && p.started && Balanced(p, owed)
    ensures Evolves(p, Tick(cfg, p, now, revoke, fill, shrink))
  {
    TickSafe(cfg, p, now, revoke, fill, shrink, owed);
    FewerLeasesEvolve(cfg, p, Tick(cfg, p, now, revoke, fill, shrink));
  }

  lemma StartEvolves(cfg: Config, p: Pool, fill: Reading, owed: multiset<ExecId>)
    requires cfg.Valid() && PoolInv(cfg, p) && !p.started && Balanced(p, owed)
    ensures Evolves(p, Start(cfg, p, fill))
  {
    StartSafe(cfg, p, fill, owed);
    FewerLeasesEvolve(cfg, p, Start(cfg, p, fill));
  }

  /** A successful acquire leases an executor that was idle or is new; for the rest the
      pool evolves. */
  ghost predicate Leases(p: Pool, q: Pool, id: LeaseId) {
    && id in q.leased && q.leased[id].pending == {} && q.leased[id].executor in q.created
    && (q.leased[id].executor in p.available || q.leased[id].executor !in p.created)
    && p.created <= q.created
    && RetiredStay(p, q)
    && (forall i :: i in q.leased && i != id ==> i in p.leased && q.leased[i] == p.leased[i])
    && GoneSettled(p, q)
  }

  lemma LeaseIsEvolution(r: Pool, q: Pool, id: LeaseId, rec: Rec)
    requires id !in r.leased && rec.pending == {} && rec.executor in q.created
    requires rec.executor in r.available || rec.executor !in r.created
    requires q.leased == r.leased[id := rec] && r.created <= q.created && OnlyFreshIdle(r, q)
    ensures Leases(r, q, id)
  {
    forall e | e in q.Held() ensures e in r.Held() || e == rec.executor {
      var i :| i in q.leased && q.leased[i].executor == e;
      assert i == id || (i in r.leased && r.leased[i].executor == e);
    }
  }

  lemma LeaseAfterEvolution(p: Pool, r: Pool, q: Pool, id: LeaseId)
    requires Evolves(p, r) && OnlyFreshIdle(p, r) && Leases(r, q, id) && id !in p.leased
    requires forall i :: i in r.leased ==> r.leased[i] == p.leased[i]
    ensures Leases(p, q, id)
  {
    forall i | i in p.leased && i !in q.leased
      ensures p.leased[i].pending == {} || q.Retired(p.leased[i].executor)
    {
      if i in r.leased {
        assert r.leased[i] == p.leased[i];
      } else {
        assert p.leased[i].pending == {} || r.Retired(p.leased[i].executor);
      }
    }
  }

  lemma AcquireEvolves(cfg: Config, p: Pool, now: real, id: LeaseId, seconds: real, reading: Reading,
                       owed: multiset<ExecId>)
    requires cfg.Valid() && PoolInv(cfg, p) && Balanced(p, owed) && id !in p.leased
    ensures var (q, a) := Acquire(cfg, p, now, id, seconds, reading);
            (a == Leased ==> Leases(p, q, id)) && (a != Leased ==> q == p)
  {
    if p.started && !p.stopping {
      RevokeSafe(cfg, p, now, reading, owed);
      RevokeEvolves(cfg, p, now, reading, owed);
      var r := Revoke(cfg, p, now, reading);
      TakeSafe(cfg, r, owed);
      var (q, o) := TakeOrCreate(cfg, r);
      if o.Some? {
        var rec := Rec(o.value, now, seconds, cfg.graceSeconds, {}, false, false);
        var q' := q.(leased := q.leased[id := rec]);
        LeaseIsEvolution(r, q', id, rec);
        LeaseAfterEvolution(p, r, q', id);
      } else {
        SizeOfDifference(p.leased, ExpiredIds(p.leased, now));
        assert ExpiredIds(p.leased, now) == {};
      }
    }
  }
}
