/**
 Every section keeps the pool's invariant and its account of retired executors:
 nothing is leased twice, nothing is shut down twice, nothing is forgotten.
 */
module PoolSafety {
  import opened Options
  import opened Sizing
  import opened PoolModel

  ghost predicate SameMode(p: Pool, q: Pool) {
    q.started == p.started && q.stopping == p.stopping
  }

  /** Idle executors are old idle ones or new. */
  ghost predicate OnlyFreshIdle(p: Pool, q: Pool) {
    forall e :: e in q.available ==> e in p.available || e !in p.created
  }

  lemma GrowSafe(cfg: Config, p: Pool, owed: multiset<ExecId>)
    requires Exclusive(cfg, p) && p.Total() < cfg.maxPools && Balanced(p, owed)
    ensures Exclusive(cfg, Grow(p)) && Balanced(Grow(p), owed)
    ensures Grow(p).leased == p.leased && Grow(p).Total() == p.Total() + 1
  {
    var q := Grow(p);
    assert forall e :: e in q.available <==> e in p.available || e == q.executorSeq;
    assert q.Held() == p.Held();
    forall e: ExecId ensures q.shutdowns[e] + owed[e] == if q.Retired(e) then 1 else 0 {
      assert q.Retired(e) <==> p.Retired(e);
    }
  }

  /** Filling up to a target: leases untouched, older idle executors still first in line. */
  lemma {:induction false} EnsureMinimumSafe(cfg: Config, p: Pool, target: nat, owed: multiset<ExecId>)
    requires Exclusive(cfg, p) && target <= cfg.maxPools && Balanced(p, owed)
    ensures var q := EnsureMinimum(p, target);
            && Exclusive(cfg, q) && Balanced(q, owed)
            && q.leased == p.leased && q.started == p.started && q.stopping == p.stopping
            && q.Total() == Max(p.Total(), target)
            && p.available <= q.available && p.created <= q.created && OnlyFreshIdle(p, q)
    decreases target - p.Total()
  {
    if p.Total() >= target {
    } else {
      GrowSafe(cfg, p, owed);
      EnsureMinimumSafe(cfg, Grow(p), target, owed);
    }
  }

  lemma DropLastIdle(cfg: Config, p: Pool, owed: multiset<ExecId>)
    requires Exclusive(cfg, p) && p.available != [] && Balanced(p, owed)
    ensures var n := |p.available| - 1;
            var q := p.(available := p.available[..n], shutdowns := p.shutdowns + multiset{p.available[n]});
            Exclusive(cfg, q) && Balanced(q, owed)
  {
    var n := |p.available| - 1;
    var q := p.(available := p.available[..n], shutdowns := p.shutdowns + multiset{p.available[n]});
    assert q.Held() == p.Held();
    assert forall e :: e in p.available <==> e in q.available || e == p.available[n];
    assert p.available[n] !in q.available;
    forall e: ExecId ensures q.shutdowns[e] + owed[e] == if q.Retired(e) then 1 else 0 {
      assert q.Retired(e) <==> p.Retired(e) || e == p.available[n];
    }
  }

  lemma {:induction false} ShrinkIdleSafe(cfg: Config, p: Pool, target: nat, owed: multiset<ExecId>)
    requires Exclusive(cfg, p) && Balanced(p, owed)
    ensures var q := ShrinkIdle(p, target);
            && Exclusive(cfg, q) && Balanced(q, owed)
            && q.leased == p.leased && q.started == p.started && q.stopping == p.stopping
            && q.Total() == Max(|p.leased|, Min(p.Total(), target))
            && q.available <= p.available && q.created == p.created
    decreases |p.available|
  {
    hide Balanced, Exclusive;
    if p.available == [] || p.Total() <= target {
    } else {
      var n := |p.available| - 1;
      DropLastIdle(cfg, p, owed);
      ShrinkIdleSafe(cfg, p.(available := p.available[..n], shutdowns := p.shutdowns + multiset{p.available[n]}),
                     target, owed);
    }
  }

  lemma SizeOfDifference<K, V>(m: map<K, V>, gone: set<K>)
    requires gone <= m.Keys
    ensures |m - gone| == |m| - |gone|
  {
    assert (m - gone).Keys == m.Keys - gone;
    assert |m.Keys| == |m.Keys - gone| + |gone| by { assert m.Keys == (m.Keys - gone) + gone; }
    assert |(m - gone).Keys| == |m - gone| && |m.Keys| == |m|;
  }

  /** Taking leases away, their executors being handed over for shutdown. */
  lemma DropSafe(cfg: Config, p: Pool, gone: set<LeaseId>, owed: multiset<ExecId>)
    requires Exclusive(cfg, p) && gone <= p.leased.Keys && Balanced(p, owed)
    ensures var q := p.(leased := p.leased - gone);
            Exclusive(cfg, q) && Balanced(q, owed + multiset(ExecutorsOf(p.leased, gone)))
            && q.Total() == p.Total() - |gone|
  {
    var q := p.(leased := p.leased - gone);
    SizeOfDifference(p.leased, gone);
    var out := ExecutorsOf(p.leased, gone);
    var owed': multiset<ExecId> := owed + multiset(out);
    forall e: ExecId
      ensures q.shutdowns[e] + owed'[e] == if q.Retired(e) then 1 else 0
    {
      if e in p.Held() {
        var i :| i in p.leased && p.leased[i].executor == e;
        assert if i in gone then e in out else i in q.leased && q.leased[i].executor == e;
      }
      if e in out { assert e in p.Held(); }
    }
  }

  lemma OneExecutor(leased: map<LeaseId, Rec>, id: LeaseId)
    requires id in leased
    ensures ExecutorsOf(leased, {id}) == {leased[id].executor}
    ensures multiset(ExecutorsOf(leased, {id})) == Owed(Some(leased[id].executor))
  {
    assert multiset({leased[id].executor}) == multiset{leased[id].executor};
  }

  /** The executors owed by the outside may as well have been shut down inside. */
  lemma Settle(p: Pool, paid: multiset<ExecId>, owed: multiset<ExecId>)
    requires Balanced(p, owed + paid)
    ensures Balanced(p.(shutdowns := p.shutdowns + paid), owed)
  {
    var q := p.(shutdowns := p.shutdowns + paid);
    forall e: ExecId ensures q.shutdowns[e] + owed[e] == if q.Retired(e) then 1 else 0 {
      assert q.Retired(e) <==> p.Retired(e);
      assert p.shutdowns[e] + (owed + paid)[e] == if p.Retired(e) then 1 else 0;
    }
  }

  lemma DropInside(cfg: Config, p: Pool, gone: set<LeaseId>, owed: multiset<ExecId>)
    requires Exclusive(cfg, p) && gone <= p.leased.Keys && Balanced(p, owed)
    ensures Exclusive(cfg, Drop(p, gone)) && Balanced(Drop(p, gone), owed)
            && Drop(p, gone).Total() == p.Total() - |gone|
  {
    var q := p.(leased := p.leased - gone);
    DropSafe(cfg, p, gone, owed);
    Settle(q, multiset(ExecutorsOf(p.leased, gone)), owed);
    assert Drop(p, gone).Held() == q.Held();
  }

  lemma RevokeSafe(cfg: Config, p: Pool, now: real, reading: Reading, owed: multiset<ExecId>)
    requires cfg.Valid() && PoolInv(cfg, p) && p.started && Balanced(p, owed)
    ensures var q := Revoke(cfg, p, now, reading);
            && PoolInv(cfg, q) && Balanced(q, owed)
            && q.started == p.started && q.stopping == p.stopping && p.created <= q.created
            && q.leased == p.leased - ExpiredIds(p.leased, now) && OnlyFreshIdle(p, q)
  {
    hide Balanced, Exclusive, EnsureMinimum;
    var gone := ExpiredIds(p.leased, now);
    if gone == {} {
      assert p.leased - gone == p.leased;
    } else {
      DropInside(cfg, p, gone, owed);
      EnsureMinimumSafe(cfg, Drop(p, gone), cfg.Desired(reading), owed);
    }
  }

  /** Leasing an executor that is in neither place. */
  lemma LeaseSafe(cfg: Config, p: Pool, id: LeaseId, rec: Rec, owed: multiset<ExecId>)
    requires PoolInv(cfg, p) && p.started && p.Total() < cfg.maxPools && id !in p.leased
    requires p.Retired(rec.executor) && !rec.broken && !rec.releaseRequested
    requires Balanced(p, owed + multiset{rec.executor})
    ensures var q := p.(leased := p.leased[id := rec]); PoolInv(cfg, q) && Balanced(q, owed)
  {
    var q := p.(leased := p.leased[id := rec]);
    forall e: ExecId ensures q.shutdowns[e] + owed[e] == if q.Retired(e) then 1 else 0 {
      assert e in q.Held() <==> e in p.Held() || e == rec.executor by {
        if e in q.Held() {
          var i :| i in q.leased && q.leased[i].executor == e;
          assert i == id || (i in p.leased && p.leased[i].executor == e);
        }
        if e in p.Held() {
          var i :| i in p.leased && p.leased[i].executor == e;
          assert i in q.leased && q.leased[i].executor == e;
        }
        assert q.leased[id].executor == rec.executor;
      }
      assert p.shutdowns[e] + (owed + multiset{rec.executor})[e] == if p.Retired(e) then 1 else 0;
    }
    forall i | i in p.leased ensures p.leased[i].executor != rec.executor {
      assert p.leased[i].executor in p.Held();
    }
  }

  /** What was taken is an executor no one owns; the books are short by just that one. */
  lemma TakeSafe(cfg: Config, p: Pool, owed: multiset<ExecId>)
    requires PoolInv(cfg, p) && p.started && Balanced(p, owed)
    ensures var (q, o) := TakeOrCreate(cfg, p);
            && PoolInv(cfg, q) && q.leased == p.leased && q.started == p.started && q.stopping == p.stopping
            && p.created <= q.created
            && OnlyFreshIdle(p, q) && (o.None? ==> q == p && p.Total() == cfg.maxPools && p.available == [])
            && (o.Some? ==> o.value in p.available || o.value !in p.created)
            && (o.Some? ==>
                  q.Total() < cfg.maxPools && q.Retired(o.value) && Balanced(q, owed + multiset{o.value}))
  {
    var (q, o) := TakeOrCreate(cfg, p);
    assert q.Held() == p.Held();
    if o.Some? {
      if p.available != [] {
        assert forall e :: e in p.available <==> e in q.available || e == o.value;
        assert o.value !in q.available;
      }
      assert o.value !in p.Held();
      assert q.Retired(o.value);
      forall e: ExecId
        ensures q.shutdowns[e] + (owed + multiset{o.value})[e] == if q.Retired(e) then 1 else 0
      {
        assert q.Retired(e) <==> p.Retired(e) || e == o.value;
        assert p.shutdowns[e] + owed[e] == if p.Retired(e) then 1 else 0;
      }
    }
  }

  lemma AcquireSafe(cfg: Config, p: Pool, now: real, id: LeaseId, seconds: real, reading: Reading,
                    owed: multiset<ExecId>)
    requires cfg.Valid() && PoolInv(cfg, p) && Balanced(p, owed) && id !in p.leased
    ensures var (q, a) := Acquire(cfg, p, now, id, seconds, reading);
            && PoolInv(cfg, q) && Balanced(q, owed) && p.created <= q.created
            && q.started == p.started && q.stopping == p.stopping
            && (a == Leased ==> id in q.leased)
  {
    if p.started && !p.stopping {
      RevokeSafe(cfg, p, now, reading, owed);
      var r := Revoke(cfg, p, now, reading);
      TakeSafe(cfg, r, owed);
      var (q, o) := TakeOrCreate(cfg, r);
      if o.Some? {
        LeaseSafe(cfg, q, id, Rec(o.value, now, seconds, cfg.graceSeconds, {}, false, false), owed);
      }
    }
  }

  /** Changing the bookkeeping of a record, not its executor. */
  lemma UpdateSafe(cfg: Config, p: Pool, id: LeaseId, rec: Rec, owed: multiset<ExecId>)
    requires Exclusive(cfg, p) && Balanced(p, owed) && id in p.leased && rec.executor == p.leased[id].executor
    ensures var q := p.(leased := p.leased[id := rec]);
            Exclusive(cfg, q) && Balanced(q, owed) && q.Held() == p.Held() && q.Total() == p.Total()
  {
    var q := p.(leased := p.leased[id := rec]);
    assert q.leased.Keys == p.leased.Keys;
    assert |q.leased| == |q.leased.Keys| == |p.leased.Keys| == |p.leased|;
    assert forall i :: i in p.leased ==> q.leased[i].executor == p.leased[i].executor;
    assert q.Held() == p.Held() by {
      forall e ensures e in q.Held() <==> e in p.Held() {
        if e in p.Held() {
          var i :| i in p.leased && p.leased[i].executor == e;
          assert i in q.leased && q.leased[i].executor == e;
        }
      }
    }
  }

  lemma RetireSafe(cfg: Config, p: Pool, id: LeaseId, fill: Reading, owed: multiset<ExecId>)
    requires cfg.Valid() && Exclusive(cfg, p) && Balanced(p, owed) && id in p.leased
    ensures var o := Retire(cfg, p, id, fill);
            && Exclusive(cfg, o.pool) && Balanced(o.pool, owed + Owed(o.toShutdown))
            && o.pool.leased == p.leased - {id} && o.pool.started == p.started && o.pool.stopping == p.stopping
            && o.pool.Total() == Max(p.Total() - 1, cfg.Desired(fill))
            && p.created <= o.pool.created && OnlyFreshIdle(p, o.pool)
  {
    DropSafe(cfg, p, {id}, owed);
    OneExecutor(p.leased, id);
    EnsureMinimumSafe(cfg, p.(leased := p.leased - {id}), cfg.Desired(fill),
                      owed + Owed(Some(p.leased[id].executor)));
  }

  /** Putting an executor that is in neither place at the end of the idle queue. */
  lemma ReturnSafe(cfg: Config, p: Pool, e: ExecId, owed: multiset<ExecId>)
    requires Exclusive(cfg, p) && p.Total() < cfg.maxPools && p.Retired(e) && Balanced(p, owed + multiset{e})
    ensures var q := p.(available := p.available + [e]); Exclusive(cfg, q) && Balanced(q, owed)
  {
    var q := p.(available := p.available + [e]);
    assert q.Held() == p.Held();
    assert forall x :: x in q.available <==> x in p.available || x == e;
    forall i | i in p.leased ensures p.leased[i].executor != e {
      assert p.leased[i].executor in p.Held();
    }
    forall x: ExecId ensures q.shutdowns[x] + owed[x] == if q.Retired(x) then 1 else 0 {
      assert q.Retired(x) <==> p.Retired(x) && x != e;
      assert p.shutdowns[x] + (owed + multiset{e})[x] == if p.Retired(x) then 1 else 0;
    }
  }

  lemma FinalizeSafe(cfg: Config, p: Pool, id: LeaseId, now: real, keep: Reading, fill: Reading,
                     owed: multiset<ExecId>)
    requires cfg.Valid() && Exclusive(cfg, p) && Balanced(p, owed) && id in p.leased
    ensures var o := Finalize(cfg, p, id, now, keep, fill);
            && Exclusive(cfg, o.pool) && Balanced(o.pool, owed + Owed(o.toShutdown))
            && o.pool.leased == p.leased - {id} && o.pool.started == p.started && o.pool.stopping == p.stopping
            && o.pool.Total() == Max(if Keeps(cfg, p, id, now, keep) then p.Total() else p.Total() - 1,
                                     cfg.Desired(fill))
            && p.created <= o.pool.created
            && (forall e :: e in o.pool.available ==> e in p.available || e == p.leased[id].executor || e !in p.created)
  {
    var e := p.leased[id].executor;
    var q := p.(leased := p.leased - {id}, available := p.available + [p.leased[id].executor]);
    if Keeps(cfg, p, id, now, keep) {
      MoveToIdleSafe(cfg, p, id, owed);
      EnsureMinimumSafe(cfg, q, cfg.Desired(fill), owed);
      assert owed + Owed(None) == owed;
    } else {
      RetireSafe(cfg, p, id, fill, owed);
    }
  }

  lemma MoveToIdleSafe(cfg: Config, p: Pool, id: LeaseId, owed: multiset<ExecId>)
    requires Exclusive(cfg, p) && Balanced(p, owed) && id in p.leased
    ensures var q := p.(leased := p.leased - {id}, available := p.available + [p.leased[id].executor]);
            Exclusive(cfg, q) && Balanced(q, owed) && q.Total() == p.Total()
  {
    var e := p.leased[id].executor;
    var q := p.(leased := p.leased - {id});
    DropSafe(cfg, p, {id}, owed);
    OneExecutor(p.leased, id);
    assert e !in q.Held();
    ReturnSafe(cfg, q, e, owed);
  }

  lemma ReleaseSafe(cfg: Config, p: Pool, id: LeaseId, now: real, keep: Reading, fill: Reading,
                    owed: multiset<ExecId>)
    requires cfg.Valid() && PoolInv(cfg, p) && Balanced(p, owed)
    ensures var o := Release(cfg, p, id, now, keep, fill);
            && PoolInv(cfg, o.pool) && Balanced(o.pool, owed + Owed(o.toShutdown)) && SameMode(p, o.pool)
  {
    hide Balanced, Exclusive, Finalize;
    assert owed + Owed(None) == owed;
    if id in p.leased {
      var rec := p.leased[id].(releaseRequested := true);
      UpdateSafe(cfg, p, id, rec, owed);
      if p.leased[id].pending == {} {
        FinalizeSafe(cfg, p.(leased := p.leased[id := rec]), id, now, keep, fill, owed);
      }
    }
  }

  lemma AcceptSafe(cfg: Config, p: Pool, id: LeaseId, f: FutureId, owed: multiset<ExecId>)
    requires PoolInv(cfg, p) && Balanced(p, owed) && id in p.leased
    ensures var q := p.(leased := p.leased[id := p.leased[id].(pending := p.leased[id].pending + {f})]);
            PoolInv(cfg, q) && Balanced(q, owed)
  {
    hide Balanced, Exclusive;
    UpdateSafe(cfg, p, id, p.leased[id].(pending := p.leased[id].pending + {f}), owed);
  }

  lemma RetireSafely(cfg: Config, p: Pool, id: LeaseId, fill: Reading, owed: multiset<ExecId>)
    requires cfg.Valid() && PoolInv(cfg, p) && Balanced(p, owed) && id in p.leased
    ensures var o := Retire(cfg, p, id, fill);
            PoolInv(cfg, o.pool) && Balanced(o.pool, owed + Owed(o.toShutdown)) && SameMode(p, o.pool)
  {
    hide Balanced, Exclusive, Retire;
    RetireSafe(cfg, p, id, fill, owed);
  }

  lemma SubmitSafe(cfg: Config, p: Pool, id: LeaseId, now: real, answer: Answer, fill: Reading,
                   owed: multiset<ExecId>)
    requires cfg.Valid() && PoolInv(cfg, p) && Balanced(p, owed)
    ensures var (o, _) := Submit(cfg, p, id, now, answer, fill);
            && PoolInv(cfg, o.pool) && Balanced(o.pool, owed + Owed(o.toShutdown)) && SameMode(p, o.pool)
  {
    hide Balanced, PoolInv;
    var (o, reply) := Submit(cfg, p, id, now, answer, fill);
    if o.ended {
      RetireSafely(cfg, p, id, fill, owed);
    } else {
      assert owed + Owed(None) == owed;
      if reply.Submitted? {
        AcceptSafe(cfg, p, id, answer.future, owed);
      }
    }
  }

  lemma FutureDoneSafe(cfg: Config, p: Pool, id: LeaseId, f: FutureId, broken: bool, now: real,
                       keep: Reading, fill: Reading, owed: multiset<ExecId>)
    requires cfg.Valid() && PoolInv(cfg, p) && Balanced(p, owed)
    ensures var o := FutureDone(cfg, p, id, f, broken, now, keep, fill);
            && PoolInv(cfg, o.pool) && Balanced(o.pool, owed + Owed(o.toShutdown)) && SameMode(p, o.pool)
  {
    hide Balanced, Exclusive, Retire, Finalize;
    assert owed + Owed(None) == owed;
    if id in p.leased {
      var rec := p.leased[id].(pending := p.leased[id].pending - {f});
      var q := p.(leased := p.leased[id := rec]);
      UpdateSafe(cfg, p, id, rec, owed);
      if broken {
        RetireSafe(cfg, q, id, fill, owed);
        RestKeepsLifecycle(p, id, rec, Retire(cfg, q, id, fill).pool);
      } else if rec.releaseRequested && rec.pending == {} {
        FinalizeSafe(cfg, q, id, now, keep, fill, owed);
        RestKeepsLifecycle(p, id, rec, Finalize(cfg, q, id, now, keep, fill).pool);
      }
    }
  }

  lemma RestKeepsLifecycle(p: Pool, id: LeaseId, rec: Rec, q: Pool)
    requires Lifecycle(p) && q.leased == p.leased[id := rec] - {id}
    ensures Lifecycle(q)
  {
  }

  lemma SubmitAtOnceSafe(cfg: Config, p: Pool, id: LeaseId, now: real, answer: Answer, atOnce: Option<bool>,
                         fill: Reading, keep: Reading, refill: Reading, owed: multiset<ExecId>)
    requires cfg.Valid() && PoolInv(cfg, p) && Balanced(p, owed)
    ensures var (o, _) := SubmitAtOnce(cfg, p, id, now, answer, atOnce, fill, keep, refill);
            && PoolInv(cfg, o.pool) && Balanced(o.pool, owed + Owed(o.toShutdown)) && SameMode(p, o.pool)
  {
    hide Balanced, PoolInv, FutureDone;
    var (o, reply) := Submit(cfg, p, id, now, answer, fill);
    SubmitSafe(cfg, p, id, now, answer, fill, owed);
    if reply.Submitted? && atOnce.Some? {
      assert owed + Owed(o.toShutdown) == owed;
      FutureDoneSafe(cfg, o.pool, id, reply.future, atOnce == Some(true), now, keep, refill, owed);
    }
  }

  lemma TickSafe(cfg: Config, p: Pool, now: real, revoke: Reading, fill: Reading, shrink: Reading,
                 owed: multiset<ExecId>)
    requires cfg.Valid() && PoolInv(cfg, p) && p.started && Balanced(p, owed)
    ensures var q := Tick(cfg, p, now, revoke, fill, shrink);
            && PoolInv(cfg, q) && Balanced(q, owed) && q.leased == p.leased - ExpiredIds(p.leased, now)
            && q.started == p.started && q.stopping == p.stopping && p.created <= q.created && OnlyFreshIdle(p, q)
  {
    RevokeSafe(cfg, p, now, revoke, owed);
    var r := Revoke(cfg, p, now, revoke);
    EnsureMinimumSafe(cfg, r, cfg.Desired(fill), owed);
    ShrinkIdleSafe(cfg, EnsureMinimum(r, cfg.Desired(fill)), cfg.Desired(shrink), owed);
  }

  lemma ClearSafe(cfg: Config, p: Pool, owed: multiset<ExecId>)
    requires Exclusive(cfg, p) && Balanced(p, owed)
    ensures var q := Clear(p);
            Exclusive(cfg, q) && Balanced(q, owed) && q.Total() == 0 && forall e :: e in q.created ==> q.Retired(e)
  {
    var q := Clear(p);
    forall e: ExecId ensures q.shutdowns[e] + owed[e] == if q.Retired(e) then 1 else 0 {
      CountInDistinct(p.available, e);
      assert p.shutdowns[e] + owed[e] == if p.Retired(e) then 1 else 0;
      if e in p.Held() {
        var i :| i in p.leased && p.leased[i].executor == e;
        assert e !in p.available && e in p.created;
      }
    }
  }

  lemma {:induction false} CountInDistinct(s: seq<ExecId>, e: ExecId)
    requires Distinct(s)
    ensures multiset(s)[e] == if e in s then 1 else 0
  {
    if s == [] {
    } else {
      var n := |s| - 1;
      assert s == s[..n] + [s[n]];
      CountInDistinct(s[..n], e);
      assert e in s <==> e in s[..n] || e == s[n];
    }
  }

  lemma StartSafe(cfg: Config, p: Pool, fill: Reading, owed: multiset<ExecId>)
    requires cfg.Valid() && PoolInv(cfg, p) && !p.started && Balanced(p, owed)
    ensures var q := Start(cfg, p, fill);
            PoolInv(cfg, q) && Balanced(q, owed) && q.Total() == cfg.Desired(fill) && q.leased == map[]
            && !q.stopping && p.created <= q.created && OnlyFreshIdle(p, q)
  {
    EnsureMinimumSafe(cfg, p.(stopping := false), cfg.Desired(fill), owed);
  }

  lemma SkipNumberSafe(cfg: Config, p: Pool, owed: multiset<ExecId>)
    requires Exclusive(cfg, p) && Balanced(p, owed)
    ensures var q := p.(executorSeq := p.executorSeq + 1); Exclusive(cfg, q) && Balanced(q, owed)
  {
    var q := p.(executorSeq := p.executorSeq + 1);
    assert forall e :: q.Retired(e) <==> p.Retired(e);
  }

  lemma StartFailsSafe(cfg: Config, p: Pool, creations: nat, owed: multiset<ExecId>)
    requires cfg.Valid() && PoolInv(cfg, p) && !p.started && creations <= cfg.maxPools && Balanced(p, owed)
    ensures var q := StartFails(p, creations);
            PoolInv(cfg, q) && Balanced(q, owed) && p.created <= q.created && !q.started
            && q.leased == map[] && !q.stopping && forall e :: e in q.created ==> q.Retired(e)
  {
    hide Balanced, Exclusive;
    var p' := p.(stopping := false);
    assert p'.Total() == p.Total() == 0;
    EnsureMinimumSafe(cfg, p', creations, owed);
    var q := EnsureMinimum(p', creations);
    SkipNumberSafe(cfg, q, owed);
    var q' := q.(executorSeq := q.executorSeq + 1);
    ClearSafe(cfg, q', owed);
    assert StartFails(p, creations) == Clear(q');
  }

  lemma StopFinishSafe(cfg: Config, p: Pool, owed: multiset<ExecId>)
    requires cfg.Valid() && PoolInv(cfg, p) && Balanced(p, owed)
    ensures var q := StopFinish(p);
            PoolInv(cfg, q) && Balanced(q, owed) && q.leased == map[] && q.created == p.created
            && forall e :: e in q.created ==> q.Retired(e)
  {
    ClearSafe(cfg, p, owed);
    assert Clear(p).Held() == StopFinish(p).Held();
  }
}
