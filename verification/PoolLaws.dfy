/**
 What a section means for the number of executors: acquiring is a bounded counting
 semaphore, every lease-ending step obeys one sizing law, and a tick converges.
 */
module PoolLaws {
  import opened Options
  import opened Sizing
  import opened PoolModel
  import opened PoolSafety
  import opened PoolEvolution

  /** The leases that a look at the clock leaves standing. */
  function Standing(p: Pool, now: real): map<LeaseId, Rec> {
    p.leased - ExpiredIds(p.leased, now)
  }

  /** An attempt succeeds exactly when fewer than `maxPools` unexpired leases are held,
      whatever is idle; it then adds one lease to those, and a failure changes nothing. */
  lemma AcquireIsSemaphore(cfg: Config, p: Pool, now: real, id: LeaseId, seconds: real, reading: Reading,
                           owed: multiset<ExecId>)
    requires cfg.Valid() && PoolInv(cfg, p) && Balanced(p, owed) && p.started && !p.stopping && id !in p.leased
    ensures var (q, a) := Acquire(cfg, p, now, id, seconds, reading);
            && (a == Leased <==> |Standing(p, now)| < cfg.maxPools)
            && (a == Leased ==>
                  && id in q.leased && q.leased - {id} == Standing(p, now)
                  && q.leased[id].leasedAt == now && q.leased[id].HardExpiresAt() == now + seconds + cfg.graceSeconds
                  && q.leased[id].pending == {} && !q.leased[id].releaseRequested
                  && q.leased[id].executor !in HeldBy(Standing(p, now)))
            && (a != Leased ==> a == Unavailable && q == p && |p.leased| == cfg.maxPools)
  {
    hide Balanced, Lifecycle, Revoke;
    RevokeSafe(cfg, p, now, reading, owed);
    var r := Revoke(cfg, p, now, reading);
    TakeSafe(cfg, r, owed);
    var (q, o) := TakeOrCreate(cfg, r);
    SizeOfDifference(p.leased, ExpiredIds(p.leased, now));
    assert |Standing(p, now)| == |p.leased| - |ExpiredIds(p.leased, now)|;
    if o.Some? {
      var e := o.value;
      assert q.leased[id := Rec(e, now, seconds, cfg.graceSeconds, {}, false, false)] - {id} == q.leased;
      assert e !in q.Held();
    } else {
      AcquireEvolves(cfg, p, now, id, seconds, reading, owed);
      assert |r.leased| == cfg.maxPools;
    }
  }

  /** The queue is first in, first out: with nothing expired the oldest idle executor goes. */
  lemma AcquireTakesOldestIdle(cfg: Config, p: Pool, now: real, id: LeaseId, seconds: real, reading: Reading)
    requires cfg.Valid() && p.started && !p.stopping && p.available != []
    ensures var (q, a) := Acquire(cfg, p, now, id, seconds, reading);
            && a == Leased && id in q.leased && p.available[0] == q.leased[id].executor
            && (ExpiredIds(p.leased, now) == {} ==> q.available == p.available[1..] && q.created == p.created)
  {
    if ExpiredIds(p.leased, now) != {} {
      FillKeepsOrder(Drop(p, ExpiredIds(p.leased, now)), cfg.Desired(reading));
    }
  }

  lemma {:induction false} FillKeepsOrder(p: Pool, target: nat)
    ensures p.available <= EnsureMinimum(p, target).available
    ensures p.created <= EnsureMinimum(p, target).created
    ensures p.Total() < target <==> p.executorSeq < EnsureMinimum(p, target).executorSeq
    ensures p.Total() < target ==> p.executorSeq + 1 in EnsureMinimum(p, target).created
    ensures p.Total() >= target ==> EnsureMinimum(p, target) == p
    decreases target - p.Total()
  {
    if p.Total() >= target {
    } else {
      FillKeepsOrder(Grow(p), target);
    }
  }

  /** One law for every way a single lease ends, with one reading of the size: the
      total becomes the desired size, or one less than before if that is larger. */
  ghost predicate EndsLawfully(cfg: Config, p: Pool, r: Reading, o: Outcome)
    requires cfg.Valid()
  {
    o.ended ==> p.Total() > 0 && o.pool.Total() == Max(cfg.Desired(r), p.Total() - 1)
  }

  lemma ReleaseEndSize(cfg: Config, p: Pool, id: LeaseId, now: real, r: Reading, owed: multiset<ExecId>)
    requires cfg.Valid() && PoolInv(cfg, p) && Balanced(p, owed)
    ensures var o := Release(cfg, p, id, now, r, r);
            EndsLawfully(cfg, p, r, o) && (o.ended <==> id in p.leased && p.leased[id].pending == {})
  {
    hide Balanced, Exclusive, Lifecycle, EnsureMinimum;
    if id in p.leased && p.leased[id].pending == {} {
      var rec := p.leased[id].(releaseRequested := true);
      UpdateSafe(cfg, p, id, rec, owed);
      FinalizeSafe(cfg, p.(leased := p.leased[id := rec]), id, now, r, r, owed);
    }
  }

  lemma SubmitEndSize(cfg: Config, p: Pool, id: LeaseId, now: real, answer: Answer, r: Reading,
                      owed: multiset<ExecId>)
    requires cfg.Valid() && PoolInv(cfg, p) && Balanced(p, owed)
    ensures var (o, reply) := Submit(cfg, p, id, now, answer, r);
            EndsLawfully(cfg, p, r, o) && (o.ended <==> reply == LeaseExpired || reply == BrokenExecutor)
  {
    hide Balanced, Exclusive, Lifecycle, EnsureMinimum;
    if Submit(cfg, p, id, now, answer, r).0.ended {
      RetireSafe(cfg, p, id, r, owed);
    }
  }

  lemma DoneEndSize(cfg: Config, p: Pool, id: LeaseId, f: FutureId, broken: bool, now: real,
                    r: Reading, owed: multiset<ExecId>)
    requires cfg.Valid() && PoolInv(cfg, p) && Balanced(p, owed) && id in p.leased
    ensures var o := FutureDone(cfg, p, id, f, broken, now, r, r);
            && EndsLawfully(cfg, p, r, o)
            && (o.ended <==> broken || (p.leased[id].releaseRequested && p.leased[id].pending <= {f}))
  {
    hide Balanced, Exclusive, Lifecycle, EnsureMinimum;
    var rec := p.leased[id].(pending := p.leased[id].pending - {f});
    var q := p.(leased := p.leased[id := rec]);
    UpdateSafe(cfg, p, id, rec, owed);
    assert rec.pending == {} <==> p.leased[id].pending <= {f};
    if broken {
      RetireSafe(cfg, q, id, r, owed);
    } else {
      FinalizeSafe(cfg, q, id, now, r, r, owed);
    }
  }

  /** Revoking k leases at once costs at most k executors, and only those above target. */
  lemma RevokeSize(cfg: Config, p: Pool, now: real, r: Reading, owed: multiset<ExecId>)
    requires cfg.Valid() && PoolInv(cfg, p) && p.started && Balanced(p, owed)
    ensures var k := |ExpiredIds(p.leased, now)|;
            && Revoke(cfg, p, now, r).Total() == (if k == 0 then p.Total() else Max(cfg.Desired(r), p.Total() - k))
            && Revoke(cfg, p, now, r).leased == Standing(p, now)
  {
    var gone := ExpiredIds(p.leased, now);
    RevokeSafe(cfg, p, now, r, owed);
    if gone != {} {
      DropInside(cfg, p, gone, owed);
      EnsureMinimumSafe(cfg, Drop(p, gone), cfg.Desired(r), owed);
    }
  }

  /** A healthy lease that ends in time: its executor is thrown away and another created
      exactly when the size signal rose across the old total between its two readings. */
  lemma HealthyEndWastes(cfg: Config, p: Pool, id: LeaseId, now: real, keep: Reading, fill: Reading)
    requires cfg.Valid() && Exclusive(cfg, p) && id in p.leased
    requires !p.leased[id].broken && !p.stopping && !p.leased[id].Expired(now)
    ensures var o := Finalize(cfg, p, id, now, keep, fill);
            (o.toShutdown.Some? && o.pool.created != p.created) <==>
            (cfg.Desired(keep) < p.Total() <= cfg.Desired(fill))
  {
    var e, q := p.leased[id].executor, p.(leased := p.leased - {id});
    SizeOfDifference(p.leased, {id});
    FillKeepsOrder(q, cfg.Desired(fill));
    FillKeepsOrder(q.(available := q.available + [e]), cfg.Desired(fill));
    assert p.executorSeq + 1 !in p.created;
  }

  /** So it is when a drained lease is released. */
  lemma HealthyReleaseWastes(cfg: Config, p: Pool, id: LeaseId, now: real, keep: Reading, fill: Reading,
                             owed: multiset<ExecId>)
    requires cfg.Valid() && PoolInv(cfg, p) && Balanced(p, owed) && id in p.leased
    requires p.leased[id].pending == {} && !p.stopping && !p.leased[id].Expired(now)
    ensures var o := Release(cfg, p, id, now, keep, fill);
            (o.toShutdown.Some? && o.pool.created != p.created) <==>
            (cfg.Desired(keep) < p.Total() <= cfg.Desired(fill))
  {
    hide Exclusive, Balanced, Finalize;
    var rec := p.leased[id].(releaseRequested := true);
    UpdateSafe(cfg, p, id, rec, owed);
    HealthyEndWastes(cfg, p.(leased := p.leased[id := rec]), id, now, keep, fill);
  }

  /** And when the last callback of a released lease runs. */
  lemma HealthyCallbackWastes(cfg: Config, p: Pool, id: LeaseId, f: FutureId, now: real, keep: Reading, fill: Reading,
                              owed: multiset<ExecId>)
    requires cfg.Valid() && PoolInv(cfg, p) && Balanced(p, owed) && id in p.leased
    requires p.leased[id].releaseRequested && p.leased[id].pending <= {f} && !p.stopping && !p.leased[id].Expired(now)
    ensures var o := FutureDone(cfg, p, id, f, false, now, keep, fill);
            (o.toShutdown.Some? && o.pool.created != p.created) <==>
            (cfg.Desired(keep) < p.Total() <= cfg.Desired(fill))
  {
    hide Exclusive, Balanced, Finalize;
    var rec := p.leased[id].(pending := p.leased[id].pending - {f});
    UpdateSafe(cfg, p, id, rec, owed);
    HealthyEndWastes(cfg, p.(leased := p.leased[id := rec]), id, now, keep, fill);
  }

  /** A tick leaves the desired number of executors, or the leased ones if they are more;
      no unexpired lease is touched. */
  lemma TickConverges(cfg: Config, p: Pool, now: real, r: Reading, owed: multiset<ExecId>)
    requires cfg.Valid() && PoolInv(cfg, p) && p.started && Balanced(p, owed)
    ensures var q := Tick(cfg, p, now, r, r, r);
            && q.leased == Standing(p, now)
            && q.Total() == Max(cfg.Desired(r), |Standing(p, now)|)
            && |q.available| == q.Total() - |Standing(p, now)|
  {
    RevokeSafe(cfg, p, now, r, owed);
    var v := Revoke(cfg, p, now, r);
    EnsureMinimumSafe(cfg, v, cfg.Desired(r), owed);
    ShrinkIdleSafe(cfg, EnsureMinimum(v, cfg.Desired(r)), cfg.Desired(r), owed);
  }

  /** A lease that ends leaves the idle queue as it was, with its own executor behind it if
      that is kept and only fresh ones after that; an executor is kept, or shut down, never
      both. */
  lemma ReleaseQueuesLast(cfg: Config, p: Pool, id: LeaseId, now: real, keep: Reading, fill: Reading)
    requires cfg.Valid() && id in p.leased && p.leased[id].pending == {}
    ensures var o := Release(cfg, p, id, now, keep, fill);
            var e := p.leased[id].executor;
            && o.ended
            && (o.toShutdown == None ==> p.available + [e] <= o.pool.available)
            && (o.toShutdown != None ==> o.toShutdown == Some(e) && p.available <= o.pool.available)
            && (o.toShutdown == None <==>
                  !p.leased[id].broken && !p.stopping && !p.leased[id].Expired(now) && p.Total() <= cfg.Desired(keep))
  {
    var q := p.(leased := p.leased[id := p.leased[id].(releaseRequested := true)] - {id});
    SizeOfDifference(p.leased[id := p.leased[id].(releaseRequested := true)], {id});
    assert |p.leased[id := p.leased[id].(releaseRequested := true)].Keys| == |p.leased.Keys|;
    FillKeepsOrder(q, cfg.Desired(fill));
    FillKeepsOrder(q.(available := q.available + [p.leased[id].executor]), cfg.Desired(fill));
  }

  lemma {:induction false} ShrinkTakesNewest(p: Pool, target: nat)
    ensures ShrinkIdle(p, target).available <= p.available
    decreases |p.available|
  {
    if p.available == [] || p.Total() <= target {
    } else {
      var n := |p.available| - 1;
      ShrinkTakesNewest(p.(available := p.available[..n], shutdowns := p.shutdowns + multiset{p.available[n]}), target);
    }
  }

  /** A tick takes idle executors from the end of the queue and puts fresh ones there, so of
      those that were idle the ones in line longest stay, in order. */
  lemma TickKeepsOldest(cfg: Config, p: Pool, now: real, revoke: Reading, fill: Reading, shrink: Reading)
    requires cfg.Valid()
    ensures var q := Tick(cfg, p, now, revoke, fill, shrink);
            q.available <= p.available || p.available <= q.available
  {
    hide EnsureMinimum, ShrinkIdle, ExpiredIds;
    var r := Revoke(cfg, p, now, revoke);
    FillKeepsOrder(Drop(p, ExpiredIds(p.leased, now)), cfg.Desired(revoke));
    assert p.available <= r.available;
    FillKeepsOrder(r, cfg.Desired(fill));
    ShrinkTakesNewest(EnsureMinimum(r, cfg.Desired(fill)), cfg.Desired(shrink));
  }
}
