/**
 A short run of the pool in which a good executor is thrown away.
 */
module PoolExamples {
  import opened Options
  import opened Sizing
  import opened PoolModel
  import opened PoolSystem
  import opened PoolTheorems

  /** Small counts are exact: with one unit a pool, they are the numbers wanted. */
  lemma SmallReadings(cfg: Config)
    requires cfg == Config(2, 1, 1, 1.0, 0.0)
    ensures cfg.Desired(Units(1)) == 1 && cfg.Desired(Units(2)) == 2
  {
    hide Pow2;
    assert Pow2(BINARY64.precision) > 53;
    RoundingIsHarmless(cfg, Units(1));
    RoundingIsHarmless(cfg, Units(2));
  }

  lemma FillTwo(p: Pool)
    requires p.executorSeq == 0 && p.available == [] && p.leased == map[]
    ensures EnsureMinimum(p, 2) == p.(available := [1, 2], executorSeq := 2, created := p.created + {1, 2})
  {
    var one := Grow(p);
    var two := Grow(one);
    assert two.available == [1, 2] && two.created == p.created + {1, 2};
    assert EnsureMinimum(two, 2) == two && EnsureMinimum(one, 2) == two;
  }

  lemma FillOne(p: Pool)
    requires p.executorSeq == 2 && p.available == [2] && p.leased == map[] && p.created == {1, 2}
    ensures EnsureMinimum(p, 2) == p.(available := [2, 3], executorSeq := 3, created := {1, 2, 3})
  {
    var more := Grow(p);
    assert more.available == [2, 3] && more.created == {1, 2, 3};
    assert EnsureMinimum(more, 2) == more;
  }

  /** Two executors are wanted and made, one is leased and given back in good health and in
      time; but the signal dips to one when it is asked whether to keep it, and is two again
      when the pool is filled: executor 1 is out, executor 3 is made in its place. */
  lemma DippingSignalWastes(cfg: Config, run: seq<Label>)
    requires cfg == Config(2, 1, 1, 1.0, 0.0)
    requires run == [Begin(Units(2)), TryAcquire(0, 0, 1.0, false, Units(2)), ReleaseLease(0, Units(1), Units(2))]
    ensures Run(cfg, run)
    ensures var s := After(cfg, run);
            && s.pool.available == [2, 3] && s.pool.leased == map[] && s.pool.created == {1, 2, 3}
            && s.pool.Retired(1) && s.debts.shutdowns == multiset{1}
  {
    hide Run, After, Config.Desired, EnsureMinimum, Acquire, Release;
    SmallReadings(cfg);
    EmptyRun(cfg);
    RunOn(cfg, [], Begin(Units(2)));
    var r1 := [] + [Begin(Units(2))];
    FillTwo(INITIAL.(stopping := false));
    var acquire := TryAcquire(0, 0, 1.0, false, Units(2));
    RunOn(cfg, r1, acquire);
    var r2 := r1 + [acquire];
    LeasesFirst(cfg, After(cfg, r1).pool);
    var release := ReleaseLease(0, Units(1), Units(2));
    RunOn(cfg, r2, release);
    assert run == r2 + [release];
    ReleasesFirst(cfg, After(cfg, r2).pool);
  }

  lemma LeasesFirst(cfg: Config, p: Pool)
    requires cfg.Valid() && p.started && !p.stopping && p.available == [1, 2] && p.leased == map[]
    ensures Acquire(cfg, p, 0.0, 0, 1.0, Units(2)) ==
            (p.(available := [2], leased := map[0 := Rec(1, 0.0, 1.0, cfg.graceSeconds, {}, false, false)]), Leased)
  {
    assert ExpiredIds(p.leased, 0.0) == {};
  }

  lemma ReleasesFirst(cfg: Config, p: Pool)
    requires cfg == Config(2, 1, 1, 1.0, 0.0) && cfg.Desired(Units(1)) == 1 && cfg.Desired(Units(2)) == 2
    requires p.started && !p.stopping && p.available == [2] && p.executorSeq == 2 && p.created == {1, 2}
    requires p.leased == map[0 := Rec(1, 0.0, 1.0, 0.0, {}, false, false)]
    ensures Release(cfg, p, 0, 0.0, Units(1), Units(2)) ==
            Outcome(p.(available := [2, 3], leased := map[], executorSeq := 3, created := {1, 2, 3}), Some(1), true)
  {
    hide Config.Desired, EnsureMinimum;
    var rec := p.leased[0].(releaseRequested := true);
    var q := p.(leased := p.leased[0 := rec] - {0});
    assert q.leased == map[];
    FillOne(q);
  }
}
