/**
 What holds in every run of the pool, from the state a new manager is in.
 */
module PoolTheorems {
  import opened Sizing
  import opened Runs
  import opened PoolModel
  import opened PoolSystem
  import opened PoolInvariant
  import opened PoolWakes
  import opened PoolHistory

  ghost predicate Run(cfg: Config, run: seq<Label>) {
    cfg.Valid() && Legal(Next(cfg), Init(), run)
  }

  ghost function After(cfg: Config, run: seq<Label>): Sys
    requires Run(cfg, run)
  {
    Exec(Next(cfg), Init(), run)
  }

  lemma Reachable(cfg: Config, run: seq<Label>)
    requires Run(cfg, run)
    ensures Inv(cfg, After(cfg, run))
  {
    hide Inv, Apply, Enabled;
    InitInv(cfg);
    RunsAge(cfg, Init(), run);
  }

  /** Two moments of one run. */
  lemma Moments(cfg: Config, earlier: seq<Label>, rest: seq<Label>)
    requires Run(cfg, earlier + rest)
    ensures Run(cfg, earlier)
    ensures var s, t := After(cfg, earlier), After(cfg, earlier + rest); Inv(cfg, s) && Inv(cfg, t) && Later(s, t)
  {
    hide Inv, Apply, Enabled, Later;
    Cut(Next(cfg), Init(), earlier, rest);
    Reachable(cfg, earlier);
    RunsAge(cfg, After(cfg, earlier), rest);
  }

  lemma EmptyRun(cfg: Config)
    requires cfg.Valid()
    ensures Run(cfg, []) && After(cfg, []) == Init()
  {
    Unfold(Next(cfg), Init(), []);
  }

  /** A run taken on by one step. */
  lemma RunOn(cfg: Config, run: seq<Label>, l: Label)
    requires Run(cfg, run) && Enabled(cfg, After(cfg, run), l)
    ensures Run(cfg, run + [l]) && After(cfg, run + [l]) == Apply(cfg, After(cfg, run), l)
  {
    hide Legal, Exec, Apply, Enabled;
    Extend(Next(cfg), Init(), run, l);
  }

  // ------------------------------------------------------------------------------
  // No lost wakeup
  // ------------------------------------------------------------------------------

  /** A waiter stays parked only while every pool is leased, or a wake for it is coming:
      scheduled, owed by an actor outside the lock, or to come from the checker or a stop. */
  lemma NoLostWakeup(cfg: Config, run: seq<Label>, w: WaiterId)
    requires Run(cfg, run) && w in After(cfg, run).loop.parked
    ensures var s := After(cfg, run);
            || (s.pool.started && |s.pool.leased| == cfg.maxPools)
            || SetAvailability(s.loop.parked[w]) in s.loop.ready
            || (s.pool.started && s.loop.parked[w] == s.loop.epoch
                && WakeInFlight(s.pool.stopping, s.loop, s.debts.wakes))
  {
    hide Apply, Enabled, Exec, Balanced, Lifecycle, WorkInv, ExpiryInv;
    Reachable(cfg, run);
  }

  /** So when nothing is in flight, waiting means that every pool is leased. */
  lemma QuietWaitersFaceAFullPool(cfg: Config, run: seq<Label>)
    requires Run(cfg, run) && After(cfg, run).loop.parked != map[]
    requires var s := After(cfg, run);
             !WakeInFlight(s.pool.stopping, s.loop, s.debts.wakes) && s.loop.ready == multiset{}
    ensures var s := After(cfg, run); s.pool.started && |s.pool.leased| == cfg.maxPools
  {
    var w :| w in After(cfg, run).loop.parked;
    NoLostWakeup(cfg, run, w);
  }

  // ------------------------------------------------------------------------------
  // Exclusive use
  // ------------------------------------------------------------------------------

  /** When one executor is held under two leases at two moments of a run, the earlier lease
      is over at the later moment, the later one was not held at the earlier moment, and all
      work ever submitted under the earlier one is done and accounted for. */
  lemma WorkNeverOverlaps(cfg: Config, earlier: seq<Label>, rest: seq<Label>, first: LeaseId, second: LeaseId)
    requires Run(cfg, earlier + rest) && Run(cfg, earlier) && first != second
    requires first in After(cfg, earlier).pool.leased && second in After(cfg, earlier + rest).pool.leased
    requires After(cfg, earlier).pool.leased[first].executor == After(cfg, earlier + rest).pool.leased[second].executor
    ensures var s, t := After(cfg, earlier), After(cfg, earlier + rest);
            && first !in t.pool.leased && second !in s.pool.leased
            && forall f :: f in t.ledger.work && t.ledger.work[f].lease == first ==>
                 t.ledger.work[f].done && t.ledger.work[f].called
  {
    hide Apply, Enabled, Exec, Balanced, Lifecycle, WakeInv, ExpiryInv;
    Moments(cfg, earlier, rest);
    var s, t := After(cfg, earlier), After(cfg, earlier + rest);
    var e := t.pool.leased[second].executor;
    assert t.ledger.issued[first] == e;
    assert !t.pool.Retired(e) by { assert e in t.pool.Held(); }
    forall f | f in t.ledger.work && t.ledger.work[f].lease == first ensures t.ledger.work[f].called {
      assert t.ledger.work[f].executor == e;
    }
  }

  /** Unfinished work runs only on the executor of the lease it was submitted under, as long
      as the executor is in use at all; an idle executor has none. */
  lemma UnfinishedWorkIsPending(cfg: Config, run: seq<Label>, f: FutureId)
    requires Run(cfg, run) && f in After(cfg, run).ledger.work && !After(cfg, run).ledger.work[f].done
    ensures var s := After(cfg, run);
            var k := s.ledger.work[f];
            && k.executor !in s.pool.available
            && (!s.pool.Retired(k.executor) ==>
                  && k.lease in s.pool.leased && f in s.pool.leased[k.lease].pending
                  && s.pool.leased[k.lease].executor == k.executor)
  {
    hide Apply, Enabled, Exec, Balanced, Lifecycle, WakeInv, ExpiryInv;
    Reachable(cfg, run);
  }

  /** At the moment a lease is granted, its executor has no unfinished work. */
  lemma GrantsAreDrained(cfg: Config, run: seq<Label>, l: Label, f: FutureId)
    requires Run(cfg, run) && l.TryAcquire? && Enabled(cfg, After(cfg, run), l)
    requires var t := Apply(cfg, After(cfg, run), l);
             l.id in t.pool.leased && f in t.ledger.work && t.ledger.work[f].executor == t.pool.leased[l.id].executor
    ensures Apply(cfg, After(cfg, run), l).ledger.work[f].done
  {
    hide Apply, Enabled, Exec, Balanced, Lifecycle, WakeInv, ExpiryInv;
    var s := After(cfg, run);
    Reachable(cfg, run);
    InvStep(cfg, s, l);
    var t := Apply(cfg, s, l);
    GrantAddsNoWork(cfg, s, l);
    var e := t.pool.leased[l.id].executor;
    assert !t.pool.Retired(e) by { assert e in t.pool.Held(); }
  }

  lemma GrantAddsNoWork(cfg: Config, s: Sys, l: Label)
    requires cfg.Valid() && l.TryAcquire? && Enabled(cfg, s, l) && Inv(cfg, s)
    ensures Apply(cfg, s, l).ledger.work == s.ledger.work && l.id !in s.ledger.issued
    ensures forall f :: f in s.ledger.work ==> s.ledger.work[f].lease != l.id
  {
    hide Balanced, Exclusive, Lifecycle, WakeInv, ExpiryInv, Acquire;
  }
}
