/**
 The manager itself: lease records and tables that its methods change in place.  Each
 method is one lock-held section, or a helper called inside one, and is proved to do to
 the pool what PoolModel says.  The clock, the readings of the size provider and the
 executor's answers are parameters.
 */
module Manager {
  import opened Options
  import opened Reals
  import opened Sizing
  import opened PoolModel
  import opened PoolSafety
  import opened PoolInvariant
  import opened PoolWakes

  class LeaseRecord {
    const leaseId: LeaseId
    const executor: ExecId
    const leasedAt: real
    const leaseSeconds: real
    const graceSeconds: real
    var pendingFutures: set<FutureId>
    var releaseRequested: bool
    var broken: bool

    constructor (leaseId: LeaseId, executor: ExecId, leasedAt: real, leaseSeconds: real, graceSeconds: real)
      ensures this.leaseId == leaseId
      ensures Value() == Rec(executor, leasedAt, leaseSeconds, graceSeconds, {}, false, false)
    {
      this.leaseId, this.executor := leaseId, executor;
      this.leasedAt, this.leaseSeconds, this.graceSeconds := leasedAt, leaseSeconds, graceSeconds;
      pendingFutures, releaseRequested, broken := {}, false, false;
    }

    function Value(): Rec
      reads this
    {
      Rec(executor, leasedAt, leaseSeconds, graceSeconds, pendingFutures, releaseRequested, broken)
    }

    function HardExpiresAt(): real {
      leasedAt + leaseSeconds + graceSeconds
    }
  }

  class LeasedExecutorManager {
    const config: Config
    var available: seq<ExecId>
    var leased: map<LeaseId, LeaseRecord>
    var executorSeq: nat
    var started: bool
    var stopping: bool

    // What the records say, what the manager has done to executors, and which ones it has
    // handed out of the lock to be shut down.
    ghost var records: map<LeaseId, Rec>
    ghost var created: set<ExecId>
    ghost var shutdowns: multiset<ExecId>
    ghost var owed: multiset<ExecId>

    ghost function Abs(): Pool
      reads this
    {
      Pool(available, records, executorSeq, started, stopping, created, shutdowns)
    }

    /** The table is keyed by the records' own ids, so no record is in it twice. */
    ghost predicate Keyed()
      reads this, leased.Values
    {
      && config.Valid()
      && leased.Keys == records.Keys
      && forall id :: id in leased ==> leased[id].leaseId == id && leased[id].Value() == records[id]
    }

    ghost predicate Valid()
      reads this, leased.Values
    {
      Keyed() && Solvent(config, Abs(), owed)
    }

    lemma TableSize()
      requires leased.Keys == records.Keys
      ensures |leased| == |records|
    {
      assert |leased.Keys| == |leased| && |records.Keys| == |records|;
    }

    constructor (config: Config)
      requires config.Valid()
      ensures this.config == config && Valid() && Abs() == INITIAL && owed == multiset{}
    {
      this.config := config;
      available, leased, executorSeq, started, stopping := [], map[], 0, false, false;
      records, created, shutdowns, owed := map[], {}, multiset{}, multiset{};
    }

    // ----------------------------------------------------------------------------
    // Helpers that run inside a section
    // ----------------------------------------------------------------------------

    method CreateExecutor() returns (e: ExecId)
      modifies this`executorSeq, this`created
      ensures executorSeq == old(executorSeq) + 1 == e && created == old(created) + {e}
    {
      executorSeq := executorSeq + 1;
      e := executorSeq;
      created := created + {e};
    }

    method ShutDownExecutor(e: ExecId)
      modifies this`shutdowns
      ensures shutdowns == old(shutdowns) + multiset{e}
    {
      shutdowns := shutdowns + multiset{e};
    }

    /** Create executors until there are `target`. */
    method FillUpTo(target: nat)
      requires Keyed()
      modifies this`available, this`executorSeq, this`created
      ensures Keyed() && Abs() == PoolModel.EnsureMinimum(old(Abs()), target)
    {
      hide PoolModel.EnsureMinimum;
      TableSize();
      while |available| + |leased| < target
        invariant PoolModel.EnsureMinimum(Abs(), target) == PoolModel.EnsureMinimum(old(Abs()), target)
        decreases target - |available|
      {
        ghost var p := Abs();
        var e := CreateExecutor();
        available := available + [e];
        assert Abs() == Grow(p);
        FillUnfolds(p, target);
      }
      FillUnfolds(Abs(), target);
    }

    method EnsureMinimum(reading: Reading)
      requires Keyed()
      modifies this`available, this`executorSeq, this`created
      ensures Keyed() && Abs() == PoolModel.EnsureMinimum(old(Abs()), config.Desired(reading))
    {
      FillUpTo(config.Desired(reading));
    }

    method ShrinkIdleIfAboveTarget(reading: Reading)
      requires Keyed()
      modifies this`available, this`shutdowns
      ensures Keyed() && Abs() == ShrinkIdle(old(Abs()), config.Desired(reading))
    {
      hide ShrinkIdle;
      var target := config.Desired(reading);
      TableSize();
      while |available| > 0 && |available| + |leased| > target
        invariant ShrinkIdle(Abs(), target) == ShrinkIdle(old(Abs()), target)
        decreases |available|
      {
        ghost var p := Abs();
        var n := |available| - 1;
        var e := available[n];
        available := available[..n];
        ShutDownExecutor(e);
        assert Abs() == WithoutLast(p);
        ShrinkUnfolds(p, target);
      }
      ShrinkUnfolds(Abs(), target);
    }

    method TakeOrCreateAvailable() returns (executor: Option<ExecId>)
      requires Keyed()
      modifies this`available, this`executorSeq, this`created
      ensures Keyed() && (Abs(), executor) == TakeOrCreate(config, old(Abs()))
    {
      TableSize();
      if |available| > 0 {
        executor := Some(available[0]);
        available := available[1..];
      } else if |available| + |leased| < config.maxPools {
        var e := CreateExecutor();
        executor := Some(e);
      } else {
        executor := None;
      }
    }

    /** Take one lease out of the table. */
    method Pop(id: LeaseId) returns (record: LeaseRecord)
      requires Keyed() && id in leased
      modifies this`leased, this`records
      ensures Keyed() && leased == old(leased) - {id} && records == old(records) - {id}
      ensures record == old(leased)[id] && record.Value() == old(records)[id]
    {
      record := leased[id];
      leased := leased - {id};
      records := records - {id};
    }

    method RevokeOne(id: LeaseId)
      requires Keyed() && id in leased
      modifies this`leased, this`records, this`shutdowns
      ensures Keyed() && leased.Values <= old(leased).Values
      ensures Abs() == DropOne(old(Abs()), id)
    {
      var record := Pop(id);
      ShutDownExecutor(record.executor);
    }

    /** Take leases out of the table, one by one, and shut their executors down. */
    method DropLeases(gone: set<LeaseId>)
      requires Keyed() && OneLeaseEach(records) && gone <= leased.Keys
      modifies this`leased, this`records, this`shutdowns
      ensures Keyed() && Abs() == Drop(old(Abs()), gone) && leased.Values <= old(leased).Values
    {
      hide OneLeaseEach, ExecutorsOf, Drop, DropOne;
      var rest := gone;
      ghost var p := Abs();
      DropNone(p);
      assert gone - rest == {};
      while rest != {}
        invariant Keyed() && rest <= gone <= p.leased.Keys
        invariant Abs() == Drop(p, gone - rest) && leased.Values <= old(leased).Values
        decreases rest
      {
        var id :| id in rest;
        DropOneMore(p, gone - rest, id);
        assert gone - (rest - {id}) == gone - rest + {id};
        RevokeOne(id);
        rest := rest - {id};
      }
      assert gone - rest == gone;
    }

    method RevokeExpiredLeases(now: real, reading: Reading)
      requires Keyed() && OneLeaseEach(records)
      modifies this`available, this`leased, this`records, this`executorSeq, this`created, this`shutdowns
      ensures Keyed() && Abs() == Revoke(config, old(Abs()), now, reading)
      ensures leased.Values <= old(leased).Values
    {
      hide PoolModel.EnsureMinimum, OneLeaseEach, Drop;
      var expired := set id | id in leased && now >= leased[id].HardExpiresAt();
      assert expired == ExpiredIds(records, now);
      if expired != {} {
        DropLeases(expired);
        EnsureMinimum(reading);
      }
    }

    method SecondsUntilNextHardExpiry(now: real) returns (delay: Option<real>)
      requires Keyed()
      ensures delay == match EarliestExpiry(records) case None => None case Some(t) => Some(t - now)
    {
      if leased == map[] {
        return None;
      }
      var id :| id in leased;
      var first, rest := leased[id].HardExpiresAt(), leased.Keys - {id};
      while rest != {}
        invariant rest <= leased.Keys
        invariant exists i :: i in records && records[i].HardExpiresAt() == first
        invariant forall i :: i in records && i !in rest ==> first <= records[i].HardExpiresAt()
        decreases rest
      {
        var next :| next in rest;
        if leased[next].HardExpiresAt() < first {
          first := leased[next].HardExpiresAt();
          assert records[next].HardExpiresAt() == first;
        }
        rest := rest - {next};
      }
      EarliestIs(records, first);
      delay := Some(first - now);
    }

    // ----------------------------------------------------------------------------
    // Changing one record
    // ----------------------------------------------------------------------------

    method RequestRelease(id: LeaseId)
      requires Keyed() && id in leased
      modifies leased[id], this`records
      ensures Keyed() && records == old(records)[id := old(records)[id].(releaseRequested := true)]
    {
      leased[id].releaseRequested := true;
      records := records[id := records[id].(releaseRequested := true)];
    }

    method Track(id: LeaseId, f: FutureId)
      requires Keyed() && id in leased
      modifies leased[id], this`records
      ensures Keyed() && records == old(records)[id := old(records)[id].(pending := old(records)[id].pending + {f})]
    {
      leased[id].pendingFutures := leased[id].pendingFutures + {f};
      records := records[id := records[id].(pending := records[id].pending + {f})];
    }

    method Untrack(id: LeaseId, f: FutureId)
      requires Keyed() && id in leased
      modifies leased[id], this`records
      ensures Keyed() && records == old(records)[id := old(records)[id].(pending := old(records)[id].pending - {f})]
    {
      leased[id].pendingFutures := leased[id].pendingFutures - {f};
      records := records[id := records[id].(pending := records[id].pending - {f})];
    }

    // ----------------------------------------------------------------------------
    // Ends of a lease
    // ----------------------------------------------------------------------------

    /** Is the executor of a lease that has just left the table healthy, in time and wanted? */
    method ShouldKeep(record: LeaseRecord, now: real, reading: Reading) returns (keep: bool)
      requires Keyed()
      ensures keep == Wanted(config, Abs(), record.Value(), now, reading)
    {
      keep := false;
      if !record.broken && !stopping && now < record.HardExpiresAt() {
        TableSize();
        var projectedTotal := |available| + |leased| + 1;
        keep := projectedTotal <= config.Desired(reading);
      }
    }

    /** The executor of a lease that has left the table goes back to the idle queue or out. */
    method Conclude(executor: ExecId, kept: bool, fill: Reading) returns (toShutdown: Option<ExecId>)
      requires Keyed()
      modifies this`available, this`executorSeq, this`created
      ensures Keyed() && toShutdown == if kept then None else Some(executor)
      ensures var p := old(Abs());
              var q := p.(available := if kept then p.available + [executor] else p.available);
              Abs() == PoolModel.EnsureMinimum(q, config.Desired(fill))
    {
      hide PoolModel.EnsureMinimum;
      toShutdown := Some(executor);
      if kept {
        available := available + [executor];
        toShutdown := None;
      }
      EnsureMinimum(fill);
    }

    /** Give the executor back if it is to be kept; else hand it out to be shut down. */
    method EndLease(id: LeaseId, now: real, keep: Reading, fill: Reading) returns (toShutdown: Option<ExecId>)
      requires Keyed() && id in leased
      modifies this`available, this`leased, this`records, this`executorSeq, this`created
      ensures Keyed() && leased.Values <= old(leased).Values
      ensures Outcome(Abs(), toShutdown, true) == Finalize(config, old(Abs()), id, now, keep, fill)
    {
      hide PoolModel.EnsureMinimum, Finalize, Wanted;
      ghost var p := Abs();
      var record := Pop(id);
      var shouldKeep := ShouldKeep(record, now, keep);
      FinalizeIs(config, p, id, now, keep, fill, shouldKeep);
      toShutdown := Conclude(record.executor, shouldKeep, fill);
    }

    /** Not done, and not reported done, while the lease is in use. */
    method FinalizeReleasedRecord(id: LeaseId, now: real, keep: Reading, fill: Reading)
      returns (toShutdown: Option<ExecId>, finalized: bool)
      requires Keyed() && id in leased
      modifies this`available, this`leased, this`records, this`executorSeq, this`created
      ensures Keyed() && leased.Values <= old(leased).Values
      ensures finalized == (old(records)[id].releaseRequested && old(records)[id].pending == {})
      ensures Outcome(Abs(), toShutdown, finalized) ==
              if finalized then Finalize(config, old(Abs()), id, now, keep, fill) else Nothing(old(Abs()))
    {
      hide Finalize;
      var record := leased[id];
      if !record.releaseRequested || record.pendingFutures != {} {
        return None, false;
      }
      toShutdown := EndLease(id, now, keep, fill);
      finalized := true;
    }

    method RetireRecord(id: LeaseId, fill: Reading) returns (toShutdown: Option<ExecId>)
      requires Keyed() && id in leased
      modifies this`available, this`leased, this`records, this`executorSeq, this`created
      ensures Keyed() && leased.Values <= old(leased).Values
      ensures Outcome(Abs(), toShutdown, true) == Retire(config, old(Abs()), id, fill) && toShutdown.Some?
    {
      hide PoolModel.EnsureMinimum;
      var record := Pop(id);
      EnsureMinimum(fill);
      toShutdown := Some(record.executor);
    }

    method RetireBrokenRecord(id: LeaseId, fill: Reading) returns (toShutdown: Option<ExecId>)
      requires Keyed() && id in leased
      modifies this`available, this`leased, this`records, this`executorSeq, this`created, leased[id]
      ensures Keyed() && leased.Values <= old(leased).Values
      ensures Outcome(Abs(), toShutdown, true) == Retire(config, old(Abs()), id, fill) && toShutdown.Some?
    {
      hide PoolModel.EnsureMinimum;
      var record := Pop(id);
      record.releaseRequested, record.pendingFutures, record.broken := true, {}, true;
      EnsureMinimum(fill);
      toShutdown := Some(record.executor);
    }

    // ----------------------------------------------------------------------------
    // Lock-held sections
    // ----------------------------------------------------------------------------

    /** Put a lease on an executor that is in neither place into the table. */
    method Grant(id: LeaseId, e: ExecId, now: real, seconds: real)
      requires Keyed() && id !in leased
      modifies this`leased, this`records
      ensures Keyed() && fresh(leased.Values - old(leased).Values)
      ensures records == old(records)[id := Rec(e, now, seconds, config.graceSeconds, {}, false, false)]
    {
      var record := new LeaseRecord(id, e, now, seconds, config.graceSeconds);
      leased := leased[id := record];
      records := records[id := Rec(e, now, seconds, config.graceSeconds, {}, false, false)];
    }

    method AcquireSection(now: real, id: LeaseId, seconds: real, reading: Reading) returns (attempt: Attempt)
      requires Keyed() && OneLeaseEach(records) && id !in leased
      modifies this`available, this`leased, this`records, this`executorSeq, this`created, this`shutdowns
      ensures Keyed() && fresh(leased.Values - old(leased).Values)
      ensures (Abs(), attempt) == Acquire(config, old(Abs()), now, id, seconds, reading)
    {
      hide Revoke, TakeOrCreate, OneLeaseEach;
      if !started || stopping {
        return NotStarted;
      }
      ghost var p := Abs();
      RevokeKeys(config, p, now, reading);
      RevokeExpiredLeases(now, reading);
      TakeKeys(config, Abs());
      var executor := TakeOrCreateAvailable();
      if executor.None? {
        attempt := Unavailable;
      } else {
        Grant(id, executor.value, now, seconds);
        attempt := Leased;
      }
    }

    method TryAcquire(now: real, id: LeaseId, seconds: real, reading: Reading) returns (attempt: Attempt)
      requires Valid() && id !in leased
      modifies this
      ensures Valid() && fresh(leased.Values - old(leased).Values) && owed == old(owed)
      ensures (Abs(), attempt) == Acquire(config, old(Abs()), now, id, seconds, reading)
    {
      hide Balanced, Lifecycle, Acquire;
      AcquireSafe(config, Abs(), now, id, seconds, reading, owed);
      attempt := AcquireSection(now, id, seconds, reading);
    }

    method ReleaseSection(id: LeaseId, now: real, keep: Reading, fill: Reading)
      returns (toShutdown: Option<ExecId>, finalized: bool)
      requires Keyed()
      modifies this`available, this`leased, this`records, this`executorSeq, this`created, leased.Values
      ensures Keyed() && leased.Values <= old(leased).Values
      ensures Outcome(Abs(), toShutdown, finalized) == PoolModel.Release(config, old(Abs()), id, now, keep, fill)
    {
      hide PoolModel.Finalize;
      toShutdown, finalized := None, false;
      if id in leased {
        ghost var q := Abs().(leased := records[id := records[id].(releaseRequested := true)]);
        RequestRelease(id);
        assert Abs() == q;
        if leased[id].pendingFutures == {} {
          toShutdown, finalized := FinalizeReleasedRecord(id, now, keep, fill);
        }
      }
    }

    method Release(id: LeaseId, now: real, keep: Reading, fill: Reading)
      returns (toShutdown: Option<ExecId>, finalized: bool)
      requires Valid()
      modifies this, leased.Values
      ensures Valid() && leased.Values <= old(leased).Values && owed == old(owed) + Owed(toShutdown)
      ensures Outcome(Abs(), toShutdown, finalized) == PoolModel.Release(config, old(Abs()), id, now, keep, fill)
    {
      hide Balanced, PoolInv, PoolModel.Release;
      ReleaseSafe(config, Abs(), id, now, keep, fill, owed);
      toShutdown, finalized := ReleaseSection(id, now, keep, fill);
      owed := owed + Owed(toShutdown);
    }

    method SubmitSection(id: LeaseId, now: real, answer: Answer, fill: Reading)
      returns (reply: Reply, toShutdown: Option<ExecId>)
      requires Keyed()
      modifies this`available, this`leased, this`records, this`executorSeq, this`created, leased.Values
      ensures Keyed() && leased.Values <= old(leased).Values
      ensures (Outcome(Abs(), toShutdown, toShutdown.Some?), reply) ==
              PoolModel.Submit(config, old(Abs()), id, now, answer, fill)
    {
      hide Retire;
      toShutdown := None;
      if id !in leased {
        return NotActive, None;
      }
      var record := leased[id];
      if record.releaseRequested {
        return AlreadyReleased, None;
      }
      if now >= record.HardExpiresAt() {
        toShutdown := RetireRecord(id, fill);
        return PoolModel.LeaseExpired, toShutdown;
      }
      match answer {
        case Accepts(f) =>
          Track(id, f);
          reply := Submitted(f);
        case Breaks =>
          toShutdown := RetireBrokenRecord(id, fill);
          reply := BrokenExecutor;
        case Fails =>
          reply := OtherError;
      }
    }

    method FutureDoneSection(id: LeaseId, f: FutureId, broken: bool, now: real, keep: Reading, fill: Reading)
      returns (toShutdown: Option<ExecId>, wake: bool)
      requires Keyed()
      modifies this`available, this`leased, this`records, this`executorSeq, this`created, leased.Values
      ensures Keyed() && leased.Values <= old(leased).Values
      ensures Outcome(Abs(), toShutdown, wake) == FutureDone(config, old(Abs()), id, f, broken, now, keep, fill)
    {
      hide Retire, Finalize;
      toShutdown, wake := None, false;
      if id in leased {
        Untrack(id, f);
        if broken {
          toShutdown := RetireBrokenRecord(id, fill);
          wake := true;
        } else if leased[id].releaseRequested && leased[id].pendingFutures == {} {
          toShutdown, wake := FinalizeReleasedRecord(id, now, keep, fill);
        }
      }
    }

    method SubmitAtOnceSection(id: LeaseId, now: real, answer: Answer, atOnce: Option<bool>,
                               fill: Reading, keep: Reading, refill: Reading)
      returns (reply: Reply, toShutdown: Option<ExecId>, wake: bool)
      requires Keyed()
      modifies this`available, this`leased, this`records, this`executorSeq, this`created, leased.Values
      ensures Keyed() && leased.Values <= old(leased).Values
      ensures (Outcome(Abs(), toShutdown, wake), reply) ==
              SubmitAtOnce(config, old(Abs()), id, now, answer, atOnce, fill, keep, refill)
    {
      hide PoolModel.Submit, FutureDone;
      reply, toShutdown := SubmitSection(id, now, answer, fill);
      wake := toShutdown.Some?;
      if reply.Submitted? && atOnce.Some? {
        toShutdown, wake := FutureDoneSection(id, reply.future, atOnce == Some(true), now, keep, refill);
      }
    }

    method SubmitForLease(id: LeaseId, now: real, answer: Answer, atOnce: Option<bool>,
                          fill: Reading, keep: Reading, refill: Reading)
      returns (reply: Reply, toShutdown: Option<ExecId>, wake: bool)
      requires Valid()
      modifies this, leased.Values
      ensures Valid() && leased.Values <= old(leased).Values && owed == old(owed) + Owed(toShutdown)
      ensures (Outcome(Abs(), toShutdown, wake), reply) ==
              SubmitAtOnce(config, old(Abs()), id, now, answer, atOnce, fill, keep, refill)
    {
      hide Balanced, PoolInv, Exclusive, Lifecycle, SubmitAtOnce, OneLeaseEach;
      SubmitAtOnceSafe(config, Abs(), id, now, answer, atOnce, fill, keep, refill, owed);
      reply, toShutdown, wake := SubmitAtOnceSection(id, now, answer, atOnce, fill, keep, refill);
      owed := owed + Owed(toShutdown);
    }

    method OnLeaseFutureDone(id: LeaseId, f: FutureId, broken: bool, now: real, keep: Reading, fill: Reading)
      returns (toShutdown: Option<ExecId>, wake: bool)
      requires Valid()
      modifies this, leased.Values
      ensures Valid() && leased.Values <= old(leased).Values && owed == old(owed) + Owed(toShutdown)
      ensures Outcome(Abs(), toShutdown, wake) == FutureDone(config, old(Abs()), id, f, broken, now, keep, fill)
    {
      hide Balanced, PoolInv, FutureDone;
      FutureDoneSafe(config, Abs(), id, f, broken, now, keep, fill, owed);
      toShutdown, wake := FutureDoneSection(id, f, broken, now, keep, fill);
      owed := owed + Owed(toShutdown);
    }

    /** What an actor that has left the lock does with the executor it was handed. */
    method ShutDownOwed(e: ExecId)
      requires Valid() && e in owed
      modifies this`shutdowns, this`owed
      ensures Valid() && owed == old(owed) - multiset{e}
      ensures Abs() == old(Abs()).(shutdowns := old(shutdowns) + multiset{e})
    {
      hide Balanced, PoolInv;
      PaySolvent(config, Abs(), owed, e);
      ShutDownExecutor(e);
      owed := owed - multiset{e};
    }

    method RoundSection(now: real, revoke: Reading, fill: Reading, shrink: Reading)
      requires Keyed() && OneLeaseEach(records)
      modifies this`available, this`leased, this`records, this`executorSeq, this`created, this`shutdowns
      ensures Keyed() && leased.Values <= old(leased).Values
      ensures Abs() == Tick(config, old(Abs()), now, revoke, fill, shrink)
    {
      hide Revoke, PoolModel.EnsureMinimum, ShrinkIdle, OneLeaseEach;
      RevokeExpiredLeases(now, revoke);
      EnsureMinimum(fill);
      ShrinkIdleIfAboveTarget(shrink);
    }

    /** One round of the checker; the result is how long it sleeps. */
    method CheckerRound(now: real, revoke: Reading, fill: Reading, shrink: Reading) returns (wait: real)
      requires Valid() && started
      modifies this
      ensures Valid() && leased.Values <= old(leased).Values && owed == old(owed)
      ensures Abs() == Tick(config, old(Abs()), now, revoke, fill, shrink)
      ensures wait == WaitSeconds(config, Abs(), now)
    {
      hide Balanced, Exclusive, Lifecycle, Tick, EarliestExpiry;
      assert OneLeaseEach(records) by { KeptApart(config, Abs()); }
      TickSafe(config, Abs(), now, revoke, fill, shrink, owed);
      RoundSection(now, revoke, fill, shrink);
      var delay := SecondsUntilNextHardExpiry(now);
      wait := config.checkInterval;
      if delay.Some? {
        wait := RealMin(wait, RealMax(0.0, delay.value));
      }
    }

    // ----------------------------------------------------------------------------
    // Starting and stopping
    // ----------------------------------------------------------------------------

    method ShutDownIdle()
      requires Keyed()
      modifies this`available, this`shutdowns
      ensures Keyed() && available == [] && shutdowns == old(shutdowns) + multiset(old(available))
    {
      var idle := available;
      available := [];
      for i := 0 to |idle|
        invariant available == [] && shutdowns == old(shutdowns) + multiset(idle[..i])
      {
        assert idle[..i + 1] == idle[..i] + [idle[i]];
        ShutDownExecutor(idle[i]);
      }
      assert idle[..|idle|] == idle;
    }

    /** Shut down everything the manager owns, and forget it. */
    method ShutDownAll()
      requires Keyed() && OneLeaseEach(records)
      modifies this`available, this`leased, this`records, this`shutdowns
      ensures Keyed() && Abs() == Clear(old(Abs())) && leased == map[]
    {
      hide OneLeaseEach, Drop;
      ghost var p := Abs();
      ShutDownIdle();
      DropAll(Abs());
      DropLeases(leased.Keys);
      assert leased.Keys == {};
      assert p.Held() == HeldBy(p.leased);
    }

    method FailToStart(creations: nat)
      requires Keyed() && records == map[]
      modifies this`available, this`leased, this`records, this`executorSeq, this`created, this`shutdowns, this`stopping
      ensures Keyed() && Abs() == StartFails(old(Abs()), creations) && leased == map[]
    {
      hide PoolModel.EnsureMinimum, Clear;
      stopping := false;
      ghost var p := Abs();
      TableSize();
      var target := |available| + |leased| + creations;
      FillKeepsLeases(p, target);
      FillUpTo(target);
      executorSeq := executorSeq + 1;
      ShutDownAll();
    }

    method FillToStart(fill: Reading)
      requires Keyed()
      modifies this`available, this`executorSeq, this`created, this`stopping, this`started
      ensures Keyed() && Abs() == PoolModel.Start(config, old(Abs()), fill)
    {
      hide PoolModel.EnsureMinimum;
      stopping := false;
      EnsureMinimum(fill);
      started := true;
    }

    /** Start, creating the minimum; `failAfter` says after how many creations one fails, in
        which case everything created is shut down again and the manager stays stopped. */
    method Start(fill: Reading, failAfter: Option<nat>) returns (ok: bool)
      requires Valid()
      modifies this
      ensures Valid() && leased == old(leased) && owed == old(owed)
      ensures ok <==> old(started) || failAfter == None || failAfter.value >= config.Desired(fill)
      ensures Abs() == if old(started) then old(Abs())
                       else if ok then PoolModel.Start(config, old(Abs()), fill)
                       else StartFails(old(Abs()), failAfter.value)
    {
      hide Balanced, Exclusive, Lifecycle, PoolModel.Start, StartFails;
      if started {
        return true;
      }
      ok := failAfter == None || failAfter.value >= config.Desired(fill);
      assert leased.Keys == {};
      if ok {
        StartSafe(config, Abs(), fill, owed);
        FillToStart(fill);
      } else {
        StartFailsSafe(config, Abs(), failAfter.value, owed);
        FailToStart(failAfter.value);
      }
    }

    method StopBegins()
      requires Valid() && started
      modifies this`stopping
      ensures Valid() && Abs() == StopBegin(old(Abs()))
    {
      StopBeginSolvent(config, Abs(), owed);
      stopping := true;
    }

    method StopEnds()
      requires Valid()
      modifies this
      ensures Valid() && Abs() == StopFinish(old(Abs())) && leased == map[] && owed == old(owed)
    {
      hide Balanced, Exclusive, Lifecycle, Clear;
      KeptApart(config, Abs());
      StopFinishSafe(config, Abs(), owed);
      ShutDownAll();
      started, stopping := false, false;
    }
  }

  lemma KeptApart(cfg: Config, p: Pool)
    requires PoolInv(cfg, p)
    ensures OneLeaseEach(p.leased)
  {
  }

  lemma FinalizeIs(cfg: Config, p: Pool, id: LeaseId, now: real, keep: Reading, fill: Reading, kept: bool)
    requires cfg.Valid() && id in p.leased
    requires kept == Wanted(cfg, p.(leased := p.leased - {id}), p.leased[id], now, keep)
    ensures var e := p.leased[id].executor;
            var q := p.(leased := p.leased - {id}, available := if kept then p.available + [e] else p.available);
            Finalize(cfg, p, id, now, keep, fill) ==
            Outcome(PoolModel.EnsureMinimum(q, cfg.Desired(fill)), if kept then None else Some(e), true)
  {
    hide PoolModel.EnsureMinimum;
  }

  lemma RevokeKeys(cfg: Config, p: Pool, now: real, reading: Reading)
    requires cfg.Valid()
    ensures Revoke(cfg, p, now, reading).leased.Keys <= p.leased.Keys
  {
    FillKeepsLeases(p, cfg.Desired(reading));
    FillKeepsLeases(Drop(p, ExpiredIds(p.leased, now)), cfg.Desired(reading));
  }

  lemma {:induction false} FillKeepsLeases(p: Pool, target: nat)
    ensures PoolModel.EnsureMinimum(p, target).leased == p.leased
    decreases target - p.Total()
  {
    if p.Total() >= target {
    } else {
      FillKeepsLeases(Grow(p), target);
    }
  }

  lemma TakeKeys(cfg: Config, p: Pool)
    ensures TakeOrCreate(cfg, p).0.leased == p.leased
  {
  }

  lemma EarliestIs(m: map<LeaseId, Rec>, first: real)
    requires exists i :: i in m && m[i].HardExpiresAt() == first
    requires forall i :: i in m ==> first <= m[i].HardExpiresAt()
    ensures EarliestExpiry(m) == Some(first)
  {
    var i :| i in m && m[i].HardExpiresAt() == first;
    EarliestIsFirst(m, i);
    EarliestIsAttained(m);
  }

  lemma FillUnfolds(p: Pool, target: nat)
    ensures PoolModel.EnsureMinimum(p, target) ==
            if p.Total() < target then PoolModel.EnsureMinimum(Grow(p), target) else p
  {
  }

  ghost function WithoutLast(p: Pool): Pool
    requires p.available != []
  {
    var n := |p.available| - 1;
    p.(available := p.available[..n], shutdowns := p.shutdowns + multiset{p.available[n]})
  }

  lemma ShrinkUnfolds(p: Pool, target: nat)
    ensures ShrinkIdle(p, target) ==
            if |p.available| > 0 && p.Total() > target then ShrinkIdle(WithoutLast(p), target) else p
  {
  }

  lemma DropAll(p: Pool)
    ensures Drop(p, p.leased.Keys) == p.(leased := map[], shutdowns := p.shutdowns + multiset(p.Held()))
  {
    assert ExecutorsOf(p.leased, p.leased.Keys) == p.Held();
    assert p.leased - p.leased.Keys == map[];
  }

  lemma DropNone(p: Pool)
    ensures Drop(p, {}) == p
  {
    assert ExecutorsOf(p.leased, {}) == {};
    assert p.leased - {} == p.leased;
  }

  ghost function DropOne(p: Pool, id: LeaseId): Pool
    requires id in p.leased
  {
    p.(leased := p.leased - {id}, shutdowns := p.shutdowns + multiset{p.leased[id].executor})
  }

  lemma DropOneMore(p: Pool, gone: set<LeaseId>, id: LeaseId)
    requires OneLeaseEach(p.leased) && gone <= p.leased.Keys && id in p.leased && id !in gone
    ensures id in Drop(p, gone).leased && Drop(p, gone + {id}) == DropOne(Drop(p, gone), id)
  {
    assert ExecutorsOf(p.leased, gone + {id}) == ExecutorsOf(p.leased, gone) + {p.leased[id].executor};
    assert p.leased - (gone + {id}) == p.leased - gone - {id};
  }
}
