/**
 What each step does to the pool and the loop, to the last field, in terms of the fields
 alone: once and for all states that can be reached.
 */
module PoolEffects {
  import opened Options
  import opened Sizing
  import opened Runs
  import opened PoolModel
  import opened PoolSafety
  import opened PoolSystem
  import opened PoolInvariant
  import opened PoolTheorems
  import opened PoolGuarantees

  // ------------------------------------------------------------------------------
  // Making and shedding executors, in closed form
  // ------------------------------------------------------------------------------

  /** The lease's time and grace are over. */
  predicate Lapsed(rec: Rec, now: real) {
    now >= rec.leasedAt + rec.leaseSeconds + rec.graceSeconds
  }

  function Need(have: nat, wanted: nat): nat {
    if have < wanted then wanted - have else 0
  }

  /** The next n numbers. */
  function Numbers(last: nat, n: nat): (ids: seq<ExecId>)
    ensures |ids| == n && forall i :: 0 <= i < n ==> ids[i] == last + 1 + i
  {
    seq(n, i requires 0 <= i < n => last + 1 + i)
  }

  function AsSet(ids: seq<ExecId>): set<ExecId> {
    set e | e in ids
  }

  /** With n new executors, numbered on, at the end of the idle queue. */
  function Made(p: Pool, n: nat): Pool {
    p.(available := p.available + Numbers(p.executorSeq, n),
       executorSeq := p.executorSeq + n,
       created := p.created + AsSet(Numbers(p.executorSeq, n)))
  }

  lemma OneMore(first: ExecId, rest: seq<ExecId>)
    ensures AsSet([first] + rest) == {first} + AsSet(rest)
  {
    assert ([first] + rest)[0] == first;
    assert forall e :: e in [first] + rest <==> e == first || e in rest;
  }

  lemma MadeOneByOne(p: Pool, n: nat)
    ensures Made(p, 0) == p && Made(Grow(p), n) == Made(p, n + 1)
  {
    assert p.available + Numbers(p.executorSeq, 0) == p.available;
    assert p.created + AsSet(Numbers(p.executorSeq, 0)) == p.created;
    var first, rest := p.executorSeq + 1, Numbers(p.executorSeq + 1, n);
    assert Numbers(p.executorSeq, n + 1) == [first] + rest;
    assert p.available + [first] + rest == p.available + ([first] + rest);
    OneMore(first, rest);
    assert p.created + {first} + AsSet(rest) == p.created + AsSet([first] + rest);
  }

  lemma {:induction false} FillIs(p: Pool, target: nat)
    ensures EnsureMinimum(p, target) == Made(p, Need(|p.available| + |p.leased|, target))
    decreases target - p.Total()
  {
    hide Made;
    MadeOneByOne(p, Need(|p.available| + |p.leased| + 1, target));
    if p.Total() >= target {
    } else {
      FillIs(Grow(p), target);
    }
  }

  /** How many of the idle executors stay, when at most `wanted` are to be owned. */
  function Room(idle: nat, leased: nat, wanted: nat): (n: nat)
    ensures n <= idle
  {
    if idle + leased <= wanted then idle else Need(leased, wanted)
  }

  lemma LastGoesFirst(idle: seq<ExecId>, m: nat)
    requires m < |idle|
    ensures var n := |idle| - 1;
            idle[..n][..m] == idle[..m] && multiset{idle[n]} + multiset(idle[..n][m..]) == multiset(idle[m..])
  {
    var n := |idle| - 1;
    assert idle[m..] == idle[..n][m..] + [idle[n]];
  }

  /** With this many left of the newest. */
  function Shed(p: Pool, m: nat): Pool
    requires m <= |p.available|
  {
    p.(available := p.available[..m], shutdowns := p.shutdowns + multiset(p.available[m..]))
  }

  lemma {:induction false} ShrinkIs(p: Pool, target: nat)
    ensures ShrinkIdle(p, target) == Shed(p, Room(|p.available|, |p.leased|, target))
    decreases |p.available|
  {
    hide ShrinkIdle, Shed;
    if p.available == [] || |p.available| + |p.leased| <= target {
      ShedsNothing(p, target);
    } else {
      ShedsNewest(p, target);
      ShrinkIs(WithoutNewest(p), target);
      ShedOneMore(p, Room(|p.available|, |p.leased|, target));
    }
  }

  lemma ShedsNothing(p: Pool, target: nat)
    requires p.available == [] || |p.available| + |p.leased| <= target
    ensures ShrinkIdle(p, target) == p == Shed(p, |p.available|)
  {
    assert p.available[|p.available|..] == [];
    assert p.available[..|p.available|] == p.available;
    assert p.shutdowns + multiset([]) == p.shutdowns;
  }

  lemma ShedOneMore(p: Pool, m: nat)
    requires m < |p.available|
    ensures Shed(WithoutNewest(p), m) == Shed(p, m)
  {
    var n := |p.available| - 1;
    LastGoesFirst(p.available, m);
    SumsAssociate(p.shutdowns, multiset{p.available[n]}, multiset(p.available[..n][m..]));
    ShedFields(WithoutNewest(p), p, m);
  }

  lemma ShedFields(p: Pool, q: Pool, m: nat)
    requires m <= |p.available| && m <= |q.available| && p.available[..m] == q.available[..m]
    requires p.shutdowns + multiset(p.available[m..]) == q.shutdowns + multiset(q.available[m..])
    requires p == q.(available := p.available, shutdowns := p.shutdowns)
    ensures Shed(p, m) == Shed(q, m)
  {
  }

  function WithoutNewest(p: Pool): Pool
    requires p.available != []
  {
    var n := |p.available| - 1;
    p.(available := p.available[..n], shutdowns := p.shutdowns + multiset{p.available[n]})
  }

  lemma ShedsNewest(p: Pool, target: nat)
    requires p.available != [] && |p.available| + |p.leased| > target
    ensures ShrinkIdle(p, target) == ShrinkIdle(WithoutNewest(p), target)
  {
  }

  lemma SumsAssociate(a: multiset<ExecId>, b: multiset<ExecId>, c: multiset<ExecId>)
    ensures a + b + c == a + (b + c)
  {
  }

  // ------------------------------------------------------------------------------
  // A lease that ends
  // ------------------------------------------------------------------------------

  /** The pool when the lease is over: its executor at the end of the queue or gone, and as
      many made as are wanted beyond. */
  function WithoutLease(p: Pool, id: LeaseId, kept: bool, wanted: nat): Pool
    requires id in p.leased
  {
    var idle := if kept then p.available + [p.leased[id].executor] else p.available;
    Made(p.(leased := p.leased - {id}, available := idle), Need(|idle| + |p.leased - {id}|, wanted))
  }

  /** Good, in time, wanted, and the manager not stopping. */
  predicate IsKept(p: Pool, id: LeaseId, now: real, wanted: nat)
    requires id in p.leased
  {
    !p.leased[id].broken && !p.stopping && !Lapsed(p.leased[id], now) && |p.available| + |p.leased| <= wanted
  }

  /** What an ended lease leaves to be done outside the lock. */
  function OweEnd(d: Debts, e: ExecId, kept: bool): Debts {
    Debts(if kept then d.shutdowns else d.shutdowns + multiset{e}, d.wakes + 1, d.checks + 1)
  }

  function SetRec(p: Pool, id: LeaseId, rec: Rec): Pool {
    p.(leased := p.leased[id := rec])
  }

  lemma OneFewer(m: map<LeaseId, Rec>, id: LeaseId)
    requires id in m
    ensures |m - {id}| == |m| - 1
  {
    SizeOfDifference(m, {id});
  }

  lemma FinalizeIs(cfg: Config, p: Pool, id: LeaseId, now: real, keep: Reading, fill: Reading)
    requires cfg.Valid() && id in p.leased
    ensures var kept := IsKept(p, id, now, cfg.Desired(keep));
            Finalize(cfg, p, id, now, keep, fill) ==
            Outcome(WithoutLease(p, id, kept, cfg.Desired(fill)),
                    if kept then None else Some(p.leased[id].executor), true)
  {
    hide EnsureMinimum;
    OneFewer(p.leased, id);
    var q := p.(leased := p.leased - {id});
    FillIs(q, cfg.Desired(fill));
    FillIs(q.(available := q.available + [p.leased[id].executor]), cfg.Desired(fill));
  }

  lemma RetireIs(cfg: Config, p: Pool, id: LeaseId, fill: Reading)
    requires cfg.Valid() && id in p.leased
    ensures Retire(cfg, p, id, fill) ==
            Outcome(WithoutLease(p, id, false, cfg.Desired(fill)), Some(p.leased[id].executor), true)
  {
    hide EnsureMinimum;
    FillIs(p.(leased := p.leased - {id}), cfg.Desired(fill));
  }

  /** The record's own fields do not matter once it has left the table. */
  lemma RecordIsForgotten(p: Pool, id: LeaseId, rec: Rec, kept: bool, wanted: nat)
    requires id in p.leased && rec.executor == p.leased[id].executor
    ensures WithoutLease(SetRec(p, id, rec), id, kept, wanted) == WithoutLease(p, id, kept, wanted)
    ensures |SetRec(p, id, rec).leased| == |p.leased|
  {
    assert p.leased[id := rec] - {id} == p.leased - {id};
    assert |p.leased[id := rec].Keys| == |p.leased.Keys|;
  }

  // ------------------------------------------------------------------------------
  // Release
  // ------------------------------------------------------------------------------

  /** What a release does to the pool and the debts. */
  function Released(p: Pool, d: Debts, id: LeaseId, now: real, keep: nat, fill: nat): (Pool, Debts) {
    if id !in p.leased then (p, d)
    else
      var rec := p.leased[id];
      if rec.pending != {} then (SetRec(p, id, rec.(releaseRequested := true)), d)
      else
        var kept := IsKept(p, id, now, keep);
        (WithoutLease(p, id, kept, fill), OweEnd(d, rec.executor, kept))
  }

  lemma ReleaseIs(cfg: Config, p: Pool, d: Debts, id: LeaseId, now: real, keep: Reading, fill: Reading)
    requires cfg.Valid()
    ensures var o := Release(cfg, p, id, now, keep, fill);
            (o.pool, Owe(d, o)) == Released(p, d, id, now, cfg.Desired(keep), cfg.Desired(fill))
  {
    hide Finalize, WithoutLease, Config.Desired;
    assert d.shutdowns + multiset{} == d.shutdowns;
    if id in p.leased {
      var rec := p.leased[id].(releaseRequested := true);
      var q := SetRec(p, id, rec);
      FinalizeIs(cfg, q, id, now, keep, fill);
      RecordIsForgotten(p, id, rec, IsKept(q, id, now, cfg.Desired(keep)), cfg.Desired(fill));
    }
  }

  /** A release of an id that is not held does nothing.  Of a busy lease it is remembered, and
      nothing else happens.  A drained one ends at once. */
  lemma ReleaseEffect(cfg: Config, run: seq<Label>, id: LeaseId, keep: Reading, fill: Reading)
    requires Run(cfg, run)
    ensures var s := After(cfg, run);
            var (p, d) := Released(s.pool, s.debts, id, s.now, cfg.Desired(keep), cfg.Desired(fill));
            Apply(cfg, s, ReleaseLease(id, keep, fill)) == s.(pool := p, debts := d)
  {
    hide Legal, Exec, Inv, Release, Released, Owe;
    var s := After(cfg, run);
    ReleaseIs(cfg, s.pool, s.debts, id, s.now, keep, fill);
  }

  /** So a release always makes its id over, if it was ever issued: gone, or remembered and
      still draining. */
  lemma ReleaseIsRemembered(cfg: Config, run: seq<Label>, id: LeaseId, keep: Reading, fill: Reading)
    requires Run(cfg, run)
    ensures var t := Apply(cfg, After(cfg, run), ReleaseLease(id, keep, fill));
            && (id in t.pool.leased ==> t.pool.leased[id].releaseRequested && t.pool.leased[id].pending != {})
            && (id in After(cfg, run).ledger.issued ==> Over(t, id))
  {
    hide Legal, Exec, Inv, Apply, Enabled, IsKept, OweEnd, Numbers, AsSet, Config.Desired, Need;
    ReleaseEffect(cfg, run, id, keep, fill);
  }

  /** And from then on every submission under it is rejected. */
  lemma ReleasedIsRejectedForGood(cfg: Config, run: seq<Label>, rest: seq<Label>, id: LeaseId, keep: Reading,
                                  fill: Reading, answer: Answer, r: Reading)
    requires Run(cfg, run) && id in After(cfg, run).ledger.issued
    requires Run(cfg, run + [ReleaseLease(id, keep, fill)] + rest)
    ensures var t := After(cfg, run + [ReleaseLease(id, keep, fill)] + rest);
            var reply := Submit(cfg, t.pool, id, t.now, answer, r).1;
            reply == NotActive || reply == AlreadyReleased || reply == PoolModel.LeaseExpired
  {
    hide Legal, Exec, Inv, Apply, Enabled, Submit, Over;
    ReleaseIsRemembered(cfg, run, id, keep, fill);
    ReleaseIsAlwaysEnabled(cfg, run, id, keep, fill);
    RunOn(cfg, run, ReleaseLease(id, keep, fill));
    RejectionIsPermanent(cfg, run + [ReleaseLease(id, keep, fill)], rest, id, answer, r);
  }

  lemma ReleaseIsAlwaysEnabled(cfg: Config, run: seq<Label>, id: LeaseId, keep: Reading, fill: Reading)
    requires Run(cfg, run)
    ensures Enabled(cfg, After(cfg, run), ReleaseLease(id, keep, fill))
  {
  }

  // ------------------------------------------------------------------------------
  // Callbacks
  // ------------------------------------------------------------------------------

  /** What the end of a future does to the pool and the debts. */
  function FutureEnds(p: Pool, d: Debts, id: LeaseId, f: FutureId, broken: bool, now: real,
                      keep: nat, fill: nat): (Pool, Debts)
  {
    if id !in p.leased then (p, d)
    else
      var rec := p.leased[id];
      if broken then (WithoutLease(p, id, false, fill), OweEnd(d, rec.executor, false))
      else if rec.releaseRequested && rec.pending <= {f} then
        var kept := IsKept(p, id, now, keep);
        (WithoutLease(p, id, kept, fill), OweEnd(d, rec.executor, kept))
      else (SetRec(p, id, rec.(pending := rec.pending - {f})), d)
  }

  lemma FutureDoneIs(cfg: Config, p: Pool, d: Debts, id: LeaseId, f: FutureId, broken: bool, now: real,
                     keep: Reading, fill: Reading)
    requires cfg.Valid()
    ensures var o := FutureDone(cfg, p, id, f, broken, now, keep, fill);
            (o.pool, Owe(d, o)) == FutureEnds(p, d, id, f, broken, now, cfg.Desired(keep), cfg.Desired(fill))
  {
    hide Finalize, Retire, WithoutLease, Config.Desired;
    assert d.shutdowns + multiset{} == d.shutdowns;
    if id in p.leased {
      var rec := p.leased[id].(pending := p.leased[id].pending - {f});
      var q := SetRec(p, id, rec);
      assert rec.pending == {} <==> p.leased[id].pending <= {f};
      FinalizeIs(cfg, q, id, now, keep, fill);
      RetireIs(cfg, q, id, fill);
      RecordIsForgotten(p, id, rec, false, cfg.Desired(fill));
      RecordIsForgotten(p, id, rec, IsKept(q, id, now, cfg.Desired(keep)), cfg.Desired(fill));
    }
  }

  /** A callback takes its future off the lease, or ends the lease if the executor broke or
      it was the last of a released one; the executor is not kept past the lease's expiry. */
  lemma CallbackEffect(cfg: Config, run: seq<Label>, f: FutureId, keep: Reading, fill: Reading)
    requires Run(cfg, run) && Enabled(cfg, After(cfg, run), RunDoneCallback(f, keep, fill))
    ensures var s := After(cfg, run);
            var k := s.ledger.work[f];
            var (p, d) :=
              FutureEnds(s.pool, s.debts, k.lease, f, k.broken, s.now, cfg.Desired(keep), cfg.Desired(fill));
            Apply(cfg, s, RunDoneCallback(f, keep, fill)) ==
            s.(pool := p, debts := d, ledger := s.ledger.(work := s.ledger.work[f := k.(called := true)]))
  {
    hide Legal, Exec, Inv, FutureDone, FutureEnds, Owe;
    var s := After(cfg, run);
    var k := s.ledger.work[f];
    FutureDoneIs(cfg, s.pool, s.debts, k.lease, f, k.broken, s.now, keep, fill);
  }

  // ------------------------------------------------------------------------------
  // Submission
  // ------------------------------------------------------------------------------

  /** What is said to the caller. */
  lemma SubmissionReplies(cfg: Config, p: Pool, id: LeaseId, now: real, answer: Answer, fill: Reading)
    requires cfg.Valid()
    ensures var reply := Submit(cfg, p, id, now, answer, fill).1;
            && (reply == NotActive <==> id !in p.leased)
            && (reply == AlreadyReleased <==> id in p.leased && p.leased[id].releaseRequested)
            && (id in p.leased && !p.leased[id].releaseRequested ==>
                  reply == if Lapsed(p.leased[id], now) then LeaseExpired
                           else match answer
                                case Accepts(f) => Submitted(f)
                                case Breaks => BrokenExecutor
                                case Fails => OtherError)
  {
    hide Retire;
  }

  /** What a submission does to the pool and the debts, before its future is done. */
  function SubmittedTo(p: Pool, d: Debts, id: LeaseId, now: real, answer: Answer, fill: nat): (Pool, Debts) {
    if id !in p.leased || p.leased[id].releaseRequested then (p, d)
    else
      var rec := p.leased[id];
      if Lapsed(rec, now) || answer.Breaks? then (WithoutLease(p, id, false, fill), OweEnd(d, rec.executor, false))
      else if answer.Fails? then (p, d)
      else (SetRec(p, id, rec.(pending := rec.pending + {answer.future})), d)
  }

  /** Is the future taken? */
  predicate IsTaken(p: Pool, id: LeaseId, now: real, answer: Answer) {
    id in p.leased && !p.leased[id].releaseRequested && !Lapsed(p.leased[id], now) && answer.Accepts?
  }

  lemma SubmitIs(cfg: Config, p: Pool, d: Debts, id: LeaseId, now: real, answer: Answer, fill: Reading)
    requires cfg.Valid()
    ensures var (o, reply) := Submit(cfg, p, id, now, answer, fill);
            && (o.pool, Owe(d, o)) == SubmittedTo(p, d, id, now, answer, cfg.Desired(fill))
            && (reply.Submitted? <==> IsTaken(p, id, now, answer))
            && (reply.Submitted? ==> reply.future == answer.future)
  {
    hide Retire, WithoutLease, Config.Desired;
    assert d.shutdowns + multiset{} == d.shutdowns;
    if id in p.leased { RetireIs(cfg, p, id, fill); }
  }

  /** And with the end of its future, if that comes at once. */
  function SubmittedAtOnce(p: Pool, d: Debts, id: LeaseId, now: real, answer: Answer, atOnce: Option<bool>,
                           fill: nat, keep: nat, refill: nat): (Pool, Debts)
  {
    var (q, e) := SubmittedTo(p, d, id, now, answer, fill);
    if IsTaken(p, id, now, answer) && atOnce.Some?
    then FutureEnds(q, e, id, answer.future, atOnce.value, now, keep, refill)
    else (q, e)
  }

  lemma SubmitAtOnceIs(cfg: Config, p: Pool, d: Debts, id: LeaseId, now: real, answer: Answer, atOnce: Option<bool>,
                       fill: Reading, keep: Reading, refill: Reading)
    requires cfg.Valid()
    ensures var (o, _) := SubmitAtOnce(cfg, p, id, now, answer, atOnce, fill, keep, refill);
            (o.pool, Owe(d, o)) ==
            SubmittedAtOnce(p, d, id, now, answer, atOnce, cfg.Desired(fill), cfg.Desired(keep), cfg.Desired(refill))
  {
    hide Submit, SubmittedTo, FutureDone, FutureEnds, IsTaken;
    SubmitIs(cfg, p, d, id, now, answer, fill);
    var (o, reply) := Submit(cfg, p, id, now, answer, fill);
    TakenOwesNothing(cfg, p, id, now, answer, fill);
    assert d.shutdowns + multiset{} == d.shutdowns;
    if reply.Submitted? && atOnce.Some? {
      FutureDoneIs(cfg, o.pool, d, id, reply.future, atOnce.value, now, keep, refill);
    }
  }

  /** A submission under a lease that is not held or was released, and one the executor just
      fails, does nothing.  An expired lease, and one with a broken executor, ends, and its
      executor is to be shut down.  Else the future is pending on the lease; if it is done at
      once its end follows at once. */
  lemma SubmissionEffect(cfg: Config, run: seq<Label>, id: LeaseId, answer: Answer, atOnce: Option<bool>,
                         fill: Reading, keep: Reading, refill: Reading)
    requires Run(cfg, run)
    requires Enabled(cfg, After(cfg, run), SubmitWork(id, answer, atOnce, fill, keep, refill))
    ensures var s := After(cfg, run);
            var t := Apply(cfg, s, SubmitWork(id, answer, atOnce, fill, keep, refill));
            && t.now == s.now && t.loop == s.loop
            && (t.pool, t.debts) ==
               SubmittedAtOnce(s.pool, s.debts, id, s.now, answer, atOnce,
                               cfg.Desired(fill), cfg.Desired(keep), cfg.Desired(refill))
            && t.ledger ==
               if IsTaken(s.pool, id, s.now, answer)
               then s.ledger.(work := s.ledger.work[answer.future := Work(id, s.pool.leased[id].executor, atOnce.Some?,
                                                                          atOnce == Some(true), atOnce.Some?)])
               else s.ledger
  {
    hide Legal, Exec, Inv, Submit, SubmitAtOnce, SubmittedAtOnce, FutureDone, IsTaken, Owe;
    var s := After(cfg, run);
    SubmitIs(cfg, s.pool, s.debts, id, s.now, answer, fill);
    TakenOwesNothing(cfg, s.pool, id, s.now, answer, fill);
    SubmitAtOnceIs(cfg, s.pool, s.debts, id, s.now, answer, atOnce, fill, keep, refill);
    SubmitIsOneSection(cfg, s, id, answer, atOnce, fill, keep, refill);
  }

  lemma TakenOwesNothing(cfg: Config, p: Pool, id: LeaseId, now: real, answer: Answer, fill: Reading)
    requires cfg.Valid()
    ensures var (o, reply) := Submit(cfg, p, id, now, answer, fill);
            reply.Submitted? ==> id in p.leased && !o.ended && o.toShutdown == None
    ensures id in p.leased || !IsTaken(p, id, now, answer)
  {
    hide Retire;
  }
}
