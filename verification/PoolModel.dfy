/**
 The pool: idle executors, lease records, and what each lock-held section of the
 manager does to them.  These are the specifications the class in Manager.dfy is
 proved against; the lemmas here say what the sections achieve.
 */
module PoolModel {
  import opened Options
  import opened Reals
  import opened Sizing

  /** Executors are named by the manager's sequence counter. */
  type ExecId = nat
  type LeaseId = nat
  type FutureId = nat

  datatype Rec = Rec(
    executor: ExecId,
    leasedAt: real,
    leaseSeconds: real,
    graceSeconds: real,
    pending: set<FutureId>,
    releaseRequested: bool,
    broken: bool)
  {
    function HardExpiresAt(): real {
      leasedAt + leaseSeconds + graceSeconds
    }

    predicate Expired(now: real) {
      now >= HardExpiresAt()
    }
  }

  /** The manager's fields, with two records of what it did to executors: which ones
      it created, and how often it called `shutdown` on each. */
  datatype Pool = Pool(
    available: seq<ExecId>,
    leased: map<LeaseId, Rec>,
    executorSeq: nat,
    started: bool,
    stopping: bool,
    created: set<ExecId>,
    shutdowns: multiset<ExecId>)
  {
    function Total(): nat {
      |available| + |leased|
    }

    function Held(): set<ExecId> {
      HeldBy(leased)
    }

    /** Created, and now neither idle nor leased. */
    predicate Retired(e: ExecId) {
      e in created && e !in available && e !in Held()
    }
  }

  function HeldBy(leased: map<LeaseId, Rec>): set<ExecId> {
    set id | id in leased :: leased[id].executor
  }

  ghost predicate Distinct<T>(s: seq<T>) {
    forall i, j :: 0 <= i < j < |s| ==> s[i] != s[j]
  }

  ghost predicate OneLeaseEach(leased: map<LeaseId, Rec>) {
    forall i, j :: i in leased && j in leased && i != j ==> leased[i].executor != leased[j].executor
  }

  /** An executor is in at most one place, and the bound holds. */
  ghost predicate Exclusive(cfg: Config, p: Pool) {
    && Distinct(p.available)
    && OneLeaseEach(p.leased)
    && (forall id :: id in p.leased ==> p.leased[id].executor !in p.available && p.leased[id].executor in p.created)
    && (forall e :: e in p.available ==> e in p.created)
    && (forall e :: e in p.created ==> e <= p.executorSeq)
    && p.Total() <= cfg.maxPools
  }

  /** A held lease is not broken, and a released one is still draining something. */
  ghost predicate Lifecycle(p: Pool) {
    forall id :: id in p.leased ==>
      && !p.leased[id].broken
      && (p.leased[id].releaseRequested ==> p.leased[id].pending != {})
  }

  ghost predicate PoolInv(cfg: Config, p: Pool) {
    && Exclusive(cfg, p)
    && Lifecycle(p)
    && (!p.started ==> p.available == [] && p.leased == map[])
    && (p.stopping ==> p.started)
  }

  /** Each retired executor has been shut down once, or is owed exactly one shutdown by
      an actor that has left the lock; no other executor has been or will be. */
  ghost predicate Balanced(p: Pool, owed: multiset<ExecId>) {
    forall e: ExecId :: p.shutdowns[e] + owed[e] == if p.Retired(e) then 1 else 0
  }

  const INITIAL := Pool([], map[], 0, false, false, {}, multiset{})

  // ------------------------------------------------------------------------------
  // Building blocks
  // ------------------------------------------------------------------------------

  function Grow(p: Pool): Pool {
    var e := p.executorSeq + 1;
    p.(available := p.available + [e], executorSeq := e, created := p.created + {e})
  }

  function EnsureMinimum(p: Pool, target: nat): Pool
    decreases target - p.Total()
  {
    if p.Total() < target then EnsureMinimum(Grow(p), target) else p
  }

  function ShrinkIdle(p: Pool, target: nat): Pool
    decreases |p.available|
  {
    if |p.available| > 0 && p.Total() > target then
      var n := |p.available| - 1;
      ShrinkIdle(p.(available := p.available[..n], shutdowns := p.shutdowns + multiset{p.available[n]}), target)
    else
      p
  }

  function ExpiredIds(leased: map<LeaseId, Rec>, now: real): set<LeaseId> {
    set id | id in leased && leased[id].Expired(now)
  }

  function ExecutorsOf(leased: map<LeaseId, Rec>, ids: set<LeaseId>): set<ExecId> {
    set id | id in ids && id in leased :: leased[id].executor
  }

  /** Drop the leases in `gone` and shut their executors down. */
  function Drop(p: Pool, gone: set<LeaseId>): Pool {
    p.(leased := p.leased - gone, shutdowns := p.shutdowns + multiset(ExecutorsOf(p.leased, gone)))
  }

  function Revoke(cfg: Config, p: Pool, now: real, reading: Reading): Pool
    requires cfg.Valid()
  {
    var gone := ExpiredIds(p.leased, now);
    if gone == {} then p else EnsureMinimum(Drop(p, gone), cfg.Desired(reading))
  }

  /** The pool without the executor handed out, which is then in neither place. */
  function TakeOrCreate(cfg: Config, p: Pool): (Pool, Option<ExecId>) {
    if p.available != [] then
      (p.(available := p.available[1..]), Some(p.available[0]))
    else if p.Total() < cfg.maxPools then
      var e := p.executorSeq + 1;
      (p.(executorSeq := e, created := p.created + {e}), Some(e))
    else
      (p, None)
  }

  /** What a section that may end a lease leaves to be done after the lock: perhaps an
      executor to shut down, and whether waiters and checker are to be woken. */
  datatype Outcome = Outcome(pool: Pool, toShutdown: Option<ExecId>, ended: bool)

  function Nothing(p: Pool): Outcome {
    Outcome(p, None, false)
  }

  function Owed(o: Option<ExecId>): multiset<ExecId> {
    match o
    case None => multiset{}
    case Some(e) => multiset{e}
  }

  // ------------------------------------------------------------------------------
  // Lock-held sections.  `now` is the one reading of the clock; the readings of the
  // size provider are separate, one for each call of it.
  // ------------------------------------------------------------------------------

  datatype Attempt = NotStarted | Unavailable | Leased

  function Acquire(cfg: Config, p: Pool, now: real, id: LeaseId, seconds: real, reading: Reading): (Pool, Attempt)
    requires cfg.Valid()
  {
    if !p.started || p.stopping then
      (p, NotStarted)
    else
      var (q, executor) := TakeOrCreate(cfg, Revoke(cfg, p, now, reading));
      match executor
      case None => (q, Unavailable)
      case Some(e) => (q.(leased := q.leased[id := Rec(e, now, seconds, cfg.graceSeconds, {}, false, false)]), Leased)
  }

  /** Would the executor of a lease that has just left this pool be kept? */
  predicate Wanted(cfg: Config, p: Pool, rec: Rec, now: real, reading: Reading)
    requires cfg.Valid()
  {
    !rec.broken && !p.stopping && !rec.Expired(now) && p.Total() + 1 <= cfg.Desired(reading)
  }

  predicate Keeps(cfg: Config, p: Pool, id: LeaseId, now: real, reading: Reading)
    requires cfg.Valid() && id in p.leased
  {
    Wanted(cfg, p.(leased := p.leased - {id}), p.leased[id], now, reading)
  }

  function Finalize(cfg: Config, p: Pool, id: LeaseId, now: real, keep: Reading, fill: Reading): Outcome
    requires cfg.Valid() && id in p.leased
  {
    var e := p.leased[id].executor;
    var q := p.(leased := p.leased - {id});
    if Keeps(cfg, p, id, now, keep) then
      Outcome(EnsureMinimum(q.(available := q.available + [e]), cfg.Desired(fill)), None, true)
    else
      Outcome(EnsureMinimum(q, cfg.Desired(fill)), Some(e), true)
  }

  /** Remove a lease whose executor is not to be used again. */
  function Retire(cfg: Config, p: Pool, id: LeaseId, fill: Reading): Outcome
    requires cfg.Valid() && id in p.leased
  {
    Outcome(EnsureMinimum(p.(leased := p.leased - {id}), cfg.Desired(fill)), Some(p.leased[id].executor), true)
  }

  function Release(cfg: Config, p: Pool, id: LeaseId, now: real, keep: Reading, fill: Reading): Outcome
    requires cfg.Valid()
  {
    if id !in p.leased then
      Nothing(p)
    else
      var q := p.(leased := p.leased[id := p.leased[id].(releaseRequested := true)]);
      if p.leased[id].pending != {} then Nothing(q) else Finalize(cfg, q, id, now, keep, fill)
  }

  /** What the executor says to a submission: a future, BrokenExecutor, or another error. */
  datatype Answer = Accepts(future: FutureId) | Breaks | Fails

  datatype Reply =
    | NotActive
    | AlreadyReleased
    | LeaseExpired
    | BrokenExecutor
    | OtherError
    | Submitted(future: FutureId)

  function Submit(cfg: Config, p: Pool, id: LeaseId, now: real, answer: Answer, fill: Reading): (Outcome, Reply)
    requires cfg.Valid()
  {
    if id !in p.leased then
      (Nothing(p), NotActive)
    else if p.leased[id].releaseRequested then
      (Nothing(p), AlreadyReleased)
    else if p.leased[id].Expired(now) then
      (Retire(cfg, p, id, fill), LeaseExpired)
    else
      match answer
      case Accepts(f) =>
        (Nothing(p.(leased := p.leased[id := p.leased[id].(pending := p.leased[id].pending + {f})])), Submitted(f))
      case Breaks => (Retire(cfg, p, id, fill), BrokenExecutor)
      case Fails => (Nothing(p), OtherError)
  }

  function FutureDone(cfg: Config, p: Pool, id: LeaseId, f: FutureId, broken: bool, now: real,
                      keep: Reading, fill: Reading): Outcome
    requires cfg.Valid()
  {
    if id !in p.leased then
      Nothing(p)
    else
      var rec := p.leased[id].(pending := p.leased[id].pending - {f});
      var q := p.(leased := p.leased[id := rec]);
      if broken then Retire(cfg, q, id, fill)
      else if rec.releaseRequested && rec.pending == {} then Finalize(cfg, q, id, now, keep, fill)
      else Nothing(q)
  }

  /** A submission whose future may be done by the time the callback is attached: `atOnce`
      says so, and whether the executor broke; the callback then runs inside the section. */
  function SubmitAtOnce(cfg: Config, p: Pool, id: LeaseId, now: real, answer: Answer, atOnce: Option<bool>,
                        fill: Reading, keep: Reading, refill: Reading): (Outcome, Reply)
    requires cfg.Valid()
  {
    var (o, reply) := Submit(cfg, p, id, now, answer, fill);
    if reply.Submitted? && atOnce.Some?
    then (FutureDone(cfg, o.pool, id, reply.future, atOnce == Some(true), now, keep, refill), reply)
    else (o, reply)
  }

  function Tick(cfg: Config, p: Pool, now: real, revoke: Reading, fill: Reading, shrink: Reading): Pool
    requires cfg.Valid()
  {
    ShrinkIdle(EnsureMinimum(Revoke(cfg, p, now, revoke), cfg.Desired(fill)), cfg.Desired(shrink))
  }

  /** The first hard expiry among the leases. */
  ghost function EarliestExpiry(leased: map<LeaseId, Rec>): Option<real>
    decreases |leased|
  {
    if leased == map[] then
      None
    else
      var id :| id in leased;
      assert |leased - {id}| < |leased| by { assert leased.Keys == (leased - {id}).Keys + {id}; }
      var rest := EarliestExpiry(leased - {id});
      if rest == None || leased[id].HardExpiresAt() < rest.value then Some(leased[id].HardExpiresAt()) else rest
  }

  /** How long the checker sleeps after a tick: to the next expiry, at most the interval. */
  ghost function WaitSeconds(cfg: Config, p: Pool, now: real): real {
    match EarliestExpiry(p.leased)
    case None => cfg.checkInterval
    case Some(t) => RealMin(cfg.checkInterval, RealMax(0.0, t - now))
  }

  /** Everything the manager owns is shut down and forgotten. */
  function Clear(p: Pool): Pool {
    p.(available := [], leased := map[], shutdowns := p.shutdowns + multiset(p.available) + multiset(p.Held()))
  }

  function Start(cfg: Config, p: Pool, fill: Reading): Pool
    requires cfg.Valid()
  {
    EnsureMinimum(p.(stopping := false), cfg.Desired(fill)).(started := true)
  }

  /** A start that creates some executors and then fails to create one more. */
  function StartFails(p: Pool, creations: nat): Pool {
    var q := EnsureMinimum(p.(stopping := false), p.Total() + creations);
    Clear(q.(executorSeq := q.executorSeq + 1))
  }

  function StopBegin(p: Pool): Pool {
    p.(stopping := true)
  }

  function StopFinish(p: Pool): Pool {
    Clear(p).(started := false, stopping := false)
  }
}
