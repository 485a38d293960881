/**
 The grinder at work: its one task, the callers, cancellations, and the clock.  The
 task's coroutines are cut at their suspensions, so one label is what runs between two.
 */
module GrinderSystem {
  import opened Options
  import opened Reals
  import opened GrinderModel

  type LeaseId = nat

  /** Where the grinder's task is. */
  datatype Phase =
    | NoTask
    | Running                                                     // about to look at the queue
    | Parked(until: Option<real>)                                 // waiting on the condition
    | Acquiring(live: seq<Item>)                                  // a batch, waiting for a lease
    | Gathering(live: seq<Item>, taken: nat, lease: LeaseId)      // its first items are running
    | Finished

  datatype Task = Task(
    phase: Phase,
    notified: bool,
    cancelRequested: bool,
    stopCancelled: bool,             // the caller that stops it was cancelled; until the next start
    due: real,                       // since when the idle task has something to look at
    since: real)                     // when it was started, or last took up the queue

  /** History: accepted work, what was handed to executors in which order, leases taken and
      given back, removals scheduled, cancelled work whose callback ran when there was no loop
      to schedule its removal on, and the number of batches when stop began. */
  datatype Ledger = Ledger(
    history: seq<Item>,
    handed: seq<Item>,
    leases: set<LeaseId>,
    released: multiset<LeaseId>,
    removals: set<WorkId>,
    orphans: set<WorkId>,
    stopMark: nat)

  datatype Sys = Sys(g: Grinder, task: Task, ledger: Ledger, now: real)

  function Init(): Sys {
    Sys(IDLE, Task(NoTask, false, false, false, 0.0, 0.0), Ledger([], [], {}, multiset{}, {}, {}, 0), 0.0)
  }

  /** A stop that waits for the task passes the cancellation of its own caller on to it.  If
      queued work is to be cancelled too, the stop goes on all the same; if not, it raises
      when the task has ended, and the grinder is left started and stopping, without a task,
      until someone stops it again. */
  datatype Label =
    | Start
    | Accept(call: Call)
    | SettledOutside(id: WorkId, state: FutureState)
    | RemovalRuns(id: WorkId)
    | RemovalDropped(id: WorkId)
    | TaskRuns
    | LeaseAcquired(lease: LeaseId, refusal: Option<Refusal>)
    | AcquireFails(error: int)
    | WorkGathered(endings: seq<Ending>)
    | TaskCancelled
    | StopBegins(cancelPending: bool)
    | StopCancelled
    | StopEnds
    | StopRaises
    | StopAgain(cancelPending: bool)
    | TimePasses(seconds: real)

  predicate Enabled(settings: Settings, s: Sys, l: Label) {
    match l
    case Start => !s.g.started
    case Accept(_) => s.g.started && !s.g.stopping
    case SettledOutside(id, state) => IsUnsettled(s.g.futures, id) && state != Unsettled
    case RemovalRuns(id) => id in s.ledger.removals
    case RemovalDropped(id) => id in s.ledger.removals && !s.g.started
    case TaskRuns =>
      !s.task.cancelRequested
      && (s.task.phase.Running?
          || (s.task.phase.Parked?
              && (s.task.notified || (s.task.phase.until.Some? && s.now >= s.task.phase.until.value))))
    case LeaseAcquired(lease, _) => !s.task.cancelRequested && s.task.phase.Acquiring? && lease !in s.ledger.leases
    case AcquireFails(_) => !s.task.cancelRequested && s.task.phase.Acquiring?
    case WorkGathered(endings) =>
      !s.task.cancelRequested && s.task.phase.Gathering? && |endings| == s.task.phase.taken <= |s.task.phase.live|
    case TaskCancelled => s.task.cancelRequested && !s.task.phase.Finished? && !s.task.phase.NoTask?
    case StopBegins(_) => s.g.started && !s.g.stopping
    case StopCancelled => s.g.stopping && !s.task.cancelRequested && !s.task.phase.NoTask?
    case StopEnds => s.g.stopping && s.task.phase.Finished? && !s.task.stopCancelled
    case StopRaises => s.g.stopping && s.task.phase.Finished? && s.task.stopCancelled
    case StopAgain(_) => s.g.stopping && s.task.phase.NoTask?
    case TimePasses(seconds) => seconds > 0.0
  }

  /** Wake the task if it waits on the condition. */
  function Notify(t: Task, now: real): Task {
    if !t.phase.Parked? then t
    else if t.notified || t.phase.until.Some? then t.(notified := true, due := RealMin(t.due, now))
    else t.(notified := true, due := now)
  }

  /** The task is through with a batch: it leaves if a stop is under way and nothing waits. */
  function AfterBatch(t: Task, g: Grinder, now: real): Task {
    if g.stopping && g.pending == [] then t.(phase := Finished) else t.(phase := Running, due := now)
  }

  /** A cancelled future schedules the removal of its item from the queue. */
  function Scheduled(removals: set<WorkId>, before: Futures, after: Futures): set<WorkId> {
    removals + set id | id in after && id in before && before[id] == Unsettled && after[id] == Cancelled
  }

  /** A caller cancels work: its removal is scheduled on the loop, if there is one. */
  function Abandon(ledger: Ledger, started: bool, id: WorkId): Ledger {
    if started then ledger.(removals := ledger.removals + {id}) else ledger.(orphans := ledger.orphans + {id})
  }

  function TaskRunsStep(settings: Settings, s: Sys): Sys {
    match Look(settings, s.g, s.now)
    case Leave => s.(task := s.task.(phase := Finished))
    case Sleep(until) =>
      s.(task := s.task.(phase := Parked(until), notified := false,
                         due := if until.Some? then until.value else s.now))
    case Batch =>
      var (g, live) := TakeUp(s.g);
      var task := if live == [] then AfterBatch(s.task, g, s.now) else s.task.(phase := Acquiring(live));
      s.(g := g, task := task.(since := s.now))
  }

  /** The batch is submitted until the executor refuses an item or a call cannot be prepared;
      if nothing was taken, or the batch fails, the lease goes back at once. */
  function LeaseAcquiredStep(s: Sys, lease: LeaseId, refusal: Option<Refusal>): Sys
    requires s.task.phase.Acquiring?
  {
    var live := s.task.phase.live;
    var n := Taken(live, refusal);
    var g := s.g.(futures := Submit(s.g.futures, live, refusal));
    var ledger := s.ledger.(handed := s.ledger.handed + live[..n], leases := s.ledger.leases + {lease});
    if n == 0 || Spoiled(live, refusal)
    then s.(g := g, ledger := ledger.(released := ledger.released + multiset{lease}),
            task := AfterBatch(s.task, g, s.now))
    else s.(g := g, ledger := ledger, task := s.task.(phase := Gathering(live, n, lease)))
  }

  function AcquireFailsStep(s: Sys, error: int): Sys
    requires s.task.phase.Acquiring?
  {
    var g := s.g.(futures := SettleAll(s.g.futures, s.task.phase.live, Settled(Raises(error))));
    s.(g := g, task := AfterBatch(s.task, g, s.now))
  }

  function WorkGatheredStep(s: Sys, endings: seq<Ending>): Sys
    requires s.task.phase.Gathering? && |endings| == s.task.phase.taken <= |s.task.phase.live|
  {
    var phase := s.task.phase;
    var g := s.g.(futures := Resolve(s.g.futures, phase.live[..phase.taken], GatherAll(endings)));
    s.(g := g, ledger := s.ledger.(released := s.ledger.released + multiset{phase.lease}),
       task := AfterBatch(s.task, g, s.now))
  }

  /** The batch in the task's hands, submitted or not. */
  function InHand(phase: Phase): seq<Item> {
    match phase
    case Acquiring(live) => live
    case Gathering(live, _, _) => live
    case _ => []
  }

  /** Cancellation arrives where the task is suspended: a batch in the making or at work is
      cancelled, its lease given back, and the task ends. */
  function TaskCancelledStep(s: Sys): Sys {
    var futures := SettleAll(s.g.futures, InHand(s.task.phase), Cancelled);
    s.(g := s.g.(futures := futures),
       ledger := s.ledger.(removals := Scheduled(s.ledger.removals, s.g.futures, futures),
                           released := s.ledger.released
                                       + (if s.task.phase.Gathering? then multiset{s.task.phase.lease}
                                          else multiset{})),
       task := s.task.(phase := Finished))
  }

  function StopBeginsStep(s: Sys, cancelPending: bool): Sys {
    var g := StopBegin(s.g, cancelPending);
    s.(g := g, task := Notify(s.task, s.now).(cancelRequested := cancelPending),
       ledger := s.ledger.(removals := Scheduled(s.ledger.removals, s.g.futures, g.futures), stopMark := s.g.batchSeq))
  }

  function Apply(settings: Settings, s: Sys, l: Label): Sys
    requires Enabled(settings, s, l)
  {
    match l
    case Start =>
      s.(g := s.g.(started := true, stopping := false), task := Task(Running, false, false, false, s.now, s.now))
    case Accept(call) =>
      s.(g := Enqueue(s.g, |s.ledger.history|, call, s.now), task := Notify(s.task, s.now),
         ledger := s.ledger.(history := s.ledger.history + [Item(|s.ledger.history|, call, s.now)]))
    case SettledOutside(id, state) =>
      s.(g := s.g.(futures := Settle(s.g.futures, id, state)),
         ledger := if state == Cancelled then Abandon(s.ledger, s.g.started, id) else s.ledger)
    case RemovalRuns(id) =>
      if Has(s.g.pending, id)
      then s.(g := s.g.(pending := Without(s.g.pending, id)), task := Notify(s.task, s.now),
              ledger := s.ledger.(removals := s.ledger.removals - {id}))
      else s.(ledger := s.ledger.(removals := s.ledger.removals - {id}))
    case RemovalDropped(id) =>
      s.(ledger := s.ledger.(removals := s.ledger.removals - {id}, orphans := s.ledger.orphans + {id}))
    case TaskRuns => TaskRunsStep(settings, s)
    case LeaseAcquired(lease, refusal) => LeaseAcquiredStep(s, lease, refusal)
    case AcquireFails(error) => AcquireFailsStep(s, error)
    case WorkGathered(endings) => WorkGatheredStep(s, endings)
    case TaskCancelled => TaskCancelledStep(s)
    case StopBegins(cancelPending) => StopBeginsStep(s, cancelPending)
    case StopCancelled => s.(task := s.task.(cancelRequested := true, stopCancelled := true))
    case StopRaises => s.(task := s.task.(phase := NoTask, cancelRequested := false))
    case StopAgain(cancelPending) =>
      s.(g := StopBegin(s.g, cancelPending).(started := false, stopping := false))
    case StopEnds =>
      s.(g := s.g.(started := false, stopping := false), task := s.task.(phase := NoTask, cancelRequested := false))
    case TimePasses(seconds) => s.(now := s.now + seconds)
  }

  ghost function Next(settings: Settings): (Sys, Label) -> Option<Sys> {
    (s: Sys, l: Label) => if Enabled(settings, s, l) then Some(Apply(settings, s, l)) else None
  }
}
