/**
 What a stop of the grinder achieves, and what it does not if its caller is cancelled.
 */
module GrinderStopping {
  import opened Runs
  import opened GrinderModel
  import opened GrinderSystem
  import opened GrinderInvariant
  import opened GrinderSteps
  import opened GrinderTheorems
  import opened GrinderOutcomes

  /** When the loop has ended, every lease taken was given back exactly once, and no future
      is open but of what is still queued.  Nothing is, in either mode of stop, unless the
      stop's caller was cancelled: then every accepted item's future is done. */
  lemma StopSettlesEverything(settings: Settings, run: seq<Label>)
    requires Run(settings, run) && Ended(After(settings, run).task.phase)
    ensures var s := After(settings, run);
            && (forall l: LeaseId :: s.ledger.released[l] == if l in s.ledger.leases then 1 else 0)
            && (forall id: WorkId :: id < |s.ledger.history| ==>
                  id in s.g.futures && (s.g.futures[id] == Unsettled ==> Has(s.g.pending, id)))
            && (!s.task.stopCancelled ==>
                  && s.g.pending == []
                  && forall id: WorkId :: id < |s.ledger.history| ==> id in s.g.futures && s.g.futures[id] != Unsettled)
  {
    hide LineInv, BatchInv, TriggerInv, RemovalInv, Has;
    var s := After(settings, run);
    Reachable(settings, run);
    forall id: WorkId | id < |s.ledger.history|
      ensures id in s.g.futures && (s.g.futures[id] == Unsettled ==> Has(s.g.pending, id))
      ensures s.g.pending == [] ==> s.g.futures[id] != Unsettled
    {
      NothingHas(id);
      OpenIsLocated(s, id);
    }
  }

  // ------------------------------------------------------------------------------
  // A stop whose caller is cancelled
  // ------------------------------------------------------------------------------

  /** Nothing in the run starts the grinder again, or cancels what is queued. */
  ghost predicate LeftAlone(run: seq<Label>) {
    forall i :: 0 <= i < |run| ==> !run[i].Start? && run[i] != StopAgain(true)
  }

  ghost predicate SettledIn(run: seq<Label>, id: WorkId) {
    exists i :: 0 <= i < |run| && run[i].SettledOutside? && run[i].id == id
  }

  lemma SettledInFirstOrRest(run: seq<Label>, id: WorkId)
    requires run != []
    ensures SettledIn(run, id) <==> (run[0].SettledOutside? && run[0].id == id) || SettledIn(run[1..], id)
  {
    if SettledIn(run[1..], id) {
      var i :| 0 <= i < |run| - 1 && run[1..][i].SettledOutside? && run[1..][i].id == id;
      assert run[i + 1].id == id;
    }
    if SettledIn(run, id) && !(run[0].SettledOutside? && run[0].id == id) {
      var i :| 0 <= i < |run| && run[i].SettledOutside? && run[i].id == id;
      assert run[1..][i - 1].id == id;
    }
  }

  /** After the cancellation nothing enters the queue, and a queued future is settled by
      callers alone. */
  lemma StrandedStep(settings: Settings, s: Sys, l: Label, id: WorkId)
    requires settings.Valid() && Inv(settings, s) && Enabled(settings, s, l) && s.task.stopCancelled
    requires !l.Start? && l != StopAgain(true)
    ensures var t := Apply(settings, s, l);
            && t.task.stopCancelled && t.ledger.history == s.ledger.history
            && (Has(t.g.pending, id) ==> Has(s.g.pending, id))
            && (Has(s.g.pending, id) && IsUnsettled(s.g.futures, id) ==>
                  if l.SettledOutside? && l.id == id then !IsUnsettled(t.g.futures, id)
                  else IsUnsettled(t.g.futures, id) && Has(t.g.pending, id))
  {
    hide HistoryInv, LineInv, BatchInv, OpenInv, LeaseInv, TriggerInv, Has, Without, SettleAll, Notify, Scheduled;
    NotifyKeepsPhase(s.task, s.now);
    NothingHas(id);
    match l
    case RemovalRuns(gone) =>
      PlacesApart(s, id);
      WithoutAt(s.g.pending, gone, id);
    case TaskCancelled =>
      if Has(s.g.pending, id) { QueueIsNotInHand(settings, s, id); }
      SettleAllAt(s.g.futures, InHand(s.task.phase), Cancelled, id);
    case _ =>
  }

  lemma {:induction false} StrandedRun(settings: Settings, s: Sys, run: seq<Label>, id: WorkId)
    requires settings.Valid() && Inv(settings, s) && Legal(Next(settings), s, run) && LeftAlone(run)
    requires s.task.stopCancelled
    ensures var t := Exec(Next(settings), s, run);
            && Inv(settings, t) && t.task.stopCancelled && t.ledger.history == s.ledger.history
            && (Has(t.g.pending, id) ==> Has(s.g.pending, id))
            && (Has(s.g.pending, id) ==> (IsUnsettled(t.g.futures, id) <==>
                                          IsUnsettled(s.g.futures, id) && !SettledIn(run, id)))
    decreases |run|
  {
    hide Inv, Legal, Exec, Has, Apply, Enabled, SettledIn;
    Unfold(Next(settings), s, run);
    if run == [] {
      NothingSettled(id);
    } else {
      var l := run[0];
      var u := Apply(settings, s, l);
      assert !l.Start? && l != StopAgain(true);
      InvStep(settings, s, l);
      StrandedStep(settings, s, l, id);
      SettledInFirstOrRest(run, id);
      if Has(s.g.pending, id) {
        QueuedIsAccepted(settings, s, id);
        DoneStaysDone(settings, s, run, id);
        DoneStaysDone(settings, u, run[1..], id);
      }
      StrandedRun(settings, u, run[1..], id);
    }
  }

  lemma DoneStaysDone(settings: Settings, s: Sys, run: seq<Label>, id: WorkId)
    requires settings.Valid() && Inv(settings, s) && Legal(Next(settings), s, run)
    requires id < |s.ledger.history|
    ensures IsUnsettled(Exec(Next(settings), s, run).g.futures, id) ==> IsUnsettled(s.g.futures, id)
  {
    hide BatchInv, OpenInv, ModeInv, LeaseInv, TriggerInv, RemovalInv, Legal, Exec;
    RunsAge(settings, s, run);
  }

  lemma QueuedIsAccepted(settings: Settings, s: Sys, id: WorkId)
    requires settings.Valid() && Inv(settings, s) && Has(s.g.pending, id)
    ensures id < |s.ledger.history|
  {
    hide BatchInv, OpenInv, ModeInv, LeaseInv, TriggerInv, RemovalInv;
    var i :| 0 <= i < |s.g.pending| && s.g.pending[i].id == id;
    assert Line(s)[|s.ledger.handed| + |Waiting(s.task.phase)| + i] == s.g.pending[i];
  }

  lemma NothingSettled(id: WorkId)
    ensures !SettledIn([], id)
  {
  }

  /** The caller of a graceful stop is cancelled before the loop has ended.  Then, when it has
      ended, and through a second graceful stop, an accepted item's future is open if and
      only if the item was queued and open at the cancellation and no caller has settled it
      since. */
  lemma CancelledStopStrands(settings: Settings, run: seq<Label>, rest: seq<Label>, id: WorkId)
    requires Run(settings, run) && Enabled(settings, After(settings, run), StopCancelled)
    requires Legal(Next(settings), Apply(settings, After(settings, run), StopCancelled), rest) && LeftAlone(rest)
    requires Ended(Exec(Next(settings), Apply(settings, After(settings, run), StopCancelled), rest).task.phase)
    ensures var s := After(settings, run);
            var t := Exec(Next(settings), Apply(settings, s, StopCancelled), rest);
            IsUnsettled(t.g.futures, id) <==>
            Has(s.g.pending, id) && IsUnsettled(s.g.futures, id) && !SettledIn(rest, id)
  {
    hide HistoryInv, LineInv, BatchInv, ModeInv, LeaseInv, TriggerInv, RemovalInv, Legal, Exec, Has, SettledIn;
    var s := After(settings, run);
    Reachable(settings, run);
    InvStep(settings, s, StopCancelled);
    StrandedRun(settings, Apply(settings, s, StopCancelled), rest, id);
    NothingHas(id);
  }

  // ------------------------------------------------------------------------------
  // How long a stop takes
  // ------------------------------------------------------------------------------

  /** How many steps the task has left at most, once a stop is under way. */
  function Rank(s: Sys): nat {
    var queued := if s.g.pending == [] then 0 else 3;
    match s.task.phase
    case NoTask => 0
    case Finished => 0
    case Running => if queued == 0 then 1 else 3
    case Parked(_) => if queued == 0 then 1 else 3
    case Acquiring(_) => 2 + queued
    case Gathering(_, _, _) => 1 + queued
  }

  function TaskSteps(run: seq<Label>): nat
    decreases |run|
  {
    if run == [] then 0 else (if OfTask(run[0]) then 1 else 0) + TaskSteps(run[1..])
  }

  lemma RankStep(settings: Settings, s: Sys, l: Label)
    requires Enabled(settings, s, l) && ModeInv(s) && s.g.stopping && !l.StopEnds? && !l.StopAgain?
    ensures var t := Apply(settings, s, l);
            && t.g.stopping && t.ledger.history == s.ledger.history && t.ledger.stopMark == s.ledger.stopMark
            && Rank(t) + (if OfTask(l) then 1 else 0) <= Rank(s)
  {
    hide Has, Live, SettleAll, Settle, Resolve, Submit, Scheduled, Without;
    match l
    case RemovalRuns(id) => NothingHas(id);
    case _ =>
  }

  lemma {:induction false} RankFalls(settings: Settings, s: Sys, run: seq<Label>)
    requires settings.Valid() && Inv(settings, s) && Legal(Next(settings), s, run) && s.g.stopping
    requires forall i :: 0 <= i < |run| ==> !run[i].StopEnds? && !run[i].StopAgain?
    ensures var t := Exec(Next(settings), s, run);
            && t.g.stopping && t.ledger.history == s.ledger.history && t.ledger.stopMark == s.ledger.stopMark
            && TaskSteps(run) + Rank(t) <= Rank(s)
    decreases |run|
  {
    hide Inv, Rank, Legal, Exec;
    Unfold(Next(settings), s, run);
    if run == [] {
    } else {
      InvStep(settings, s, run[0]);
      ModeOf(settings, s);
      RankStep(settings, s, run[0]);
      RankFalls(settings, Apply(settings, s, run[0]), run[1..]);
    }
  }

  /** A stop accepts nothing more, lets at most one more batch begin, and leaves the loop at
      most five steps, or three if it has no batch in its hands, whatever the callers do. */
  lemma StopIsShort(settings: Settings, run: seq<Label>, cancelPending: bool, rest: seq<Label>)
    requires Run(settings, run) && Enabled(settings, After(settings, run), StopBegins(cancelPending))
    requires Legal(Next(settings), Apply(settings, After(settings, run), StopBegins(cancelPending)), rest)
    requires forall i :: 0 <= i < |rest| ==> !rest[i].StopEnds? && !rest[i].StopAgain?
    ensures var s := After(settings, run);
            var t := Exec(Next(settings), Apply(settings, s, StopBegins(cancelPending)), rest);
            && t.ledger.history == s.ledger.history
            && t.g.batchSeq <= s.g.batchSeq + 1
            && TaskSteps(rest) + Rank(t) <= (if s.task.phase.Acquiring? || s.task.phase.Gathering? then 5 else 3)
  {
    hide HistoryInv, LineInv, BatchInv, OpenInv, LeaseInv, TriggerInv, RemovalInv, SettleAll, Scheduled;
    var s := After(settings, run);
    var s1 := Apply(settings, s, StopBegins(cancelPending));
    Reachable(settings, run);
    InvStep(settings, s, StopBegins(cancelPending));
    RankFalls(settings, s1, rest);
    RunsAge(settings, s1, rest);
    NotifyKeepsPhase(s.task, s.now);
  }

  /** And until it has ended, the loop is never stuck by itself: it can step, or waits for
      a lease or for work under way; then the stop can return, or raise if its caller was
      cancelled; and after that it is up to the next one to stop it. */
  lemma StopIsNeverStuck(settings: Settings, run: seq<Label>, error: int, endings: seq<Ending>)
    requires Run(settings, run) && After(settings, run).g.stopping
    ensures var s := After(settings, run);
            || Enabled(settings, s, StopEnds)
            || Enabled(settings, s, StopRaises)
            || (s.task.phase.NoTask? && s.task.stopCancelled && Enabled(settings, s, StopAgain(false)))
            || Enabled(settings, s, TaskRuns)
            || Enabled(settings, s, TaskCancelled)
            || (s.task.phase.Acquiring? && Enabled(settings, s, AcquireFails(error)))
            || (s.task.phase.Gathering?
               && (|endings| == s.task.phase.taken ==> Enabled(settings, s, WorkGathered(endings))))
  {
    hide HistoryInv, LineInv, BatchInv, OpenInv, LeaseInv, TriggerInv, RemovalInv;
    Reachable(settings, run);
  }
}
