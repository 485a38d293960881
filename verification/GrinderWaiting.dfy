/**
 How long an item waits in the queue, across the loop's sleep and the batch under way.
 */
module GrinderWaiting {
  import opened Reals
  import opened Runs
  import opened GrinderModel
  import opened GrinderSystem
  import opened GrinderInvariant
  import opened GrinderSteps
  import opened GrinderTheorems
  import opened GrinderOutcomes

  predicate AtWork(phase: Phase) {
    phase.Acquiring? || phase.Gathering?
  }

  /** The event loop is at most d late, and no batch takes longer than `length`. */
  ghost predicate Prompt(s: Sys, d: real, length: real) {
    Paced(s, d) && (AtWork(s.task.phase) ==> s.now <= s.task.since + length)
  }

  /** The clock does not run ahead of that. */
  ghost predicate Timely(settings: Settings, s: Sys, run: seq<Label>, d: real, length: real)
    requires Legal(Next(settings), s, run)
    decreases |run|
  {
    Unfold(Next(settings), s, run);
    run == [] ||
    (var t := Next(settings)(s, run[0]).value;
     (run[0].TimePasses? ==> Prompt(t, d, length)) && Timely(settings, t, run[1..], d, length))
  }

  /** What is queued while a batch is at work came after it was taken up; what is queued when
      the loop is about to look came no earlier than one batch ago, or than the start. */
  ghost predicate AgeInv(s: Sys, d: real, length: real) {
    && Prompt(s, d, length)
    && s.task.since <= s.now
    && (AtWork(s.task.phase) ==> forall i :: 0 <= i < |s.g.pending| ==> s.task.since <= s.g.pending[i].submittedAt)
    && (s.task.phase.Running? ==>
          s.task.due <= s.now && forall i :: 0 <= i < |s.g.pending| ==>
            s.task.due <= RealMax(s.g.pending[i].submittedAt, s.task.since) + length)
  }

  /** The step changes neither phase nor times, and only thins out the queue. */
  ghost predicate OnlyThinsQueue(s: Sys, t: Sys) {
    && t.now == s.now && t.task.since == s.task.since && t.task.phase == s.task.phase
    && (!s.task.phase.Parked? ==> t.task.due == s.task.due)
    && (forall i :: 0 <= i < |t.g.pending| ==> t.g.pending[i] in s.g.pending)
  }

  lemma ThinnedQueueAges(s: Sys, t: Sys, d: real, length: real)
    requires AgeInv(s, d, length) && OnlyThinsQueue(s, t) && Paced(t, d)
    ensures AgeInv(t, d, length)
  {
  }

  lemma NotifyIsPaced(s: Sys, t: Sys, d: real)
    requires d >= 0.0 && Paced(s, d) && t.now == s.now && t.task == Notify(s.task, s.now)
    ensures Paced(t, d) && (!s.task.phase.Parked? ==> t.task == s.task) && t.task.since == s.task.since
  {
  }

  /** Steps of callers and of stops. */
  lemma WorldAges(settings: Settings, s: Sys, l: Label, d: real, length: real)
    requires Enabled(settings, s, l) && ModeInv(s) && AgeInv(s, d, length) && d >= 0.0 && length >= 0.0
    requires !OfTask(l) && !l.TimePasses? && !l.Accept? && !l.Start?
    ensures AgeInv(Apply(settings, s, l), d, length)
  {
    hide Has, Without, SettleAll, Settle, Scheduled, Notify, ModeInv, AgeInv;
    var t := Apply(settings, s, l);
    NotifyKeepsPhase(s.task, s.now);
    if l.StopRaises? || l.StopAgain? || l.StopEnds? {
      EndedAges(s, t, d, length) by { assert ModeInv(s); }
    } else {
      WorldIsPaced(settings, s, l, d, length);
      if l.RemovalRuns? { WithoutMembers(s.g.pending, l.id); }
      ThinnedQueueAges(s, t, d, length);
    }
  }

  lemma WorldIsPaced(settings: Settings, s: Sys, l: Label, d: real, length: real)
    requires Enabled(settings, s, l) && AgeInv(s, d, length) && d >= 0.0
    requires !OfTask(l) && !l.TimePasses? && !l.Accept? && !l.Start? && !l.StopRaises? && !l.StopAgain? && !l.StopEnds?
    ensures var t := Apply(settings, s, l);
            && Paced(t, d) && t.now == s.now && t.task.since == s.task.since && t.task.phase == s.task.phase
            && (!s.task.phase.Parked? ==> t.task.due == s.task.due)
  {
    hide Has, Without, SettleAll, Settle, Scheduled;
  }

  lemma EndedAges(s: Sys, t: Sys, d: real, length: real)
    requires AgeInv(s, d, length) && t.now == s.now && t.task.since == s.task.since
    requires t.task.phase.NoTask?
    ensures AgeInv(t, d, length)
  {
  }

  lemma TaskAges(settings: Settings, s: Sys, l: Label, d: real, length: real)
    requires Enabled(settings, s, l) && AgeInv(s, d, length) && d >= 0.0 && length >= 0.0 && OfTask(l)
    ensures AgeInv(Apply(settings, s, l), d, length)
  {
    hide Live, Submit, Spoiled, Taken, SettleAll, Resolve, Scheduled;
  }

  lemma AgeStep(settings: Settings, s: Sys, l: Label, d: real, length: real)
    requires settings.Valid() && Inv(settings, s) && Enabled(settings, s, l)
    requires AgeInv(s, d, length) && d >= 0.0 && length >= 0.0
    requires l.TimePasses? ==> Prompt(Apply(settings, s, l), d, length)
    ensures AgeInv(Apply(settings, s, l), d, length)
  {
    hide HistoryInv, LineInv, BatchInv, OpenInv, ModeInv, LeaseInv, TriggerInv, RemovalInv, SettleAll, Settle, Has,
         Without;
    if OfTask(l) {
      TaskAges(settings, s, l, d, length);
    } else if !l.TimePasses? && !l.Accept? && !l.Start? {
      WorldAges(settings, s, l, d, length);
    }
  }

  lemma {:induction false} AgeRun(settings: Settings, s: Sys, run: seq<Label>, d: real, length: real)
    requires settings.Valid() && Inv(settings, s) && Legal(Next(settings), s, run)
    requires AgeInv(s, d, length) && d >= 0.0 && length >= 0.0 && Timely(settings, s, run, d, length)
    ensures AgeInv(Exec(Next(settings), s, run), d, length)
    decreases |run|
  {
    hide Inv, Apply, Enabled, AgeInv, Legal, Exec, Prompt;
    Unfold(Next(settings), s, run);
    if run == [] {
    } else {
      InvStep(settings, s, run[0]);
      AgeStep(settings, s, run[0], d, length);
      AgeRun(settings, Apply(settings, s, run[0]), run[1..], d, length);
    }
  }

  /** As long as the loop lives, no item is queued for longer than the longest wait, or the
      length of one batch if that is more, and d; counted from its submission, or from the
      start for what was left from before. */
  lemma WaitIsBounded(settings: Settings, run: seq<Label>, d: real, length: real, i: nat)
    requires Run(settings, run) && d >= 0.0 && length >= 0.0 && Timely(settings, Init(), run, d, length)
    requires !Ended(After(settings, run).task.phase) && i < |After(settings, run).g.pending|
    ensures var s := After(settings, run);
            s.now <= RealMax(s.g.pending[i].submittedAt, s.task.since) + RealMax(settings.maxWaitSeconds, length) + d
  {
    hide BatchInv, OpenInv, ModeInv, LeaseInv, RemovalInv, HistoryInv, LineInv, Legal, Exec, Timely;
    InitInv(settings);
    AgeRun(settings, Init(), run, d, length);
    Reachable(settings, run);
    PendingIsSorted(After(settings, run), 0, i);
  }
}
