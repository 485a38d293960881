/**
 What holds in every run of the grinder, from the state a new one is in.
 */
module GrinderTheorems {
  import opened Runs
  import opened GrinderModel
  import opened GrinderSystem
  import opened GrinderInvariant
  import opened GrinderSteps

  // ------------------------------------------------------------------------------
  // Runs, and what only grows in them
  // ------------------------------------------------------------------------------

  ghost predicate Run(settings: Settings, run: seq<Label>) {
    settings.Valid() && Legal(Next(settings), Init(), run)
  }

  ghost function After(settings: Settings, run: seq<Label>): Sys
    requires Run(settings, run)
  {
    Exec(Next(settings), Init(), run)
  }

  /** Accepted work and handed work only grow, and a future that is done stays as it is. */
  ghost predicate Later(s: Sys, t: Sys) {
    && s.ledger.history <= t.ledger.history
    && s.ledger.handed <= t.ledger.handed
    && s.ledger.leases <= t.ledger.leases
    && s.now <= t.now
    && (forall id: WorkId :: id in s.g.futures ==> id in t.g.futures)
    && (forall id: WorkId :: id in s.g.futures && s.g.futures[id] != Unsettled ==>
          id in t.g.futures && t.g.futures[id] == s.g.futures[id])
  }

  lemma LaterStep(settings: Settings, s: Sys, l: Label)
    requires Enabled(settings, s, l) && HistoryInv(s)
    ensures Later(s, Apply(settings, s, l))
  {
    hide Look, Live, Submit, SettleAll, Resolve, Without, Settle, Taken, Notify, Scheduled, AfterBatch, Has;
    FuturesStep(settings, s, l);
  }

  lemma {:induction false} RunsAge(settings: Settings, s: Sys, run: seq<Label>)
    requires settings.Valid() && Inv(settings, s) && Legal(Next(settings), s, run)
    ensures var t := Exec(Next(settings), s, run); Inv(settings, t) && Later(s, t)
    decreases |run|
  {
    hide Inv, Apply, Enabled, Legal, Exec;
    Unfold(Next(settings), s, run);
    if run == [] {
    } else {
      var u := Apply(settings, s, run[0]);
      InvStep(settings, s, run[0]);
      LaterStep(settings, s, run[0]) by { InvGivesHistory(settings, s); }
      RunsAge(settings, u, run[1..]);
    }
  }

  lemma InvGivesHistory(settings: Settings, s: Sys)
    requires settings.Valid() && Inv(settings, s)
    ensures HistoryInv(s)
  {
  }

  lemma Reachable(settings: Settings, run: seq<Label>)
    requires Run(settings, run)
    ensures Inv(settings, After(settings, run))
  {
    hide Inv, Apply, Enabled;
    InitInv(settings);
    RunsAge(settings, Init(), run);
  }

  /** Two moments of one run. */
  lemma Moments(settings: Settings, earlier: seq<Label>, rest: seq<Label>)
    requires Run(settings, earlier + rest)
    ensures Run(settings, earlier) && Legal(Next(settings), After(settings, earlier), rest)
    ensures var s, t := After(settings, earlier), After(settings, earlier + rest);
            && t == Exec(Next(settings), s, rest)
            && Inv(settings, s) && Inv(settings, t) && Later(s, t)
  {
    hide Inv, Apply, Enabled, Later;
    Cut(Next(settings), Init(), earlier, rest);
    Reachable(settings, earlier);
    RunsAge(settings, After(settings, earlier), rest);
  }

  lemma EmptyRun(settings: Settings)
    requires settings.Valid()
    ensures Run(settings, []) && After(settings, []) == Init()
  {
    Unfold(Next(settings), Init(), []);
  }

  /** A run taken on by one step. */
  lemma RunOn(settings: Settings, run: seq<Label>, l: Label)
    requires Run(settings, run) && Enabled(settings, After(settings, run), l)
    ensures Run(settings, run + [l]) && After(settings, run + [l]) == Apply(settings, After(settings, run), l)
  {
    hide Legal, Exec, Apply, Enabled;
    Extend(Next(settings), Init(), run, l);
  }

  // ------------------------------------------------------------------------------
  // Order, and at most once
  // ------------------------------------------------------------------------------

  lemma {:induction false} AscendingIsWithin(items: seq<Item>, history: seq<Item>, from: nat)
    requires from <= |history| && (forall i :: 0 <= i < |history| ==> history[i].id == i)
    requires Ascending(items, history) && (items != [] ==> items[0].id >= from)
    ensures Within(items, history[from..])
    decreases |history| - from
  {
    if items == [] {
    } else if items[0].id == from {
      assert history[from..][1..] == history[from + 1..];
      assert Ascending(items[1..], history);
      AscendingIsWithin(items[1..], history, from + 1);
    } else {
      assert history[from..][1..] == history[from + 1..];
      AscendingIsWithin(items, history, from + 1);
    }
  }

  /** What executors were given is the accepted work in its order, some left out, none
      twice. */
  lemma FirstInFirstOut(settings: Settings, run: seq<Label>)
    requires Run(settings, run)
    ensures var ledger := After(settings, run).ledger;
            Within(ledger.handed, ledger.history) && DistinctItems(ledger.handed)
  {
    var s := After(settings, run);
    Reachable(settings, run);
    PlacesApart(s, 0);
    assert Line(s) == s.ledger.handed + (Waiting(s.task.phase) + s.g.pending) + [];
    AscendingCut(s.ledger.handed, Waiting(s.task.phase) + s.g.pending, [], s.ledger.history);
    assert s.ledger.handed + [] == s.ledger.handed;
    AscendingIsWithin(s.ledger.handed, s.ledger.history, 0);
    assert s.ledger.history[0..] == s.ledger.history;
  }

  /** Every accepted item is in the queue, or in the one batch, or done: it is never in
      two of the queue, the waiting batch and the executors' hands, and where it is in
      none that is still at work, its future is done. */
  lemma EachItemIsInOnePlace(settings: Settings, run: seq<Label>, id: WorkId)
    requires Run(settings, run) && id < |After(settings, run).ledger.history|
    ensures var s := After(settings, run);
            && id in s.g.futures
            && !(Has(s.g.pending, id) && Has(s.ledger.handed, id))
            && !(Has(s.g.pending, id) && Has(Open(s.task.phase), id))
            && !(Has(s.ledger.handed, id) && Has(Waiting(s.task.phase), id))
            && (Has(s.g.pending, id) || Has(Open(s.task.phase), id) || s.g.futures[id] != Unsettled)
  {
    hide LineInv, OpenInv, ModeInv, LeaseInv, TriggerInv, RemovalInv, Has;
    var s := After(settings, run);
    Reachable(settings, run);
    PlacesApart(s, id);
    NothingHas(id);
    if s.task.phase.Gathering? { HasSplit(s.ledger.handed, |s.ledger.handed| - s.task.phase.taken, id); }
    OpenIsLocated(s, id);
  }

  lemma OpenIsLocated(s: Sys, id: WorkId)
    requires OpenInv(s) && HistoryInv(s) && id < |s.ledger.history|
    ensures id in s.g.futures && (Located(s, id) || s.g.futures[id] != Unsettled)
  {
    hide Has;
    assert IsUnsettled(s.g.futures, id) || s.g.futures[id] != Unsettled;
  }

  // ------------------------------------------------------------------------------
  // Cancellation
  // ------------------------------------------------------------------------------

  /** A cancelled item the loop has not yet taken up. */
  ghost predicate Passed(s: Sys, id: WorkId) {
    WasCancelled(s.g.futures, id) && !Has(s.ledger.handed, id) && !Has(Waiting(s.task.phase), id)
  }

  lemma HasSum(a: seq<Item>, b: seq<Item>, id: WorkId)
    ensures Has(a + b, id) <==> Has(a, id) || Has(b, id)
  {
    HasSplit(a + b, |a|, id);
    assert (a + b)[..|a|] == a && (a + b)[|a|..] == b;
  }

  lemma PassedStep(settings: Settings, s: Sys, l: Label, id: WorkId)
    requires Enabled(settings, s, l) && HistoryInv(s) && Passed(s, id)
    ensures Passed(Apply(settings, s, l), id)
  {
    hide Has, Look, Live, Submit, SettleAll, Resolve, Without, Taken, Notify, Scheduled, AfterBatch;
    NotifyKeepsPhase(s.task, s.now);
    NotWaitingAfter(s.task, Apply(settings, s, l).g, s.now);
    FuturesStep(settings, s, l);
    NothingHas(id);
    match l
    case TaskRuns => LiveAt(s.g.pending, s.g.futures, id);
    case LeaseAcquired(_, refusal) =>
      var n := Taken(s.task.phase.live, refusal);
      HasSplit(s.task.phase.live, n, id);
      HasSum(s.ledger.handed, s.task.phase.live[..n], id);
    case _ =>
  }

  lemma {:induction false} PassedStays(settings: Settings, s: Sys, run: seq<Label>, id: WorkId)
    requires settings.Valid() && Inv(settings, s) && Legal(Next(settings), s, run) && Passed(s, id)
    ensures Passed(Exec(Next(settings), s, run), id)
    decreases |run|
  {
    hide Inv, Apply, Enabled, Passed, Legal, Exec;
    Unfold(Next(settings), s, run);
    if run == [] {
    } else {
      InvStep(settings, s, run[0]);
      InvGivesHistory(settings, s);
      PassedStep(settings, s, run[0], id);
      PassedStays(settings, Apply(settings, s, run[0]), run[1..], id);
    }
  }

  /** An item cancelled while it is queued is never given to an executor, whether or not
      its removal comes in time. */
  lemma CancelledInQueueIsNeverSubmitted(settings: Settings, earlier: seq<Label>, rest: seq<Label>, id: WorkId)
    requires Run(settings, earlier + rest) && Run(settings, earlier)
    requires var s := After(settings, earlier); Has(s.g.pending, id) && WasCancelled(s.g.futures, id)
    ensures !Has(After(settings, earlier + rest).ledger.handed, id)
  {
    hide HistoryInv, LineInv, BatchInv, OpenInv, ModeInv, LeaseInv, TriggerInv, RemovalInv, Has;
    Moments(settings, earlier, rest);
    PlacesApart(After(settings, earlier), id);
    PassedStays(settings, After(settings, earlier), rest, id);
  }

  /** Its removal is scheduled, unless it was cancelled, or its callback ran, while there was
      no loop to schedule it on; the removal takes that item alone, keeps the order of all
      others, and wakes the loop to look again. */
  lemma CancelledItemLeavesTheQueue(settings: Settings, run: seq<Label>, id: WorkId)
    requires Run(settings, run)
    requires var s := After(settings, run); Has(s.g.pending, id) && WasCancelled(s.g.futures, id)
    ensures var s := After(settings, run);
            && (Enabled(settings, s, RemovalRuns(id)) <==> id !in s.ledger.orphans)
            && (id !in s.ledger.orphans ==>
               var t := Apply(settings, s, RemovalRuns(id));
               && Within(t.g.pending, s.g.pending)
               && |t.g.pending| == |s.g.pending| - 1
               && (forall other: WorkId :: Has(t.g.pending, other) <==> Has(s.g.pending, other) && other != id)
               && (t.task.phase.Parked? ==> t.task.notified))
  {
    hide HistoryInv, LineInv, BatchInv, OpenInv, ModeInv, LeaseInv, TriggerInv, Within;
    var s := After(settings, run);
    Reachable(settings, run);
    PlacesApart(s, id);
    forall other: WorkId
      ensures Has(Without(s.g.pending, id), other) <==> Has(s.g.pending, other) && other != id
    {
      WithoutAt(s.g.pending, id, other);
    }
    WithoutAt(s.g.pending, id, id);
    var k := WithoutSplit(s.g.pending, id);
  }
}
