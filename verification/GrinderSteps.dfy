/**
 Every step of the grinder keeps its invariant, part by part.
 */
module GrinderSteps {
  import opened Options
  import opened GrinderModel
  import opened GrinderSystem
  import opened GrinderInvariant

  // ------------------------------------------------------------------------------
  // The line of work
  // ------------------------------------------------------------------------------

  /** Taking a stretch out of an ascending line leaves it ascending. */
  lemma AscendingCut(a: seq<Item>, m: seq<Item>, b: seq<Item>, history: seq<Item>)
    requires Ascending(a + m + b, history)
    ensures Ascending(a + b, history)
  {
    var whole := a + m + b;
    forall i, j | 0 <= i < j < |a + b| ensures (a + b)[i].id < (a + b)[j].id {
      var p := if i < |a| then i else i + |m|;
      var q := if j < |a| then j else j + |m|;
      assert whole[p].id < whole[q].id;
    }
    forall i | 0 <= i < |a + b|
      ensures (a + b)[i].id < |history| && (a + b)[i] == history[(a + b)[i].id]
    {
      var p := if i < |a| then i else i + |m|;
      assert whole[p].id < |history| && whole[p] == history[whole[p].id];
    }
  }

  /** So does thinning out its tail. */
  lemma {:induction false} AscendingWithin(front: seq<Item>, a: seq<Item>, b: seq<Item>, history: seq<Item>)
    requires Within(a, b) && Ascending(front + b, history)
    ensures Ascending(front + a, history)
    decreases |b|
  {
    if a == [] {
      assert front + b == front + b + [];
      AscendingCut(front, b, [], history);
    } else if a[0] == b[0] && Within(a[1..], b[1..]) {
      assert front + [b[0]] + b[1..] == front + b;
      AscendingWithin(front + [b[0]], a[1..], b[1..], history);
      assert front + [a[0]] + a[1..] == front + a;
    } else {
      assert front + [b[0]] + b[1..] == front + b;
      AscendingCut(front, [b[0]], b[1..], history);
      AscendingWithin(front, a, b[1..], history);
    }
  }

  lemma BatchLine(settings: Settings, s: Sys, t: Sys)
    requires LineInv(s) && Waiting(s.task.phase) == []
    requires t == TaskRunsStep(settings, s)
    ensures LineInv(t)
  {
    hide Ascending, Within;
    if Look(settings, s.g, s.now).Batch? {
      var live := Live(s.g.pending, s.g.futures);
      LiveWithin(s.g.pending, s.g.futures);
      assert Line(s) == s.ledger.handed + s.g.pending;
      AscendingWithin(s.ledger.handed, live, s.g.pending, s.ledger.history);
      assert Line(t) == s.ledger.handed + live;
    } else {
      assert Line(t) == Line(s);
    }
  }

  lemma HandedLine(s: Sys, lease: LeaseId, refusal: Option<Refusal>)
    requires LineInv(s) && s.task.phase.Acquiring?
    ensures LineInv(LeaseAcquiredStep(s, lease, refusal))
  {
    hide Ascending;
    var live := s.task.phase.live;
    var n := Taken(live, refusal);
    var handed := s.ledger.handed + live[..n];
    assert Line(s) == handed + live[n..] + s.g.pending;
    AscendingCut(handed, live[n..], s.g.pending, s.ledger.history);
    assert Line(LeaseAcquiredStep(s, lease, refusal)) == handed + s.g.pending;
  }

  /** A batch given up, or a queue emptied, leaves the line. */
  lemma DroppedLine(s: Sys, t: Sys)
    requires LineInv(s) && t.ledger.handed == s.ledger.handed && t.ledger.history == s.ledger.history
    requires Waiting(t.task.phase) == Waiting(s.task.phase) || Waiting(t.task.phase) == []
    requires t.g.pending == s.g.pending || t.g.pending == []
    ensures LineInv(t)
  {
    hide Ascending;
    var history := s.ledger.history;
    var handed, waiting, pending := s.ledger.handed, Waiting(s.task.phase), s.g.pending;
    if Waiting(t.task.phase) == waiting {
      assert Line(s) == handed + waiting + pending + [];
      AscendingCut(handed + waiting, pending, [], history);
    } else {
      AscendingCut(handed, waiting, pending, history);
      assert handed + pending == handed + pending + [];
      AscendingCut(handed, pending, [], history);
      assert Line(t) == handed + t.g.pending;
    }
  }

  lemma RemovedLine(s: Sys, t: Sys, id: WorkId)
    requires LineInv(s) && t.ledger.handed == s.ledger.handed && t.ledger.history == s.ledger.history
    requires Waiting(t.task.phase) == Waiting(s.task.phase) && t.g.pending == Without(s.g.pending, id)
    ensures LineInv(t)
  {
    hide Ascending, Within;
    WithoutAt(s.g.pending, id, id);
    AscendingWithin(s.ledger.handed + Waiting(s.task.phase), t.g.pending, s.g.pending, s.ledger.history);
  }

  lemma AcceptedLine(s: Sys, t: Sys, item: Item)
    requires LineInv(s) && t.ledger.handed == s.ledger.handed && t.ledger.history == s.ledger.history + [item]
    requires Waiting(t.task.phase) == Waiting(s.task.phase) && t.g.pending == s.g.pending + [item]
    requires item.id == |s.ledger.history|
    ensures LineInv(t)
  {
    assert Line(t) == Line(s) + [item];
  }

  lemma NotifyKeepsPhase(t: Task, now: real)
    ensures var u := Notify(t, now);
            u.phase == t.phase && u.cancelRequested == t.cancelRequested && u.stopCancelled == t.stopCancelled
  {
  }

  lemma LineStep(settings: Settings, s: Sys, l: Label)
    requires Enabled(settings, s, l) && LineInv(s)
    ensures LineInv(Apply(settings, s, l))
  {
    hide LineInv, Look, Live, Submit, SettleAll, Resolve, Without, Settle, Taken, Notify, Scheduled, AfterBatch;
    var t := Apply(settings, s, l);
    NotifyKeepsPhase(s.task, s.now);
    NotWaitingAfter(s.task, t.g, s.now);
    match l
    case Accept(call) => AcceptedLine(s, t, Item(|s.ledger.history|, call, s.now));
    case RemovalRuns(id) =>
      if Has(s.g.pending, id) { RemovedLine(s, t, id); } else { DroppedLine(s, t); }
    case TaskRuns => BatchLine(settings, s, t);
    case LeaseAcquired(lease, refusal) => HandedLine(s, lease, refusal);
    case _ => DroppedLine(s, t);
  }

  lemma NotWaitingAfter(t: Task, g: Grinder, now: real)
    ensures var u := AfterBatch(t, g, now);
            && (u.phase.Running? || u.phase.Finished?) && u.cancelRequested == t.cancelRequested
            && (u.phase.Finished? <==> g.stopping && g.pending == [])
  {
  }

  // ------------------------------------------------------------------------------
  // The history
  // ------------------------------------------------------------------------------

  lemma HistoryStep(settings: Settings, s: Sys, l: Label)
    requires Enabled(settings, s, l) && HistoryInv(s)
    ensures HistoryInv(Apply(settings, s, l))
  {
    hide Look, Live, Submit, SettleAll, Resolve, Without, Settle, Taken, Notify, Scheduled, AfterBatch;
    FuturesStep(settings, s, l);
  }

  // ------------------------------------------------------------------------------
  // Open work
  // ------------------------------------------------------------------------------

  lemma HasSplit(items: seq<Item>, n: nat, id: WorkId)
    requires n <= |items|
    ensures Has(items, id) <==> Has(items[..n], id) || Has(items[n..], id)
  {
    if Has(items, id) {
      var i :| 0 <= i < |items| && items[i].id == id;
      if i < n { assert items[..n][i].id == id; } else { assert items[n..][i - n].id == id; }
    }
    if Has(items[..n], id) {
      var i :| 0 <= i < n && items[..n][i].id == id;
      assert items[i].id == id;
    }
    if Has(items[n..], id) {
      var i :| 0 <= i < |items| - n && items[n..][i].id == id;
      assert items[n + i].id == id;
    }
  }

  lemma HasAppended(items: seq<Item>, item: Item, id: WorkId)
    ensures Has(items + [item], id) <==> Has(items, id) || item.id == id
  {
    HasSplit(items + [item], |items|, id);
    assert (items + [item])[..|items|] == items && (items + [item])[|items|..] == [item];
    assert Has([item], id) <==> [item][0].id == id;
  }

  lemma AscendingApart(a: seq<Item>, b: seq<Item>, history: seq<Item>, id: WorkId)
    requires Ascending(a + b, history)
    ensures DistinctItems(a) && DistinctItems(b)
    ensures !(Has(a, id) && Has(b, id))
  {
    var whole := a + b;
    assert forall j :: 0 <= j < |b| ==> whole[|a| + j] == b[j];
    assert forall i :: 0 <= i < |a| ==> whole[i] == a[i];
    assert forall i, j :: 0 <= i < |a| && 0 <= j < |b| ==> a[i].id < b[j].id;
  }

  /** No item is in two places. */
  lemma PlacesApart(s: Sys, id: WorkId)
    requires LineInv(s)
    ensures DistinctItems(s.ledger.handed) && DistinctItems(Waiting(s.task.phase)) && DistinctItems(s.g.pending)
    ensures Has(s.g.pending, id) ==> !Has(s.ledger.handed, id) && !Has(Waiting(s.task.phase), id)
    ensures Has(Waiting(s.task.phase), id) ==> !Has(s.ledger.handed, id)
  {
    hide Ascending, Has, DistinctItems;
    var handed, waiting, pending, history := s.ledger.handed, Waiting(s.task.phase), s.g.pending, s.ledger.history;
    AscendingCut(handed, waiting, pending, history);
    AscendingApart(handed, pending, history, id);
    assert Line(s) == [] + handed + (waiting + pending);
    AscendingCut([], handed, waiting + pending, history);
    assert [] + (waiting + pending) == waiting + pending;
    AscendingApart(waiting, pending, history, id);
    assert Line(s) == handed + waiting + pending + [];
    AscendingCut(handed + waiting, pending, [], history);
    assert handed + waiting + [] == handed + waiting;
    AscendingApart(handed, waiting, history, id);
  }

  /** The work of a batch, when submitted, is split in what still runs and what is settled. */
  lemma SubmittedIsLocated(s: Sys, lease: LeaseId, refusal: Option<Refusal>, id: WorkId)
    requires s.task.phase.Acquiring? && Located(s, id)
    requires IsUnsettled(LeaseAcquiredStep(s, lease, refusal).g.futures, id)
    ensures Located(LeaseAcquiredStep(s, lease, refusal), id)
  {
    hide Has, Submit;
    var live := s.task.phase.live;
    var n := Taken(live, refusal);
    SubmitOnlySettles(s.g.futures, live, refusal);
    HasSplit(live, n, id);
    assert !Has([], id) by { NothingHas(id); }
    if n == 0 { assert live[..n] == []; }
  }

  lemma NothingHas(id: WorkId)
    ensures !Has([], id)
  {
  }

  /** A removal takes away nothing but its own, cancelled item. */
  lemma RemovedIsDone(s: Sys, gone: WorkId, id: WorkId)
    requires LineInv(s) && RemovalInv(s) && gone in s.ledger.removals
    requires IsUnsettled(s.g.futures, id) && Has(s.g.pending, id)
    ensures Has(Without(s.g.pending, gone), id)
  {
    hide LineInv, Has;
    PlacesApart(s, id);
    WithoutAt(s.g.pending, gone, id);
  }

  /** When the task is cancelled, only what is queued stays open. */
  lemma CancelledBatchIsDone(s: Sys, id: WorkId)
    requires ModeInv(s) && Located(s, id) && IsUnsettled(TaskCancelledStep(s).g.futures, id)
    ensures Has(s.g.pending, id)
  {
    hide Has;
    NothingHas(id);
    SettleAllOnlySettles(s.g.futures, InHand(s.task.phase), Cancelled);
    if s.task.phase.Gathering? { HasSplit(s.task.phase.live, s.task.phase.taken, id); }
  }

  lemma OpenStep(settings: Settings, s: Sys, l: Label)
    requires Enabled(settings, s, l) && HistoryInv(s) && LineInv(s) && OpenInv(s) && ModeInv(s) && RemovalInv(s)
    ensures OpenInv(Apply(settings, s, l))
  {
    var t := Apply(settings, s, l);
    forall id: WorkId | IsUnsettled(t.g.futures, id) ensures Located(t, id) {
      OpenWorkStep(settings, s, l, id);
    }
  }

  lemma OpenWorkStep(settings: Settings, s: Sys, l: Label, id: WorkId)
    requires Enabled(settings, s, l) && HistoryInv(s) && LineInv(s) && OpenInv(s) && ModeInv(s) && RemovalInv(s)
    requires IsUnsettled(Apply(settings, s, l).g.futures, id)
    ensures Located(Apply(settings, s, l), id)
  {
    hide HistoryInv, LineInv, ModeInv, RemovalInv, Has, Look, Live, Submit, SettleAll, Resolve, Without, Taken,
         Notify, Scheduled, AfterBatch;
    var t := Apply(settings, s, l);
    NotifyKeepsPhase(s.task, s.now);
    NotWaitingAfter(s.task, t.g, s.now);
    FuturesStep(settings, s, l);
    NothingHas(id);
    assert (l.Accept? && id == |s.ledger.history|) || IsUnsettled(s.g.futures, id);
    match l
    case Accept(call) => HasAppended(s.g.pending, Item(|s.ledger.history|, call, s.now), id);
    case RemovalRuns(gone) => if Has(s.g.pending, id) { RemovedIsDone(s, gone, id); }
    case TaskRuns => LiveAt(s.g.pending, s.g.futures, id);
    case LeaseAcquired(lease, refusal) => SubmittedIsLocated(s, lease, refusal, id);
    case AcquireFails(error) => SettleAllOnlySettles(s.g.futures, s.task.phase.live, Settled(Raises(error)));
    case WorkGathered(endings) =>
      ResolveOnlySettles(s.g.futures, s.task.phase.live[..s.task.phase.taken], GatherAll(endings));
    case TaskCancelled => CancelledBatchIsDone(s, id);
    case StopBegins(cancelPending) => SettleAllOnlySettles(s.g.futures, s.g.pending, Cancelled);
    case StopAgain(cancelPending) => SettleAllOnlySettles(s.g.futures, s.g.pending, Cancelled);
    case Start => NoTaskBeforeStart(s);
    case _ =>
  }

  lemma NoTaskBeforeStart(s: Sys)
    requires ModeInv(s) && !s.g.started
    ensures s.task.phase.NoTask?
  {
  }

  // ------------------------------------------------------------------------------
  // Flags, leases, removals
  // ------------------------------------------------------------------------------

  lemma ModeStep(settings: Settings, s: Sys, l: Label)
    requires Enabled(settings, s, l) && ModeInv(s)
    ensures ModeInv(Apply(settings, s, l))
  {
    hide Live, Submit, SettleAll, Resolve, Without, Scheduled, Has;
    match l
    case RemovalRuns(id) => NothingHas(id);
    case _ =>
  }

  lemma BatchStep(settings: Settings, s: Sys, l: Label)
    requires Enabled(settings, s, l) && ModeInv(s) && LineInv(s) && BatchInv(s)
    ensures BatchInv(Apply(settings, s, l))
  {
    hide Ascending, Within, LineInv, Look, Live, Submit, SettleAll, Resolve, Without, Scheduled, Has, Notify,
         AfterBatch;
    var t := Apply(settings, s, l);
    NotifyKeepsPhase(s.task, s.now);
    NotWaitingAfter(s.task, t.g, s.now);
    if t.task.phase.Gathering? {
      if l.LeaseAcquired? {
        BatchBeforeQueue(s);
      } else {
        var live, history := s.task.phase.live, s.ledger.history;
        QueueChanges(settings, s, l);
        if l.Accept? {
          AscendingNext(live + s.g.pending, history, t.ledger.history[|history|]);
          assert live + t.g.pending == live + s.g.pending + [t.ledger.history[|history|]];
        } else {
          AscendingWithin(live, t.g.pending, s.g.pending, history);
        }
      }
    }
  }

  lemma BatchBeforeQueue(s: Sys)
    requires LineInv(s) && s.task.phase.Acquiring?
    ensures Ascending(s.task.phase.live + s.g.pending, s.ledger.history)
  {
    hide Ascending;
    var live, pending := s.task.phase.live, s.g.pending;
    assert Line(s) == [] + s.ledger.handed + (live + pending);
    AscendingCut([], s.ledger.handed, live + pending, s.ledger.history);
    assert [] + (live + pending) == live + pending;
  }

  lemma AscendingNext(items: seq<Item>, history: seq<Item>, item: Item)
    requires Ascending(items, history) && item.id == |history|
    ensures Ascending(items + [item], history + [item])
  {
  }

  /** While a batch is at work the queue only grows at its end, or is thinned out. */
  lemma QueueChanges(settings: Settings, s: Sys, l: Label)
    requires Enabled(settings, s, l) && ModeInv(s) && s.task.phase.Gathering?
    requires Apply(settings, s, l).task.phase.Gathering?
    ensures var t := Apply(settings, s, l);
            && t.task.phase == s.task.phase
            && if l.Accept?
               then t.ledger.history == s.ledger.history + [Item(|s.ledger.history|, l.call, s.now)]
                    && t.g.pending == s.g.pending + [t.ledger.history[|s.ledger.history|]]
               else t.ledger.history == s.ledger.history && Within(t.g.pending, s.g.pending)
  {
    hide Within, Look, Live, Submit, SettleAll, Resolve, Without, Scheduled, Has, Notify, AfterBatch;
    NotifyKeepsPhase(s.task, s.now);
    NotWaitingAfter(s.task, Apply(settings, s, l).g, s.now);
    WithinItself(s.g.pending);
    NothingIsWithin(s.g.pending);
    if l.RemovalRuns? { WithoutAt(s.g.pending, l.id, l.id); }
  }

  lemma NothingIsWithin(items: seq<Item>)
    ensures Within([], items)
  {
  }

  lemma LeaseStep(settings: Settings, s: Sys, l: Label)
    requires Enabled(settings, s, l) && ModeInv(s) && LeaseInv(s)
    ensures LeaseInv(Apply(settings, s, l))
  {
    hide Look, Live, Submit, SettleAll, Resolve, Without, Scheduled, Has, Notify, AfterBatch;
    var t := Apply(settings, s, l);
    NotifyKeepsPhase(s.task, s.now);
    NotWaitingAfter(s.task, t.g, s.now);
    match l
    case LeaseAcquired(lease, _) => assert s.ledger.released[lease] == 0;
    case _ =>
  }

  lemma {:induction false} WithoutMembers(pending: seq<Item>, id: WorkId)
    ensures forall i :: 0 <= i < |Without(pending, id)| ==> Without(pending, id)[i] in pending
    decreases |pending|
  {
    WithoutAt(pending, id, id);
    WithinMembers(Without(pending, id), pending);
  }

  lemma RemovalKept(s: Sys, id: WorkId, i: nat)
    requires LineInv(s) && RemovalInv(s) && i < |Without(s.g.pending, id)|
    requires WasCancelled(s.g.futures, Without(s.g.pending, id)[i].id)
    ensures var left := Without(s.g.pending, id)[i].id; left in s.ledger.removals - {id} || left in s.ledger.orphans
  {
    hide LineInv;
    PlacesApart(s, id);
    WithoutMembers(s.g.pending, id);
    WithoutAt(s.g.pending, id, id);
    assert Has(Without(s.g.pending, id), Without(s.g.pending, id)[i].id);
  }

  /** What a step of the task settles is not cancelled, unless the task itself is. */
  lemma BatchCancelsNothing(settings: Settings, s: Sys, l: Label)
    requires Enabled(settings, s, l)
    requires l.TaskRuns? || l.LeaseAcquired? || l.AcquireFails? || l.WorkGathered?
    ensures CancelsNothing(s.g.futures, Apply(settings, s, l).g.futures)
  {
    hide Look, Live, SettleAll, Resolve, Taken, AfterBatch;
    match l
    case LeaseAcquired(lease, refusal) => SubmitOnlySettles(s.g.futures, s.task.phase.live, refusal);
    case AcquireFails(error) => SettleAllOnlySettles(s.g.futures, s.task.phase.live, Settled(Raises(error)));
    case WorkGathered(endings) =>
      ResolveOnlySettles(s.g.futures, s.task.phase.live[..s.task.phase.taken], GatherAll(endings));
    case _ =>
  }

  /** A step that cancels nothing and leaves the queue alone, or empties it. */
  lemma RemovalsStand(s: Sys, t: Sys)
    requires RemovalInv(s) && OnlySettles(s.g.futures, t.g.futures) && CancelsNothing(s.g.futures, t.g.futures)
    requires t.ledger.removals == s.ledger.removals && t.ledger.orphans == s.ledger.orphans
    requires t.g.pending == s.g.pending || t.g.pending == []
    ensures RemovalInv(t)
  {
  }

  lemma BatchRemovals(settings: Settings, s: Sys, l: Label)
    requires Enabled(settings, s, l) && RemovalInv(s)
    requires l.TaskRuns? || l.LeaseAcquired? || l.AcquireFails? || l.WorkGathered?
    ensures RemovalInv(Apply(settings, s, l))
  {
    hide Look, Live, Submit, SettleAll, Resolve, Taken, Spoiled, AfterBatch, RemovalInv, OnlySettles, CancelsNothing;
    FuturesStep(settings, s, l);
    BatchCancelsNothing(settings, s, l);
    RemovalsStand(s, Apply(settings, s, l));
  }

  lemma QueueRemovals(settings: Settings, s: Sys, id: WorkId)
    requires Enabled(settings, s, RemovalRuns(id)) && LineInv(s) && RemovalInv(s)
    ensures RemovalInv(Apply(settings, s, RemovalRuns(id)))
  {
    hide LineInv, Without, Notify, Has;
    var t := Apply(settings, s, RemovalRuns(id));
    if Has(s.g.pending, id) {
      forall i | 0 <= i < |t.g.pending| && WasCancelled(t.g.futures, t.g.pending[i].id)
        ensures t.g.pending[i].id in t.ledger.removals || t.g.pending[i].id in t.ledger.orphans
      {
        RemovalKept(s, id, i);
      }
    } else {
      NotThere(s.g.pending, id);
    }
  }

  lemma RemovalStep(settings: Settings, s: Sys, l: Label)
    requires Enabled(settings, s, l) && HistoryInv(s) && LineInv(s) && RemovalInv(s)
    ensures RemovalInv(Apply(settings, s, l))
  {
    hide LineInv, TaskRunsStep, LeaseAcquiredStep, AcquireFailsStep, WorkGatheredStep, SettleAll, Without, Notify, Has;
    if l.RemovalRuns? {
      QueueRemovals(settings, s, l.id);
    } else if l.TaskRuns? || l.LeaseAcquired? || l.AcquireFails? || l.WorkGathered? {
      BatchRemovals(settings, s, l);
    } else {
      FuturesStep(settings, s, l);
    }
  }

  lemma NotThere(pending: seq<Item>, id: WorkId)
    requires !Has(pending, id)
    ensures forall i :: 0 <= i < |pending| ==> pending[i].id != id
  {
  }

  // ------------------------------------------------------------------------------
  // The trigger
  // ------------------------------------------------------------------------------

  /** The queue stands in the order of submission. */
  lemma PendingIsSorted(s: Sys, i: nat, j: nat)
    requires HistoryInv(s) && LineInv(s) && i <= j < |s.g.pending|
    ensures s.g.pending[i].submittedAt <= s.g.pending[j].submittedAt <= s.now
  {
    var line := Line(s);
    var p := |s.ledger.handed| + |Waiting(s.task.phase)|;
    assert line[p + i] == s.g.pending[i] && line[p + j] == s.g.pending[j];
    var history := s.ledger.history;
    assert s.g.pending[i] == history[s.g.pending[i].id] && s.g.pending[j] == history[s.g.pending[j].id];
  }

  lemma TriggerStep(settings: Settings, s: Sys, l: Label)
    requires settings.Valid() && Enabled(settings, s, l)
    requires HistoryInv(s) && LineInv(s) && ModeInv(s) && TriggerInv(settings, s)
    ensures TriggerInv(settings, Apply(settings, s, l))
  {
    hide HistoryInv, LineInv, Live, Submit, SettleAll, Resolve, Without, Taken, Scheduled, Has;
    var t := Apply(settings, s, l);
    match l
    case RemovalRuns(id) =>
      if Has(s.g.pending, id) {
        var k := WithoutSplit(s.g.pending, id);
        if |s.g.pending| > 1 { PendingIsSorted(s, 0, 1); }
        var full := settings.batchSizeThreshold;
        if |s.g.pending| > full { PendingIsSorted(s, full - 1, full); }
      }
    case StopBegins(_) => if s.g.pending != [] { PendingIsSorted(s, 0, 0); }
    case _ =>
  }

  lemma InvStep(settings: Settings, s: Sys, l: Label)
    requires settings.Valid() && Enabled(settings, s, l) && Inv(settings, s)
    ensures Inv(settings, Apply(settings, s, l))
  {
    hide HistoryInv, LineInv, BatchInv, OpenInv, ModeInv, LeaseInv, TriggerInv, RemovalInv, Apply;
    HistoryStep(settings, s, l);
    LineStep(settings, s, l);
    BatchStep(settings, s, l);
    OpenStep(settings, s, l);
    ModeStep(settings, s, l);
    LeaseStep(settings, s, l);
    TriggerStep(settings, s, l);
    RemovalStep(settings, s, l);
  }
}
