/**
 What becomes of a batch, of a stop, and of the promise not to let work wait.
 */
module GrinderOutcomes {
  import opened Options
  import opened Runs
  import opened GrinderModel
  import opened GrinderSystem
  import opened GrinderInvariant
  import opened GrinderSteps
  import opened GrinderTheorems

  /** The steps of the grinder's task; all others are the world's. */
  predicate OfTask(l: Label) {
    l.TaskRuns? || l.LeaseAcquired? || l.AcquireFails? || l.WorkGathered? || l.TaskCancelled?
  }

  ghost predicate Meanwhile(run: seq<Label>) {
    forall i :: 0 <= i < |run| ==> !OfTask(run[i])
  }

  /** Whatever happens around it, a batch under way stays under way. */
  lemma {:induction false} BatchStaysPut(settings: Settings, s: Sys, run: seq<Label>)
    requires settings.Valid() && Inv(settings, s) && Legal(Next(settings), s, run) && Meanwhile(run)
    requires s.task.phase.Acquiring? || s.task.phase.Gathering?
    ensures var t := Exec(Next(settings), s, run);
            t.task.phase == s.task.phase && t.ledger.handed == s.ledger.handed
            && t.ledger.leases == s.ledger.leases && t.ledger.released == s.ledger.released
    decreases |run|
  {
    hide Inv, Legal, Exec;
    Unfold(Next(settings), s, run);
    if run == [] {
    } else {
      InvStep(settings, s, run[0]);
      ModeOf(settings, s);
      assert !OfTask(run[0]);
      BatchStaysPutOnce(settings, s, run[0]);
      BatchStaysPut(settings, Apply(settings, s, run[0]), run[1..]);
    }
  }

  lemma ModeOf(settings: Settings, s: Sys)
    requires settings.Valid() && Inv(settings, s)
    ensures ModeInv(s)
  {
  }

  lemma BatchStaysPutOnce(settings: Settings, s: Sys, l: Label)
    requires Enabled(settings, s, l) && ModeInv(s) && !OfTask(l)
    requires s.task.phase.Acquiring? || s.task.phase.Gathering?
    ensures var t := Apply(settings, s, l);
            t.task.phase == s.task.phase && t.ledger.handed == s.ledger.handed
            && t.ledger.leases == s.ledger.leases && t.ledger.released == s.ledger.released
  {
    hide Notify, Has, Without, SettleAll, Settle, Scheduled;
    NotifyKeepsPhase(s.task, s.now);
  }

  // ------------------------------------------------------------------------------
  // A batch, item by item
  // ------------------------------------------------------------------------------

  lemma WaitingItem(settings: Settings, s: Sys, i: nat)
    requires settings.Valid() && Inv(settings, s) && s.task.phase.Acquiring? && i < |s.task.phase.live|
    ensures s.task.phase.live[i].id in s.g.futures && DistinctItems(s.task.phase.live)
  {
    hide BatchInv, OpenInv, ModeInv, LeaseInv, TriggerInv, RemovalInv;
    PlacesApart(s, 0);
    assert Line(s)[|s.ledger.handed| + i] == s.task.phase.live[i];
  }

  /** Submitting: the refused item and all after it get the refusal's error, at once; of a
      spoiled batch all items get an error; an item whose future was done is left alone. */
  lemma SubmissionSplits(settings: Settings, s: Sys, lease: LeaseId, refusal: Option<Refusal>, i: nat)
    requires settings.Valid() && Inv(settings, s) && Enabled(settings, s, LeaseAcquired(lease, refusal))
    requires i < |s.task.phase.live|
    ensures var t := Apply(settings, s, LeaseAcquired(lease, refusal));
            var live := s.task.phase.live;
            var n, id := Taken(live, refusal), live[i].id;
            && id in s.g.futures && id in t.g.futures
            && t.g.futures[id] == if s.g.futures[id] != Unsettled then s.g.futures[id]
                                  else if Spoiled(live, refusal) then Settled(Raises(TYPE_ERROR))
                                  else if i >= n then Settled(Raises(refusal.value.error))
                                  else Unsettled
  {
    hide Inv, SettleAll;
    var live := s.task.phase.live;
    var n, id := Taken(live, refusal), live[i].id;
    WaitingItem(settings, s, i);
    if Spoiled(live, refusal) {
      SettleAllAt(s.g.futures, live, Settled(Raises(TYPE_ERROR)), id);
    } else if n < |live| {
      SettleAllAt(s.g.futures, live[n..], Settled(Raises(refusal.value.error)), id);
      if i >= n { assert live[n..][i - n].id == id; }
    }
  }

  /** The batch's whole way, with anything happening while its work runs: the submitted
      items get the endings of their own calls, unless done before, where only a returned
      exception object is raised instead; the others get the error of the refusal, unless
      done before that; and the lease goes back once. */
  lemma BatchOutcome(settings: Settings, run: seq<Label>, lease: LeaseId, refusal: Option<Refusal>,
                     between: seq<Label>, endings: seq<Ending>, i: nat)
    requires Run(settings, run) && Enabled(settings, After(settings, run), LeaseAcquired(lease, refusal))
    requires i < |After(settings, run).task.phase.live|
    requires var s1 := Apply(settings, After(settings, run), LeaseAcquired(lease, refusal));
             && Legal(Next(settings), s1, between) && Meanwhile(between)
             && Enabled(settings, Exec(Next(settings), s1, between), WorkGathered(endings))
    ensures var s0 := After(settings, run);
            var s1 := Apply(settings, s0, LeaseAcquired(lease, refusal));
            var s2 := Exec(Next(settings), s1, between);
            var s3 := Apply(settings, s2, WorkGathered(endings));
            var n, id := Taken(s0.task.phase.live, refusal), s0.task.phase.live[i].id;
            && |endings| == n && id in s0.g.futures && id in s2.g.futures && id in s3.g.futures
            && (i < n && s2.g.futures[id] != Unsettled ==> s3.g.futures[id] == s2.g.futures[id])
            && (i < n && s2.g.futures[id] == Unsettled ==>
                  s3.g.futures[id] == Settled(if endings[i].Returns? && endings[i].value.ErrorObject?
                                              then Raises(endings[i].value.error) else endings[i]))
            && (i >= n ==> refusal.Some? && s3.g.futures[id] == if s0.g.futures[id] == Unsettled
                                               then Settled(Raises(refusal.value.error)) else s0.g.futures[id])
            && s2.ledger.released[lease] == 0 && s3.ledger.released[lease] == 1
  {
    hide Inv, Resolve, Submit, Spoiled, Live, Look;
    var s0 := After(settings, run);
    var s1 := Apply(settings, s0, LeaseAcquired(lease, refusal));
    var s2 := Exec(Next(settings), s1, between);
    var live := s0.task.phase.live;
    var n, id := Taken(live, refusal), live[i].id;
    Reachable(settings, run);
    WaitingItem(settings, s0, i);
    SubmissionSplits(settings, s0, lease, refusal, i);
    InvStep(settings, s0, LeaseAcquired(lease, refusal));
    RunsAge(settings, s1, between);
    if n == 0 || Spoiled(live, refusal) {
      NoBatchAfterRefusal(settings, s1, between);
      assert false;
    }
    BatchStaysPut(settings, s1, between);
    LeaseIsOut(settings, s2);
    if i < n {
      assert DistinctItems(live[..n]);
      DeliveredAsEnded(endings[i]);
      ResolveEach(s2.g.futures, live[..n], GatherAll(endings), i);
    } else {
      assert !Has(live[..n], id);
      ResolveAt(s2.g.futures, live[..n], GatherAll(endings), id);
    }
  }

  /** The task is at no work unless it takes some up. */
  lemma {:induction false} NoBatchAfterRefusal(settings: Settings, s: Sys, run: seq<Label>)
    requires Legal(Next(settings), s, run) && Meanwhile(run) && !s.task.phase.Gathering?
    ensures !Exec(Next(settings), s, run).task.phase.Gathering?
    decreases |run|
  {
    hide Legal, Exec;
    Unfold(Next(settings), s, run);
    if run == [] {
    } else {
      assert !OfTask(run[0]);
      NotifyKeepsPhase(s.task, s.now);
      NoBatchAfterRefusal(settings, Apply(settings, s, run[0]), run[1..]);
    }
  }

  lemma LeaseIsOut(settings: Settings, s: Sys)
    requires settings.Valid() && Inv(settings, s) && s.task.phase.Gathering?
    ensures s.ledger.released[s.task.phase.lease] == 0
  {
  }

  /** The executor takes nothing: every item gets the error, and the lease goes back. */
  lemma RefusedBatch(settings: Settings, run: seq<Label>, lease: LeaseId, refusal: Refusal, i: nat)
    requires Run(settings, run) && Enabled(settings, After(settings, run), LeaseAcquired(lease, Some(refusal)))
    requires i < |After(settings, run).task.phase.live|
    requires refusal.at == 0 && After(settings, run).task.phase.live[0].call.Callable?
    ensures var s := After(settings, run);
            var t := Apply(settings, s, LeaseAcquired(lease, Some(refusal)));
            var id := s.task.phase.live[i].id;
            && id in s.g.futures && id in t.g.futures
            && t.g.futures[id] ==
               (if s.g.futures[id] == Unsettled then Settled(Raises(refusal.error)) else s.g.futures[id])
            && t.ledger.handed == s.ledger.handed
            && t.ledger.released[lease] == 1 && !t.task.phase.Gathering?
  {
    hide HistoryInv, LineInv, BatchInv, OpenInv, ModeInv, TriggerInv, RemovalInv, Submit;
    var s := After(settings, run);
    Reachable(settings, run);
    SubmissionSplits(settings, s, lease, Some(refusal), i);
  }

  /** A call that cannot be prepared, before any refusal, fails the batch with the lease in
      hand: the items before it are with the executor, yet every item gets the error of that
      call, no future of the batch stays open, and the lease goes back once. */
  lemma SpoiledBatch(settings: Settings, run: seq<Label>, lease: LeaseId, refusal: Option<Refusal>, i: nat)
    requires Run(settings, run) && Enabled(settings, After(settings, run), LeaseAcquired(lease, refusal))
    requires i < |After(settings, run).task.phase.live|
    requires Spoiled(After(settings, run).task.phase.live, refusal)
    ensures var s := After(settings, run);
            var t := Apply(settings, s, LeaseAcquired(lease, refusal));
            var live := s.task.phase.live;
            var id := live[i].id;
            && id in s.g.futures && id in t.g.futures
            && t.g.futures[id] ==
               (if s.g.futures[id] == Unsettled then Settled(Raises(TYPE_ERROR)) else s.g.futures[id])
            && t.ledger.handed == s.ledger.handed + live[..FirstNotCallable(live)]
            && s.ledger.released[lease] == 0 && t.ledger.released[lease] == 1 && InHand(t.task.phase) == []
  {
    hide HistoryInv, LineInv, BatchInv, OpenInv, ModeInv, TriggerInv, RemovalInv, Submit;
    var s := After(settings, run);
    Reachable(settings, run);
    SubmissionSplits(settings, s, lease, refusal, i);
  }

  /** The future is open, and the loop waits for the batch it is in. */
  predicate StillToEnd(s: Sys, id: WorkId) {
    s.task.phase.Gathering? && Has(Open(s.task.phase), id) && IsUnsettled(s.g.futures, id)
  }

  /** So submitted work keeps its own ending, which BatchOutcome gives, if and only if no
      item that cannot be called stands in the batch up to the first refused one. */
  lemma SubmittedWorkIsLost(settings: Settings, run: seq<Label>, lease: LeaseId, refusal: Option<Refusal>, i: nat)
    requires Run(settings, run) && Enabled(settings, After(settings, run), LeaseAcquired(lease, refusal))
    requires var s := After(settings, run);
             && i < Taken(s.task.phase.live, refusal)
             && IsUnsettled(s.g.futures, s.task.phase.live[i].id)
    ensures var s := After(settings, run);
            var t := Apply(settings, s, LeaseAcquired(lease, refusal));
            var live := s.task.phase.live;
            && Has(t.ledger.handed, live[i].id)
            && (t.task.phase.Gathering? ==> t.task.phase == Gathering(live, Taken(live, refusal), lease))
            && (StillToEnd(t, live[i].id) <==>
                !exists k :: 0 <= k < |live| && live[k].call.NotCallable? && (refusal.None? || k <= refusal.value.at))
  {
    hide Inv, Submit, Spoiled, Taken;
    var s := After(settings, run);
    var live := s.task.phase.live;
    Reachable(settings, run);
    SubmissionSplits(settings, s, lease, refusal, i);
    SpoiledMeans(live, refusal);
    var n := Taken(live, refusal);
    assert (s.ledger.handed + live[..n])[|s.ledger.handed| + i] == live[i];
  }

  /** No lease: every item gets the error, and nothing is owed to the pool. */
  lemma UnleasedBatch(settings: Settings, run: seq<Label>, error: int, i: nat)
    requires Run(settings, run) && Enabled(settings, After(settings, run), AcquireFails(error))
    requires i < |After(settings, run).task.phase.live|
    ensures var s := After(settings, run);
            var t := Apply(settings, s, AcquireFails(error));
            var id := s.task.phase.live[i].id;
            && id in s.g.futures && id in t.g.futures
            && t.g.futures[id] == (if s.g.futures[id] == Unsettled then Settled(Raises(error)) else s.g.futures[id])
            && t.ledger == s.ledger && InHand(t.task.phase) == []
  {
    hide Inv, SettleAll;
    var s := After(settings, run);
    Reachable(settings, run);
    WaitingItem(settings, s, i);
    SettleAllAt(s.g.futures, s.task.phase.live, Settled(Raises(error)), s.task.phase.live[i].id);
  }

  /** No open future is both queued and in the batch. */
  lemma QueueIsNotInHand(settings: Settings, s: Sys, id: WorkId)
    requires settings.Valid() && Inv(settings, s) && Has(s.g.pending, id)
    ensures !Has(InHand(s.task.phase), id)
  {
    hide HistoryInv, OpenInv, ModeInv, LeaseInv, TriggerInv, RemovalInv, Ascending, Has;
    NothingHas(id);
    if s.task.phase.Acquiring? {
      PlacesApart(s, id);
    } else if s.task.phase.Gathering? {
      AscendingApart(s.task.phase.live, s.g.pending, s.ledger.history, id);
    }
  }

  /** Cancelled, the loop leaves no future of its batch open, and its lease, if it had one,
      goes back; what is queued stays queued, and open as it was. */
  lemma CancelledBatch(settings: Settings, run: seq<Label>)
    requires Run(settings, run) && Enabled(settings, After(settings, run), TaskCancelled)
    ensures var s := After(settings, run);
            var t := Apply(settings, s, TaskCancelled);
            && (forall id: WorkId :: id in s.g.futures ==>
                  id in t.g.futures
                  && t.g.futures[id] == if s.g.futures[id] == Unsettled && !Has(s.g.pending, id)
                                        then Cancelled else s.g.futures[id])
            && (forall l: LeaseId :: l in t.ledger.leases ==> t.ledger.released[l] == 1)
            && t.ledger.leases == s.ledger.leases && t.task.phase.Finished? && t.g.pending == s.g.pending
            && (!s.task.stopCancelled ==> s.g.pending == [])
  {
    hide HistoryInv, LineInv, BatchInv, TriggerInv, RemovalInv, SettleAll, Scheduled, Has;
    var s := After(settings, run);
    var t := Apply(settings, s, TaskCancelled);
    Reachable(settings, run);
    forall id: WorkId | id in s.g.futures
      ensures id in t.g.futures
              && t.g.futures[id] == if s.g.futures[id] == Unsettled && !Has(s.g.pending, id)
                                    then Cancelled else s.g.futures[id]
    {
      SettleAllAt(s.g.futures, InHand(s.task.phase), Cancelled, id);
      if Has(s.g.pending, id) {
        QueueIsNotInHand(settings, s, id);
      } else if IsUnsettled(s.g.futures, id) {
        NothingHas(id);
        if s.task.phase.Gathering? { HasSplit(s.task.phase.live, s.task.phase.taken, id); }
      }
    }
  }

  /** An item the loop takes up is submitted if and only if it was not cancelled by then and
      does not stand where the executor refuses, or a call cannot be prepared, or behind: a
      cancellation that comes while the batch waits for its lease comes too late. */
  lemma CancellationInTime(settings: Settings, run: seq<Label>, between: seq<Label>, lease: LeaseId,
                           refusal: Option<Refusal>, id: WorkId)
    requires Run(settings, run) && Enabled(settings, After(settings, run), TaskRuns)
    requires var s := After(settings, run); Look(settings, s.g, s.now).Batch? && Has(s.g.pending, id)
    requires var s1 := Apply(settings, After(settings, run), TaskRuns);
             && Legal(Next(settings), s1, between) && Meanwhile(between)
             && Enabled(settings, Exec(Next(settings), s1, between), LeaseAcquired(lease, refusal))
    ensures var s := After(settings, run);
            var s2 := Exec(Next(settings), Apply(settings, s, TaskRuns), between);
            var batch := Live(s.g.pending, s.g.futures);
            Has(Apply(settings, s2, LeaseAcquired(lease, refusal)).ledger.handed, id) <==>
            !WasCancelled(s.g.futures, id) && !Has(batch[Taken(batch, refusal)..], id)
  {
    hide HistoryInv, LineInv, BatchInv, OpenInv, ModeInv, LeaseInv, TriggerInv, RemovalInv, Live, Has, Taken,
         Spoiled, Submit;
    var s := After(settings, run);
    var s1 := Apply(settings, s, TaskRuns);
    Reachable(settings, run);
    InvStep(settings, s, TaskRuns);
    PlacesApart(s, id);
    LiveAt(s.g.pending, s.g.futures, id);
    if !s1.task.phase.Acquiring? {
      NoLeaseSought(settings, s1, between);
      assert false;
    }
    BatchStaysPut(settings, s1, between);
    var live := s1.task.phase.live;
    var n := Taken(live, refusal);
    PlacesApart(s1, id);
    PartsApart(live, n, id);
    HasSplit(live, n, id);
    HasSum(s.ledger.handed, live[..n], id);
  }

  lemma PartsApart(items: seq<Item>, n: nat, id: WorkId)
    requires n <= |items| && DistinctItems(items)
    ensures !(Has(items[..n], id) && Has(items[n..], id))
  {
    assert forall i, j :: 0 <= i < n && 0 <= j < |items| - n ==> items[..n][i].id != items[n..][j].id;
  }

  lemma {:induction false} NoLeaseSought(settings: Settings, s: Sys, run: seq<Label>)
    requires Legal(Next(settings), s, run) && Meanwhile(run) && !s.task.phase.Acquiring?
    ensures !Exec(Next(settings), s, run).task.phase.Acquiring?
    decreases |run|
  {
    hide Legal, Exec;
    Unfold(Next(settings), s, run);
    if run == [] {
    } else {
      assert !OfTask(run[0]);
      NotifyKeepsPhase(s.task, s.now);
      NoLeaseSought(settings, Apply(settings, s, run[0]), run[1..]);
    }
  }

  // ------------------------------------------------------------------------------
  // The trigger
  // ------------------------------------------------------------------------------

  /** An idle loop before a full queue, an overdue one, or a stop can always step, and then
      takes up exactly the queued items that are not cancelled, in order; unless the stop's
      caller was cancelled, when the loop is to end at once. */
  lemma FullOrOverdueBatchIsTaken(settings: Settings, run: seq<Label>)
    requires Run(settings, run)
    requires var s := After(settings, run);
             && (s.task.phase.Running? || s.task.phase.Parked?) && s.g.pending != []
             && (|s.g.pending| >= settings.batchSizeThreshold
                 || s.now >= s.g.pending[0].submittedAt + settings.maxWaitSeconds
                 || s.g.stopping)
    ensures var s := After(settings, run);
            && (if s.task.cancelRequested then s.task.stopCancelled && Enabled(settings, s, TaskCancelled)
                else Enabled(settings, s, TaskRuns))
            && (!s.task.cancelRequested ==>
               var t := Apply(settings, s, TaskRuns);
               && t.g.pending == []
               && Within(Waiting(t.task.phase), s.g.pending)
               && (forall id: WorkId :: Has(Waiting(t.task.phase), id) <==>
                                        Has(s.g.pending, id) && !WasCancelled(s.g.futures, id)))
  {
    hide HistoryInv, LineInv, BatchInv, OpenInv, LeaseInv, RemovalInv, Has, Within, Live;
    var s := After(settings, run);
    Reachable(settings, run);
    LiveWithin(s.g.pending, s.g.futures);
    forall id: WorkId
      ensures Has(Live(s.g.pending, s.g.futures), id) <==> Has(s.g.pending, id) && !WasCancelled(s.g.futures, id)
    {
      LiveAt(s.g.pending, s.g.futures, id);
    }
    forall id: WorkId ensures !Has([], id) { NothingHas(id); }
  }

  /** The event loop runs the grinder's task at most d after it could run. */
  ghost predicate Paced(s: Sys, d: real) {
    && (s.task.phase.Running? ==> s.now <= s.task.due + d)
    && (s.task.phase.Parked? && (s.task.notified || s.task.phase.until.Some?) ==> s.now <= s.task.due + d)
  }

  /** Asleep, the loop lets no item wait longer than the longest wait and d, and no full
      queue longer than d after it became full; the oldest item stands first. */
  lemma SleepIsShort(settings: Settings, run: seq<Label>, d: real, i: nat)
    requires Run(settings, run) && Paced(After(settings, run), d)
    requires After(settings, run).task.phase.Parked? && i < |After(settings, run).g.pending|
    ensures var s := After(settings, run);
            && s.now <= s.g.pending[i].submittedAt + settings.maxWaitSeconds + d
            && (|s.g.pending| >= settings.batchSizeThreshold ==>
                  s.now <= s.g.pending[settings.batchSizeThreshold - 1].submittedAt + d)
  {
    hide HistoryInv, LineInv, BatchInv, OpenInv, ModeInv, LeaseInv, RemovalInv;
    Reachable(settings, run);
    PendingIsSorted(After(settings, run), 0, i);
  }

  /** Not woken, the loop sleeps before an empty queue, or a short one with its appointment
      no later than the oldest item's longest wait. */
  lemma SleepMissesNothing(settings: Settings, run: seq<Label>)
    requires Run(settings, run)
    requires var s := After(settings, run); s.task.phase.Parked? && !s.task.notified && s.g.pending != []
    ensures var s := After(settings, run);
            && |s.g.pending| < settings.batchSizeThreshold
            && s.task.phase.until.Some?
            && (forall i :: 0 <= i < |s.g.pending| ==>
                  s.task.phase.until.value <= s.g.pending[i].submittedAt + settings.maxWaitSeconds)
  {
    hide HistoryInv, LineInv, BatchInv, OpenInv, ModeInv, LeaseInv, RemovalInv;
    var s := After(settings, run);
    Reachable(settings, run);
    forall i | 0 <= i < |s.g.pending|
      ensures s.task.phase.until.value <= s.g.pending[i].submittedAt + settings.maxWaitSeconds
    {
      PendingIsSorted(s, 0, i);
    }
  }
}
