/**
 What each step of the grinder does, to the last field, in terms of the fields alone: once
 and for all states that can be reached.
 */
module GrinderEffects {
  import opened Options
  import opened Runs
  import opened GrinderModel
  import opened GrinderSystem
  import opened GrinderInvariant
  import opened GrinderSteps
  import opened GrinderTheorems
  import opened GrinderOutcomes

  /** The open futures of the items are now in the given state; no other changed. */
  ghost predicate Becomes(fs: Futures, hs: Futures, items: seq<Item>, state: FutureState) {
    && hs.Keys == fs.Keys
    && forall id: WorkId :: id in fs ==>
         hs[id] == if fs[id] == Unsettled && Has(items, id) then state else fs[id]
  }

  lemma SettleAllBecomes(fs: Futures, items: seq<Item>, state: FutureState)
    requires state != Unsettled
    ensures Becomes(fs, SettleAll(fs, items, state), items, state)
  {
    forall id: WorkId
      ensures SettleAll(fs, items, state).Keys == fs.Keys
      ensures id in fs ==>
                SettleAll(fs, items, state)[id] == if fs[id] == Unsettled && Has(items, id) then state else fs[id]
    {
      SettleAllAt(fs, items, state, id);
    }
  }

  /** A waiting loop is woken; it can go on from now on, if it could not before. */
  function Woken(t: Task, now: real): Task {
    match t.phase
    case Parked(until) =>
      t.(notified := true, due := if (t.notified || until.Some?) && t.due < now then t.due else now)
    case _ => t
  }

  /** Through with a batch, the loop leaves if it is to stop and nothing is queued; else it
      looks again. */
  function LooksAgain(t: Task, g: Grinder, now: real): Task {
    if g.stopping && g.pending == [] then t.(phase := Finished) else t.(phase := Running, due := now)
  }

  // ------------------------------------------------------------------------------
  // Callers
  // ------------------------------------------------------------------------------

  /** Accepted work stands last in the queue, with the time, its future open, and wakes the
      loop. */
  lemma AcceptEffect(settings: Settings, run: seq<Label>, call: Call)
    requires Run(settings, run) && Enabled(settings, After(settings, run), Accept(call))
    ensures var s := After(settings, run);
            var id := |s.ledger.history|;
            var item := Item(id, call, s.now);
            && s.g.started && !s.g.stopping && id !in s.g.futures
            && Apply(settings, s, Accept(call)) ==
               s.(g := s.g.(pending := s.g.pending + [item], futures := s.g.futures[id := Unsettled]),
                  task := Woken(s.task, s.now),
                  ledger := s.ledger.(history := s.ledger.history + [item]))
  {
    hide LineInv, BatchInv, OpenInv, ModeInv, LeaseInv, TriggerInv, RemovalInv, Legal, Exec;
    Reachable(settings, run);
  }

  /** A future settled by a caller: a cancellation has the removal scheduled, if there is a
      loop for it. */
  lemma SettledOutsideEffect(settings: Settings, run: seq<Label>, id: WorkId, state: FutureState)
    requires Run(settings, run) && Enabled(settings, After(settings, run), SettledOutside(id, state))
    ensures var s := After(settings, run);
            Apply(settings, s, SettledOutside(id, state)) ==
            s.(g := s.g.(futures := s.g.futures[id := state]),
               ledger := if state != Cancelled then s.ledger
                         else if s.g.started then s.ledger.(removals := s.ledger.removals + {id})
                         else s.ledger.(orphans := s.ledger.orphans + {id}))
  {
    hide Legal, Exec;
  }

  /** A removal takes the item out where it stands, and wakes the loop; or there is none. */
  lemma RemovalEffect(settings: Settings, run: seq<Label>, id: WorkId) returns (k: nat)
    requires Run(settings, run) && Enabled(settings, After(settings, run), RemovalRuns(id))
    ensures var s := After(settings, run);
            var t := Apply(settings, s, RemovalRuns(id));
            var ledger := s.ledger.(removals := s.ledger.removals - {id});
            if k < |s.g.pending| then
              && s.g.pending[k].id == id
              && t == s.(g := s.g.(pending := s.g.pending[..k] + s.g.pending[k + 1..]),
                         task := Woken(s.task, s.now), ledger := ledger)
            else
              && (forall i :: 0 <= i < |s.g.pending| ==> s.g.pending[i].id != id)
              && t == s.(ledger := ledger)
  {
    hide Legal, Exec;
    var s := After(settings, run);
    if Has(s.g.pending, id) {
      k := WithoutSplit(s.g.pending, id);
    } else {
      k := |s.g.pending|;
      NotThere(s.g.pending, id);
    }
  }

  // ------------------------------------------------------------------------------
  // The loop looks at the queue
  // ------------------------------------------------------------------------------

  /** Not cancelled, and on its feet, or asleep and woken or past its time. */
  predicate MayLook(s: Sys) {
    && !s.task.cancelRequested
    && match s.task.phase
       case Running => true
       case Parked(until) => s.task.notified || (until.Some? && s.now >= until.value)
       case _ => false
  }

  /** When work is queued the loop takes it, if and only if there is enough of it, or the
      oldest has waited long enough, or a stop is under way.  Else it leaves all as it is,
      and sleeps until the oldest will have waited long enough. */
  lemma LookEffect(settings: Settings, run: seq<Label>)
    requires Run(settings, run) && Enabled(settings, After(settings, run), TaskRuns)
    requires After(settings, run).g.pending != []
    ensures var s := After(settings, run);
            var t := Apply(settings, s, TaskRuns);
            var until := s.g.pending[0].submittedAt + settings.maxWaitSeconds;
            && MayLook(s)
            && (t.g.pending == [] <==> |s.g.pending| >= settings.batchSizeThreshold || s.now >= until || s.g.stopping)
            && (t.g.pending != [] ==>
                  t == s.(task := s.task.(phase := Parked(Some(until)), notified := false, due := until)))
  {
    hide Legal, Exec, Live;
  }

  /** With nothing queued it ends if it is to stop, else it sleeps until woken. */
  lemma EmptyLookEffect(settings: Settings, run: seq<Label>)
    requires Run(settings, run) && Enabled(settings, After(settings, run), TaskRuns)
    requires After(settings, run).g.pending == []
    ensures var s := After(settings, run);
            Apply(settings, s, TaskRuns) ==
            s.(task := if s.g.stopping then s.task.(phase := Finished)
                       else s.task.(phase := Parked(None), notified := false, due := s.now))
  {
    hide Legal, Exec, Live;
  }

  /** What it takes is the whole queue, in order, without the cancelled.  If that is nothing
      it looks again; else it is a batch, which is counted and waits for a lease. */
  lemma TakeUpEffect(settings: Settings, run: seq<Label>)
    requires Run(settings, run) && Enabled(settings, After(settings, run), TaskRuns)
    requires var s := After(settings, run);
             s.g.pending != [] && Apply(settings, s, TaskRuns).g.pending == []
    ensures var s := After(settings, run);
            var t := Apply(settings, s, TaskRuns);
            var batch := Waiting(t.task.phase);
            && Within(batch, s.g.pending)
            && (forall id: WorkId :: Has(batch, id) <==> Has(s.g.pending, id) && !WasCancelled(s.g.futures, id))
            && t.ledger == s.ledger && t.now == s.now
            && (batch == [] ==>
                  && t.g == s.g.(pending := [])
                  && t.task == LooksAgain(s.task, t.g, s.now).(since := s.now))
            && (batch != [] ==>
                  && t.g == s.g.(pending := [], batchSeq := s.g.batchSeq + 1)
                  && t.task == s.task.(phase := Acquiring(batch), since := s.now))
  {
    hide Legal, Exec, Live, Has, Within;
    var s := After(settings, run);
    LiveWithin(s.g.pending, s.g.futures);
    forall id: WorkId
      ensures Has(Live(s.g.pending, s.g.futures), id) <==> Has(s.g.pending, id) && !WasCancelled(s.g.futures, id)
    {
      LiveAt(s.g.pending, s.g.futures, id);
    }
  }

  // ------------------------------------------------------------------------------
  // A batch
  // ------------------------------------------------------------------------------

  /** The i-th call can be prepared and is not refused. */
  predicate Goes(live: seq<Item>, refusal: Option<Refusal>, i: nat)
    requires i < |live|
  {
    live[i].call.Callable? && (refusal.Some? ==> i != refusal.value.at)
  }

  /** Submission stops at the m-th item, or past the end: it goes no further than that. */
  predicate StopsAt(live: seq<Item>, refusal: Option<Refusal>, m: nat) {
    m <= |live| && (forall i :: 0 <= i < m ==> Goes(live, refusal, i)) && (m < |live| ==> !Goes(live, refusal, m))
  }

  lemma TakenIs(live: seq<Item>, refusal: Option<Refusal>, m: nat)
    requires StopsAt(live, refusal, m)
    ensures Taken(live, refusal) == m
    ensures Spoiled(live, refusal) <==> m < |live| && live[m].call.NotCallable?
  {
    var k, r := FirstNotCallable(live), FirstRefused(live, refusal);
    if k < |live| { assert !Goes(live, refusal, k); }
    if r < |live| { assert !Goes(live, refusal, r); }
  }

  /** With a lease, the items up to that one are handed to the executor, in order.  If it
      cannot be called, every open future of the batch gets that error; if it is refused, the
      open ones from there on get the error of the refusal; and no other future changes.  If
      work is under way the loop waits for it; else the lease goes back, and it looks again. */
  lemma LeaseEffect(settings: Settings, run: seq<Label>, lease: LeaseId, refusal: Option<Refusal>, m: nat)
    requires Run(settings, run) && Enabled(settings, After(settings, run), LeaseAcquired(lease, refusal))
    requires StopsAt(After(settings, run).task.phase.live, refusal, m)
    ensures var s := After(settings, run);
            var t := Apply(settings, s, LeaseAcquired(lease, refusal));
            var live := s.task.phase.live;
            var spoiled := m < |live| && live[m].call.NotCallable?;
            && t.now == s.now && t.g == s.g.(futures := t.g.futures)
            && (if spoiled then Becomes(s.g.futures, t.g.futures, live, Settled(Raises(TYPE_ERROR)))
                else if m < |live| then
                  Becomes(s.g.futures, t.g.futures, live[m..], Settled(Raises(refusal.value.error)))
                else t.g.futures == s.g.futures)
            && (if 0 < m && !spoiled then
                  && t.task == s.task.(phase := Gathering(live, m, lease))
                  && t.ledger == s.ledger.(handed := s.ledger.handed + live[..m], leases := s.ledger.leases + {lease})
                else
                  && t.task == LooksAgain(s.task, s.g, s.now)
                  && t.ledger == s.ledger.(handed := s.ledger.handed + live[..m], leases := s.ledger.leases + {lease},
                                           released := s.ledger.released + multiset{lease}))
  {
    hide Legal, Exec, Taken, Spoiled, SettleAll, Becomes, StopsAt;
    var s := After(settings, run);
    var live := s.task.phase.live;
    TakenIs(live, refusal, m);
    StopsInside(live, refusal, m);
    SettleAllBecomes(s.g.futures, live, Settled(Raises(TYPE_ERROR)));
    if m < |live| && live[m].call.Callable? {
      SettleAllBecomes(s.g.futures, live[m..], Settled(Raises(refusal.value.error)));
    }
  }

  lemma StopsInside(live: seq<Item>, refusal: Option<Refusal>, m: nat)
    requires StopsAt(live, refusal, m)
    ensures m <= |live| && (m < |live| && live[m].call.Callable? ==> refusal.Some?)
  {
  }

  /** In the words of the executor: it refuses item `at`, and all before can be called.  Then
      just those before it are handed over and stay open as they were; it and all after it
      get the error, unless they were done. */
  lemma RefusalSplitsBatch(settings: Settings, run: seq<Label>, lease: LeaseId, at: nat, error: int, i: nat)
    requires Run(settings, run)
    requires Enabled(settings, After(settings, run), LeaseAcquired(lease, Some(Refusal(at, error))))
    requires var live := After(settings, run).task.phase.live;
             && i < |live| && at < |live| && (forall j :: 0 <= j <= at ==> live[j].call.Callable?)
    ensures var s := After(settings, run);
            var t := Apply(settings, s, LeaseAcquired(lease, Some(Refusal(at, error))));
            var live := s.task.phase.live;
            var id := live[i].id;
            && t.ledger.handed == s.ledger.handed + live[..at]
            && id in s.g.futures && id in t.g.futures
            && t.g.futures[id] == if s.g.futures[id] == Unsettled && i >= at then Settled(Raises(error))
                                  else s.g.futures[id]
  {
    hide BatchInv, OpenInv, ModeInv, LeaseInv, TriggerInv, RemovalInv, Legal, Exec, Apply, Has;
    var s := After(settings, run);
    var live := s.task.phase.live;
    Reachable(settings, run);
    WaitingItem(settings, s, i);
    LeaseEffect(settings, run, lease, Some(Refusal(at, error)), at);
    PartsAt(live, at, i);
  }

  lemma PartsAt(items: seq<Item>, m: nat, i: nat)
    requires m <= |items| && i < |items| && DistinctItems(items)
    ensures Has(items[m..], items[i].id) <==> i >= m
  {
    if i >= m { assert items[m..][i - m].id == items[i].id; }
  }

  /** Without a lease every open future of the batch gets the error; nothing else changes, and
      the loop looks again. */
  lemma NoLeaseEffect(settings: Settings, run: seq<Label>, error: int)
    requires Run(settings, run) && Enabled(settings, After(settings, run), AcquireFails(error))
    ensures var s := After(settings, run);
            var t := Apply(settings, s, AcquireFails(error));
            && Becomes(s.g.futures, t.g.futures, s.task.phase.live, Settled(Raises(error)))
            && t == s.(g := s.g.(futures := t.g.futures), task := LooksAgain(s.task, s.g, s.now))
  {
    hide Legal, Exec, SettleAll, Becomes;
    var s := After(settings, run);
    SettleAllBecomes(s.g.futures, s.task.phase.live, Settled(Raises(error)));
  }

  /** When the work is gathered, the i-th submitted item gets what the i-th call ended with,
      unless its future was done; no other future changes, the lease goes back, and the loop
      looks again. */
  lemma GatheredEffect(settings: Settings, run: seq<Label>, endings: seq<Ending>, i: nat, other: WorkId)
    requires Run(settings, run) && Enabled(settings, After(settings, run), WorkGathered(endings)) && i < |endings|
    ensures var s := After(settings, run);
            var t := Apply(settings, s, WorkGathered(endings));
            var submitted := s.task.phase.live[..s.task.phase.taken];
            var id := submitted[i].id;
            && id in s.g.futures && id in t.g.futures
            && t.g.futures[id] ==
               (if s.g.futures[id] != Unsettled then s.g.futures[id]
                else if endings[i].Returns? && endings[i].value.ErrorObject? then
                  Settled(Raises(endings[i].value.error))
                else Settled(endings[i]))
            && t.g.futures.Keys == s.g.futures.Keys
            && (other in s.g.futures && !Has(submitted, other) ==> t.g.futures[other] == s.g.futures[other])
            && t == s.(g := s.g.(futures := t.g.futures), task := LooksAgain(s.task, s.g, s.now),
                       ledger := s.ledger.(released := s.ledger.released + multiset{s.task.phase.lease}))
  {
    hide OpenInv, ModeInv, LeaseInv, TriggerInv, RemovalInv, Legal, Exec, Resolve;
    var s := After(settings, run);
    Reachable(settings, run);
    var submitted := s.task.phase.live[..s.task.phase.taken];
    SubmittedIsAccepted(s, i);
    DeliveredAsEnded(endings[i]);
    ResolveEach(s.g.futures, submitted, GatherAll(endings), i);
    ResolveAt(s.g.futures, submitted, GatherAll(endings), other);
  }

  lemma SubmittedIsAccepted(s: Sys, i: nat)
    requires HistoryInv(s) && BatchInv(s) && s.task.phase.Gathering? && i < s.task.phase.taken
    ensures var submitted := s.task.phase.live[..s.task.phase.taken];
            DistinctItems(submitted) && submitted[i].id in s.g.futures
  {
    var live := s.task.phase.live;
    assert (live + s.g.pending)[i] == live[i];
    forall j, k | 0 <= j < k < s.task.phase.taken ensures live[j].id != live[k].id {
      assert (live + s.g.pending)[j].id < (live + s.g.pending)[k].id;
    }
  }

  /** Cancelled, the loop ends, with the open futures of its batch cancelled, whose removals
      are scheduled though there is nothing to remove, and its lease given back. */
  lemma TaskCancelledEffect(settings: Settings, run: seq<Label>)
    requires Run(settings, run) && Enabled(settings, After(settings, run), TaskCancelled)
    ensures var s := After(settings, run);
            var t := Apply(settings, s, TaskCancelled);
            && Becomes(s.g.futures, t.g.futures, InHand(s.task.phase), Cancelled)
            && t.ledger.removals == s.ledger.removals +
                 set id | id in s.g.futures && s.g.futures[id] == Unsettled && Has(InHand(s.task.phase), id)
            && t == s.(g := s.g.(futures := t.g.futures), task := s.task.(phase := Finished),
                       ledger := s.ledger.(
                         removals := t.ledger.removals,
                         released := if s.task.phase.Gathering? then s.ledger.released + multiset{s.task.phase.lease}
                                     else s.ledger.released))
  {
    hide Legal, Exec, SettleAll, Has;
    var s := After(settings, run);
    SettleAllBecomes(s.g.futures, InHand(s.task.phase), Cancelled);
    assert s.ledger.released + multiset{} == s.ledger.released;
  }

  // ------------------------------------------------------------------------------
  // Starts, stops and the rest
  // ------------------------------------------------------------------------------

  /** A stop accepts nothing more and wakes the loop.  If so asked it empties the queue, with
      its open futures cancelled, and cancels the loop; if not, neither. */
  lemma StopBeginsEffect(settings: Settings, run: seq<Label>, cancelPending: bool)
    requires Run(settings, run) && Enabled(settings, After(settings, run), StopBegins(cancelPending))
    ensures var s := After(settings, run);
            var t := Apply(settings, s, StopBegins(cancelPending));
            && (if cancelPending then Becomes(s.g.futures, t.g.futures, s.g.pending, Cancelled)
                else t.g.futures == s.g.futures)
            && t.ledger.removals == s.ledger.removals +
                 (set id | id in s.g.futures && s.g.futures[id] == Unsettled && t.g.futures[id] == Cancelled)
            && t == s.(g := s.g.(stopping := true, futures := t.g.futures,
                                 pending := if cancelPending then [] else s.g.pending),
                       task := Woken(s.task, s.now).(cancelRequested := cancelPending),
                       ledger := s.ledger.(removals := t.ledger.removals, stopMark := s.g.batchSeq))
  {
    hide Legal, Exec, SettleAll, Has;
    var s := After(settings, run);
    SettleAllBecomes(s.g.futures, s.g.pending, Cancelled);
  }

  /** A stop that finds no loop does the same to the queue, and resets the flags. */
  lemma StopAgainEffect(settings: Settings, run: seq<Label>, cancelPending: bool)
    requires Run(settings, run) && Enabled(settings, After(settings, run), StopAgain(cancelPending))
    ensures var s := After(settings, run);
            var t := Apply(settings, s, StopAgain(cancelPending));
            && (if cancelPending then Becomes(s.g.futures, t.g.futures, s.g.pending, Cancelled)
                else t.g.futures == s.g.futures)
            && t == s.(g := s.g.(started := false, stopping := false, futures := t.g.futures,
                                 pending := if cancelPending then [] else s.g.pending))
  {
    hide Legal, Exec, SettleAll, Has;
    var s := After(settings, run);
    SettleAllBecomes(s.g.futures, s.g.pending, Cancelled);
  }

  lemma SmallStepEffect(settings: Settings, run: seq<Label>, l: Label)
    requires Run(settings, run) && Enabled(settings, After(settings, run), l)
    ensures var s := After(settings, run);
            var t := Apply(settings, s, l);
            match l
            case Start =>
              && !s.g.started
              && t == s.(g := s.g.(started := true, stopping := false),
                         task := Task(Running, false, false, false, s.now, s.now))
            case RemovalDropped(id) =>
              && !s.g.started
              && t == s.(ledger := s.ledger.(removals := s.ledger.removals - {id}, orphans := s.ledger.orphans + {id}))
            case StopCancelled => t == s.(task := s.task.(cancelRequested := true, stopCancelled := true))
            case StopEnds =>
              && s.task.phase.Finished? && !s.task.stopCancelled
              && t == s.(g := s.g.(started := false, stopping := false),
                         task := s.task.(phase := NoTask, cancelRequested := false))
            case StopRaises =>
              && s.task.phase.Finished? && s.task.stopCancelled
              && t == s.(task := s.task.(phase := NoTask, cancelRequested := false))
            case TimePasses(seconds) => t == s.(now := s.now + seconds)
            case _ => true
  {
    hide Legal, Exec, SettleAll, Submit, Live, Resolve, Has, Without;
  }
}
