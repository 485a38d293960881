/**
 The invariant of the grinder, in parts, and the proof that every step keeps it.
 */
module GrinderInvariant {
  import opened Options
  import opened GrinderModel
  import opened GrinderSystem

  // ------------------------------------------------------------------------------
  // Part 1: the line of work.  What was handed out, then the batch that waits for a
  // lease, then the queue: all in the order of the history, nothing twice.
  // ------------------------------------------------------------------------------

  /** Items of the history, in its order, none twice. */
  ghost predicate Ascending(items: seq<Item>, history: seq<Item>) {
    && (forall i, j :: 0 <= i < j < |items| ==> items[i].id < items[j].id)
    && (forall i :: 0 <= i < |items| ==> items[i].id < |history| && items[i] == history[items[i].id])
  }

  /** The batch that waits for a lease. */
  function Waiting(phase: Phase): seq<Item> {
    if phase.Acquiring? then phase.live else []
  }

  function Line(s: Sys): seq<Item> {
    s.ledger.handed + Waiting(s.task.phase) + s.g.pending
  }

  ghost predicate HistoryInv(s: Sys) {
    && (forall i :: 0 <= i < |s.ledger.history| ==> s.ledger.history[i].id == i)
    && (forall i :: 0 <= i < |s.ledger.history| ==> s.ledger.history[i].submittedAt <= s.now)
    && (forall i, j :: 0 <= i < j < |s.ledger.history| ==>
          s.ledger.history[i].submittedAt <= s.ledger.history[j].submittedAt)
    && (forall id: WorkId :: id in s.g.futures <==> id < |s.ledger.history|)
  }

  ghost predicate LineInv(s: Sys) {
    Ascending(Line(s), s.ledger.history)
  }

  // ------------------------------------------------------------------------------
  // Part 2: whatever is not done is in the queue or in the batch.
  // ------------------------------------------------------------------------------

  /** The items of the batch whose futures may still be open. */
  function Open(phase: Phase): seq<Item> {
    match phase
    case Acquiring(live) => live
    case Gathering(live, taken, _) => if taken <= |live| then live[..taken] else []
    case _ => []
  }

  ghost predicate Located(s: Sys, id: WorkId) {
    Has(s.g.pending, id) || Has(Open(s.task.phase), id)
  }

  /** What runs is what was handed out last, and all of its batch was accepted before what
      is queued. */
  ghost predicate BatchInv(s: Sys) {
    s.task.phase.Gathering? ==>
      && s.task.phase.taken <= |s.task.phase.live| && s.task.phase.taken <= |s.ledger.handed|
      && s.ledger.handed[|s.ledger.handed| - s.task.phase.taken..] == s.task.phase.live[..s.task.phase.taken]
      && Ascending(s.task.phase.live + s.g.pending, s.ledger.history)
  }

  ghost predicate OpenInv(s: Sys) {
    forall id: WorkId :: IsUnsettled(s.g.futures, id) ==> Located(s, id)
  }

  // ------------------------------------------------------------------------------
  // Part 3: the task and the flags
  // ------------------------------------------------------------------------------

  predicate Ended(phase: Phase) {
    phase.NoTask? || phase.Finished?
  }

  /** Only a stop whose caller was cancelled ends the loop before the queue is empty. */
  ghost predicate ModeInv(s: Sys) {
    && (!s.g.started ==> s.task.phase.NoTask?)
    && (s.g.started && s.task.phase.NoTask? ==> s.task.stopCancelled)
    && (s.g.started && s.task.stopCancelled ==> s.g.stopping)
    && (s.g.started && s.task.stopCancelled && !s.task.phase.NoTask? ==> s.task.cancelRequested)
    && (s.g.stopping ==> s.g.started)
    && (s.task.cancelRequested ==> s.g.stopping && !s.task.phase.NoTask?)
    && (s.task.phase.Finished? ==> s.g.stopping)
    && (!s.task.stopCancelled && (s.task.cancelRequested || Ended(s.task.phase)) ==> s.g.pending == [])
    && (s.task.phase.Gathering? ==> 0 < s.task.phase.taken <= |s.task.phase.live|)
    && (s.task.phase.Parked? && s.g.stopping ==> s.task.notified)
    && (s.g.stopping ==> s.g.batchSeq + (if s.g.pending == [] then 0 else 1) <= s.ledger.stopMark + 1)
  }

  // ------------------------------------------------------------------------------
  // Part 4: leases
  // ------------------------------------------------------------------------------

  ghost predicate LeaseInv(s: Sys) {
    && (s.task.phase.Gathering? ==> s.task.phase.lease in s.ledger.leases)
    && forall l: LeaseId ::
         s.ledger.released[l] ==
         if l in s.ledger.leases && !(s.task.phase.Gathering? && s.task.phase.lease == l) then 1 else 0
  }

  // ------------------------------------------------------------------------------
  // Part 5: the trigger
  // ------------------------------------------------------------------------------

  /** Asleep and not woken, the task has nothing to do before its appointment. */
  ghost predicate NothingMissed(settings: Settings, s: Sys) {
    s.task.phase.Parked? && !s.task.notified ==>
      s.g.pending == [] ||
      (&& |s.g.pending| < settings.batchSizeThreshold
       && s.task.phase.until.Some?
       && s.task.phase.until.value <= s.g.pending[0].submittedAt + settings.maxWaitSeconds)
  }

  /** The parked task is due no later than the oldest item, or a full batch, asks for. */
  ghost predicate DueInTime(settings: Settings, s: Sys)
    requires settings.Valid()
  {
    s.task.phase.Parked? && s.g.pending != [] ==>
      && (s.task.notified || s.task.phase.until.Some?)
      && s.task.due <= s.g.pending[0].submittedAt + settings.maxWaitSeconds
      && (|s.g.pending| >= settings.batchSizeThreshold ==>
            s.task.due <= s.g.pending[settings.batchSizeThreshold - 1].submittedAt)
  }

  ghost predicate TriggerInv(settings: Settings, s: Sys)
    requires settings.Valid()
  {
    NothingMissed(settings, s) && DueInTime(settings, s)
  }

  /** Only what was cancelled is removed, and a cancelled item in the queue has its removal
      scheduled, unless there was no loop to do so. */
  ghost predicate RemovalInv(s: Sys) {
    && (forall id: WorkId :: id in s.ledger.removals ==> WasCancelled(s.g.futures, id) && id !in s.ledger.orphans)
    && (forall id: WorkId :: id in s.ledger.orphans ==> WasCancelled(s.g.futures, id))
    && forall i :: 0 <= i < |s.g.pending| && WasCancelled(s.g.futures, s.g.pending[i].id) ==>
      s.g.pending[i].id in s.ledger.removals || s.g.pending[i].id in s.ledger.orphans
  }

  ghost predicate Inv(settings: Settings, s: Sys)
    requires settings.Valid()
  {
    && HistoryInv(s) && LineInv(s) && BatchInv(s) && OpenInv(s) && ModeInv(s) && LeaseInv(s)
    && TriggerInv(settings, s) && RemovalInv(s)
  }

  lemma InitInv(settings: Settings)
    requires settings.Valid()
    ensures Inv(settings, Init())
  {
  }

  // ------------------------------------------------------------------------------
  // Settling: no future appears or disappears, what is done stays
  // ------------------------------------------------------------------------------

  ghost predicate OnlySettles(fs: Futures, hs: Futures) {
    && hs.Keys == fs.Keys
    && forall id: WorkId :: id in fs && fs[id] != Unsettled ==> hs[id] == fs[id]
  }

  ghost predicate CancelsNothing(fs: Futures, hs: Futures) {
    forall id: WorkId :: WasCancelled(hs, id) ==> WasCancelled(fs, id)
  }

  lemma SettleAllOnlySettles(fs: Futures, items: seq<Item>, state: FutureState)
    requires state != Unsettled
    ensures OnlySettles(fs, SettleAll(fs, items, state))
    ensures forall id: WorkId :: Has(items, id) ==> !IsUnsettled(SettleAll(fs, items, state), id)
    ensures state.Settled? ==> CancelsNothing(fs, SettleAll(fs, items, state))
  {
    var hs := SettleAll(fs, items, state);
    forall id: WorkId
      ensures hs.Keys == fs.Keys
              && (id in fs && fs[id] != Unsettled ==> hs[id] == fs[id])
              && (Has(items, id) ==> !IsUnsettled(hs, id))
              && (state.Settled? && WasCancelled(hs, id) ==> WasCancelled(fs, id))
    {
      SettleAllAt(fs, items, state, id);
    }
  }

  lemma ResolveOnlySettles(fs: Futures, items: seq<Item>, results: seq<Value>)
    requires |items| == |results|
    ensures OnlySettles(fs, Resolve(fs, items, results))
    ensures forall id: WorkId :: Has(items, id) ==> !IsUnsettled(Resolve(fs, items, results), id)
    ensures CancelsNothing(fs, Resolve(fs, items, results))
  {
    var hs := Resolve(fs, items, results);
    forall id: WorkId
      ensures hs.Keys == fs.Keys
              && (id in fs && fs[id] != Unsettled ==> hs[id] == fs[id])
              && (Has(items, id) ==> !IsUnsettled(hs, id))
              && (WasCancelled(hs, id) ==> WasCancelled(fs, id))
    {
      ResolveAt(fs, items, results, id);
    }
  }

  lemma SubmitOnlySettles(fs: Futures, live: seq<Item>, refusal: Option<Refusal>)
    ensures OnlySettles(fs, Submit(fs, live, refusal))
    ensures forall id: WorkId :: Has(live[Taken(live, refusal)..], id) ==> !IsUnsettled(Submit(fs, live, refusal), id)
    ensures Spoiled(live, refusal) ==>
              forall id: WorkId :: Has(live, id) ==> !IsUnsettled(Submit(fs, live, refusal), id)
    ensures CancelsNothing(fs, Submit(fs, live, refusal))
  {
    var n := Taken(live, refusal);
    if Spoiled(live, refusal) {
      SettleAllOnlySettles(fs, live, Settled(Raises(TYPE_ERROR)));
      forall id: WorkId | Has(live[n..], id) ensures Has(live, id) {
        var i :| 0 <= i < |live[n..]| && live[n..][i].id == id;
        assert live[n + i].id == id;
      }
    } else if n < |live| {
      SettleAllOnlySettles(fs, live[n..], Settled(Raises(refusal.value.error)));
    }
  }

  lemma FuturesStep(settings: Settings, s: Sys, l: Label)
    requires Enabled(settings, s, l)
    ensures var t := Apply(settings, s, l);
            if l.Accept? then t.g.futures == s.g.futures[|s.ledger.history| := Unsettled]
            else OnlySettles(s.g.futures, t.g.futures)
  {
    hide Look, Live;
    if l.LeaseAcquired? {
      SubmitOnlySettles(s.g.futures, s.task.phase.live, l.refusal);
    } else if l.AcquireFails? {
      SettleAllOnlySettles(s.g.futures, s.task.phase.live, Settled(Raises(l.error)));
    } else if l.WorkGathered? {
      ResolveOnlySettles(s.g.futures, s.task.phase.live[..s.task.phase.taken], GatherAll(l.endings));
    } else if l.TaskCancelled? {
      SettleAllOnlySettles(s.g.futures, InHand(s.task.phase), Cancelled);
    } else if l.StopBegins? || l.StopAgain? {
      SettleAllOnlySettles(s.g.futures, s.g.pending, Cancelled);
    }
  }
}
