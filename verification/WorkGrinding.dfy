/**
 The grinder itself: a queue, flags and result futures that its methods change in place.
 Each method runs between two suspensions of a coroutine and is proved to do what
 GrinderModel says.  The clock, the executor's answers and the endings of submitted work
 are parameters.
 */
module WorkGrinding {
  import opened Options
  import opened GrinderModel

  class ResultFuture {
    ghost const id: WorkId
    var state: FutureState

    constructor (ghost id: WorkId)
      ensures this.id == id && state == Unsettled
    {
      this.id, state := id, Unsettled;
    }
  }

  datatype WorkItem = WorkItem(call: Call, future: ResultFuture, submittedAt: real) {
    ghost function Value(): Item {
      Item(future.id, call, submittedAt)
    }
  }

  ghost function Values(items: seq<WorkItem>): (values: seq<Item>)
    ensures |values| == |items| && forall i :: 0 <= i < |items| ==> values[i] == items[i].Value()
  {
    seq(|items|, i requires 0 <= i < |items| => items[i].Value())
  }

  lemma ValuesFrom(items: seq<WorkItem>, i: nat)
    requires i < |items|
    ensures Values(items[i..]) == [items[i].Value()] + Values(items[i + 1..])
  {
  }

  datatype Answer = Accepted(future: ResultFuture) | NotStarted | IsStopping

  class WorkGrinder {
    const settings: Settings
    var pending: seq<WorkItem>
    var started: bool
    var stopping: bool
    var batchSeq: nat

    // All futures ever given out, by their ids, and what they say.
    ghost var accepted: seq<ResultFuture>
    ghost var futures: Futures

    ghost function Abs(): Grinder
      reads this
    {
      Grinder(Values(pending), futures, started, stopping, batchSeq)
    }

    /** The items' futures were given out here. */
    ghost predicate Own(items: seq<WorkItem>)
      reads this
    {
      forall i :: 0 <= i < |items| ==>
        items[i].future.id < |accepted| && accepted[items[i].future.id] == items[i].future
    }

    ghost predicate Valid()
      reads this, accepted
    {
      && settings.Valid()
      && (forall id: WorkId :: id in futures <==> id < |accepted|)
      && (forall i :: 0 <= i < |accepted| ==> accepted[i].id == i && accepted[i].state == futures[i])
      && Own(pending)
    }

    constructor (settings: Settings)
      requires settings.Valid()
      ensures this.settings == settings && Valid() && Abs() == IDLE && accepted == []
    {
      this.settings := settings;
      pending, started, stopping, batchSeq := [], false, false, 0;
      accepted, futures := [], map[];
    }

    // ----------------------------------------------------------------------------
    // Futures
    // ----------------------------------------------------------------------------

    method SettleFuture(future: ResultFuture, state: FutureState)
      requires Valid() && future in accepted
      modifies future`state, this`futures
      ensures Valid() && futures == Settle(old(futures), future.id, state)
    {
      if future.state == Unsettled {
        future.state := state;
        futures := futures[future.id := state];
      }
    }

    method SettleItems(items: seq<WorkItem>, state: FutureState)
      requires Valid() && Own(items)
      modifies accepted, this`futures
      ensures Valid() && futures == SettleAll(old(futures), Values(items), state)
    {
      for i := 0 to |items|
        invariant Valid()
        invariant SettleAll(futures, Values(items[i..]), state) == SettleAll(old(futures), Values(items), state)
      {
        ValuesFrom(items, i);
        SettleFuture(items[i].future, state);
      }
    }

    // ----------------------------------------------------------------------------
    // Callers
    // ----------------------------------------------------------------------------

    method Start()
      requires Valid()
      modifies this`started, this`stopping
      ensures Valid()
      ensures Abs() == if old(started) then old(Abs()) else old(Abs()).(started := true, stopping := false)
    {
      if !started {
        stopping := false;
        started := true;
      }
    }

    method Enqueue(call: Call, now: real) returns (answer: Answer)
      requires Valid()
      modifies this`pending, this`accepted, this`futures
      ensures Valid()
      ensures answer.Accepted? <==> started && !stopping
      ensures Abs() == if answer.Accepted? then GrinderModel.Enqueue(old(Abs()), |old(accepted)|, call, now)
              else old(Abs())
      ensures accepted == if answer.Accepted? then old(accepted) + [answer.future] else old(accepted)
      ensures answer.Accepted? ==> fresh(answer.future) && answer.future.state == Unsettled
    {
      if !started {
        return NotStarted;
      }
      if stopping {
        return IsStopping;
      }
      var future := new ResultFuture(|accepted|);
      accepted := accepted + [future];
      futures := futures[future.id := Unsettled];
      pending := pending + [WorkItem(call, future, now)];
      answer := Accepted(future);
    }

    /** Cancel the first queued item. */
    method CancelFirst()
      requires Valid() && pending != []
      modifies this`pending, this`futures, accepted
      ensures Valid() && pending == old(pending)[1..]
      ensures futures == Settle(old(futures), old(pending)[0].future.id, Cancelled)
    {
      var item := pending[0];
      pending := pending[1..];
      SettleFuture(item.future, Cancelled);
    }

    /** Cancel what is queued, first to last. */
    method CancelPending()
      requires Valid()
      modifies this`pending, this`futures, accepted
      ensures Valid() && pending == []
      ensures futures == SettleAll(old(futures), Values(old(pending)), Cancelled)
    {
      hide Settle;
      while pending != []
        invariant Valid()
        invariant SettleAll(futures, Values(pending), Cancelled) ==
                  SettleAll(old(futures), Values(old(pending)), Cancelled)
        decreases |pending|
      {
        ValuesFrom(pending, 0);
        CancelFirst();
      }
    }

    method StopBegins(cancelPending: bool)
      requires Valid()
      modifies this`stopping, this`pending, this`futures, accepted
      ensures Valid() && Abs() == StopBegin(old(Abs()), cancelPending)
    {
      stopping := true;
      if cancelPending {
        CancelPending();
        assert Values([]) == [];
      }
    }

    method StopEnds()
      requires Valid()
      modifies this`started, this`stopping
      ensures Valid() && Abs() == old(Abs()).(started := false, stopping := false)
    {
      started, stopping := false, false;
    }

    /** A stop that finds no loop to wait for. */
    method StopAgain(cancelPending: bool)
      requires Valid()
      modifies this`started, this`stopping, this`pending, this`futures, accepted
      ensures Valid() && Abs() == StopBegin(old(Abs()), cancelPending).(started := false, stopping := false)
    {
      StopBegins(cancelPending);
      StopEnds();
    }

    /** Where the future's item stands in the queue; past its end if nowhere. */
    method FindPending(future: ResultFuture) returns (i: nat)
      requires Valid() && future in accepted
      ensures i <= |pending| && forall k :: 0 <= k < i ==> pending[k].future.id != future.id
      ensures i < |pending| ==> pending[i].future == future
    {
      i := 0;
      while i < |pending| && pending[i].future != future
        invariant 0 <= i <= |pending|
        invariant forall k :: 0 <= k < i ==> pending[k].future.id != future.id
      {
        i := i + 1;
      }
    }

    /** Take the i-th item out of the queue. */
    method RemoveAt(i: nat)
      requires Valid() && i < |pending|
      modifies this`pending
      ensures Valid() && Values(pending) == Values(old(pending))[..i] + Values(old(pending))[i + 1..]
    {
      pending := pending[..i] + pending[i + 1..];
    }

    /** Take the item of a cancelled future out of the queue; the waiting loop is woken if it
        was there. */
    method RemoveCancelledPendingItem(future: ResultFuture) returns (notify: bool)
      requires Valid() && future in accepted
      modifies this`pending
      ensures Valid()
      ensures notify == Has(old(Abs()).pending, future.id)
      ensures Abs() == old(Abs()).(pending := Without(old(Abs()).pending, future.id))
    {
      hide Has, Without;
      var i := FindPending(future);
      ghost var was := Values(pending);
      assert forall k :: 0 <= k < i ==> was[k].id != future.id;
      WithoutFirst(was, future.id, i);
      notify := i < |pending|;
      if notify {
        RemoveAt(i);
      }
    }

    // ----------------------------------------------------------------------------
    // The loop
    // ----------------------------------------------------------------------------

    method LookAtQueue(now: real) returns (check: Check)
      requires Valid()
      ensures check == Look(settings, Abs(), now)
    {
      if |pending| > 0 {
        var oldestWait := now - pending[0].submittedAt;
        var thresholdReached := |pending| >= settings.batchSizeThreshold;
        var timeoutReached := oldestWait >= settings.maxWaitSeconds;
        if thresholdReached || timeoutReached || stopping {
          check := Batch;
        } else {
          var remaining := settings.maxWaitSeconds - oldestWait;
          check := Sleep(Some(now + remaining));
        }
      } else if stopping {
        check := Leave;
      } else {
        check := Sleep(None);
      }
    }

    method DrainPending() returns (batch: seq<WorkItem>)
      requires Valid()
      modifies this`pending
      ensures Valid() && Own(batch)
      ensures batch == old(pending) && Abs() == old(Abs()).(pending := [])
    {
      batch := pending;
      pending := [];
    }

    method LiveItems(batch: seq<WorkItem>) returns (live: seq<WorkItem>)
      requires Valid() && Own(batch)
      ensures Own(live) && Values(live) == Live(Values(batch), futures)
    {
      hide Live;
      live := [];
      for i := 0 to |batch|
        invariant Own(live)
        invariant Values(live) + Live(Values(batch[i..]), futures) == Live(Values(batch), futures)
      {
        ValuesFrom(batch, i);
        LiveUnfolds(batch[i].Value(), Values(batch[i + 1..]), futures);
        if batch[i].future.state != Cancelled {
          live := live + [batch[i]];
        }
      }
      assert batch[|batch|..] == [];
      LiveOfNothing(futures);
    }

    method TakeUpBatch() returns (live: seq<WorkItem>)
      requires Valid()
      modifies this`pending, this`batchSeq
      ensures Valid() && Own(live) && (Abs(), Values(live)) == TakeUp(old(Abs()))
    {
      var batch := DrainPending();
      live := LiveItems(batch);
      if live != [] {
        batchSeq := batchSeq + 1;
      }
    }

    /** Prepare and submit the items, first to last, until the executor refuses one or a call
        cannot be prepared. */
    method SubmitWhilePossible(live: seq<WorkItem>, refusal: Option<Refusal>)
      returns (submitted: seq<WorkItem>, refused: bool, failed: bool)
      requires Valid() && Own(live)
      ensures failed == Spoiled(Values(live), refusal)
      ensures refused == (!failed && Taken(Values(live), refusal) < |live|)
      ensures submitted == live[..Taken(Values(live), refusal)]
    {
      submitted, refused, failed := [], false, false;
      while |submitted| < |live|
        invariant !refused && !failed && submitted <= live
        invariant |submitted| <= FirstNotCallable(Values(live)) && |submitted| <= FirstRefused(Values(live), refusal)
      {
        var i := |submitted|;
        if live[i].call.NotCallable? {
          failed := true;
          return;
        }
        if refusal.Some? && refusal.value.at == i {
          refused := true;
          return;
        }
        submitted := submitted + [live[i]];
      }
    }

    /** Submit the items; a refused one and the rest get the error of the refusal. */
    method SubmitItems(live: seq<WorkItem>, refusal: Option<Refusal>) returns (submitted: seq<WorkItem>, failed: bool)
      requires Valid() && Own(live)
      modifies accepted, this`futures
      ensures Valid() && failed == Spoiled(Values(live), refusal)
      ensures submitted == live[..Taken(Values(live), refusal)]
      ensures futures == if failed then old(futures) else Submit(old(futures), Values(live), refusal)
    {
      hide SettleAll, Spoiled;
      var refused;
      submitted, refused, failed := SubmitWhilePossible(live, refusal);
      if refused {
        var i := |submitted|;
        assert Values(live[i..]) == Values(live)[i..];
        SettleItems(live[i..], Settled(Raises(refusal.value.error)));
      }
    }

    /** Submit a batch under its lease; a call that cannot be prepared fails all of it. */
    method SubmitBatch(live: seq<WorkItem>, refusal: Option<Refusal>) returns (submitted: seq<WorkItem>, failed: bool)
      requires Valid() && Own(live)
      modifies accepted, this`futures
      ensures Valid() && failed == Spoiled(Values(live), refusal)
      ensures submitted == live[..Taken(Values(live), refusal)]
      ensures futures == Submit(old(futures), Values(live), refusal)
    {
      submitted, failed := SubmitItems(live, refusal);
      if failed {
        SettleItems(live, Settled(Raises(TYPE_ERROR)));
      }
    }

    /** Give each submitted item the result at its own place. */
    method DeliverResults(submitted: seq<WorkItem>, endings: seq<Ending>)
      requires Valid() && Own(submitted) && |submitted| == |endings|
      modifies accepted, this`futures
      ensures Valid() && futures == Resolve(old(futures), Values(submitted), GatherAll(endings))
    {
      var results := GatherAll(endings);
      for i := 0 to |submitted|
        invariant Valid()
        invariant Resolve(futures, Values(submitted[i..]), results[i..]) ==
                  Resolve(old(futures), Values(submitted), results)
      {
        ValuesFrom(submitted, i);
        SettleFuture(submitted[i].future, Settled(Delivered(results[i])));
      }
    }
  }

  lemma LiveOfNothing(fs: Futures)
    ensures Values([]) == [] && Live([], fs) == []
  {
  }

  lemma LiveUnfolds(first: Item, rest: seq<Item>, fs: Futures)
    ensures Live([first] + rest, fs) == (if WasCancelled(fs, first.id) then [] else [first]) + Live(rest, fs)
  {
    assert ([first] + rest)[1..] == rest;
  }

  /** Removing at the first place that holds the id, or nowhere. */
  lemma {:induction false} WithoutFirst(items: seq<Item>, id: WorkId, i: nat)
    requires i <= |items| && (forall k :: 0 <= k < i ==> items[k].id != id)
    requires i < |items| ==> items[i].id == id
    ensures Has(items, id) <==> i < |items|
    ensures Without(items, id) == if i < |items| then items[..i] + items[i + 1..] else items
    decreases |items|
  {
    if items == [] || i == 0 {
    } else {
      WithoutFirst(items[1..], id, i - 1);
      HasFirstOrRest(items, id);
      assert items == [items[0]] + items[1..];
    }
  }
}
