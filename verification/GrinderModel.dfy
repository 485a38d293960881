/**
 The grinder's data, and what its code does to it between two suspensions: the queue of
 work, the result futures, and how a batch settles them.
 */
module GrinderModel {
  import opened Options

  /** Work items are named by their position in the history of accepted work. */
  type WorkId = nat

  /** What a call can return: an exception object is a value like any other. */
  datatype Value = Plain(code: int) | ErrorObject(error: int)

  /** How a call can end: with a result, or with an exception (a cancellation is one). */
  datatype Ending = Returns(value: Value) | Raises(error: int)

  /** What a caller hands in to be called; `enqueue` does not look whether it can be. */
  datatype Call = Callable(code: int) | NotCallable

  /** The error of trying to prepare a call of what is not callable. */
  const TYPE_ERROR := -1

  datatype FutureState = Unsettled | Cancelled | Settled(ending: Ending)

  datatype Item = Item(id: WorkId, call: Call, submittedAt: real)

  datatype Settings = Settings(maxWaitSeconds: real, batchSizeThreshold: nat) {
    predicate Valid() {
      maxWaitSeconds > 0.0 && batchSizeThreshold >= 1
    }
  }

  type Futures = map<WorkId, FutureState>

  /** The fields of the grinder, with the result futures of all accepted work. */
  datatype Grinder = Grinder(
    pending: seq<Item>,
    futures: Futures,
    started: bool,
    stopping: bool,
    batchSeq: nat)

  const IDLE := Grinder([], map[], false, false, 0)

  predicate IsUnsettled(fs: Futures, id: WorkId) {
    id in fs && fs[id] == Unsettled
  }

  predicate WasCancelled(fs: Futures, id: WorkId) {
    id in fs && fs[id] == Cancelled
  }

  // ------------------------------------------------------------------------------
  // Settling futures
  // ------------------------------------------------------------------------------

  /** A future that is already done is left alone. */
  function Settle(fs: Futures, id: WorkId, state: FutureState): Futures {
    if IsUnsettled(fs, id) then fs[id := state] else fs
  }

  function SettleAll(fs: Futures, items: seq<Item>, state: FutureState): Futures
    decreases |items|
  {
    if items == [] then fs else SettleAll(Settle(fs, items[0].id, state), items[1..], state)
  }

  /** Gathering lists what was raised among what was returned. */
  function Gathered(ending: Ending): Value {
    match ending
    case Returns(value) => value
    case Raises(error) => ErrorObject(error)
  }

  function GatherAll(endings: seq<Ending>): (results: seq<Value>)
    ensures |results| == |endings| && forall i :: 0 <= i < |endings| ==> results[i] == Gathered(endings[i])
  {
    seq(|endings|, i requires 0 <= i < |endings| => Gathered(endings[i]))
  }

  /** An exception in the list becomes the exception of its item. */
  function Delivered(result: Value): Ending {
    match result
    case Plain(_) => Returns(result)
    case ErrorObject(error) => Raises(error)
  }

  /** A call's own ending reaches its caller, unless the call returns an exception object:
      that one is raised. */
  lemma DeliveredAsEnded(ending: Ending)
    ensures Delivered(Gathered(ending)) == ending <==> !(ending.Returns? && ending.value.ErrorObject?)
    ensures ending.Returns? && ending.value.ErrorObject? ==> Delivered(Gathered(ending)) == Raises(ending.value.error)
  {
  }

  /** Each item gets the result at its own place. */
  function Resolve(fs: Futures, items: seq<Item>, results: seq<Value>): Futures
    requires |items| == |results|
    decreases |items|
  {
    if items == [] then fs
    else Resolve(Settle(fs, items[0].id, Settled(Delivered(results[0]))), items[1..], results[1..])
  }

  /** The items that were not cancelled, in order. */
  function Live(batch: seq<Item>, fs: Futures): (live: seq<Item>)
    decreases |batch|
  {
    if batch == [] then []
    else if WasCancelled(fs, batch[0].id) then Live(batch[1..], fs)
    else [batch[0]] + Live(batch[1..], fs)
  }

  /** The queue without the item of one future. */
  function Without(pending: seq<Item>, id: WorkId): seq<Item>
    decreases |pending|
  {
    if pending == [] then []
    else if pending[0].id == id then pending[1..]
    else [pending[0]] + Without(pending[1..], id)
  }

  // ------------------------------------------------------------------------------
  // Sections
  // ------------------------------------------------------------------------------

  function Enqueue(g: Grinder, id: WorkId, call: Call, now: real): Grinder {
    g.(pending := g.pending + [Item(id, call, now)], futures := g.futures[id := Unsettled])
  }

  function StopBegin(g: Grinder, cancelPending: bool): Grinder {
    if cancelPending
    then g.(stopping := true, pending := [], futures := SettleAll(g.futures, g.pending, Cancelled))
    else g.(stopping := true)
  }

  /** What the loop finds when it looks at the queue. */
  datatype Check = Batch | Leave | Sleep(until: Option<real>)

  function Look(settings: Settings, g: Grinder, now: real): Check {
    if g.pending != [] then
      if || |g.pending| >= settings.batchSizeThreshold
         || now - g.pending[0].submittedAt >= settings.maxWaitSeconds
         || g.stopping
      then Batch
      else Sleep(Some(g.pending[0].submittedAt + settings.maxWaitSeconds))
    else if g.stopping then Leave
    else Sleep(None)
  }

  /** The loop takes the whole queue; what is left of it without the cancelled is a batch. */
  function TakeUp(g: Grinder): (Grinder, seq<Item>) {
    var live := Live(g.pending, g.futures);
    (g.(pending := [], batchSeq := if live == [] then g.batchSeq else g.batchSeq + 1), live)
  }

  /** Where the executor refuses a submission: at which item, with which error. */
  datatype Refusal = Refusal(at: nat, error: int)

  /** Where the first item stands that cannot be called; past the end if all can. */
  function FirstNotCallable(live: seq<Item>): (k: nat)
    ensures k <= |live| && forall i :: 0 <= i < k ==> live[i].call.Callable?
    ensures k < |live| ==> live[k].call.NotCallable?
    decreases |live|
  {
    if live == [] || live[0].call.NotCallable? then 0 else 1 + FirstNotCallable(live[1..])
  }

  /** Where the executor refuses an item; past the end if it takes all. */
  function FirstRefused(live: seq<Item>, refusal: Option<Refusal>): (k: nat)
    ensures k <= |live|
  {
    if refusal.Some? && refusal.value.at < |live| then refusal.value.at else |live|
  }

  /** A call that cannot be prepared comes before any refusal: the whole batch fails. */
  predicate Spoiled(live: seq<Item>, refusal: Option<Refusal>) {
    FirstNotCallable(live) < |live| && FirstNotCallable(live) <= FirstRefused(live, refusal)
  }

  /** How many of the items the executor takes. */
  function Taken(live: seq<Item>, refusal: Option<Refusal>): (n: nat)
    ensures n <= |live|
  {
    if Spoiled(live, refusal) then FirstNotCallable(live) else FirstRefused(live, refusal)
  }

  /** The futures after submitting: a refused item and all after it get the error of the
      refusal; of a spoiled batch all items do get an error, submitted or not. */
  function Submit(fs: Futures, live: seq<Item>, refusal: Option<Refusal>): Futures {
    var n := Taken(live, refusal);
    if Spoiled(live, refusal) then SettleAll(fs, live, Settled(Raises(TYPE_ERROR)))
    else if n < |live| then SettleAll(fs, live[n..], Settled(Raises(refusal.value.error)))
    else fs
  }

  /** What a caller can see beforehand: some item cannot be called, and no refusal stands
      before it. */
  lemma SpoiledMeans(live: seq<Item>, refusal: Option<Refusal>)
    ensures Spoiled(live, refusal) <==>
            exists k :: 0 <= k < |live| && live[k].call.NotCallable? && (refusal.None? || k <= refusal.value.at)
  {
    var k := FirstNotCallable(live);
    if Spoiled(live, refusal) {
      assert live[k].call.NotCallable? && (refusal.None? || k <= refusal.value.at);
    }
  }

  // ------------------------------------------------------------------------------
  // What settling does, item by item
  // ------------------------------------------------------------------------------

  ghost predicate DistinctItems(items: seq<Item>) {
    forall i, j :: 0 <= i < j < |items| ==> items[i].id != items[j].id
  }

  predicate Has(items: seq<Item>, id: WorkId) {
    exists i :: 0 <= i < |items| && items[i].id == id
  }

  lemma HasCons(x: Item, rest: seq<Item>, id: WorkId)
    ensures Has([x] + rest, id) <==> x.id == id || Has(rest, id)
  {
    var s := [x] + rest;
    if x.id == id { assert s[0].id == id; }
    if Has(rest, id) {
      var i :| 0 <= i < |rest| && rest[i].id == id;
      assert s[i + 1].id == id;
    }
    if Has(s, id) && x.id != id {
      var i :| 0 <= i < |s| && s[i].id == id;
      assert rest[i - 1].id == id;
    }
  }

  lemma HasFirstOrRest(s: seq<Item>, id: WorkId)
    requires s != []
    ensures Has(s, id) <==> s[0].id == id || Has(s[1..], id)
  {
    assert s == [s[0]] + s[1..];
    HasCons(s[0], s[1..], id);
  }

  lemma {:induction false} SettleAllAt(fs: Futures, items: seq<Item>, state: FutureState, id: WorkId)
    requires state != Unsettled
    ensures var h := SettleAll(fs, items, state);
            && h.Keys == fs.Keys
            && (id in fs ==> h[id] == if fs[id] == Unsettled && Has(items, id) then state else fs[id])
    decreases |items|
  {
    if items == [] {
    } else {
      SettleAllAt(Settle(fs, items[0].id, state), items[1..], state, id);
      HasFirstOrRest(items, id);
    }
  }

  lemma {:induction false} ResolveAt(fs: Futures, items: seq<Item>, results: seq<Value>, id: WorkId)
    requires |items| == |results|
    ensures var h := Resolve(fs, items, results);
            && h.Keys == fs.Keys
            && (id in fs && !Has(items, id) ==> h[id] == fs[id])
            && (id in fs && fs[id] != Unsettled ==> h[id] == fs[id])
            && (id in fs && Has(items, id) ==> h[id] != Unsettled)
            && (id in fs ==> h[id] == fs[id] || h[id].Settled?)
    decreases |items|
  {
    if items == [] {
    } else {
      ResolveAt(Settle(fs, items[0].id, Settled(Delivered(results[0]))), items[1..], results[1..], id);
      HasFirstOrRest(items, id);
    }
  }

  /** Item i gets result i, unless its future was done before. */
  lemma {:induction false} ResolveEach(fs: Futures, items: seq<Item>, results: seq<Value>, i: nat)
    requires |items| == |results| && DistinctItems(items) && i < |items| && items[i].id in fs
    ensures items[i].id in Resolve(fs, items, results)
    ensures Resolve(fs, items, results)[items[i].id] ==
            if fs[items[i].id] == Unsettled then Settled(Delivered(results[i])) else fs[items[i].id]
    decreases |items|
  {
    var next := Settle(fs, items[0].id, Settled(Delivered(results[0])));
    if i == 0 {
      ResolveAt(next, items[1..], results[1..], items[0].id);
    } else {
      ResolveEach(next, items[1..], results[1..], i - 1);
    }
  }

  /** The live items are exactly those not cancelled. */
  lemma {:induction false} LiveAt(batch: seq<Item>, fs: Futures, id: WorkId)
    ensures Has(Live(batch, fs), id) <==> Has(batch, id) && !WasCancelled(fs, id)
    decreases |batch|
  {
    if batch == [] {
    } else {
      LiveAt(batch[1..], fs, id);
      HasFirstOrRest(batch, id);
      HasCons(batch[0], Live(batch[1..], fs), id);
    }
  }

  /** What is taken out of a queue keeps its order: one queue is the other without some. */
  ghost predicate Within(a: seq<Item>, b: seq<Item>)
    decreases |b|
  {
    a == [] || (b != [] && ((a[0] == b[0] && Within(a[1..], b[1..])) || Within(a, b[1..])))
  }

  lemma {:induction false} LiveWithin(batch: seq<Item>, fs: Futures)
    ensures Within(Live(batch, fs), batch)
    decreases |batch|
  {
    if batch == [] {
    } else {
      LiveWithin(batch[1..], fs);
      assert ([batch[0]] + Live(batch[1..], fs))[1..] == Live(batch[1..], fs);
    }
  }

  lemma {:induction false} WithinMembers(a: seq<Item>, b: seq<Item>)
    requires Within(a, b)
    ensures forall i :: 0 <= i < |a| ==> a[i] in b
    decreases |b|
  {
    if a == [] {
    } else {
      if a[0] == b[0] && Within(a[1..], b[1..]) {
        WithinMembers(a[1..], b[1..]);
        assert a == [a[0]] + a[1..];
      } else {
        WithinMembers(a, b[1..]);
      }
    }
  }

  lemma {:induction false} WithinItself(s: seq<Item>)
    ensures Within(s, s)
    decreases |s|
  {
    if s == [] {
    } else {
      WithinItself(s[1..]);
    }
  }

  /** Removing one cancelled item keeps the order of all others, and loses no other. */
  lemma {:induction false} WithoutAt(pending: seq<Item>, id: WorkId, other: WorkId)
    ensures Within(Without(pending, id), pending)
    ensures DistinctItems(pending) ==> (Has(Without(pending, id), other) <==> Has(pending, other) && other != id)
    decreases |pending|
  {
    if pending == [] {
    } else {
      HasFirstOrRest(pending, other);
      if pending[0].id == id {
        WithinItself(pending[1..]);
        if DistinctItems(pending) {
          assert forall i :: 0 <= i < |pending[1..]| ==> pending[1..][i].id == pending[i + 1].id != pending[0].id;
        }
      } else {
        WithoutAt(pending[1..], id, other);
        HasCons(pending[0], Without(pending[1..], id), other);
        assert ([pending[0]] + Without(pending[1..], id))[1..] == Without(pending[1..], id);
        assert DistinctItems(pending) ==> DistinctItems(pending[1..]);
      }
    }
  }

  /** Where the removed item stood. */
  lemma {:induction false} WithoutSplit(pending: seq<Item>, id: WorkId) returns (k: nat)
    requires Has(pending, id)
    ensures k < |pending| && pending[k].id == id
    ensures Without(pending, id) == pending[..k] + pending[k + 1..]
    decreases |pending|
  {
    if pending[0].id == id {
      k := 0;
    } else {
      HasFirstOrRest(pending, id);
      var m := WithoutSplit(pending[1..], id);
      k := m + 1;
      assert [pending[0]] + pending[1..][..m] == pending[..k];
    }
  }
}
