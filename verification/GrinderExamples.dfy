/**
 Two short runs of the grinder in which a caller may be surprised.
 */
module GrinderExamples {
  import opened Options
  import opened GrinderModel
  import opened GrinderSystem
  import opened GrinderTheorems

  const LEASE: LeaseId := 0

  /** What the loop sees of a queue of two. */
  lemma LiveOfTwo(x: Item, y: Item, fs: Futures)
    requires !WasCancelled(fs, x.id) && !WasCancelled(fs, y.id)
    ensures Live([x, y], fs) == [x, y]
  {
    assert [x, y][1..] == [y] && [y][1..] == [];
    assert Live([y], fs) == [y];
  }

  /** A good item, then one that cannot be called: the good one is with the executor, both
      callers get the error, and the lease is back. */
  lemma NotCallableSpoilsBatch(code: int, settings: Settings, run: seq<Label>)
    requires settings == Settings(1.0, 2)
    requires run == [Start, Accept(Callable(code)), Accept(NotCallable), TaskRuns, LeaseAcquired(LEASE, None)]
    ensures Run(settings, run)
    ensures var s := After(settings, run);
            && s.ledger.handed == [Item(0, Callable(code), 0.0)]
            && s.g.futures == map[0 := Settled(Raises(TYPE_ERROR)), 1 := Settled(Raises(TYPE_ERROR))]
            && s.ledger.leases == {LEASE} && s.ledger.released == multiset{LEASE}
            && s.task.phase == Running
  {
    hide Run, After;
    var x, y := Item(0, Callable(code), 0.0), Item(1, NotCallable, 0.0);
    EmptyRun(settings);
    RunOn(settings, [], Start);
    var r1 := [] + [Start];
    RunOn(settings, r1, Accept(Callable(code)));
    var r2 := r1 + [Accept(Callable(code))];
    RunOn(settings, r2, Accept(NotCallable));
    var r3 := r2 + [Accept(NotCallable)];
    assert After(settings, r3).g.pending == [x, y];
    LiveOfTwo(x, y, After(settings, r3).g.futures);
    RunOn(settings, r3, TaskRuns);
    var r4 := r3 + [TaskRuns];
    RunOn(settings, r4, LeaseAcquired(LEASE, None));
    assert run == r4 + [LeaseAcquired(LEASE, None)];
    SettleTwo(x, y, After(settings, r4).g.futures);
  }

  lemma SettleTwo(x: Item, y: Item, fs: Futures)
    requires x.id == 0 && y.id == 1 && fs == map[0 := Unsettled, 1 := Unsettled]
    ensures var done := Settled(Raises(TYPE_ERROR));
            SettleAll(fs, [x, y], done) == map[0 := done, 1 := done]
  {
    var done := Settled(Raises(TYPE_ERROR));
    assert [x, y][1..] == [y] && [y][1..] == [];
    assert SettleAll(Settle(Settle(fs, 0, done), 1, done), [], done) == map[0 := done, 1 := done];
  }

  lemma OneItem(x: Item, fs: Futures)
    requires x.call.Callable?
    ensures !WasCancelled(fs, x.id) ==> Live([x], fs) == [x]
    ensures FirstNotCallable([x]) == 1
  {
    assert [x][1..] == [];
  }

  /** An item is cancelled while its batch waits for a lease, and is submitted all the same. */
  lemma LateCancellationIsSubmitted(code: int, settings: Settings, run: seq<Label>)
    requires settings == Settings(1.0, 2)
    requires run == [Start, Accept(Callable(code)), TimePasses(1.0), TaskRuns, SettledOutside(0, Cancelled),
                    LeaseAcquired(LEASE, None)]
    ensures Run(settings, run)
    ensures var s := After(settings, run);
            WasCancelled(s.g.futures, 0) && s.ledger.handed == [Item(0, Callable(code), 0.0)]
  {
    hide Run, After;
    var r4 := TakesUpOne(code, settings);
    RunOn(settings, r4, SettledOutside(0, Cancelled));
    var r5 := r4 + [SettledOutside(0, Cancelled)];
    assert WasCancelled(After(settings, r5).g.futures, 0);
    RunOn(settings, r5, LeaseAcquired(LEASE, None));
    assert run == r5 + [LeaseAcquired(LEASE, None)];
  }

  /** The one call of a batch returns an exception object; its caller has it raised. */
  lemma ReturnedErrorIsRaised(code: int, error: int, settings: Settings, run: seq<Label>)
    requires settings == Settings(1.0, 2)
    requires run == [Start, Accept(Callable(code)), TimePasses(1.0), TaskRuns, LeaseAcquired(LEASE, None),
                     WorkGathered([Returns(ErrorObject(error))])]
    ensures Run(settings, run)
    ensures After(settings, run).g.futures == map[0 := Settled(Raises(error))]
  {
    hide Run, After;
    var x := Item(0, Callable(code), 0.0);
    var gathered := WorkGathered([Returns(ErrorObject(error))]);
    var r4 := TakesUpOne(code, settings);
    RunOn(settings, r4, LeaseAcquired(LEASE, None));
    var r5 := r4 + [LeaseAcquired(LEASE, None)];
    assert [x][..1] == [x] && [x][1..] == [];
    assert After(settings, r5).task.phase == Gathering([x], 1, LEASE);
    RunOn(settings, r5, gathered);
    assert run == r5 + [gathered];
    assert After(settings, r5).g.futures == map[0 := Unsettled];
    ResolveOne(x, map[0 := Unsettled], GatherAll([Returns(ErrorObject(error))]), error);
  }

  lemma ResolveOne(x: Item, fs: Futures, results: seq<Value>, error: int)
    requires x.id == 0 && fs == map[0 := Unsettled] && results == [ErrorObject(error)]
    ensures Resolve(fs, [x], results) == map[0 := Settled(Raises(error))]
  {
    assert [x][1..] == [] && results[1..] == [];
    assert Resolve(Settle(fs, 0, Settled(Raises(error))), [], []) == map[0 := Settled(Raises(error))];
  }

  /** The loop takes up a batch of one, which has waited long enough. */
  lemma TakesUpOne(code: int, settings: Settings) returns (run: seq<Label>)
    requires settings == Settings(1.0, 2)
    ensures run == [Start, Accept(Callable(code)), TimePasses(1.0), TaskRuns] && Run(settings, run)
    ensures var x := Item(0, Callable(code), 0.0);
            After(settings, run) ==
            Sys(Grinder([], map[0 := Unsettled], true, false, 1),
                Task(Acquiring([x]), false, false, false, 0.0, 1.0),
                Ledger([x], [], {}, multiset{}, {}, {}, 0), 1.0)
    ensures FirstNotCallable([Item(0, Callable(code), 0.0)]) == 1
  {
    hide Run, After;
    var x := Item(0, Callable(code), 0.0);
    EmptyRun(settings);
    RunOn(settings, [], Start);
    var r1 := [] + [Start];
    RunOn(settings, r1, Accept(Callable(code)));
    var r2 := r1 + [Accept(Callable(code))];
    RunOn(settings, r2, TimePasses(1.0));
    var r3 := r2 + [TimePasses(1.0)];
    assert After(settings, r3).g.pending == [x];
    OneItem(x, After(settings, r3).g.futures);
    RunOn(settings, r3, TaskRuns);
    run := r3 + [TaskRuns];
  }

  /** While a batch of one waits for its lease, another item is queued and a graceful stop
      begins, whose caller is cancelled. */
  lemma StopIsCancelled(code: int, settings: Settings) returns (run: seq<Label>)
    requires settings == Settings(1.0, 2)
    ensures run == [Start, Accept(Callable(code)), TimePasses(1.0), TaskRuns, Accept(Callable(code)), StopBegins(false),
                    StopCancelled]
    ensures Run(settings, run)
    ensures var x, y := Item(0, Callable(code), 0.0), Item(1, Callable(code), 1.0);
            After(settings, run) ==
            Sys(Grinder([y], map[0 := Unsettled, 1 := Unsettled], true, true, 1),
                Task(Acquiring([x]), false, true, true, 0.0, 1.0),
                Ledger([x, y], [], {}, multiset{}, {}, {}, 1), 1.0)
  {
    hide Run, After;
    var r4 := TakesUpOne(code, settings);
    RunOn(settings, r4, Accept(Callable(code)));
    var r5 := r4 + [Accept(Callable(code))];
    RunOn(settings, r5, StopBegins(false));
    var r6 := r5 + [StopBegins(false)];
    RunOn(settings, r6, StopCancelled);
    run := r6 + [StopCancelled];
  }

  /** The batch is cancelled, the stop raises, and a second graceful stop returns with the
      other item still queued and open. */
  lemma CancelledStopLeavesWork(code: int, settings: Settings, run: seq<Label>)
    requires settings == Settings(1.0, 2)
    requires run ==
             [Start, Accept(Callable(code)), TimePasses(1.0), TaskRuns, Accept(Callable(code)), StopBegins(false),
                     StopCancelled, TaskCancelled, StopRaises, StopAgain(false)]
    ensures Run(settings, run)
    ensures var s := After(settings, run);
            && !s.g.started && !s.g.stopping
            && s.g.pending == [Item(1, Callable(code), 1.0)]
            && s.g.futures == map[0 := Cancelled, 1 := Unsettled]
  {
    hide Run, After;
    var r7 := StopIsCancelled(code, settings);
    CancelOne(Item(0, Callable(code), 0.0), After(settings, r7).g.futures);
    RunOn(settings, r7, TaskCancelled);
    var r8 := r7 + [TaskCancelled];
    RunOn(settings, r8, StopRaises);
    var r9 := r8 + [StopRaises];
    RunOn(settings, r9, StopAgain(false));
    assert run == r9 + [StopAgain(false)];
  }

  lemma CancelOne(x: Item, fs: Futures)
    requires x.id == 0 && fs == map[0 := Unsettled, 1 := Unsettled]
    ensures SettleAll(fs, [x], Cancelled) == map[0 := Cancelled, 1 := Unsettled]
  {
    assert [x][1..] == [];
    assert SettleAll(Settle(fs, 0, Cancelled), [], Cancelled) == map[0 := Cancelled, 1 := Unsettled];
  }
}
