/**
 An acquire with a time-out is over when the time is.
 */
module PoolTimeouts {
  import opened Reals
  import opened Sizing
  import opened Runs
  import opened PoolModel
  import opened PoolSystem
  import opened PoolTheorems

  /** A waiter's own clock: when its time is up, and since when it can go on, because its
      event was set, or will be able to, because its time is up. */
  datatype Clock = Clock(deadline: real, due: real)

  predicate Waits(s: Sys, w: WaiterId) {
    w in s.loop.parked || w in s.loop.woken
  }

  /** No waiter ever does: it is parked, or about to run again. */
  predicate Twice(s: Sys, w: WaiterId) {
    w in s.loop.parked && w in s.loop.woken
  }

  /** Set anew with each attempt, and brought forward by a wake. */
  function Advance(c: Clock, s: Sys, t: Sys, l: Label, w: WaiterId): Clock {
    if l.TryAcquire? && l.waiter == w then
      c.(due := if w in t.loop.woken then RealMin(c.deadline, s.now) else c.deadline)
    else if w in s.loop.parked && w in t.loop.woken then c.(due := RealMin(c.due, s.now))
    else c
  }

  /** The waiter acts as the code does: it goes back to waiting only if time is left.  The
      event loop gets to it at most d after it can go on. */
  ghost predicate KeepsTime(cfg: Config, s: Sys, run: seq<Label>, w: WaiterId, c: Clock, d: real)
    requires cfg.Valid() && Legal(Next(cfg), s, run)
    decreases |run|
  {
    Unfold(Next(cfg), s, run);
    run == [] ||
    (var l := run[0];
     var t := Next(cfg)(s, l).value;
     var next := Advance(c, s, t, l, w);
     && (l.TryAcquire? && l.waiter == w ==> (l.wait <==> s.now < c.deadline))
     && (l.TimePasses? && Waits(t, w) ==> t.now <= next.due + d)
     && KeepsTime(cfg, t, run[1..], w, next, d))
  }

  /** Only an attempt of its own makes a waiter wait. */
  lemma WaitingBegins(cfg: Config, s: Sys, l: Label, w: WaiterId)
    requires cfg.Valid() && Enabled(cfg, s, l) && Waits(Apply(cfg, s, l), w)
    ensures Waits(s, w) || (l.TryAcquire? && l.waiter == w && l.wait)
    ensures Twice(Apply(cfg, s, l), w) ==> Twice(s, w)
    ensures Apply(cfg, s, l).now == if l.TimePasses? then s.now + l.seconds else s.now
  {
    hide Acquire, TickStep, ReleaseStep, CallbackStep, SubmitStep, Start, StartFails, StopFinish, Waits, Twice,
         RunReady, StopWaiting, AcquireStep;
    var t := Apply(cfg, s, l);
    match l
    case TryAcquire(_, _, _, _, _) => AttemptBegins(cfg, s, l, w);
    case RunCallback(c) => RunningBegins(s, c, w);
    case GiveUp(other) => LeavingBegins(s, other, w);
    case CheckerTick(revoke, fill, shrink) => SectionsBeginNothing(cfg, s, l, w);
    case ReleaseLease(_, _, _) => SectionsBeginNothing(cfg, s, l, w);
    case SubmitWork(_, _, _, _, _, _) => SectionsBeginNothing(cfg, s, l, w);
    case RunDoneCallback(_, _, _) => SectionsBeginNothing(cfg, s, l, w);
    case _ => SameWaiters(s, t, w);
  }

  lemma SameWaiters(s: Sys, t: Sys, w: WaiterId)
    requires t.loop.parked == s.loop.parked && t.loop.woken == s.loop.woken
    ensures (Waits(s, w) <==> Waits(t, w)) && (Twice(s, w) <==> Twice(t, w))
  {
  }

  lemma SectionsBeginNothing(cfg: Config, s: Sys, l: Label, w: WaiterId)
    requires cfg.Valid() && Enabled(cfg, s, l)
    requires l.CheckerTick? || l.ReleaseLease? || l.SubmitWork? || l.RunDoneCallback?
    ensures var t := Apply(cfg, s, l);
            t.now == s.now && (Waits(s, w) <==> Waits(t, w)) && (Twice(s, w) <==> Twice(t, w))
  {
    hide Tick, Release, FutureDone, Submit;
  }

  lemma RunningBegins(s: Sys, c: Callback, w: WaiterId)
    ensures var t := s.(loop := RunReady(s.loop, c)); (Waits(t, w) <==> Waits(s, w)) && (Twice(t, w) ==> Twice(s, w))
  {
  }

  lemma LeavingBegins(s: Sys, other: WaiterId, w: WaiterId)
    ensures var t := s.(loop := StopWaiting(s.loop, other));
            (Waits(t, w) ==> Waits(s, w) && (w != other || Twice(s, w))) && (Twice(t, w) ==> Twice(s, w))
  {
  }

  /** What an attempt does to the waiters. */
  lemma AttemptLoops(loop: Loop, attempting: WaiterId, now: real, w: WaiterId)
    requires attempting !in loop.parked
    ensures var r := Resume(loop, attempting);
            var p := Park(r, attempting);
            && r.parked == loop.parked && r.woken == loop.woken - {attempting}
            && ScheduleScale(r, now).parked == r.parked && ScheduleScale(r, now).woken == r.woken
            && (w in p.parked || w in p.woken ==> w == attempting || w in loop.parked || w in loop.woken)
            && (w in p.parked && w in p.woken ==> w in loop.parked && w in loop.woken)
  {
  }

  lemma AttemptBegins(cfg: Config, s: Sys, l: Label, w: WaiterId)
    requires cfg.Valid() && Enabled(cfg, s, l) && l.TryAcquire?
    ensures var t := Apply(cfg, s, l);
            && t.now == s.now
            && (Waits(t, w) ==> (Waits(s, w) && w != l.waiter) || (l.waiter == w && l.wait))
            && (Twice(t, w) ==> Twice(s, w))
  {
    hide Acquire, Resume, Park, ScheduleScale;
    AttemptLoops(s.loop, l.waiter, s.now, w);
  }

  lemma {:induction false} WaitIsTimed(cfg: Config, s: Sys, run: seq<Label>, w: WaiterId, c: Clock, d: real)
    requires cfg.Valid() && Legal(Next(cfg), s, run) && KeepsTime(cfg, s, run, w, c, d)
    requires d >= 0.0 && c.due <= c.deadline && (Waits(s, w) ==> s.now <= c.deadline + d)
    ensures var t := Exec(Next(cfg), s, run); Waits(t, w) ==> t.now <= c.deadline + d
    decreases |run|
  {
    hide Apply, Enabled, Legal, Exec, Waits;
    Unfold(Next(cfg), s, run);
    if run == [] {
    } else {
      var l := run[0];
      var t := Apply(cfg, s, l);
      if Waits(t, w) { WaitingBegins(cfg, s, l, w); }
      WaitIsTimed(cfg, t, run[1..], w, Advance(c, s, t, l, w), d);
    }
  }

  /** With a loop at most d late, an acquire that begins now with a time-out is over, leased or
      not, when the time-out and d have passed, however often it is woken in between. */
  lemma TimeoutIsKept(cfg: Config, run: seq<Label>, rest: seq<Label>, w: WaiterId, timeout: real, d: real)
    requires Run(cfg, run) && !Waits(After(cfg, run), w)
    requires Legal(Next(cfg), After(cfg, run), rest) && timeout >= 0.0 && d >= 0.0
    requires var s := After(cfg, run);
             KeepsTime(cfg, s, rest, w, Clock(s.now + timeout, s.now + timeout), d)
    ensures var s, t := After(cfg, run), Exec(Next(cfg), After(cfg, run), rest);
            t.now > s.now + timeout + d ==> !Waits(t, w)
  {
    hide Legal, Exec, KeepsTime, Waits;
    var s := After(cfg, run);
    WaitIsTimed(cfg, s, rest, w, Clock(s.now + timeout, s.now + timeout), d);
  }

  lemma {:induction false} NeverTwice(cfg: Config, s: Sys, run: seq<Label>, w: WaiterId)
    requires cfg.Valid() && Legal(Next(cfg), s, run) && !Twice(s, w)
    ensures !Twice(Exec(Next(cfg), s, run), w)
    decreases |run|
  {
    hide Apply, Enabled, Legal, Exec, Waits;
    Unfold(Next(cfg), s, run);
    if run == [] {
    } else {
      var t := Apply(cfg, s, run[0]);
      if Twice(t, w) {
        TwiceWaits(t, w);
        WaitingBegins(cfg, s, run[0], w);
      }
      NeverTwice(cfg, t, run[1..], w);
    }
  }

  lemma TwiceWaits(s: Sys, w: WaiterId)
    requires Twice(s, w)
    ensures Waits(s, w)
  {
  }

  /** When its time is up, whatever the waiter does next is the last: its time-out, or an
      attempt, which may not wait and so is over whatever comes of it. */
  lemma LastStepIsLast(cfg: Config, run: seq<Label>, l: Label, w: WaiterId, deadline: real)
    requires Run(cfg, run) && Enabled(cfg, After(cfg, run), l) && After(cfg, run).now >= deadline
    requires l == GiveUp(w) || (l.TryAcquire? && l.waiter == w && (l.wait <==> After(cfg, run).now < deadline))
    ensures !Waits(Apply(cfg, After(cfg, run), l), w)
  {
    hide Legal, Exec, Waits, StopWaiting, AcquireStep;
    var s := After(cfg, run);
    NeverTwice(cfg, Init(), run, w);
    if l == GiveUp(w) {
      LeavingBegins(s, w, w);
    } else {
      AttemptBegins(cfg, s, l, w);
    }
  }
}
