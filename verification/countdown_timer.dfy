/** The sleep timer: idle, or running with an interval that fires once a
    second. Each interval firing is an explicit `Tick`; the tick and completion
    callbacks are the events a step emits, in order. */
module CountdownTimer {

  /** A tick callback with minutes and seconds left, or the completion callback. */
  datatype TimerEvent = Display(minutes: nat, seconds: nat) | Completed

  /** `interval` records whether a repeating interval is scheduled. */
  datatype Timer = Timer(duration: int, remaining: int, isRunning: bool, interval: bool)

  /** The timer after one call, and the callbacks that call made. */
  datatype Step = Step(timer: Timer, events: seq<TimerEvent>)

  /** The freshly constructed timer, and the one every stop returns to. */
  const Idle := Timer(0, 0, false, false)

  /** The states the timer can reach: an idle timer has nothing left and no
      interval; a running one has its interval and 1..duration seconds left. */
  predicate Valid(t: Timer)
  {
    && (t.isRunning <==> t.interval)
    && (!t.isRunning ==> t.remaining == 0 && t.duration == 0)
    && (t.isRunning ==> 0 < t.remaining <= t.duration)
  }

  /** The tick callback for `remaining` seconds left: whole minutes and the
      seconds beyond them. */
  function DisplayOf(remaining: nat): (e: TimerEvent)
    ensures e.Display? && e.seconds < 60
    ensures 60 * e.minutes + e.seconds == remaining
  {
    Display(remaining / 60, remaining % 60)
  }

  /** `stop()`: cancels the interval, clears the countdown and reports 00:00. */
  function Stop(t: Timer): (r: Step)
    ensures Valid(r.timer) && !r.timer.isRunning && !r.timer.interval
    ensures r.timer.remaining == 0 && r.timer.duration == 0
    ensures r.events == [Display(0, 0)]
  {
    Step(Idle, [DisplayOf(0)])
  }

  /** `start(minutes)`: a non-positive duration is a stop; otherwise the old
      countdown is dropped, `60 * minutes` seconds are set, and the starting
      time is reported at once. */
  function Start(t: Timer, minutes: int): (r: Step)
    ensures Valid(r.timer)
    ensures minutes <= 0 ==> r == Stop(t)
    ensures minutes > 0 ==> r.timer.isRunning && r.timer.remaining == 60 * minutes
    ensures minutes > 0 ==> r.events == [Display(minutes, 0)]
  {
    if minutes <= 0 then
      Stop(t)
    else
      var seconds := 60 * minutes;
      Step(Timer(seconds, seconds, true, true), [DisplayOf(seconds)])
  }

  /** `complete()`: a stop, then the completion callback. */
  function Complete(t: Timer): (r: Step)
    ensures Valid(r.timer) && !r.timer.isRunning
    ensures r.events == [Display(0, 0), Completed]
  {
    var s := Stop(t);
    Step(s.timer, s.events + [Completed])
  }

  /** One firing of the interval: one second less, reported; on reaching 0
      the timer completes. Without an interval nothing fires. */
  function Tick(t: Timer): (r: Step)
    requires Valid(t)
    ensures Valid(r.timer)
    ensures !t.isRunning ==> r == Step(t, [])
    ensures t.isRunning && t.remaining > 1 ==>
              r.timer == t.(remaining := t.remaining - 1) && r.events == [DisplayOf(t.remaining - 1)]
    ensures t.isRunning && t.remaining == 1 ==>
              !r.timer.isRunning && r.events == [Display(0, 0), Display(0, 0), Completed]
  {
    if !t.interval then
      Step(t, [])
    else
      var left := t.remaining - 1;
      var shown := DisplayOf(left);
      if left <= 0 then
        var c := Complete(t.(remaining := left));
        Step(c.timer, [shown] + c.events)
      else
        Step(t.(remaining := left), [shown])
  }

  /** `n` firings in a row, with every callback they make. */
  function Ticks(t: Timer, n: nat): (r: Step)
    requires Valid(t)
    ensures Valid(r.timer)
    decreases n
  {
    if n == 0 then
      Step(t, [])
    else
      var first := Tick(t);
      var rest := Ticks(first.timer, n - 1);
      Step(rest.timer, first.events + rest.events)
  }

  /** The tick callbacks as `from` seconds count down to `to`: one for each
      of `from - 1`, ..., `to`. */
  function Countdown(from: nat, to: nat): (es: seq<TimerEvent>)
    requires to <= from
    ensures |es| == from - to
    ensures forall i :: 0 <= i < |es| ==> es[i] == DisplayOf(from - 1 - i)
    decreases from - to
  {
    if from == to then [] else [DisplayOf(from - 1)] + Countdown(from - 1, to)
  }

  /** Fewer firings than seconds left: still running, one second less per
      firing, one report per firing, no completion. */
  lemma {:induction false} TicksBeforeCompletion(t: Timer, k: nat)
    requires Valid(t) && t.isRunning && k < t.remaining
    ensures Ticks(t, k) == Step(t.(remaining := t.remaining - k), Countdown(t.remaining, t.remaining - k))
    decreases k
  {
    if k > 0 {
      var first := Tick(t);
      assert first.timer == t.(remaining := t.remaining - 1);
      TicksBeforeCompletion(first.timer, k - 1);
      assert first.timer.(remaining := first.timer.remaining - (k - 1)) == t.(remaining := t.remaining - k);
    }
  }

  /** As many firings as seconds left: every second is reported, then the
      stop's 00:00, then one completion, and the timer is idle. */
  lemma {:induction false} TicksToCompletion(t: Timer)
    requires Valid(t) && t.isRunning
    ensures Ticks(t, t.remaining) == Step(Idle, Countdown(t.remaining, 0) + [Display(0, 0), Completed])
    decreases t.remaining
  {
    var first := Tick(t);
    if t.remaining == 1 {
      assert Ticks(first.timer, 0).events == [];
    } else {
      TicksToCompletion(first.timer);
      assert Countdown(t.remaining, 0) == [DisplayOf(t.remaining - 1)] + Countdown(t.remaining - 1, 0);
    }
  }

  /** A countdown of `minutes` completes after exactly `60 * minutes` firings
      and not earlier, and completes exactly once. */
  lemma CompletesAfterExactly(t: Timer, minutes: int, k: nat)
    requires minutes > 0
    ensures var s := Start(t, minutes).timer;
      && (k < 60 * minutes ==> Ticks(s, k).timer.isRunning && Completed !in Ticks(s, k).events)
      && (k == 60 * minutes ==>
            Ticks(s, k) == Step(Idle, Countdown(60 * minutes, 0) + [Display(0, 0), Completed]))
  {
    var s := Start(t, minutes).timer;
    if k < 60 * minutes {
      TicksBeforeCompletion(s, k);
    } else if k == 60 * minutes {
      TicksToCompletion(s);
    }
  }

  /** Once idle, firings do nothing: completion is reported only once. */
  lemma {:induction false} IdleStaysSilent(n: nat)
    ensures Ticks(Idle, n) == Step(Idle, [])
    decreases n
  {
    if n > 0 {
      IdleStaysSilent(n - 1);
    }
  }

  /** A restart forgets the old countdown: the result depends only on the
      new duration. */
  lemma RestartForgets(t1: Timer, t2: Timer, minutes: int)
    ensures Start(t1, minutes) == Start(t2, minutes)
  {
  }
}
