/**
 The PoWA background worker's scheduling logic: the frequency validation,
 the start-up checks, the snapshot loop with its drift compensation, and the
 configuration reload triggered by SIGHUP.

 The worker is a class whose fields the loop and the signal handler update.
 Beside it, WorkerView, Apply and Replay give the same behaviour as pure
 values, so that properties of whole runs can be stated as lemmas.
 */
module Scheduler {

  /** powa.frequency may not lie strictly between 0 and this many milliseconds. */
  const MinFrequency: int := 5000

  /** Bounds of the powa.frequency setting, in milliseconds: -1 to INT_MAX / 1000. */
  const MinSettingFrequency: int := -1
  const MaxSettingFrequency: int := 2147483

  /** A value the configuration machinery accepts for powa.frequency. */
  predicate InSettingRange(frequency: int) {
    MinSettingFrequency <= frequency <= MaxSettingFrequency
  }

  /** The condition under which die_on_too_small_frequency ends the process. */
  predicate TooSmall(frequency: int) {
    frequency > 0 && frequency < MinFrequency
  }

  /** A frequency the worker may keep going with: disabled, zero, or at least the minimum. */
  predicate Accepted(frequency: int) {
    frequency <= 0 || MinFrequency <= frequency
  }

  datatype ExitReason =
    | FrequencyTooSmall   // die_on_too_small_frequency, at start-up or after a reload
    | Deactivated         // negative frequency at start-up, before connecting
    | Disconnected        // negative frequency found at the top of a loop iteration

  datatype State = Starting | Running | Exited(reason: ExitReason)

  /** What can happen to a running worker: one loop iteration whose snapshot
      took elapsedUs microseconds, or a reload that sets a new frequency. The
      elapsed time is the difference of two clock readings, so a clock set
      back during the snapshot makes it negative. */
  datatype Event = Iteration(elapsedUs: int) | Sighup(frequency: int)

  /** The worker as a value: its frequency, its state, how many snapshots it
      has taken and the timeouts of the waits it has performed, in order. */
  datatype WorkerView = WorkerView(frequency: int, state: State, snapshots: nat, waits: seq<int>)

  /** Division of an integer by a positive one, rounding toward zero as C does
      when it converts a double to an integer. */
  function TruncDiv(a: int, b: int): (q: int)
    requires b > 0
    ensures a >= 0 ==> q * b <= a < q * b + b
    ensures a < 0 ==> q * b - b < a <= q * b
  {
    if a >= 0 then a / b else -((-a) / b)
  }

  /** time_to_wait: the frequency minus the elapsed time in milliseconds,
      truncated toward zero. A wait happens only when it is positive, that is
      when at least one whole millisecond of the period is left; the snapshot
      plus the wait then fill the period to within one millisecond. A clock
      set back by a millisecond or more makes the wait longer than the period. */
  function TimeToWait(frequency: int, elapsedUs: int): (w: int)
    ensures w > 0 <==> elapsedUs + 1000 <= frequency * 1000
    ensures w > 0 ==> frequency * 1000 - 1000 < elapsedUs + w * 1000 <= frequency * 1000
    ensures elapsedUs >= 0 && w > 0 ==> w <= frequency
    ensures elapsedUs <= -1000 && frequency >= 0 ==> w > frequency
    ensures elapsedUs % 1000 == 0 ==> w == frequency - elapsedUs / 1000
  {
    TruncDiv(frequency * 1000 - elapsedUs, 1000)
  }

  /** die_on_too_small_frequency applied to a view. */
  function Validate(v: WorkerView): (r: WorkerView)
    ensures r.frequency == v.frequency && r.snapshots == v.snapshots && r.waits == v.waits
    ensures r.state == v.state || r.state == Exited(FrequencyTooSmall)
    ensures r.state == v.state <==> !TooSmall(v.frequency) || v.state == Exited(FrequencyTooSmall)
  {
    if TooSmall(v.frequency) then v.(state := Exited(FrequencyTooSmall)) else v
  }

  /** The worker after the start-up part of powa_main with the configured frequency. */
  function Launch(frequency: int): (v: WorkerView)
    ensures v.frequency == frequency && v.snapshots == 0 && v.waits == []
    ensures v.state.Running? <==> frequency == 0 || MinFrequency <= frequency
    ensures v.state == Exited(FrequencyTooSmall) <==> TooSmall(frequency)
    ensures v.state == Exited(Deactivated) <==> frequency < 0
  {
    var checked := Validate(WorkerView(frequency, Starting, 0, []));
    if checked.state.Exited? then checked
    else if frequency < 0 then checked.(state := Exited(Deactivated))
    else checked.(state := Running)
  }

  /** One event applied to the worker. Events reach only a running worker:
      before start-up no loop runs and no handler is installed, and after an
      exit the process is gone; in both cases nothing changes. */
  function Apply(v: WorkerView, e: Event): (r: WorkerView)
    ensures !v.state.Running? ==> r == v
    ensures e.Iteration? && v.state.Running? && v.frequency < 0 ==>
              r == v.(state := Exited(Disconnected))
    ensures e.Iteration? && v.state.Running? && v.frequency >= 0 ==>
              var w := TimeToWait(v.frequency, e.elapsedUs);
              && r.state == Running && r.frequency == v.frequency
              && r.snapshots == v.snapshots + 1
              && r.waits == v.waits + (if w > 0 then [w] else [])
    ensures e.Sighup? && v.state.Running? ==>
              && r.frequency == e.frequency && r.snapshots == v.snapshots && r.waits == v.waits
              && r.state == (if TooSmall(e.frequency) then Exited(FrequencyTooSmall) else Running)
  {
    if !v.state.Running? then v
    else match e
      case Iteration(elapsedUs) =>
        if v.frequency < 0 then v.(state := Exited(Disconnected))
        else
          var w := TimeToWait(v.frequency, elapsedUs);
          v.(snapshots := v.snapshots + 1, waits := if w > 0 then v.waits + [w] else v.waits)
      case Sighup(frequency) =>
        Validate(v.(frequency := frequency))
  }

  /** A sequence of events applied in order: the loop of powa_main with
      reloads arriving between its iterations. */
  function Replay(v: WorkerView, events: seq<Event>): (r: WorkerView)
    ensures !v.state.Running? ==> r == v
    ensures r.snapshots <= v.snapshots + |events|
    decreases |events|
  {
    if events == [] then v else Replay(Apply(v, events[0]), events[1..])
  }

  predicate NoReloads(events: seq<Event>) {
    forall i :: 0 <= i < |events| ==> events[i].Iteration?
  }

  predicate ReloadsInRange(events: seq<Event>) {
    forall i :: 0 <= i < |events| ==> events[i].Sighup? ==> InSettingRange(events[i].frequency)
  }

  /** n loop iterations, each of whose snapshots took elapsedUs microseconds. */
  function Iterations(n: nat, elapsedUs: int): (events: seq<Event>)
    ensures |events| == n && NoReloads(events)
  {
    if n == 0 then [] else [Iteration(elapsedUs)] + Iterations(n - 1, elapsedUs)
  }

  function Repeat(x: int, n: nat): (s: seq<int>)
    ensures |s| == n
  {
    if n == 0 then [] else [x] + Repeat(x, n - 1)
  }

  /** The waits of n iterations whose snapshots each took elapsedUs microseconds. */
  function SteadyWaits(frequency: int, n: nat, elapsedUs: int): seq<int>
  {
    var w := TimeToWait(frequency, elapsedUs);
    if w > 0 then Repeat(w, n) else []
  }

  /** No iteration measured a negative elapsed time: the clock never went back. */
  predicate ClockForward(events: seq<Event>) {
    forall i :: 0 <= i < |events| ==> events[i].Iteration? ==> events[i].elapsedUs >= 0
  }

  /** What holds of the worker at every point: the frequency is within the
      setting's bounds, a running worker has an accepted frequency, and every
      wait it performed had a positive timeout. */
  ghost predicate Inv(v: WorkerView) {
    && InSettingRange(v.frequency)
    && (v.state.Running? ==> Accepted(v.frequency))
    && (forall i :: 0 <= i < |v.waits| ==> 0 < v.waits[i])
  }

  /** Every wait is no longer than the largest frequency the setting allows. */
  ghost predicate WaitsWithinSetting(v: WorkerView) {
    forall i :: 0 <= i < |v.waits| ==> v.waits[i] <= MaxSettingFrequency
  }

  lemma {:induction false} ReplaySplit(v: WorkerView, a: seq<Event>, b: seq<Event>)
    ensures Replay(v, a + b) == Replay(Replay(v, a), b)
    decreases |a|
  {
    if a != [] {
      assert (a + b)[0] == a[0];
      assert (a + b)[1..] == a[1..] + b;
      ReplaySplit(Apply(v, a[0]), a[1..], b);
    } else {
      assert a + b == b;
    }
  }

  /** An exited worker stays exited, whatever happens afterwards. */
  lemma {:induction false} ExitIsFinal(v: WorkerView, events: seq<Event>)
    requires v.state.Exited?
    ensures Replay(v, events) == v
    decreases |events|
  {
    if events != [] {
      ExitIsFinal(Apply(v, events[0]), events[1..]);
    }
  }

  /** The invariant holds at start-up and after every event. */
  lemma LaunchKeepsInv(frequency: int)
    requires InSettingRange(frequency)
    ensures Inv(Launch(frequency))
  {
  }

  lemma {:induction false} ReplayKeepsInv(v: WorkerView, events: seq<Event>)
    requires Inv(v) && ReloadsInRange(events)
    ensures Inv(Replay(v, events))
    decreases |events|
  {
    if events != [] {
      var next := Apply(v, events[0]);
      if v.state.Running? && events[0].Iteration? && v.frequency >= 0 {
        var w := TimeToWait(v.frequency, events[0].elapsedUs);
        assert next.waits == v.waits || (w > 0 && next.waits == v.waits + [w]);
      }
      assert Inv(next);
      assert ReloadsInRange(events[1..]) by {
        forall i | 0 <= i < |events[1..]| ensures events[1..][i] == events[i + 1] { }
      }
      ReplayKeepsInv(next, events[1..]);
    }
  }

  /** While the clock only moves forward, no wait is longer than the largest
      frequency the setting allows; a clock set back can break this (see
      TimeToWait). */
  lemma {:induction false} ForwardClockBoundsWaits(v: WorkerView, events: seq<Event>)
    requires Inv(v) && WaitsWithinSetting(v)
    requires ReloadsInRange(events) && ClockForward(events)
    ensures WaitsWithinSetting(Replay(v, events))
    decreases |events|
  {
    if events != [] {
      var next := Apply(v, events[0]);
      if v.state.Running? && events[0].Iteration? && v.frequency >= 0 {
        var w := TimeToWait(v.frequency, events[0].elapsedUs);
        assert next.waits == v.waits || (w > 0 && next.waits == v.waits + [w]);
      }
      assert WaitsWithinSetting(next);
      ReplayKeepsInv(v, [events[0]]);
      assert Inv(next);
      assert ReloadsInRange(events[1..]) && ClockForward(events[1..]) by {
        forall i | 0 <= i < |events[1..]| ensures events[1..][i] == events[i + 1] { }
      }
      ForwardClockBoundsWaits(next, events[1..]);
    }
  }

  /** A negative frequency at start-up ends the worker before it connects:
      no snapshot is ever taken. */
  lemma DisabledAtStartup(frequency: int, events: seq<Event>)
    requires frequency < 0
    ensures Replay(Launch(frequency), events).state == Exited(Deactivated)
    ensures Replay(Launch(frequency), events).snapshots == 0
  {
    ExitIsFinal(Launch(frequency), events);
  }

  /** A frequency between 0 and the minimum at start-up ends the worker before
      it connects: no snapshot is ever taken. */
  lemma TooSmallAtStartup(frequency: int, events: seq<Event>)
    requires TooSmall(frequency)
    ensures Replay(Launch(frequency), events).state == Exited(FrequencyTooSmall)
    ensures Replay(Launch(frequency), events).snapshots == 0
  {
    ExitIsFinal(Launch(frequency), events);
  }

  /** Once the frequency is negative, no further snapshot is taken and no wait
      happens until a reload changes it; the first iteration ends the worker. */
  lemma {:induction false} DisabledTakesNoSnapshot(v: WorkerView, events: seq<Event>)
    requires v.frequency < 0 && NoReloads(events)
    ensures Replay(v, events).snapshots == v.snapshots
    ensures Replay(v, events).waits == v.waits
    ensures v.state.Running? && events != [] ==> Replay(v, events).state == Exited(Disconnected)
    decreases |events|
  {
    if events != [] {
      var next := Apply(v, events[0]);
      assert next.frequency == v.frequency;
      assert NoReloads(events[1..]) by {
        forall i | 0 <= i < |events[1..]| ensures events[1..][i] == events[i + 1] { }
      }
      DisabledTakesNoSnapshot(next, events[1..]);
      if v.state.Running? {
        ExitIsFinal(next, events[1..]);
      }
    }
  }

  /** A reload to a negative frequency stops the worker at the next iteration
      boundary, before another snapshot. The reload does not cut a wait short. */
  lemma ReloadToDisabledStopsAtNextIteration(v: WorkerView, frequency: int, elapsedUs: int, rest: seq<Event>)
    requires v.state.Running? && frequency < 0
    ensures Replay(v, [Sighup(frequency), Iteration(elapsedUs)] + rest)
         == v.(frequency := frequency, state := Exited(Disconnected))
  {
    var stopped := v.(frequency := frequency, state := Exited(Disconnected));
    var reloaded := Apply(v, Sighup(frequency));
    assert reloaded == v.(frequency := frequency);
    assert Apply(reloaded, Iteration(elapsedUs)) == stopped;
    assert [Sighup(frequency), Iteration(elapsedUs)] + rest == [Sighup(frequency)] + ([Iteration(elapsedUs)] + rest);
    ReplaySplit(v, [Sighup(frequency)], [Iteration(elapsedUs)] + rest);
    ReplaySplit(reloaded, [Iteration(elapsedUs)], rest);
    ExitIsFinal(stopped, rest);
  }

  /** A frequency of 0 passes every check, and the worker then takes its
      snapshots back to back without ever waiting, as long as the clock does
      not go back. */
  lemma {:induction false} ZeroFrequencyRunsBackToBack(v: WorkerView, events: seq<Event>)
    requires v.state.Running? && v.frequency == 0 && NoReloads(events) && ClockForward(events)
    ensures Replay(v, events) == v.(snapshots := v.snapshots + |events|)
    decreases |events|
  {
    if events != [] {
      assert NoReloads(events[1..]) && ClockForward(events[1..]) by {
        forall i | 0 <= i < |events[1..]| ensures events[1..][i] == events[i + 1] { }
      }
      ZeroFrequencyRunsBackToBack(Apply(v, events[0]), events[1..]);
    }
  }

  /** With a frequency of 0, a snapshot during which the clock was set back
      far enough to read 2 ms negative is followed by a wait of 2 ms. */
  lemma ZeroFrequencyWaitsAfterClockSetBack()
    ensures Apply(WorkerView(0, Running, 0, []), Iteration(-2000)).waits == [2]
  {
  }

  /** Snapshots and waits only accumulate, at most one snapshot per event, and
      every wait follows a snapshot of its own. */
  lemma {:induction false} WaitsFollowSnapshots(v: WorkerView, events: seq<Event>)
    ensures v.waits <= Replay(v, events).waits
    ensures v.snapshots <= Replay(v, events).snapshots <= v.snapshots + |events|
    ensures |Replay(v, events).waits| - |v.waits| <= Replay(v, events).snapshots - v.snapshots
    decreases |events|
  {
    if events != [] {
      WaitsFollowSnapshots(Apply(v, events[0]), events[1..]);
    }
  }

  /** With a constant snapshot duration and no reload, every iteration takes
      one snapshot and waits the same compensated time. */
  lemma {:induction false} SteadyCadence(v: WorkerView, n: nat, elapsedUs: int)
    requires v.state.Running? && v.frequency >= 0
    ensures Replay(v, Iterations(n, elapsedUs))
         == v.(snapshots := v.snapshots + n, waits := v.waits + SteadyWaits(v.frequency, n, elapsedUs))
    decreases n
  {
    var w := TimeToWait(v.frequency, elapsedUs);
    if n > 0 {
      var next := Apply(v, Iteration(elapsedUs));
      SteadyCadence(next, n - 1, elapsedUs);
      if w > 0 {
        assert v.waits + [w] + Repeat(w, n - 1) == v.waits + Repeat(w, n);
      }
    }
  }

  /** A 5000 ms period with 200 ms snapshots gives ten waits of 4800 ms. */
  lemma FiveSecondPeriodWaitsFourPointEight()
    ensures Replay(WorkerView(5000, Running, 0, []), Iterations(10, 200000)).waits == Repeat(4800, 10)
    ensures Replay(WorkerView(5000, Running, 0, []), Iterations(10, 200000)).snapshots == 10
  {
    SteadyCadence(WorkerView(5000, Running, 0, []), 10, 200000);
  }

  /** The worker process: the powa.frequency it reads, where it is in its
      life, and (ghost) the snapshots it has triggered and the waits it has
      performed. */
  class Worker {
    var frequency: int
    var state: State
    ghost var snapshots: nat
    ghost var waits: seq<int>

    ghost function View(): WorkerView
      reads this
    {
      WorkerView(frequency, state, snapshots, waits)
    }

    /** The worker as registered, with powa.frequency loaded from the configuration. */
    constructor (frequency: int)
      requires InSettingRange(frequency)
      ensures View() == WorkerView(frequency, Starting, 0, [])
    {
      this.frequency := frequency;
      state := Starting;
      snapshots := 0;
      waits := [];
    }

    /** Ends the process when the frequency is positive but below the minimum. */
    method DieOnTooSmallFrequency()
      requires !state.Exited?
      modifies this`state
      ensures state == (if TooSmall(frequency) then Exited(FrequencyTooSmall) else old(state))
      ensures View() == Validate(old(View()))
    {
      if frequency > 0 && frequency < MinFrequency {
        state := Exited(FrequencyTooSmall);
      }
    }

    /** The start of powa_main: validate, leave if disabled, otherwise connect
        and label the session. */
    method Startup()
      requires state == Starting && snapshots == 0 && waits == []
      modifies this
      ensures View() == Launch(old(frequency))
      ensures state.Running? <==> frequency == 0 || MinFrequency <= frequency
    {
      DieOnTooSmallFrequency();
      if state.Exited? {
        return;
      }
      if frequency < 0 {
        state := Exited(Deactivated);
        return;
      }
      // Connecting and setting application_name are host I/O with no effect here.
      state := Running;
    }

    /** One iteration of the main loop: leave if the frequency has become
        negative; otherwise take a snapshot and wait for what is left of the
        period, when something is left. */
    method Tick(elapsedUs: int)
      requires state == Running
      modifies this
      ensures View() == Apply(old(View()), Iteration(elapsedUs))
      ensures frequency == old(frequency)
      ensures old(frequency) < 0 ==> state == Exited(Disconnected) && snapshots == old(snapshots) && waits == old(waits)
      ensures old(frequency) >= 0 ==> state == Running && snapshots == old(snapshots) + 1
      ensures old(frequency) >= 0 ==>
                var w := TimeToWait(old(frequency), elapsedUs);
                waits == if w > 0 then old(waits) + [w] else old(waits)
    {
      if frequency < 0 {
        state := Exited(Disconnected);
        return;
      }
      snapshots := snapshots + 1;
      var timeToWait := TimeToWait(frequency, elapsedUs);
      if timeToWait > 0 {
        waits := waits + [timeToWait];
      }
    }

    /** powa_sighup: take the reloaded frequency and validate it again. */
    method Reload(newFrequency: int)
      requires state == Running && InSettingRange(newFrequency)
      modifies this
      ensures View() == Apply(old(View()), Sighup(newFrequency))
      ensures frequency == newFrequency && snapshots == old(snapshots) && waits == old(waits)
      ensures state == if TooSmall(newFrequency) then Exited(FrequencyTooSmall) else Running
    {
      frequency := newFrequency;
      DieOnTooSmallFrequency();
    }

    /** powa_main over a finite stretch of its life: start-up, then the loop,
        with reloads arriving between iterations, until the events run out or
        the worker exits. */
    method Run(events: seq<Event>)
      requires state == Starting && snapshots == 0 && waits == []
      requires InSettingRange(frequency) && ReloadsInRange(events)
      modifies this
      ensures View() == Replay(Launch(old(frequency)), events)
      ensures Inv(View())
      ensures ClockForward(events) ==> WaitsWithinSetting(View())
    {
      ghost var start := Launch(frequency);
      Startup();
      var i := 0;
      while i < |events| && state.Running?
        invariant 0 <= i <= |events|
        invariant View() == Replay(start, events[..i])
        invariant InSettingRange(frequency)
        invariant state.Running? || state.Exited?
        decreases |events| - i
      {
        ReplaySplit(start, events[..i], [events[i]]);
        assert events[..i] + [events[i]] == events[..i + 1];
        match events[i] {
          case Iteration(elapsedUs) =>
            Tick(elapsedUs);
          case Sighup(newFrequency) =>
            Reload(newFrequency);
        }
        i := i + 1;
      }
      ReplaySplit(start, events[..i], events[i..]);
      assert events[..i] + events[i..] == events;
      if i < |events| {
        ExitIsFinal(View(), events[i..]);
      }
      LaunchKeepsInv(old(frequency));
      ReplayKeepsInv(start, events);
      if ClockForward(events) {
        ForwardClockBoundsWaits(start, events);
      }
    }
  }
}
