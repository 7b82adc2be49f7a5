/** The frame clock of fps.cpp. Once per frame `fpsUpdate` samples the
    millisecond timer, keeps the difference from the previous sample as the
    frame's delta, counts frames, and when more than a second has passed since
    the start of the counting window recomputes the frame rate and restarts
    the window. The timer reading is a parameter `now`. */
module Fps {

  /** Length of the counting window, in milliseconds. */
  const WINDOW_MS: int := 1000

  /** The six statics of fps.cpp. `deltaTime` is in milliseconds. */
  datatype ClockState = ClockState(
    fps: real,
    deltaTime: real,
    frame: int,
    time: int,
    lasttime: int,
    timebase: int)
  {
    /** `getDeltaTime`: the delta in seconds. */
    function DeltaSeconds(): real {
      deltaTime / 1000.0
    }

    /** What a non-decreasing timer keeps true. */
    ghost predicate Monotone() {
      lasttime <= time && timebase <= time && frame >= 0 && fps > 0.0
    }
  }

  /** The statics' initial values: a rate of 1 and a delta of 1 ms. */
  function Initial(): (c: ClockState)
    ensures c.Monotone()
  {
    ClockState(1.0, 1.0, 0, 0, 0, 0)
  }

  /** One `fpsUpdate` with timer reading `now`. */
  function Tick(c: ClockState, now: int): (r: ClockState)
    ensures r.lasttime == c.time && r.time == now
    ensures r.deltaTime == (now - c.time) as real
    ensures now - c.timebase > WINDOW_MS <==> r.timebase == now && r.frame == 0 && c.timebase != now
    ensures now - c.timebase <= WINDOW_MS ==> r.frame == c.frame + 1 && r.fps == c.fps
  {
    var frame := c.frame + 1;
    var delta := (now - c.time) as real;
    if now - c.timebase > WINDOW_MS then
      ClockState(frame as real * 1000.0 / (now - c.timebase) as real, delta, 0, now, c.time, now)
    else
      ClockState(c.fps, delta, frame, now, c.time, c.timebase)
  }

  /** `fpsUpdate` once per reading of `times`, in order. */
  function Ticks(c: ClockState, times: seq<int>): (r: ClockState)
    ensures times == [] ==> r == c
    ensures times != [] ==> r.time == times[|times| - 1]
    ensures |times| >= 2 ==> r.lasttime == times[|times| - 2]
    decreases |times|
  {
    if times == [] then c
    else Tick(Ticks(c, times[..|times| - 1]), times[|times| - 1])
  }

  /** Before the first update the rate reads 1 and the delta 0.001 s. */
  lemma InitialReadings()
    ensures Initial().fps == 1.0
    ensures Initial().DeltaSeconds() == 0.001
  {
  }

  /** Every update moves the old sample into `lasttime`, stores `now`, and
      sets the delta to their difference (the first delta is measured from 0),
      read in seconds as that difference over 1000. */
  lemma TickSamples(c: ClockState, now: int)
    ensures Tick(c, now).lasttime == c.time && Tick(c, now).time == now
    ensures Tick(c, now).deltaTime == (now - c.time) as real
    ensures Tick(c, now).DeltaSeconds() == (now - c.time) as real / 1000.0
    ensures c == Initial() ==> Tick(c, now).deltaTime == now as real
  {
  }

  /** Inside the window the frame counter goes up by one and the rate and
      window start stay. */
  lemma TickInsideWindow(c: ClockState, now: int)
    requires now - c.timebase <= WINDOW_MS
    ensures Tick(c, now).frame == c.frame + 1
    ensures Tick(c, now).fps == c.fps && Tick(c, now).timebase == c.timebase
  {
  }

  /** Past the window the rate becomes the frames counted, this one included,
      per second of the window; the window restarts at `now` with no frames. */
  lemma TickRollover(c: ClockState, now: int)
    requires now - c.timebase > WINDOW_MS
    ensures Tick(c, now).fps == (c.frame + 1) as real * 1000.0 / (now - c.timebase) as real
    ensures Tick(c, now).timebase == now && Tick(c, now).frame == 0
  {
  }

  /** With a non-decreasing timer, the delta and the window's elapsed time are
      never negative and the rate stays positive, a recomputed one included. */
  lemma TickKeepsMonotone(c: ClockState, now: int)
    requires c.Monotone() && now >= c.time
    ensures Tick(c, now).Monotone()
    ensures Tick(c, now).deltaTime >= 0.0
    ensures now - Tick(c, now).timebase >= 0
  {
  }

  /** Readings that all fall inside the current window add one frame each
      and change neither the rate nor the window start. */
  lemma {:induction false} TicksInsideWindow(c: ClockState, times: seq<int>)
    requires forall i :: 0 <= i < |times| ==> times[i] - c.timebase <= WINDOW_MS
    ensures Ticks(c, times).frame == c.frame + |times|
    ensures Ticks(c, times).fps == c.fps && Ticks(c, times).timebase == c.timebase
    decreases |times|
  {
    if times != [] {
      TicksInsideWindow(c, times[..|times| - 1]);
    }
  }

  /** Starting from the initial statics, sixty updates at times up to 1000 ms
      and a sixty-first at 1001 ms give a rate of 61000/1001 and restart the
      window at 1001 with no frames. */
  lemma SixtyOneFramesScenario(times: seq<int>)
    requires |times| == 60
    requires forall i :: 0 <= i < |times| ==> times[i] <= 1000
    ensures Ticks(Initial(), times + [1001]).fps == 61000.0 / 1001.0
    ensures Ticks(Initial(), times + [1001]).frame == 0
    ensures Ticks(Initial(), times + [1001]).timebase == 1001
  {
    TicksInsideWindow(Initial(), times);
    assert (times + [1001])[..|times|] == times;
  }

  /** The statics of fps.cpp, updated in place. */
  class Clock {
    var fps: real
    var deltaTime: real
    var frame: int
    var time: int
    var lasttime: int
    var timebase: int

    ghost function State(): ClockState
      reads this
    {
      ClockState(fps, deltaTime, frame, time, lasttime, timebase)
    }

    constructor ()
      ensures State() == Initial()
    {
      fps := 1.0;
      deltaTime := 1.0;
      frame := 0;
      time := 0;
      lasttime := 0;
      timebase := 0;
    }

    /** `fpsUpdate`, with `now` the elapsed-time reading. */
    method Update(now: int)
      modifies this
      ensures State() == Tick(old(State()), now)
    {
      frame := frame + 1;
      lasttime := time;
      time := now;
      deltaTime := (time - lasttime) as real;
      if time - timebase > WINDOW_MS {
        fps := frame as real * 1000.0 / (time - timebase) as real;
        timebase := time;
        frame := 0;
      }
    }

    /** `getFps` */
    function GetFps(): (r: real)
      reads this
      ensures r == State().fps
    {
      fps
    }

    /** `getDeltaTime` */
    function GetDeltaTime(): (r: real)
      reads this
      ensures r == State().DeltaSeconds()
    {
      deltaTime / 1000.0
    }
  }
}
