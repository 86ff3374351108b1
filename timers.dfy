/** The frame timer: the time between ticks, and a sliding window of the most
    recent frame rates whose mean is the reported fps. Clock readings are
    parameters: each `time.time()` call of the original is one argument. */
module Timers {

  /** The window keeps at most this many samples. */
  const Capacity := 50

  /** Append a sample, then drop the oldest one when over capacity. */
  function Push(window: seq<real>, sample: real): (r: seq<real>)
    ensures |window| <= Capacity ==> 1 <= |r| <= Capacity
    ensures |r| == if |window| + 1 > Capacity then |window| else |window| + 1
    ensures r == (window + [sample])[|window| + 1 - |r|..]
    ensures r[|r| - 1] == sample
  {
    var appended := window + [sample];
    if |appended| > Capacity then appended[1..] else appended
  }

  /** One tick's effect on the window: a zero interval records nothing, any other
      records the rate 1 / dt as the newest of at most 50 samples. */
  function Slide(window: seq<real>, dt: real): (r: seq<real>)
    ensures 1 <= |window| <= Capacity ==> 1 <= |r| <= Capacity
    ensures dt == 0.0 ==> r == window
    ensures dt != 0.0 && |window| <= Capacity ==> r == LastN(window + [1.0 / dt], Capacity)
  {
    if dt != 0.0 then Push(window, 1.0 / dt) else window
  }

  /** The window after ticks with intervals `dts`, starting from `[0]`. */
  function WindowAfter(dts: seq<real>): (w: seq<real>)
    ensures 1 <= |w| <= Capacity
    decreases |dts|
  {
    if dts == [] then [0.0] else Slide(WindowAfter(dts[..|dts| - 1]), dts[|dts| - 1])
  }

  /** The rates recorded by ticks with intervals `dts`, oldest first. */
  function Samples(dts: seq<real>): seq<real>
    decreases |dts|
  {
    if dts == [] then []
    else
      var dt := dts[|dts| - 1];
      Samples(dts[..|dts| - 1]) + (if dt != 0.0 then [1.0 / dt] else [])
  }

  /** The last (up to) n elements of s. */
  function LastN(s: seq<real>, n: nat): (r: seq<real>)
    ensures |r| == if |s| < n then |s| else n
  {
    if |s| <= n then s else s[|s| - n..]
  }

  /** Appending to the newest 50 of a history and keeping the newest 50 keeps
      the newest 50 of the longer history. */
  lemma NewestOfNewest(all: seq<real>, x: real)
    ensures LastN(LastN(all, Capacity) + [x], Capacity) == LastN(all + [x], Capacity)
  {
    var w := LastN(all, Capacity);
    var appended := all + [x];
    assert w + [x] == appended[|appended| - |w| - 1..];
  }

  /** One more tick records its rate, if any, after the earlier ones. */
  lemma SamplesStep(init: seq<real>, dt: real)
    ensures [0.0] + Samples(init + [dt]) == ([0.0] + Samples(init)) + (if dt != 0.0 then [1.0 / dt] else [])
  {
    assert (init + [dt])[..|init|] == init;
  }

  /** The window is a FIFO: it holds exactly the most recent 50 values of the
      initial 0 followed by every recorded rate, oldest first. */
  lemma {:induction false} WindowIsRecentSamples(dts: seq<real>)
    ensures WindowAfter(dts) == LastN([0.0] + Samples(dts), Capacity)
    decreases |dts|
  {
    if dts != [] {
      var init := dts[..|dts| - 1];
      var dt := dts[|dts| - 1];
      assert dts == init + [dt];
      WindowIsRecentSamples(init);
      SamplesStep(init, dt);
      var all := [0.0] + Samples(init);
      if dt != 0.0 {
        NewestOfNewest(all, 1.0 / dt);
      }
    }
  }

  function Sum(s: seq<real>): real
    decreases |s|
  {
    if s == [] then 0.0 else Sum(s[..|s| - 1]) + s[|s| - 1]
  }

  function MinOf(s: seq<real>): (m: real)
    requires |s| >= 1
    ensures forall k :: 0 <= k < |s| ==> m <= s[k]
    decreases |s|
  {
    if |s| == 1 then s[0]
    else
      var rest := MinOf(s[..|s| - 1]);
      if s[|s| - 1] < rest then s[|s| - 1] else rest
  }

  function MaxOf(s: seq<real>): (m: real)
    requires |s| >= 1
    ensures forall k :: 0 <= k < |s| ==> s[k] <= m
    decreases |s|
  {
    if |s| == 1 then s[0]
    else
      var rest := MaxOf(s[..|s| - 1]);
      if s[|s| - 1] > rest then s[|s| - 1] else rest
  }

  /** The minimum is one of the elements. */
  lemma {:induction false} MinOfIsElement(s: seq<real>)
    requires |s| >= 1
    ensures MinOf(s) in s
    decreases |s|
  {
    if |s| > 1 {
      MinOfIsElement(s[..|s| - 1]);
    }
  }

  /** The maximum is one of the elements. */
  lemma {:induction false} MaxOfIsElement(s: seq<real>)
    requires |s| >= 1
    ensures MaxOf(s) in s
    decreases |s|
  {
    if |s| > 1 {
      MaxOfIsElement(s[..|s| - 1]);
    }
  }

  /** A sum lies between |s| times any lower bound and |s| times any upper bound. */
  lemma {:induction false} SumBounds(s: seq<real>, lo: real, hi: real)
    requires forall k :: 0 <= k < |s| ==> lo <= s[k] <= hi
    ensures |s| as real * lo <= Sum(s) <= |s| as real * hi
    decreases |s|
  {
    if s != [] {
      SumBounds(s[..|s| - 1], lo, hi);
    }
  }

  lemma DivideBetween(total: real, n: real, lo: real, hi: real)
    requires n > 0.0 && n * lo <= total <= n * hi
    ensures (total / n) * n == total
    ensures lo <= total / n <= hi
  {
    var q := total / n;
    assert q * n == total;
  }

  /** The mean of a non-empty list: `sum(s) / len(s)`. */
  function Mean(s: seq<real>): (m: real)
    requires |s| >= 1
    ensures m * |s| as real == Sum(s)
    ensures MinOf(s) <= m <= MaxOf(s)
  {
    var n, total := |s| as real, Sum(s);
    SumBounds(s, MinOf(s), MaxOf(s));
    DivideBetween(total, n, MinOf(s), MaxOf(s));
    total / n
  }

  class Timer {
    var time: real
    var unprocessed: real
    var prevTime: real
    /** The recent frame rates, oldest first. */
    var fpsList: seq<real>
    /** The intervals of every tick so far, oldest first. */
    ghost var dts: seq<real>

    /** The window is never empty and never over capacity. */
    predicate Bounded()
      reads this
    {
      1 <= |fpsList| <= Capacity
    }

    /** The window is the one the ticks so far leave. */
    ghost predicate Valid()
      reads this
    {
      Bounded() && fpsList == WindowAfter(dts)
    }

    /** `now1` and `now2` are the two clock readings the constructor takes. */
    constructor (now1: real, now2: real)
      ensures time == now1 && unprocessed == 0.0 && prevTime == now2
      ensures fpsList == [0.0] && dts == []
      ensures Valid()
    {
      time := now1;
      unprocessed := 0.0;
      prevTime := now2;
      fpsList := [0.0];
      dts := [];
    }

    /** tick() without a frame cap: `dt` is the first reading minus the previous
        tick's second reading, which becomes the second reading of this tick. */
    method Tick(now1: real, now2: real) returns (dt: real)
      requires Valid()
      modifies this
      ensures dt == now1 - old(prevTime) && prevTime == now2
      ensures fpsList == Slide(old(fpsList), dt) && dts == old(dts) + [dt]
      ensures time == old(time) && unprocessed == old(unprocessed)
      ensures Valid()
      ensures fpsList == LastN([0.0] + Samples(dts), Capacity)
    {
      dt := now1 - prevTime;
      prevTime := now2;
      dts := dts + [dt];
      assert dts[..|dts| - 1] == old(dts);
      WindowIsRecentSamples(dts);
      if dt != 0.0 {
        fpsList := fpsList + [1.0 / dt];
        if |fpsList| > Capacity {
          fpsList := fpsList[1..];
        }
      }
    }

    /** The mean of the window; it is never empty, so this never divides by zero. */
    function GetFps(): (fps: real)
      requires Bounded()
      reads this
      ensures fps * |fpsList| as real == Sum(fpsList)
      ensures MinOf(fpsList) <= fps <= MaxOf(fpsList)
    {
      Mean(fpsList)
    }
  }
}
