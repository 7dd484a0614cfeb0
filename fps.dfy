/** The frame-time window of the FPS counter (src/gui/fps.rs): the durations of
    the most recent frames, at most eight of them, oldest first. */
module Fps {
  import opened Scalar

  const MAX_FRAME_TIMES: nat := 8

  /** The last `n` elements of `s`, in order (all of `s` if it is shorter). */
  function LastN<X>(s: seq<X>, n: nat): (r: seq<X>)
    ensures |r| == if |s| <= n then |s| else n
    ensures r <= s[|s| - |r|..]
  {
    if |s| <= n then s else s[|s| - n..]
  }

  /** Appending one element and dropping the oldest once the window overflows keeps a
      window of the last `n` elements. */
  lemma {:induction false} LastNStep<X>(s: seq<X>, x: X, n: nat)
    requires n > 0
    ensures var w := LastN(s, n) + [x];
      LastN(s + [x], n) == if |w| > n then w[1..] else w
  {
    var w := LastN(s, n) + [x];
    var t := s + [x];
    if |s| < n {
      assert w == t;
    } else {
      assert |w| == n + 1;
      assert t[|t| - n..] == s[|s| - n + 1..] + [x];
      assert w[1..] == s[|s| - n..][1..] + [x];
    }
  }

  class FpsCounter {
    /** `frame_times`, oldest first. */
    var frameTimes: seq<F32>
    /** Every duration passed to `update`, oldest first. */
    ghost var arrivals: seq<F32>

    /** The window holds the last (at most) eight durations received, in arrival order. */
    ghost predicate Valid()
      reads this
    {
      frameTimes == LastN(arrivals, MAX_FRAME_TIMES)
    }

    /** `FpsCounter::new`: an empty window. */
    constructor ()
      ensures Valid() && frameTimes == [] && arrivals == []
    {
      frameTimes := [];
      arrivals := [];
    }

    /** `FpsCounter::update`: appends `dt` and drops the oldest duration only when the
        window would hold more than eight. */
    method Update(dt: F32)
      requires Valid()
      modifies this
      ensures Valid() && arrivals == old(arrivals) + [dt]
      ensures |frameTimes| <= MAX_FRAME_TIMES && frameTimes[|frameTimes| - 1] == dt
      ensures |old(frameTimes)| < MAX_FRAME_TIMES ==> frameTimes == old(frameTimes) + [dt]
      ensures |old(frameTimes)| == MAX_FRAME_TIMES ==> frameTimes == old(frameTimes)[1..] + [dt]
    {
      LastNStep(arrivals, dt, MAX_FRAME_TIMES);
      var window := frameTimes + [dt];
      if |window| > MAX_FRAME_TIMES {
        assert window[1..] == frameTimes[1..] + [dt];
        frameTimes := window[1..];
      } else {
        frameTimes := window;
      }
      arrivals := arrivals + [dt];
    }
  }
}
