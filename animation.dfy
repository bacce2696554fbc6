/**
 * Animation clips.  A clip is a list of tile numbers and a clock: every
 * request for the frame to draw adds one to a delay counter, and when the
 * counter reaches the clip's delay limit the clip moves on one frame, either
 * wrapping round (a looping clip) or stopping on the last frame and
 * remembering that it has played once.
 *
 * Clock is the value of a clip; the functions on it are what the Animation
 * class's methods are proved against, and what the game objects, which hold
 * their clips as values, use directly.
 */
module Animations {
  import opened JavaLang

  /** The delay limit every new or reloaded clip starts with. */
  const DEFAULT_DELAY_LIMIT: int := 20

  datatype Clock = Clock(
    frames: seq<int>,
    current: int,
    delay: int,
    delayLimit: int,
    loop: bool,
    playedOnce: bool)

  /** A clip whose current frame can be drawn. */
  predicate WellFormed(c: Clock) {
    |c.frames| > 0 && 0 <= c.current < |c.frames|
  }

  /** Animation(int[] frames): a looping clip on the first frame. */
  function NewClip(frames: seq<int>): (c: Clock)
    ensures c.frames == frames && c.current == 0 && c.delay == 0
    ensures c.delayLimit == DEFAULT_DELAY_LIMIT && c.loop && !c.playedOnce
    ensures |frames| > 0 ==> WellFormed(c)
  {
    Clock(frames, 0, 0, DEFAULT_DELAY_LIMIT, true, false)
  }

  /** The frames first, first + 1, ..., first + n - 1. */
  function FrameRange(first: int, n: nat): (s: seq<int>)
    ensures |s| == n && forall i :: 0 <= i < n ==> s[i] == first + i
  {
    seq(n, i => first + i)
  }

  /** Animation(firstFrame, numFrames). */
  function RangeClip(first: int, n: nat): Clock {
    NewClip(FrameRange(first, n))
  }

  function OnceClip(c: Clock): Clock { c.(loop := false) }

  function LoopClip(c: Clock): Clock { c.(loop := true) }

  function WithDelayLimit(c: Clock, limit: int): Clock { c.(delayLimit := limit) }

  /** loadFrames(int[]): new frames, back on the first one; looping, the delay counter and playedOnce are kept. */
  function Reloaded(c: Clock, frames: seq<int>): (r: Clock)
    ensures r.frames == frames && r.current == 0 && r.delayLimit == DEFAULT_DELAY_LIMIT
    ensures r.delay == c.delay && r.loop == c.loop && r.playedOnce == c.playedOnce
  {
    c.(frames := frames, current := 0, delayLimit := DEFAULT_DELAY_LIMIT)
  }

  /** loadFrames(firstFrame, numFrames). */
  function ReloadedRange(c: Clock, first: int, n: nat): Clock {
    Reloaded(c, FrameRange(first, n))
  }

  /** reset(): back to the first frame; the delay counter is not cleared. */
  function Rewound(c: Clock): (r: Clock)
    ensures r.current == 0 && r.frames == c.frames && r.delay == c.delay
    ensures r.loop == c.loop && r.playedOnce == c.playedOnce && r.delayLimit == c.delayLimit
  {
    c.(current := 0)
  }

  /**
   * nextFrame(): one tick of the clip's clock.  The frame moves only on the
   * tick that brings the delay counter to the limit, and then the counter
   * starts again from 0.
   */
  function Advance(c: Clock): (r: Clock)
    requires |c.frames| > 0
    ensures r.frames == c.frames && r.loop == c.loop && r.delayLimit == c.delayLimit
    ensures c.delay + 1 < c.delayLimit ==> r == c.(delay := c.delay + 1)
    ensures c.delay + 1 >= c.delayLimit ==> r.delay == 0
    ensures c.playedOnce ==> r.playedOnce
    ensures WellFormed(c) ==> WellFormed(r)
    ensures WellFormed(c) && r.playedOnce && !c.playedOnce ==> !c.loop && c.current == |c.frames| - 1
  {
    var d := c.delay + 1;
    if d >= c.delayLimit then
      var f := c.current + 1;
      if c.loop then c.(current := IRem(f, |c.frames|), delay := 0)
      else if f >= |c.frames| then c.(current := |c.frames| - 1, playedOnce := true, delay := 0)
      else c.(current := f, delay := 0)
    else c.(delay := d)
  }

  /** getFrame(): tick the clock, then hand out the tile number of the current frame. */
  function Drawn(c: Clock): (r: (Clock, int))
    requires WellFormed(c)
    ensures r.0 == Advance(c) && WellFormed(r.0)
    ensures r.1 in c.frames && r.1 == c.frames[r.0.current]
  {
    var c' := Advance(c);
    (c', c'.frames[c'.current])
  }

  /** `k` ticks of the clock. */
  function Iterate(c: Clock, k: nat): (r: Clock)
    requires |c.frames| > 0
    ensures r.frames == c.frames && r.loop == c.loop && r.delayLimit == c.delayLimit
  {
    if k == 0 then c else Advance(Iterate(c, k - 1))
  }

  /** One more tick: either within the same delay period or the first of the next. */
  lemma DivStep(k: nat, d: int)
    requires d >= 1
    ensures k % d + 1 < d ==> (k + 1) / d == k / d && (k + 1) % d == k % d + 1
    ensures k % d + 1 >= d ==> (k + 1) / d == k / d + 1 && (k + 1) % d == 0
  {
    var q, r := k / d, k % d;
    assert k == q * d + r && 0 <= r < d;
    if r + 1 < d {
      DivModUnique(k + 1, d, q, r + 1);
    } else {
      assert k + 1 == (q + 1) * d + 0;
      DivModUnique(k + 1, d, q + 1, 0);
    }
  }

  lemma ModStep(a: nat, n: int)
    requires n >= 1
    ensures (a % n + 1) % n == (a + 1) % n
  {
    var q, r := a / n, a % n;
    assert a == q * n + r && 0 <= r < n;
    if r + 1 < n {
      DivModUnique(a + 1, n, q, r + 1);
      DivModUnique(r + 1, n, 0, r + 1);
    } else {
      assert a + 1 == (q + 1) * n + 0;
      DivModUnique(a + 1, n, q + 1, 0);
      DivModUnique(r + 1, n, 1, 0);
    }
  }

  /**
   * A looping clip started on its first frame with a cleared counter and a
   * positive delay limit d shows frame (k / d) mod n after k ticks.
   */
  lemma {:induction false} LoopingClock(c: Clock, k: nat)
    requires |c.frames| > 0 && c.current == 0 && c.delay == 0 && c.delayLimit >= 1 && c.loop
    ensures Iterate(c, k).current == (k / c.delayLimit) % |c.frames|
    ensures Iterate(c, k).delay == k % c.delayLimit
  {
    var d, n := c.delayLimit, |c.frames|;
    if k > 0 {
      LoopingClock(c, k - 1);
      var p := Iterate(c, k - 1);
      DivStep(k - 1, d);
      if (k - 1) % d + 1 >= d {
        ModStep((k - 1) / d, n);
      }
    }
  }

  /**
   * A clip set to play once, started on its first frame with a cleared
   * counter, a positive delay limit d and playedOnce false: after k ticks it
   * shows frame min(k / d, n - 1), and it reports having played once exactly
   * when k / d >= n.
   */
  lemma {:induction false} PlayOnceClock(c: Clock, k: nat)
    requires |c.frames| > 0 && c.current == 0 && c.delay == 0 && c.delayLimit >= 1
    requires !c.loop && !c.playedOnce
    ensures Iterate(c, k).current == if k / c.delayLimit < |c.frames| then k / c.delayLimit else |c.frames| - 1
    ensures Iterate(c, k).playedOnce <==> k / c.delayLimit >= |c.frames|
    ensures Iterate(c, k).delay == k % c.delayLimit
  {
    var d, n := c.delayLimit, |c.frames|;
    if k > 0 {
      PlayOnceClock(c, k - 1);
      DivStep(k - 1, d);
      var p := Iterate(c, k - 1);
      var q := (k - 1) / d;
      assert Iterate(c, k) == Advance(p);
      if p.delay + 1 >= d {
        assert k / d == q + 1;
        if q + 1 >= n {
          assert Advance(p).current == n - 1;
        } else {
          assert p.current == q && !p.playedOnce;
          assert Advance(p).current == q + 1 && !Advance(p).playedOnce;
        }
      } else {
        assert k / d == q;
        assert Advance(p) == p.(delay := p.delay + 1);
      }
    }
  }

  /** A clip object over an array of frames. */
  class Animation {
    var frames: array<int>
    var currentFrame: int
    var numFrames: int
    var loop: bool
    var playedOnce: bool
    var delay: int
    var delayLimit: int

    ghost predicate Valid()
      reads this
    {
      numFrames == frames.Length
    }

    /** The clip's value. */
    function Value(): (c: Clock)
      reads this, frames
      ensures |c.frames| == frames.Length
    {
      Clock(frames[..], currentFrame, delay, delayLimit, loop, playedOnce)
    }

    /** Animation(int[] frames); the model copies the frames into an array of its own. */
    constructor FromArray(fs: seq<int>)
      ensures Valid() && fresh(frames)
      ensures Value() == NewClip(fs)
    {
      frames := new int[|fs|](i requires 0 <= i < |fs| => fs[i]);
      numFrames := |fs|;
      currentFrame := 0;
      delay := 0;
      delayLimit := DEFAULT_DELAY_LIMIT;
      loop := true;
      playedOnce := false;
      new;
      assert frames[..] == fs;
    }

    /** Animation(firstFrame, numFrames): the frames are filled in by a loop. */
    constructor FromRange(first: int, n: int)
      requires n >= 0
      ensures Valid() && fresh(frames)
      ensures Value() == RangeClip(first, n)
    {
      var a := new int[n];
      var i := 0;
      while i < n
        invariant 0 <= i <= n
        invariant forall j :: 0 <= j < i ==> a[j] == first + j
      {
        a[i] := first + i;
        i := i + 1;
      }
      frames := a;
      numFrames := n;
      currentFrame := 0;
      delay := 0;
      delayLimit := DEFAULT_DELAY_LIMIT;
      loop := true;
      playedOnce := false;
      new;
      assert frames[..] == FrameRange(first, n);
    }

    method PlayOnce()
      modifies this
      ensures Valid() == old(Valid()) && frames == old(frames)
      ensures Value() == OnceClip(old(Value()))
    {
      loop := false;
    }

    method PlayLoop()
      modifies this
      ensures Valid() == old(Valid()) && frames == old(frames)
      ensures Value() == LoopClip(old(Value()))
    {
      loop := true;
    }

    method SetDelayLimit(limit: int)
      modifies this
      ensures Valid() == old(Valid()) && frames == old(frames)
      ensures Value() == WithDelayLimit(old(Value()), limit)
    {
      delayLimit := limit;
    }

    /** loadFrames(int[]). */
    method LoadFrames(fs: seq<int>)
      modifies this
      ensures Valid() && fresh(frames)
      ensures Value() == Reloaded(old(Value()), fs)
    {
      frames := new int[|fs|](i requires 0 <= i < |fs| => fs[i]);
      currentFrame := 0;
      numFrames := |fs|;
      delayLimit := DEFAULT_DELAY_LIMIT;
      assert frames[..] == fs;
    }

    /** loadFrames(firstFrame, numFrames). */
    method LoadRange(first: int, n: int)
      requires n >= 0
      modifies this
      ensures Valid() && fresh(frames)
      ensures Value() == ReloadedRange(old(Value()), first, n)
    {
      var a := new int[n];
      var i := 0;
      while i < n
        modifies a
        invariant 0 <= i <= n
        invariant forall j :: 0 <= j < i ==> a[j] == first + j
      {
        a[i] := first + i;
        i := i + 1;
      }
      numFrames := n;
      frames := a;
      currentFrame := 0;
      delayLimit := DEFAULT_DELAY_LIMIT;
      assert frames[..] == FrameRange(first, n);
    }

    /** nextFrame(). */
    method NextFrame()
      requires Valid() && numFrames > 0
      modifies this
      ensures Valid() && frames == old(frames)
      ensures Value() == Advance(old(Value()))
    {
      delay := delay + 1;
      if delay >= delayLimit {
        currentFrame := currentFrame + 1;
        if loop {
          currentFrame := IRem(currentFrame, numFrames);
        } else {
          if currentFrame >= numFrames {
            currentFrame := numFrames - 1;
            playedOnce := true;
          }
        }
        delay := 0;
      }
    }

    /** getFrame(). */
    method GetFrame() returns (f: int)
      requires Valid() && WellFormed(Value())
      modifies this
      ensures Valid() && frames == old(frames)
      ensures (Value(), f) == Drawn(old(Value()))
    {
      NextFrame();
      f := frames[currentFrame];
    }

    /** hasPlayedOnce(): whether the clip has run past its last frame since it was made. */
    function HasPlayedOnce(): (r: bool)
      reads this, frames
      ensures r == Value().playedOnce
    {
      playedOnce
    }

    /** reset(). */
    method Reset()
      modifies this
      ensures Valid() == old(Valid()) && frames == old(frames)
      ensures Value() == Rewound(old(Value()))
    {
      currentFrame := 0;
    }
  }
}
