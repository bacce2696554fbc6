/**
 * The game window's own logic: the screen shake (a burst of random offsets
 * after a shot, then a glide back to rest) and the frame pacing of the main
 * loop.  The random numbers are parameters, each in [0, 1) as
 * Random.nextDouble() gives them.
 */
module Games {
  import opened JavaLang

  const SHAKE_RETURN: real := 0.8
  const SHAKE_SCALE: real := 7.0
  const SHAKE_TIMER_INIT: int := 10
  const FPS_LIMIT: int := 60

  /** The shake flag, its timer and the offset the screen is drawn at. */
  datatype Shake = Shake(shaking: bool, timer: int, dx: real, dy: real)

  /** The state initialize() leaves: still, at rest. */
  const AT_REST: Shake := Shake(false, 0, 0.0, 0.0)

  /** One offset while shaking: (r - 1) scaled by the shake scale. */
  function Jolt(r: real): (o: real)
    ensures 0.0 <= r < 1.0 ==> -SHAKE_SCALE <= o < 0.0
  {
    (r - 1.0) * SHAKE_SCALE
  }

  /** One offset while not shaking: a positive one drops by the return step, then a negative one rises by it, stopping at zero. */
  function Settle(d: real): (r: real)
  {
    var d1 := if d > 0.0 then (if d - SHAKE_RETURN <= 0.0 then 0.0 else d - SHAKE_RETURN) else d;
    if d1 < 0.0 then (if d1 + SHAKE_RETURN >= 0.0 then 0.0 else d1 + SHAKE_RETURN) else d1
  }

  /** The offset moves toward zero by one return step and never crosses it. */
  lemma {:induction false} SettleTowardZero(d: real)
    ensures d >= 0.0 ==> 0.0 <= Settle(d) <= d
    ensures d <= 0.0 ==> d <= Settle(d) <= 0.0
    ensures -SHAKE_RETURN <= d <= SHAKE_RETURN ==> Settle(d) == 0.0
    ensures d > SHAKE_RETURN ==> Settle(d) == d - SHAKE_RETURN
    ensures d < -SHAKE_RETURN ==> Settle(d) == d + SHAKE_RETURN
  {
  }

  /** doShake(), with r1 and r2 the two random draws. */
  function Shaken(s: Shake, r1: real, r2: real): (r: Shake)
    ensures s.shaking ==> r.dx == Jolt(r1) && r.dy == Jolt(r2)
    ensures s.shaking ==> (r.shaking <==> s.timer > 0) && r.timer == (if s.timer > 0 then s.timer - 1 else s.timer)
    ensures !s.shaking ==> r == Shake(false, s.timer, Settle(s.dx), Settle(s.dy))
  {
    if s.shaking then
      Shake(s.timer > 0, if s.timer > 0 then s.timer - 1 else s.timer, Jolt(r1), Jolt(r2))
    else
      s.(dx := Settle(s.dx), dy := Settle(s.dy))
  }

  /** shakeScreen(). */
  function Started(s: Shake): (r: Shake)
    ensures r.shaking && r.timer == SHAKE_TIMER_INIT && r.dx == s.dx && r.dy == s.dy
  {
    s.(shaking := true, timer := SHAKE_TIMER_INIT)
  }

  /** doShake() once per pair of draws, in order. */
  function Shakes(s: Shake, draws: seq<(real, real)>): Shake
    decreases |draws|
  {
    if draws == [] then s
    else
      var last := draws[|draws| - 1];
      Shaken(Shakes(s, draws[..|draws| - 1]), last.0, last.1)
  }

  /**
   * After shakeScreen() the next 11 frames shake: the first ten count the
   * timer down, the eleventh stops the shake; each of them draws fresh
   * offsets in [-7, 0).
   */
  lemma {:induction false} ElevenShakingFrames(s: Shake, draws: seq<(real, real)>)
    requires |draws| <= SHAKE_TIMER_INIT + 1
    ensures var t := Shakes(Started(s), draws);
      (|draws| <= SHAKE_TIMER_INIT ==> t.shaking && t.timer == SHAKE_TIMER_INIT - |draws|) &&
      (|draws| == SHAKE_TIMER_INIT + 1 ==> !t.shaking && t.timer == 0) &&
      (|draws| > 0 ==> t.dx == Jolt(draws[|draws| - 1].0) && t.dy == Jolt(draws[|draws| - 1].1))
    decreases |draws|
  {
    if draws != [] {
      ElevenShakingFrames(s, draws[..|draws| - 1]);
    }
  }

  /** n frames without shaking. */
  function Calm(s: Shake, n: nat): Shake
    decreases n
  {
    if n == 0 then s else Shaken(Calm(s, n - 1), 0.0, 0.0)
  }

  /** Without shaking, an offset of at most n return steps is back at zero after n frames, and the timer is untouched. */
  lemma {:induction false} CalmRecentres(s: Shake, n: nat)
    requires !s.shaking
    requires -(n as real) * SHAKE_RETURN <= s.dx <= (n as real) * SHAKE_RETURN
    requires -(n as real) * SHAKE_RETURN <= s.dy <= (n as real) * SHAKE_RETURN
    ensures Calm(s, n) == Shake(false, s.timer, 0.0, 0.0)
    decreases n
  {
    if n > 0 {
      var s1 := Shaken(s, 0.0, 0.0);
      SettleTowardZero(s.dx);
      SettleTowardZero(s.dy);
      var m := (n - 1) as real;
      assert -m * SHAKE_RETURN <= s1.dx <= m * SHAKE_RETURN;
      assert -m * SHAKE_RETURN <= s1.dy <= m * SHAKE_RETURN;
      CalmFirst(s, n - 1);
      CalmRecentres(s1, n - 1);
    }
  }

  /** Calm frames can be counted from the first one. */
  lemma {:induction false} CalmFirst(s: Shake, n: nat)
    requires !s.shaking
    ensures Calm(s, n + 1) == Calm(Shaken(s, 0.0, 0.0), n)
    decreases n
  {
    if n > 0 {
      CalmFirst(s, n - 1);
    }
  }

  /** The offset renderScreen() draws at: both coordinates cast to int. */
  function ScreenOffset(s: Shake): (o: (int, int))
    ensures -SHAKE_SCALE <= s.dx < 0.0 ==> -7 <= o.0 <= 0
    ensures -SHAKE_SCALE <= s.dy < 0.0 ==> -7 <= o.1 <= 0
    ensures s.dx == 0.0 && s.dy == 0.0 ==> o == (0, 0)
  {
    (Trunc(s.dx), Trunc(s.dy))
  }

  /**
   * The pause run() makes after a frame that took `elapsedNs` nanoseconds:
   * the frame budget 1000 / 60 ms less the whole milliseconds used, and no
   * pause once the budget is spent.
   */
  function FrameWait(elapsedNs: int): (w: int)
    ensures w >= 0
    ensures elapsedNs >= 0 ==> w <= 16
    ensures 0 <= elapsedNs < 1_000_000 ==> w == 16
    ensures elapsedNs >= 16_000_000 ==> w == 0
  {
    var budget := IDiv(1000, FPS_LIMIT);
    var wait := budget - IDiv(elapsedNs, 1_000_000);
    if wait < 0 then 0 else wait
  }

  /** A slower frame never waits longer, and the frame and its wait together fill the budget while there is one. */
  lemma {:induction false} FrameWaitMonotone(a: int, b: int)
    requires 0 <= a <= b
    ensures FrameWait(b) <= FrameWait(a)
    ensures a < 17_000_000 ==> FrameWait(a) + a / 1_000_000 == 16
  {
    assert a / 1_000_000 <= b / 1_000_000;
  }

  /** The screen-shake part of Game. */
  class Game {
    var shake: bool
    var shakeReturn: real
    var shakeScale: real
    var shakeTimer: int
    var shakeTimerInit: int
    var shakeX: real
    var shakeY: real
    var quit: bool

    function Shaking(): Shake
      reads this
    {
      Shake(shake, shakeTimer, shakeX, shakeY)
    }

    /** The tuning initialize() sets and nothing changes afterwards. */
    ghost predicate Tuned()
      reads this
    {
      shakeReturn == SHAKE_RETURN && shakeScale == SHAKE_SCALE && shakeTimerInit == SHAKE_TIMER_INIT
    }

    /** Game() and initialize(), of which the model keeps the shake settings. */
    constructor ()
      ensures Tuned() && Shaking() == AT_REST && !quit
    {
      quit := false;
      shake := false;
      shakeReturn := 0.8;
      shakeX, shakeY := 0.0, 0.0;
      shakeTimer := 0;
      shakeTimerInit := 10;
      shakeScale := 7.0;
    }

    /** doShake(). */
    method DoShake(r1: real, r2: real)
      requires Tuned()
      modifies this
      ensures Tuned() && quit == old(quit) && Shaking() == Shaken(old(Shaking()), r1, r2)
    {
      var dx := shakeX;
      var dy := shakeY;
      if shake {
        dx := (r1 - 1.0) * shakeScale;
        dy := (r2 - 1.0) * shakeScale;
        if shakeTimer > 0 {
          shakeTimer := shakeTimer - 1;
        } else {
          shake := false;
        }
      } else {
        dx := Relax(dx);
        dy := Relax(dy);
      }
      shakeX, shakeY := dx, dy;
    }

    /** The four steps doShake() takes on each offset when not shaking. */
    method Relax(d0: real) returns (d: real)
      requires Tuned()
      ensures d == Settle(d0)
    {
      d := d0;
      if d > 0.0 {
        d := d - shakeReturn;
        if d <= 0.0 {
          d := 0.0;
        }
      }
      if d < 0.0 {
        d := d + shakeReturn;
        if d >= 0.0 {
          d := 0.0;
        }
      }
    }

    /** shakeScreen(). */
    method ShakeScreen()
      requires Tuned()
      modifies this
      ensures Tuned() && quit == old(quit) && Shaking() == Started(old(Shaking()))
    {
      shake := true;
      shakeTimer := shakeTimerInit;
    }

    /** renderScreen(): the shake step, then the offset the buffer is drawn at. */
    method RenderScreen(r1: real, r2: real) returns (shx: int, shy: int)
      requires Tuned()
      modifies this
      ensures Tuned() && quit == old(quit) && Shaking() == Shaken(old(Shaking()), r1, r2)
      ensures (shx, shy) == ScreenOffset(Shaking())
    {
      DoShake(r1, r2);
      shx := Trunc(shakeX);
      shy := Trunc(shakeY);
    }
  }
}

/** GameMain: the window scale, read from the first command-line argument. */
module Launcher {
  import opened JavaLang

  const DEFAULT_SCALE: int := 2

  /** The scale after main(args) read its arguments: a positive whole number in args[0] replaces `scale`; anything else leaves it. */
  function ScaleFrom(args: seq<string>, scale: int): (r: int)
    ensures r == scale || (|args| > 0 && ParseInt(args[0]) == Some(r) && r > 0)
    ensures |args| > 0 && ParseInt(args[0]).Some? && ParseInt(args[0]).value > 0 ==> r == ParseInt(args[0]).value
    ensures scale > 0 ==> r > 0
  {
    if |args| > 0 then
      match ParseInt(args[0])
      case Some(ts) => if ts > 0 then ts else scale
      case None => scale
    else scale
  }

  /** Any positive int written out as args[0] becomes the scale, whatever follows it; the scale stays positive. */
  lemma {:induction false} WrittenScaleIsRead(n: int, rest: seq<string>, scale: int)
    requires 0 < n <= INT_MAX
    ensures ScaleFrom([IntToString(n)] + rest, scale) == n
  {
    ParseIntToString(n);
    assert ([IntToString(n)] + rest)[0] == IntToString(n);
  }

  /** GameMain, with the static WIN_S as its field. */
  class GameMain {
    var scale: int

    constructor ()
      ensures scale == DEFAULT_SCALE
    {
      scale := 2;
    }

    /** The argument handling of main(args); the window it then opens is not modelled. */
    method ReadArgs(args: seq<string>)
      modifies this
      ensures scale == ScaleFrom(args, old(scale))
    {
      if |args| > 0 {
        var parsed := ParseInt(args[0]);
        if parsed.Some? {
          var ts := parsed.value;
          if ts > 0 {
            scale := ts;
          }
        }
      }
    }

    /** getScale(). */
    method GetScale() returns (s: int)
      ensures s == scale
    {
      s := scale;
    }
  }
}
