/**
 * A scrolling background layer: a position and a velocity in pixels; every
 * update moves the position by the velocity and wraps it once by the
 * current level's width in pixels, on both axes (the vertical axis wraps by
 * the width as well).  Loading the layer's room and drawing it are not part
 * of this model.
 */
module Backgrounds {
  import opened JavaLang
  import opened Bodies

  /** One axis of update(): move by `d`, then a single wrap by the period `w`. */
  function Scroll(v: real, d: real, w: real): (r: real)
  {
    var s := v + d;
    var s1 := if s < 0.0 then s + w else s;
    if s1 > w then s1 - w else s1
  }

  /**
   * A position inside [0, w] stays inside it for any velocity of at most one
   * period, and moves by exactly the velocity when that keeps it inside.
   */
  lemma {:induction false} ScrollStaysInBand(v: real, d: real, w: real)
    requires w >= 0.0 && 0.0 <= v <= w && -w <= d <= w
    ensures 0.0 <= Scroll(v, d, w) <= w
    ensures 0.0 <= v + d <= w ==> Scroll(v, d, w) == v + d
    ensures v + d < 0.0 ==> Scroll(v, d, w) == v + d + w
    ensures v + d > w ==> Scroll(v, d, w) == v + d - w
  {
    var s := v + d;
    if s < 0.0 {
      assert 0.0 <= s + w < w;
    } else if s > w {
      assert 0.0 < s - w <= w;
    }
  }

  /** Without a velocity the position does not move, wherever it is in the band. */
  lemma {:induction false} StillBackground(v: real, w: real)
    requires 0.0 <= v <= w
    ensures Scroll(v, 0.0, w) == v
  {
    assert !(v + 0.0 < 0.0) && !(v + 0.0 > w);
  }

  /** The background of a screen. */
  class Background {
    var coords: Vec
    var delta: Vec

    /** new Background(sm, file): at the origin and standing still. */
    constructor ()
      ensures coords == Vec(0.0, 0.0) && delta == Vec(0.0, 0.0)
    {
      coords := Vec(FMod(0.0, WIN_W as real), FMod(0.0, WIN_H as real));
      delta := Vec(FMod(0.0, WIN_W as real), FMod(0.0, WIN_H as real));
    }

    /** setPos(p): the position, reduced by the window size with Java's remainder. */
    method SetPos(p: Vec)
      modifies this
      ensures coords == Vec(FMod(p.x, WIN_W as real), FMod(p.y, WIN_H as real)) && delta == old(delta)
      ensures -(WIN_W as real) < coords.x < WIN_W as real && -(WIN_H as real) < coords.y < WIN_H as real
    {
      coords := Vec(FMod(p.x, WIN_W as real), FMod(p.y, WIN_H as real));
    }

    /** setVec(d): the velocity, reduced the same way. */
    method SetVec(d: Vec)
      modifies this
      ensures delta == Vec(FMod(d.x, WIN_W as real), FMod(d.y, WIN_H as real)) && coords == old(coords)
      ensures -(WIN_W as real) < delta.x < WIN_W as real && -(WIN_H as real) < delta.y < WIN_H as real
    {
      delta := Vec(FMod(d.x, WIN_W as real), FMod(d.y, WIN_H as real));
    }

    /** update(), given the current level's width in tiles. */
    method Update(widthTiles: int)
      modifies this
      ensures var w := (widthTiles * TILE_SIZE) as real;
        coords == Vec(Scroll(old(coords).x, delta.x, w), Scroll(old(coords).y, delta.y, w))
      ensures delta == old(delta)
    {
      var w := (widthTiles * TILE_SIZE) as real;
      var x, y := coords.x, coords.y;
      var dx, dy := delta.x, delta.y;
      x := x + dx;
      if x < 0.0 {
        x := x + w;
      }
      if x > w {
        x := x - w;
      }
      y := y + dy;
      if y < 0.0 {
        y := y + w;
      }
      if y > w {
        y := y - w;
      }
      coords := Vec(x, y);
    }
  }
}
