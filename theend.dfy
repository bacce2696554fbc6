/**
 * The end screen: four pages shown in turn, each for a thousand frames or
 * until the jump key skips to the next.  The page timer advances as the
 * screen is drawn; the screen's objects are only ever drawn, never updated.
 */
module EndScreens {
  import opened KeyCodes
  import Progress
  import PlayerSaves

  const TIMER_PAGES: int := 4
  const TIMER_LIMIT: int := 1000

  /** The page and the frame counter. */
  datatype Timer = Timer(page: int, counter: int)

  predicate InRange(t: Timer) {
    0 <= t.page < TIMER_PAGES && 0 <= t.counter < TIMER_LIMIT
  }

  /** nextPage(force): count the frame; at the limit, or when forced, turn the page and restart the count. */
  function Turned(t: Timer, force: bool): (r: Timer)
    ensures InRange(t) ==> InRange(r)
    ensures force ==> r == Timer((t.page + 1) % TIMER_PAGES, 0)
    ensures !force && t.counter + 1 < TIMER_LIMIT ==> r == Timer(t.page, t.counter + 1)
  {
    var c := t.counter + 1;
    if c >= TIMER_LIMIT || force then Timer((t.page + 1) % TIMER_PAGES, 0) else Timer(t.page, c)
  }

  /** k frames without a skip. */
  function Frames(t: Timer, k: nat): (r: Timer)
    ensures InRange(t) ==> InRange(r)
    decreases k
  {
    if k == 0 then t else Turned(Frames(t, k - 1), false)
  }

  /** From a fresh count, the first 999 frames keep the page and the 1000th turns it. */
  lemma {:induction false} EveryThousandthFrame(t: Timer, k: nat)
    requires InRange(t) && t.counter == 0 && k <= TIMER_LIMIT
    ensures k < TIMER_LIMIT ==> Frames(t, k) == Timer(t.page, k)
    ensures k == TIMER_LIMIT ==> Frames(t, k) == Timer((t.page + 1) % TIMER_PAGES, 0)
    decreases k
  {
    if k > 0 {
      EveryThousandthFrame(t, k - 1);
    }
  }

  /** Four skips come back to the first page shown. */
  lemma {:induction false} FourSkipsComeBack(t: Timer)
    requires InRange(t)
    ensures Turned(Turned(Turned(Turned(t, true), true), true), true) == Timer(t.page, 0)
  {
  }

  /** StateTheEnd. */
  class TheEnd {
    var timerPage: int
    var timerCounter: int

    function Timed(): Timer
      reads this
    {
      Timer(timerPage, timerCounter)
    }

    ghost predicate Valid()
      reads this
    {
      InRange(Timed())
    }

    /** StateTheEnd(sm): the base constructor takes the key away; the timer starts at page 0. */
    constructor (save: PlayerSaves.PlayerSave)
      modifies save
      ensures Valid() && Timed() == Timer(0, 0)
      ensures save.Abs() == Progress.Reset(old(save.Abs()))
    {
      save.Reset();
      timerPage := 0;
      timerCounter := 0;
    }

    /** nextPage(force). */
    method NextPage(force: bool)
      modifies this
      ensures Timed() == Turned(old(Timed()), force)
    {
      timerCounter := timerCounter + 1;
      if timerCounter >= TIMER_LIMIT || force {
        timerPage := timerPage + 1;
        timerPage := timerPage % TIMER_PAGES;
        timerCounter := 0;
      }
    }

    /** endScreens(): the page drawn this frame (4 pages; any other draws nothing), then the timer. */
    method EndScreen() returns (shown: int)
      requires Valid()
      modifies this
      ensures Valid() && shown == old(timerPage) && Timed() == Turned(old(Timed()), false)
    {
      shown := timerPage;
      NextPage(false);
    }

    /** keyPressed(key): fire goes back to the menu; jump turns the page at once. */
    method KeyPressed(key: int) returns (toMenu: bool)
      requires Valid()
      modifies this
      ensures Valid() && toMenu == IsFire(key)
      ensures IsJump(key) ==> Timed() == Turned(old(Timed()), true)
      ensures !IsJump(key) ==> Timed() == old(Timed())
    {
      toMenu := key == VK_Z || key == VK_C;
      if key == VK_X || key == VK_SPACE {
        NextPage(true);
      }
    }
  }
}
