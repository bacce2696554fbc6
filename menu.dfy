/**
 * The main menu: three options, a selection that cycles with wrap-around,
 * and the choice the fire keys make.  Choosing an option asks the level
 * manager for that option's screen, or ends the program; the menu hands
 * that request back to its caller.
 */
module Menus {
  import opened KeyCodes
  import Scenes
  import Progress
  import PlayerSaves

  /** An entry of the menu: its id, its label and the screen it leads to. */
  datatype Option = Option(id: int, text: string, nextState: int)

  /** What a key press on the menu asks for. */
  datatype Choice =
    | Stay
    | Exit
    | Goto(target: int, stopMusic: bool)

  /** initOptions(): game info, start game and exit, in that order. */
  function InitialOptions(): (r: seq<Option>)
    ensures |r| == 3 && forall i :: 0 <= i < 3 ==> r[i].id == i
    ensures r[0].nextState == Scenes.LEVEL_INFO && r[1].nextState == Scenes.LEVEL_1 && r[2].nextState == 0
  {
    [Option(0, "GAME  INFO", Scenes.LEVEL_INFO),
     Option(1, "START GAME", Scenes.LEVEL_1),
     Option(2, "EXIT  GAME", 0)]
  }

  /** The selection after initOptions(). */
  const FIRST_SELECTION: int := 1

  /** nextOption() on a list of n options. */
  function Next(sel: int, n: int): (r: int)
    requires 0 <= sel < n
    ensures 0 <= r < n
    ensures r == (sel + 1) % n
  {
    if sel + 1 >= n then 0 else sel + 1
  }

  /** prevOption() on a list of n options. */
  function Prev(sel: int, n: int): (r: int)
    requires 0 <= sel < n
    ensures 0 <= r < n
    ensures r == (sel - 1) % n
  {
    if sel - 1 < 0 then n - 1 else sel - 1
  }

  /** Stepping down and then up, or up and then down, comes back to the same option. */
  lemma {:induction false} NextPrevInverse(sel: int, n: int)
    requires 0 <= sel < n
    ensures Prev(Next(sel, n), n) == sel
    ensures Next(Prev(sel, n), n) == sel
  {
    if sel + 1 >= n {
      assert Next(sel, n) == 0;
    }
    if sel == 0 {
      assert Prev(sel, n) == n - 1;
    }
  }

  /** k presses of the down key. */
  function Steps(sel: int, n: int, k: nat): (r: int)
    requires 0 <= sel < n
    ensures 0 <= r < n
    decreases k
  {
    if k == 0 then sel else Next(Steps(sel, n, k - 1), n)
  }

  /** Up to n presses of the down key move that many options on, wrapping once past the last; n presses come back. */
  lemma {:induction false} DownCycles(sel: int, n: int, k: nat)
    requires 0 <= sel < n && k <= n
    ensures Steps(sel, n, k) == if sel + k < n then sel + k else sel + k - n
    ensures k == n ==> Steps(sel, n, k) == sel
    decreases k
  {
    if k > 0 {
      DownCycles(sel, n, k - 1);
    }
  }

  /**
   * selectOption(): the selected option's id 2 ends the program; any other
   * asks for its screen, stopping the menu music unless it is option 0.
   * A selection outside the list chooses nothing.
   */
  function Select(options: seq<Option>, sel: int): (r: Choice)
    ensures r.Exit? <==> 0 <= sel < |options| && options[sel].id == 2
    ensures r.Goto? ==> 0 <= sel < |options| && r.target == options[sel].nextState && (r.stopMusic <==> sel != 0)
    ensures r.Stay? <==> !(0 <= sel < |options|)
  {
    if 0 <= sel < |options| then
      if options[sel].id == 2 then Exit else Goto(options[sel].nextState, sel != 0)
    else Stay
  }

  /** On the initial options: info, then a new game with the music stopped, then the exit. */
  lemma {:induction false} InitialChoices()
    ensures Select(InitialOptions(), 0) == Goto(Scenes.LEVEL_INFO, false)
    ensures Select(InitialOptions(), 1) == Goto(Scenes.LEVEL_1, true)
    ensures Select(InitialOptions(), 2) == Exit
  {
    var o := InitialOptions();
    assert o[0].id == 0 && o[1].id == 1 && o[2].id == 2;
  }

  /** The selection after a key press: down steps forward, up steps back. */
  function MenuKey(sel: int, n: int, key: int): (r: int)
    requires 0 <= sel < n
    ensures 0 <= r < n
    ensures key != VK_DOWN && key != VK_UP ==> r == sel
  {
    var s1 := if key == VK_DOWN then Next(sel, n) else sel;
    if key == VK_UP then Prev(s1, n) else s1
  }

  /** StateMainMenu. */
  class MainMenu {
    var options: seq<Option>
    var selectedOption: int
    /** The background layers' files, in the order added, behind and in front of the playground. */
    var background: seq<string>
    var foreground: seq<string>

    ghost predicate Valid()
      reads this
    {
      options == InitialOptions() && 0 <= selectedOption < |options|
    }

    /** StateMainMenu(sm): the base constructor takes the key away, then the resources are made. */
    constructor (save: PlayerSaves.PlayerSave)
      modifies save
      ensures Valid() && selectedOption == FIRST_SELECTION
      ensures background == ["backgroundbluesky.xml", "backgroundsun.xml"] && foreground == ["backgroundclouds.xml"]
      ensures save.Abs() == Progress.Reset(old(save.Abs()))
    {
      save.Reset();
      background := [];
      foreground := [];
      options := [];
      selectedOption := 0;
      new;
      InitResources();
    }

    /** initResources(): the layers are appended, and the options rebuilt. */
    method InitResources()
      modifies this
      ensures Valid() && selectedOption == FIRST_SELECTION
      ensures background == old(background) + ["backgroundbluesky.xml", "backgroundsun.xml"]
      ensures foreground == old(foreground) + ["backgroundclouds.xml"]
    {
      background := background + ["backgroundbluesky.xml"];
      background := background + ["backgroundsun.xml"];
      foreground := foreground + ["backgroundclouds.xml"];
      InitOptions();
    }

    /** initOptions(). */
    method InitOptions()
      modifies this
      ensures Valid() && selectedOption == FIRST_SELECTION
      ensures background == old(background) && foreground == old(foreground)
    {
      options := [];
      options := options + [Option(0, "GAME  INFO", Scenes.LEVEL_INFO)];
      options := options + [Option(1, "START GAME", Scenes.LEVEL_1)];
      options := options + [Option(2, "EXIT  GAME", 0)];
      selectedOption := 1;
    }

    /** reset(): initResources() again, so the layers are added a second time. */
    method Reset()
      modifies this
      ensures Valid() && selectedOption == FIRST_SELECTION
      ensures background == old(background) + ["backgroundbluesky.xml", "backgroundsun.xml"]
      ensures foreground == old(foreground) + ["backgroundclouds.xml"]
    {
      InitResources();
    }

    /** nextOption(). */
    method NextOption()
      requires Valid()
      modifies this
      ensures Valid() && selectedOption == Next(old(selectedOption), |options|)
      ensures background == old(background) && foreground == old(foreground)
    {
      selectedOption := selectedOption + 1;
      if selectedOption >= |options| {
        selectedOption := 0;
      }
    }

    /** prevOption(). */
    method PrevOption()
      requires Valid()
      modifies this
      ensures Valid() && selectedOption == Prev(old(selectedOption), |options|)
      ensures background == old(background) && foreground == old(foreground)
    {
      selectedOption := selectedOption - 1;
      if selectedOption < 0 {
        selectedOption := |options| - 1;
      }
    }

    /** selectOption(): the loop over the option ids, acting on the one selected. */
    method SelectOption() returns (c: Choice)
      ensures c == Select(options, selectedOption)
    {
      c := Stay;
      var id := 0;
      while id < |options|
        invariant 0 <= id <= |options|
        invariant c == if 0 <= selectedOption < id then Select(options, selectedOption) else Stay
      {
        if selectedOption == id {
          if options[selectedOption].id == 2 {
            return Exit;
          }
          c := Goto(options[selectedOption].nextState, id != 0);
        }
        id := id + 1;
      }
    }

    /** keyPressed(key). */
    method KeyPressed(key: int) returns (c: Choice)
      requires Valid()
      modifies this
      ensures Valid() && selectedOption == MenuKey(old(selectedOption), |options|, key)
      ensures background == old(background) && foreground == old(foreground)
      ensures c == if IsFire(key) then Select(options, selectedOption) else Stay
    {
      if key == VK_DOWN {
        NextOption();
      }
      if key == VK_UP {
        PrevOption();
      }
      c := Stay;
      if key == VK_Z || key == VK_C {
        c := SelectOption();
      }
    }
  }
}
