/** The menu automaton `MainFA` of code.py and the three-position selection
    cursor of its `UI`. Both are objects whose fields the source reassigns;
    each method is proved against a function that states the transition
    outright. */
module MainMenu {
  import opened Text

  /** The values of `MainFA.state`. */
  datatype FaState =
    | Invalid | Beacon | Xmit | Menu | Sequence | Free
    | MenuMode | MenuSettings | MenuPower

  /** The integer constant the source gives each state. */
  function Code(s: FaState): (r: int)
    ensures -1 <= r <= 7
    ensures r == -1 <==> s == Invalid
  {
    match s
    case Invalid => -1
    case Beacon => 0
    case Xmit => 1
    case Menu => 2
    case Sequence => 3
    case Free => 4
    case MenuMode => 5
    case MenuSettings => 6
    case MenuPower => 7
  }

  /** No two states share a constant, so comparing `state` against the
      constants tells the states apart. */
  lemma CodesDistinct(a: FaState, b: FaState)
    requires a != b
    ensures Code(a) != Code(b)
  {
  }

  /** Three display lines. */
  type Labels = (string, string, string)

  /** What `menu()` returns. */
  const MenuLabels: Labels := ("Mode", "Settings", "Power Off")

  /** The state `set_mode` selects. */
  function ModeState(mode: Option<string>): (r: FaState)
    ensures r == Beacon <==> mode == Some("beacon")
    ensures r == Sequence <==> mode == Some("sequence")
    ensures r == Free <==> mode == Some("free")
    ensures r == Menu <==> mode !in {Some("beacon"), Some("sequence"), Some("free")}
  {
    if mode == Some("beacon") then Beacon
    else if mode == Some("sequence") then Sequence
    else if mode == Some("free") then Free
    else Menu
  }

  /** The state and the answer of `select(idx)`. */
  function SelectSpec(s: FaState, idx: int): (r: (FaState, Option<Labels>))
    ensures s == Menu && 0 <= idx <= 2 ==>
      && r.0 == [MenuMode, MenuSettings, MenuPower][idx]
      && r.1 == Some([("Beacon", "Sequence", "Free"), ("SETTINGS HERE", "", ""), ("Powering Off", "", "")][idx])
    ensures s == MenuMode && 0 <= idx <= 2 ==>
      r == ([Beacon, Sequence, Free][idx], None)
    ensures !(s in {Menu, MenuMode} && 0 <= idx <= 2) ==> r == (s, None)
    ensures r.1.Some? <==> s == Menu && 0 <= idx <= 2
  {
    if s == Menu then
      if idx == 0 then (MenuMode, Some(("Beacon", "Sequence", "Free")))
      else if idx == 1 then (MenuSettings, Some(("SETTINGS HERE", "", "")))
      else if idx == 2 then (MenuPower, Some(("Powering Off", "", "")))
      else (s, None)
    else if s == MenuMode then
      if idx == 0 then (Beacon, None)
      else if idx == 1 then (Sequence, None)
      else if idx == 2 then (Free, None)
      else (s, None)
    else (s, None)
  }

  /** Two selections from the top menu always end in a leaf: a mode, the
      settings page or the power-off page, never back in a menu. */
  lemma SelectTwiceLeavesMenu(i: int, j: int)
    requires 0 <= i <= 2 && 0 <= j <= 2
    ensures var first := SelectSpec(Menu, i).0;
      SelectSpec(first, j).0 in {Beacon, Sequence, Free, MenuSettings, MenuPower}
  {
  }

  class MainFA {
    var state: FaState
    var seqIdx: int
    var theircall: string

    /** `MainFA.__init__` */
    constructor ()
      ensures state == Invalid && seqIdx == 5 && theircall == ""
    {
      state := Invalid;
      seqIdx := 5;
      theircall := "";
    }

    /** `MainFA.set_mode`: the configured mode picks the state; anything
        else, including no mode at all, opens the menu. */
    method SetMode(mode: Option<string>)
      modifies this`state
      ensures state == ModeState(mode)
    {
      if mode == Some("beacon") {
        state := Beacon;
      } else if mode == Some("sequence") {
        state := Sequence;
      } else if mode == Some("free") {
        state := Free;
      } else {
        state := Menu;
      }
    }

    /** `MainFA.menu`: open the menu from any state. */
    method OpenMenu() returns (labels: Labels)
      modifies this`state
      ensures state == Menu && labels == MenuLabels
    {
      state := Menu;
      return MenuLabels;
    }

    /** `MainFA.select`: in the menu, open a submenu and return its lines;
        in the mode submenu, pick a mode; otherwise do nothing. */
    method Select(idx: int) returns (labels: Option<Labels>)
      modifies this`state
      ensures (state, labels) == SelectSpec(old(state), idx)
    {
      labels := None;
      if state == Menu {
        if idx == 0 {
          state := MenuMode;
          return Some(("Beacon", "Sequence", "Free"));
        } else if idx == 1 {
          state := MenuSettings;
          return Some(("SETTINGS HERE", "", ""));
        } else if idx == 2 {
          state := MenuPower;
          return Some(("Powering Off", "", ""));
        }
      } else if state == MenuMode {
        if idx == 0 {
          state := Beacon;
        } else if idx == 1 {
          state := Sequence;
        } else if idx == 2 {
          state := Free;
        }
      }
    }
  }

  /** The cursor position after `selection_up` while the selector shows. */
  function Up(cur: int): (r: int)
    requires 0 <= cur <= 2
    ensures 0 <= r <= 2
    ensures r == (cur + 2) % 3
  {
    if cur == 0 then 2 else cur - 1
  }

  /** The cursor position after `selection_down` while the selector shows. */
  function Down(cur: int): (r: int)
    requires 0 <= cur <= 2
    ensures 0 <= r <= 2
    ensures r == (cur + 1) % 3
  {
    if cur == 2 then 0 else cur + 1
  }

  /** Up and down undo each other. */
  lemma UpDownInverse(cur: int)
    requires 0 <= cur <= 2
    ensures Down(Up(cur)) == cur && Up(Down(cur)) == cur
  {
  }

  /** Three steps in one direction come back to the start. */
  lemma ThreeStepsCycle(cur: int)
    requires 0 <= cur <= 2
    ensures Up(Up(Up(cur))) == cur && Down(Down(Down(cur))) == cur
  {
  }

  /** The selection cursor of `UI`: the `_cur` field and the selector
      group's `hidden` flag. */
  class Cursor {
    var cur: int
    var hidden: bool

    ghost predicate Valid()
      reads this
    {
      0 <= cur <= 2
    }

    /** The cursor starts on the first line. */
    constructor (hidden: bool)
      ensures Valid() && cur == 0 && this.hidden == hidden
    {
      cur := 0;
      this.hidden := hidden;
    }

    /** `UI.selection_up`: move up, wrapping from the first line to the
        last; nothing while the selector is hidden. */
    method SelectionUp()
      requires Valid()
      modifies this`cur
      ensures Valid()
      ensures cur == if hidden then old(cur) else Up(old(cur))
    {
      if !hidden {
        if cur == 0 {
          cur := 2;
        } else {
          cur := cur - 1;
        }
      }
    }

    /** `UI.selection_down`: move down, wrapping from the last line to the
        first; nothing while the selector is hidden. */
    method SelectionDown()
      requires Valid()
      modifies this`cur
      ensures Valid()
      ensures cur == if hidden then old(cur) else Down(old(cur))
    {
      if !hidden {
        if cur == 2 {
          cur := 0;
        } else {
          cur := cur + 1;
        }
      }
    }
  }

  /** Up followed by down puts the cursor back where it was. */
  method UpThenDown(c: Cursor)
    requires c.Valid()
    modifies c
    ensures c.Valid() && c.cur == old(c.cur) && c.hidden == old(c.hidden)
  {
    c.SelectionUp();
    c.SelectionDown();
    UpDownInverse(old(c.cur));
  }
}
