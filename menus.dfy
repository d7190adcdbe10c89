/** The start menu: its selection arithmetic (`Menu.draw`) and the key loop that runs it
    before the game (`Engine.init`). */
module Menus {

  /** `Menu.draw(move)`'s selection update over `count` entries: add the move, map -1 to the
      last entry, and reduce modulo the count (Python's `%`, which for a positive count agrees
      with Dafny's). A move of 0 leaves the selection alone. */
  function Step(selection: int, move: int, count: int): (r: int)
    requires count > 0
    ensures move == 0 ==> r == selection
    ensures move != 0 ==> 0 <= r < count
  {
    if move != 0 then
      var moved := selection + move;
      var wrapped := if moved == -1 then count - 1 else moved;
      wrapped % count
    else
      selection
  }

  /** The special case for -1 changes nothing: every non-zero move is plain modular arithmetic. */
  lemma StepIsModular(selection: int, move: int, count: int)
    requires count > 0 && move != 0
    ensures Step(selection, move, count) == (selection + move) % count
  {
    if selection + move == -1 {
      assert (count - 1) % count == count - 1;
      assert (-1) % count == count - 1 by {
        assert -1 == (-1) * count + (count - 1);
      }
    }
  }

  /** Up from the first entry selects the last one; Down from the last selects the first. */
  lemma StepWraps(count: int)
    requires count > 0
    ensures Step(0, -1, count) == count - 1
    ensures Step(count - 1, 1, count) == 0
  {
  }

  lemma ModOfRange(x: int, count: int)
    requires 0 <= x < count
    ensures x % count == x
  {
  }

  /** Moving by one from an entry, in either direction, is the neighbouring entry with wrap-around. */
  lemma StepByOne(selection: int, count: int)
    requires 0 <= selection < count
    ensures Step(selection, 1, count) == if selection == count - 1 then 0 else selection + 1
    ensures Step(selection, -1, count) == if selection == 0 then count - 1 else selection - 1
  {
    if selection < count - 1 {
      ModOfRange(selection + 1, count);
    }
    if selection == 0 {
      ModOfRange(count - 1, count);
    } else {
      ModOfRange(selection - 1, count);
    }
  }

  /** Up undoes Down and Down undoes Up. */
  lemma UpUndoesDown(selection: int, count: int)
    requires 0 <= selection < count
    ensures Step(Step(selection, 1, count), -1, count) == selection
    ensures Step(Step(selection, -1, count), 1, count) == selection
  {
    StepByOne(selection, count);
    StepByOne(Step(selection, 1, count), count);
    StepByOne(Step(selection, -1, count), count);
  }

  /** A menu: its entries, their count and the selected entry. */
  class Menu {
    var items: seq<string>
    var count: int
    var selection: int

    /** A fresh menu (the class defaults): no entries, the first one selected. */
    constructor ()
      ensures items == [] && count == 0 && selection == 0
    {
      items, count, selection := [], 0, 0;
    }

    /** `Menu.init`: take the entries and count them (the drawing layout is not modelled). */
    method Init(entries: seq<string>)
      modifies this`items, this`count
      ensures items == entries && count == |entries|
    {
      items := entries;
      count := |entries|;
    }

    method GetPosition() returns (p: int)
      ensures p == selection
    {
      p := selection;
    }

    /** `Menu.draw(move)`: update the selection and return it. */
    method Draw(move: int) returns (selected: int)
      requires count > 0
      modifies this`selection
      ensures selection == Step(old(selection), move, count) && selected == selection
    {
      if move != 0 {
        selection := selection + move;
        if selection == -1 {
          selection := count - 1;
        }
        selection := selection % count;
      }
      selected := selection;
    }
  }

  /** Keys the menu reacts to; every other key is `OtherKey`. */
  datatype MenuKey = Up | Down | Return | Escape | OtherKey

  /** The events the menu loop receives. */
  datatype MenuEvent = KeyDown(key: MenuKey) | WindowClosed | OtherEvent

  /** Where the menu loop stands: still browsing (with the selection and whether Start was
      committed in the current batch of events), or the process is ending through `quit`
      (the Quit entry) or through `sys.exit` (Escape or closing the window). */
  datatype MenuPhase = Browsing(selection: int, start: bool) | Quitting | Exiting

  /** How one event moves the menu loop. */
  function OnEvent(ph: MenuPhase, e: MenuEvent, count: int): (r: MenuPhase)
    requires count > 0
    ensures !ph.Browsing? ==> r == ph
    ensures ph.Browsing? && (e == KeyDown(Escape) || e == WindowClosed) ==> r == Exiting
    ensures ph.Browsing? && e == KeyDown(Return) && ph.selection == 0 ==> r == Browsing(0, true)
    ensures ph.Browsing? && e == KeyDown(Return) && ph.selection == 1 ==> r == Quitting
    ensures ph.Browsing? && e == KeyDown(Up) ==> r == Browsing(Step(ph.selection, -1, count), ph.start)
    ensures ph.Browsing? && e == KeyDown(Down) ==> r == Browsing(Step(ph.selection, 1, count), ph.start)
    ensures (ph.Browsing? && (e == OtherEvent || e == KeyDown(OtherKey)
             || (e == KeyDown(Return) && ph.selection != 0 && ph.selection != 1))) ==> r == ph
    ensures ph.Browsing? && 0 <= ph.selection < count && r.Browsing? ==> 0 <= r.selection < count
  {
    match ph
    case Browsing(sel, start) =>
      (match e
       case KeyDown(Up) => Browsing(Step(sel, -1, count), start)
       case KeyDown(Down) => Browsing(Step(sel, 1, count), start)
       case KeyDown(Return) =>
         if sel == 0 then Browsing(sel, true) else if sel == 1 then Quitting else ph
       case KeyDown(Escape) => Exiting
       case KeyDown(OtherKey) => ph
       case WindowClosed => Exiting
       case OtherEvent => ph)
    case _ => ph
  }

  /** One batch of events (one `pygame.event.get()`), all of it: a committed Start does not stop
      the batch, only the check of the loop condition after it. */
  function OnBatch(ph: MenuPhase, batch: seq<MenuEvent>, count: int): (r: MenuPhase)
    requires count > 0
    ensures ph.Browsing? && r.Browsing? && ph.start ==> r.start
    ensures ph.Browsing? && (r == Quitting || (r.Browsing? && r.start && !ph.start)) ==> KeyDown(Return) in batch
    ensures ph.Browsing? && r == Exiting ==> KeyDown(Escape) in batch || WindowClosed in batch
  {
    if batch == [] then ph
    else OnEvent(OnBatch(ph, batch[..|batch| - 1], count), batch[|batch| - 1], count)
  }

  lemma {:induction false} OnBatchAppend(ph: MenuPhase, a: seq<MenuEvent>, b: seq<MenuEvent>, count: int)
    requires count > 0
    ensures OnBatch(ph, a + b, count) == OnBatch(OnBatch(ph, a, count), b, count)
    decreases |b|
  {
    if b == [] {
      assert a + b == a;
    } else {
      assert (a + b)[..|a + b| - 1] == a + b[..|b| - 1];
      OnBatchAppend(ph, a, b[..|b| - 1], count);
    }
  }

  /** Once the process is ending, the rest of the batch changes nothing. */
  lemma {:induction false} EndingAbsorbs(ph: MenuPhase, batch: seq<MenuEvent>, count: int)
    requires count > 0 && !ph.Browsing?
    ensures OnBatch(ph, batch, count) == ph
  {
    if batch != [] {
      EndingAbsorbs(ph, batch[..|batch| - 1], count);
    }
  }

  /** The selection stays among the entries through any batch. */
  lemma {:induction false} OnBatchKeepsSelection(ph: MenuPhase, batch: seq<MenuEvent>, count: int)
    requires count > 0 && ph.Browsing? && 0 <= ph.selection < count
    ensures var r := OnBatch(ph, batch, count); r.Browsing? ==> 0 <= r.selection < count
  {
    if batch != [] {
      OnBatchKeepsSelection(ph, batch[..|batch| - 1], count);
    }
  }

  /** How the menu loop ends: the game starts, the process quits or exits, or the events given
      run out while the menu is still shown. */
  datatype MenuOutcome = Started | Quit | Exit | Waiting

  /** The menu loop over successive batches of events, from the selection `selection`. */
  function MenuRun(selection: int, batches: seq<seq<MenuEvent>>, count: int): (r: MenuOutcome)
    requires count > 0
    ensures r == Started || r == Quit ==> exists i :: 0 <= i < |batches| && KeyDown(Return) in batches[i]
    ensures r == Exit ==>
              exists i :: 0 <= i < |batches| && (KeyDown(Escape) in batches[i] || WindowClosed in batches[i])
    decreases |batches|
  {
    if batches == [] then Waiting
    else
      match OnBatch(Browsing(selection, false), batches[0], count)
      case Quitting => Quit
      case Exiting => Exit
      case Browsing(sel, start) => if start then Started else MenuRun(sel, batches[1..], count)
  }

  /** Escape leaves the menu whatever is selected, and whatever follows it in its batch. */
  lemma EscapeExits(selection: int, rest: seq<MenuEvent>, later: seq<seq<MenuEvent>>, count: int)
    requires count > 0
    ensures MenuRun(selection, [[KeyDown(Escape)] + rest] + later, count) == Exit
  {
    OnBatchAppend(Browsing(selection, false), [KeyDown(Escape)], rest, count);
    assert OnBatch(Browsing(selection, false), [KeyDown(Escape)], count) == Exiting by {
      assert [KeyDown(Escape)][..0] == [];
    }
    EndingAbsorbs(Exiting, rest, count);
  }

  /** Enter on the first entry starts the game; Enter on the second quits. */
  lemma EnterCommits(later: seq<seq<MenuEvent>>, count: int)
    requires count > 0
    ensures MenuRun(0, [[KeyDown(Return)]] + later, count) == Started
    ensures MenuRun(1, [[KeyDown(Return)]] + later, count) == Quit
  {
    var b := [KeyDown(Return)];
    assert b[..0] == [];
    assert OnBatch(Browsing(0, false), b, count) == Browsing(0, true);
    assert OnBatch(Browsing(1, false), b, count) == Quitting;
    assert ([b] + later)[0] == b;
  }

  /** Start is checked only after the whole batch: Enter then Down then Enter in one batch first
      commits Start, then moves to Quit, and then quits. */
  lemma StartWaitsForBatchEnd()
    ensures MenuRun(0, [[KeyDown(Return), KeyDown(Down), KeyDown(Return)]], 2) == Quit
  {
    var b := [KeyDown(Return), KeyDown(Down), KeyDown(Return)];
    assert b[..2][..1][..0] == [];
    assert b[..2][..1] == [KeyDown(Return)];
    assert b[..2] == [KeyDown(Return), KeyDown(Down)];
    assert OnBatch(Browsing(0, false), b[..1], 2) == Browsing(0, true);
    StepByOne(0, 2);
    assert OnBatch(Browsing(0, false), b[..2], 2) == Browsing(1, true);
    assert OnBatch(Browsing(0, false), b, 2) == Quitting;
    assert [b][0] == b;
  }
}
