/** Worked scenarios of the add flow and the search, stated against the
    component's contracts alone. */
module Scenarios {
  import opened Types
  import opened Search
  import opened Form
  import opened MapView

  function LowerChar(c: char): (lowered: char)
  {
    if 'A' <= c <= 'Z' then (c as int + 32) as char else c
  }

  /** A case fold for plain ASCII text, enough for the scenarios below. */
  function AsciiLower(s: string): (r: string)
    ensures |r| == |s| && forall i :: 0 <= i < |s| ==> r[i] == LowerChar(s[i])
  {
    seq(|s|, i requires 0 <= i < |s| => LowerChar(s[i]))
  }

  function Item(id: string, title: string, description: string, category: Category): (item: LostItem)
  {
    LostItem(id, title, description, Location(35.68, 139.76), category, "2024-01-01T00:00:00.000Z", "090-0000", Unreturned)
  }

  lemma LowerBag()
    ensures AsciiLower("bag") == "bag" && AsciiLower("Blue Bag") == "blue bag"
  {
  }

  /** A lower-case letter in the folded text stands for itself or its capital
      in the original. */
  lemma AsciiLowerChars(s: string, c: char)
    requires 'a' <= c <= 'z' && c in AsciiLower(s)
    ensures c in s || (c as int - 32) as char in s
  {
    var i :| 0 <= i < |s| && AsciiLower(s)[i] == c;
    assert LowerChar(s[i]) == c;
  }

  /** A text with no 'g' or 'G' does not contain "bag" once folded. */
  lemma NoBagWithoutG(s: string)
    requires 'g' !in s && 'G' !in s
    ensures !Includes(AsciiLower(s), "bag")
  {
    assert 'g' in "bag";
    if Includes(AsciiLower(s), "bag") {
      IncludesOnlyPresentChars(AsciiLower(s), "bag", 'g');
      AsciiLowerChars(s, 'g');
    }
  }

  lemma BagInBlueBag()
    ensures Includes("blue bag", "bag")
  {
    assert "blue bag"[5..8] == "bag";
    assert OccursAt("blue bag", "bag", 5);
    IncludesIffOccurs("blue bag", "bag");
  }

  lemma DropFirstKeepSecond(a: LostItem, b: LostItem, query: string, category: CategoryFilter, lower: CaseFold)
    requires !Matches(a, query, category, lower) && Matches(b, query, category, lower)
    ensures Filter([a, b], query, category, lower) == [b]
  {
    assert [a, b][1..] == [b];
    assert [b][1..] == [];
  }

  lemma UmbrellaDoesNotMatch(umbrella: LostItem)
    requires umbrella.title == "Red Umbrella" && umbrella.description == "red"
    ensures !Matches(umbrella, "bag", All, AsciiLower)
  {
    LowerBag();
    NoBagWithoutG(umbrella.title);
    NoBagWithoutG(umbrella.description);
  }

  lemma BagMatches(bag: LostItem)
    requires bag.title == "Blue Bag"
    ensures Matches(bag, "bag", All, AsciiLower)
  {
    LowerBag();
    BagInBlueBag();
  }

  /** Of "Red Umbrella" and "Blue Bag", the query "bag" keeps only the bag,
      whose title is capitalised. */
  lemma BagQueryScenario()
    ensures Filter([Item("1", "Red Umbrella", "red", Other), Item("2", "Blue Bag", "blue", Bag)], "bag", All, AsciiLower)
         == [Item("2", "Blue Bag", "blue", Bag)]
  {
    var umbrella := Item("1", "Red Umbrella", "red", Other);
    var bag := Item("2", "Blue Bag", "blue", Bag);
    UmbrellaDoesNotMatch(umbrella);
    BagMatches(bag);
    DropFirstKeepSecond(umbrella, bag, "bag", All, AsciiLower);
  }

  /** Toggle adding mode on, click twice, submit a report: one item, shown,
      at the second click, with exactly one transient marker in between. */
  method AddFlowScenario(serialize: seq<LostItem> -> string, parse: string -> Option<seq<LostItem>>)
  {
    var board := new LostItemMap(map[], serialize, parse, AsciiLower);
    assert board.lostItems == [];
    board.ToggleAdding();
    board.HandleMapClick(139.0, 35.0);
    board.HandleMapClick(139.1, 35.1);
    assert board.tempMarker == Some((139.1, 35.1)) && board.selectedLocation == Some((139.1, 35.1));
    var form := board.form;
    form.SetTitle("Wallet");
    form.SetDescription("black leather");
    form.SetCategory(Wallet);
    form.SetContactInfo("090-xxxx");
    board.SubmitReport("k3j9x0a1b", "2024-01-01T00:00:00.000Z");
    assert |board.lostItems| == 1 && |board.displayedItems| == 1;
    assert board.lostItems[0].location == Location(35.1, 139.1);
    assert board.lostItems[0].status == Unreturned && board.lostItems[0].category == Wallet;
    assert !board.isAddingItem && board.tempMarker == None;
  }

  /** Cancelling after a location was chosen returns to idle and keeps the list. */
  method CancelScenario(serialize: seq<LostItem> -> string, parse: string -> Option<seq<LostItem>>)
  {
    var board := new LostItemMap(map[], serialize, parse, AsciiLower);
    board.ToggleAdding();
    board.HandleMapClick(139.0, 35.0);
    board.HandleCancel();
    assert board.lostItems == [] && !board.isAddingItem;
    assert board.selectedLocation == None && board.tempMarker == None;
  }

  /** Clicking the map outside adding mode changes nothing. */
  method IdleClickScenario(serialize: seq<LostItem> -> string, parse: string -> Option<seq<LostItem>>)
  {
    var board := new LostItemMap(map[], serialize, parse, AsciiLower);
    board.HandleMapClick(139.0, 35.0);
    assert board.selectedLocation == None && board.tempMarker == None;
  }
}
