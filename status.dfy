/** The texts the game builds from its state: the status bar over every scene
    (Chooseyourownadventure.py:218-229), the closing line of an end scene
    (294-305) and the labels of the save-slot buttons (393-400). */
module Status {
  import opened Scenes
  import opened Story
  import opened Engine

  /** Python's `", ".join(items)`. */
  function Join(items: seq<string>): string
  {
    if items == [] then ""
    else if |items| == 1 then items[0]
    else items[0] + ", " + Join(items[1..])
  }

  /** The sum of the lengths of `items`. */
  function TotalLength(items: seq<string>): nat
  {
    if items == [] then 0 else |items[0]| + TotalLength(items[1..])
  }

  /** Appending to a non-empty list extends its joined text by a separator
      and the new item: the status bar grows at its right end. */
  lemma {:induction false} JoinAppend(items: seq<string>, item: string)
    requires items != []
    ensures Join(items + [item]) == Join(items) + ", " + item
  {
    if |items| == 1 {
      assert items + [item] == [items[0], item];
      assert (items + [item])[1..] == [item];
    } else {
      assert (items + [item])[1..] == items[1..] + [item];
      JoinAppend(items[1..], item);
    }
  }

  /** The joined text has the items' characters plus two per separator. */
  lemma {:induction false} JoinLength(items: seq<string>)
    requires items != []
    ensures |Join(items)| == TotalLength(items) + 2 * (|items| - 1)
  {
    if |items| > 1 {
      JoinLength(items[1..]);
    }
  }

  /** `e` can be read in `t` starting at position `i`. */
  predicate IsAt(e: string, t: string, i: nat)
  {
    i + |e| <= |t| && t[i..i + |e|] == e
  }

  /** `e` is a substring of `t`. */
  predicate Occurs(e: string, t: string)
  {
    exists i: nat :: i <= |t| && IsAt(e, t, i)
  }

  /** `t` ends with `e`. */
  predicate EndsWith(t: string, e: string)
  {
    |e| <= |t| && t[|t| - |e|..] == e
  }

  /** Every item can be read off the joined text. */
  lemma {:induction false} JoinContains(items: seq<string>, k: nat)
    requires k < |items|
    ensures Occurs(items[k], Join(items))
  {
    var t := Join(items);
    if |items| == 1 || k == 0 {
      assert IsAt(items[0], t, 0);
    } else {
      var rest := Join(items[1..]);
      assert t == items[0] + ", " + rest;
      JoinContains(items[1..], k - 1);
      var e := items[k];
      var i: nat :| i <= |rest| && IsAt(e, rest, i);
      var j := |items[0]| + 2 + i;
      assert t[j..j + |e|] == rest[i..i + |e|];
      assert j <= |t| && IsAt(e, t, j);
    }
  }

  lemma JoinContainsAll(items: seq<string>)
    ensures forall k :: 0 <= k < |items| ==> Occurs(items[k], Join(items))
  {
    forall k | 0 <= k < |items|
      ensures Occurs(items[k], Join(items))
    {
      JoinContains(items, k);
    }
  }

  /** The joined text ends with the last item. */
  lemma {:induction false} JoinEndsWithLast(items: seq<string>)
    requires items != []
    ensures EndsWith(Join(items), items[|items| - 1])
  {
    if |items| > 1 {
      var rest := Join(items[1..]);
      var t := Join(items);
      var e := items[|items| - 1];
      assert t == items[0] + ", " + rest;
      JoinEndsWithLast(items[1..]);
      assert t[|t| - |e|..] == rest[|rest| - |e|..];
    }
  }

  /** One half of the status bar: a heading and ": ", then the entries
      joined by ", ", or a placeholder when there are none. */
  function StatusText(heading: string, entries: seq<string>, placeholder: string): string
  {
    heading + ": " + (if entries != [] then Join(entries) else placeholder)
  }

  /** What a reader finds in a status text: the heading first; then either
      exactly the placeholder, or every entry, the last one at the end, in a
      text two characters longer per separator than the entries together. */
  lemma StatusTextReads(heading: string, entries: seq<string>, placeholder: string)
    ensures var r := StatusText(heading, entries, placeholder);
            |r| >= |heading| + 2 && r[..|heading| + 2] == heading + ": " &&
            (entries == [] ==> r[|heading| + 2..] == placeholder) &&
            (entries != [] ==> |r| == |heading| + 2 + TotalLength(entries) + 2 * (|entries| - 1)) &&
            (forall k :: 0 <= k < |entries| ==> Occurs(entries[k], r[|heading| + 2..])) &&
            (entries != [] ==> EndsWith(r, entries[|entries| - 1]))
  {
    var r := StatusText(heading, entries, placeholder);
    if entries != [] {
      JoinLength(entries);
      JoinContainsAll(entries);
      JoinEndsWithLast(entries);
      assert r[|heading| + 2..] == Join(entries);
    } else {
      assert r[|heading| + 2..] == placeholder;
    }
  }

  /** The left half of the status bar (Chooseyourownadventure.py:224). */
  function InventoryText(inventory: seq<string>): string
  {
    StatusText("Inventory", inventory, "Empty")
  }

  /** The right half of the status bar (Chooseyourownadventure.py:228). */
  function CompanionsText(companions: seq<string>): string
  {
    StatusText("Companions", companions, "None")
  }

  /** After chapter_two_step_3 the status bar names the shield once more at
      its right end, or names only it if the inventory was empty. */
  lemma ShieldShowsInStatus(inventory: seq<string>)
    ensures inventory == [] ==>
              InventoryText(ItemsOnEntry(Continuing(ChapterTwoStep3), inventory)) == "Inventory: Sturdy Shield"
    ensures inventory != [] ==>
              InventoryText(ItemsOnEntry(Continuing(ChapterTwoStep3), inventory)) ==
              InventoryText(inventory) + ", Sturdy Shield"
  {
    var r := ItemsOnEntry(Continuing(ChapterTwoStep3), inventory);
    assert r == inventory + [SturdyShield];
    if inventory != [] {
      JoinAppend(inventory, SturdyShield);
    }
  }

  /** The text of an end scene: the story, a newline and the verdict
      (Chooseyourownadventure.py:296-305). */
  function EndText(story: string, isWin: bool): (r: string)
    ensures |r| > |story| && r[..|story|] == story && r[|story|] == '\n'
    ensures isWin ==> r[|story| + 1..] == "You Win!"
    ensures !isWin ==> r[|story| + 1..] == "You Lose."
  {
    story + "\n" + (if isWin then "You Win!" else "You Lose.")
  }

  /** An end text tells which story it closes and whether it is a win. */
  lemma EndTextDetermines(story1: string, isWin1: bool, story2: string, isWin2: bool)
    requires EndText(story1, isWin1) == EndText(story2, isWin2)
    ensures story1 == story2 && isWin1 == isWin2
  {
    var t := EndText(story1, isWin1);
    assert t[|t| - 1] == (if isWin1 then '!' else '.');
    assert t[|t| - 1] == (if isWin2 then '!' else '.');
    assert |story1| == |story2|;
    assert story1 == t[..|story1|];
  }

  /** The decimal digits of `n`, as an f-string renders an int. */
  function DecimalText(n: nat): (r: string)
    ensures r != []
    ensures forall i :: 0 <= i < |r| ==> '0' <= r[i] <= '9'
    ensures DecimalValue(r) == n
  {
    if n < 10 then [Digit(n)] else DecimalText(n / 10) + [Digit(n % 10)]
  }

  function Digit(d: nat): (c: char)
    requires d < 10
    ensures '0' <= c <= '9' && c as int - '0' as int == d
  {
    ['0', '1', '2', '3', '4', '5', '6', '7', '8', '9'][d]
  }

  /** The number a string of decimal digits denotes, as `int()` reads it. */
  function DecimalValue(s: string): int
  {
    if s == [] then 0
    else 10 * DecimalValue(s[..|s| - 1]) + (s[|s| - 1] as int - '0' as int)
  }

  /** The label of one slot button: "In Use" when a file exists for the slot
      (Chooseyourownadventure.py:396-400). */
  function SlotLabel(slot: nat, slots: map<int, SlotFile>): string
  {
    "Slot " + DecimalText(slot) + ": " + (if slot in slots then "In Use" else "Empty")
  }

  /** The two slot buttons of the save and load menus, in order. */
  function SlotLabels(slots: map<int, SlotFile>): (r: seq<string>)
    ensures |r| == 2
    ensures r[0] == "Slot 1: " + (if 1 in slots then "In Use" else "Empty")
    ensures r[1] == "Slot 2: " + (if 2 in slots then "In Use" else "Empty")
  {
    [SlotLabel(1, slots), SlotLabel(2, slots)]
  }

  /** A save that failed because it came straight after New Game still
      leaves its slot labelled "In Use", though loading it cannot succeed. */
  lemma FailedSaveShowsInUse(g: Game, slots: map<int, SlotFile>, slot: int)
    requires slot == 1 || slot == 2
    ensures SlotLabels(Save(NewGame(g), slots, slot))[slot - 1] ==
            "Slot " + (if slot == 1 then "1" else "2") + ": In Use"
    ensures !Load(g, Save(NewGame(g), slots, slot), slot).outcome.Loaded?
  {
  }
}
