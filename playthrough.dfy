/** Whole sessions of the game: the buttons the player can press on each
    screen, and what holds however they are pressed. The central fact is
    that the win scene is only ever shown with the shield, the sword, Elara
    and Borin, as long as the save files are the game's own. */
module Playthrough {
  import opened Wrappers
  import opened Scenes
  import opened Labels
  import opened Story
  import opened Engine

  /** A button press. On the main menu: "New Game", a slot of "Load Game" or
      "Quit" (Chooseyourownadventure.py:338-345). On a scene: one of its
      choice buttons, or, through the "Menu" button (288-290), "Main Menu" or
      a slot of "Save Game" or "Load Game" (350-376, 393-406). */
  datatype Input =
    | NewGameButton
    | ChoiceButton(index: nat)
    | MainMenuButton
    | SaveButton(slot: int)
    | LoadButton(slot: int)
    | QuitButton

  /** The game object and its save directory. */
  datatype World = World(game: Game, slots: map<int, SlotFile>)

  /** The slot menus offer slots 1 and 2 (Chooseyourownadventure.py:393). */
  predicate IsSlot(slot: int)
  {
    slot == 1 || slot == 2
  }

  /** The game as the main menu first shows it, with an empty save
      directory. */
  const Fresh := World(Game([], [], Start, Bound(Start), MainMenu), map[])

  /** One button press. A button that is not on the screen cannot be
      pressed and changes nothing. */
  function Step(w: World, input: Input): (r: World)
    ensures w.game.screen.Closed? ==> r == w
    ensures r.slots != w.slots ==> input.SaveButton? && w.game.screen.Showing?
    ensures input.SaveButton? ==> r.game == w.game
  {
    var g := w.game;
    match input
    case NewGameButton =>
      if g.screen.MainMenu? then w.(game := NewGame(g)) else w
    case ChoiceButton(i) =>
      if g.screen.Showing? && i < |g.screen.choices| then w.(game := Press(g, i)) else w
    case MainMenuButton =>
      if g.screen.Showing? then w.(game := g.(screen := MainMenu)) else w
    case SaveButton(slot) =>
      if g.screen.Showing? && IsSlot(slot) then w.(slots := Save(g, w.slots, slot)) else w
    case LoadButton(slot) =>
      if !g.screen.Closed? && IsSlot(slot) then w.(game := Load(g, w.slots, slot).game) else w
    case QuitButton =>
      if g.screen.MainMenu? then w.(game := g.(screen := Closed)) else w
  }

  /** A sequence of button presses. */
  function Run(w: World, inputs: seq<Input>): World
    decreases |inputs|
  {
    if inputs == [] then w else Run(Step(w, inputs[0]), inputs[1..])
  }

  /** The tokens every path from chapter_one_start to `s` has collected are
      held. */
  predicate Equipped(s: Scene, inventory: seq<string>, companions: seq<string>)
  {
    (Stage(s) >= 1 ==> SturdyShield in inventory) &&
    (Stage(s) >= 2 ==> Elara in companions && AncientSword in inventory) &&
    (Stage(s) >= 3 ==> Borin in companions)
  }

  /** The game agrees with the story: the anchor is a chapter start the
      player is equipped for, and a scene on screen is one the player is
      equipped for, shows the choice map of the current state, and is what
      `current_scene_method` refers to. */
  predicate Consistent(g: Game)
  {
    IsChapterStart(g.anchor) && Equipped(g.anchor, g.inventory, g.companions) &&
    (g.screen.Showing? ==>
       Equipped(g.screen.scene, g.inventory, g.companions) &&
       g.screen.choices == Choices(g.screen.scene, g.inventory, g.companions, g.anchor) &&
       (g.current == Bound(g.screen.scene) || g.current == Named(SceneMethod(g.screen.scene))))
  }

  /** A record `save_game` can have written from a consistent game. */
  predicate HonestRecord(rec: SaveRecord)
  {
    Complete(rec) && IsChapterStart(rec.chapterStart.value.scene) &&
    Equipped(rec.chapterStart.value.scene, rec.inventory.value, rec.companions.value) &&
    Equipped(rec.scene.value.scene, rec.inventory.value, rec.companions.value)
  }

  /** Every save file is the game's own: a truncated one, or an honest
      record. */
  predicate Honest(slots: map<int, SlotFile>)
  {
    forall k :: k in slots ==> slots[k].Garbled? || HonestRecord(slots[k].record)
  }

  predicate Inv(w: World)
  {
    Consistent(w.game) && Honest(w.slots)
  }

  lemma PrefixKeepsMember(a: seq<string>, b: seq<string>, x: string)
    requires a <= b && x in a
    ensures x in b
  {
    var i :| 0 <= i < |a| && a[i] == x;
    assert b[i] == x;
  }

  /** Lists only grow, so being equipped lasts. */
  lemma EquippedGrows(s: Scene, inventory: seq<string>, companions: seq<string>,
                      inventory': seq<string>, companions': seq<string>)
    requires Equipped(s, inventory, companions)
    requires inventory <= inventory' && companions <= companions'
    ensures Equipped(s, inventory', companions')
  {
    if SturdyShield in inventory { PrefixKeepsMember(inventory, inventory', SturdyShield); }
    if AncientSword in inventory { PrefixKeepsMember(inventory, inventory', AncientSword); }
    if Elara in companions { PrefixKeepsMember(companions, companions', Elara); }
    if Borin in companions { PrefixKeepsMember(companions, companions', Borin); }
  }

  /** A choice a passage offers leads to a scene the player is equipped for
      once its entry effect has run: a gate is only offered with its token,
      and the scene behind the shield gate and the sword gate hands the item
      out itself. */
  lemma ChoiceKeepsEquipped(s: Scene, t: Scene, inventory: seq<string>, companions: seq<string>)
    requires Equipped(s, inventory, companions)
    requires Admits(t, inventory, companions) && Advances(s, t)
    ensures Equipped(t, ItemsOnEntry(t, inventory), CompanionsOnEntry(t, companions))
  {
    var inventory' := ItemsOnEntry(t, inventory);
    var companions' := CompanionsOnEntry(t, companions);
    EquippedGrows(s, inventory, companions, inventory', companions');
    if t == Continuing(ChapterTwoStep3) {
      assert inventory'[|inventory|] == SturdyShield;
    } else if t == Continuing(ChapterFourStep4) {
      assert inventory'[|inventory|] == AncientSword;
      PrefixKeepsMember(companions, companions', Elara);
    } else if t == Continuing(ChapterSixStep3) {
      PrefixKeepsMember(companions, companions', Borin);
    }
  }

  /** Entering a scene the player is equipped for, with
      `current_scene_method` referring to it, leaves the game consistent. */
  lemma EnterKeepsConsistent(g: Game, t: Scene)
    requires IsChapterStart(g.anchor) && Equipped(g.anchor, g.inventory, g.companions)
    requires Equipped(t, ItemsOnEntry(t, g.inventory), CompanionsOnEntry(t, g.companions))
    requires g.current == Bound(t) || g.current == Named(SceneMethod(t))
    ensures Consistent(Enter(g, t))
  {
    var r := Enter(g, t);
    if !IsChapterStart(t) {
      EquippedGrows(g.anchor, g.inventory, g.companions, r.inventory, r.companions);
    }
  }

  /** New Game leaves the game consistent. */
  lemma NewGameKeepsConsistent(g: Game)
    ensures Consistent(NewGame(g))
  {
    var g0 := Game([], [], Start, Bound(Start), g.screen);
    ChapterStartKeepsLists(Start, [], []);
    EnterKeepsConsistent(g0, Start);
  }

  /** Pressing a choice button leaves the game consistent. */
  lemma PressKeepsConsistent(g: Game, i: nat)
    requires Consistent(g) && g.screen.Showing? && i < |g.screen.choices|
    ensures Consistent(Press(g, i))
  {
    var s := g.screen.scene;
    var target := g.screen.choices[i].target;
    if target.Go? {
      var t := target.scene;
      var named := g.(current := Named(SceneMethod(t)));
      if s.Continuing? {
        ChoiceKeepsEquipped(s, t, g.inventory, g.companions);
      } else {
        assert t == g.anchor;
        EquippedGrows(t, g.inventory, g.companions,
                      ItemsOnEntry(t, g.inventory), CompanionsOnEntry(t, g.companions));
      }
      EnterKeepsConsistent(named, t);
    }
  }

  /** Loading from honest slots leaves the game consistent. */
  lemma LoadKeepsConsistent(g: Game, slots: map<int, SlotFile>, slot: int)
    requires Consistent(g) && Honest(slots)
    ensures Consistent(Load(g, slots, slot).game)
  {
    if slot in slots && slots[slot].Written? {
      var rec := slots[slot].record;
      var s := rec.scene.value.scene;
      var restored := Restore(g, rec, 4);
      EquippedGrows(s, restored.inventory, restored.companions,
                    ItemsOnEntry(s, restored.inventory), CompanionsOnEntry(s, restored.companions));
      EnterKeepsConsistent(restored, s);
    }
  }

  /** Saving a consistent game keeps the slots honest. */
  lemma SaveKeepsHonest(g: Game, slots: map<int, SlotFile>, slot: int)
    requires Consistent(g) && g.screen.Showing? && Honest(slots)
    ensures Honest(Save(g, slots, slot))
  {
  }

  /** Every button press keeps the invariant. */
  lemma StepKeepsInv(w: World, input: Input)
    requires Inv(w)
    ensures Inv(Step(w, input))
  {
    var g := w.game;
    match input
    case NewGameButton =>
      if g.screen.MainMenu? { NewGameKeepsConsistent(g); }
    case ChoiceButton(i) =>
      if g.screen.Showing? && i < |g.screen.choices| { PressKeepsConsistent(g, i); }
    case MainMenuButton =>
    case SaveButton(slot) =>
      if g.screen.Showing? && IsSlot(slot) { SaveKeepsHonest(g, w.slots, slot); }
    case LoadButton(slot) =>
      if !g.screen.Closed? && IsSlot(slot) { LoadKeepsConsistent(g, w.slots, slot); }
    case QuitButton =>
  }

  /** Any sequence of button presses keeps the invariant. */
  lemma {:induction false} RunKeepsInv(w: World, inputs: seq<Input>)
    requires Inv(w)
    ensures Inv(Run(w, inputs))
    decreases |inputs|
  {
    if inputs != [] {
      StepKeepsInv(w, inputs[0]);
      RunKeepsInv(Step(w, inputs[0]), inputs[1..]);
    }
  }

  /** Whatever the player presses, starting from the main menu with only
      the game's own save files, chapter_ten_step_8 is shown only while the
      inventory holds "Sturdy Shield" and "Ancient Sword" and the companions
      include Elara and Borin. */
  lemma WinNeedsAllTokens(slots: map<int, SlotFile>, inputs: seq<Input>)
    requires Honest(slots)
    ensures var g := Run(World(Fresh.game, slots), inputs).game;
            g.screen.Showing? && g.screen.scene == Winning ==>
              SturdyShield in g.inventory && AncientSword in g.inventory &&
              Elara in g.companions && Borin in g.companions
  {
    RunKeepsInv(World(Fresh.game, slots), inputs);
  }

  /** The honesty of the save files is needed: a hand-made record naming
      chapter_ten_step_8 loads the win scene with nothing collected. */
  lemma ForgedSaveWinsEmptyHanded()
    ensures var forged := SaveRecord(Some([]), Some([]), Some(SceneMethod(Start)), Some(SceneMethod(Winning)));
            var g := Run(World(Fresh.game, map[1 := Written(forged)]), [LoadButton(1)]).game;
            g.screen.Showing? && g.screen.scene == Winning && g.inventory == [] && g.companions == []
  {
  }

  /** In a game consistent with the story, chapter_nine_step_4 is only
      reached with the shield, so the missing scene it names on the other
      branch is never needed. */
  lemma HonestPlayHasShieldAtBridge(w: World)
    requires Inv(w) && w.game.screen.Showing? && w.game.screen.scene == Continuing(ChapterNineStep4)
    ensures SturdyShield in w.game.inventory
    ensures ChapterNineStep4AsWritten(w.game.inventory, w.game.companions).Some?
  {
  }

  /** Pressing `a` and then `b` is pressing `a + b`. */
  lemma {:induction false} RunAppend(w: World, a: seq<Input>, b: seq<Input>)
    ensures Run(w, a + b) == Run(Run(w, a), b)
    decreases |a|
  {
    if a != [] {
      assert (a + b)[0] == a[0];
      assert (a + b)[1..] == a[1..] + b;
      RunAppend(Step(w, a[0]), a[1..], b);
    } else {
      assert a + b == b;
    }
  }

  /** A scene on screen after a choice, with an empty save directory. */
  function Reached(s: Scene, inventory: seq<string>, companions: seq<string>, anchor: Scene): World
  {
    World(Game(inventory, companions, anchor, Named(SceneMethod(s)),
               Showing(s, Choices(s, inventory, companions, anchor))), map[])
  }

  lemma RouteToChapterOneStep2()
    ensures Run(Fresh, [NewGameButton, ChoiceButton(0)]) ==
            Reached(Continuing(ChapterOneStep2), [], [], Start)
  {
    var w := Step(Fresh, NewGameButton);
    assert w.game.screen.scene == Start;
  }

  lemma RouteToChapterOneStep4()
    ensures Run(Reached(Continuing(ChapterOneStep2), [], [], Start), [ChoiceButton(2), ChoiceButton(0)]) ==
            Reached(Continuing(ChapterOneStep4), [], [], Start)
  {
    var w := Step(Reached(Continuing(ChapterOneStep2), [], [], Start), ChoiceButton(2));
    assert w.game.screen.scene == Continuing(ChapterOneStep3);
  }

  lemma RouteToChapterTwoStart()
    ensures Run(Reached(Continuing(ChapterOneStep4), [], [], Start), [ChoiceButton(0), ChoiceButton(0)]) ==
            Reached(Continuing(ChapterTwoStart), [], [], Continuing(ChapterTwoStart))
  {
    var w := Step(Reached(Continuing(ChapterOneStep4), [], [], Start), ChoiceButton(0));
    assert w.game.screen.scene == Continuing(ChapterOneStep5);
  }

  lemma RouteToChapterTwoStep3()
    ensures Run(Reached(Continuing(ChapterTwoStart), [], [], Continuing(ChapterTwoStart)),
                [ChoiceButton(0), ChoiceButton(0)]) ==
            Reached(Continuing(ChapterTwoStep3), [SturdyShield], [], Continuing(ChapterTwoStart))
  {
    var w := Step(Reached(Continuing(ChapterTwoStart), [], [], Continuing(ChapterTwoStart)), ChoiceButton(0));
    assert w.game.screen.scene == Continuing(ChapterTwoStep2);
  }

  lemma SaveAndLoadAtChapterTwoStep3()
    ensures Run(Reached(Continuing(ChapterTwoStep3), [SturdyShield], [], Continuing(ChapterTwoStart)),
                [SaveButton(1), LoadButton(1)]).game.inventory == [SturdyShield, SturdyShield]
  {
    var w := Reached(Continuing(ChapterTwoStep3), [SturdyShield], [], Continuing(ChapterTwoStart));
    SaveLoadRoundTrip(w.game, w.game, w.slots, 1);
  }

  /** A concrete session: New Game, the route to chapter_two_step_3, save in
      slot 1, load slot 1. The inventory now holds the shield twice. */
  lemma ReloadedShieldIsDoubled()
    ensures Run(Fresh, [NewGameButton, ChoiceButton(0)] + [ChoiceButton(2), ChoiceButton(0)] +
                       [ChoiceButton(0), ChoiceButton(0)] + [ChoiceButton(0), ChoiceButton(0)] +
                       [SaveButton(1), LoadButton(1)]).game.inventory ==
            [SturdyShield, SturdyShield]
  {
    var a := [NewGameButton, ChoiceButton(0)];
    var b := [ChoiceButton(2), ChoiceButton(0)];
    var c := [ChoiceButton(0), ChoiceButton(0)];
    var d := [ChoiceButton(0), ChoiceButton(0)];
    var e := [SaveButton(1), LoadButton(1)];
    RouteToChapterOneStep2();
    RouteToChapterOneStep4();
    RouteToChapterTwoStart();
    RouteToChapterTwoStep3();
    SaveAndLoadAtChapterTwoStep3();
    RunAppend(Fresh, a, b);
    RunAppend(Fresh, a + b, c);
    RunAppend(Fresh, a + b + c, d);
    RunAppend(Fresh, a + b + c + d, e);
  }
}
