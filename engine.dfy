/** The state of an `AdventureGame` object and the operations on it that
    drive the story (Chooseyourownadventure.py:200-450): entering a scene,
    New Game, pressing a choice button, and writing and reading a save slot. */
module Engine {
  import opened Wrappers
  import opened Scenes
  import opened Labels
  import opened Story

  /** A method of the game object as `__name__` names it and `getattr` finds
      it: a scene method, or any other identifier (`show_main_menu`, `quit`,
      or a name the object has no method for). A name that spells a scene
      method's identifier is always written as `SceneMethod`. */
  datatype MethodName = SceneMethod(scene: Scene) | OtherMethod(identifier: string)

  /** The `__name__` of what a choice button runs. */
  function ActionName(a: Action): (r: MethodName)
    ensures r.SceneMethod? <==> a.Go?
    ensures a.Go? ==> r.scene == a.scene
    ensures a == ShowMainMenu ==> r == OtherMethod("show_main_menu")
    ensures a == QuitGame ==> r == OtherMethod("quit")
  {
    match a
    case Go(s) => SceneMethod(s)
    case ShowMainMenu => OtherMethod("show_main_menu")
    case QuitGame => OtherMethod("quit")
  }

  /** What `current_scene_method` holds: the bound method itself, as
      `start_game` stores it (Chooseyourownadventure.py:209), or the name
      that `button_action` and `load_game` store (283, 442). */
  datatype SceneRef = Bound(scene: Scene) | Named(name: MethodName)

  /** What the window shows: the main menu, a scene with the choice buttons
      built when it was entered, or nothing once `quit` has run. */
  datatype Screen = MainMenu | Showing(scene: Scene, choices: seq<Choice>) | Closed

  /** The fields of the game object the story reads and writes. `anchor` is
      `current_chapter_start_method`. */
  datatype Game = Game(inventory: seq<string>, companions: seq<string>, anchor: Scene,
                       current: SceneRef, screen: Screen)

  /** The scene New Game starts from. */
  const Start := Continuing(ChapterOneStart)

  /** Calling a scene method: its entry effect on the two lists and the
      anchor, then the scene is drawn with the choice map built from the new
      state. `current_scene_method` is not touched. */
  function Enter(g: Game, s: Scene): (r: Game)
    ensures r.inventory == ItemsOnEntry(s, g.inventory) && r.companions == CompanionsOnEntry(s, g.companions)
    ensures r.anchor == (if IsChapterStart(s) then s else g.anchor)
    ensures r.current == g.current
    ensures r.screen == Showing(s, Choices(s, r.inventory, r.companions, r.anchor))
  {
    var inventory := ItemsOnEntry(s, g.inventory);
    var companions := CompanionsOnEntry(s, g.companions);
    var anchor := AnchorOnEntry(s, g.anchor);
    g.(inventory := inventory, companions := companions, anchor := anchor,
       screen := Showing(s, Choices(s, inventory, companions, anchor)))
  }

  /** `start_game` (Chooseyourownadventure.py:200-212): both lists emptied,
      anchor and current scene set to chapter_one_start, which is entered. */
  function NewGame(g: Game): (r: Game)
    ensures r.inventory == [] && r.companions == []
    ensures r.anchor == Start && r.current == Bound(Start)
    ensures r.screen == Showing(Start, Choices(Start, [], [], Start))
  {
    Enter(Game([], [], Start, Bound(Start), g.screen), Start)
  }

  /** `button_action` for button `i` of the scene on screen
      (Chooseyourownadventure.py:279-285): the name of what it runs goes into
      `current_scene_method`, then it runs. A scene is entered; the menu and
      `quit` leave the story state alone. */
  function Press(g: Game, i: nat): (r: Game)
    requires g.screen.Showing? && i < |g.screen.choices|
    ensures r.current == Named(ActionName(g.screen.choices[i].target))
    ensures r.screen.Showing? <==> g.screen.choices[i].target.Go?
    ensures r.screen.Showing? ==> r.screen.scene == g.screen.choices[i].target.scene
    ensures g.inventory <= r.inventory && g.companions <= r.companions
    ensures !g.screen.choices[i].target.Go? ==>
              r.inventory == g.inventory && r.companions == g.companions && r.anchor == g.anchor
    ensures g.screen.choices[i].target.Go? ==>
              r == Enter(g.(current := r.current), g.screen.choices[i].target.scene)
    ensures g.screen.choices[i].target == ShowMainMenu ==> r.screen == MainMenu
    ensures g.screen.choices[i].target == QuitGame ==> r.screen == Closed
  {
    var target := g.screen.choices[i].target;
    var named := g.(current := Named(ActionName(target)));
    match target
    case Go(s) => Enter(named, s)
    case ShowMainMenu => named.(screen := MainMenu)
    case QuitGame => named.(screen := Closed)
  }

  /** The four entries of a save file, in the order `load_game` reads them;
      `None` is a key the file does not have. */
  datatype Field = InventoryField | CompanionsField | ChapterStartField | SceneField

  /** The JSON key of each entry (Chooseyourownadventure.py:415-418). */
  function Key(f: Field): string
  {
    match f
    case InventoryField => "inventory"
    case CompanionsField => "companions"
    case ChapterStartField => "current_chapter_start_method_name"
    case SceneField => "current_scene_method_name"
  }

  /** The contents of a save file that parses as JSON. */
  datatype SaveRecord = SaveRecord(inventory: Option<seq<string>>, companions: Option<seq<string>>,
                                   chapterStart: Option<MethodName>, scene: Option<MethodName>)

  /** A save file: a complete JSON document, or one that `json.dump` stopped
      writing halfway through. */
  datatype SlotFile = Written(record: SaveRecord) | Garbled

  /** `save_game(slot)` (Chooseyourownadventure.py:412-422) on the save
      directory. The file is opened for writing, so whatever the slot held is
      gone. The record holds the two lists, the anchor's name and
      `current_scene_method`; when that is still the bound method New Game
      stored, `json.dump` raises on it after writing the entries before it,
      and the slot is left holding a truncated document. The game state is
      not changed either way. */
  function Save(g: Game, slots: map<int, SlotFile>, slot: int): (r: map<int, SlotFile>)
    ensures r.Keys == slots.Keys + {slot}
    ensures forall k :: k in slots && k != slot ==> r[k] == slots[k]
    ensures r[slot].Written? <==> g.current.Named?
    ensures r[slot].Written? ==>
              r[slot].record == SaveRecord(Some(g.inventory), Some(g.companions),
                                           Some(SceneMethod(g.anchor)), Some(g.current.name))
  {
    if g.current.Named? then
      slots[slot := Written(SaveRecord(Some(g.inventory), Some(g.companions),
                                       Some(SceneMethod(g.anchor)), Some(g.current.name)))]
    else
      slots[slot := Garbled]
  }

  /** How a `load_game` call ends: the scene is running, or one of the ways
      it stops early. */
  datatype LoadOutcome =
    | Loaded
    | NoSaveFile                             // error dialog, then return
    | Unparsable                             // `json.load` raises
    | MissingKey(key: Field)                 // `state[key]` raises KeyError
    | NoSuchMethod(key: Field, name: string) // `getattr` raises AttributeError

  datatype Loading = Loading(game: Game, outcome: LoadOutcome)

  /** The first `k` entries of `rec` can be read and, where they name a
      method, resolved. */
  predicate Readable(rec: SaveRecord, k: nat)
  {
    (k >= 1 ==> rec.inventory.Some?) &&
    (k >= 2 ==> rec.companions.Some?) &&
    (k >= 3 ==> rec.chapterStart.Some? && rec.chapterStart.value.SceneMethod?) &&
    (k >= 4 ==> rec.scene.Some?)
  }

  /** A record `load_game` can restore in full. */
  predicate Complete(rec: SaveRecord)
  {
    Readable(rec, 4) && rec.scene.value.SceneMethod?
  }

  /** The game with the first `k` of the four assignments of `load_game`
      (Chooseyourownadventure.py:439-442) done, in source order. */
  function Restore(g: Game, rec: SaveRecord, k: nat): Game
    requires Readable(rec, k)
  {
    g.(inventory := if k >= 1 then rec.inventory.value else g.inventory,
       companions := if k >= 2 then rec.companions.value else g.companions,
       anchor := if k >= 3 then rec.chapterStart.value.scene else g.anchor,
       current := if k >= 4 then Named(rec.scene.value) else g.current)
  }

  /** How many of the four assignments have been done when a load ends with
      `o`: a failed `getattr` on the chapter start stops before its
      assignment, one on the scene name after it (441-443). */
  function Assigned(o: LoadOutcome): nat
  {
    match o
    case Loaded => 4
    case NoSaveFile => 0
    case Unparsable => 0
    case MissingKey(f) => Position(f)
    case NoSuchMethod(f, _) => if f == SceneField then 4 else Position(f)
  }

  /** The place of a field in the reading order of `load_game`. */
  function Position(f: Field): nat
  {
    match f
    case InventoryField => 0
    case CompanionsField => 1
    case ChapterStartField => 2
    case SceneField => 3
  }

  /** `load_game(slot)` (Chooseyourownadventure.py:429-450). Without a file
      nothing changes; a file that does not parse changes nothing either. A
      readable file is assigned field by field, so a load that stops early
      keeps what it already assigned, and one that gets through re-enters the
      saved scene, running its entry effect again. */
  function Load(g: Game, slots: map<int, SlotFile>, slot: int): (r: Loading)
    ensures slot !in slots ==> r == Loading(g, NoSaveFile)
    ensures slot in slots && slots[slot].Garbled? ==> r == Loading(g, Unparsable)
    ensures r.outcome.Loaded? <==> slot in slots && slots[slot].Written? && Complete(slots[slot].record)
    ensures slot in slots && slots[slot].Written? ==>
              Readable(slots[slot].record, Assigned(r.outcome)) &&
              (r.outcome.Loaded? ==>
                 r.game == Enter(Restore(g, slots[slot].record, 4), slots[slot].record.scene.value.scene)) &&
              (!r.outcome.Loaded? ==> r.game == Restore(g, slots[slot].record, Assigned(r.outcome)))
    ensures slot in slots && slots[slot].Written? ==> r == LoadRecord(g, slots[slot].record)
  {
    if slot !in slots then Loading(g, NoSaveFile)
    else
      match slots[slot]
      case Garbled => Loading(g, Unparsable)
      case Written(rec) => LoadRecord(g, rec)
  }

  /** The assignments of `load_game` on a parsed record, each stopping the
      load when its key is missing or its name does not resolve. */
  function LoadRecord(g: Game, rec: SaveRecord): (r: Loading)
    ensures r.outcome.Loaded? <==> Complete(rec)
    ensures !r.outcome.NoSaveFile? && !r.outcome.Unparsable?
    ensures r.outcome == MissingKey(InventoryField) <==> rec.inventory.None?
    ensures r.outcome == MissingKey(CompanionsField) <==> Readable(rec, 1) && rec.companions.None?
    ensures r.outcome == MissingKey(ChapterStartField) <==> Readable(rec, 2) && rec.chapterStart.None?
    ensures r.outcome.NoSuchMethod? && r.outcome.key == ChapterStartField <==>
              Readable(rec, 2) && rec.chapterStart.Some? && rec.chapterStart.value.OtherMethod?
    ensures r.outcome == MissingKey(SceneField) <==> Readable(rec, 3) && rec.scene.None?
    ensures r.outcome.NoSuchMethod? && r.outcome.key == SceneField <==>
              Readable(rec, 4) && rec.scene.value.OtherMethod?
    ensures r.outcome.NoSuchMethod? && r.outcome.key == ChapterStartField ==>
              r.outcome.name == rec.chapterStart.value.identifier
    ensures r.outcome.NoSuchMethod? && r.outcome.key == SceneField ==>
              r.outcome.name == rec.scene.value.identifier
    ensures Readable(rec, Assigned(r.outcome))
    ensures r.outcome.Loaded? ==> r.game == Enter(Restore(g, rec, 4), rec.scene.value.scene)
    ensures !r.outcome.Loaded? ==> r.game == Restore(g, rec, Assigned(r.outcome))
  {
    if rec.inventory.None? then Loading(g, MissingKey(InventoryField))
    else
      var g1 := g.(inventory := rec.inventory.value);
      if rec.companions.None? then Loading(g1, MissingKey(CompanionsField))
      else
        var g2 := g1.(companions := rec.companions.value);
        if rec.chapterStart.None? then Loading(g2, MissingKey(ChapterStartField))
        else if rec.chapterStart.value.OtherMethod? then
          Loading(g2, NoSuchMethod(ChapterStartField, rec.chapterStart.value.identifier))
        else
          var g3 := g2.(anchor := rec.chapterStart.value.scene);
          if rec.scene.None? then Loading(g3, MissingKey(SceneField))
          else
            var g4 := g3.(current := Named(rec.scene.value));
            if rec.scene.value.OtherMethod? then
              Loading(g4, NoSuchMethod(SceneField, rec.scene.value.identifier))
            else
              Loading(Enter(g4, rec.scene.value.scene), Loaded)
  }

  /** "Try Again" on a lost scene (Chooseyourownadventure.py:303-304)
      re-enters the chapter anchor; since a chapter start has no entry
      effect, the inventory and the companions come back as they were, and
      the anchor stays. */
  lemma TryAgainKeepsLists(g: Game)
    requires g.screen.Showing? && g.screen.scene.Losing?
    requires g.screen.choices == Choices(g.screen.scene, g.inventory, g.companions, g.anchor)
    requires IsChapterStart(g.anchor)
    ensures g.screen.choices[0].caption == TryAgain
    ensures var r := Press(g, 0);
            r.inventory == g.inventory && r.companions == g.companions && r.anchor == g.anchor &&
            r.current == Named(SceneMethod(g.anchor)) && r.screen.Showing? && r.screen.scene == g.anchor
  {
    assert g.screen.choices == [Choice(TryAgain, Go(g.anchor)), Choice(Quit, QuitGame)];
    ChapterStartKeepsLists(g.anchor, g.inventory, g.companions);
  }

  /** Entering a chapter start appends to neither list. */
  lemma ChapterStartKeepsLists(s: Scene, inventory: seq<string>, companions: seq<string>)
    requires IsChapterStart(s)
    ensures ItemsOnEntry(s, inventory) == inventory
    ensures CompanionsOnEntry(s, companions) == companions
  {
  }

  /** Loading a slot just written by `save_game` restores the four fields
      and re-enters the saved scene, whatever the game was doing before. */
  lemma SaveLoadRoundTrip(g: Game, h: Game, slots: map<int, SlotFile>, slot: int)
    requires g.current.Named? && g.current.name.SceneMethod?
    ensures Load(h, Save(g, slots, slot), slot) ==
            Loading(Enter(h.(inventory := g.inventory, companions := g.companions,
                             anchor := g.anchor, current := g.current),
                          g.current.name.scene),
                    Loaded)
  {
  }

  /** Saving before the first choice after New Game (Chooseyourownadventure.py:
      209, 418) leaves a slot that can no longer be loaded, and the failed
      load changes nothing. */
  lemma SaveAfterNewGameFails(g: Game, h: Game, slots: map<int, SlotFile>, slot: int)
    ensures Save(NewGame(g), slots, slot)[slot] == Garbled
    ensures Load(h, Save(NewGame(g), slots, slot), slot) == Loading(h, Unparsable)
  {
  }

  /** A save taken in chapter_two_step_3 loads with one more "Sturdy Shield"
      than it was saved with: loading re-runs the append of line 550. */
  lemma ReloadRepeatsShield(g: Game, h: Game, slots: map<int, SlotFile>, slot: int)
    requires g.current == Named(SceneMethod(Continuing(ChapterTwoStep3)))
    ensures Load(h, Save(g, slots, slot), slot).game.inventory == g.inventory + [SturdyShield]
    ensures multiset(Load(h, Save(g, slots, slot), slot).game.inventory)[SturdyShield] ==
            multiset(g.inventory)[SturdyShield] + 1
  {
  }

  /** A save file without "companions" stops `load_game` at line 440, after
      line 439 has already replaced the inventory. */
  lemma LoadWithoutCompanionsKeepsInventory(g: Game, rec: SaveRecord)
    requires rec.inventory.Some? && rec.companions.None?
    ensures LoadRecord(g, rec) == Loading(g.(inventory := rec.inventory.value), MissingKey(CompanionsField))
  {
  }
}
