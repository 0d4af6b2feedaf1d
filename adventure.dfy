/** The `AdventureGame` object itself (Chooseyourownadventure.py:37-1225, its
    story-related part): the fields its methods reassign and append to, and
    those methods written step by step as the source writes them. Each method
    is proved to do what the matching function of `Engine` says, and to keep
    the game consistent with the story. */
module Adventure {
  import opened Wrappers
  import opened Scenes
  import opened Story
  import opened Engine
  import opened Playthrough

  class AdventureGame {
    var inventory: seq<string>
    var companions: seq<string>
    /** `current_chapter_start_method` */
    var chapterStart: Scene
    /** `current_scene_method` */
    var current: SceneRef
    var screen: Screen
    /** The `save_<n>.json` files of the save directory, by slot number. */
    var saves: map<int, SlotFile>

    /** The fields as an `Engine.Game` value. */
    function State(): Game
      reads this
    {
      Game(inventory, companions, chapterStart, current, screen)
    }

    /** The game agrees with the story and every save file is its own. */
    predicate Valid()
      reads this
    {
      Inv(World(State(), saves))
    }

    /** The object as the main menu first shows it, before any New Game.
        The save directory outlives the program (it is created only when
        missing, Chooseyourownadventure.py:59-60), so `existing` is whatever
        earlier runs left in it; the game is valid exactly when those files
        are the game's own. */
    constructor (existing: map<int, SlotFile>)
      ensures State() == Fresh.game && saves == existing
      ensures Valid() <==> Honest(existing)
    {
      inventory := [];
      companions := [];
      chapterStart := Start;
      current := Bound(Start);
      screen := MainMenu;
      saves := existing;
    }

    /** Calling the scene method of `s`: its append, if it has one, then the
        anchor if it is a chapter start, then the scene is drawn with the
        choice map of the new state (Chooseyourownadventure.py:550, 571,
        645-646, 715 and the `current_chapter_start_method` line of each
        chapter start). */
    method EnterScene(s: Scene)
      modifies this
      ensures State() == Enter(old(State()), s)
      ensures saves == old(saves)
    {
      if s == Continuing(ChapterTwoStep3) {
        inventory := inventory + [SturdyShield];
      } else if s == Continuing(ChapterFourStep4) {
        inventory := inventory + [AncientSword];
      }
      if s == Continuing(ChapterTwoStep5Companion) {
        companions := companions + [Elara];
      } else if s == Continuing(ChapterThreeStep5) && |companions| < 2 {
        companions := companions + [Borin];
      }
      if IsChapterStart(s) {
        chapterStart := s;
      }
      screen := Showing(s, Choices(s, inventory, companions, chapterStart));
    }

    /** `start_game` (Chooseyourownadventure.py:200-212). */
    method StartGame()
      modifies this
      ensures State() == NewGame(old(State()))
      ensures saves == old(saves)
      ensures Consistent(State())
    {
      inventory := [];
      companions := [];
      chapterStart := Start;
      current := Bound(Start);
      EnterScene(Start);
      NewGameKeepsConsistent(old(State()));
    }

    /** `show_main_menu`, as far as the story state goes: the menu replaces
        the scene. */
    method ShowMainMenu()
      modifies this
      ensures State() == old(State()).(screen := MainMenu)
      ensures saves == old(saves)
    {
      screen := MainMenu;
    }

    /** `quit`: the window is gone. */
    method Quit()
      modifies this
      ensures State() == old(State()).(screen := Closed)
      ensures saves == old(saves)
    {
      screen := Closed;
    }

    /** `button_action` for choice button `i` of the scene on screen
        (Chooseyourownadventure.py:279-285): the name of the command goes
        into `current_scene_method`, then the command runs. */
    method ButtonAction(i: nat)
      requires screen.Showing? && i < |screen.choices|
      modifies this
      ensures State() == Press(old(State()), i)
      ensures saves == old(saves)
      ensures old(Valid()) ==> Valid()
    {
      if Valid() {
        PressKeepsConsistent(State(), i);
      }
      var target := screen.choices[i].target;
      current := Named(ActionName(target));
      match target
      case Go(s) => EnterScene(s);
      case ShowMainMenu => ShowMainMenu();
      case QuitGame => Quit();
    }

    /** `save_game(slot)` (Chooseyourownadventure.py:412-422). `written` is
        false when `json.dump` raised on a bound method and left the slot
        holding a truncated file. */
    method SaveGame(slot: int) returns (written: bool)
      modifies this
      ensures saves == Save(old(State()), old(saves), slot)
      ensures State() == old(State())
      ensures written <==> old(current).Named?
      ensures old(Valid()) && screen.Showing? ==> Valid()
    {
      if Valid() && screen.Showing? {
        SaveKeepsHonest(State(), saves, slot);
      }
      if current.Named? {
        var record := SaveRecord(Some(inventory), Some(companions), Some(SceneMethod(chapterStart)),
                                 Some(current.name));
        saves := saves[slot := Written(record)];
        written := true;
      } else {
        saves := saves[slot := Garbled];
        written := false;
      }
    }

    /** `load_game(slot)` (Chooseyourownadventure.py:429-450): each field is
        assigned as soon as its key has been read, and a missing key or a
        name with no method behind it ends the call there. */
    method LoadGame(slot: int) returns (outcome: LoadOutcome)
      modifies this
      ensures Loading(State(), outcome) == Load(old(State()), old(saves), slot)
      ensures saves == old(saves)
      ensures old(Valid()) ==> Valid()
    {
      if Valid() {
        LoadKeepsConsistent(State(), saves, slot);
      }
      if slot !in saves {
        return NoSaveFile;
      }
      if saves[slot].Garbled? {
        return Unparsable;
      }
      var record := saves[slot].record;
      if record.inventory.None? {
        return MissingKey(InventoryField);
      }
      inventory := record.inventory.value;
      if record.companions.None? {
        return MissingKey(CompanionsField);
      }
      companions := record.companions.value;
      if record.chapterStart.None? {
        return MissingKey(ChapterStartField);
      }
      if record.chapterStart.value.OtherMethod? {
        return NoSuchMethod(ChapterStartField, record.chapterStart.value.identifier);
      }
      chapterStart := record.chapterStart.value.scene;
      if record.scene.None? {
        return MissingKey(SceneField);
      }
      current := Named(record.scene.value);
      if record.scene.value.OtherMethod? {
        return NoSuchMethod(SceneField, record.scene.value.identifier);
      }
      EnterScene(record.scene.value.scene);
      outcome := Loaded;
    }
  }
}
