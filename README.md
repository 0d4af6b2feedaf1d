# Your Awesome Adventure — the narrative state machine, in Dafny

`Chooseyourownadventure.py` is a choose-your-own-adventure game: a tkinter
window shows a scene (a picture, a paragraph of story and a row of choice
buttons), and every scene is a method `chapter_*` of the class
`AdventureGame`. This project models the part of that class that decides what
happens. The rest of the file draws widgets, plays sounds and fetches images.

The modelled part has these pieces:

- **The state.** `inventory` and `companions` (lists of strings),
  `current_chapter_start_method` (the chapter anchor) and
  `current_scene_method`.
- **The 167 scene methods.** There are 53 continuing scenes and 114 end
  scenes (113 failures and the win). Each scene has an entry effect and an
  ordered choice map built from membership tests on the two lists.
- **The fixed end-scene choices.** "Try Again" re-enters the anchor,
  "Play Again" returns to the main menu, and "Quit" closes the window.
- **The operations around the graph.** `start_game`, the `button_action` of
  each choice button, `save_game` and `load_game` on slots 1 and 2, and the
  status-bar, end-text and slot-label strings.

Modules, one per file:

- `Scenes` (`scenes.dfy`): one constructor per scene method, and each scene's
  Python name.
- `Labels` (`labels.dfy`): one constructor per button text, and its text.
- `Story` (`story.dfy`): the scene graph.
  - The entry effects (`ItemsOnEntry`, `CompanionsOnEntry`, `AnchorOnEntry`).
  - The choice map of every scene (`Choices`, and one function per chapter).
  - The gates (`Admits`) and the three-stage progress measure (`Stage`,
    `Advances`). These are what let the model prove that the story cannot be
    short-cut.
- `Gates` (`gates.dfy`): the promises of the individual choice maps that
  test membership.
- `Engine` (`engine.dfy`): the object's fields as a value `Game`, and the
  operations as functions on it. The save directory is a `map<int, SlotFile>`.
- `Status` (`status.dfy`): the texts built from the state.
- `Playthrough` (`playthrough.dfy`): whole sessions of button presses.
  - An invariant that every press keeps.
  - The theorem that the win scene is only shown with all four tokens.
  - A concrete session in which a reload doubles the shield.
- `Adventure` (`adventure.dfy`): the class `AdventureGame` with the same
  fields. Its methods assign and append step by step as the Python does, and
  each is proved equal to its `Engine` function.

Where the code and the design it follows disagree, the model follows the
code:

- **Entry effects are not idempotent.** Entering chapter_two_step_3 appends
  "Sturdy Shield" every time (line 550).
- **A failed load is not side-effect free.** `load_game` assigns each field
  as soon as it has read it (439-443), so a load that stops early keeps what
  it already assigned.
- **A successful load does not reproduce the saved state exactly.** It
  re-enters the saved scene and re-runs that scene's entry effect.
- **A save is not atomic.** The file is opened for writing before
  `json.dump` runs. When the dump fails, the old save is lost and a truncated
  file remains.

## Model

| member | source | states |
|---|---|---|
| Story.ItemsOnEntry | Chooseyourownadventure.py:548-550 | Entering a scene extends the inventory by at most one entry. It is one entry longer exactly when the scene is chapter_two_step_3 (the shield) or chapter_four_step_4 (the sword), whether or not the item is already held. |
| Story.CompanionsOnEntry | Chooseyourownadventure.py:643-646 | The companion list grows by one exactly in chapter_two_step_5_companion (Elara, unconditionally), or in chapter_three_step_5 (Borin) while fewer than two companions are held. Otherwise it is unchanged. |
| Story.AnchorOnEntry | Chooseyourownadventure.py:455-456 | A chapter start makes itself the anchor. No other scene changes the anchor. |
| Story.Choices | Chooseyourownadventure.py:294-311 | Each scene's map:<br>- is non-empty and never repeats a caption;<br>- for a passage, enters only scenes whose gate the state passes, and never skips a stage;<br>- for a lost scene, is exactly Try Again to the anchor, then Quit;<br>- for the win scene, is exactly Play Again to the main menu, then Quit. |
| Story.PassageChoices | Chooseyourownadventure.py:455-1174 | Every passage offers at least one button, and every button enters a scene whose token test the current lists pass. |
| Story.PassageCaptionsDistinct | Chooseyourownadventure.py:455-1174 | No passage builds a dict with two equal keys, so the ordered list loses no entry. |
| Story.PassageChoicesAdvance | Chooseyourownadventure.py:455-1174 | No passage offers a button past a gate. Every target stays in the passage's stage or enters the next stage through its entry scene. |
| Story.ChapterOneChoices | Chooseyourownadventure.py:455-500 | Chapter one's maps are non-empty and lead only to scenes the state admits. |
| Story.ChapterOneCaptionsDistinct | Chooseyourownadventure.py:455-500 | Chapter one's maps have distinct captions. |
| Story.ChapterOneAdvances | Chooseyourownadventure.py:455-500 | Chapter one's buttons never skip a gate. |
| Story.ChapterTwoChoices | Chooseyourownadventure.py:527-579 | Chapter two's maps are non-empty and lead only to admitted scenes. |
| Story.ChapterTwoCaptionsDistinct | Chooseyourownadventure.py:527-579 | Chapter two's maps have distinct captions. |
| Story.ChapterTwoAdvances | Chooseyourownadventure.py:527-579 | Chapter two's buttons never skip a gate. |
| Story.ChapterThreeChoices | Chooseyourownadventure.py:602-649 | Chapter three's maps are non-empty and lead only to admitted scenes. |
| Story.ChapterThreeCaptionsDistinct | Chooseyourownadventure.py:602-649 | Chapter three's maps have distinct captions. |
| Story.ChapterThreeAdvances | Chooseyourownadventure.py:602-649 | Chapter three's buttons never skip a gate. |
| Story.ChapterFourChoices | Chooseyourownadventure.py:679-725 | Chapter four's maps are non-empty and lead only to admitted scenes. |
| Story.ChapterFourCaptionsDistinct | Chooseyourownadventure.py:679-725 | Chapter four's maps have distinct captions. |
| Story.ChapterFourAdvances | Chooseyourownadventure.py:679-725 | Chapter four's buttons never skip a gate. |
| Story.ChapterFiveChoices | Chooseyourownadventure.py:748-793 | Chapter five's maps are non-empty and lead only to admitted scenes. |
| Story.ChapterFiveCaptionsDistinct | Chooseyourownadventure.py:748-793 | Chapter five's maps have distinct captions. |
| Story.ChapterFiveAdvances | Chooseyourownadventure.py:748-793 | Chapter five's buttons never skip a gate. |
| Story.ChapterSixChoices | Chooseyourownadventure.py:818-863 | Chapter six's maps are non-empty and lead only to admitted scenes. |
| Story.ChapterSixCaptionsDistinct | Chooseyourownadventure.py:818-863 | Chapter six's maps have distinct captions. |
| Story.ChapterSixAdvances | Chooseyourownadventure.py:818-863 | Chapter six's buttons never skip a gate. |
| Story.ChapterSevenChoices | Chooseyourownadventure.py:892-937 | Chapter seven's maps are non-empty and lead only to admitted scenes. |
| Story.ChapterSevenCaptionsDistinct | Chooseyourownadventure.py:892-937 | Chapter seven's maps have distinct captions. |
| Story.ChapterSevenAdvances | Chooseyourownadventure.py:892-937 | Chapter seven's buttons never skip a gate. |
| Story.ChapterEightChoices | Chooseyourownadventure.py:962-1007 | Chapter eight's maps are non-empty and lead only to admitted scenes. |
| Story.ChapterEightCaptionsDistinct | Chooseyourownadventure.py:962-1007 | Chapter eight's maps have distinct captions. |
| Story.ChapterEightAdvances | Chooseyourownadventure.py:962-1007 | Chapter eight's buttons never skip a gate. |
| Story.ChapterNineChoices | Chooseyourownadventure.py:1030-1080 | Chapter nine's maps are non-empty and lead only to admitted scenes. chapter_nine_step_4 is corrected; see Findings. |
| Story.ChapterNineCaptionsDistinct | Chooseyourownadventure.py:1030-1080 | Chapter nine's maps have distinct captions. |
| Story.ChapterNineAdvances | Chooseyourownadventure.py:1030-1080 | Chapter nine's buttons never skip a gate. |
| Story.ChapterTenChoices | Chooseyourownadventure.py:1102-1174 | Chapter ten's maps are non-empty and lead only to admitted scenes. |
| Story.ChapterTenCaptionsDistinct | Chooseyourownadventure.py:1102-1174 | Chapter ten's maps have distinct captions. |
| Story.ChapterTenAdvances | Chooseyourownadventure.py:1102-1174 | Chapter ten's buttons never skip a gate. |
| Story.ChapterNineStep4AsWritten | Chooseyourownadventure.py:1061-1073 | As written, building the map fails exactly when the shield is missing. When the shield is held, the result is the model's map. |
| Story.ChapterNineStep4AsWrittenFails | Chooseyourownadventure.py:1068 | With an empty inventory the written method fails, while the corrected map offers the fallback button to the new failure scene. |
| Gates.ContinuingChoices | Chooseyourownadventure.py:276-285 | A continuing scene is drawn with its passage's map, whatever the anchor. |
| Gates.ChapterFourStartChoices | Chooseyourownadventure.py:682-689 | chapter_four_start:<br>- always starts with the torch and the darkness;<br>- offers Borin's darkvision iff Borin is a companion, and Elara's light spell iff Elara is, Borin's first;<br>- the added buttons lead to chapter_four_step_2;<br>- has 2, 3 or 4 buttons accordingly. |
| Gates.ChapterNineStep4Choices | Chooseyourownadventure.py:1063-1073 | Always four buttons. "Use your shield as a bridge" iff the shield is held, and the fallback label iff not. The first button leads on iff the shield is held. The last three are fixed. |
| Gates.ChapterTenStartChoices | Chooseyourownadventure.py:1105-1112 | The same with the sword: four buttons, the surprise attack iff it is held, and the normal-weapon charge iff not. |
| Gates.ChapterFourStep3Switch | Chooseyourownadventure.py:707 | "Ask Elara to dispel it" keeps its place and caption. It leads to chapter_four_step_4 iff Elara is a companion, and to chapter_four_fail_no_elara otherwise. The other buttons do not depend on the state. |
| Gates.ChapterFiveStep3Switch | Chooseyourownadventure.py:772 | The same rule for "Ask Elara to examine it". |
| Gates.ChapterSixStep2Switch | Chooseyourownadventure.py:832 | The same rule for Borin's grappling hook. |
| Gates.ChapterSevenStep2Switch | Chooseyourownadventure.py:906 | The same rule for Borin reading the runes. |
| Gates.ChapterEightStep4Switch | Chooseyourownadventure.py:996 | The same rule for Elara's cleansing prayer. |
| Gates.ChapterTenStep2Switch | Chooseyourownadventure.py:1121 | The same rule for Borin's distraction. |
| Gates.ChapterTenStep4Switch | Chooseyourownadventure.py:1141 | The same rule for Elara's water spell. |
| Gates.ChapterTenStep5Switch | Chooseyourownadventure.py:1151 | The same rule for Borin throwing the player. |
| Gates.ChapterTenStep6Switch | Chooseyourownadventure.py:1161 | The same rule for Elara's healing. |
| Engine.ActionName | Chooseyourownadventure.py:283 | The name stored is a scene method's exactly when the button enters a scene, and it names that scene. The menu and quit buttons store `show_main_menu` and `quit`. |
| Engine.Enter | Chooseyourownadventure.py:233-291 | Entering a scene:<br>- gives the lists exactly the scene's entry appends (`ItemsOnEntry`, `CompanionsOnEntry`);<br>- changes the anchor only at a chapter start;<br>- leaves `current_scene_method` alone;<br>- shows the scene's map for the new state. |
| Engine.NewGame | Chooseyourownadventure.py:200-212 | New Game empties both lists, sets the anchor to chapter_one_start and `current_scene_method` to the bound method, and shows chapter_one_start. |
| Engine.Press | Chooseyourownadventure.py:279-285 | Pressing button `i`:<br>- stores the target's name, then runs the target;<br>- shows a scene iff the target is one, and then that scene;<br>- for a scene target, the new state is exactly `Enter` of that scene after the name is stored;<br>- only extends the lists;<br>- the menu button shows the main menu;<br>- leaves lists and anchor alone for the menu and quit;<br>- quit closes the window. |
| Engine.Save | Chooseyourownadventure.py:412-422 | The slot is overwritten and no other slot changes. The slot holds a full record of the four fields exactly when `current_scene_method` is a name; otherwise it holds a truncated file. |
| Engine.Load | Chooseyourownadventure.py:429-450 | Loading:<br>- without a file, or from a file that does not parse, changes nothing;<br>- succeeds iff the record is complete;<br>- a failed load keeps exactly the fields assigned before it stopped;<br>- a successful load assigns all four and re-enters the saved scene;<br>- from a written file, the outcome and fields are those of `LoadRecord` on its record. |
| Engine.LoadRecord | Chooseyourownadventure.py:439-450 | The field-by-field assignments. The load stops, one iff per stopping point:<br>- at "inventory" iff it is missing;<br>- at "companions" iff the inventory was read and it is missing;<br>- at "current_chapter_start_method" iff both lists were read and it is missing, or names no scene method (then the error carries that name);<br>- at "current_scene_method" iff the anchor was set and it is missing, or names no scene method (the name is stored first).<br>It succeeds iff the record is complete, and never reports a missing or unparsable file. A failed load keeps exactly the fields assigned before the stop. |
| Engine.TryAgainKeepsLists | Chooseyourownadventure.py:303-304 | On a lost scene, button 0 is "Try Again". It re-enters the anchor and keeps the inventory, the companions and the anchor. |
| Engine.ChapterStartKeepsLists | Chooseyourownadventure.py:455-456 | A chapter start has no entry effect on either list. |
| Engine.SaveLoadRoundTrip | Chooseyourownadventure.py:412-450 | Loading a slot just saved restores the four fields over any game and re-enters the saved scene. |
| Engine.SaveAfterNewGameFails | Chooseyourownadventure.py:209 | A save straight after New Game leaves a truncated slot, and loading it changes nothing. |
| Engine.ReloadRepeatsShield | Chooseyourownadventure.py:550 | A save taken in chapter_two_step_3 loads with the saved inventory plus one more "Sturdy Shield". |
| Engine.LoadWithoutCompanionsKeepsInventory | Chooseyourownadventure.py:439-440 | A record without "companions" stops the load after the inventory has already been replaced. |
| Status.StatusTextReads | Chooseyourownadventure.py:224-228 | Each half of the status bar starts with its heading and ": ". With no entries the rest is exactly the placeholder ("Empty" for the inventory, "None" for the companions). Otherwise every entry can be read in the rest, the text ends with the last entry, and its length is the entries' characters plus two per separator. |
| Status.JoinContains | Chooseyourownadventure.py:224 | Every item of the list occurs in its joined text. |
| Status.JoinEndsWithLast | Chooseyourownadventure.py:224 | The joined text of a non-empty list ends with its last item. |
| Status.JoinAppend | Chooseyourownadventure.py:224 | Appending an item to a non-empty list adds ", " and the item at the right end of the joined text. |
| Status.JoinLength | Chooseyourownadventure.py:224 | The joined text has the items' characters plus two per separator. |
| Status.ShieldShowsInStatus | Chooseyourownadventure.py:224 | After chapter_two_step_3 the status bar ends with the shield once more, or shows only the shield. |
| Status.EndText | Chooseyourownadventure.py:296-305 | The end text is the story, a newline, then "You Win!" or "You Lose.". |
| Status.EndTextDetermines | Chooseyourownadventure.py:296-305 | The end text determines both the story and whether it was a win. |
| Status.DecimalText | Chooseyourownadventure.py:395 | The slot number is rendered as a non-empty string of decimal digits that reads back as the same number. |
| Status.SlotLabels | Chooseyourownadventure.py:393-400 | The two slot buttons read "Slot 1: " and "Slot 2: ", each followed by "In Use" iff a file exists for that slot, otherwise "Empty". |
| Status.FailedSaveShowsInUse | Chooseyourownadventure.py:396-400 | A failed save straight after New Game still labels its slot "In Use", though loading it cannot succeed. |
| Playthrough.Step | Chooseyourownadventure.py:338-406 | One button press:<br>- once the window is closed nothing changes;<br>- only a Save on a scene changes the save directory;<br>- a Save never changes the game. |
| Playthrough.EnterKeepsConsistent | Chooseyourownadventure.py:233-291 | Entering a scene the player is equipped for keeps the game consistent with the story. |
| Playthrough.ChoiceKeepsEquipped | Chooseyourownadventure.py:455-1174 | Following any offered button keeps the player equipped for where they are. |
| Playthrough.NewGameKeepsConsistent | Chooseyourownadventure.py:200-212 | New Game always yields a consistent game. |
| Playthrough.PressKeepsConsistent | Chooseyourownadventure.py:279-285 | Pressing any choice button keeps the game consistent. |
| Playthrough.LoadKeepsConsistent | Chooseyourownadventure.py:429-450 | Loading from honest save files keeps the game consistent, whether the load succeeds or stops early. |
| Playthrough.SaveKeepsHonest | Chooseyourownadventure.py:412-422 | Saving a consistent game keeps every save file the game's own. |
| Playthrough.StepKeepsInv | Chooseyourownadventure.py:338-406 | Every button press keeps the invariant. |
| Playthrough.RunKeepsInv | Chooseyourownadventure.py:338-406 | Every sequence of presses keeps the invariant. |
| Playthrough.WinNeedsAllTokens | Chooseyourownadventure.py:1175-1177 | Starting from the main menu with only the game's own saves, chapter_ten_step_8 is shown only with "Sturdy Shield" and "Ancient Sword" in the inventory and Elara and Borin among the companions. |
| Playthrough.ForgedSaveWinsEmptyHanded | Chooseyourownadventure.py:436-450 | A hand-made save naming chapter_ten_step_8 reaches the win scene with nothing collected, so the honest-saves premise is needed. |
| Playthrough.HonestPlayHasShieldAtBridge | Chooseyourownadventure.py:1063-1066 | In a consistent game chapter_nine_step_4 is reached only with the shield, so the written method does not fail there. |
| Playthrough.RouteToChapterOneStep2 | Chooseyourownadventure.py:200-212 | New Game then button 0 shows chapter_one_step_2 with empty lists. |
| Playthrough.RouteToChapterOneStep4 | Chooseyourownadventure.py:455-500 | Buttons 2 and 0 lead on to chapter_one_step_4. |
| Playthrough.RouteToChapterTwoStart | Chooseyourownadventure.py:496-528 | Two more presses reach chapter_two_start, which becomes the anchor. |
| Playthrough.RouteToChapterTwoStep3 | Chooseyourownadventure.py:527-551 | Two more presses reach chapter_two_step_3 holding one shield. |
| Playthrough.SaveAndLoadAtChapterTwoStep3 | Chooseyourownadventure.py:412-450 | Saving there and loading the slot leaves two shields. |
| Playthrough.ReloadedShieldIsDoubled | Chooseyourownadventure.py:436-450 | The whole session from the main menu (New Game, six choices, Save slot 1, Load slot 1) ends with the inventory holding "Sturdy Shield" twice. |
| Adventure.AdventureGame.constructor | Chooseyourownadventure.py:38-60 | The object starts on the main menu with empty lists. The save directory holds whatever files earlier runs left, since it is only created when missing. The invariant holds iff those files are the game's own. |
| Adventure.AdventureGame.EnterScene | Chooseyourownadventure.py:550 | The in-place appends and the anchor update produce exactly `Engine.Enter` of the old state. The save directory is untouched. |
| Adventure.AdventureGame.StartGame | Chooseyourownadventure.py:200-212 | The new fields are exactly `Engine.NewGame` of the old ones, and the result is consistent. |
| Adventure.AdventureGame.ShowMainMenu | Chooseyourownadventure.py:313-316 | The main menu replaces the scene, and nothing else changes. |
| Adventure.AdventureGame.Quit | Chooseyourownadventure.py:154-157 | The window closes, and nothing else changes. |
| Adventure.AdventureGame.ButtonAction | Chooseyourownadventure.py:279-285 | The new fields are exactly `Engine.Press` of the old ones, and the invariant is kept. |
| Adventure.AdventureGame.SaveGame | Chooseyourownadventure.py:412-422 | The save directory becomes `Engine.Save` of the old one, and the game is unchanged. The result tells whether a full record was written. Saving from a scene keeps the invariant. |
| Adventure.AdventureGame.LoadGame | Chooseyourownadventure.py:429-450 | The early returns and stepwise assignments give exactly `Engine.Load`: the same fields and the same outcome. The invariant is kept. |

## Left out

- **Rendering and media.** Drawing widgets, pictures, resizing, dialogs,
  audio and the downloading of missing assets are I/O with no effect on the
  story state. They are not modelled.
- **Story text and pictures.** The text and image file of each scene carry
  no logic and are not part of the model. The end text is modelled for any
  story string (`Status.EndText`).
- **JSON.** A save file is a `SaveRecord` of optional fields, or `Garbled`
  for the truncated document a failed `json.dump` leaves. These are also not
  modelled:
  - entries of the wrong JSON type;
  - extra keys, which `load_game` ignores, as the model does;
  - files edited into some other broken form.
- **Name lookup with `getattr`.** A saved name is either a scene method or
  any other identifier. A name naming some other method of the object (for
  example `show_main_menu`) is treated like a name with no method behind it:
  the load stops with `NoSuchMethod`. In Python it would be called, or stored
  as the anchor and called by a later "Try Again". A name that spells a
  scene method's identifier is written as that scene (`SceneMethod`), which
  is how `save_game` writes it; an `OtherMethod` carrying such a spelling is
  not resolved to the scene.
- **Fields before the first New Game.** Before the first New Game or load,
  Python has no story fields at all. The model starts them empty, anchored
  at chapter_one_start, which only matters to a load that stops early from
  the main menu.
- **The "Resume" button of the pause menu and the "Back" buttons of the
  slot menus.** They only remove a menu over the current screen; the pause
  and slot menus are not states of the model. The status bar is modelled as
  a text of the state, not as a widget.
- **Exceptions.** An exception escaping a button callback is reported by
  tkinter and the program goes on with the fields as they are at that
  moment. The model stops the operation there (`Save`, `LoadRecord`).
- Playthrough.Step: stated by its reference definition. Its own `ensures`
  gives only the frame facts (a closed window, the save directory), and the
  invariant lemmas carry the rest.

## Findings

| source | as written | input that shows it | evidently intended | confidence | as-written member | corrected member |
|---|---|---|---|---|---|---|
| Chooseyourownadventure.py:1068 | Without "Sturdy Shield", chapter_nine_step_4 makes its fallback button enter `self.chapter_nine_fail_no_shield_bridge`. The class defines no such method, so building the map raises AttributeError and the scene is never shown. | Entering chapter_nine_step_4 with an inventory without "Sturdy Shield". Honest play never does this (`Playthrough.HonestPlayHasShieldAtBridge`), but loading a hand-edited save naming chapter_nine_step_4 does. | A losing scene like the other chapter-nine failures. The fallback "Try to find something to bridge the gap" leads to it, and the scene offers Try Again and Quit. The model adds it as the failure `ChapterNineFailNoShieldBridge`. `Gates.ChapterNineStep4Choices` proves the scene then always offers four buttons. | not executed | Story.ChapterNineStep4AsWrittenFails | Story.ChapterNineChoices |
