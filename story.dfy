/** What each scene does when it is entered: the side effect it applies to
    the inventory, the companions and the chapter anchor, and the ordered
    text-to-target choice map it builds from that state. */
module Story {
  import opened Wrappers
  import opened Scenes
  import opened Labels

  // The four tokens the scenes test for and append.
  const SturdyShield := "Sturdy Shield"
  const AncientSword := "Ancient Sword"
  const Elara := "Elara the Healer"
  const Borin := "Borin the Warrior"

  /** What a choice button runs: a scene method (also the chapter anchor
      behind "Try Again"), `show_main_menu` or `quit`. */
  datatype Action = Go(scene: Scene) | ShowMainMenu | QuitGame

  /** One entry of a choice map: the button text and what it runs. */
  datatype Choice = Choice(caption: Label, target: Action)

  /** The inventory after entering `s`. Only chapter_two_step_3 and
      chapter_four_step_4 append, and they append whether or not the item is
      already held (Chooseyourownadventure.py:550, 715). */
  function ItemsOnEntry(s: Scene, inventory: seq<string>): (r: seq<string>)
    ensures inventory <= r && |r| <= |inventory| + 1
    ensures |r| == |inventory| + 1 <==>
              s == Continuing(ChapterTwoStep3) || s == Continuing(ChapterFourStep4)
    ensures s == Continuing(ChapterTwoStep3) ==> r[|inventory|] == SturdyShield
    ensures s == Continuing(ChapterFourStep4) ==> r[|inventory|] == AncientSword
  {
    match s
    case Continuing(ChapterTwoStep3) => inventory + [SturdyShield]
    case Continuing(ChapterFourStep4) => inventory + [AncientSword]
    case _ => inventory
  }

  /** The companions after entering `s`. Elara joins unconditionally in
      chapter_two_step_5_companion; Borin joins in chapter_three_step_5 only
      while fewer than two companions are held (Chooseyourownadventure.py:571,
      645-646). */
  function CompanionsOnEntry(s: Scene, companions: seq<string>): (r: seq<string>)
    ensures companions <= r && |r| <= |companions| + 1
    ensures |r| == |companions| + 1 <==>
              s == Continuing(ChapterTwoStep5Companion) ||
              (s == Continuing(ChapterThreeStep5) && |companions| < 2)
    ensures s == Continuing(ChapterTwoStep5Companion) ==> r[|companions|] == Elara
    ensures s == Continuing(ChapterThreeStep5) && |companions| < 2 ==> r[|companions|] == Borin
  {
    match s
    case Continuing(ChapterTwoStep5Companion) => companions + [Elara]
    case Continuing(ChapterThreeStep5) =>
      if |companions| < 2 then companions + [Borin] else companions
    case _ => companions
  }

  /** The chapter anchor after entering `s`: a chapter start makes itself the
      anchor, every other scene leaves it alone. */
  function AnchorOnEntry(s: Scene, anchor: Scene): (r: Scene)
    ensures r != anchor ==> IsChapterStart(s) && r == s
    ensures IsChapterStart(s) ==> r == s
  {
    if IsChapterStart(s) then s else anchor
  }

  /** The token a scene is reserved for: the targets that a choice map
      offers only after a membership test (Chooseyourownadventure.py:707,
      772, 832, 906, 996, 1065-1066, 1106-1107). The scenes behind the other
      membership tests (1121, 1141, 1151, 1161) are also offered without one
      and admit every state. */
  predicate Admits(t: Scene, inventory: seq<string>, companions: seq<string>)
  {
    match t
    case Continuing(ChapterFourStep4) => Elara in companions
    case Continuing(ChapterFiveStep4) => Elara in companions
    case Continuing(ChapterEightStep5) => Elara in companions
    case Continuing(ChapterSixStep3) => Borin in companions
    case Continuing(ChapterSevenStep3) => Borin in companions
    case Continuing(ChapterNineStep5) => SturdyShield in inventory
    case Continuing(ChapterTenStep2) => AncientSword in inventory
    case _ => true
  }

  /** How far into the story a scene lies, counted in the three gates every
      path from chapter_one_start to it has passed: 1 from chapter_two_step_3,
      which hands out the shield; 2 from chapter_four_step_4, which only Elara
      opens and which hands out the sword; 3 from chapter_six_step_3, which
      only Borin opens. The failures lie at 0: they need nothing. */
  function Stage(s: Scene): (r: nat)
    ensures r <= 3
  {
    match s
    case Losing(_) => 0
    case Winning => 3
    case Continuing(p) => PassageStage(p)
  }

  function PassageStage(p: Passage): nat
  {
    match p
    case ChapterOneStart
      | ChapterOneStep2
      | ChapterOneStep3
      | ChapterOneStep4
      | ChapterOneStep5
      | ChapterTwoStart
      | ChapterTwoStep2 => 0
    case ChapterTwoStep3
      | ChapterTwoStep4
      | ChapterTwoStep5Companion
      | ChapterTwoStep5Solo
      | ChapterThreeStart
      | ChapterThreeStep2
      | ChapterThreeStep3
      | ChapterThreeStep4
      | ChapterThreeStep5
      | ChapterFourStart
      | ChapterFourStep2
      | ChapterFourStep3 => 1
    case ChapterFourStep4
      | ChapterFourStep5
      | ChapterFiveStart
      | ChapterFiveStep2
      | ChapterFiveStep3
      | ChapterFiveStep4
      | ChapterFiveStep5
      | ChapterSixStart
      | ChapterSixStep2 => 2
    case ChapterSixStep3
      | ChapterSixStep4
      | ChapterSixStep5
      | ChapterSevenStart
      | ChapterSevenStep2
      | ChapterSevenStep3
      | ChapterSevenStep4
      | ChapterSevenStep5
      | ChapterEightStart
      | ChapterEightStep2
      | ChapterEightStep3
      | ChapterEightStep4
      | ChapterEightStep5
      | ChapterNineStart
      | ChapterNineStep2
      | ChapterNineStep3
      | ChapterNineStep4
      | ChapterNineStep5
      | ChapterTenStart
      | ChapterTenStep2
      | ChapterTenStep3
      | ChapterTenStep4
      | ChapterTenStep5
      | ChapterTenStep6
      | ChapterTenStep7 => 3
  }

  /** The three scenes that open a new stage. */
  predicate IsStageEntry(s: Scene)
  {
    s == Continuing(ChapterTwoStep3) || s == Continuing(ChapterFourStep4) ||
    s == Continuing(ChapterSixStep3)
  }

  /** A move from `source` to `target` never skips a gate: it stays at or
      below the stage of `source`, or enters the next stage through its
      entry scene. */
  predicate Advances(source: Scene, target: Scene)
  {
    Stage(target) <= Stage(source) || (Stage(target) == Stage(source) + 1 && IsStageEntry(target))
  }

  /** The fixed choices of a terminal scene (Chooseyourownadventure.py:294-311):
      a win returns to the main menu, a loss re-enters the chapter anchor,
      and both can quit. */
  function EndChoices(isWin: bool, anchor: Scene): seq<Choice>
  {
    if isWin then [Choice(PlayAgain, ShowMainMenu), Choice(Quit, QuitGame)]
    else [Choice(TryAgain, Go(anchor)), Choice(Quit, QuitGame)]
  }

  /** The choice map scene `s` shows, in declaration order, given the state
      after its entry effect: built from membership tests on the two lists
      for a passage, the fixed end choices built from the current chapter
      anchor for a terminal scene. */
  function Choices(s: Scene, inventory: seq<string>, companions: seq<string>, anchor: Scene): (r: seq<Choice>)
    ensures r != []
    ensures s.Continuing? ==>
              forall i :: 0 <= i < |r| ==>
                r[i].target.Go? && Admits(r[i].target.scene, inventory, companions) &&
                Advances(s, r[i].target.scene)
    ensures forall i, j :: 0 <= i < j < |r| ==> r[i].caption != r[j].caption
    ensures s.Losing? ==> r == [Choice(TryAgain, Go(anchor)), Choice(Quit, QuitGame)]
    ensures s.Winning? ==> r == [Choice(PlayAgain, ShowMainMenu), Choice(Quit, QuitGame)]
  {
    match s
    case Continuing(p) =>
      PassageCaptionsDistinct(p, inventory, companions);
      PassageChoicesAdvance(p, inventory, companions);
      PassageChoices(p, inventory, companions)
    case Losing(_) => EndChoices(false, anchor)
    case Winning => EndChoices(true, anchor)
  }

  /** The passages of each chapter. */
  predicate InChapterOne(p: Passage)
  {
    p.ChapterOneStart? || p.ChapterOneStep2? || p.ChapterOneStep3? || p.ChapterOneStep4? || p.ChapterOneStep5?
  }

  predicate InChapterTwo(p: Passage)
  {
    p.ChapterTwoStart? || p.ChapterTwoStep2? || p.ChapterTwoStep3? || p.ChapterTwoStep4? || p.ChapterTwoStep5Companion? || p.ChapterTwoStep5Solo?
  }

  predicate InChapterThree(p: Passage)
  {
    p.ChapterThreeStart? || p.ChapterThreeStep2? || p.ChapterThreeStep3? || p.ChapterThreeStep4? || p.ChapterThreeStep5?
  }

  predicate InChapterFour(p: Passage)
  {
    p.ChapterFourStart? || p.ChapterFourStep2? || p.ChapterFourStep3? || p.ChapterFourStep4? || p.ChapterFourStep5?
  }

  predicate InChapterFive(p: Passage)
  {
    p.ChapterFiveStart? || p.ChapterFiveStep2? || p.ChapterFiveStep3? || p.ChapterFiveStep4? || p.ChapterFiveStep5?
  }

  predicate InChapterSix(p: Passage)
  {
    p.ChapterSixStart? || p.ChapterSixStep2? || p.ChapterSixStep3? || p.ChapterSixStep4? || p.ChapterSixStep5?
  }

  predicate InChapterSeven(p: Passage)
  {
    p.ChapterSevenStart? || p.ChapterSevenStep2? || p.ChapterSevenStep3? || p.ChapterSevenStep4? || p.ChapterSevenStep5?
  }

  predicate InChapterEight(p: Passage)
  {
    p.ChapterEightStart? || p.ChapterEightStep2? || p.ChapterEightStep3? || p.ChapterEightStep4? || p.ChapterEightStep5?
  }

  predicate InChapterNine(p: Passage)
  {
    p.ChapterNineStart? || p.ChapterNineStep2? || p.ChapterNineStep3? || p.ChapterNineStep4? || p.ChapterNineStep5?
  }

  predicate InChapterTen(p: Passage)
  {
    p.ChapterTenStart? || p.ChapterTenStep2? || p.ChapterTenStep3? || p.ChapterTenStep4? || p.ChapterTenStep5? || p.ChapterTenStep6? || p.ChapterTenStep7?
  }

  /** The choice map of each passage (Chooseyourownadventure.py:455-1173),
      in the order its buttons are laid out. A passage never offers the menu
      or quitting, and never a gated scene whose token is missing. */
  function PassageChoices(p: Passage, inventory: seq<string>, companions: seq<string>): (r: seq<Choice>)
    ensures r != []
    ensures forall i :: 0 <= i < |r| ==> r[i].target.Go? && Admits(r[i].target.scene, inventory, companions)
  {
    if InChapterOne(p) then ChapterOneChoices(p, inventory, companions)
    else if InChapterTwo(p) then ChapterTwoChoices(p, inventory, companions)
    else if InChapterThree(p) then ChapterThreeChoices(p, inventory, companions)
    else if InChapterFour(p) then ChapterFourChoices(p, inventory, companions)
    else if InChapterFive(p) then ChapterFiveChoices(p, inventory, companions)
    else if InChapterSix(p) then ChapterSixChoices(p, inventory, companions)
    else if InChapterSeven(p) then ChapterSevenChoices(p, inventory, companions)
    else if InChapterEight(p) then ChapterEightChoices(p, inventory, companions)
    else if InChapterNine(p) then ChapterNineChoices(p, inventory, companions)
    else ChapterTenChoices(p, inventory, companions)
  }

  /** No passage offers two buttons with the same caption. `Labels` gives
      each distinct button text its own constructor (`LabelText` is not
      proved injective here), so the Python dict keyed by button text loses
      no entry and the sequence model is exact. */
  lemma PassageCaptionsDistinct(p: Passage, inventory: seq<string>, companions: seq<string>)
    ensures var r := PassageChoices(p, inventory, companions);
            forall i, j :: 0 <= i < j < |r| ==> r[i].caption != r[j].caption
  {
    if InChapterOne(p) {
      ChapterOneCaptionsDistinct(p, inventory, companions);
    } else if InChapterTwo(p) {
      ChapterTwoCaptionsDistinct(p, inventory, companions);
    } else if InChapterThree(p) {
      ChapterThreeCaptionsDistinct(p, inventory, companions);
    } else if InChapterFour(p) {
      ChapterFourCaptionsDistinct(p, inventory, companions);
    } else if InChapterFive(p) {
      ChapterFiveCaptionsDistinct(p, inventory, companions);
    } else if InChapterSix(p) {
      ChapterSixCaptionsDistinct(p, inventory, companions);
    } else if InChapterSeven(p) {
      ChapterSevenCaptionsDistinct(p, inventory, companions);
    } else if InChapterEight(p) {
      ChapterEightCaptionsDistinct(p, inventory, companions);
    } else if InChapterNine(p) {
      ChapterNineCaptionsDistinct(p, inventory, companions);
    } else {
      ChapterTenCaptionsDistinct(p, inventory, companions);
    }
  }

  /** No passage offers a way past a gate: every choice stays within the
      stage of the passage or enters the next one through its entry scene. */
  lemma PassageChoicesAdvance(p: Passage, inventory: seq<string>, companions: seq<string>)
    ensures var r := PassageChoices(p, inventory, companions);
            forall i :: 0 <= i < |r| ==> Advances(Continuing(p), r[i].target.scene)
  {
    if InChapterOne(p) {
      ChapterOneAdvances(p, inventory, companions);
    } else if InChapterTwo(p) {
      ChapterTwoAdvances(p, inventory, companions);
    } else if InChapterThree(p) {
      ChapterThreeAdvances(p, inventory, companions);
    } else if InChapterFour(p) {
      ChapterFourAdvances(p, inventory, companions);
    } else if InChapterFive(p) {
      ChapterFiveAdvances(p, inventory, companions);
    } else if InChapterSix(p) {
      ChapterSixAdvances(p, inventory, companions);
    } else if InChapterSeven(p) {
      ChapterSevenAdvances(p, inventory, companions);
    } else if InChapterEight(p) {
      ChapterEightAdvances(p, inventory, companions);
    } else if InChapterNine(p) {
      ChapterNineAdvances(p, inventory, companions);
    } else {
      ChapterTenAdvances(p, inventory, companions);
    }
  }

  /** chapter_nine_step_4 as written (Chooseyourownadventure.py:1061-1073):
      without the shield, building its map reads the attribute
      `chapter_nine_fail_no_shield_bridge`, which the class does not define,
      so the method raises AttributeError before anything is shown (`None`).
      With the shield it builds the map the model uses. */
  function ChapterNineStep4AsWritten(inventory: seq<string>, companions: seq<string>): (r: Option<seq<Choice>>)
    ensures r.None? <==> SturdyShield !in inventory
    ensures r.Some? ==> r.value == PassageChoices(ChapterNineStep4, inventory, companions)
  {
    if SturdyShield in inventory then
      Some([ Choice(UseYourShieldAsABridge, Go(Continuing(ChapterNineStep5))),
             Choice(AttemptToJumpOverIt, Go(Losing(ChapterNineFailLavaJump))),
             Choice(PourWaterOnItToCoolIt, Go(Losing(ChapterNineFailSteamHiss))),
             Choice(LookForAnotherWayAround, Go(Losing(ChapterNineFailDragonStirs))) ])
    else None
  }

  /** The input that shows it: entering chapter_nine_step_4 with an empty
      inventory, as a hand-edited save allows, fails as written, while the
      corrected map offers the fallback button leading to the new failure
      scene. */
  lemma ChapterNineStep4AsWrittenFails()
    ensures ChapterNineStep4AsWritten([], []) == None
    ensures PassageChoices(ChapterNineStep4, [], [])[0] ==
            Choice(TryToFindSomethingToBridgeTheGap, Go(Losing(ChapterNineFailNoShieldBridge)))
  {
  }

  /** The choice maps of chapter one (Chooseyourownadventure.py:455-500). */
  function ChapterOneChoices(p: Passage, inventory: seq<string>, companions: seq<string>): (r: seq<Choice>)
    requires p.ChapterOneStart? || p.ChapterOneStep2? || p.ChapterOneStep3? || p.ChapterOneStep4? || p.ChapterOneStep5?
    ensures r != []
    ensures forall i :: 0 <= i < |r| ==> r[i].target.Go? && Admits(r[i].target.scene, inventory, companions)
  {
    match p
    case ChapterOneStart =>  // Chooseyourownadventure.py:455-465
      [ Choice(FollowTheSignTowardsTheWoods, Go(Continuing(ChapterOneStep2))),
        Choice(TakeThePathTowardsTheMountains, Go(Losing(ChapterOneFailCliff))),
        Choice(FollowTheRiverDownstream, Go(Losing(ChapterOneFailRapids))),
        Choice(RestUnderANearbyTree, Go(Losing(ChapterOneFailSleep))) ]
    case ChapterOneStep2 =>  // Chooseyourownadventure.py:466-475
      [ Choice(InvestigateTheSound, Go(Losing(ChapterOneFailWolf))),
        Choice(ShoutLoudly, Go(Losing(ChapterOneFailBandits))),
        Choice(ContinueCautiouslyOnThePath, Go(Continuing(ChapterOneStep3))),
        Choice(ClimbATreeToHide, Go(Losing(ChapterOneFailStuck))) ]
    case ChapterOneStep3 =>  // Chooseyourownadventure.py:476-485
      [ Choice(CrossTheBridgeCarefully, Go(Continuing(ChapterOneStep4))),
        Choice(TryToFindAnotherWayAround, Go(Losing(ChapterOneFailLost))),
        Choice(TestTheBridgeByThrowingARockOnIt, Go(Losing(ChapterOneFailBridgeCollapse))),
        Choice(TurnBack, Go(Continuing(ChapterOneStart))) ]
    case ChapterOneStep4 =>  // Chooseyourownadventure.py:486-495
      [ Choice(HeadTowardsTheSmoke, Go(Continuing(ChapterOneStep5))),
        Choice(AvoidTheSmokeAndGoTheOtherWay, Go(Losing(ChapterOneFailSwamp))),
        Choice(WaitAndObserveFromADistance, Go(Losing(ChapterOneFailNightfall))),
        Choice(ShoutHello, Go(Losing(ChapterOneFailGoblins))) ]
    case ChapterOneStep5 =>  // Chooseyourownadventure.py:496-500
      [ Choice(ContinueToChapter2, Go(Continuing(ChapterTwoStart))) ]
  }

  lemma ChapterOneCaptionsDistinct(p: Passage, inventory: seq<string>, companions: seq<string>)
    requires p.ChapterOneStart? || p.ChapterOneStep2? || p.ChapterOneStep3? || p.ChapterOneStep4? || p.ChapterOneStep5?
    ensures var r := ChapterOneChoices(p, inventory, companions);
            forall i, j :: 0 <= i < j < |r| ==> r[i].caption != r[j].caption
  {
  }

  lemma ChapterOneAdvances(p: Passage, inventory: seq<string>, companions: seq<string>)
    requires p.ChapterOneStart? || p.ChapterOneStep2? || p.ChapterOneStep3? || p.ChapterOneStep4? || p.ChapterOneStep5?
    ensures var r := ChapterOneChoices(p, inventory, companions);
            forall i :: 0 <= i < |r| ==> Advances(Continuing(p), r[i].target.scene)
  {
  }

  /** The choice maps of chapter two (Chooseyourownadventure.py:527-579). */
  function ChapterTwoChoices(p: Passage, inventory: seq<string>, companions: seq<string>): (r: seq<Choice>)
    requires p.ChapterTwoStart? || p.ChapterTwoStep2? || p.ChapterTwoStep3? || p.ChapterTwoStep4? || p.ChapterTwoStep5Companion? || p.ChapterTwoStep5Solo?
    ensures r != []
    ensures forall i :: 0 <= i < |r| ==> r[i].target.Go? && Admits(r[i].target.scene, inventory, companions)
  {
    match p
    case ChapterTwoStart =>  // Chooseyourownadventure.py:527-537
      [ Choice(ListenIntently, Go(Continuing(ChapterTwoStep2))),
        Choice(AskForPaymentFirst, Go(Losing(ChapterTwoFailInsult))),
        Choice(DismissHimAsALocalRambler, Go(Losing(ChapterTwoFailLeave))),
        Choice(OfferToHelpWithoutQuestion, Go(Losing(ChapterTwoFailNaive))) ]
    case ChapterTwoStep2 =>  // Chooseyourownadventure.py:538-547
      [ Choice(AgreeToHelpTheVillage, Go(Continuing(ChapterTwoStep3))),
        Choice(DeclineTheQuest, Go(Losing(ChapterTwoFailLeave))),
        Choice(SayTheTaskIsImpossible, Go(Losing(ChapterTwoFailCoward))),
        Choice(DemandAMapAndSupplies, Go(Losing(ChapterTwoFailGreedy))) ]
    case ChapterTwoStep3 =>  // Chooseyourownadventure.py:548-558
      [ Choice(AcceptTheShieldAndPrepareToLeave, Go(Continuing(ChapterTwoStep4))),
        Choice(RefuseTheShieldSayingYouTravelLight, Go(Losing(ChapterTwoFailNoShield))),
        Choice(AskForAWeaponInstead, Go(Losing(ChapterTwoFailUnprepared))),
        Choice(AskForGoldInstead, Go(Losing(ChapterTwoFailGreedy))) ]
    case ChapterTwoStep4 =>  // Chooseyourownadventure.py:559-568
      [ Choice(AcceptHerOffer, Go(Continuing(ChapterTwoStep5Companion))),
        Choice(PolitelyDecline, Go(Continuing(ChapterTwoStep5Solo))),
        Choice(QuestionHerMotives, Go(Losing(ChapterTwoFailDistrust))),
        Choice(TellHerItsTooDangerous, Go(Losing(ChapterTwoFailArrogant))) ]
    case ChapterTwoStep5Companion =>  // Chooseyourownadventure.py:569-574
      [ Choice(ContinueToChapter3, Go(Continuing(ChapterThreeStart))) ]
    case ChapterTwoStep5Solo =>  // Chooseyourownadventure.py:575-579
      [ Choice(ContinueToChapter3, Go(Continuing(ChapterThreeStart))) ]
  }

  lemma ChapterTwoCaptionsDistinct(p: Passage, inventory: seq<string>, companions: seq<string>)
    requires p.ChapterTwoStart? || p.ChapterTwoStep2? || p.ChapterTwoStep3? || p.ChapterTwoStep4? || p.ChapterTwoStep5Companion? || p.ChapterTwoStep5Solo?
    ensures var r := ChapterTwoChoices(p, inventory, companions);
            forall i, j :: 0 <= i < j < |r| ==> r[i].caption != r[j].caption
  {
  }

  lemma ChapterTwoAdvances(p: Passage, inventory: seq<string>, companions: seq<string>)
    requires p.ChapterTwoStart? || p.ChapterTwoStep2? || p.ChapterTwoStep3? || p.ChapterTwoStep4? || p.ChapterTwoStep5Companion? || p.ChapterTwoStep5Solo?
    ensures var r := ChapterTwoChoices(p, inventory, companions);
            forall i :: 0 <= i < |r| ==> Advances(Continuing(p), r[i].target.scene)
  {
  }

  /** The choice maps of chapter three (Chooseyourownadventure.py:602-649). */
  function ChapterThreeChoices(p: Passage, inventory: seq<string>, companions: seq<string>): (r: seq<Choice>)
    requires p.ChapterThreeStart? || p.ChapterThreeStep2? || p.ChapterThreeStep3? || p.ChapterThreeStep4? || p.ChapterThreeStep5?
    ensures r != []
    ensures forall i :: 0 <= i < |r| ==> r[i].target.Go? && Admits(r[i].target.scene, inventory, companions)
  {
    match p
    case ChapterThreeStart =>  // Chooseyourownadventure.py:602-612
      [ Choice(TakeTheOvergrownPath, Go(Continuing(ChapterThreeStep2))),
        Choice(TakeTheWellTroddenPath, Go(Losing(ChapterThreeFailTrap))),
        Choice(TryToGoThroughTheMiddle, Go(Losing(ChapterThreeFailThorns))),
        Choice(RestAndEat, Go(Losing(ChapterThreeFailAnts))) ]
    case ChapterThreeStep2 =>  // Chooseyourownadventure.py:613-622
      [ Choice(FollowTheTracks, Go(Continuing(ChapterThreeStep3))),
        Choice(IgnoreThemAndMakeYourOwnPath, Go(Losing(ChapterThreeFailLost))),
        Choice(SetATrapHere, Go(Losing(ChapterThreeFailSelfTrap))),
        Choice(CallOutToSeeWhoIsThere, Go(Losing(ChapterThreeFailSpiders))) ]
    case ChapterThreeStep3 =>  // Chooseyourownadventure.py:623-632
      [ Choice(OfferToHelpHim, Go(Continuing(ChapterThreeStep4))),
        Choice(DrawYourWeapon, Go(Losing(ChapterThreeFailDwarfFight))),
        Choice(SneakAroundHim, Go(Losing(ChapterThreeFailDwarfSpot))),
        Choice(WatchFromADistance, Go(Losing(ChapterThreeFailDwarfLeaves))) ]
    case ChapterThreeStep4 =>  // Chooseyourownadventure.py:633-642
      [ Choice(WelcomeBorinToTheGroup, Go(Continuing(ChapterThreeStep5))),
        Choice(SayYouWorkAlone, Go(Losing(ChapterThreeFailDwarfInsult))),
        Choice(AskWhatsInItForHim, Go(Losing(ChapterThreeFailDwarfSuspicious))),
        Choice(StaySilent, Go(Losing(ChapterThreeFailDwarfAwkward))) ]
    case ChapterThreeStep5 =>  // Chooseyourownadventure.py:643-649
      [ Choice(ContinueToChapter4, Go(Continuing(ChapterFourStart))) ]
  }

  lemma ChapterThreeCaptionsDistinct(p: Passage, inventory: seq<string>, companions: seq<string>)
    requires p.ChapterThreeStart? || p.ChapterThreeStep2? || p.ChapterThreeStep3? || p.ChapterThreeStep4? || p.ChapterThreeStep5?
    ensures var r := ChapterThreeChoices(p, inventory, companions);
            forall i, j :: 0 <= i < j < |r| ==> r[i].caption != r[j].caption
  {
  }

  lemma ChapterThreeAdvances(p: Passage, inventory: seq<string>, companions: seq<string>)
    requires p.ChapterThreeStart? || p.ChapterThreeStep2? || p.ChapterThreeStep3? || p.ChapterThreeStep4? || p.ChapterThreeStep5?
    ensures var r := ChapterThreeChoices(p, inventory, companions);
            forall i :: 0 <= i < |r| ==> Advances(Continuing(p), r[i].target.scene)
  {
  }

  /** The choice maps of chapter four (Chooseyourownadventure.py:679-725). */
  function ChapterFourChoices(p: Passage, inventory: seq<string>, companions: seq<string>): (r: seq<Choice>)
    requires p.ChapterFourStart? || p.ChapterFourStep2? || p.ChapterFourStep3? || p.ChapterFourStep4? || p.ChapterFourStep5?
    ensures r != []
    ensures forall i :: 0 <= i < |r| ==> r[i].target.Go? && Admits(r[i].target.scene, inventory, companions)
  {
    match p
    case ChapterFourStart =>  // Chooseyourownadventure.py:679-692
      [ Choice(LightATorch, Go(Continuing(ChapterFourStep2))),
        Choice(ProceedInDarkness, Go(Losing(ChapterFourFailChasm))) ]
      + (if Borin in companions
         then [Choice(HaveBorinUseHisDarkvision, Go(Continuing(ChapterFourStep2)))] else [])
      + (if Elara in companions
         then [Choice(AskElaraToCastALightSpell, Go(Continuing(ChapterFourStep2)))] else [])
    case ChapterFourStep2 =>  // Chooseyourownadventure.py:693-702
      [ Choice(RightSilent, Go(Continuing(ChapterFourStep3))),
        Choice(LeftSulfurSmell, Go(Losing(ChapterFourFailEarlyDragon))),
        Choice(CheckForTraps, Go(Losing(ChapterFourFailNoTraps))),
        Choice(SendACompanionToScout, Go(Losing(ChapterFourFailSplitParty))) ]
    case ChapterFourStep3 =>  // Chooseyourownadventure.py:703-712
      [ Choice(TryToBreakItWithForce, Go(Losing(ChapterFourFailBarrierBlast))),
        Choice(AskElaraToDispelIt, Go(if Elara in companions then Continuing(ChapterFourStep4) else Losing(ChapterFourFailNoElara))),
        Choice(HaveBorinSmashIt, Go(Losing(ChapterFourFailBarrierBlast))),
        Choice(LookForASwitch, Go(Losing(ChapterFourFailNoSwitch))) ]
    case ChapterFourStep4 =>  // Chooseyourownadventure.py:713-720
      [ Choice(ReturnToTheMainCavern, Go(Continuing(ChapterFourStep5))) ]
    case ChapterFourStep5 =>  // Chooseyourownadventure.py:721-725
      [ Choice(ContinueToChapter5, Go(Continuing(ChapterFiveStart))) ]
  }

  lemma ChapterFourCaptionsDistinct(p: Passage, inventory: seq<string>, companions: seq<string>)
    requires p.ChapterFourStart? || p.ChapterFourStep2? || p.ChapterFourStep3? || p.ChapterFourStep4? || p.ChapterFourStep5?
    ensures var r := ChapterFourChoices(p, inventory, companions);
            forall i, j :: 0 <= i < j < |r| ==> r[i].caption != r[j].caption
  {
  }

  lemma ChapterFourAdvances(p: Passage, inventory: seq<string>, companions: seq<string>)
    requires p.ChapterFourStart? || p.ChapterFourStep2? || p.ChapterFourStep3? || p.ChapterFourStep4? || p.ChapterFourStep5?
    ensures var r := ChapterFourChoices(p, inventory, companions);
            forall i :: 0 <= i < |r| ==> Advances(Continuing(p), r[i].target.scene)
  {
  }

  /** The choice maps of chapter five (Chooseyourownadventure.py:748-793). */
  function ChapterFiveChoices(p: Passage, inventory: seq<string>, companions: seq<string>): (r: seq<Choice>)
    requires p.ChapterFiveStart? || p.ChapterFiveStep2? || p.ChapterFiveStep3? || p.ChapterFiveStep4? || p.ChapterFiveStep5?
    ensures r != []
    ensures forall i :: 0 <= i < |r| ==> r[i].target.Go? && Admits(r[i].target.scene, inventory, companions)
  {
    match p
    case ChapterFiveStart =>  // Chooseyourownadventure.py:748-758
      [ Choice(FollowMossyStonesAcrossTheWater, Go(Continuing(ChapterFiveStep2))),
        Choice(WadeDirectlyThroughTheMurkyWater, Go(Losing(ChapterFiveFailLeeches))),
        Choice(TryToSwingOnVinesLikeInStories, Go(Losing(ChapterFiveFailVineSnap))),
        Choice(AskBorinToClearAPathInTheReeds, Go(Losing(ChapterFiveFailSnakeNest))) ]
    case ChapterFiveStep2 =>  // Chooseyourownadventure.py:759-768
      [ Choice(CarefullySkirtTheEdgeOfThePool, Go(Continuing(ChapterFiveStep3))),
        Choice(ThrowARockInToSeeWhatHappens, Go(Losing(ChapterFiveFailMonster))),
        Choice(AttemptToBuildARaftFromOldLogs, Go(Losing(ChapterFiveFailRaftSinks))),
        Choice(TryToSwimAcrossQuickly, Go(Losing(ChapterFiveFailMonster))) ]
    case ChapterFiveStep3 =>  // Chooseyourownadventure.py:769-778
      [ Choice(AskElaraToExamineIt, Go(if Elara in companions then Continuing(ChapterFiveStep4) else Losing(ChapterFiveFailNoElaraPlant))),
        Choice(TouchThePlant, Go(Losing(ChapterFiveFailParalysis))),
        Choice(IgnoreItAndKeepMoving, Go(Losing(ChapterFiveFailLostInFog))),
        Choice(HarvestItForLater, Go(Losing(ChapterFiveFailParalysis))) ]
    case ChapterFiveStep4 =>  // Chooseyourownadventure.py:779-788
      [ Choice(UseTheGlimmerRootToLightTheWay, Go(Continuing(ChapterFiveStep5))),
        Choice(HuddleTogetherAndWaitForItToPass, Go(Losing(ChapterFiveFailAmbush))),
        Choice(ShoutForHelp, Go(Losing(ChapterFiveFailWillOWisp))),
        Choice(WalkForwardBlindly, Go(Losing(ChapterFiveFailLostInFog))) ]
    case ChapterFiveStep5 =>  // Chooseyourownadventure.py:789-793
      [ Choice(ContinueToChapter6, Go(Continuing(ChapterSixStart))) ]
  }

  lemma ChapterFiveCaptionsDistinct(p: Passage, inventory: seq<string>, companions: seq<string>)
    requires p.ChapterFiveStart? || p.ChapterFiveStep2? || p.ChapterFiveStep3? || p.ChapterFiveStep4? || p.ChapterFiveStep5?
    ensures var r := ChapterFiveChoices(p, inventory, companions);
            forall i, j :: 0 <= i < j < |r| ==> r[i].caption != r[j].caption
  {
  }

  lemma ChapterFiveAdvances(p: Passage, inventory: seq<string>, companions: seq<string>)
    requires p.ChapterFiveStart? || p.ChapterFiveStep2? || p.ChapterFiveStep3? || p.ChapterFiveStep4? || p.ChapterFiveStep5?
    ensures var r := ChapterFiveChoices(p, inventory, companions);
            forall i :: 0 <= i < |r| ==> Advances(Continuing(p), r[i].target.scene)
  {
  }

  /** The choice maps of chapter six (Chooseyourownadventure.py:818-863). */
  function ChapterSixChoices(p: Passage, inventory: seq<string>, companions: seq<string>): (r: seq<Choice>)
    requires p.ChapterSixStart? || p.ChapterSixStep2? || p.ChapterSixStep3? || p.ChapterSixStep4? || p.ChapterSixStep5?
    ensures r != []
    ensures forall i :: 0 <= i < |r| ==> r[i].target.Go? && Admits(r[i].target.scene, inventory, companions)
  {
    match p
    case ChapterSixStart =>  // Chooseyourownadventure.py:818-828
      [ Choice(TakeTheWindingPath, Go(Continuing(ChapterSixStep2))),
        Choice(AttemptTheSteepDirectClimb, Go(Losing(ChapterSixFailFall))),
        Choice(RestBeforeStartingTheClimb, Go(Losing(ChapterSixFailStorm))),
        Choice(AskBorinToFindASecretPassage, Go(Losing(ChapterSixFailNoPassage))) ]
    case ChapterSixStep2 =>  // Chooseyourownadventure.py:829-838
      [ Choice(HaveBorinThrowAGrapplingHook, Go(if Borin in companions then Continuing(ChapterSixStep3) else Losing(ChapterSixFailNoBorinHook))),
        Choice(AttemptADangerousRunningJump, Go(Losing(ChapterSixFailJump))),
        Choice(SearchForAnotherWayAround, Go(Losing(ChapterSixFailDeadEnd))),
        Choice(TryToClimbDownAndAroundTheGap, Go(Losing(ChapterSixFailLooseRocks))) ]
    case ChapterSixStep3 =>  // Chooseyourownadventure.py:839-848
      [ Choice(HuddleTogetherUnderALargeRockOverhang, Go(Continuing(ChapterSixStep4))),
        Choice(EnterADarkNarrowCaveOpening, Go(Losing(ChapterSixFailBear))),
        Choice(KeepPushingForwardThroughTheStorm, Go(Losing(ChapterSixFailLostInSnow))),
        Choice(TryToBuildASnowShelter, Go(Losing(ChapterSixFailCollapse))) ]
    case ChapterSixStep4 =>  // Chooseyourownadventure.py:849-858
      [ Choice(OfferItSomeOfYourRationsAsADistraction, Go(Continuing(ChapterSixStep5))),
        Choice(TryToScareItByShouting, Go(Losing(ChapterSixFailGoatCharge))),
        Choice(AttemptToSneakPastIt, Go(Losing(ChapterSixFailGoatCharge))),
        Choice(HaveBorinFightIt, Go(Losing(ChapterSixFailGoatFight))) ]
    case ChapterSixStep5 =>  // Chooseyourownadventure.py:859-863
      [ Choice(ContinueToChapter7, Go(Continuing(ChapterSevenStart))) ]
  }

  lemma ChapterSixCaptionsDistinct(p: Passage, inventory: seq<string>, companions: seq<string>)
    requires p.ChapterSixStart? || p.ChapterSixStep2? || p.ChapterSixStep3? || p.ChapterSixStep4? || p.ChapterSixStep5?
    ensures var r := ChapterSixChoices(p, inventory, companions);
            forall i, j :: 0 <= i < j < |r| ==> r[i].caption != r[j].caption
  {
  }

  lemma ChapterSixAdvances(p: Passage, inventory: seq<string>, companions: seq<string>)
    requires p.ChapterSixStart? || p.ChapterSixStep2? || p.ChapterSixStep3? || p.ChapterSixStep4? || p.ChapterSixStep5?
    ensures var r := ChapterSixChoices(p, inventory, companions);
            forall i :: 0 <= i < |r| ==> Advances(Continuing(p), r[i].target.scene)
  {
  }

  /** The choice maps of chapter seven (Chooseyourownadventure.py:892-937). */
  function ChapterSevenChoices(p: Passage, inventory: seq<string>, companions: seq<string>): (r: seq<Choice>)
    requires p.ChapterSevenStart? || p.ChapterSevenStep2? || p.ChapterSevenStep3? || p.ChapterSevenStep4? || p.ChapterSevenStep5?
    ensures r != []
    ensures forall i :: 0 <= i < |r| ==> r[i].target.Go? && Admits(r[i].target.scene, inventory, companions)
  {
    match p
    case ChapterSevenStart =>  // Chooseyourownadventure.py:892-902
      [ Choice(InvestigateTheScorchedCave, Go(Continuing(ChapterSevenStep2))),
        Choice(EnterTheIcyCave, Go(Losing(ChapterSevenFailFrostTroll))),
        Choice(ExploreTheNarrowFissure, Go(Losing(ChapterSevenFailDeadEndFissure))),
        Choice(ClimbHigherUpTheMountain, Go(Losing(ChapterSevenFailAvalanche))) ]
    case ChapterSevenStep2 =>  // Chooseyourownadventure.py:903-912
      [ Choice(AskBorinToReadTheRunes, Go(if Borin in companions then Continuing(ChapterSevenStep3) else Losing(ChapterSevenFailNoDwarf))),
        Choice(TryToForceTheDoorOpen, Go(Losing(ChapterSevenFailDoorTooStrong))),
        Choice(SearchForAHiddenLever, Go(Losing(ChapterSevenFailNoLever))),
        Choice(HaveElaraTryAMagicSpell, Go(Losing(ChapterSevenFailMagicImmune))) ]
    case ChapterSevenStep3 =>  // Chooseyourownadventure.py:913-922
      [ Choice(SpeakAethelgardToTheDoor, Go(Continuing(ChapterSevenStep4))),
        Choice(TryToTrickTheDoorBySayingTheMountain, Go(Losing(ChapterSevenFailRiddle))),
        Choice(YellAtTheDoorInFrustration, Go(Losing(ChapterSevenFailDoorTooStrong))),
        Choice(WriteTheNameOnTheDoor, Go(Losing(ChapterSevenFailRiddle))) ]
    case ChapterSevenStep4 =>  // Chooseyourownadventure.py:923-932
      [ Choice(FollowTheBreezeAvoidingThePlates, Go(Continuing(ChapterSevenStep5))),
        Choice(WalkStraightDownTheMiddle, Go(Losing(ChapterSevenFailDartTrap))),
        Choice(HaveBorinTryToDisarmTheTraps, Go(Losing(ChapterSevenFailTrapComplex))),
        Choice(ThrowARockOntoAPlateToTestIt, Go(Losing(ChapterSevenFailDartTrap))) ]
    case ChapterSevenStep5 =>  // Chooseyourownadventure.py:933-937
      [ Choice(ContinueToChapter8, Go(Continuing(ChapterEightStart))) ]
  }

  lemma ChapterSevenCaptionsDistinct(p: Passage, inventory: seq<string>, companions: seq<string>)
    requires p.ChapterSevenStart? || p.ChapterSevenStep2? || p.ChapterSevenStep3? || p.ChapterSevenStep4? || p.ChapterSevenStep5?
    ensures var r := ChapterSevenChoices(p, inventory, companions);
            forall i, j :: 0 <= i < j < |r| ==> r[i].caption != r[j].caption
  {
  }

  lemma ChapterSevenAdvances(p: Passage, inventory: seq<string>, companions: seq<string>)
    requires p.ChapterSevenStart? || p.ChapterSevenStep2? || p.ChapterSevenStep3? || p.ChapterSevenStep4? || p.ChapterSevenStep5?
    ensures var r := ChapterSevenChoices(p, inventory, companions);
            forall i :: 0 <= i < |r| ==> Advances(Continuing(p), r[i].target.scene)
  {
    assert PassageStage(p) == 3;
  }

  /** The choice maps of chapter eight (Chooseyourownadventure.py:962-1007). */
  function ChapterEightChoices(p: Passage, inventory: seq<string>, companions: seq<string>): (r: seq<Choice>)
    requires p.ChapterEightStart? || p.ChapterEightStep2? || p.ChapterEightStep3? || p.ChapterEightStep4? || p.ChapterEightStep5?
    ensures r != []
    ensures forall i :: 0 <= i < |r| ==> r[i].target.Go? && Admits(r[i].target.scene, inventory, companions)
  {
    match p
    case ChapterEightStart =>  // Chooseyourownadventure.py:962-972
      [ Choice(TakeTheLeftPath, Go(Continuing(ChapterEightStep2))),
        Choice(TakeTheRightPath, Go(Losing(ChapterEightFailPatrol))),
        Choice(TryToClimbThePillar, Go(Losing(ChapterEightFailHotPillar))),
        Choice(WaitAndListenForSounds, Go(Losing(ChapterEightFailPatrol))) ]
    case ChapterEightStep2 =>  // Chooseyourownadventure.py:973-982
      [ Choice(CrossOneByOneCarefully, Go(Continuing(ChapterEightStep3))),
        Choice(HaveEveryoneRunAcrossAtOnce, Go(Losing(ChapterEightFailBridgeCollapse))),
        Choice(TryToJumpTheChasm, Go(Losing(ChapterEightFailLavaJump))),
        Choice(LookForAnotherWay, Go(Losing(ChapterEightFailLavaFlow))) ]
    case ChapterEightStep3 =>  // Chooseyourownadventure.py:983-992
      [ Choice(StickToTheWallsAvoidingTheGold, Go(Continuing(ChapterEightStep4))),
        Choice(WalkStraightThroughTheTreasure, Go(Losing(ChapterEightFailMimic))),
        Choice(GrabAHandfulOfCoins, Go(Losing(ChapterEightFailMimic))),
        Choice(SendBorinFirstToTestTheGround, Go(Losing(ChapterEightFailMimic))) ]
    case ChapterEightStep4 =>  // Chooseyourownadventure.py:993-1002
      [ Choice(HaveElaraCastACleansingPrayer, Go(if Elara in companions then Continuing(ChapterEightStep5) else Losing(ChapterEightFailNoElaraHaze))),
        Choice(PushThroughWithSheerWillpower, Go(Losing(ChapterEightFailConfusion))),
        Choice(HoldYourBreathAndRun, Go(Losing(ChapterEightFailConfusion))),
        Choice(ThrowARockIntoIt, Go(Losing(ChapterEightFailHazeIntensifies))) ]
    case ChapterEightStep5 =>  // Chooseyourownadventure.py:1003-1007
      [ Choice(ContinueToChapter9, Go(Continuing(ChapterNineStart))) ]
  }

  lemma ChapterEightCaptionsDistinct(p: Passage, inventory: seq<string>, companions: seq<string>)
    requires p.ChapterEightStart? || p.ChapterEightStep2? || p.ChapterEightStep3? || p.ChapterEightStep4? || p.ChapterEightStep5?
    ensures var r := ChapterEightChoices(p, inventory, companions);
            forall i, j :: 0 <= i < j < |r| ==> r[i].caption != r[j].caption
  {
  }

  lemma ChapterEightAdvances(p: Passage, inventory: seq<string>, companions: seq<string>)
    requires p.ChapterEightStart? || p.ChapterEightStep2? || p.ChapterEightStep3? || p.ChapterEightStep4? || p.ChapterEightStep5?
    ensures var r := ChapterEightChoices(p, inventory, companions);
            forall i :: 0 <= i < |r| ==> Advances(Continuing(p), r[i].target.scene)
  {
    assert PassageStage(p) == 3;
  }

  /** The choice maps of chapter nine (Chooseyourownadventure.py:1030-1080). */
  function ChapterNineChoices(p: Passage, inventory: seq<string>, companions: seq<string>): (r: seq<Choice>)
    requires p.ChapterNineStart? || p.ChapterNineStep2? || p.ChapterNineStep3? || p.ChapterNineStep4? || p.ChapterNineStep5?
    ensures r != []
    ensures forall i :: 0 <= i < |r| ==> r[i].target.Go? && Admits(r[i].target.scene, inventory, companions)
  {
    match p
    case ChapterNineStart =>  // Chooseyourownadventure.py:1030-1040
      [ Choice(TakeTheCrumblingStaircase, Go(Continuing(ChapterNineStep2))),
        Choice(SlideDownTheChain, Go(Losing(ChapterNineFailChainNoise))),
        Choice(UseTheGravelSlide, Go(Losing(ChapterNineFailRockslide))),
        Choice(TryToClimbDownTheRockFace, Go(Losing(ChapterNineFailClimbFall))) ]
    case ChapterNineStep2 =>  // Chooseyourownadventure.py:1041-1050
      [ Choice(WalkOnTheShadowyEdgesOfTheRoom, Go(Continuing(ChapterNineStep3))),
        Choice(WalkDirectlyOverTheCoins, Go(Losing(ChapterNineFailCoinNoise))),
        Choice(TryToSwimThroughTheGold, Go(Losing(ChapterNineFailCoinNoise))),
        Choice(HaveBorinClearAPath, Go(Losing(ChapterNineFailCoinNoise))) ]
    case ChapterNineStep3 =>  // Chooseyourownadventure.py:1051-1060
      [ Choice(LungeAndCatchThem, Go(Continuing(ChapterNineStep4))),
        Choice(LetThemFallAndBraceForAFight, Go(Losing(ChapterNineFailGobletCrash))),
        Choice(FreezeAndHopeTheyDontFall, Go(Losing(ChapterNineFailGobletCrash))),
        Choice(TryToUseMagicToStopThem, Go(Losing(ChapterNineFailMagicNoise))) ]
    case ChapterNineStep4 =>  // Chooseyourownadventure.py:1061-1075
      (if SturdyShield in inventory
       then [Choice(UseYourShieldAsABridge, Go(Continuing(ChapterNineStep5)))]
       else [Choice(TryToFindSomethingToBridgeTheGap, Go(Losing(ChapterNineFailNoShieldBridge)))])
      + [ Choice(AttemptToJumpOverIt, Go(Losing(ChapterNineFailLavaJump))),
          Choice(PourWaterOnItToCoolIt, Go(Losing(ChapterNineFailSteamHiss))),
          Choice(LookForAnotherWayAround, Go(Losing(ChapterNineFailDragonStirs))) ]
    case ChapterNineStep5 =>  // Chooseyourownadventure.py:1076-1080
      [ Choice(ContinueToTheFinalChapter, Go(Continuing(ChapterTenStart))) ]
  }

  lemma ChapterNineCaptionsDistinct(p: Passage, inventory: seq<string>, companions: seq<string>)
    requires p.ChapterNineStart? || p.ChapterNineStep2? || p.ChapterNineStep3? || p.ChapterNineStep4? || p.ChapterNineStep5?
    ensures var r := ChapterNineChoices(p, inventory, companions);
            forall i, j :: 0 <= i < j < |r| ==> r[i].caption != r[j].caption
  {
  }

  lemma ChapterNineAdvances(p: Passage, inventory: seq<string>, companions: seq<string>)
    requires p.ChapterNineStart? || p.ChapterNineStep2? || p.ChapterNineStep3? || p.ChapterNineStep4? || p.ChapterNineStep5?
    ensures var r := ChapterNineChoices(p, inventory, companions);
            forall i :: 0 <= i < |r| ==> Advances(Continuing(p), r[i].target.scene)
  {
    assert PassageStage(p) == 3;
  }

  /** The choice maps of chapter ten (Chooseyourownadventure.py:1102-1174). */
  function ChapterTenChoices(p: Passage, inventory: seq<string>, companions: seq<string>): (r: seq<Choice>)
    requires p.ChapterTenStart? || p.ChapterTenStep2? || p.ChapterTenStep3? || p.ChapterTenStep4? || p.ChapterTenStep5? || p.ChapterTenStep6? || p.ChapterTenStep7?
    ensures r != []
    ensures forall i :: 0 <= i < |r| ==> r[i].target.Go? && Admits(r[i].target.scene, inventory, companions)
  {
    match p
    case ChapterTenStart =>  // Chooseyourownadventure.py:1102-1114
      (if AncientSword in inventory
       then [Choice(SneakCloserForASurpriseAttack, Go(Continuing(ChapterTenStep2)))]
       else [Choice(ChargeWithYourNormalWeapon, Go(Losing(ChapterTenFailNoSword)))])
      + [ Choice(TryToStealSomeTreasure, Go(Losing(ChapterTenFailSteal))),
          Choice(ShoutToWakeItUp, Go(Losing(ChapterTenFailShout))),
          Choice(ThrowARockAtIt, Go(Losing(ChapterTenFailRock))) ]
    case ChapterTenStep2 =>  // Chooseyourownadventure.py:1115-1124
      [ Choice(LungeForTheWeakSpotOnItsNeck, Go(Continuing(ChapterTenStep3))),
        Choice(AimForItsEye, Go(Losing(ChapterTenFailEyePoke))),
        Choice(Hesitate, Go(Losing(ChapterTenFailHesitate))),
        Choice(HaveBorinMakeADistraction, Go(if Borin in companions then Continuing(ChapterTenStep3) else Losing(ChapterTenFailDistraction))) ]
    case ChapterTenStep3 =>  // Chooseyourownadventure.py:1125-1134
      [ Choice(DodgeItsRetaliatingClawSwipe, Go(Continuing(ChapterTenStep4))),
        Choice(TryToPullTheSwordOut, Go(Losing(ChapterTenFailStuckSword))),
        Choice(StandYourGroundWithYourShield, Go(Losing(ChapterTenFailShieldBreak))),
        Choice(RunAway, Go(Losing(ChapterTenFailRunAway))) ]
    case ChapterTenStep4 =>  // Chooseyourownadventure.py:1135-1144
      [ Choice(HideBehindALargePillar, Go(Continuing(ChapterTenStep5))),
        Choice(TryToRunUnderItsBelly, Go(Losing(ChapterTenFailFireBelly))),
        Choice(UseYourShieldToDeflectTheFire, Go(Losing(ChapterTenFailShieldMelt))),
        Choice(HaveElaraCastAWaterSpell, Go(if Elara !in companions then Losing(ChapterTenFailNoWaterSpell) else Continuing(ChapterTenStep5))) ]
    case ChapterTenStep5 =>  // Chooseyourownadventure.py:1145-1154
      [ Choice(ScrambleUpItsLegToItsBack, Go(Continuing(ChapterTenStep6))),
        Choice(AttackItsTail, Go(Losing(ChapterTenFailTailWhip))),
        Choice(ThrowARockAtItsHead, Go(Losing(ChapterTenFailRockAnnoy))),
        Choice(AskBorinToThrowYou, Go(if Borin !in companions then Losing(ChapterTenFailDwarfToss) else Continuing(ChapterTenStep6))) ]
    case ChapterTenStep6 =>  // Chooseyourownadventure.py:1155-1164
      [ Choice(StabDownwardsIntoItsSpine, Go(Continuing(ChapterTenStep7))),
        Choice(TryToControlItLikeAHorse, Go(Losing(ChapterTenFailRodeo))),
        Choice(HoldOnForDearLife, Go(Losing(ChapterTenFailThrown))),
        Choice(SignalElaraToHealYou, Go(if Elara !in companions then Losing(ChapterTenFailBadTimingHeal) else Continuing(ChapterTenStep7))) ]
    case ChapterTenStep7 =>  // Chooseyourownadventure.py:1165-1174
      [ Choice(PrepareForTheFinalBlow, Go(Winning)),
        Choice(TauntTheBeast, Go(Losing(ChapterTenFailTaunt))),
        Choice(TryToReasonWithIt, Go(Losing(ChapterTenFailTalk))),
        Choice(LetYourCompanionsFinishIt, Go(Losing(ChapterTenFailLazy))) ]

  }

  lemma ChapterTenCaptionsDistinct(p: Passage, inventory: seq<string>, companions: seq<string>)
    requires p.ChapterTenStart? || p.ChapterTenStep2? || p.ChapterTenStep3? || p.ChapterTenStep4? || p.ChapterTenStep5? || p.ChapterTenStep6? || p.ChapterTenStep7?
    ensures var r := ChapterTenChoices(p, inventory, companions);
            forall i, j :: 0 <= i < j < |r| ==> r[i].caption != r[j].caption
  {
  }

  lemma ChapterTenAdvances(p: Passage, inventory: seq<string>, companions: seq<string>)
    requires p.ChapterTenStart? || p.ChapterTenStep2? || p.ChapterTenStep3? || p.ChapterTenStep4? || p.ChapterTenStep5? || p.ChapterTenStep6? || p.ChapterTenStep7?
    ensures var r := ChapterTenChoices(p, inventory, companions);
            forall i :: 0 <= i < |r| ==> Advances(Continuing(p), r[i].target.scene)
  {
    assert PassageStage(p) == 3;
  }
}
