/** What the choice maps of the scenes with membership tests promise: the
    options a chapter start adds for companions, the buttons that swap their
    caption on an item, and the buttons that keep their caption and swap
    their target on a companion. */
module Gates {
  import opened Scenes
  import opened Labels
  import opened Story

  /** `r` offers a button captioned `caption`. */
  predicate Offers(r: seq<Choice>, caption: Label)
  {
    exists i :: 0 <= i < |r| && r[i].caption == caption
  }

  /** When no button after the first carries `caption`, the first one
      decides whether it is offered. */
  lemma OffersOnlyFirst(r: seq<Choice>, tail: seq<Choice>, caption: Label)
    requires r != [] && r[1..] == tail
    requires forall i :: 0 <= i < |tail| ==> tail[i].caption != caption
    ensures Offers(r, caption) <==> r[0].caption == caption
  {
  }

  /** `r` and `r'` are the maps of one scene in two states, the first with
      the token (`held`) or without it: button `k` has the same caption in
      both, leads to `pass` exactly when the token is held and to `fail`
      otherwise, and every other button is the same in both. */
  predicate Switched(r: seq<Choice>, r': seq<Choice>, k: nat, caption: Label, held: bool,
                     pass: Scene, fail: Scene)
  {
    |r| == |r'| && k < |r| && r[k].caption == caption && r'[k].caption == caption &&
    (r[k].target == Go(pass) <==> held) && (!held ==> r[k].target == Go(fail)) &&
    (forall j :: 0 <= j < |r| && j != k ==> r[j] == r'[j])
  }

  /** The choice map a continuing scene is drawn with is its passage's map:
      it does not depend on the chapter anchor. */
  lemma ContinuingChoices(p: Passage, inventory: seq<string>, companions: seq<string>, anchor: Scene)
    ensures Choices(Continuing(p), inventory, companions, anchor) == PassageChoices(p, inventory, companions)
  {
  }

  /** The buttons chapter_four_start draws for `companions`. */
  function ChapterFourStartButtons(companions: seq<string>): seq<Choice>
  {
    [Choice(LightATorch, Go(Continuing(ChapterFourStep2))),
     Choice(ProceedInDarkness, Go(Losing(ChapterFourFailChasm)))]
    + (if Borin in companions
       then [Choice(HaveBorinUseHisDarkvision, Go(Continuing(ChapterFourStep2)))] else [])
    + (if Elara in companions
       then [Choice(AskElaraToCastALightSpell, Go(Continuing(ChapterFourStep2)))] else [])
  }

  lemma ChapterFourStartShape(inventory: seq<string>, companions: seq<string>)
    ensures PassageChoices(ChapterFourStart, inventory, companions) == ChapterFourStartButtons(companions)
  {
    assert PassageChoices(ChapterFourStart, inventory, companions) ==
           ChapterFourChoices(ChapterFourStart, inventory, companions);
  }

  lemma ChapterFourStartButtonsOffer(companions: seq<string>)
    ensures var r := ChapterFourStartButtons(companions);
            |r| == 2 + (if Borin in companions then 1 else 0) + (if Elara in companions then 1 else 0) &&
            r[..2] == [Choice(LightATorch, Go(Continuing(ChapterFourStep2))),
                       Choice(ProceedInDarkness, Go(Losing(ChapterFourFailChasm)))] &&
            (Offers(r, HaveBorinUseHisDarkvision) <==> Borin in companions) &&
            (Offers(r, AskElaraToCastALightSpell) <==> Elara in companions) &&
            (forall i :: 2 <= i < |r| ==> r[i].target == Go(Continuing(ChapterFourStep2))) &&
            (Borin in companions ==> r[2].caption == HaveBorinUseHisDarkvision)
  {
    var r := ChapterFourStartButtons(companions);
    if Borin in companions {
      assert r[2].caption == HaveBorinUseHisDarkvision;
    }
    if Elara in companions {
      assert r[|r| - 1].caption == AskElaraToCastALightSpell;
    }
  }

  /** chapter_four_start (Chooseyourownadventure.py:679-692) always begins
      with the torch and the darkness, then offers Borin's darkvision and
      Elara's light spell exactly when each of them is a companion, in that
      order, both leading to chapter_four_step_2. */
  lemma ChapterFourStartChoices(inventory: seq<string>, companions: seq<string>)
    ensures var r := PassageChoices(ChapterFourStart, inventory, companions);
            |r| == 2 + (if Borin in companions then 1 else 0) + (if Elara in companions then 1 else 0) &&
            r[..2] == [Choice(LightATorch, Go(Continuing(ChapterFourStep2))),
                       Choice(ProceedInDarkness, Go(Losing(ChapterFourFailChasm)))] &&
            (Offers(r, HaveBorinUseHisDarkvision) <==> Borin in companions) &&
            (Offers(r, AskElaraToCastALightSpell) <==> Elara in companions) &&
            (forall i :: 2 <= i < |r| ==> r[i].target == Go(Continuing(ChapterFourStep2))) &&
            (Borin in companions ==> r[2].caption == HaveBorinUseHisDarkvision)
  {
    ChapterFourStartShape(inventory, companions);
    ChapterFourStartButtonsOffer(companions);
  }

  /** The buttons chapter_nine_step_4 draws for `inventory`. */
  function ChapterNineStep4Buttons(inventory: seq<string>): seq<Choice>
  {
    [if SturdyShield in inventory
     then Choice(UseYourShieldAsABridge, Go(Continuing(ChapterNineStep5)))
     else Choice(TryToFindSomethingToBridgeTheGap, Go(Losing(ChapterNineFailNoShieldBridge)))]
    + [Choice(AttemptToJumpOverIt, Go(Losing(ChapterNineFailLavaJump))),
                       Choice(PourWaterOnItToCoolIt, Go(Losing(ChapterNineFailSteamHiss))),
                       Choice(LookForAnotherWayAround, Go(Losing(ChapterNineFailDragonStirs)))]
  }

  lemma ChapterNineStep4Shape(inventory: seq<string>, companions: seq<string>)
    ensures PassageChoices(ChapterNineStep4, inventory, companions) == ChapterNineStep4Buttons(inventory)
  {
    assert PassageChoices(ChapterNineStep4, inventory, companions) ==
           ChapterNineChoices(ChapterNineStep4, inventory, companions);
  }

  lemma ChapterNineStep4ButtonsOffer(inventory: seq<string>)
    ensures var r := ChapterNineStep4Buttons(inventory);
            |r| == 4 &&
            (Offers(r, UseYourShieldAsABridge) <==> SturdyShield in inventory) &&
            (Offers(r, TryToFindSomethingToBridgeTheGap) <==> SturdyShield !in inventory) &&
            (r[0].target == Go(Continuing(ChapterNineStep5)) <==> SturdyShield in inventory) &&
            r[1..] == [Choice(AttemptToJumpOverIt, Go(Losing(ChapterNineFailLavaJump))),
                       Choice(PourWaterOnItToCoolIt, Go(Losing(ChapterNineFailSteamHiss))),
                       Choice(LookForAnotherWayAround, Go(Losing(ChapterNineFailDragonStirs)))]
  {
    var r := ChapterNineStep4Buttons(inventory);
    assert r[1..] == [Choice(AttemptToJumpOverIt, Go(Losing(ChapterNineFailLavaJump))),
                       Choice(PourWaterOnItToCoolIt, Go(Losing(ChapterNineFailSteamHiss))),
                       Choice(LookForAnotherWayAround, Go(Losing(ChapterNineFailDragonStirs)))];
    OffersOnlyFirst(r, r[1..], UseYourShieldAsABridge);
    OffersOnlyFirst(r, r[1..], TryToFindSomethingToBridgeTheGap);
  }

  /** chapter_nine_step_4 (Chooseyourownadventure.py:1061-1075) always offers
      four buttons: the shield bridge exactly when the shield is held, the
      search for a bridge exactly when it is not, and then the same three
      failures. */
  lemma ChapterNineStep4Choices(inventory: seq<string>, companions: seq<string>)
    ensures var r := PassageChoices(ChapterNineStep4, inventory, companions);
            |r| == 4 &&
            (Offers(r, UseYourShieldAsABridge) <==> SturdyShield in inventory) &&
            (Offers(r, TryToFindSomethingToBridgeTheGap) <==> SturdyShield !in inventory) &&
            (r[0].target == Go(Continuing(ChapterNineStep5)) <==> SturdyShield in inventory) &&
            r[1..] == [Choice(AttemptToJumpOverIt, Go(Losing(ChapterNineFailLavaJump))),
                       Choice(PourWaterOnItToCoolIt, Go(Losing(ChapterNineFailSteamHiss))),
                       Choice(LookForAnotherWayAround, Go(Losing(ChapterNineFailDragonStirs)))]
  {
    ChapterNineStep4Shape(inventory, companions);
    ChapterNineStep4ButtonsOffer(inventory);
  }

  /** The buttons chapter_ten_start draws for `inventory`. */
  function ChapterTenStartButtons(inventory: seq<string>): seq<Choice>
  {
    [if AncientSword in inventory
     then Choice(SneakCloserForASurpriseAttack, Go(Continuing(ChapterTenStep2)))
     else Choice(ChargeWithYourNormalWeapon, Go(Losing(ChapterTenFailNoSword)))]
    + [Choice(TryToStealSomeTreasure, Go(Losing(ChapterTenFailSteal))),
                       Choice(ShoutToWakeItUp, Go(Losing(ChapterTenFailShout))),
                       Choice(ThrowARockAtIt, Go(Losing(ChapterTenFailRock)))]
  }

  lemma ChapterTenStartShape(inventory: seq<string>, companions: seq<string>)
    ensures PassageChoices(ChapterTenStart, inventory, companions) == ChapterTenStartButtons(inventory)
  {
    assert PassageChoices(ChapterTenStart, inventory, companions) ==
           ChapterTenChoices(ChapterTenStart, inventory, companions);
  }

  lemma ChapterTenStartButtonsOffer(inventory: seq<string>)
    ensures var r := ChapterTenStartButtons(inventory);
            |r| == 4 &&
            (Offers(r, SneakCloserForASurpriseAttack) <==> AncientSword in inventory) &&
            (Offers(r, ChargeWithYourNormalWeapon) <==> AncientSword !in inventory) &&
            (r[0].target == Go(Continuing(ChapterTenStep2)) <==> AncientSword in inventory) &&
            r[1..] == [Choice(TryToStealSomeTreasure, Go(Losing(ChapterTenFailSteal))),
                       Choice(ShoutToWakeItUp, Go(Losing(ChapterTenFailShout))),
                       Choice(ThrowARockAtIt, Go(Losing(ChapterTenFailRock)))]
  {
    var r := ChapterTenStartButtons(inventory);
    assert r[1..] == [Choice(TryToStealSomeTreasure, Go(Losing(ChapterTenFailSteal))),
                       Choice(ShoutToWakeItUp, Go(Losing(ChapterTenFailShout))),
                       Choice(ThrowARockAtIt, Go(Losing(ChapterTenFailRock)))];
    OffersOnlyFirst(r, r[1..], SneakCloserForASurpriseAttack);
    OffersOnlyFirst(r, r[1..], ChargeWithYourNormalWeapon);
  }

  /** chapter_ten_start (Chooseyourownadventure.py:1102-1114) does the same
      with the sword: the surprise attack exactly when it is held, the charge
      with a normal weapon exactly when it is not, then three failures. */
  lemma ChapterTenStartChoices(inventory: seq<string>, companions: seq<string>)
    ensures var r := PassageChoices(ChapterTenStart, inventory, companions);
            |r| == 4 &&
            (Offers(r, SneakCloserForASurpriseAttack) <==> AncientSword in inventory) &&
            (Offers(r, ChargeWithYourNormalWeapon) <==> AncientSword !in inventory) &&
            (r[0].target == Go(Continuing(ChapterTenStep2)) <==> AncientSword in inventory) &&
            r[1..] == [Choice(TryToStealSomeTreasure, Go(Losing(ChapterTenFailSteal))),
                       Choice(ShoutToWakeItUp, Go(Losing(ChapterTenFailShout))),
                       Choice(ThrowARockAtIt, Go(Losing(ChapterTenFailRock)))]
  {
    ChapterTenStartShape(inventory, companions);
    ChapterTenStartButtonsOffer(inventory);
  }

  /** ChapterFourStep3: button 1 keeps its caption and switches its target on Elara
      (Chooseyourownadventure.py:707); the other buttons do not depend on
      the state. */
  lemma ChapterFourStep3Switch(inventory: seq<string>, companions: seq<string>,
               inventory': seq<string>, companions': seq<string>)
    ensures Switched(PassageChoices(ChapterFourStep3, inventory, companions),
                     PassageChoices(ChapterFourStep3, inventory', companions'),
                     1, AskElaraToDispelIt, Elara in companions, Continuing(ChapterFourStep4), Losing(ChapterFourFailNoElara))
  {
  }

  /** ChapterFiveStep3: button 0 keeps its caption and switches its target on Elara
      (Chooseyourownadventure.py:772); the other buttons do not depend on
      the state. */
  lemma ChapterFiveStep3Switch(inventory: seq<string>, companions: seq<string>,
               inventory': seq<string>, companions': seq<string>)
    ensures Switched(PassageChoices(ChapterFiveStep3, inventory, companions),
                     PassageChoices(ChapterFiveStep3, inventory', companions'),
                     0, AskElaraToExamineIt, Elara in companions, Continuing(ChapterFiveStep4), Losing(ChapterFiveFailNoElaraPlant))
  {
  }

  /** ChapterSixStep2: button 0 keeps its caption and switches its target on Borin
      (Chooseyourownadventure.py:832); the other buttons do not depend on
      the state. */
  lemma ChapterSixStep2Switch(inventory: seq<string>, companions: seq<string>,
               inventory': seq<string>, companions': seq<string>)
    ensures Switched(PassageChoices(ChapterSixStep2, inventory, companions),
                     PassageChoices(ChapterSixStep2, inventory', companions'),
                     0, HaveBorinThrowAGrapplingHook, Borin in companions, Continuing(ChapterSixStep3), Losing(ChapterSixFailNoBorinHook))
  {
  }

  /** ChapterSevenStep2: button 0 keeps its caption and switches its target on Borin
      (Chooseyourownadventure.py:906); the other buttons do not depend on
      the state. */
  lemma ChapterSevenStep2Switch(inventory: seq<string>, companions: seq<string>,
               inventory': seq<string>, companions': seq<string>)
    ensures Switched(PassageChoices(ChapterSevenStep2, inventory, companions),
                     PassageChoices(ChapterSevenStep2, inventory', companions'),
                     0, AskBorinToReadTheRunes, Borin in companions, Continuing(ChapterSevenStep3), Losing(ChapterSevenFailNoDwarf))
  {
  }

  /** ChapterEightStep4: button 0 keeps its caption and switches its target on Elara
      (Chooseyourownadventure.py:996); the other buttons do not depend on
      the state. */
  lemma ChapterEightStep4Switch(inventory: seq<string>, companions: seq<string>,
               inventory': seq<string>, companions': seq<string>)
    ensures Switched(PassageChoices(ChapterEightStep4, inventory, companions),
                     PassageChoices(ChapterEightStep4, inventory', companions'),
                     0, HaveElaraCastACleansingPrayer, Elara in companions, Continuing(ChapterEightStep5), Losing(ChapterEightFailNoElaraHaze))
  {
  }

  /** ChapterTenStep2: button 3 keeps its caption and switches its target on Borin
      (Chooseyourownadventure.py:1121); the other buttons do not depend on
      the state. */
  lemma ChapterTenStep2Switch(inventory: seq<string>, companions: seq<string>,
               inventory': seq<string>, companions': seq<string>)
    ensures Switched(PassageChoices(ChapterTenStep2, inventory, companions),
                     PassageChoices(ChapterTenStep2, inventory', companions'),
                     3, HaveBorinMakeADistraction, Borin in companions, Continuing(ChapterTenStep3), Losing(ChapterTenFailDistraction))
  {
  }

  /** ChapterTenStep4: button 3 keeps its caption and switches its target on Elara
      (Chooseyourownadventure.py:1141); the other buttons do not depend on
      the state. */
  lemma ChapterTenStep4Switch(inventory: seq<string>, companions: seq<string>,
               inventory': seq<string>, companions': seq<string>)
    ensures Switched(PassageChoices(ChapterTenStep4, inventory, companions),
                     PassageChoices(ChapterTenStep4, inventory', companions'),
                     3, HaveElaraCastAWaterSpell, Elara in companions, Continuing(ChapterTenStep5), Losing(ChapterTenFailNoWaterSpell))
  {
  }

  /** ChapterTenStep5: button 3 keeps its caption and switches its target on Borin
      (Chooseyourownadventure.py:1151); the other buttons do not depend on
      the state. */
  lemma ChapterTenStep5Switch(inventory: seq<string>, companions: seq<string>,
               inventory': seq<string>, companions': seq<string>)
    ensures Switched(PassageChoices(ChapterTenStep5, inventory, companions),
                     PassageChoices(ChapterTenStep5, inventory', companions'),
                     3, AskBorinToThrowYou, Borin in companions, Continuing(ChapterTenStep6), Losing(ChapterTenFailDwarfToss))
  {
  }

  /** ChapterTenStep6: button 3 keeps its caption and switches its target on Elara
      (Chooseyourownadventure.py:1161); the other buttons do not depend on
      the state. */
  lemma ChapterTenStep6Switch(inventory: seq<string>, companions: seq<string>,
               inventory': seq<string>, companions': seq<string>)
    ensures Switched(PassageChoices(ChapterTenStep6, inventory, companions),
                     PassageChoices(ChapterTenStep6, inventory', companions'),
                     3, SignalElaraToHealYou, Elara in companions, Continuing(ChapterTenStep7), Losing(ChapterTenFailBadTimingHeal))
  {
  }
}
