/** The scenes of the story: one constructor per `chapter_*` method of
    `AdventureGame` (Chooseyourownadventure.py:455-1226), grouped by how the
    method ends, with the method identifiers and the ten chapter starts. */
module Scenes {

  /** A scene whose method calls `show_scene` with its own choice map.
      Constructor `ChapterTwoStep5Companion` stands for the method
      `chapter_two_step_5_companion`, and so on. */
  datatype Passage =
    // Chapter one: Chooseyourownadventure.py:455-500
    ChapterOneStart
    | ChapterOneStep2
    | ChapterOneStep3
    | ChapterOneStep4
    | ChapterOneStep5
    // Chapter two: Chooseyourownadventure.py:527-579
    | ChapterTwoStart
    | ChapterTwoStep2
    | ChapterTwoStep3
    | ChapterTwoStep4
    | ChapterTwoStep5Companion
    | ChapterTwoStep5Solo
    // Chapter three: Chooseyourownadventure.py:602-649
    | ChapterThreeStart
    | ChapterThreeStep2
    | ChapterThreeStep3
    | ChapterThreeStep4
    | ChapterThreeStep5
    // Chapter four: Chooseyourownadventure.py:679-725
    | ChapterFourStart
    | ChapterFourStep2
    | ChapterFourStep3
    | ChapterFourStep4
    | ChapterFourStep5
    // Chapter five: Chooseyourownadventure.py:748-793
    | ChapterFiveStart
    | ChapterFiveStep2
    | ChapterFiveStep3
    | ChapterFiveStep4
    | ChapterFiveStep5
    // Chapter six: Chooseyourownadventure.py:818-863
    | ChapterSixStart
    | ChapterSixStep2
    | ChapterSixStep3
    | ChapterSixStep4
    | ChapterSixStep5
    // Chapter seven: Chooseyourownadventure.py:892-937
    | ChapterSevenStart
    | ChapterSevenStep2
    | ChapterSevenStep3
    | ChapterSevenStep4
    | ChapterSevenStep5
    // Chapter eight: Chooseyourownadventure.py:962-1007
    | ChapterEightStart
    | ChapterEightStep2
    | ChapterEightStep3
    | ChapterEightStep4
    | ChapterEightStep5
    // Chapter nine: Chooseyourownadventure.py:1030-1080
    | ChapterNineStart
    | ChapterNineStep2
    | ChapterNineStep3
    | ChapterNineStep4
    | ChapterNineStep5
    // Chapter ten: Chooseyourownadventure.py:1102-1174
    | ChapterTenStart
    | ChapterTenStep2
    | ChapterTenStep3
    | ChapterTenStep4
    | ChapterTenStep5
    | ChapterTenStep6
    | ChapterTenStep7

  /** A scene whose method calls `show_end_scene(..., is_win=False)`. */
  datatype Failure =
    // Chapter one: Chooseyourownadventure.py:502-524
    ChapterOneFailCliff
    | ChapterOneFailRapids
    | ChapterOneFailSleep
    | ChapterOneFailWolf
    | ChapterOneFailBandits
    | ChapterOneFailStuck
    | ChapterOneFailLost
    | ChapterOneFailBridgeCollapse
    | ChapterOneFailSwamp
    | ChapterOneFailNightfall
    | ChapterOneFailGoblins
    // Chapter two: Chooseyourownadventure.py:581-599
    | ChapterTwoFailInsult
    | ChapterTwoFailLeave
    | ChapterTwoFailNaive
    | ChapterTwoFailCoward
    | ChapterTwoFailGreedy
    | ChapterTwoFailNoShield
    | ChapterTwoFailUnprepared
    | ChapterTwoFailDistrust
    | ChapterTwoFailArrogant
    // Chapter three: Chooseyourownadventure.py:651-676
    | ChapterThreeFailTrap
    | ChapterThreeFailThorns
    | ChapterThreeFailAnts
    | ChapterThreeFailLost
    | ChapterThreeFailSpiders
    | ChapterThreeFailSelfTrap
    | ChapterThreeFailDwarfFight
    | ChapterThreeFailDwarfSpot
    | ChapterThreeFailDwarfLeaves
    | ChapterThreeFailDwarfInsult
    | ChapterThreeFailDwarfSuspicious
    | ChapterThreeFailDwarfAwkward
    // Chapter four: Chooseyourownadventure.py:727-745
    | ChapterFourFailChasm
    | ChapterFourFailNoBorin
    | ChapterFourFailNoElaraMagic
    | ChapterFourFailEarlyDragon
    | ChapterFourFailNoTraps
    | ChapterFourFailSplitParty
    | ChapterFourFailBarrierBlast
    | ChapterFourFailNoElara
    | ChapterFourFailNoSwitch
    // Chapter five: Chooseyourownadventure.py:795-815
    | ChapterFiveFailLeeches
    | ChapterFiveFailVineSnap
    | ChapterFiveFailSnakeNest
    | ChapterFiveFailMonster
    | ChapterFiveFailRaftSinks
    | ChapterFiveFailNoElaraPlant
    | ChapterFiveFailParalysis
    | ChapterFiveFailLostInFog
    | ChapterFiveFailAmbush
    | ChapterFiveFailWillOWisp
    // Chapter six: Chooseyourownadventure.py:865-889
    | ChapterSixFailFall
    | ChapterSixFailStorm
    | ChapterSixFailNoPassage
    | ChapterSixFailNoBorinHook
    | ChapterSixFailJump
    | ChapterSixFailDeadEnd
    | ChapterSixFailLooseRocks
    | ChapterSixFailBear
    | ChapterSixFailLostInSnow
    | ChapterSixFailCollapse
    | ChapterSixFailGoatCharge
    | ChapterSixFailGoatFight
    // Chapter seven: Chooseyourownadventure.py:939-959
    | ChapterSevenFailFrostTroll
    | ChapterSevenFailDeadEndFissure
    | ChapterSevenFailAvalanche
    | ChapterSevenFailNoDwarf
    | ChapterSevenFailDoorTooStrong
    | ChapterSevenFailNoLever
    | ChapterSevenFailMagicImmune
    | ChapterSevenFailRiddle
    | ChapterSevenFailDartTrap
    | ChapterSevenFailTrapComplex
    // Chapter eight: Chooseyourownadventure.py:1009-1027
    | ChapterEightFailPatrol
    | ChapterEightFailHotPillar
    | ChapterEightFailBridgeCollapse
    | ChapterEightFailLavaJump
    | ChapterEightFailLavaFlow
    | ChapterEightFailMimic
    | ChapterEightFailNoElaraHaze
    | ChapterEightFailConfusion
    | ChapterEightFailHazeIntensifies
    // Chapter nine: Chooseyourownadventure.py:1082-1100
    | ChapterNineFailChainNoise
    | ChapterNineFailRockslide
    | ChapterNineFailClimbFall
    | ChapterNineFailCoinNoise
    | ChapterNineFailGobletCrash
    | ChapterNineFailMagicNoise
    | ChapterNineFailSteamHiss
    | ChapterNineFailDragonStirs
    | ChapterNineFailLavaJump
    // Named by chapter_nine_step_4 (Chooseyourownadventure.py:1068) but not
    // defined in the source; see README, Findings.
    | ChapterNineFailNoShieldBridge
    // Chapter ten: Chooseyourownadventure.py:1180-1226
    | ChapterTenFailNoSword
    | ChapterTenFailSteal
    | ChapterTenFailShout
    | ChapterTenFailRock
    | ChapterTenFailEyePoke
    | ChapterTenFailHesitate
    | ChapterTenFailDistraction
    | ChapterTenFailStuckSword
    | ChapterTenFailShieldBreak
    | ChapterTenFailRunAway
    | ChapterTenFailFireBelly
    | ChapterTenFailShieldMelt
    | ChapterTenFailNoWaterSpell
    | ChapterTenFailTailWhip
    | ChapterTenFailRockAnnoy
    | ChapterTenFailDwarfToss
    | ChapterTenFailRodeo
    | ChapterTenFailThrown
    | ChapterTenFailBadTimingHeal
    | ChapterTenFailTaunt
    | ChapterTenFailTalk
    | ChapterTenFailLazy

  /** Every scene: a passage, a failure, or chapter_ten_step_8, the one
      method that calls `show_end_scene(..., is_win=True)`
      (Chooseyourownadventure.py:1175-1177). */
  datatype Scene = Continuing(passage: Passage) | Losing(failure: Failure) | Winning

  /** The name of the method that renders the passage. */
  function PassageIdentifier(p: Passage): string
  {
    match p
    case ChapterOneStart => "chapter_one_start"
    case ChapterOneStep2 => "chapter_one_step_2"
    case ChapterOneStep3 => "chapter_one_step_3"
    case ChapterOneStep4 => "chapter_one_step_4"
    case ChapterOneStep5 => "chapter_one_step_5"
    case ChapterTwoStart => "chapter_two_start"
    case ChapterTwoStep2 => "chapter_two_step_2"
    case ChapterTwoStep3 => "chapter_two_step_3"
    case ChapterTwoStep4 => "chapter_two_step_4"
    case ChapterTwoStep5Companion => "chapter_two_step_5_companion"
    case ChapterTwoStep5Solo => "chapter_two_step_5_solo"
    case ChapterThreeStart => "chapter_three_start"
    case ChapterThreeStep2 => "chapter_three_step_2"
    case ChapterThreeStep3 => "chapter_three_step_3"
    case ChapterThreeStep4 => "chapter_three_step_4"
    case ChapterThreeStep5 => "chapter_three_step_5"
    case ChapterFourStart => "chapter_four_start"
    case ChapterFourStep2 => "chapter_four_step_2"
    case ChapterFourStep3 => "chapter_four_step_3"
    case ChapterFourStep4 => "chapter_four_step_4"
    case ChapterFourStep5 => "chapter_four_step_5"
    case ChapterFiveStart => "chapter_five_start"
    case ChapterFiveStep2 => "chapter_five_step_2"
    case ChapterFiveStep3 => "chapter_five_step_3"
    case ChapterFiveStep4 => "chapter_five_step_4"
    case ChapterFiveStep5 => "chapter_five_step_5"
    case ChapterSixStart => "chapter_six_start"
    case ChapterSixStep2 => "chapter_six_step_2"
    case ChapterSixStep3 => "chapter_six_step_3"
    case ChapterSixStep4 => "chapter_six_step_4"
    case ChapterSixStep5 => "chapter_six_step_5"
    case ChapterSevenStart => "chapter_seven_start"
    case ChapterSevenStep2 => "chapter_seven_step_2"
    case ChapterSevenStep3 => "chapter_seven_step_3"
    case ChapterSevenStep4 => "chapter_seven_step_4"
    case ChapterSevenStep5 => "chapter_seven_step_5"
    case ChapterEightStart => "chapter_eight_start"
    case ChapterEightStep2 => "chapter_eight_step_2"
    case ChapterEightStep3 => "chapter_eight_step_3"
    case ChapterEightStep4 => "chapter_eight_step_4"
    case ChapterEightStep5 => "chapter_eight_step_5"
    case ChapterNineStart => "chapter_nine_start"
    case ChapterNineStep2 => "chapter_nine_step_2"
    case ChapterNineStep3 => "chapter_nine_step_3"
    case ChapterNineStep4 => "chapter_nine_step_4"
    case ChapterNineStep5 => "chapter_nine_step_5"
    case ChapterTenStart => "chapter_ten_start"
    case ChapterTenStep2 => "chapter_ten_step_2"
    case ChapterTenStep3 => "chapter_ten_step_3"
    case ChapterTenStep4 => "chapter_ten_step_4"
    case ChapterTenStep5 => "chapter_ten_step_5"
    case ChapterTenStep6 => "chapter_ten_step_6"
    case ChapterTenStep7 => "chapter_ten_step_7"
  }

  /** The name of the method that renders the failure. */
  function FailureIdentifier(f: Failure): string
  {
    match f
    case ChapterOneFailCliff => "chapter_one_fail_cliff"
    case ChapterOneFailRapids => "chapter_one_fail_rapids"
    case ChapterOneFailSleep => "chapter_one_fail_sleep"
    case ChapterOneFailWolf => "chapter_one_fail_wolf"
    case ChapterOneFailBandits => "chapter_one_fail_bandits"
    case ChapterOneFailStuck => "chapter_one_fail_stuck"
    case ChapterOneFailLost => "chapter_one_fail_lost"
    case ChapterOneFailBridgeCollapse => "chapter_one_fail_bridge_collapse"
    case ChapterOneFailSwamp => "chapter_one_fail_swamp"
    case ChapterOneFailNightfall => "chapter_one_fail_nightfall"
    case ChapterOneFailGoblins => "chapter_one_fail_goblins"
    case ChapterTwoFailInsult => "chapter_two_fail_insult"
    case ChapterTwoFailLeave => "chapter_two_fail_leave"
    case ChapterTwoFailNaive => "chapter_two_fail_naive"
    case ChapterTwoFailCoward => "chapter_two_fail_coward"
    case ChapterTwoFailGreedy => "chapter_two_fail_greedy"
    case ChapterTwoFailNoShield => "chapter_two_fail_no_shield"
    case ChapterTwoFailUnprepared => "chapter_two_fail_unprepared"
    case ChapterTwoFailDistrust => "chapter_two_fail_distrust"
    case ChapterTwoFailArrogant => "chapter_two_fail_arrogant"
    case ChapterThreeFailTrap => "chapter_three_fail_trap"
    case ChapterThreeFailThorns => "chapter_three_fail_thorns"
    case ChapterThreeFailAnts => "chapter_three_fail_ants"
    case ChapterThreeFailLost => "chapter_three_fail_lost"
    case ChapterThreeFailSpiders => "chapter_three_fail_spiders"
    case ChapterThreeFailSelfTrap => "chapter_three_fail_self_trap"
    case ChapterThreeFailDwarfFight => "chapter_three_fail_dwarf_fight"
    case ChapterThreeFailDwarfSpot => "chapter_three_fail_dwarf_spot"
    case ChapterThreeFailDwarfLeaves => "chapter_three_fail_dwarf_leaves"
    case ChapterThreeFailDwarfInsult => "chapter_three_fail_dwarf_insult"
    case ChapterThreeFailDwarfSuspicious => "chapter_three_fail_dwarf_suspicious"
    case ChapterThreeFailDwarfAwkward => "chapter_three_fail_dwarf_awkward"
    case ChapterFourFailChasm => "chapter_four_fail_chasm"
    case ChapterFourFailNoBorin => "chapter_four_fail_no_borin"
    case ChapterFourFailNoElaraMagic => "chapter_four_fail_no_elara_magic"
    case ChapterFourFailEarlyDragon => "chapter_four_fail_early_dragon"
    case ChapterFourFailNoTraps => "chapter_four_fail_no_traps"
    case ChapterFourFailSplitParty => "chapter_four_fail_split_party"
    case ChapterFourFailBarrierBlast => "chapter_four_fail_barrier_blast"
    case ChapterFourFailNoElara => "chapter_four_fail_no_elara"
    case ChapterFourFailNoSwitch => "chapter_four_fail_no_switch"
    case ChapterFiveFailLeeches => "chapter_five_fail_leeches"
    case ChapterFiveFailVineSnap => "chapter_five_fail_vine_snap"
    case ChapterFiveFailSnakeNest => "chapter_five_fail_snake_nest"
    case ChapterFiveFailMonster => "chapter_five_fail_monster"
    case ChapterFiveFailRaftSinks => "chapter_five_fail_raft_sinks"
    case ChapterFiveFailNoElaraPlant => "chapter_five_fail_no_elara_plant"
    case ChapterFiveFailParalysis => "chapter_five_fail_paralysis"
    case ChapterFiveFailLostInFog => "chapter_five_fail_lost_in_fog"
    case ChapterFiveFailAmbush => "chapter_five_fail_ambush"
    case ChapterFiveFailWillOWisp => "chapter_five_fail_will_o_wisp"
    case ChapterSixFailFall => "chapter_six_fail_fall"
    case ChapterSixFailStorm => "chapter_six_fail_storm"
    case ChapterSixFailNoPassage => "chapter_six_fail_no_passage"
    case ChapterSixFailNoBorinHook => "chapter_six_fail_no_borin_hook"
    case ChapterSixFailJump => "chapter_six_fail_jump"
    case ChapterSixFailDeadEnd => "chapter_six_fail_dead_end"
    case ChapterSixFailLooseRocks => "chapter_six_fail_loose_rocks"
    case ChapterSixFailBear => "chapter_six_fail_bear"
    case ChapterSixFailLostInSnow => "chapter_six_fail_lost_in_snow"
    case ChapterSixFailCollapse => "chapter_six_fail_collapse"
    case ChapterSixFailGoatCharge => "chapter_six_fail_goat_charge"
    case ChapterSixFailGoatFight => "chapter_six_fail_goat_fight"
    case ChapterSevenFailFrostTroll => "chapter_seven_fail_frost_troll"
    case ChapterSevenFailDeadEndFissure => "chapter_seven_fail_dead_end_fissure"
    case ChapterSevenFailAvalanche => "chapter_seven_fail_avalanche"
    case ChapterSevenFailNoDwarf => "chapter_seven_fail_no_dwarf"
    case ChapterSevenFailDoorTooStrong => "chapter_seven_fail_door_too_strong"
    case ChapterSevenFailNoLever => "chapter_seven_fail_no_lever"
    case ChapterSevenFailMagicImmune => "chapter_seven_fail_magic_immune"
    case ChapterSevenFailRiddle => "chapter_seven_fail_riddle"
    case ChapterSevenFailDartTrap => "chapter_seven_fail_dart_trap"
    case ChapterSevenFailTrapComplex => "chapter_seven_fail_trap_complex"
    case ChapterEightFailPatrol => "chapter_eight_fail_patrol"
    case ChapterEightFailHotPillar => "chapter_eight_fail_hot_pillar"
    case ChapterEightFailBridgeCollapse => "chapter_eight_fail_bridge_collapse"
    case ChapterEightFailLavaJump => "chapter_eight_fail_lava_jump"
    case ChapterEightFailLavaFlow => "chapter_eight_fail_lava_flow"
    case ChapterEightFailMimic => "chapter_eight_fail_mimic"
    case ChapterEightFailNoElaraHaze => "chapter_eight_fail_no_elara_haze"
    case ChapterEightFailConfusion => "chapter_eight_fail_confusion"
    case ChapterEightFailHazeIntensifies => "chapter_eight_fail_haze_intensifies"
    case ChapterNineFailChainNoise => "chapter_nine_fail_chain_noise"
    case ChapterNineFailRockslide => "chapter_nine_fail_rockslide"
    case ChapterNineFailClimbFall => "chapter_nine_fail_climb_fall"
    case ChapterNineFailCoinNoise => "chapter_nine_fail_coin_noise"
    case ChapterNineFailGobletCrash => "chapter_nine_fail_goblet_crash"
    case ChapterNineFailMagicNoise => "chapter_nine_fail_magic_noise"
    case ChapterNineFailSteamHiss => "chapter_nine_fail_steam_hiss"
    case ChapterNineFailDragonStirs => "chapter_nine_fail_dragon_stirs"
    case ChapterNineFailLavaJump => "chapter_nine_fail_lava_jump"
    case ChapterNineFailNoShieldBridge => "chapter_nine_fail_no_shield_bridge"
    case ChapterTenFailNoSword => "chapter_ten_fail_no_sword"
    case ChapterTenFailSteal => "chapter_ten_fail_steal"
    case ChapterTenFailShout => "chapter_ten_fail_shout"
    case ChapterTenFailRock => "chapter_ten_fail_rock"
    case ChapterTenFailEyePoke => "chapter_ten_fail_eye_poke"
    case ChapterTenFailHesitate => "chapter_ten_fail_hesitate"
    case ChapterTenFailDistraction => "chapter_ten_fail_distraction"
    case ChapterTenFailStuckSword => "chapter_ten_fail_stuck_sword"
    case ChapterTenFailShieldBreak => "chapter_ten_fail_shield_break"
    case ChapterTenFailRunAway => "chapter_ten_fail_run_away"
    case ChapterTenFailFireBelly => "chapter_ten_fail_fire_belly"
    case ChapterTenFailShieldMelt => "chapter_ten_fail_shield_melt"
    case ChapterTenFailNoWaterSpell => "chapter_ten_fail_no_water_spell"
    case ChapterTenFailTailWhip => "chapter_ten_fail_tail_whip"
    case ChapterTenFailRockAnnoy => "chapter_ten_fail_rock_annoy"
    case ChapterTenFailDwarfToss => "chapter_ten_fail_dwarf_toss"
    case ChapterTenFailRodeo => "chapter_ten_fail_rodeo"
    case ChapterTenFailThrown => "chapter_ten_fail_thrown"
    case ChapterTenFailBadTimingHeal => "chapter_ten_fail_bad_timing_heal"
    case ChapterTenFailTaunt => "chapter_ten_fail_taunt"
    case ChapterTenFailTalk => "chapter_ten_fail_talk"
    case ChapterTenFailLazy => "chapter_ten_fail_lazy"
  }

  /** The `__name__` of the scene's method: what `button_action` records
      when the scene is chosen and what a save file holds. */
  function Identifier(s: Scene): string
  {
    match s
    case Continuing(p) => PassageIdentifier(p)
    case Losing(f) => FailureIdentifier(f)
    case Winning => "chapter_ten_step_8"
  }

  /** The ten passages that set `current_chapter_start_method` to themselves
      on entry (Chooseyourownadventure.py:456, 528, 603, 680, 749, 819, 893,
      963, 1031, 1103). */
  predicate IsChapterStart(s: Scene)
  {
    s.Continuing? &&
    match s.passage
    case ChapterOneStart
      | ChapterTwoStart
      | ChapterThreeStart
      | ChapterFourStart
      | ChapterFiveStart
      | ChapterSixStart
      | ChapterSevenStart
      | ChapterEightStart
      | ChapterNineStart
      | ChapterTenStart => true
    case _ => false
  }
}
