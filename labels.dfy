/** The button texts of the game. Each constructor stands for one distinct
    text; `LabelText` gives the text the button shows. */
module Labels {

  datatype Label =
    FollowTheSignTowardsTheWoods
    | TakeThePathTowardsTheMountains
    | FollowTheRiverDownstream
    | RestUnderANearbyTree
    | InvestigateTheSound
    | ShoutLoudly
    | ContinueCautiouslyOnThePath
    | ClimbATreeToHide
    | CrossTheBridgeCarefully
    | TryToFindAnotherWayAround
    | TestTheBridgeByThrowingARockOnIt
    | TurnBack
    | HeadTowardsTheSmoke
    | AvoidTheSmokeAndGoTheOtherWay
    | WaitAndObserveFromADistance
    | ShoutHello
    | ContinueToChapter2
    | ListenIntently
    | AskForPaymentFirst
    | DismissHimAsALocalRambler
    | OfferToHelpWithoutQuestion
    | AgreeToHelpTheVillage
    | DeclineTheQuest
    | SayTheTaskIsImpossible
    | DemandAMapAndSupplies
    | AcceptTheShieldAndPrepareToLeave
    | RefuseTheShieldSayingYouTravelLight
    | AskForAWeaponInstead
    | AskForGoldInstead
    | AcceptHerOffer
    | PolitelyDecline
    | QuestionHerMotives
    | TellHerItsTooDangerous
    | ContinueToChapter3
    | TakeTheOvergrownPath
    | TakeTheWellTroddenPath
    | TryToGoThroughTheMiddle
    | RestAndEat
    | FollowTheTracks
    | IgnoreThemAndMakeYourOwnPath
    | SetATrapHere
    | CallOutToSeeWhoIsThere
    | OfferToHelpHim
    | DrawYourWeapon
    | SneakAroundHim
    | WatchFromADistance
    | WelcomeBorinToTheGroup
    | SayYouWorkAlone
    | AskWhatsInItForHim
    | StaySilent
    | ContinueToChapter4
    | LightATorch
    | ProceedInDarkness
    | HaveBorinUseHisDarkvision
    | AskElaraToCastALightSpell
    | RightSilent
    | LeftSulfurSmell
    | CheckForTraps
    | SendACompanionToScout
    | TryToBreakItWithForce
    | AskElaraToDispelIt
    | HaveBorinSmashIt
    | LookForASwitch
    | ReturnToTheMainCavern
    | ContinueToChapter5
    | FollowMossyStonesAcrossTheWater
    | WadeDirectlyThroughTheMurkyWater
    | TryToSwingOnVinesLikeInStories
    | AskBorinToClearAPathInTheReeds
    | CarefullySkirtTheEdgeOfThePool
    | ThrowARockInToSeeWhatHappens
    | AttemptToBuildARaftFromOldLogs
    | TryToSwimAcrossQuickly
    | AskElaraToExamineIt
    | TouchThePlant
    | IgnoreItAndKeepMoving
    | HarvestItForLater
    | UseTheGlimmerRootToLightTheWay
    | HuddleTogetherAndWaitForItToPass
    | ShoutForHelp
    | WalkForwardBlindly
    | ContinueToChapter6
    | TakeTheWindingPath
    | AttemptTheSteepDirectClimb
    | RestBeforeStartingTheClimb
    | AskBorinToFindASecretPassage
    | HaveBorinThrowAGrapplingHook
    | AttemptADangerousRunningJump
    | SearchForAnotherWayAround
    | TryToClimbDownAndAroundTheGap
    | HuddleTogetherUnderALargeRockOverhang
    | EnterADarkNarrowCaveOpening
    | KeepPushingForwardThroughTheStorm
    | TryToBuildASnowShelter
    | OfferItSomeOfYourRationsAsADistraction
    | TryToScareItByShouting
    | AttemptToSneakPastIt
    | HaveBorinFightIt
    | ContinueToChapter7
    | InvestigateTheScorchedCave
    | EnterTheIcyCave
    | ExploreTheNarrowFissure
    | ClimbHigherUpTheMountain
    | AskBorinToReadTheRunes
    | TryToForceTheDoorOpen
    | SearchForAHiddenLever
    | HaveElaraTryAMagicSpell
    | SpeakAethelgardToTheDoor
    | TryToTrickTheDoorBySayingTheMountain
    | YellAtTheDoorInFrustration
    | WriteTheNameOnTheDoor
    | FollowTheBreezeAvoidingThePlates
    | WalkStraightDownTheMiddle
    | HaveBorinTryToDisarmTheTraps
    | ThrowARockOntoAPlateToTestIt
    | ContinueToChapter8
    | TakeTheLeftPath
    | TakeTheRightPath
    | TryToClimbThePillar
    | WaitAndListenForSounds
    | CrossOneByOneCarefully
    | HaveEveryoneRunAcrossAtOnce
    | TryToJumpTheChasm
    | LookForAnotherWay
    | StickToTheWallsAvoidingTheGold
    | WalkStraightThroughTheTreasure
    | GrabAHandfulOfCoins
    | SendBorinFirstToTestTheGround
    | HaveElaraCastACleansingPrayer
    | PushThroughWithSheerWillpower
    | HoldYourBreathAndRun
    | ThrowARockIntoIt
    | ContinueToChapter9
    | TakeTheCrumblingStaircase
    | SlideDownTheChain
    | UseTheGravelSlide
    | TryToClimbDownTheRockFace
    | WalkOnTheShadowyEdgesOfTheRoom
    | WalkDirectlyOverTheCoins
    | TryToSwimThroughTheGold
    | HaveBorinClearAPath
    | LungeAndCatchThem
    | LetThemFallAndBraceForAFight
    | FreezeAndHopeTheyDontFall
    | TryToUseMagicToStopThem
    | UseYourShieldAsABridge
    | TryToFindSomethingToBridgeTheGap
    | AttemptToJumpOverIt
    | PourWaterOnItToCoolIt
    | LookForAnotherWayAround
    | ContinueToTheFinalChapter
    | SneakCloserForASurpriseAttack
    | ChargeWithYourNormalWeapon
    | TryToStealSomeTreasure
    | ShoutToWakeItUp
    | ThrowARockAtIt
    | LungeForTheWeakSpotOnItsNeck
    | AimForItsEye
    | Hesitate
    | HaveBorinMakeADistraction
    | DodgeItsRetaliatingClawSwipe
    | TryToPullTheSwordOut
    | StandYourGroundWithYourShield
    | RunAway
    | HideBehindALargePillar
    | TryToRunUnderItsBelly
    | UseYourShieldToDeflectTheFire
    | HaveElaraCastAWaterSpell
    | ScrambleUpItsLegToItsBack
    | AttackItsTail
    | ThrowARockAtItsHead
    | AskBorinToThrowYou
    | StabDownwardsIntoItsSpine
    | TryToControlItLikeAHorse
    | HoldOnForDearLife
    | SignalElaraToHealYou
    | PrepareForTheFinalBlow
    | TauntTheBeast
    | TryToReasonWithIt
    | LetYourCompanionsFinishIt
    | PlayAgain
    | TryAgain
    | Quit

  /** The text on the button. */
  function LabelText(l: Label): string
  {
    match l
    case FollowTheSignTowardsTheWoods => "Follow the sign towards the woods"
    case TakeThePathTowardsTheMountains => "Take the path towards the mountains"
    case FollowTheRiverDownstream => "Follow the river downstream"
    case RestUnderANearbyTree => "Rest under a nearby tree"
    case InvestigateTheSound => "Investigate the sound"
    case ShoutLoudly => "Shout loudly"
    case ContinueCautiouslyOnThePath => "Continue cautiously on the path"
    case ClimbATreeToHide => "Climb a tree to hide"
    case CrossTheBridgeCarefully => "Cross the bridge carefully"
    case TryToFindAnotherWayAround => "Try to find another way around"
    case TestTheBridgeByThrowingARockOnIt => "Test the bridge by throwing a rock on it"
    case TurnBack => "Turn back"
    case HeadTowardsTheSmoke => "Head towards the smoke"
    case AvoidTheSmokeAndGoTheOtherWay => "Avoid the smoke and go the other way"
    case WaitAndObserveFromADistance => "Wait and observe from a distance"
    case ShoutHello => "Shout 'Hello!'"
    case ContinueToChapter2 => "Continue to Chapter 2"
    case ListenIntently => "Listen intently"
    case AskForPaymentFirst => "Ask for payment first"
    case DismissHimAsALocalRambler => "Dismiss him as a local rambler"
    case OfferToHelpWithoutQuestion => "Offer to help without question"
    case AgreeToHelpTheVillage => "Agree to help the village"
    case DeclineTheQuest => "Decline the quest"
    case SayTheTaskIsImpossible => "Say the task is impossible"
    case DemandAMapAndSupplies => "Demand a map and supplies"
    case AcceptTheShieldAndPrepareToLeave => "Accept the shield and prepare to leave"
    case RefuseTheShieldSayingYouTravelLight => "Refuse the shield, saying you travel light"
    case AskForAWeaponInstead => "Ask for a weapon instead"
    case AskForGoldInstead => "Ask for gold instead"
    case AcceptHerOffer => "Accept her offer"
    case PolitelyDecline => "Politely decline"
    case QuestionHerMotives => "Question her motives"
    case TellHerItsTooDangerous => "Tell her it's too dangerous"
    case ContinueToChapter3 => "Continue to Chapter 3"
    case TakeTheOvergrownPath => "Take the overgrown path"
    case TakeTheWellTroddenPath => "Take the well-trodden path"
    case TryToGoThroughTheMiddle => "Try to go through the middle"
    case RestAndEat => "Rest and eat"
    case FollowTheTracks => "Follow the tracks"
    case IgnoreThemAndMakeYourOwnPath => "Ignore them and make your own path"
    case SetATrapHere => "Set a trap here"
    case CallOutToSeeWhoIsThere => "Call out to see who is there"
    case OfferToHelpHim => "Offer to help him"
    case DrawYourWeapon => "Draw your weapon"
    case SneakAroundHim => "Sneak around him"
    case WatchFromADistance => "Watch from a distance"
    case WelcomeBorinToTheGroup => "Welcome Borin to the group"
    case SayYouWorkAlone => "Say you work alone"
    case AskWhatsInItForHim => "Ask what's in it for him"
    case StaySilent => "Stay silent"
    case ContinueToChapter4 => "Continue to Chapter 4"
    case LightATorch => "Light a torch"
    case ProceedInDarkness => "Proceed in darkness"
    case HaveBorinUseHisDarkvision => "Have Borin use his darkvision"
    case AskElaraToCastALightSpell => "Ask Elara to cast a light spell"
    case RightSilent => "Right (Silent)"
    case LeftSulfurSmell => "Left (Sulfur Smell)"
    case CheckForTraps => "Check for traps"
    case SendACompanionToScout => "Send a companion to scout"
    case TryToBreakItWithForce => "Try to break it with force"
    case AskElaraToDispelIt => "Ask Elara to dispel it"
    case HaveBorinSmashIt => "Have Borin smash it"
    case LookForASwitch => "Look for a switch"
    case ReturnToTheMainCavern => "Return to the main cavern"
    case ContinueToChapter5 => "Continue to Chapter 5"
    case FollowMossyStonesAcrossTheWater => "Follow mossy stones across the water"
    case WadeDirectlyThroughTheMurkyWater => "Wade directly through the murky water"
    case TryToSwingOnVinesLikeInStories => "Try to swing on vines like in stories"
    case AskBorinToClearAPathInTheReeds => "Ask Borin to clear a path in the reeds"
    case CarefullySkirtTheEdgeOfThePool => "Carefully skirt the edge of the pool"
    case ThrowARockInToSeeWhatHappens => "Throw a rock in to see what happens"
    case AttemptToBuildARaftFromOldLogs => "Attempt to build a raft from old logs"
    case TryToSwimAcrossQuickly => "Try to swim across quickly"
    case AskElaraToExamineIt => "Ask Elara to examine it"
    case TouchThePlant => "Touch the plant"
    case IgnoreItAndKeepMoving => "Ignore it and keep moving"
    case HarvestItForLater => "Harvest it for later"
    case UseTheGlimmerRootToLightTheWay => "Use the Glimmer-root to light the way"
    case HuddleTogetherAndWaitForItToPass => "Huddle together and wait for it to pass"
    case ShoutForHelp => "Shout for help"
    case WalkForwardBlindly => "Walk forward blindly"
    case ContinueToChapter6 => "Continue to Chapter 6"
    case TakeTheWindingPath => "Take the winding path"
    case AttemptTheSteepDirectClimb => "Attempt the steep direct climb"
    case RestBeforeStartingTheClimb => "Rest before starting the climb"
    case AskBorinToFindASecretPassage => "Ask Borin to find a secret passage"
    case HaveBorinThrowAGrapplingHook => "Have Borin throw a grappling hook"
    case AttemptADangerousRunningJump => "Attempt a dangerous running jump"
    case SearchForAnotherWayAround => "Search for another way around"
    case TryToClimbDownAndAroundTheGap => "Try to climb down and around the gap"
    case HuddleTogetherUnderALargeRockOverhang => "Huddle together under a large rock overhang"
    case EnterADarkNarrowCaveOpening => "Enter a dark, narrow cave opening"
    case KeepPushingForwardThroughTheStorm => "Keep pushing forward through the storm"
    case TryToBuildASnowShelter => "Try to build a snow shelter"
    case OfferItSomeOfYourRationsAsADistraction => "Offer it some of your rations as a distraction"
    case TryToScareItByShouting => "Try to scare it by shouting"
    case AttemptToSneakPastIt => "Attempt to sneak past it"
    case HaveBorinFightIt => "Have Borin fight it"
    case ContinueToChapter7 => "Continue to Chapter 7"
    case InvestigateTheScorchedCave => "Investigate the scorched cave"
    case EnterTheIcyCave => "Enter the icy cave"
    case ExploreTheNarrowFissure => "Explore the narrow fissure"
    case ClimbHigherUpTheMountain => "Climb higher up the mountain"
    case AskBorinToReadTheRunes => "Ask Borin to read the runes"
    case TryToForceTheDoorOpen => "Try to force the door open"
    case SearchForAHiddenLever => "Search for a hidden lever"
    case HaveElaraTryAMagicSpell => "Have Elara try a magic spell"
    case SpeakAethelgardToTheDoor => "Speak 'Aethelgard' to the door"
    case TryToTrickTheDoorBySayingTheMountain => "Try to trick the door by saying 'the mountain'"
    case YellAtTheDoorInFrustration => "Yell at the door in frustration"
    case WriteTheNameOnTheDoor => "Write the name on the door"
    case FollowTheBreezeAvoidingThePlates => "Follow the breeze, avoiding the plates"
    case WalkStraightDownTheMiddle => "Walk straight down the middle"
    case HaveBorinTryToDisarmTheTraps => "Have Borin try to disarm the traps"
    case ThrowARockOntoAPlateToTestIt => "Throw a rock onto a plate to test it"
    case ContinueToChapter8 => "Continue to Chapter 8"
    case TakeTheLeftPath => "Take the left path"
    case TakeTheRightPath => "Take the right path"
    case TryToClimbThePillar => "Try to climb the pillar"
    case WaitAndListenForSounds => "Wait and listen for sounds"
    case CrossOneByOneCarefully => "Cross one by one, carefully"
    case HaveEveryoneRunAcrossAtOnce => "Have everyone run across at once"
    case TryToJumpTheChasm => "Try to jump the chasm"
    case LookForAnotherWay => "Look for another way"
    case StickToTheWallsAvoidingTheGold => "Stick to the walls, avoiding the gold"
    case WalkStraightThroughTheTreasure => "Walk straight through the treasure"
    case GrabAHandfulOfCoins => "Grab a handful of coins"
    case SendBorinFirstToTestTheGround => "Send Borin first to test the ground"
    case HaveElaraCastACleansingPrayer => "Have Elara cast a cleansing prayer"
    case PushThroughWithSheerWillpower => "Push through with sheer willpower"
    case HoldYourBreathAndRun => "Hold your breath and run"
    case ThrowARockIntoIt => "Throw a rock into it"
    case ContinueToChapter9 => "Continue to Chapter 9"
    case TakeTheCrumblingStaircase => "Take the crumbling staircase"
    case SlideDownTheChain => "Slide down the chain"
    case UseTheGravelSlide => "Use the gravel slide"
    case TryToClimbDownTheRockFace => "Try to climb down the rock face"
    case WalkOnTheShadowyEdgesOfTheRoom => "Walk on the shadowy edges of the room"
    case WalkDirectlyOverTheCoins => "Walk directly over the coins"
    case TryToSwimThroughTheGold => "Try to 'swim' through the gold"
    case HaveBorinClearAPath => "Have Borin clear a path"
    case LungeAndCatchThem => "Lunge and catch them"
    case LetThemFallAndBraceForAFight => "Let them fall and brace for a fight"
    case FreezeAndHopeTheyDontFall => "Freeze and hope they don't fall"
    case TryToUseMagicToStopThem => "Try to use magic to stop them"
    case UseYourShieldAsABridge => "Use your shield as a bridge"
    case TryToFindSomethingToBridgeTheGap => "Try to find something to bridge the gap"
    case AttemptToJumpOverIt => "Attempt to jump over it"
    case PourWaterOnItToCoolIt => "Pour water on it to cool it"
    case LookForAnotherWayAround => "Look for another way around"
    case ContinueToTheFinalChapter => "Continue to the Final Chapter"
    case SneakCloserForASurpriseAttack => "Sneak closer for a surprise attack"
    case ChargeWithYourNormalWeapon => "Charge with your normal weapon"
    case TryToStealSomeTreasure => "Try to steal some treasure"
    case ShoutToWakeItUp => "Shout to wake it up"
    case ThrowARockAtIt => "Throw a rock at it"
    case LungeForTheWeakSpotOnItsNeck => "Lunge for the weak spot on its neck"
    case AimForItsEye => "Aim for its eye"
    case Hesitate => "Hesitate"
    case HaveBorinMakeADistraction => "Have Borin make a distraction"
    case DodgeItsRetaliatingClawSwipe => "Dodge its retaliating claw swipe"
    case TryToPullTheSwordOut => "Try to pull the sword out"
    case StandYourGroundWithYourShield => "Stand your ground with your shield"
    case RunAway => "Run away"
    case HideBehindALargePillar => "Hide behind a large pillar"
    case TryToRunUnderItsBelly => "Try to run under its belly"
    case UseYourShieldToDeflectTheFire => "Use your shield to deflect the fire"
    case HaveElaraCastAWaterSpell => "Have Elara cast a water spell"
    case ScrambleUpItsLegToItsBack => "Scramble up its leg to its back"
    case AttackItsTail => "Attack its tail"
    case ThrowARockAtItsHead => "Throw a rock at its head"
    case AskBorinToThrowYou => "Ask Borin to throw you"
    case StabDownwardsIntoItsSpine => "Stab downwards into its spine"
    case TryToControlItLikeAHorse => "Try to control it like a horse"
    case HoldOnForDearLife => "Hold on for dear life"
    case SignalElaraToHealYou => "Signal Elara to heal you"
    case PrepareForTheFinalBlow => "Prepare for the final blow"
    case TauntTheBeast => "Taunt the beast"
    case TryToReasonWithIt => "Try to reason with it"
    case LetYourCompanionsFinishIt => "Let your companions finish it"
    case PlayAgain => "Play Again"
    case TryAgain => "Try Again"
    case Quit => "Quit"
  }
}
