/**
 * The split-decision engine of src/splits.rs. A split condition is decided
 * either by a continuous rule, tested on every tick while the game is in an
 * active, non-menu state, or by a transition rule, tested on the tick a
 * scene transition completes. `Splits` combines the two phases and records
 * a decisive result in the scene tracker's one-shot guard.
 *
 * Both `match` expressions of the source dispatch each condition to one
 * test. Here `RuleOf` records, once per condition, which test that is and
 * which signal it reads; `ContinuousSplits` and `TransitionSplits` then
 * evaluate the test.
 */
module Splits {
  import opened Wrappers
  import opened Timer
  import opened Watchers
  import opened SilksongMemory

  /** The catalogue of split conditions, in declaration order. */
  datatype Split =
    // Start, End, and Menu
    | ManualSplit
    | StartNewGame
    | EndingSplit
    | EndingA
    | Menu
    | PlayerDeath
    | AnyTransition
    // MossLands
    | MossMother
    | MossMotherTrans
    | SilkSpear
    | SilkSpearTrans
    // Marrow
    | BellBeast
    | BellBeastTrans
    | MarrowBell
    // DeepDocks
    | SwiftStep
    | SwiftStepTrans
    | Lace1
    | Lace1Trans
    | DeepDocksBell
    // FarFields
    | DriftersCloak
    | DriftersCloakTrans
    | FourthChorus
    // Greymoor
    | EnterGreymoor
    | GreymoorBell
    | Moorwing
    | MoorwingTrans
    // Shellwood
    | ClingGrip
    | ClingGripTrans
    | ShellwoodBell
    // Bellhart
    | Widow
    | BellhartBell
    // BlastedSteps
    | LastJudge
    // TheMist
    | EnterMist
    | LeaveMist
    // Bilewater
    | Phantom
    // Acts
    | Act2Started
    // CogworkCore
    | CogworkDancers
    // WhisperingVaults
    | WhisperingVaultsGauntlet
    // ChoralChambers
    | Trobbio
    | TrobbioTrans
    // Underworks
    | Clawline
    // HighHalls
    | EnterHighHalls
    | EnterHighHallsGauntlet
    | HighHallsGauntlet
    // TheCradle
    | Lace2
    // ThreefoldMelody
    | VaultkeepersMelody
    | VaultkeepersMelodyTrans
    | ArchitectsMelody
    | ArchitectsMelodyTrans
    | ConductorsMelody
    | ConductorsMelodyTrans
    | UnlockedMelodyLift
    // NeedleUpgrade
    | NeedleUpgrade1
    | NeedleUpgrade2
    | NeedleUpgrade3
    | NeedleUpgrade4
    // FleaSpecific
    | SavedFleaAnt03
    | SavedFleaBelltown04
    | SavedFleaBone06
    | SavedFleaBoneEast05
    | SavedFleaBoneEast10Church
    | SavedFleaBoneEast17b
    | SavedFleaCoral24
    | SavedFleaCoral35
    | SavedFleaCrawl06
    | SavedFleaDock03d
    | SavedFleaDock16
    | SavedFleaDust09
    | SavedFleaDust12
    | SavedFleaGreymoor06
    | SavedFleaGreymoor15b
    | SavedFleaLibrary01
    | SavedFleaLibrary09
    | SavedFleaPeak05c
    | SavedFleaShadow10
    | SavedFleaShadow28
    | SavedFleaShellwood03
    | SavedFleaSlab06
    | SavedFleaSlabCell
    | SavedFleaSong11
    | SavedFleaSong14
    | SavedFleaUnder21
    | SavedFleaUnder23
    | TamedGiantFlea
    | MetTroupeHunterWild
    | CaravanLechSaved

  /** The evaluation phase whose rule decides a split condition. */
  datatype Phase = ContinuousPhase | TransitionPhase

  /** The test a condition's rule performs, with the signal it reads. */
  datatype Rule =
    | Manual                           // continuous: the operator's own split; reads nothing
    | HealthZero                       // continuous: health reads 0
    | NeedleAtLeast(tier: i32)         // continuous: the upgrade count reads at least `tier`
    | ContinuousFlag(flag: PlayerBool) // continuous: the flag reads true
    | TransitionFlag(flag: PlayerBool) // transition: the flag reads true
    | SceneTest                        // transition: a test on the scene pair (`SceneCondition`)
  {
    function Phase(): Phase
    {
      if TransitionFlag? || SceneTest? then TransitionPhase else ContinuousPhase
    }
  }

  /**
   * The arm of `continuous_splits` (src/splits.rs:551-703) or of
   * `transition_splits` (src/splits.rs:451-530) that handles each
   * condition. No condition has an arm in both, and none is missing from
   * both.
   */
  function RuleOf(split: Split): (r: Rule)
    ensures r.NeedleAtLeast? ==> 1 <= r.tier <= 4
  {
    match split
    // Start, End, and Menu
    case ManualSplit => Manual
    case StartNewGame => SceneTest
    case EndingSplit => SceneTest
    case EndingA => SceneTest
    case Menu => SceneTest
    case PlayerDeath => HealthZero
    case AnyTransition => SceneTest
    // MossLands
    case MossMother => ContinuousFlag(PlayerBool.DefeatedMossMother)
    case MossMotherTrans => TransitionFlag(PlayerBool.DefeatedMossMother)
    case SilkSpear => ContinuousFlag(PlayerBool.HasNeedleThrow)
    case SilkSpearTrans => TransitionFlag(PlayerBool.HasNeedleThrow)
    // Marrow
    case BellBeast => ContinuousFlag(PlayerBool.DefeatedBellBeast)
    case BellBeastTrans => TransitionFlag(PlayerBool.DefeatedBellBeast)
    case MarrowBell => ContinuousFlag(PlayerBool.BellShrineBoneForest)
    // DeepDocks
    case SwiftStep => ContinuousFlag(PlayerBool.HasDash)
    case SwiftStepTrans => TransitionFlag(PlayerBool.HasDash)
    case Lace1 => ContinuousFlag(PlayerBool.DefeatedLace1)
    case Lace1Trans => TransitionFlag(PlayerBool.DefeatedLace1)
    case DeepDocksBell => ContinuousFlag(PlayerBool.BellShrineWilds)
    // FarFields
    case DriftersCloak => ContinuousFlag(PlayerBool.HasBrolly)
    case DriftersCloakTrans => TransitionFlag(PlayerBool.HasBrolly)
    case FourthChorus => ContinuousFlag(PlayerBool.DefeatedSongGolem)
    // Greymoor
    case EnterGreymoor => SceneTest
    case GreymoorBell => ContinuousFlag(PlayerBool.BellShrineGreymoor)
    case Moorwing => ContinuousFlag(PlayerBool.DefeatedVampireGnatBoss)
    case MoorwingTrans => TransitionFlag(PlayerBool.DefeatedVampireGnatBoss)
    // Shellwood
    case ClingGrip => ContinuousFlag(PlayerBool.HasWallJump)
    case ClingGripTrans => TransitionFlag(PlayerBool.HasWallJump)
    case ShellwoodBell => ContinuousFlag(PlayerBool.BellShrineShellwood)
    // Bellhart
    case Widow => ContinuousFlag(PlayerBool.SpinnerDefeated)
    case BellhartBell => ContinuousFlag(PlayerBool.BellShrineBellhart)
    // BlastedSteps
    case LastJudge => ContinuousFlag(PlayerBool.DefeatedLastJudge)
    // TheMist
    case EnterMist => SceneTest
    case LeaveMist => SceneTest
    // Bilewater
    case Phantom => ContinuousFlag(PlayerBool.DefeatedPhantom)
    // Acts
    case Act2Started => ContinuousFlag(PlayerBool.Act2Started)
    // CogworkCore
    case CogworkDancers => ContinuousFlag(PlayerBool.DefeatedCogworkDancers)
    // WhisperingVaults
    case WhisperingVaultsGauntlet => ContinuousFlag(PlayerBool.CompletedLibraryEntryBattle)
    // ChoralChambers
    case Trobbio => ContinuousFlag(PlayerBool.DefeatedTrobbio)
    case TrobbioTrans => TransitionFlag(PlayerBool.DefeatedTrobbio)
    // Underworks
    case Clawline => ContinuousFlag(PlayerBool.HasHarpoonDash)
    // HighHalls
    case EnterHighHalls => SceneTest
    case EnterHighHallsGauntlet => SceneTest
    case HighHallsGauntlet => ContinuousFlag(PlayerBool.Hang04Battle)
    // TheCradle
    case Lace2 => ContinuousFlag(PlayerBool.DefeatedLaceTower)
    // ThreefoldMelody
    case VaultkeepersMelody => ContinuousFlag(PlayerBool.HasMelodyLibrarian)
    case VaultkeepersMelodyTrans => TransitionFlag(PlayerBool.HasMelodyLibrarian)
    case ArchitectsMelody => ContinuousFlag(PlayerBool.HasMelodyArchitect)
    case ArchitectsMelodyTrans => TransitionFlag(PlayerBool.HasMelodyArchitect)
    case ConductorsMelody => ContinuousFlag(PlayerBool.HasMelodyConductor)
    case ConductorsMelodyTrans => TransitionFlag(PlayerBool.HasMelodyConductor)
    case UnlockedMelodyLift => ContinuousFlag(PlayerBool.UnlockedMelodyLift)
    // NeedleUpgrade
    case NeedleUpgrade1 => NeedleAtLeast(1)
    case NeedleUpgrade2 => NeedleAtLeast(2)
    case NeedleUpgrade3 => NeedleAtLeast(3)
    case NeedleUpgrade4 => NeedleAtLeast(4)
    // FleaSpecific
    case SavedFleaAnt03 => ContinuousFlag(PlayerBool.SavedfleaAnt03)
    case SavedFleaBelltown04 => ContinuousFlag(PlayerBool.SavedfleaBelltown04)
    case SavedFleaBone06 => ContinuousFlag(PlayerBool.SavedfleaBone06)
    case SavedFleaBoneEast05 => ContinuousFlag(PlayerBool.SavedfleaBoneEast05)
    case SavedFleaBoneEast10Church => ContinuousFlag(PlayerBool.SavedfleaBoneEast10Church)
    case SavedFleaBoneEast17b => ContinuousFlag(PlayerBool.SavedfleaBoneEast17b)
    case SavedFleaCoral24 => ContinuousFlag(PlayerBool.SavedfleaCoral24)
    case SavedFleaCoral35 => ContinuousFlag(PlayerBool.SavedfleaCoral35)
    case SavedFleaCrawl06 => ContinuousFlag(PlayerBool.SavedfleaCrawl06)
    case SavedFleaDock03d => ContinuousFlag(PlayerBool.SavedfleaDock03d)
    case SavedFleaDock16 => ContinuousFlag(PlayerBool.SavedfleaDock16)
    case SavedFleaDust09 => ContinuousFlag(PlayerBool.SavedfleaDust09)
    case SavedFleaDust12 => ContinuousFlag(PlayerBool.SavedfleaDust12)
    case SavedFleaGreymoor06 => ContinuousFlag(PlayerBool.SavedfleaGreymoor06)
    case SavedFleaGreymoor15b => ContinuousFlag(PlayerBool.SavedfleaGreymoor15b)
    case SavedFleaLibrary01 => ContinuousFlag(PlayerBool.SavedfleaLibrary01)
    case SavedFleaLibrary09 => ContinuousFlag(PlayerBool.SavedfleaLibrary09)
    case SavedFleaPeak05c => ContinuousFlag(PlayerBool.SavedfleaPeak05c)
    case SavedFleaShadow10 => ContinuousFlag(PlayerBool.SavedfleaShadow10)
    case SavedFleaShadow28 => ContinuousFlag(PlayerBool.SavedfleaShadow28)
    case SavedFleaShellwood03 => ContinuousFlag(PlayerBool.SavedfleaShellwood03)
    case SavedFleaSlab06 => ContinuousFlag(PlayerBool.SavedfleaSlab06)
    case SavedFleaSlabCell => ContinuousFlag(PlayerBool.SavedfleaSlabCell)
    case SavedFleaSong11 => ContinuousFlag(PlayerBool.SavedfleaSong11)
    case SavedFleaSong14 => ContinuousFlag(PlayerBool.SavedfleaSong14)
    case SavedFleaUnder21 => ContinuousFlag(PlayerBool.SavedfleaUnder21)
    case SavedFleaUnder23 => ContinuousFlag(PlayerBool.SavedfleaUnder23)
    case TamedGiantFlea => ContinuousFlag(PlayerBool.TamedGiantFlea)
    case MetTroupeHunterWild => ContinuousFlag(PlayerBool.MetTroupeHunterWild)
    case CaravanLechSaved => ContinuousFlag(PlayerBool.CaravanLechSaved)
  }

  /** The phase whose rule decides `split`. */
  function PhaseOf(split: Split): Phase
  {
    RuleOf(split).Phase()
  }

  /** The condition that waits for needle-upgrade tier `tier`. */
  function NeedleUpgrade(tier: int): (split: Split)
    requires 1 <= tier <= 4
    ensures RuleOf(split) == NeedleAtLeast(tier as i32)
  {
    match tier
    case 1 => NeedleUpgrade1
    case 2 => NeedleUpgrade2
    case 3 => NeedleUpgrade3
    case _ => NeedleUpgrade4
  }

  /** The continuous phase's gate: the game state, 0 when unreadable, is an active one. */
  predicate GateOpen(mem: Memory, consts: GameConstants)
  {
    mem.ReadInt(GameState).GetOr(0) in consts.nonMenuGameStates
  }

  /** The scene-pair tests of `transition_splits`; every other condition fails. */
  predicate SceneCondition(split: Split, scenes: Pair<string>, consts: GameConstants): (holds: bool)
    ensures holds ==> RuleOf(split) == SceneTest
  {
    match split
    case StartNewGame => scenes.previous in consts.openingScenes && scenes.current == "Tut_01"
    case EndingSplit => StartsWith(scenes.current, "Cinematic_Ending")
    case EndingA => scenes.current == "Cinematic_Ending_A"
    case Menu => scenes.current == consts.menuTitle
    case AnyTransition =>
      scenes.current != scenes.previous && !(consts.isMenu(scenes.previous) || consts.isMenu(scenes.current))
    case EnterGreymoor => !StartsWith(scenes.previous, "Greymoor") && StartsWith(scenes.current, "Greymoor")
    case EnterMist =>
      (scenes.previous == "Dust_05" || scenes.previous == "Shadow_04") && scenes.current == "Dust_Maze_09_entrance"
    case LeaveMist => scenes.previous == "Dust_Maze_Last_Hall" && scenes.current == "Dust_09"
    case EnterHighHalls => scenes.previous == "Hang_01" && scenes.current == "Hang_02"
    case EnterHighHallsGauntlet => scenes.previous == "Hang_06" && scenes.current == "Hang_04"
    case _ => false
  }

  /**
   * `transition_splits`: a scene rule tests the scene pair, a transition
   * flag rule its flag; every condition of the continuous phase falls to
   * the default arm and passes.
   */
  function TransitionSplits(split: Split, scenes: Pair<string>, mem: Memory, consts: GameConstants): (a: SplitterAction)
    ensures a == Split || a == Pass
    ensures PhaseOf(split) == ContinuousPhase ==> a == Pass
  {
    match RuleOf(split)
    case TransitionFlag(f) => ShouldSplit(mem.Flag(f))
    case SceneTest => ShouldSplit(SceneCondition(split, scenes, consts))
    case _ => ShouldSplit(false)
  }

  /**
   * `continuous_splits`: with the gate closed every condition passes.
   * Otherwise the manual rule yields `ManualSplit`, the other continuous
   * rules split or pass on their signal, and every condition of the
   * transition phase falls to the default arm and passes.
   */
  function ContinuousSplits(split: Split, mem: Memory, consts: GameConstants): (a: SplitterAction)
    ensures a == Split || a == Pass || (RuleOf(split) == Manual && a == SplitterAction.ManualSplit)
    ensures !GateOpen(mem, consts) ==> a == Pass
    ensures PhaseOf(split) == TransitionPhase ==> a == Pass
  {
    var gameState := mem.ReadInt(GameState).GetOr(0);
    if gameState !in consts.nonMenuGameStates then ShouldSplit(false)
    else
      match RuleOf(split)
      case Manual => SplitterAction.ManualSplit
      case HealthZero => ShouldSplit(mem.ReadInt(Health) == Some(0))
      case NeedleAtLeast(n) => ShouldSplit(mem.ReadInt(NailUpgrades).Some? && mem.ReadInt(NailUpgrades).value >= n)
      case ContinuousFlag(f) => ShouldSplit(mem.Flag(f))
      case _ => ShouldSplit(false)
  }

  /**
   * `splits` without its side effect: the continuous result when it is
   * decisive, else the transition result on a transition tick, else `Pass`.
   */
  function SplitsAction(split: Split, mem: Memory, consts: GameConstants, scenes: Pair<string>, transNow: bool): (a: SplitterAction)
    ensures ContinuousSplits(split, mem, consts) != Pass ==> a == ContinuousSplits(split, mem, consts)
    ensures a != Pass ==> a == ContinuousSplits(split, mem, consts)
                          || (transNow && a == TransitionSplits(split, scenes, mem, consts))
    ensures a == Pass <==> ContinuousSplits(split, mem, consts) == Pass
                           && (!transNow || TransitionSplits(split, scenes, mem, consts) == Pass)
    ensures PhaseOf(split) == ContinuousPhase ==> a == ContinuousSplits(split, mem, consts)
    ensures PhaseOf(split) == TransitionPhase ==>
      a == if transNow then TransitionSplits(split, scenes, mem, consts) else Pass
  {
    ContinuousSplits(split, mem, consts).OrElse(
      if transNow then TransitionSplits(split, scenes, mem, consts) else Pass)
  }

  /**
   * `splits`: evaluates the condition against the tracker's scene pair and
   * sets the guard exactly when the result is decisive; it never clears it.
   */
  method Splits(split: Split, mem: Memory, consts: GameConstants, transNow: bool, ss: SceneStore)
    returns (a: SplitterAction)
    modifies ss`splitThisTransition
    ensures a == SplitsAction(split, mem, consts, ss.pair, transNow)
    ensures ss.splitThisTransition == (old(ss.splitThisTransition) || a != Pass)
  {
    a := ContinuousSplits(split, mem, consts);
    if a == Pass {
      var scenes := ss.pair;
      a := if transNow then TransitionSplits(split, scenes, mem, consts) else Pass;
    }
    if a != Pass {
      ss.splitThisTransition := true;
    }
  }

  /** Evaluating twice in one tick gives the same action and leaves the guard as the first call left it. */
  method SplitsTwice(split: Split, mem: Memory, consts: GameConstants, transNow: bool, ss: SceneStore)
    returns (first: SplitterAction, second: SplitterAction)
    modifies ss`splitThisTransition
    ensures first == second
    ensures ss.splitThisTransition == (old(ss.splitThisTransition) || first != Pass)
  {
    first := Splits(split, mem, consts, transNow, ss);
    second := Splits(split, mem, consts, transNow, ss);
  }

  /**
   * Only the operator's own condition has the manual rule. The proof looks
   * at each condition in turn, which keeps each case small.
   */
  lemma ManualRuleIsManualSplit(split: Split)
    ensures RuleOf(split) == Manual <==> split == Split.ManualSplit
  {
    match split
      case ManualSplit => {} case StartNewGame => {} case EndingSplit => {} case EndingA => {}
      case Menu => {} case PlayerDeath => {} case AnyTransition => {} case MossMother => {}
      case MossMotherTrans => {} case SilkSpear => {} case SilkSpearTrans => {} case BellBeast => {}
      case BellBeastTrans => {} case MarrowBell => {} case SwiftStep => {} case SwiftStepTrans => {}
      case Lace1 => {} case Lace1Trans => {} case DeepDocksBell => {} case DriftersCloak => {}
      case DriftersCloakTrans => {} case FourthChorus => {} case EnterGreymoor => {} case GreymoorBell => {}
      case Moorwing => {} case MoorwingTrans => {} case ClingGrip => {} case ClingGripTrans => {}
      case ShellwoodBell => {} case Widow => {} case BellhartBell => {} case LastJudge => {}
      case EnterMist => {} case LeaveMist => {} case Phantom => {} case Act2Started => {}
      case CogworkDancers => {} case WhisperingVaultsGauntlet => {} case Trobbio => {} case TrobbioTrans => {}
      case Clawline => {} case EnterHighHalls => {} case EnterHighHallsGauntlet => {} case HighHallsGauntlet => {}
      case Lace2 => {} case VaultkeepersMelody => {} case VaultkeepersMelodyTrans => {} case ArchitectsMelody => {}
      case ArchitectsMelodyTrans => {} case ConductorsMelody => {} case ConductorsMelodyTrans => {} case UnlockedMelodyLift => {}
      case NeedleUpgrade1 => {} case NeedleUpgrade2 => {} case NeedleUpgrade3 => {} case NeedleUpgrade4 => {}
      case SavedFleaAnt03 => {} case SavedFleaBelltown04 => {} case SavedFleaBone06 => {} case SavedFleaBoneEast05 => {}
      case SavedFleaBoneEast10Church => {} case SavedFleaBoneEast17b => {} case SavedFleaCoral24 => {} case SavedFleaCoral35 => {}
      case SavedFleaCrawl06 => {} case SavedFleaDock03d => {} case SavedFleaDock16 => {} case SavedFleaDust09 => {}
      case SavedFleaDust12 => {} case SavedFleaGreymoor06 => {} case SavedFleaGreymoor15b => {} case SavedFleaLibrary01 => {}
      case SavedFleaLibrary09 => {} case SavedFleaPeak05c => {} case SavedFleaShadow10 => {} case SavedFleaShadow28 => {}
      case SavedFleaShellwood03 => {} case SavedFleaSlab06 => {} case SavedFleaSlabCell => {} case SavedFleaSong11 => {}
      case SavedFleaSong14 => {} case SavedFleaUnder21 => {} case SavedFleaUnder23 => {} case TamedGiantFlea => {}
      case MetTroupeHunterWild => {} case CaravanLechSaved => {}
  }

  /** While the gate is open, the manual condition and only it yields `ManualSplit`; the transition phase passes on it. */
  lemma ManualSplitRule(split: Split, mem: Memory, consts: GameConstants, scenes: Pair<string>)
    ensures ContinuousSplits(split, mem, consts) == SplitterAction.ManualSplit <==>
      GateOpen(mem, consts) && split == Split.ManualSplit
    ensures TransitionSplits(Split.ManualSplit, scenes, mem, consts) == Pass
  {
    ManualRuleIsManualSplit(split);
  }

  /** A transition-phase condition never fires in the continuous phase, and the reverse. */
  lemma PhasesAreExclusive(split: Split, mem: Memory, consts: GameConstants, scenes: Pair<string>)
    ensures ContinuousSplits(split, mem, consts) == Pass || TransitionSplits(split, scenes, mem, consts) == Pass
  {
  }

  /** A continuous flag rule splits exactly when the gate is open and its flag reads true; an unreadable flag passes. */
  lemma ContinuousFlagRule(split: Split, f: PlayerBool, mem: Memory, consts: GameConstants)
    requires RuleOf(split) == ContinuousFlag(f)
    ensures ContinuousSplits(split, mem, consts) == Split <==> GateOpen(mem, consts) && mem.ReadBool(f) == Some(true)
    ensures mem.ReadBool(f).None? ==> ContinuousSplits(split, mem, consts) == Pass
  {
  }

  /** A transition flag rule splits exactly when its flag reads true; an unreadable flag passes. */
  lemma TransitionFlagRule(split: Split, f: PlayerBool, scenes: Pair<string>, mem: Memory, consts: GameConstants)
    requires RuleOf(split) == TransitionFlag(f)
    ensures TransitionSplits(split, scenes, mem, consts) == Split <==> mem.ReadBool(f) == Some(true)
    ensures mem.ReadBool(f).None? ==> TransitionSplits(split, scenes, mem, consts) == Pass
  {
  }

  /** `NeedleUpgradeN` splits exactly when the gate is open and the upgrade count reads at least N. */
  lemma NeedleUpgradeRule(tier: int, mem: Memory, consts: GameConstants)
    requires 1 <= tier <= 4
    ensures ContinuousSplits(NeedleUpgrade(tier), mem, consts) == Split <==>
      GateOpen(mem, consts) && mem.ReadInt(NailUpgrades).Some? && mem.ReadInt(NailUpgrades).value as int >= tier
    ensures mem.ReadInt(NailUpgrades).None? ==> ContinuousSplits(NeedleUpgrade(tier), mem, consts) == Pass
  {
  }

  /** Death splits only on a health read that succeeds with 0. */
  lemma PlayerDeathRule(mem: Memory, consts: GameConstants)
    ensures ContinuousSplits(PlayerDeath, mem, consts) == Split <==>
      GateOpen(mem, consts) && mem.ReadInt(Health) == Some(0)
  {
  }

  /** Reaching needle tier `j` implies reaching every lower tier. */
  lemma NeedleUpgradeMonotone(mem: Memory, consts: GameConstants, i: int, j: int)
    requires 1 <= i <= j <= 4
    ensures ContinuousSplits(NeedleUpgrade(j), mem, consts) == Split ==>
            ContinuousSplits(NeedleUpgrade(i), mem, consts) == Split
  {
  }

  /** An unreadable game state reads as 0; unless 0 is an active state, nothing continuous fires. */
  lemma UnreadableGameStateSuppresses(split: Split, mem: Memory, consts: GameConstants)
    requires GameState !in mem.ints && 0 !in consts.nonMenuGameStates
    ensures ContinuousSplits(split, mem, consts) == Pass
  {
  }

  /** "Any transition" fires exactly on a change of scene between two non-menu scenes. */
  lemma AnyTransitionRule(scenes: Pair<string>, mem: Memory, consts: GameConstants)
    ensures TransitionSplits(AnyTransition, scenes, mem, consts) == Split <==>
      scenes.previous != scenes.current && !consts.isMenu(scenes.previous) && !consts.isMenu(scenes.current)
    ensures scenes.previous == scenes.current ==> TransitionSplits(AnyTransition, scenes, mem, consts) == Pass
  {
  }

  /** Entering Greymoor: leaving a scene outside the "Greymoor" prefix for one inside it. */
  lemma EnterGreymoorRule(scenes: Pair<string>, mem: Memory, consts: GameConstants)
    ensures TransitionSplits(EnterGreymoor, scenes, mem, consts) == Split <==>
      !("Greymoor" <= scenes.previous) && "Greymoor" <= scenes.current
  {
  }

  /** The Weaver Queen ending is one of the endings. */
  lemma EndingAImpliesEndingSplit(scenes: Pair<string>, mem: Memory, consts: GameConstants)
    ensures TransitionSplits(EndingA, scenes, mem, consts) == Split ==>
            TransitionSplits(EndingSplit, scenes, mem, consts) == Split
  {
  }

  /** At a menu game state a set boss flag does not split. */
  lemma MenuStateSuppressesBossFlag(mem: Memory, consts: GameConstants, scenes: Pair<string>)
    requires mem.ReadInt(GameState).Some? && mem.ReadInt(GameState).value !in consts.nonMenuGameStates
    requires mem.ReadBool(DefeatedMossMother) == Some(true)
    ensures SplitsAction(MossMother, mem, consts, scenes, true) == Pass
  {
  }

  /** A completed change from Bone_06 to Bone_06_Transition, neither a menu scene, splits "any transition". */
  lemma BoneTransitionSplits(mem: Memory, consts: GameConstants)
    requires !consts.isMenu("Bone_06") && !consts.isMenu("Bone_06_Transition")
    ensures SplitsAction(AnyTransition, mem, consts, Pair("Bone_06", "Bone_06_Transition"), true) == Split
  {
  }

  /** With tier 3 read during active play, tier 2 splits and tier 4 does not. */
  lemma NeedleTierThree(mem: Memory, consts: GameConstants)
    requires GateOpen(mem, consts) && mem.ReadInt(NailUpgrades) == Some(3)
    ensures ContinuousSplits(NeedleUpgrade2, mem, consts) == Split
    ensures ContinuousSplits(NeedleUpgrade4, mem, consts) == Pass
  {
  }
}
