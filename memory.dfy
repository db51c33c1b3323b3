/**
 * What the split engine reads from the game. Reading process memory through
 * pointer chains is not part of this model: a `Memory` value records, for
 * each field, the value a read returned, and a field missing from it is a
 * read that failed this tick. The constants and helpers of the game's memory
 * layer (`is_menu`, `MENU_TITLE`, `OPENING_SCENES`, `NON_MENU_GAME_STATES`)
 * are not visible either and are passed in as a `GameConstants` value.
 */
module SilksongMemory {
  import opened Wrappers
  import opened Watchers

  /** Rust's `i32`. */
  newtype i32 = x: int | -0x8000_0000 <= x < 0x8000_0000

  /** The boolean player-data fields the split rules read. */
  datatype PlayerBool =
    | Act2Started
    | BellShrineBellhart
    | BellShrineBoneForest
    | BellShrineGreymoor
    | BellShrineShellwood
    | BellShrineWilds
    | CaravanLechSaved
    | CompletedLibraryEntryBattle
    | DefeatedBellBeast
    | DefeatedCogworkDancers
    | DefeatedLace1
    | DefeatedLaceTower
    | DefeatedLastJudge
    | DefeatedMossMother
    | DefeatedPhantom
    | DefeatedSongGolem
    | DefeatedTrobbio
    | DefeatedVampireGnatBoss
    | Hang04Battle
    | HasBrolly
    | HasDash
    | HasHarpoonDash
    | HasMelodyArchitect
    | HasMelodyConductor
    | HasMelodyLibrarian
    | HasNeedleThrow
    | HasWallJump
    | MetTroupeHunterWild
    | SavedfleaAnt03
    | SavedfleaBelltown04
    | SavedfleaBone06
    | SavedfleaBoneEast05
    | SavedfleaBoneEast10Church
    | SavedfleaBoneEast17b
    | SavedfleaCoral24
    | SavedfleaCoral35
    | SavedfleaCrawl06
    | SavedfleaDock03d
    | SavedfleaDock16
    | SavedfleaDust09
    | SavedfleaDust12
    | SavedfleaGreymoor06
    | SavedfleaGreymoor15b
    | SavedfleaLibrary01
    | SavedfleaLibrary09
    | SavedfleaPeak05c
    | SavedfleaShadow10
    | SavedfleaShadow28
    | SavedfleaShellwood03
    | SavedfleaSlab06
    | SavedfleaSlabCell
    | SavedfleaSong11
    | SavedfleaSong14
    | SavedfleaUnder21
    | SavedfleaUnder23
    | SpinnerDefeated
    | TamedGiantFlea
    | UnlockedMelodyLift

  /** The integer fields the split rules read: one game-manager field, two player-data fields. */
  datatype IntField = GameState | Health | NailUpgrades

  /** The result of every memory read of one tick. */
  datatype Memory = Memory(bools: map<PlayerBool, bool>, ints: map<IntField, i32>) {

    /** `mem.deref(&pd.f)` for a boolean field; `None` when the read fails. */
    function ReadBool(f: PlayerBool): (r: Option<bool>)
      ensures r.Some? <==> f in bools
    {
      if f in bools then Some(bools[f]) else None
    }

    /** `mem.deref(&p.f)` for an integer field; `None` when the read fails. */
    function ReadInt(f: IntField): (r: Option<i32>)
      ensures r.Some? <==> f in ints
    {
      if f in ints then Some(ints[f]) else None
    }

    /** `mem.deref(&pd.f).unwrap_or_default()`: a failed read counts as false. */
    predicate Flag(f: PlayerBool)
    {
      ReadBool(f).GetOr(false)
    }
  }

  /** The externally defined constants and helpers the rules consult. */
  datatype GameConstants = GameConstants(
    menuTitle: string,
    isMenu: string -> bool,
    openingScenes: set<string>,
    nonMenuGameStates: set<i32>)

  /** Rust's `str::starts_with`. */
  predicate StartsWith(s: string, prefix: string)
  {
    prefix <= s
  }

  /**
   * The scene tracker: the latest `(old, current)` scene pair and the guard
   * recording that a split has already fired in this transition. How the
   * pair is refreshed and when the guard is cleared belong to code outside
   * this model; the split engine only reads `pair` and sets the guard.
   */
  class SceneStore {
    var pair: Pair<string>
    var splitThisTransition: bool

    constructor (pair: Pair<string>)
      ensures this.pair == pair && !splitThisTransition
    {
      this.pair := pair;
      splitThisTransition := false;
    }
  }
}
