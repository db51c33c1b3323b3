# Silksong autosplitter core, modelled in Dafny

This project models the two core pieces of a Hollow Knight: Silksong
autosplitter. The autosplitter watches the game's memory and tells a
speedrun timer when to split.

- **The split-decision engine** (`src/splits.rs`). Each of the 86 split
  conditions (`Split`) is decided by one of two rules:
  - a *continuous* rule, tested on every tick while the game state is an
    active, non-menu one. These rules read player-data flags, the health
    counter or the needle-upgrade counter.
  - a *transition* rule, tested only on the tick a scene transition
    completes. These rules read the `(old, current)` scene pair and, for the
    `...Trans` conditions, a flag.

  `splits` evaluates the continuous rule first. Only if that passes, and
  only on a transition tick, does it consult the transition rule. Any
  decisive result sets the scene tracker's `split_this_transition` guard.
- **The value cache** (`src/store.rs`). `Store` keeps two keyed maps, one
  for booleans and one for `i32`s. Each entry holds a previous/current pair,
  an `interested` flag and its getter. A lookup registers a missing key with
  one immediate sample and marks the key interested. `update_all` evicts
  every key nobody looked up since the previous pass. It then re-samples the
  remaining entries and clears their flags.

Files and modules:

- `wrappers.dfy` (`Wrappers`): `Option`.
- `timer.dfy` (`Timer`): `SplitterAction` with `or_else`, and
  `should_split`. The timer code is not part of this model. Their
  semantics are the ones their callers rely on: `should_split(b)` splits iff
  `b`, and `or_else` defers to its fallback only on `Pass`.
- `watchers.dfy` (`Watchers`): the previous/current `Pair` and `Watcher`.
  The asr crate's code is not part of this model. This model assumes that
  the first successful sample `v` gives the pair `(v, v)` and that each later
  one shifts `current` into `old`. `Feed` and `FeedKeepsLastTwo` state what
  a sequence of ticks does to one watcher.
- `memory.dfy` (`SilksongMemory`): what the rules read. A `Memory` value
  maps each boolean and integer field to the value its read returned. A
  field absent from the map is a read that failed. `GameConstants` carries
  the constants and helpers the rules consult: `is_menu`, `MENU_TITLE`,
  `OPENING_SCENES` and `NON_MENU_GAME_STATES`. The game's memory module
  defines them, and that module is not part of this model. `SceneStore`
  keeps only the two things the engine touches: the scene pair and the
  guard.
- `splits.dfy` (`Splits`): the engine. `RuleOf` records, for every
  condition, the arm of `continuous_splits` or `transition_splits` that
  handles it, as a `Rule`: the manual rule, the death rule, a needle
  threshold, a continuous flag, a transition flag or a scene test. A `Rule`
  also names the signal its arm reads. `SceneCondition` holds the ten
  scene-pair tests. `TransitionSplits` and `ContinuousSplits` evaluate a
  condition through its rule, so each arm of the two `match`es in the
  source is one entry of `RuleOf`. The lemmas state what each kind of rule
  decides.
- `store.dfy` (`Store`): the cache. Pure functions (`Register`,
  `MarkInterested`, `UpdatedAll`, …) give the effect of each operation on
  one map. Each method of the `Store` class is proved to change its map
  exactly as the matching function says. Each lookup method's `modifies`
  clause names only its own map, so the other map is untouched. `UpdateAll` changes both maps, and its
  ensures give each new map as a function of that map's old value alone.
  A getter is an opaque handle `G`. What a getter returns when it is called
  is passed in as a `sample: G -> Option<A>` argument.

Three facts about the code are worth stating outright:

- The guard is set whenever the combined result is not `Pass`, on any
  tick.
- An entry's first successful sample fills both halves of its pair,
  whether it comes at registration or in a later pass. This follows from the assumed `Watcher` behaviour.
- An entry has no separate "has value" bit; an unsampled entry simply has
  no pair.

## Model

| member | source | states |
|---|---|---|
| `Watchers.Watcher.Update` | src/store.rs:16-19 | the first sample fills both halves of the pair; a later one moves the old current value to `previous` and stores the new value as `current` |
| `Watchers.Watcher.Offer` | src/store.rs:27-31 | a sample that produced nothing leaves the pair unchanged; `Some(v)` makes `v` the current value |
| `Watchers.FeedKeepsLastTwo` | src/store.rs:27-31 | over any sequence of ticks, `current` is the last successful sample and `previous` the one before it; failed samples leave no trace |
| `Splits.RuleOf` | src/splits.rs:449-707 | each condition's arm in `transition_splits` or `continuous_splits`, as the kind of test it performs and the signal it reads; every needle threshold is one of the tiers 1 to 4 |
| `Splits.SceneCondition` | src/splits.rs:451-518 | the ten scene-pair tests of `transition_splits`; it holds only for a condition whose arm is a scene test |
| `Splits.GateOpen` | src/splits.rs:545-546 | the definition of the continuous phase's gate: the game state, read as 0 when the read fails, is one of the active states; the continuous-phase contracts and rule lemmas are stated against it |
| `Splits.NeedleUpgrade` | src/splits.rs:288-300 | tier n (1 to 4) names the upgrade condition whose threshold is n |
| `Splits.TransitionSplits` | src/splits.rs:441-536 | the transition phase yields only `Split` or `Pass` |
| `Splits.ContinuousSplits` | src/splits.rs:538-709 | the continuous phase never yields `Skip` or `Reset`, and yields `Pass` for every condition when the game state (0 if unreadable) is not an active state |
| `Splits.SplitsAction` | src/splits.rs:720-727 | a decisive continuous result wins; otherwise the transition result is used on a transition tick, and `Pass` on any other tick; the result is `Pass` iff both phases pass; a condition is decided by its own phase only |
| `Splits.Splits` | src/splits.rs:711-732 | returns the combined action; the guard becomes true exactly when that action is not `Pass` and otherwise keeps its value; it is never cleared |
| `Splits.SplitsTwice` | src/splits.rs:711-732 | two evaluations in one tick give the same action and leave the guard as the first one left it |
| `Splits.ManualRuleIsManualSplit` | src/splits.rs:551 | the manual rule belongs to the operator-only condition and to no other |
| `Splits.ManualSplitRule` | src/splits.rs:545-551 | a condition yields `ManualSplit` iff it is the operator-only condition and the gate is open; the transition phase passes on that condition |
| `Splits.PhasesAreExclusive` | src/splits.rs:449-708 | for every condition, at least one of the two phases passes: no condition is decided by both |
| `Splits.ContinuousFlagRule` | src/splits.rs:556-703 | a condition whose rule is a continuous flag splits iff the gate is open and that flag reads true; an unreadable flag passes |
| `Splits.TransitionFlagRule` | src/splits.rs:463-530 | a condition whose rule is a transition flag splits iff that flag reads true, whatever the game state; an unreadable flag passes |
| `Splits.NeedleUpgradeRule` | src/splits.rs:659-670 | `NeedleUpgradeN` splits iff the gate is open and the upgrade count reads successfully as at least N; an unreadable count passes |
| `Splits.PlayerDeathRule` | src/splits.rs:552 | death splits iff the gate is open and health reads successfully as 0 |
| `Splits.NeedleUpgradeMonotone` | src/splits.rs:659-670 | a split on tier j implies a split on every tier i with i <= j |
| `Splits.UnreadableGameStateSuppresses` | src/splits.rs:545-548 | when the game state cannot be read and 0 is not an active state, no continuous rule fires |
| `Splits.AnyTransitionRule` | src/splits.rs:457-459 | "any transition" splits iff the scene changed and neither scene is a menu scene; an unchanged scene passes |
| `Splits.EnterGreymoorRule` | src/splits.rs:485-487 | entering Greymoor splits iff `old` lacks and `current` has the prefix "Greymoor" |
| `Splits.EndingAImpliesEndingSplit` | src/splits.rs:454-455 | whenever the Weaver Queen ending splits, the any-ending condition splits too |
| `Splits.MenuStateSuppressesBossFlag` | src/splits.rs:545-556 | at a menu game state, a set Moss Mother flag gives `Pass`, even on a transition tick |
| `Splits.BoneTransitionSplits` | src/splits.rs:457-459 | the change from Bone_06 to Bone_06_Transition splits "any transition" on a transition tick |
| `Splits.NeedleTierThree` | src/splits.rs:659-670 | with three upgrades read during active play, tier 2 splits and tier 4 passes |
| `Store.NewValue` | src/store.rs:15-25 | a new entry is interested, holds the supplied getter, and is sampled exactly once |
| `Store.Refresh` | src/store.rs:27-31 | one pass step keeps the getter, clears the flag, keeps the pair on a failed sample; a successful sample `v` becomes `current`, with the old `current` as `previous`, or fills both halves when the entry had never been sampled |
| `Store.MarkInterested` | src/store.rs:40-50 | a lookup of a present key changes only that key's flag; a missing key changes nothing |
| `Store.Register` | src/store.rs:52-72 | a missing key gains exactly one entry, sampled once and interested; a present key only becomes interested; other keys are unchanged; the key is present afterwards |
| `Store.Retained` | src/store.rs:75-76 | exactly the interested entries are kept, unchanged |
| `Store.Refreshed` | src/store.rs:77-84 | no key is added or removed; every entry gets one pass step |
| `Store.UpdatedAll` | src/store.rs:74-85 | the keys afterwards are exactly the interested keys from before (a subset); every survivor has had one pass step and is no longer interested |
| `Store.RefreshValues` | src/store.rs:77-84 | the loop over the entries gives every entry exactly one pass step |
| `Store.Store.GetBool` | src/store.rs:40-44 | returns the key's pair, or `None` for a missing key; only marks the key interested |
| `Store.Store.GetI32` | src/store.rs:46-50 | the same for the `i32` map |
| `Store.Store.GetBoolBang` | src/store.rs:52-61 | changes the boolean map as `Register` says and returns the entry's pair; for a present key this is the stored pair; the `i32` map is untouched |
| `Store.Store.GetI32Bang` | src/store.rs:63-72 | the same for the `i32` map, leaving the boolean map untouched |
| `Store.Store.UpdateAll` | src/store.rs:74-85 | each map becomes `UpdatedAll` of itself under its own samples, independently of the other map |
| `Store.LookupsLeaveOthers` | src/store.rs:52-72 | lookups of other keys neither add a key nor change its entry |
| `Store.LookupsMarkRequested` | src/store.rs:52-72 | a key looked up at least once in a tick is present and interested at the end of that tick's lookups |
| `Store.LookupsKeepInterest` | src/store.rs:52-72 | lookups never remove a key or clear its flag |
| `Store.EvictedUnlessLookedUp` | src/store.rs:74-85 | between two passes, a key survives the second pass iff it was looked up between them |
| `Store.FreshEntrySurvives` | src/store.rs:52-76 | a key registered in a tick survives the next pass |
| `Store.EvictedKeyStartsOver` | src/store.rs:57-59 | after eviction, a new lookup creates a fresh entry; nothing from the evicted entry is carried over |
| `Store.RegisterIgnoresGetterWhenPresent` | src/store.rs:57-60 | for a present key, the supplied getter and its result make no difference |
| `Store.TwoPassesWithoutLookupsEmpty` | src/store.rs:74-85 | two passes with no lookup between them empty the map |

## Left out

- Memory reads (`mem.deref` over the game-manager, player-data and gameplay pointer chains) are not modelled. A `Memory` value supplies their results.
- `is_menu`, `MENU_TITLE`, `OPENING_SCENES` and `NON_MENU_GAME_STATES` are parameters in a `GameConstants` value. Their real values are defined outside the modelled files, so lemmas that need them (such as `BoneTransitionSplits`) require the facts they use.
- `should_split`, `SplitterAction` and `or_else` come from the timer code. Their semantics are assumed as stated above. `SceneStore::pair` is assumed to be a pure read, so the laziness of `or_else`'s closure has no observable effect.
- The internals of asr's `Watcher` are assumed, not derived.
- Getter closures are modelled as opaque handles plus a per-call `sample` function. Two entries that share a handle therefore see the same sample within one call. A closure's own side effects are not modelled. Neither is the `BTreeMap` iteration order, which is unobservable without side effects.
- `StoreWidget::insert_into` (src/splits.rs:427-439) and the `Gui`/`RadioButtonOptions` derives are not modelled. They are settings plumbing over foreign libraries.
- How the scene tracker refreshes its pair, and the clearing of `split_this_transition`, are not modelled. Both belong to the scene and run-state code, which is not part of this model.
- How `Store` values are created: the modelled file has no constructor, so the Dafny constructor (an empty store) stands in for it.
- The per-tick ordering of lookups, `update_all` and evaluation is not modelled. The host enforces it.
- Concurrency is not modelled. The system runs one single-threaded tick at a time.
