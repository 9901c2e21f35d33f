# jeudeplateau game engine, in Dafny

This project models the engine of the jeudeplateau board-game server: the
rule language and the state changes it drives, over an in-memory copy of the
game store. The store holds games, tiles, connections, players, pawns, dice,
turns, rules and the event log.

- `types.dfy` (`EngineTypes`): identifiers, `Option`/`Result`, the rule
  `Trigger` union, the DSL `Effect` union and the error codes the engine throws.
- `json.dfy` (`Json`): the JavaScript values that rule conditions, effects
  and event payloads carry. It also gives the operators the engine applies to
  them: truthiness, `===`, `includes`, `Number()` and property lookup.
- `store.dfy` (`Store`): the database as a class `Db` with one field per
  table and an id counter. Its `Snapshot()` is a `Tables` value.
- `events.dfy` (`Events`): `logEvent` and `logEventGlobal`, as an append to
  the event log.
- `conditions.dfy` (`Conditions`): `readPath` and `evalCondition`.
- `rules.dfy` (`Rules`): `fetchActiveRules` and `getApplicableRules`. The
  `for` loop is a method. The comparator sort is a stable insertion sort,
  proved sorted, a permutation and tie-order preserving. Any arrangement with
  these three properties is proved equal to it.
- `effects.dfy` (`Effects`): `getMainPawn`, `getTrackMaxX` and
  `applyEffects`. The loop is a method that updates the store in place. It is
  proved against `ApplyEffectsSpec`, a fold of one `Step` per effect.
- `tiles.dfy` (`Tiles`): `applyTileEffectsAfterMove`, the enter-tile phase
  followed by the after-move phase.
- `rng.dfy` (`Rng`): `makeRng` as a class `Generator` whose field is the
  closure's `state`, plus `rollFaces`. xorshift32 is modelled on `bv32`.
- `guards.dfy` (`Guards`): the four guards, as functions returning a result.
- `games.dfy` (`Games`): the transaction body of `POST /api/games`. It is a
  chain of methods (board, players, first turn and event), each proved equal
  to a stage function of the old store.
- `validators.dfy` (`Validators`): the zod schemas of `lib/z.ts`, as
  acceptance predicates and parsers with round trips.

Two behaviours of the code to note:
- Game creation stores only the forward edge of each track connection,
  flagged `bidir`. It does not store two edges.
- `rollFaces` draws its index from xorshift32 divided by 0xffffffff, a
  fraction in [0, 1]. It is not an FNV mix in [0, 1).

## Model

| member | source | states |
|---|---|---|
| Json.Truthy | lib/engine/conditions.ts:9 | `!!v`: undefined, null, false, 0 and the empty string are falsy, every array and object is truthy |
| Json.StrictEquals | lib/engine/conditions.ts:21-22 | `===` on the values a condition can compare; characterised by `StrictEqualsIsPrimitiveEquality` |
| Json.StrictEqualsIsPrimitiveEquality | lib/engine/conditions.ts:21-22 | `===` holds exactly for equal primitives; a condition literal is never the same array or object as a context value |
| Json.Includes | lib/engine/conditions.ts:25-26 | `items.includes(v)`: some element is `===` to `v` |
| Json.Decimal | lib/engine/conditions.ts:9 | the decimal rendering of an index is a non-empty digit string |
| Json.DecimalRoundTrip | lib/engine/conditions.ts:9 | reading a rendered index back gives the number, and the rendering is a canonical array index |
| Json.ToNumberOfDecimal | lib/engine/conditions.ts:23-24 | `Number()` of a digit string, or of a one-element array holding the number, is that number |
| Json.TrimStart | lib/engine/conditions.ts:23-24 | dropping leading white space leaves a suffix that is empty or starts with a non-space |
| Json.TrimEnd | lib/engine/conditions.ts:23-24 | dropping trailing white space leaves a prefix that is empty or ends with a non-space |
| Json.TrimUnpadded | lib/engine/conditions.ts:23-24 | a string without white space at either end is its own trim |
| Json.LeadingSpaceIgnored | lib/engine/conditions.ts:23-24 | white space before a string does not change the number it converts to |
| Json.TrailingSpaceIgnored | lib/engine/conditions.ts:23-24 | white space after a string does not change the number it converts to |
| Json.DigitsToNumber | lib/engine/conditions.ts:23-24 | a non-empty digit string converts to its decimal value |
| Json.PrefixedToNumber | lib/engine/conditions.ts:23-24 | an unsigned `0x`, `0o` or `0b` literal converts to its value in base 16, 8 or 2 |
| Json.SignedPrefixIsNaN | lib/engine/conditions.ts:23-24 | a sign before a `0x`, `0o` or `0b` literal makes it NaN |
| Json.PaddedDigits | lib/engine/conditions.ts:23-24 | `Number(" 2")` is 2 |
| Json.HexLiteral | lib/engine/conditions.ts:23-24 | `Number("0x10")` is 16 |
| Json.BinaryLiteral | lib/engine/conditions.ts:23-24 | `Number("0b101")` is 5 |
| Json.SignedHexIsNaN | lib/engine/conditions.ts:23-24 | `Number("-0x10")` is NaN |
| Json.ToNumber | lib/engine/conditions.ts:23-24 | `Number(v)` with NaN as none: undefined and objects are NaN, null is 0, booleans 0 or 1, strings as `StringToNumber`, arrays through their string form; characterised by the lemmas above |
| Json.Utf16Units | lib/engine/conditions.ts:9 | `s.length` counts UTF-16 units, at least one per character |
| Json.CharAtUnit | lib/engine/conditions.ts:9 | the character covering a UTF-16 unit is a character of the string |
| Json.BasicPlaneUnits | lib/engine/conditions.ts:9 | for basic-plane text, the length is the number of characters and unit `k` is character `k` |
| Json.AstralUnits | lib/engine/conditions.ts:9 | a character above the basic plane adds 2 to the length and covers two units |
| Json.Get | lib/engine/conditions.ts:9 | `o[k]` for own properties: object fields, array elements and `length`, string `length` and indices in UTF-16 units; anything else is undefined |
| Json.GetIndex | lib/engine/conditions.ts:9 | a path segment that is a decimal index reads that element of an array |
| Conditions.Split | lib/engine/conditions.ts:9 | `split('.')` yields at least one segment, and no segment contains a dot |
| Conditions.JoinSplit | lib/engine/conditions.ts:9 | joining the segments with dots gives the path back |
| Conditions.SplitJoin | lib/engine/conditions.ts:9 | splitting the dot-join of dot-free segments gives the segments back |
| Conditions.SplitDot | lib/engine/conditions.ts:9 | the segments of `p.q` are those of `p` followed by those of `q` |
| Conditions.SplitWithoutDot | lib/engine/conditions.ts:9 | a path without a dot is a single segment |
| Conditions.WalkFromFalsy | lib/engine/conditions.ts:9 | once the reduce reaches a falsy value, every further key yields undefined |
| Conditions.WalkAppend | lib/engine/conditions.ts:9 | reducing over `a + b` is reducing over `b` from the value `a` reaches |
| Conditions.Step | lib/engine/conditions.ts:9 | the reduce callback `o ? o[k] : undefined` |
| Conditions.ReadPath | lib/engine/conditions.ts:8-10 | a falsy object reads as undefined at every path, and a path without a dot is one property read |
| Conditions.ReadPathDot | lib/engine/conditions.ts:8-10 | reading `p.q` is reading `q` inside the value read at `p` |
| Conditions.ReadPathThroughFalsy | lib/engine/conditions.ts:9 | when `p` reads as missing or falsy, every longer path `p.q` reads as undefined |
| Conditions.AbsentHolds | lib/engine/conditions.ts:13 | a null or absent condition is true in every context |
| Conditions.AndIsEvery | lib/engine/conditions.ts:14 | `AND` is true iff every child is true; an empty `AND` is true |
| Conditions.OrIsSome | lib/engine/conditions.ts:15 | `OR` is true iff some child is true; an empty `OR` is false |
| Conditions.NotNegates | lib/engine/conditions.ts:16 | `NOT` is the negation of its child |
| Conditions.EqNeqComplement | lib/engine/conditions.ts:21-22 | for the same path and literal, `neq` holds exactly when `eq` does not |
| Conditions.InNeedsListLiteral | lib/engine/conditions.ts:25 | `in` is false for a non-list literal; otherwise it holds iff some element is `===` to the looked-up value |
| Conditions.HasTagNeedsList | lib/engine/conditions.ts:26 | `hasTag` is false whenever the looked-up value is not a list |
| Conditions.UnknownOpIsFalse | lib/engine/conditions.ts:27 | a leaf with any other operator is false |
| Conditions.NaNComparesFalse | lib/engine/conditions.ts:23-24 | when the looked-up value converts to NaN, both `gte` and `lte` are false |
| Conditions.MissingKeyReadsUndefined | lib/engine/conditions.ts:9 | a key that the object read at `p` lacks reads as undefined at `p.key` |
| Conditions.MissingPathComparesFalse | lib/engine/conditions.ts:8-24 | below a falsy prefix, or at a key the object lacks, both `gte` and `lte` are false |
| Conditions.EvalDependsOnPaths | lib/engine/conditions.ts:12-29 | a condition reads the context only at the paths of its leaves: two contexts that agree there give the same verdict |
| Conditions.EvalLeaf | lib/engine/conditions.ts:19-27 | the leaf switch on the looked-up value; its cases are stated by `EqNeqComplement`, `NaNComparesFalse`, `InNeedsListLiteral`, `HasTagNeedsList` and `UnknownOpIsFalse` |
| Conditions.StringLengthRead | lib/engine/conditions.ts:9 | a string field's `length` reads as its UTF-16 length, and an empty string's as undefined |
| Conditions.ReadLength | lib/engine/conditions.ts:9 | reading `length` on a string: its UTF-16 length, or undefined for the empty (falsy) string |
| Conditions.EmojiUnits | lib/engine/conditions.ts:9 | the string "a" followed by U+1F600 has length 3 |
| Conditions.AstralLength | lib/engine/conditions.ts:8-24 | in the context `{preset: "a😀"}`, `preset.length` reads 3 and a `gte 3` leaf on it holds |
| Conditions.Eval | lib/engine/conditions.ts:13-27 | `evalCondition` as a predicate over the tree; its cases are stated by the lemmas above and below |
| Events.Logged | lib/events.ts:15-24 | logging appends exactly one event (id, game, type, payload, turn and actor, each absent one stored as null) and leaves every other table and every earlier event as it was |
| Events.LoggedWellFormed | lib/events.ts:15-24 | logging keeps the store well formed, and the new event's id is fresh |
| Events.LogEvent | lib/events.ts:6-25 | the store becomes `Logged` of the old store, and the returned id is the new event's |
| Events.LogEventGlobal | lib/events.ts:27-35 | on the global store, the same change and the same id as `logEvent` |
| Rules.ActiveRows | lib/engine/rules.ts:6-9 | a row is kept iff it belongs to the game, is enabled and has the trigger |
| Rules.ActiveRowsCreationOrdered | lib/engine/rules.ts:8 | the kept rows stay in creation order |
| Rules.EffectsAsList | lib/engine/rules.ts:15 | a stored list stays a list, and a single stored effect is wrapped in one |
| Rules.Normalise | lib/engine/rules.ts:10-19 | the row mapped to a rule; stated by `FetchedRulesAreNormalised` |
| Rules.FetchActiveRules | lib/engine/rules.ts:5-20 | one rule per selected row, in the rows' order |
| Rules.FetchedRulesAreNormalised | lib/engine/rules.ts:10-19 | each fetched rule comes from an active row of the same position; its effects are a list (a single effect wrapped) and its priority and specificity default to 0 |
| Rules.Compare | lib/engine/rules.ts:31-35 | the comparator: by specificity, then priority, both descending; 0 on a tie |
| Rules.SortRules | lib/engine/rules.ts:31-35 | the stable sort with `Compare`; stated by `SortRulesCorrect` and `SortedStableUnique` |
| Rules.KeyFilter | lib/engine/rules.ts:34 | the rules sharing a key are rules of the input with that specificity and priority |
| Rules.KeyFilterAppend | lib/engine/rules.ts:34 | taking the rules of one key distributes over concatenation |
| Rules.InsertPermutation | lib/engine/rules.ts:31-35 | inserting a rule adds exactly that rule to the multiset |
| Rules.InsertSorted | lib/engine/rules.ts:32-33 | inserting into a sorted list keeps it sorted by specificity, then priority, descending |
| Rules.InsertKeyFilter | lib/engine/rules.ts:34 | insertion puts the new rule after every earlier rule of its key |
| Rules.NoTieAfter | lib/engine/rules.ts:32-34 | a sorted list whose head ranks below a rule holds no rule with that rule's key |
| Rules.SortRulesSorted | lib/engine/rules.ts:31-33 | the sorted result is ordered by specificity descending, then priority descending |
| Rules.SortRulesPermutation | lib/engine/rules.ts:31 | the sorted result is a permutation of its input |
| Rules.SortRulesTies | lib/engine/rules.ts:34 | rules with equal specificity and priority keep their input order (stability) |
| Rules.SortRulesCorrect | lib/engine/rules.ts:31-35 | the sort is sorted, a permutation and stable |
| Rules.HeadFirst | lib/engine/rules.ts:32-33 | the head of a sorted list ranks at least as high as any member |
| Rules.NonEmptyKeyFilter | lib/engine/rules.ts:34 | the head's key has at least one rule |
| Rules.HeadsAgree | lib/engine/rules.ts:31-35 | two sorted lists with the same per-key order start with the same rule |
| Rules.TailsTieOrder | lib/engine/rules.ts:34 | removing a common head keeps the per-key orders equal |
| Rules.SortedStableUnique | lib/engine/rules.ts:22-35 | two sorted arrangements with the same per-key order are equal, so every stable sort gives the same sequence for the same rules and context |
| Rules.Passing | lib/engine/rules.ts:25-29 | a rule passes iff it was fetched and its condition holds |
| Rules.GetApplicableRules | lib/engine/rules.ts:22-35 | the result holds exactly the fetched rules whose condition holds, as a permutation of the passing list, sorted, and in creation order within a key |
| Rules.FilterPassing | lib/engine/rules.ts:25-29 | the `for` loop returns exactly `Passing` of the fetched rules |
| Rules.PassingStep | lib/engine/rules.ts:26-28 | one loop step appends the rule iff its condition holds |
| Rules.SortedPassing | lib/engine/rules.ts:25-35 | the sorted passing list holds exactly the fetched rules whose condition holds, sorted, as a permutation that keeps tie order |
| Effects.MaxTileX | lib/engine/effects.ts:15 | the largest tile x of the game, present iff the game has a tile |
| Effects.TrackMaxX | lib/engine/effects.ts:14-17 | the largest tile x of the game, or 19 when it has no tiles |
| Effects.FirstDie | lib/engine/effects.ts:57 | the position of the first die of the player in the game, or none when there is none |
| Effects.ApplyMove | lib/engine/effects.ts:43-53 | one `move.delta` changes the store and the loop variables exactly as `Step` does |
| Effects.ApplyDice | lib/engine/effects.ts:55-62 | one `dice.set` changes the store exactly as `Step` does, leaving pawns and players untouched |
| Effects.ApplyVictory | lib/engine/effects.ts:64-67 | one `victory.declare` changes the store exactly as `Step` does, leaving pawns untouched |
| Effects.MainPawn | lib/engine/effects.ts:6-12 | the lookup succeeds iff the player exists, has a main pawn id and that pawn exists, and then returns that id; `CORE_PAWN_MISSING` exactly when the player or its id is missing |
| Effects.Step | lib/engine/effects.ts:40-68 | one iteration of the loop body; stated by `MoveDeltaStep`, `DiceSetStep`, `VictoryStep`, `IgnoredDoNothing` and `StepFrame` |
| Effects.Run | lib/engine/effects.ts:40-68 | the loop as a fold of `Step`; stated by `RunAppend`, `RunFrame`, `RunLog` and `RunPosChanged` |
| Effects.ApplyEffectsSpec | lib/engine/effects.ts:28-71 | an empty list returns `{}` with the store unchanged; otherwise the call succeeds iff the main pawn lookup does, and any error is the lookup's |
| Effects.ApplyEffects | lib/engine/effects.ts:28-71 | the error or the new store and `finalPos` are those of `ApplyEffectsSpec`; on an error the store is unchanged |
| Effects.FrameTrans | lib/engine/effects.ts:28-71 | what the applier may change composes over successive steps |
| Effects.FrameRefl | lib/engine/effects.ts:41 | changing nothing stays within the applier's frame |
| Effects.StepFrame | lib/engine/effects.ts:41-67 | one effect changes only pawns, dice, players and the log, keeps the local pawn equal to its row, and moves it only for a `move.delta` that changes x |
| Effects.MoveFrame | lib/engine/effects.ts:43-53 | a `move.delta` stays in the frame; the pawn moves to the clamped target when x changes, and the move is recorded |
| Effects.DiceFrame | lib/engine/effects.ts:55-62 | a `dice.set` stays in the frame and does not move the pawn |
| Effects.VictoryFrame | lib/engine/effects.ts:64-67 | a `victory.declare` stays in the frame and does not move the pawn |
| Effects.RunAppend | lib/engine/effects.ts:40 | running `xs + ys` is running `ys` from where `xs` left off, so consecutive moves compose |
| Effects.RunFrame | lib/engine/effects.ts:40-68 | the whole loop stays in the frame, keeps the core pawn and keeps its local copy equal to its row |
| Effects.IgnoredDoNothing | lib/engine/effects.ts:41 | non-object entries and unknown effect types change no state and log nothing |
| Effects.FirstDieKept | lib/engine/effects.ts:57-59 | rewriting faces and labels does not change which die is the player's first |
| Effects.RunLog | lib/engine/effects.ts:43-67 | the loop logs one event per `move.delta` and `victory.declare`, and one per `dice.set` when the player has a die |
| Effects.StepLog | lib/engine/effects.ts:43-67 | one effect logs one event or none, as above |
| Effects.RunPosChanged | lib/engine/effects.ts:47-50 | the moved flag is set iff some `move.delta` changed x; without one the pawn is unchanged |
| Effects.MoveDeltaStep | lib/engine/effects.ts:44-52 | `move.delta` sets x to `max(0, min(x + steps, maxX))`, keeps y, writes the row only if x changed and logs `EFFECT_MOVE_DELTA` even for a no-op |
| Effects.DiceSetStep | lib/engine/effects.ts:57-61 | `dice.set` rewrites only the player's first die, keeping its faces or label when that field is omitted, and logs `EFFECT_DICE_SET`; without a die nothing changes |
| Effects.VictoryStep | lib/engine/effects.ts:65-66 | `victory.declare` deactivates the player and logs `VICTORY_DECLARE` with the message or 'Victoire !' |
| Effects.ApplyEffectsErrors | lib/engine/effects.ts:35-37 | an empty list returns `{}` and changes nothing; otherwise the call fails exactly when the core pawn is missing (`CORE_PAWN_MISSING`) or its row is (`CORE_PAWN_NOT_FOUND`) |
| Effects.ApplyEffectsResult | lib/engine/effects.ts:28-71 | a successful call stays in the frame and logs as `RunLog` says; `finalPos` is present iff some move changed the position, and it then equals the pawn's stored position |
| Tiles.TileAt | lib/engine/tiles.ts:23 | the first tile of the game at (x, y), or none when there is none |
| Tiles.FlattenAppend | lib/engine/tiles.ts:28 | collecting effects distributes over concatenation of rule lists |
| Tiles.FlattenOrder | lib/engine/tiles.ts:28 | the effects of rule i come after those of every earlier rule and before those of every later one, in their list order |
| Tiles.PhaseEffects | lib/engine/tiles.ts:27-28 | the effects of the applicable rules, flattened in rule order; stated by `FlattenOrder` |
| Tiles.Phase | lib/engine/tiles.ts:30 | with a core pawn, a phase always succeeds, keeps the core pawn and changes only what the applier may |
| Tiles.AfterMoveSpec | lib/engine/tiles.ts:10-38 | without a main pawn or its row, the result is `{}` and nothing changes; otherwise only what `applyEffects` may change is changed |
| Tiles.ApplyTileEffectsAfterMove | lib/engine/tiles.ts:10-38 | the new store and `finalPos` are those of `AfterMoveSpec` |
| Tiles.StepIgnoresFlag | lib/engine/tiles.ts:30-35 | an effect's changes do not depend on the moved flag it starts with |
| Tiles.RunIgnoresFlag | lib/engine/tiles.ts:30-35 | a run's changes do not depend on the moved flag it starts with |
| Tiles.RestartFlag | lib/engine/tiles.ts:35 | restarting the flag for the second phase changes neither the store nor the pawn it reaches |
| Tiles.AfterMoveIsOneRun | lib/engine/tiles.ts:23-35 | the store after both phases is one run of all enter-tile effects then all after-move effects, both chosen with the tile under the pawn before any effect ran |
| Tiles.AfterMoveFinalPos | lib/engine/tiles.ts:37 | a returned `finalPos` is where the core pawn now is; with none, the pawn row is unchanged |
| Tiles.PhasePawn | lib/engine/tiles.ts:30-35 | after one phase, a returned `finalPos` is the pawn's stored position; with none, the pawn row is unchanged |
| Rng.FirstCodeUnit | lib/rng.ts:3 | `charCodeAt(0)` is a 16-bit code unit, the character itself in the basic plane |
| Rng.SeedCodes | lib/rng.ts:3 | at most 8 codes are folded, one per character of the 8-unit prefix |
| Rng.Fold | lib/rng.ts:3 | the fold `acc*33 + code` cut by `>>> 0` stays an unsigned 32-bit value |
| Rng.Generator.constructor | lib/rng.ts:3 | the generator starts at the fold of the seed's first 8 code units from 0x9e3779b9 |
| Rng.Generator.Next | lib/rng.ts:5-11 | `next` advances the state by one xorshift32 step and returns it |
| Rng.Generator.Float | lib/rng.ts:13 | `float` advances the state and returns it over 0xffffffff, a value in [0, 1] that is below 1 iff the state is below 0xffffffff |
| Rng.Generator.IntBetween | lib/rng.ts:14 | `intBetween` advances the state and returns the scaled floor plus `min` |
| Rng.FloorOfQuotient | lib/rng.ts:13-14 | the floor of an exact quotient is integer division |
| Rng.FloorOfScaled | lib/rng.ts:14-21 | `floor(float * n)` is `(state * n) / 0xffffffff` |
| Rng.Pick | lib/rng.ts:21-22 | `faces[floor(s / 0xffffffff * faces.length)]`, none when out of range; stated by `PickIsFace` |
| Rng.Roll | lib/rng.ts:19-22 | the pick at the first output of the seed's generator; stated by `RollIsFace`, `RollDeterministic` and `SeedWithTopState` |
| Rng.RollFaces | lib/rng.ts:19-23 | `rollFaces` returns `Roll(seed, faces)` |
| Rng.SeedCodesPrefix | lib/rng.ts:3 | the codes depend only on the first 8 characters |
| Rng.SeedState | lib/rng.ts:3 | the starting state is the fold of the codes of the seed's first 8 characters |
| Rng.SeedStateFirstEight | lib/rng.ts:3 | two seeds with the same first 8 characters start in the same state |
| Rng.SeedCodesBasicPlane | lib/rng.ts:3 | for a seed in the basic plane the codes are its first 8 character codes |
| Rng.Left13Undone | lib/rng.ts:8 | the 13-bit left step is undone by its inverse |
| Rng.Left13Redone | lib/rng.ts:8 | the inverse of the 13-bit left step is undone by the step |
| Rng.Right17SelfInverse | lib/rng.ts:9 | the 17-bit right step is its own inverse |
| Rng.Left5Undone | lib/rng.ts:10 | the 5-bit left step is undone by its inverse |
| Rng.Left5Redone | lib/rng.ts:10 | the inverse of the 5-bit left step is undone by the step |
| Rng.Xorshift | lib/rng.ts:5-11 | one xorshift32 step; `Unxorshift` recovers the previous state |
| Rng.XorshiftInverse | lib/rng.ts:5-11 | xorshift32 is a bijection on 32-bit states |
| Rng.XorshiftZero | lib/rng.ts:5-11 | xorshift32 maps 0 to 0 and only 0 to 0 |
| Rng.ScaledBounds | lib/rng.ts:14-21 | the scaled floor lies in [0, n] and equals n only for the state 0xffffffff (or n = 0) |
| Rng.IntBetweenBounds | lib/rng.ts:14 | `intBetween(min, max)` is at least `min`, and at most `max` when the state is below 0xffffffff |
| Rng.PickIsFace | lib/rng.ts:21-22 | the index picks a face iff the list is non-empty and the state is below 0xffffffff, and it is then an element of the faces |
| Rng.RollIsFace | lib/rng.ts:19-23 | `rollFaces` returns an element of the faces iff they are non-empty and the first output is below 0xffffffff |
| Rng.RollDeterministic | lib/rng.ts:19-23 | two seeds with the same first 8 characters roll the same value on the same faces |
| Rng.SeedWithTopState | lib/rng.ts:3-22 | any seed beginning "7ceeca24" starts at 0x5e6cfce7, whose successor is 0xffffffff: its roll reads past the faces and `intBetween` returns `max + 1` |
| Rng.TopSeedCodes | lib/rng.ts:3 | the codes of "7ceeca24" are its ASCII codes |
| Rng.TopSeedFold | lib/rng.ts:3 | those codes fold to 0x5e6cfce7 |
| Rng.StateOfFold | lib/rng.ts:3 | that fold is the starting state |
| Rng.TopSuccessor | lib/rng.ts:5-11 | xorshift32 maps 0x5e6cfce7 to 0xffffffff |
| Rng.FoldSteps | lib/rng.ts:3 | the fold over "7ceeca24", one code at a time |
| Rng.RollIntendedIsFace | lib/rng.ts:21-22 | with the divisor 2^32, every seed rolls an element of any non-empty faces |
| Rng.PickIntendedIsFace | lib/rng.ts:21-22 | with the divisor 2^32, every state picks an element of non-empty faces |
| Rng.IntBetweenIntended | lib/rng.ts:14 | with the divisor 2^32, `intBetween(min, max)` always lies in [min, max] |
| Rng.IntendedBounds | lib/rng.ts:14-21 | with the divisor 2^32, the scaled index lies in [0, n) |
| Guards.EnsureGameRunning | lib/guards.ts:3-8 | succeeds with the game iff it exists and is running or waiting; a missing game is `GAME_NOT_FOUND`, any other status `GAME_NOT_RUNNING` |
| Guards.EnsurePlayerInGame | lib/guards.ts:10-14 | succeeds with the player iff that player belongs to the game, else `PLAYER_NOT_IN_GAME` |
| Guards.CurrentTurn | lib/guards.ts:16-18 | the game's turn with the highest index, or none iff the game has no turn |
| Guards.AssertOneRuleChangePerTurn | lib/guards.ts:20-22 | passes iff the count is below 1, else fails with `RULE_CHANGE_QUOTA_EXCEEDED` |
| Validators.ParseCreateGame | lib/z.ts:3-6 | accepts exactly what `zCreateGame` accepts: a non-empty name and at least one player, each with a non-empty nickname and an optional string color |
| Validators.CreateGameRoundTrip | lib/z.ts:3-6 | every valid creation request parses back from its JSON |
| Validators.ParseJoinGame | lib/z.ts:8-11 | accepts exactly what `zJoinGame` accepts, and the nickname is non-empty |
| Validators.JoinGameRoundTrip | lib/z.ts:8-11 | every valid join request parses back from its JSON |
| Validators.ParsePlayerAction | lib/z.ts:13-19 | `zRoll` and `zEndTurn` accept exactly a non-empty string `playerId` |
| Validators.ParseMutationAction | lib/z.ts:23 | an action is accepted iff it is add, modify or remove |
| Validators.ParseRulesMutation | lib/z.ts:21-26 | accepts exactly what `zRulesMutation` accepts, with `rule` and `ruleId` optional |
| Validators.RulesMutationRoundTrip | lib/z.ts:21-26 | every valid mutation request parses back from its JSON |
| Validators.ParseTileOp | lib/z.ts:30 | an op is accepted iff it is one of the six tile operations |
| Validators.ParseTileEdit | lib/z.ts:28-32 | accepts exactly what `zTileEdit` accepts |
| Validators.TileEditRoundTrip | lib/z.ts:28-32 | every valid tile edit parses back from its JSON |
| Games.CreateTrack | app/api/games/route.ts:54-67 | creates the 20 track tiles and reads back exactly those tiles |
| Games.LinkTrack | app/api/games/route.ts:70-74 | appends the 19 track connections and nothing else |
| Games.CreateBoard | app/api/games/route.ts:51-74 | the store becomes the board stage: the waiting game, its track and its links |
| Games.SeatPlayer | app/api/games/route.ts:78-84 | one player, their pawn (set as the main pawn) and their die are added, and the player's id is returned |
| Games.CreatePlayers | app/api/games/route.ts:77-86 | the players are seated in input order, and the created ids are returned in that order |
| Games.FinishGame | app/api/games/route.ts:88-93 | the first turn, the running status and the `GAME_CREATED` event are added |
| Games.CreateGameSpec | app/api/games/route.ts:50-96 | the store after the transaction body: board, seats, first turn and event; stated by the `CreateGame…` lemmas below |
| Games.CreateGame | app/api/games/route.ts:44-102 | an invalid body fails with no change; a valid one returns the new game id, and the store becomes `CreateGameSpec` |
| Games.GameWellFormed | app/api/games/route.ts:51 | adding the game row keeps the store well formed |
| Games.TrackWellFormed | app/api/games/route.ts:54-60 | adding the track keeps the store well formed |
| Games.LinksWellFormed | app/api/games/route.ts:70-74 | adding the links keeps the store well formed |
| Games.AddPlayerWellFormed | app/api/games/route.ts:78-84 | seating one player keeps the store well formed |
| Games.AddPlayersWellFormed | app/api/games/route.ts:77-86 | seating all players keeps the store well formed |
| Games.OpenTurnWellFormed | app/api/games/route.ts:88-92 | opening the first turn keeps the store well formed |
| Games.FinishWellFormed | app/api/games/route.ts:88-93 | the finishing stage keeps the store well formed |
| Games.ReadBackTrack | app/api/games/route.ts:63-67 | reading back the new game's tiles yields exactly its track |
| Games.TrackOfGame | app/api/games/route.ts:55 | every track tile belongs to the new game |
| Games.TrackAscending | app/api/games/route.ts:65 | the track is already in ascending x, so the read-back `orderBy` keeps it as created |
| Games.TilesOfAppend | app/api/games/route.ts:64 | selecting a game's tiles distributes over concatenation |
| Games.TilesOfNone | app/api/games/route.ts:64 | a list without tiles of the game selects nothing |
| Games.TilesOfAll | app/api/games/route.ts:64 | a list of the game's tiles selects itself |
| Games.AddPlayersFrame | app/api/games/route.ts:77-86 | seating changes only players, pawns and dice, using 3 ids per player |
| Games.AddPlayersDice | app/api/games/route.ts:84 | seating appends one D6 die per player, in order |
| Games.AddPlayerKeeps | app/api/games/route.ts:78-83 | seating one player keeps every earlier player and pawn row |
| Games.AddPlayersKeeps | app/api/games/route.ts:77-86 | seating keeps every earlier player and pawn row |
| Games.AddPlayerSeats | app/api/games/route.ts:78-83 | the new player is seated, and earlier seats remain |
| Games.AddPlayersRows | app/api/games/route.ts:77-86 | every input player is seated at its own id |
| Games.AddPlayersKeys | app/api/games/route.ts:77-86 | the only new player and pawn keys are those of the seated players |
| Games.CreateGameLayout | app/api/games/route.ts:50-96 | where each table ends up after creation, and which ids the game, turn and event get |
| Games.CreateGameTrack | app/api/games/route.ts:54-59 | exactly 20 tiles at x = 0..19, y = 0; tile 0 is start, tile 19 is goal tagged arrival, the rest neutral with no tags; old tiles kept |
| Games.CreateGameLinks | app/api/games/route.ts:70-74 | exactly 19 connections, each from tile x to tile x+1 with `bidir` set; old connections kept |
| Games.CreateGamePlayers | app/api/games/route.ts:78-83 | each input player gets a player row with its nickname, its color or '#cccccc', active, whose main pawn is a core pawn of theirs at (0,0) |
| Games.CreateGameOnlySeats | app/api/games/route.ts:77-86 | earlier players and pawns are kept, and the only new ones are the seated players and their pawns |
| Games.CreateGameDice | app/api/games/route.ts:84 | one die labelled 'D6' with faces [1,2,3,4,5,6] per player, in input order |
| Games.CreateGameTurn | app/api/games/route.ts:88-92 | one turn with index 1 whose current player is the first created player; the new game is running with its name and seed, and other games are unchanged |
| Games.CreateGameLogged | app/api/games/route.ts:93 | exactly one `GAME_CREATED` event, with the name, the nicknames in order, the new turn's id and no actor |
| Games.CreateGameWellFormed | app/api/games/route.ts:50-96 | game creation keeps the store well formed |

## Left out

- Persistence and transactions: the Prisma client is the class `Db`. A
  transaction is a sequence of method calls on it, and timestamps are not
  stored. cuid identifiers are naturals from one counter, so creation order
  is id order.
- `buildEvalContext` (lib/engine/conditions.ts:32-43) and
  lib/engine/context.ts: the evaluation context is the parameter `context`,
  a function from the tile under the pawn to a JSON value.
- Asynchrony and `Promise.all`: conditions are evaluated sequentially.
- The `GET` listing and `randomHex` of app/api/games/route.ts: the seed of
  a new game is a parameter.
- The HTTP layer: response shapes and the zod error message. A rejected
  request is the error `InvalidRequest`.
- lib/engine/triggers.ts: it calls `applyEffects` with four arguments where
  the function takes five, so it has no coherent meaning to model.
- prisma/seed.js and the React components: not part of this model.
- Turn rotation, rolling, moving along connections and ending a turn: their
  route handlers are not part of this model.
- Numbers are integers: `Number()` covers integers, booleans, null and
  one-element arrays, with NaN as `None`. For strings it trims JavaScript
  white space and reads decimal digits with an optional sign, and unsigned
  `0x`, `0o` and `0b` literals. `"Infinity"`, `"-Infinity"` and strings with
  a decimal point or an exponent (`"1.0"`, `"1."`, `"1e3"`) read as NaN;
  they are not modelled.
- Rng.Generator.Float, Rng.Generator.IntBetween, Rng.RollFaces: `float()`
  is an exact rational and the floors are exact integer divisions. The
  source uses doubles; this is an idealisation of their rounding.
- Json.Get: reading index `k` of a string gives the whole character that
  covers UTF-16 unit `k`. JavaScript gives a lone surrogate when the unit is
  half of a character above the basic plane; a Dafny `char` cannot hold a
  lone surrogate. Inherited properties (`"x".constructor`, `[].map`) read
  as undefined, where JavaScript returns a function (truthy).
- Rng.SeedCodes: characters outside the basic plane count as two UTF-16
  units, cut as the source's `slice` does. Hex seeds never contain them.
- Guards.CurrentTurn: it returns the first turn of highest index. Two turns
  of a game with the same index do not occur; which one the database
  returns is not modelled.
- Conditions: malformed condition nodes (an `AND` without `nodes`, a leaf
  without `path`) make the source throw. They are not representable in
  `Cond`.
- Tiles: both phases read the rule table of the store at the start of the
  call. The source reads rules with the global client, outside the
  transaction, so it sees committed rows only. Rules are never written
  inside the call.
- Effects.ApplyDice: an explicit `null` for `faces` or `label` in a stored
  effect is treated as an omitted field, so the logged payload leaves it
  out where the source logs `null`. `DiceSet` carries an `Option`, which
  cannot tell the two apart.
- Effects.ApplyVictory: it requires the player row to exist. The core pawn
  lookup has already read it, and the model's `Step` leaves players
  unchanged when it does not.

## Findings

| source | as written | input that shows it | evidently intended | confidence | as-written member | corrected member |
|---|---|---|---|---|---|---|
| lib/rng.ts:13 | `float()` divides the state by 0xffffffff, so the state 0xffffffff gives exactly 1; `rollFaces` then indexes `faces[faces.length]` (undefined) and `intBetween(min, max)` returns `max + 1` | a 16-character hex seed beginning "7ceeca24", such as "7ceeca2400000000": its first 8 characters fold to 0x5e6cfce7, whose xorshift32 successor is 0xffffffff | divide by 2^32 so that `float()` lies in [0, 1), every roll is a face and `intBetween` stays within [min, max] | not executed | Rng.SeedWithTopState | Rng.RollIntendedIsFace, Rng.IntBetweenIntended |
