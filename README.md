# Life Ranked System — a verified model of the rank engine

Life Ranked System turns practice time into a competitive ladder. Each skill
the player practises climbs ten tiers, Iron to Radiant, the way a ranked game
does. Iron through Diamond have three divisions, the three Immortal tiers and
Radiant have one. A timed block of practice ends as a win, a loss or an
abandon. The outcome moves the skill's League Points (LP) by a flat +20, −20
or −30, plus a streak bonus or "tilt" penalty. Reaching 100 LP promotes the
skill one division; dropping below 0 demotes it. After a promotion, the
skill's next loss or abandon is absorbed. Every 30 days a new season starts:
each skill's LP decays by 20% and its streak is cleared.

The project models three parts of the system:

- **the rank engine**: the tier table, the streak modifier, the LP change of one block with its promotion/demotion state machine, the skill update, skill creation and the display helpers;
- **the season lifecycle**: the 30-day check, the season reset and the initial player state;
- **the game reducer**: every action the UI dispatches, as a pure transition over the player state.

Modules, one concern each:

- `Wrappers` (`wrappers.dfy`): `Option`.
- `Text` (`text.dfy`): decimal rendering of numbers, as template strings produce it, with a parser proving the rendering loses nothing.
- `Ranks` (`ranks.dfy`): the tier table, ladder positions and their order, one-step promotion and demotion, and the Radiant levels.
- `Types` (`types.dfy`): the records.
- `RankSystem` (`rank_system.dfy`): the engine.
- `Storage` (`storage.dfy`): the season lifecycle.
- `GameContext` (`game_context.dfy`): the reducer.

Four operations change things in place in the source. Three of them are a `method` each, following the source line by line:

- `calculateLpChange` reassigns local variables through a switch and two sequential `if` blocks.
- `applyLpChange` builds the skill and then overwrites its peak fields.
- `getRadiantLevel` is a descending loop.

The first two are proved equal to declarative specification functions: `LpChange` for the event, and `ScoredSkill` for the skill after that event (`ApplyOutcome` pairs the two). The engine's properties are lemmas about those functions. The promotion and demotion checks of `calculateLpChange` (lines 126-180) are a method of their own, `SettleLp`, proved against the function `Settle`. `getRadiantLevel` is proved directly against its postcondition.

The fourth is ADD_SKILL (GameContext.tsx:52-71). It sets the new skill's `rank`, `peakRank` and `lp` in place and pushes the placement entry onto its `history`. The model writes this as a record update in `GameContext.NewSkill`, and that captures it exactly: the skill object was created on the line before, and nothing else refers to it yet, so no other value can observe the mutation. Everything else in the source is an expression over immutable records, and is modelled as functions.

Calls to the clock and the random number generator are parameters:

- `Date.now()` and `new Date()` become `now`;
- the random id suffix becomes `token`;
- the reducer receives both through an `Env` record.

Timestamps are integer milliseconds; the source stores ISO strings.

Three facts about the code are worth knowing when reading the model:

- **No duration curve.** The engine has no duration curve. It scores with the fixed constants 20 / −20 / −30, and the block duration only feeds `totalMinutes`.
- **History records the unsuppressed change.** A block's history entry records `amount + bonusAmount`. That value ignores promotion protection, so a protected loss is logged as a loss of 20 LP or more while the skill's LP does not move. `GameContext.RecordedChangeIgnoresProtection` states this behaviour.
- **A mis-encoded label.** The Elite Radiant level's name is stored in the source as a twice-encoded "É", which reads as "Ã‰". The model keeps the characters the program holds.

## Model

| member | source | states |
|---|---|---|
| Ranks.TableIsOrdered | src/lib/rankSystem.ts:8-19 | row i of the tier table is the tier with index i, so the table is ordered from Iron to Radiant |
| Ranks.FindRankIndex | src/lib/rankSystem.ts:42 | `findIndex`: the first row holding the tier at or after the start, or −1 when no such row exists |
| Ranks.GetRankIndex | src/lib/rankSystem.ts:41-43 | the index is in range, its row holds the tier, and it equals the tier's position on the ladder |
| Ranks.GetRankConfig | src/lib/rankSystem.ts:36-38 | the row for the tier: 3 divisions below Immortal 1 and 1 from there on; 200 LP per division at Radiant and 100 elsewhere |
| Ranks.NameEsDistinct | src/lib/rankSystem.ts:8-19 | no two tiers share a Spanish name |
| Ranks.BelowIsStrictTotalOrder | src/lib/rankSystem.ts:226-230 | the (tier index, division) order used for peaks is irreflexive, transitive and total |
| Ranks.PromotedIsSuccessor | src/lib/rankSystem.ts:134-155 | the promotion step fails exactly at Radiant; otherwise it gives a valid position that is the immediate successor of the old one |
| Ranks.DemotedIsPredecessor | src/lib/rankSystem.ts:158-180 | the demotion step fails exactly at Iron 1; otherwise it gives the immediate predecessor, landing in the top division of the lower tier |
| Ranks.PromoteDemoteRoundTrip | src/lib/rankSystem.ts:134-180 | demoting a promoted position, or promoting a demoted one, gives back the original position |
| Ranks.GetRadiantLevel | src/lib/rankSystem.ts:46-53 | the level is the highest threshold the Radiant LP reaches; below every threshold it is "low" |
| Ranks.GetRadiantLevelName | src/lib/rankSystem.ts:56-58 | the name is the threshold table's name for that level |
| RankSystem.StreakModifier | src/lib/rankSystem.ts:61-67 | bounded by ±10; positive iff the streak is ≥ 3, negative iff it is ≤ −3; magnitude 10 from length 5 on, 5 for length 3–4, else 0 |
| RankSystem.StreakModifierIsOdd | src/lib/rankSystem.ts:61-67 | win streaks and losing streaks of the same length get opposite modifiers |
| RankSystem.StreakModifierIsMonotone | src/lib/rankSystem.ts:61-67 | a higher streak never gets a lower modifier |
| RankSystem.NextStreak | src/lib/rankSystem.ts:101-114 | the new streak is never 0; it is positive iff the outcome is a win; its magnitude grows by one when the run continues and restarts at 1 otherwise |
| RankSystem.StreakCountsTrailingRun | src/lib/rankSystem.ts:101-114 | starting from 0, the streak is ± the length of the trailing run of like outcomes (+ for wins) |
| RankSystem.CalculateLpChange | src/lib/rankSystem.ts:94-193 | the method, step by step as the source, computes the event the specification `LpChange` defines |
| RankSystem.SettleLp | src/lib/rankSystem.ts:126-180 | the promotion and demotion checks, step by step as the source (the demotion check reading the old division and tier), compute the settlement `Settle` defines: one position up at 100 LP or more, saturating at 100 at Radiant; one position down below 0, flooring at 0 at Iron 1 |
| RankSystem.BaseChange | src/lib/rankSystem.ts:31-33 | a win gains exactly 20 LP, a loss costs exactly what a win gains (20), and an abandon costs 30, more than a loss; only a win gains |
| RankSystem.LpChangeReportsAmounts | src/lib/rankSystem.ts:31-33 | the event's amount is exactly 20 / −20 / −30; its bonus is the modifier of the new streak: ≥ 0 on a win, ≤ 0 otherwise |
| RankSystem.LpChangeNamesMove | src/lib/rankSystem.ts:190-191 | the event names a new tier and division exactly when it reports a promotion or a demotion |
| RankSystem.AppliedChangeBounds | src/lib/rankSystem.ts:116-124 | the applied change is +20..+30 on a win, −20..−30 on a loss and −30..−40 on an abandon, or 0 for a protected non-win |
| RankSystem.ProtectionAbsorbsNonWin | src/lib/rankSystem.ts:119-124 | a protected non-win leaves LP and position unchanged, reports the unsuppressed negative amounts, and uses up the protection |
| RankSystem.LpChangeStaysInRange | src/lib/rankSystem.ts:126-180 | from a valid position with 0 ≤ LP ≤ 100, the new position is valid and the new LP is in [0,100), or exactly 100 at Radiant |
| RankSystem.LpChangeIsSingleStep | src/lib/rankSystem.ts:134-180 | never both a promotion and a demotion; each moves exactly one position; otherwise the position is kept; at Iron 1 a negative total floors at 0 without a demotion |
| RankSystem.PromotionSteps | src/lib/rankSystem.ts:137-149 | a promotion inside a tier raises the division by one; from the top division it enters the next tier at division 1 |
| RankSystem.DemotionSteps | src/lib/rankSystem.ts:161-174 | a demotion from division > 1 lowers it by one; from division 1 it lands in the top division of the tier below |
| RankSystem.ApplyLpChange | src/lib/rankSystem.ts:196-237 | the method, step by step as the source (the streak computed a second time, the `\|\|` fallbacks, the peak overwrite), returns the event `LpChange` defines and the skill `ScoredSkill` defines for that event, with the streak computed once |
| RankSystem.ApplyOutcomeBookkeeping | src/lib/rankSystem.ts:209-223 | one more block; the outcome's counter goes up by exactly one and the other two stay as they were; minutes added; best and worst streak extended; protection set by a promotion and cleared by other non-wins; id, name and history untouched |
| RankSystem.PeakNeverDecreases | src/lib/rankSystem.ts:225-234 | the peak never goes down; after a promotion it is the higher of the old peak and the new position; without one it is unchanged |
| RankSystem.ApplyOutcomePreservesProgression | src/lib/rankSystem.ts:196-237 | a scored block keeps the skill's state consistent: valid position and peak, LP in range, position at or below the peak, counters summing to the block count, and the streak between worst and best |
| RankSystem.CreateSkill | src/lib/rankSystem.ts:240-264 | a new skill is consistent and sits at Iron 1 (also its peak), with 0 LP, no blocks, zero wins, losses and abandons, no minutes, current, best and worst streak all 0, no history and no protection |
| RankSystem.MinutesPastHour | src/lib/rankSystem.ts:72 | JavaScript's `%`: in [0,60) for non-negative minutes, in (−60,0] otherwise, and always congruent to the minutes |
| RankSystem.FormatHours | src/lib/rankSystem.ts:70-76 | the text is never empty; it ends in "h" exactly when the minutes are a non-zero whole number of hours, and in "m" otherwise |
| RankSystem.FormatHoursRoundTrip | src/lib/rankSystem.ts:70-76 | "Xm", "Xh" or "Xh Ym": reading the text back gives the original non-negative number of minutes |
| RankSystem.HoursAndMinutesRoundTrip | src/lib/rankSystem.ts:75 | "Xh Ym" with 0 < Y < 60 reads back as 60·X + Y minutes |
| RankSystem.GetRankDisplayName | src/lib/rankSystem.ts:79-91 | Radiant with a level shows the level's name; a single-division tier shows its Spanish name; otherwise the Spanish name, a space, and digits that read back as the division |
| RankSystem.RankDisplayNameIdentifiesPosition | src/lib/rankSystem.ts:79-91 | without a Radiant level, different valid positions get different display names |
| RankSystem.CalculateWinRate | src/lib/rankSystem.ts:267-271 | 0 with no blocks; otherwise 100·wins/total rounded half up, and at most 100 |
| Storage.CreateInitialState | src/lib/storage.ts:17-32 | season 1 starting now, no skills, the six default areas, the default settings, no active block, and no season due |
| Storage.ShouldStartNewSeason | src/lib/storage.ts:62-67 | a new season is due iff at least 30 × 86 400 000 ms have passed since the season started |
| Storage.DecayLp | src/lib/storage.ts:79 | the decayed LP is 80% of the LP rounded down; for non-negative LP it is between 0 and the old LP, and strictly lower when the LP was positive |
| Storage.GenerateIdDeterminesTime | src/lib/storage.ts:87-89 | with the same prefix and random suffix, ids drawn at different non-negative times differ |
| Storage.ResetSkill | src/lib/storage.ts:77-82 | a reset skill keeps every field except LP, streak and protection; its LP is ⌊0.8·lp⌋ (never more than before, never negative from a non-negative LP); streak and protection are cleared |
| Storage.ApplySeasonReset | src/lib/storage.ts:70-84 | the season goes up by one and restarts now; every skill, in the same order, has its LP decayed and its streak and protection cleared; nothing else changes |
| Storage.ResetSkillPreservesProgression | src/lib/storage.ts:77-82 | a reset skill stays consistent, keeps its position, and does not gain LP |
| Storage.SeasonResetIsNotDueAgain | src/lib/storage.ts:70-84 | right after a reset no new season is due |
| GameContext.FindSkill | src/context/GameContext.tsx:100 | `find`: none iff no skill has the id; otherwise the skill at a position with that id and no earlier skill with it, i.e. the first one |
| GameContext.FindSkillIndex | src/context/GameContext.tsx:100 | the position of the first skill with the id, or −1 iff there is none |
| GameContext.Without | src/context/GameContext.tsx:82 | `filter`: only skills without the id remain, and every skill without it is kept |
| GameContext.WithoutDistributes | src/context/GameContext.tsx:82 | filtering a concatenation concatenates the filtered parts, so the kept skills stay in order |
| GameContext.ReplaceById | src/context/GameContext.tsx:128-132 | `map`: each skill with the id is replaced; every other skill stays at its place |
| GameContext.RoundedMinutes | src/context/GameContext.tsx:103-105 | `Math.round(ms / 60000)`: the nearest whole minute, halves rounded up |
| GameContext.NewSkill | src/context/GameContext.tsx:42-71 | the skill ADD_SKILL builds: the given name, icon and colour, created now, division 1 (also the peak), no blocks, counters, minutes or streaks; placed above Iron it has that tier (also its peak), 50 LP and one placement entry (its own id, now to now, 0 minutes, a win worth 0 LP, from Iron 1 to the tier at division 1); otherwise it is at Iron with 0 LP and no history |
| GameContext.AddSkillStep | src/context/GameContext.tsx:42-76 | ADD_SKILL appends exactly one skill and changes nothing else; placed above Iron, the skill is at division 1 of that tier (also its peak) with 50 LP and one placement "win" worth 0 LP that is not a block; otherwise it is a plain new skill |
| GameContext.DeleteSkillStep | src/context/GameContext.tsx:79-83 | DELETE_SKILL removes the skills with the id, keeps the others in order, and changes nothing else |
| GameContext.StartBlockStep | src/context/GameContext.tsx:85-93 | START_BLOCK sets the active skill, the start time and a non-empty block id drawn under the "block" prefix from the clock and the random suffix (so ids from different moments differ, by `Storage.GenerateIdDeterminesTime`), and leaves everything else as it was |
| GameContext.BlockRecord | src/context/GameContext.tsx:111-124 | the record carries the active block's id and start, ends now, lasts the rounded elapsed minutes, logs amount + bonus of the event, starts at the skill's position and ends one position up on a promotion, one down on a demotion, and at the same position otherwise |
| GameContext.EndBlockStep | src/context/GameContext.tsx:95-137 | END_BLOCK with a missing active field or a missing skill is the identity; otherwise only the skills with the active id are replaced, by the scored skill with the block record prepended to the old history, and the active block is cleared |
| GameContext.CancelBlockStep | src/context/GameContext.tsx:139-145 | CANCEL_BLOCK clears the three active-block fields and changes nothing else |
| GameContext.MergeSettings | src/context/GameContext.tsx:147-151 | UPDATE_SETTINGS: each key present in the patch overrides, and each absent key is kept |
| GameContext.CheckSeasonStep | src/context/GameContext.tsx:153-157 | CHECK_SEASON is the season reset when a season is due and the identity otherwise; afterwards no season is due |
| GameContext.GameReducer | src/context/GameContext.tsx:24-162 | LOAD_STATE yields its payload; no other action touches the player id, creation time or areas; only CHECK_SEASON moves the season; only UPDATE_SETTINGS changes the settings, and nothing else; START_BLOCK and CANCEL_BLOCK leave the skills alone; after CHECK_SEASON no season is due |
| GameContext.ActiveSkill | src/context/GameContext.tsx:238-240 | the active skill is none without an active id, and otherwise the first skill with that id |
| GameContext.InitialStateSatisfiesInvariant | src/lib/storage.ts:17-32 | the initial player state satisfies the reducer's invariant |
| GameContext.NewSkillSatisfiesInvariant | src/context/GameContext.tsx:42-71 | a new skill, placed or not, satisfies the skill invariant |
| GameContext.ScoredSkillSatisfiesInvariant | src/context/GameContext.tsx:107-130 | scoring a block and prepending its record keeps the skill invariant, including the streak agreeing with the latest history entry |
| GameContext.AddSkillPreservesInvariant | src/context/GameContext.tsx:42-76 | ADD_SKILL keeps the state invariant |
| GameContext.DeleteSkillPreservesInvariant | src/context/GameContext.tsx:79-83 | DELETE_SKILL keeps the state invariant |
| GameContext.EndBlockPreservesInvariant | src/context/GameContext.tsx:95-137 | END_BLOCK keeps the state invariant |
| GameContext.CheckSeasonPreservesInvariant | src/context/GameContext.tsx:153-157 | CHECK_SEASON keeps the state invariant |
| GameContext.ReducerPreservesInvariant | src/context/GameContext.tsx:24-162 | every action keeps the state invariant (LOAD_STATE when its payload has it): consistent skills, every block in the history, streak matching the latest entry, and the active-block fields all set or all clear |
| GameContext.RunPreservesInvariant | src/context/GameContext.tsx:24-162 | any sequence of actions keeps the invariant |
| GameContext.DeleteUndoesAdd | src/context/GameContext.tsx:42-83 | deleting a skill just added under a fresh id gives back the previous state |
| GameContext.DeleteIsIdempotent | src/context/GameContext.tsx:79-83 | deleting twice is deleting once |
| GameContext.CancelUndoesStart | src/context/GameContext.tsx:85-93 | cancelling a block started when none was running gives back the state from before the start |
| GameContext.EndBlockNeedsLiveSkill | src/context/GameContext.tsx:100-101 | ending a block whose skill no longer exists changes nothing |
| GameContext.StartThenEndScoresSkill | src/context/GameContext.tsx:85-137 | START_BLOCK then END_BLOCK scores exactly that skill: one more block, and a new history head holding the block id, start, end and outcome |
| GameContext.RecordedChangeIgnoresProtection | src/context/GameContext.tsx:118 | a protected loss leaves the skill's LP as it was, yet its history entry records a change of −20 or less |
| GameContext.CheckSeasonIsIdempotent | src/context/GameContext.tsx:153-157 | checking the season twice at the same moment resets at most once |
| GameContext.MergeSettingsIsIdempotent | src/context/GameContext.tsx:150 | applying a patch twice is applying it once, and an empty patch changes nothing |
| Text.ParseNatToString | src/lib/rankSystem.ts:70-76 | the decimal rendering of a number reads back as that number |
| Text.ParseNatPrefixRendered | src/lib/rankSystem.ts:70-76 | a rendered number followed by a non-digit reads back as the number and the rest |

## Left out

- Audio feedback in the reducer (`audio.play…`) is left out. Sounds do not affect state.
- Local-storage load and save are left out, including the legacy `areas` migration, because they are browser I/O.
- The provider's backend fetch/sync effects and its start-up sequence (load, then check the season) are left out, because they are network I/O.
- The Express server and the Mongo schema are left out; they are outside the engine.
- `Date.now()`, `new Date()` and `Math.random()` are parameters (`now`, `token`, `Env`), so the model does not capture the random suffix's format or uniqueness across equal clock readings; it proves only that ids with the same suffix drawn at different times differ. ISO timestamp strings are integer milliseconds.
- Skill fields `description`, `area`, `radiantLevel`, `radiantLp`, `mmr`, `initialRank` and `placementMinutes` are not modelled: no core operation reads or writes them. Nothing updates the Radiant internal LP; only the `getRadiantLevel` lookup over it exists, and that is modelled.
- Player fields `googleId`, `email`, `name` and `picture` are not modelled; they are only used by the login server.
- Floating-point arithmetic is replaced by exact integer arithmetic, in three places:
  - `Math.floor(lp * 0.8)` is `(4·lp)/5`;
  - the day and minute divisions are exact for integer milliseconds;
  - `Math.round(wins / total * 100)` is exact round-half-up. A floating-point tie can round the other way, and that difference is not modelled.
- Numbers that JavaScript renders in exponent notation (1e21 and above) are rendered in plain decimal.
- `GameContext.MergeSettings`: a patch key that is present but explicitly `undefined` overwrites the setting in JavaScript; the model only has present-with-a-value and absent keys.
- `GameContext.AddSkillStep`: the initial rank is one of the ten tiers; an arbitrary string, which the TypeScript cast would accept, is not modelled.
- The duration-dependent LP curve (`calculateBaseLp`) is not defined in the engine's source and is not part of this model.
