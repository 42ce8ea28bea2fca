# Juryumarble game engine in Dafny

Juryumarble is a drinking board game for two to six players sharing one phone. The players
take turns rolling dice and moving around a 16-square board. The square a player stops on
decides what happens next: a card is drawn, the direction of play reverses, a trap is
sprung, or nothing happens.

Cards come in five types: penalties (a number of drinks), missions, rules, events and safe
cards. A penalty can hit the player, one chosen player, everyone, or everyone else. Its
amount is scaled by the player's penalty streak and converted into shots, sips or glasses.

A dynamic difficulty adjustment (DDA) watches play time and penalty streaks. From them it
suggests breaks or swaps penalty cards in the deck for rest cards.

Boards are generated from a base template and the activated card packs:
- each pack's map modifier multiplies the tile weights, merges the rules and averages the
  event and randomness levels;
- fixed and forced tiles are placed first;
- the free squares are filled by weighted random choice.

This project models those parts as Dafny modules, one per source file, and proves their
properties:
- the game state and the turn engine: dice, move, tile, draw, card completion, the next
  active player, end of turn and the phase validator;
- drawing and discarding;
- the card-effect resolver and penalty scaling;
- the DDA formulas and actions;
- map generation;
- game initialisation, the end conditions and the statistics;
- the card repository's row conversions, the custom-card validators, the single-slot game
  store and the card-pack details;
- the game screen's view model.

Use cases that are pure become functions on datatypes. Use cases that loop or fill mutable
lists become methods with loop invariants, each proved equal to a recursive specification
function. The view model and the game store update fields in place, so each is a `class`.
Those classes' methods are proved against functions of the old state.

Shared helpers live in three files:
- `wrappers.dfy`: `Option` and `Result`.
- `kotlin.dfy`: Kotlin's truncating `/` and `%`, `toInt()` on floats, `ceil`, `coerceIn`,
  decimal rendering of integers, `isBlank`/`trim`, `contains` and `String.hashCode`.
- `rand.dfy`: a seeded generator.

## Model

Paths are relative to the repository root.

| member | source | states |
|---|---|---|
| GameStateModel.GameState.CurrentPlayer | domain/src/main/java/com/manus/juryumarble/domain/model/GameState.kt:54-55 | the `currentPlayer` getter returns one of the players (defined only when the index is in range, as `players[i]` throws otherwise) |
| GameStateModel.GameState.BoardSize | domain/src/main/java/com/manus/juryumarble/domain/model/GameState.kt:57-58 | the `boardSize` getter is the number of squares |
| GameStateModel.NewGameState | domain/src/main/java/com/manus/juryumarble/domain/model/GameState.kt:36-53 | the constructor defaults: empty discard pile and rules, index 0, turn 1, START, READY, CLOCKWISE, no dice, no card, no doubles, start time = clock |
| GameStateModel.EnumSizes | domain/src/main/java/com/manus/juryumarble/domain/model/GameState.kt:6-34 | there are exactly six turn phases, four statuses and two directions |
| GameStateModel.GameState.DirectionSign | domain/src/main/java/com/manus/juryumarble/domain/usecase/ProcessTurnUseCase.kt:38 | the move direction is +1 exactly for CLOCKWISE and -1 otherwise |
| GameStateModel.Flip | domain/src/main/java/com/manus/juryumarble/domain/usecase/ProcessTurnUseCase.kt:204-215 | reversing the direction always changes it |
| PlayerModel.NewPlayer | domain/src/main/java/com/manus/juryumarble/domain/model/Player.kt:15-24 | a new player starts on square 0 with zero counters, NORMAL tolerance, active and without a shield |
| CardModel.NewCard | domain/src/main/java/com/manus/juryumarble/domain/model/Card.kt:36-47 | a card built without the optional fields has scale 1.0, no image and is not custom |
| SessionModel.NewSessionConfig | domain/src/main/java/com/manus/juryumarble/domain/model/SessionConfig.kt:12-50 | the session defaults: NORMAL filter, soju in shots, the "default" pack, two dice, no limits, DDA on with the default rules |
| DiceModel.FromSingleDice | domain/src/main/java/com/manus/juryumarble/domain/model/DiceResult.kt:13-20 | one die: no second die, the total is the die, never a double |
| DiceModel.FromTwoDice | domain/src/main/java/com/manus/juryumarble/domain/model/DiceResult.kt:22-29 | two dice: total is the sum, a double exactly when the dice are equal |
| ProcessTurn.RollDice | domain/src/main/java/com/manus/juryumarble/domain/usecase/ProcessTurnUseCase.kt:16-31 | dice lie in [1,6]; `dice2` is absent exactly with one die; the result equals `fromTwoDice`/`fromSingleDice` of the dice; a double exactly when two equal dice; totals in [2,12] or [1,6] |
| ProcessTurn.RollDiceDeterministic | domain/src/main/java/com/manus/juryumarble/domain/usecase/ProcessTurnUseCase.kt:17 | the roll depends on `randomSeed + currentTurn` only: states agreeing on it roll the same |
| ProcessTurn.MovePlayer | domain/src/main/java/com/manus/juryumarble/domain/usecase/ProcessTurnUseCase.kt:36-58 | the current player moves to (position + total * dir) mod boardSize, which lies in [0, boardSize); no other player changes; phase TILE_EVENT, last dice = total, doubles counted up or reset |
| ProcessTurn.HandleEventTile | domain/src/main/java/com/manus/juryumarble/domain/usecase/ProcessTurnUseCase.kt:204-215 | the direction reverses and the phase becomes END; nothing else changes |
| ProcessTurn.HandleTrapTile | domain/src/main/java/com/manus/juryumarble/domain/usecase/ProcessTurnUseCase.kt:217-220 | only the phase changes, to ACTION_RESOLUTION |
| ProcessTurn.ProcessTileEvent | domain/src/main/java/com/manus/juryumarble/domain/usecase/ProcessTurnUseCase.kt:63-73 | START/SAFE end the turn, CARD/TRAP go to ACTION_RESOLUTION, EVENT reverses and ends; the new phase is always one the validator allows after TILE_EVENT |
| ProcessTurn.ReshuffleDeck | domain/src/main/java/com/manus/juryumarble/domain/usecase/ProcessTurnUseCase.kt:106-114 | the new deck is a permutation of the discard pile, shuffled with the turn seed; the discard pile empties; nothing else changes |
| ProcessTurn.DrawCard | domain/src/main/java/com/manus/juryumarble/domain/usecase/ProcessTurnUseCase.kt:78-101 | with both piles empty the game ends (ENDED, END); otherwise the deck head, after a reshuffle of an empty deck, becomes the current card, phase ACTION_RESOLUTION, and deck plus discard lose exactly that card as a multiset |
| ProcessTurn.TakeTop | domain/src/main/java/com/manus/juryumarble/domain/usecase/ProcessTurnUseCase.kt:92-100 | the head of a non-empty deck becomes the current card and leaves the deck's multiset |
| ProcessTurn.CompleteCard | domain/src/main/java/com/manus/juryumarble/domain/usecase/ProcessTurnUseCase.kt:119-144 | without a current card nothing changes; otherwise the card is discarded, the player's counters move (both +1 when completed, streak to 0 when skipped), phase END, and no card is created or lost |
| ProcessTurn.StepIndex | domain/src/main/java/com/manus/juryumarble/domain/usecase/ProcessTurnUseCase.kt:176-180 | one seat onward, `(i + dir) % n` corrected when negative, is a seat in [0, n) |
| ProcessTurn.NextActiveIndex | domain/src/main/java/com/manus/juryumarble/domain/usecase/ProcessTurnUseCase.kt:174-188 | the index the skipping walk returns is a seat |
| ProcessTurn.GetNextActivePlayerIndex | domain/src/main/java/com/manus/juryumarble/domain/usecase/ProcessTurnUseCase.kt:174-188 | the `while` loop returns exactly `NextActiveIndex` |
| ProcessTurn.WalkFindsFirstActive | domain/src/main/java/com/manus/juryumarble/domain/usecase/ProcessTurnUseCase.kt:178-185 | the bounded walk stops at the first active seat when one exists |
| ProcessTurn.WalkNoneActive | domain/src/main/java/com/manus/juryumarble/domain/usecase/ProcessTurnUseCase.kt:178-185 | with nobody active the walk does a full round |
| ProcessTurn.NextActiveIndexIsFirstActive | domain/src/main/java/com/manus/juryumarble/domain/usecase/ProcessTurnUseCase.kt:174-188 | if anyone is active, the next index is the first active seat after the current one in the play direction |
| ProcessTurn.NextActiveIndexWhenNoneActive | domain/src/main/java/com/manus/juryumarble/domain/usecase/ProcessTurnUseCase.kt:174-188 | if nobody is active, the loop gives up after a full round and returns the next seat |
| ProcessTurn.EndTurn | domain/src/main/java/com/manus/juryumarble/domain/usecase/ProcessTurnUseCase.kt:149-169 | after one or two doubles the same player goes again with the turn counter kept; otherwise the next active player, turn + 1, doubles reset; START, no dice, no card; END to START is a legal transition |
| ProcessTurn.ValidateStateTransition | domain/src/main/java/com/manus/juryumarble/domain/usecase/ProcessTurnUseCase.kt:193-202 | exactly the listed phase pairs are accepted |
| DrawCard.DrawFromDeck | domain/src/main/java/com/manus/juryumarble/domain/usecase/DrawCardUseCase.kt:38-45 | the deck head is returned and removed; nothing else moves |
| DrawCard.Reshuffled | domain/src/main/java/com/manus/juryumarble/domain/usecase/DrawCardUseCase.kt:23-32 | the discard pile becomes a permutation of itself as the deck; the discard pile empties |
| DrawCard.Draw | domain/src/main/java/com/manus/juryumarble/domain/usecase/DrawCardUseCase.kt:14-36 | both piles empty: no card, state unchanged; deck non-empty: its head, rest of the deck; deck empty: head of the reshuffled discard pile; a card exactly when some pile has one; the two piles lose exactly that card; `currentCard` is not set |
| DrawCard.DiscardCard | domain/src/main/java/com/manus/juryumarble/domain/usecase/DrawCardUseCase.kt:50-54 | the card is appended at the end of the discard pile; nothing else changes |
| DrawCard.DrawThenDiscard | domain/src/main/java/com/manus/juryumarble/domain/usecase/DrawCardUseCase.kt:14-54 | drawing a card and discarding it keeps the multiset of deck plus discard pile |
| DrawCard.DrawDeterministic | domain/src/main/java/com/manus/juryumarble/domain/usecase/DrawCardUseCase.kt:24-25 | the reshuffle order depends only on the piles and `randomSeed + currentTurn` |
| CardEffect.ReplaceById | domain/src/main/java/com/manus/juryumarble/domain/usecase/ExecuteCardEffectUseCase.kt:50-52 | every player with the matching id is replaced, every other kept, same length |
| CardEffect.IndicesExcept | domain/src/main/java/com/manus/juryumarble/domain/usecase/ExecuteCardEffectUseCase.kt:64 | the offered indices are exactly the seats other than the skipped one, strictly increasing |
| CardEffect.IndicesExceptLength | domain/src/main/java/com/manus/juryumarble/domain/usecase/ExecuteCardEffectUseCase.kt:64 | one fewer index than seats when the skipped index is a seat |
| CardEffect.PenaltyUnits | domain/src/main/java/com/manus/juryumarble/domain/usecase/ExecuteCardEffectUseCase.kt:42-47 | the added count is the truncated scaled penalty: non-negative and never above the multiplier |
| CardEffect.PenaltySelf | domain/src/main/java/com/manus/juryumarble/domain/usecase/ExecuteCardEffectUseCase.kt:45-59 | every player with the current player's id gets the units added and the streak extended; others unchanged; seats kept; no selection |
| CardEffect.PenaltyTargetOne | domain/src/main/java/com/manus/juryumarble/domain/usecase/ExecuteCardEffectUseCase.kt:61-88 | without a target: nothing changes and all other seats are offered; with a target: that seat alone gets the units and a longer streak; selection requested exactly without a target |
| CardEffect.PenaltyAll | domain/src/main/java/com/manus/juryumarble/domain/usecase/ExecuteCardEffectUseCase.kt:90-103 | everybody gets the units; the current player's streak grows, every other streak resets to 0 |
| CardEffect.PenaltyAllExceptSelf | domain/src/main/java/com/manus/juryumarble/domain/usecase/ExecuteCardEffectUseCase.kt:105-121 | everybody but the current player gets the units; no streak changes |
| CardEffect.ExecutePenaltyCard | domain/src/main/java/com/manus/juryumarble/domain/usecase/ExecuteCardEffectUseCase.kt:36-123 | dispatch on the target type; only players change; selection requested exactly for TARGET_ONE without a target; ids and seats kept |
| CardEffect.ExecuteMissionCard | domain/src/main/java/com/manus/juryumarble/domain/usecase/ExecuteCardEffectUseCase.kt:125-133 | the state is returned unchanged with the mission message |
| CardEffect.ExecuteRuleCard | domain/src/main/java/com/manus/juryumarble/domain/usecase/ExecuteCardEffectUseCase.kt:135-142 | the state is returned unchanged; `activeRules` is not touched |
| CardEffect.ExecuteEventCard | domain/src/main/java/com/manus/juryumarble/domain/usecase/ExecuteCardEffectUseCase.kt:144-163 | the direction flips exactly when the title contains "방향"; nothing else changes |
| CardEffect.ExecuteSafeCard | domain/src/main/java/com/manus/juryumarble/domain/usecase/ExecuteCardEffectUseCase.kt:165-179 | the current player's streak (by id) goes to 0; every other field of every player is kept |
| CardEffect.Execute | domain/src/main/java/com/manus/juryumarble/domain/usecase/ExecuteCardEffectUseCase.kt:22-34 | dispatch on the card type; only events touch the direction and only the others the players; ids kept, seats kept with distinct ids |
| CardEffect.SelectionOffersEveryoneElse | domain/src/main/java/com/manus/juryumarble/domain/usecase/ExecuteCardEffectUseCase.kt:62-71 | an untargeted TARGET_ONE penalty changes nothing and offers every other seat once, in order |
| CardEffect.OnlyCurrentPlayerChanges | domain/src/main/java/com/manus/juryumarble/domain/usecase/ExecuteCardEffectUseCase.kt:45-59 | with distinct ids a SELF penalty or a safe card changes the current seat only |
| CardEffect.MissionAndRuleChangeNothing | domain/src/main/java/com/manus/juryumarble/domain/usecase/ExecuteCardEffectUseCase.kt:125-142 | mission and rule cards leave the game as it was and ask for no selection |
| ScalePenalty.Scale | domain/src/main/java/com/manus/juryumarble/domain/usecase/ScalePenaltyUseCase.kt:16-29 | the multiplier is halved from the third penalty in a row on and is never below 0.5 |
| ScalePenalty.ScaleMonotone | domain/src/main/java/com/manus/juryumarble/domain/usecase/ScalePenaltyUseCase.kt:16-29 | a larger card scale never gives less, a streak never gives more |
| ScalePenalty.TruncatedScaleCanBeZero | domain/src/main/java/com/manus/juryumarble/domain/usecase/ScalePenaltyUseCase.kt:24-28 | a standard card on a streak of three scales to 0.5, which `toInt()` makes 0 |
| ScalePenalty.BaseDrinks | domain/src/main/java/com/manus/juryumarble/domain/usecase/ScalePenaltyUseCase.kt:78 | the rounded-up amount is at least 1, not below the scale, and less than one above it |
| ScalePenalty.ConvertToUnit | domain/src/main/java/com/manus/juryumarble/domain/usecase/ScalePenaltyUseCase.kt:73-92 | sips are three per shot, glasses one per shot, every other unit becomes shots; never below the scale |
| ScalePenalty.GenerateDisplayText | domain/src/main/java/com/manus/juryumarble/domain/usecase/ScalePenaltyUseCase.kt:94-99 | "amount unit", followed by " 마시기" exactly for penalties and missions |
| ScalePenalty.ScaleWithDetails | domain/src/main/java/com/manus/juryumarble/domain/usecase/ScalePenaltyUseCase.kt:34-71 | non-alcoholic sessions always get one glass of water; otherwise the streak-adjusted scale converted into the session unit; the amount is at least 1 |
| ScalePenalty.DetailsRoundUp | domain/src/main/java/com/manus/juryumarble/domain/usecase/ScalePenaltyUseCase.kt:34-71 | the detailed amount never understates the streak-adjusted scale |
| ScalePenalty.StreakExample | domain/src/main/java/com/manus/juryumarble/domain/usecase/ScalePenaltyUseCase.kt:34-71 | half a shot rounds up to "1 샷 마시기" |
| GameStateModel.GameState.ElapsedMinutes | domain/src/main/java/com/manus/juryumarble/domain/usecase/ApplyDDAUseCase.kt:28 | whole minutes since the start, truncated toward zero: m minutes cover [60000 m, 60000 (m + 1)) ms; the end check's time limit (CheckGameEndConditionUseCase.kt line 32) uses the same count |
| ApplyDDA.TimeFatigue | domain/src/main/java/com/manus/juryumarble/domain/usecase/ApplyDDAUseCase.kt:85 | the share of the fatigue limit played, clamped to [0, 0.5] |
| ApplyDDA.PenaltyFatigue | domain/src/main/java/com/manus/juryumarble/domain/usecase/ApplyDDAUseCase.kt:88 | 0.4 times the share of the streak limit, clamped to [0, 0.4]; 0.4 once the limit is reached |
| ApplyDDA.RestReduction | domain/src/main/java/com/manus/juryumarble/domain/usecase/ApplyDDAUseCase.kt:91 | 0.1 per rest card, clamped to [0, 0.3] |
| ApplyDDA.CalculateFatigue | domain/src/main/java/com/manus/juryumarble/domain/usecase/ApplyDDAUseCase.kt:78-94 | the clamped sum of the three parts, in [0, 1] and in fact at most 0.9 |
| ApplyDDA.FatigueMonotone | domain/src/main/java/com/manus/juryumarble/domain/usecase/ApplyDDAUseCase.kt:78-94 | more time or a longer streak never lowers fatigue; more rest never raises it |
| ApplyDDA.ExtremeFatigueNeedsTimeAndStreak | domain/src/main/java/com/manus/juryumarble/domain/usecase/ApplyDDAUseCase.kt:56-59 | fatigue of 0.8 needs at least 40% of the time limit and 75% of the streak limit |
| ApplyDDA.CalculateDifficultyLevel | domain/src/main/java/com/manus/juryumarble/domain/usecase/ApplyDDAUseCase.kt:99-107 | 1 - 0.3 * fatigue, minus 0.2 for a streak over two, in [0.5, 1.5] and at most 1 for non-negative fatigue |
| ApplyDDA.DifficultyAntitone | domain/src/main/java/com/manus/juryumarble/domain/usecase/ApplyDDAUseCase.kt:99-107 | more fatigue never raises the difficulty |
| ApplyDDA.UpdateDifficultyState | domain/src/main/java/com/manus/juryumarble/domain/usecase/ApplyDDAUseCase.kt:22-73 | the actions in order: reduce+rest exactly when the streak limit is reached, a break when the time limit with auto-break or fatigue 0.8; never a reset; the new state's fields |
| ApplyDDA.RecordRestCardUsed | domain/src/main/java/com/manus/juryumarble/domain/usecase/ApplyDDAUseCase.kt:112-118 | one more rest card, streak 0, fatigue down 0.2 but not below 0, other fields kept |
| DdaDeck.Take | app/src/main/java/com/manus/juryumarble/presentation/viewmodel/GameViewModel.kt:322 | `take(n)` is the prefix of length min(n, size), empty for n at most 0 |
| DdaDeck.Repeat | app/src/main/java/com/manus/juryumarble/presentation/viewmodel/GameViewModel.kt:336 | n copies of the card |
| DdaDeck.AddCopies | app/src/main/java/com/manus/juryumarble/presentation/viewmodel/GameViewModel.kt:336 | the `repeat` loop appends exactly n copies |
| DdaDeck.ReplacePenaltyCards | app/src/main/java/com/manus/juryumarble/presentation/viewmodel/GameViewModel.kt:316-336 | the edit happens exactly when the truncated count is positive and there are penalties; then the deck without the first n penalties' copies plus n safe cards |
| DdaDeck.ReplaceAndShuffle | app/src/main/java/com/manus/juryumarble/presentation/viewmodel/GameViewModel.kt:316-340 | the edited deck shuffled with `randomSeed + currentTurn`, or the deck itself when no edit is made |
| DdaDeck.WithoutAmongSplit | app/src/main/java/com/manus/juryumarble/presentation/viewmodel/GameViewModel.kt:323 | `removeAll` keeps or removes every card |
| DdaDeck.AmongPenalties | app/src/main/java/com/manus/juryumarble/presentation/viewmodel/GameViewModel.kt:317-323 | naming only penalty cards removes only penalty cards |
| DdaDeck.PenaltiesWithout | app/src/main/java/com/manus/juryumarble/presentation/viewmodel/GameViewModel.kt:317-323 | filtering penalties and `removeAll` commute |
| DdaDeck.PenaltiesAppend | app/src/main/java/com/manus/juryumarble/presentation/viewmodel/GameViewModel.kt:317 | the penalty filter distributes over concatenation |
| DdaDeck.NoPenaltiesRepeated | app/src/main/java/com/manus/juryumarble/presentation/viewmodel/GameViewModel.kt:326-336 | the added safe cards bring no penalty |
| DdaDeck.PenaltyCardsArePenalties | app/src/main/java/com/manus/juryumarble/presentation/viewmodel/GameViewModel.kt:317 | the filter keeps penalty cards only |
| DdaDeck.AtMostAll | app/src/main/java/com/manus/juryumarble/presentation/viewmodel/GameViewModel.kt:318 | with a rate of at most 1 the count is at most the number of penalties |
| DdaDeck.RemovedCount | app/src/main/java/com/manus/juryumarble/presentation/viewmodel/GameViewModel.kt:322-323 | with distinct penalties `removeAll(take(n))` removes min(n, #penalties) cards, all penalties |
| DdaDeck.ReplacementSwapsPenalties | app/src/main/java/com/manus/juryumarble/presentation/viewmodel/GameViewModel.kt:320-336 | n safe cards in, min(n, #penalties) penalties out, no new penalty |
| DdaDeck.ReplacementKeepsSize | app/src/main/java/com/manus/juryumarble/presentation/viewmodel/GameViewModel.kt:320-336 | replacing n of the distinct penalties keeps the deck size and lowers the penalty count by n |
| DdaDeck.ReductionKeepsDeckSize | app/src/main/java/com/manus/juryumarble/presentation/viewmodel/GameViewModel.kt:312-342 | with distinct penalties and a rate of at most 1 the deck size is kept and the penalty count drops by n |
| DdaDeck.DuplicatePenaltiesAllGo | app/src/main/java/com/manus/juryumarble/presentation/viewmodel/GameViewModel.kt:322-323 | `removeAll` takes every copy: two equal penalties halved leave one safe card only |
| GenerateMap.MergeRules | domain/src/main/java/com/manus/juryumarble/domain/usecase/GenerateMapUseCase.kt:217-226 | switches AND-ed, the smaller streak limit, the multipliers multiplied, the later win condition |
| GenerateMap.MergeEvents | domain/src/main/java/com/manus/juryumarble/domain/usecase/GenerateMapUseCase.kt:228-235 | custom events concatenated in order |
| GenerateMap.MergeEventsAverages | domain/src/main/java/com/manus/juryumarble/domain/usecase/GenerateMapUseCase.kt:230-232 | each merged probability lies midway between the two merged |
| GenerateMap.ApplyPack | domain/src/main/java/com/manus/juryumarble/domain/usecase/GenerateMapUseCase.kt:72-93 | a pack without a map modifier changes nothing |
| GenerateMap.CombineModifiers | domain/src/main/java/com/manus/juryumarble/domain/usecase/GenerateMapUseCase.kt:62-97 | the `forEach` fold equals the pack-by-pack combination |
| GenerateMap.NoModifiersNoEffect | domain/src/main/java/com/manus/juryumarble/domain/usecase/GenerateMapUseCase.kt:66-96 | without modifiers the template weights and all defaults come out |
| GenerateMap.ApplyPackWeight | domain/src/main/java/com/manus/juryumarble/domain/usecase/GenerateMapUseCase.kt:74-78 | one pack multiplies each weight by its own |
| GenerateMap.CombinedWeightIsProduct | domain/src/main/java/com/manus/juryumarble/domain/usecase/GenerateMapUseCase.kt:74-78 | each combined weight is the template weight times every modifier's, in order |
| GenerateMap.ZeroWeightAbsorbs | domain/src/main/java/com/manus/juryumarble/domain/usecase/GenerateMapUseCase.kt:74-78 | a zero weight in any modifier zeroes the combined weight |
| GenerateMap.CombinedForcedTiles | domain/src/main/java/com/manus/juryumarble/domain/usecase/GenerateMapUseCase.kt:79 | forced tiles are the template's followed by every modifier's, in pack order |
| GenerateMap.CombinedRules | domain/src/main/java/com/manus/juryumarble/domain/usecase/GenerateMapUseCase.kt:83 | streaks allowed only if every modifier allows; limit at most 3 and every modifier's; the last modifier's win condition |
| GenerateMap.RandomnessStaysPositive | domain/src/main/java/com/manus/juryumarble/domain/usecase/GenerateMapUseCase.kt:89-92 | from 1.0, averaging with non-negative levels keeps the randomness level positive |
| GenerateMap.EventProbabilityStaysInRange | domain/src/main/java/com/manus/juryumarble/domain/usecase/GenerateMapUseCase.kt:86 | averaging keeps the special-event probability in [0, 1] |
| GenerateMap.PackIds | domain/src/main/java/com/manus/juryumarble/domain/usecase/GenerateMapUseCase.kt:52 | the pack ids in pack order |
| GenerateMap.CalculateFinalSeed | domain/src/main/java/com/manus/juryumarble/domain/usecase/GenerateMapUseCase.kt:102-120 | seed + bias + the 32-bit hash of the joined ids, plus the truncated perturbation exactly when the level is positive |
| GenerateMap.PerturbationAlwaysApplies | domain/src/main/java/com/manus/juryumarble/domain/usecase/GenerateMapUseCase.kt:114-117 | with combined modifiers of non-negative levels the clock term is always added |
| GenerateMap.TileTitle | domain/src/main/java/com/manus/juryumarble/domain/usecase/GenerateMapUseCase.kt:237-245 | `getTileTitle`: the title reads back as its own tile type |
| GenerateMap.TileDescription | domain/src/main/java/com/manus/juryumarble/domain/usecase/GenerateMapUseCase.kt:247-255 | `getTileDescription`: the description reads back as its own tile type |
| GenerateMap.TitleIdentifiesType | domain/src/main/java/com/manus/juryumarble/domain/usecase/GenerateMapUseCase.kt:237-255 | two tile types with the same title or the same description are the same type |
| GenerateMap.SelectTileType | domain/src/main/java/com/manus/juryumarble/domain/usecase/GenerateMapUseCase.kt:176-187 | one float scaled by the total weight against the cumulative card/event/safe weights, TRAP beyond; never START; one generator step |
| GenerateMap.ZeroTotalGivesTrap | domain/src/main/java/com/manus/juryumarble/domain/usecase/GenerateMapUseCase.kt:177-185 | with all weights zero every slot is a trap |
| GenerateMap.OnlyCardWeightGivesCards | domain/src/main/java/com/manus/juryumarble/domain/usecase/GenerateMapUseCase.kt:177-182 | with only the card weight positive every slot is a card tile |
| GenerateMap.PlaceForced | domain/src/main/java/com/manus/juryumarble/domain/usecase/GenerateMapUseCase.kt:136-152 | one tile per forced template |
| GenerateMap.PlaceForcedKeepsTemplates | domain/src/main/java/com/manus/juryumarble/domain/usecase/GenerateMapUseCase.kt:136-152 | a forced tile keeps type, title, description and any given position; -1 lands inside the board |
| GenerateMap.FreeFromSpec | domain/src/main/java/com/manus/juryumarble/domain/usecase/GenerateMapUseCase.kt:155-156 | the free positions are exactly the unoccupied ones of [0, boardSize), increasing |
| GenerateMap.FillSlots | domain/src/main/java/com/manus/juryumarble/domain/usecase/GenerateMapUseCase.kt:158-168 | one filler per free position |
| GenerateMap.FillSlotsShape | domain/src/main/java/com/manus/juryumarble/domain/usecase/GenerateMapUseCase.kt:158-168 | fillers are never START and carry their type's title and description |
| GenerateMap.InsertionPoint | domain/src/main/java/com/manus/juryumarble/domain/usecase/GenerateMapUseCase.kt:170 | the split point of a sorted board around a position |
| GenerateMap.InsertByPosition | domain/src/main/java/com/manus/juryumarble/domain/usecase/GenerateMapUseCase.kt:170 | insertion keeps the board sorted and adds exactly the tile |
| GenerateMap.SortByPosition | domain/src/main/java/com/manus/juryumarble/domain/usecase/GenerateMapUseCase.kt:170 | `sortedBy { position }` is sorted and a permutation |
| GenerateMap.PlaceForcedTiles | domain/src/main/java/com/manus/juryumarble/domain/usecase/GenerateMapUseCase.kt:133-152 | the loop appends exactly the placed forced tiles to the fixed ones |
| GenerateMap.FillFreePositions | domain/src/main/java/com/manus/juryumarble/domain/usecase/GenerateMapUseCase.kt:155-168 | the loop appends exactly one filler per free position |
| GenerateMap.GenerateTiles | domain/src/main/java/com/manus/juryumarble/domain/usecase/GenerateMapUseCase.kt:125-171 | the board is fixed, forced and filler tiles, sorted by position |
| GenerateMap.GeneratedTilesArePlacedAndFillers | domain/src/main/java/com/manus/juryumarble/domain/usecase/GenerateMapUseCase.kt:125-171 | the board is a sorted permutation of the placed tiles and the fillers |
| GenerateMap.FillersCoverFreePositions | domain/src/main/java/com/manus/juryumarble/domain/usecase/GenerateMapUseCase.kt:154-168 | every free position of [0, boardSize) gets exactly one filler, in order, and only those |
| GenerateMap.BoardCanExceedSize | domain/src/main/java/com/manus/juryumarble/domain/usecase/GenerateMapUseCase.kt:137-142 | a forced tile at -1 can share a square with a fixed tile, so the board outgrows `boardSize` |
| GenerateMap.RuleLines | domain/src/main/java/com/manus/juryumarble/domain/usecase/GenerateMapUseCase.kt:195-206 | at most three rule lines |
| GenerateMap.RuleLinesPresent | domain/src/main/java/com/manus/juryumarble/domain/usecase/GenerateMapUseCase.kt:195-206 | each line is present exactly when its rule departs from the default |
| GenerateMap.PackLinesFollowPacks | domain/src/main/java/com/manus/juryumarble/domain/usecase/GenerateMapUseCase.kt:208-212 | packs without a modifier add no line; with all modifiers present line i names pack i |
| GenerateMap.PackLinesLength | domain/src/main/java/com/manus/juryumarble/domain/usecase/GenerateMapUseCase.kt:208-212 | at most one line per pack |
| GenerateMap.AppendPackLines | domain/src/main/java/com/manus/juryumarble/domain/usecase/GenerateMapUseCase.kt:208-212 | the loop appends exactly the pack lines |
| GenerateMap.GenerateSpecialRules | domain/src/main/java/com/manus/juryumarble/domain/usecase/GenerateMapUseCase.kt:192-215 | rule lines then pack lines, at most 3 + #packs |
| GenerateMap.Execute | domain/src/main/java/com/manus/juryumarble/domain/usecase/GenerateMapUseCase.kt:25-57 | the map of the combined modifier: its seed, the sorted tiles, the rule lines and the pack ids |
| InitializeGame.PlayerId | domain/src/main/java/com/manus/juryumarble/domain/usecase/InitializeGameUseCase.kt:36 | ids are "player_" followed by the index |
| InitializeGame.PlayerIdsDistinct | domain/src/main/java/com/manus/juryumarble/domain/usecase/InitializeGameUseCase.kt:36 | different seats get different ids |
| InitializeGame.InitialPlayers | domain/src/main/java/com/manus/juryumarble/domain/usecase/InitializeGameUseCase.kt:34-43 | one fresh active player per name, in name order |
| InitializeGame.InitialPlayersHaveDistinctIds | domain/src/main/java/com/manus/juryumarble/domain/usecase/InitializeGameUseCase.kt:34-43 | the seated players' ids are pairwise distinct |
| InitializeGame.PacksWithIds | domain/src/main/java/com/manus/juryumarble/domain/usecase/InitializeGameUseCase.kt:69 | exactly the packs whose id was asked for |
| InitializeGame.PacksWithIdsIsSubsequence | domain/src/main/java/com/manus/juryumarble/domain/usecase/InitializeGameUseCase.kt:69 | filtering keeps the repository's order |
| InitializeGame.LoadActivatedCardPacks | domain/src/main/java/com/manus/juryumarble/domain/usecase/InitializeGameUseCase.kt:67-74 | the filtered enabled packs, or none when the repository fails |
| InitializeGame.BaseMapTemplate | domain/src/main/java/com/manus/juryumarble/domain/usecase/InitializeGameUseCase.kt:79-98 | 16 squares, START fixed at 0, 15 slots, weights 0.4/0.2/0.2/0.2 |
| InitializeGame.BaseTemplateIsConsistent | domain/src/main/java/com/manus/juryumarble/domain/usecase/InitializeGameUseCase.kt:79-98 | fixed plus variable slots fill the board, the weights sum to 1 with cards the likeliest |
| InitializeGame.BaseBoardPlacesAnyForcedTiles | domain/src/main/java/com/manus/juryumarble/domain/usecase/InitializeGameUseCase.kt:88 | on the base board `nextInt(boardSize)` never throws |
| InitializeGame.SampleCards | domain/src/main/java/com/manus/juryumarble/domain/usecase/InitializeGameUseCase.kt:135-148 | ten sample cards |
| InitializeGame.SampleCardsShape | domain/src/main/java/com/manus/juryumarble/domain/usecase/InitializeGameUseCase.kt:135-148 | all in the "default" pack, built in, with MILD and NORMAL among them |
| InitializeGame.SeverityAllowedIsUpTo | domain/src/main/java/com/manus/juryumarble/domain/usecase/InitializeGameUseCase.kt:118-124 | the filter keeps exactly the severities up to the chosen one |
| InitializeGame.FilterBySeverity | domain/src/main/java/com/manus/juryumarble/domain/usecase/InitializeGameUseCase.kt:118-124 | exactly the cards passing the severity filter |
| InitializeGame.PackCardsMembers | domain/src/main/java/com/manus/juryumarble/domain/usecase/InitializeGameUseCase.kt:107-110 | the collected cards are exactly those of the activated packs |
| InitializeGame.DeckNeverEmpty | domain/src/main/java/com/manus/juryumarble/domain/usecase/InitializeGameUseCase.kt:129 | the built deck is never empty |
| InitializeGame.CustomCardsCloseTheDeck | domain/src/main/java/com/manus/juryumarble/domain/usecase/InitializeGameUseCase.kt:127 | the session's custom cards end the deck, unfiltered |
| InitializeGame.DeckCardsPassTheFilter | domain/src/main/java/com/manus/juryumarble/domain/usecase/InitializeGameUseCase.kt:103-130 | apart from custom cards and the final fallback, deck cards passed the filter and come from the packs, or from the samples when the packs were empty |
| InitializeGame.FallbackIgnoresTheFilter | domain/src/main/java/com/manus/juryumarble/domain/usecase/InitializeGameUseCase.kt:129 | a MILD session with only SPICY pack cards plays with all ten unfiltered samples |
| InitializeGame.BuildDeck | domain/src/main/java/com/manus/juryumarble/domain/usecase/InitializeGameUseCase.kt:103-130 | the `forEach`/`addAll` loop builds exactly the specified deck |
| InitializeGame.Invoke | domain/src/main/java/com/manus/juryumarble/domain/usecase/InitializeGameUseCase.kt:24-62 | session id and seed from the clock, the seated players, the generated sorted board, the shuffled deck, index 0, turn 1, START, IN_PROGRESS, CLOCKWISE |
| InitializeGame.InitialDeckIsShuffledDeck | domain/src/main/java/com/manus/juryumarble/domain/usecase/InitializeGameUseCase.kt:54 | the initial deck is a non-empty permutation of the built deck |
| GameEnd.ActiveCount | domain/src/main/java/com/manus/juryumarble/domain/usecase/CheckGameEndConditionUseCase.kt:44 | the number of active players, zero exactly when nobody is active |
| GameEnd.CheckEnd | domain/src/main/java/com/manus/juryumarble/domain/usecase/CheckGameEndConditionUseCase.kt:19-50 | ends exactly when one of the four conditions holds, with the reason of the first in order: rounds, time, cards, players |
| GameEnd.SmallTablesEnd | domain/src/main/java/com/manus/juryumarble/domain/usecase/CheckGameEndConditionUseCase.kt:44-47 | a game with fewer than two players always ends |
| GameEnd.UnlimitedGameContinues | domain/src/main/java/com/manus/juryumarble/domain/usecase/CheckGameEndConditionUseCase.kt:19-50 | without limits, with a card left and two active players, the game goes on |
| GameEnd.ForceEnd | domain/src/main/java/com/manus/juryumarble/domain/usecase/CheckGameEndConditionUseCase.kt:55-59 | only the status changes, to ENDED; the reason is ignored |
| GameStatistics.StatsFor | domain/src/main/java/com/manus/juryumarble/domain/usecase/CalculateGameStatisticsUseCase.kt:34-42 | completed cards are the penalty count, skips always 0 |
| GameStatistics.MaxByIndex | domain/src/main/java/com/manus/juryumarble/domain/usecase/CalculateGameStatisticsUseCase.kt:45 | `maxByOrNull`: none for no entries, else the first entry with the largest total |
| GameStatistics.Calculate | domain/src/main/java/com/manus/juryumarble/domain/usecase/CalculateGameStatisticsUseCase.kt:30-54 | turns, play time, discarded cards, one entry per player, and the MVP: the first player with the most penalties, none without players |
| GameStatistics.PlayTimeParts | domain/src/main/java/com/manus/juryumarble/domain/usecase/CalculateGameStatisticsUseCase.kt:59-63 | minutes and seconds of the truncated seconds; seconds in [0, 60) for non-negative durations |
| GameStatistics.FormatPlayTime | domain/src/main/java/com/manus/juryumarble/domain/usecase/CalculateGameStatisticsUseCase.kt:59-64 | the text is the decimal minutes of `PlayTimeParts` with "분 ", followed by its seconds with "초" |
| GameStatistics.SecondsFitTwoDigits | domain/src/main/java/com/manus/juryumarble/domain/usecase/CalculateGameStatisticsUseCase.kt:62-63 | the seconds are rendered with one or two digits |
| GameStatistics.NinetySecondsExample | domain/src/main/java/com/manus/juryumarble/domain/usecase/CalculateGameStatisticsUseCase.kt:59-64 | 90000 ms is rendered "1분 30초" |
| CardRepository.CardTypeValueOf | data/src/main/java/com/manus/juryumarble/data/repository/CardRepositoryImpl.kt:73 | `valueOf` accepts a constant's name only |
| CardRepository.TargetTypeValueOf | data/src/main/java/com/manus/juryumarble/data/repository/CardRepositoryImpl.kt:74 | `valueOf` accepts a constant's name only |
| CardRepository.SeverityValueOf | data/src/main/java/com/manus/juryumarble/data/repository/CardRepositoryImpl.kt:77 | `valueOf` accepts a constant's name only |
| CardRepository.EnumNamesRoundTrip | data/src/main/java/com/manus/juryumarble/data/repository/CardRepositoryImpl.kt:69-97 | `valueOf(x.name) == x`, and `valueOf` fails exactly on non-names |
| CardRepository.ToEntity | data/src/main/java/com/manus/juryumarble/data/repository/CardRepositoryImpl.kt:84-97 | fields copied, enums by name, the custom flag as given |
| CardRepository.ToDomain | data/src/main/java/com/manus/juryumarble/data/repository/CardRepositoryImpl.kt:69-82 | succeeds exactly when the three enum fields hold names, then with the constants `valueOf` gives and every other field copied; fails with an unknown name |
| CardRepository.CardRoundTrip | data/src/main/java/com/manus/juryumarble/data/repository/CardRepositoryImpl.kt:69-97 | storing and reading back gives the card |
| CardRepository.EntityRoundTrip | data/src/main/java/com/manus/juryumarble/data/repository/CardRepositoryImpl.kt:69-97 | a readable row is what storing its card writes |
| CardRepository.AcceptedRowsUseNames | data/src/main/java/com/manus/juryumarble/data/repository/CardRepositoryImpl.kt:69-82 | a row is readable exactly when its enum fields hold names |
| CardRepository.SeverityNames | data/src/main/java/com/manus/juryumarble/data/repository/CardRepositoryImpl.kt:31-35 | one name per severity up to the maximum |
| CardRepository.SeverityNamesAreUpTo | data/src/main/java/com/manus/juryumarble/data/repository/CardRepositoryImpl.kt:31-35 | the list names exactly the severities up to the maximum, in increasing order |
| CardRepository.RowsWithSeverity | data/src/main/java/com/manus/juryumarble/data/repository/CardRepositoryImpl.kt:36 | exactly the rows whose severity is listed |
| CardRepository.ToDomainAll | data/src/main/java/com/manus/juryumarble/data/repository/CardRepositoryImpl.kt:36 | the query succeeds exactly when every row converts, converting each in order |
| CardRepository.SelectedRowsConvert | data/src/main/java/com/manus/juryumarble/data/repository/CardRepositoryImpl.kt:30-37 | converting the selected rows fails exactly when a row with a listed severity does not convert |
| CardRepository.LighterRowsReturned | data/src/main/java/com/manus/juryumarble/data/repository/CardRepositoryImpl.kt:30-37 | every row at most as strong as the maximum is among the converted cards |
| CardRepository.GetCardsBySeverity | data/src/main/java/com/manus/juryumarble/data/repository/CardRepositoryImpl.kt:30-37 | fails exactly when a row with a listed severity does not convert; otherwise every row at most as strong as the maximum comes back converted |
| CardRepository.CardsBySeverityRespectMaximum | data/src/main/java/com/manus/juryumarble/data/repository/CardRepositoryImpl.kt:30-37 | every returned card is at most as strong as the maximum |
| CardRepository.SaveCustomCard | data/src/main/java/com/manus/juryumarble/data/repository/CardRepositoryImpl.kt:39-41 | insert-or-replace with the custom flag forced on; other rows kept |
| CardRepository.DeleteCustomCard | data/src/main/java/com/manus/juryumarble/data/repository/CardRepositoryImpl.kt:43-45 | the row with the id is gone, custom or not; other rows kept |
| CardRepository.PackToEntity | data/src/main/java/com/manus/juryumarble/data/repository/CardRepositoryImpl.kt:124-143 | fields copied, the modifier serialised exactly when present |
| CardRepository.PackToDomain | data/src/main/java/com/manus/juryumarble/data/repository/CardRepositoryImpl.kt:99-122 | fields copied; no modifier without JSON; with JSON, the parser's result, so none when parsing fails |
| CardRepository.PackRoundTrip | data/src/main/java/com/manus/juryumarble/data/repository/CardRepositoryImpl.kt:99-143 | with a faithful codec a pack survives storing and reloading |
| CardRepository.EnabledPacks | data/src/main/java/com/manus/juryumarble/data/repository/CardRepositoryImpl.kt:56-58 | every enabled row comes back converted, and every returned pack is an enabled row converted |
| CustomCards.CreateCustomCard | domain/src/main/java/com/manus/juryumarble/domain/usecase/CreateCustomCardUseCase.kt:14-20 | the three guards in order with their messages; succeeds exactly for custom cards with non-blank id and title, then saves |
| CustomCards.UpdateCustomCard | domain/src/main/java/com/manus/juryumarble/domain/usecase/UpdateCustomCardUseCase.kt:14-20 | the same guards with its own first message |
| CustomCards.UpdateAgreesWithCreate | domain/src/main/java/com/manus/juryumarble/domain/usecase/UpdateCustomCardUseCase.kt:14-20 | update accepts exactly what create accepts and stores the card as given |
| CustomCards.DescriptionIsNotChecked | domain/src/main/java/com/manus/juryumarble/domain/usecase/CreateCustomCardUseCase.kt:14-20 | any description is accepted |
| CustomCards.DeleteCustomCardById | domain/src/main/java/com/manus/juryumarble/domain/usecase/DeleteCustomCardUseCase.kt:13-16 | a blank id is refused with its message; any other id is passed on unchanged |
| CustomCards.BlankIdsAreRefused | domain/src/main/java/com/manus/juryumarble/domain/usecase/DeleteCustomCardUseCase.kt:14 | empty and whitespace-only ids are refused |
| CustomCards.DeleteDoesNotCheckTheFlag | domain/src/main/java/com/manus/juryumarble/domain/usecase/DeleteCustomCardUseCase.kt:13-16 | a built-in card can be deleted and a missing id is accepted |
| CustomCards.GenerateCardId | domain/src/main/java/com/manus/juryumarble/domain/usecase/CreateCustomCardUseCase.kt:25-27 | ids start with "custom_" and are not blank |
| CustomCards.GeneratedIdsDiffer | domain/src/main/java/com/manus/juryumarble/domain/usecase/CreateCustomCardUseCase.kt:25-27 | ids from different clock readings differ |
| GameRepository.Lookup | data/src/main/java/com/manus/juryumarble/data/repository/GameRepositoryImpl.kt:21-23 | the stored state exactly when its session id matches |
| GameRepository.AfterDelete | data/src/main/java/com/manus/juryumarble/data/repository/GameRepositoryImpl.kt:29-33 | the slot clears exactly when the ids match |
| GameRepository.LookupAfterSave | data/src/main/java/com/manus/juryumarble/data/repository/GameRepositoryImpl.kt:16-23 | a saved state is found under its own id and no other |
| GameRepository.LookupAfterDelete | data/src/main/java/com/manus/juryumarble/data/repository/GameRepositoryImpl.kt:21-33 | nothing is found under a deleted id |
| GameRepository.DeleteIsIdempotent | data/src/main/java/com/manus/juryumarble/data/repository/GameRepositoryImpl.kt:29-33 | deleting twice is deleting once; a foreign id changes nothing |
| GameRepository.GameRepositoryImpl.SaveGameState | data/src/main/java/com/manus/juryumarble/data/repository/GameRepositoryImpl.kt:16-19 | the slot holds the saved state, whatever it held |
| GameRepository.GameRepositoryImpl.LoadGameState | data/src/main/java/com/manus/juryumarble/data/repository/GameRepositoryImpl.kt:21-23 | returns the lookup of the slot |
| GameRepository.GameRepositoryImpl.GetLastGameState | data/src/main/java/com/manus/juryumarble/data/repository/GameRepositoryImpl.kt:25-27 | returns the slot |
| GameRepository.GameRepositoryImpl.DeleteGameState | data/src/main/java/com/manus/juryumarble/data/repository/GameRepositoryImpl.kt:29-33 | the slot after a delete |
| GameRepository.SaveThenLoad | data/src/main/java/com/manus/juryumarble/data/repository/GameRepositoryImpl.kt:16-27 | after a save, both reads return the saved state |
| GameRepository.SecondSaveOverwrites | data/src/main/java/com/manus/juryumarble/data/repository/GameRepositoryImpl.kt:16-23 | after a second save under another session id only the second state is held, and the first is no longer found |
| CardPackDetails.FindPack | domain/src/main/java/com/manus/juryumarble/domain/usecase/GetCardPackDetailsUseCase.kt:24 | `find`: none exactly when no pack has the id, else the first one that has it |
| CardPackDetails.CountBy | domain/src/main/java/com/manus/juryumarble/domain/usecase/GetCardPackDetailsUseCase.kt:27-28 | `eachCount`: exactly the present keys, each with its number of occurrences |
| CardPackDetails.GetCardPackDetails | domain/src/main/java/com/manus/juryumarble/domain/usecase/GetCardPackDetailsUseCase.kt:22-36 | null exactly for an unknown pack id; else the pack and its cards |
| CardPackDetails.CountsAddUp | domain/src/main/java/com/manus/juryumarble/domain/usecase/GetCardPackDetailsUseCase.kt:27-28 | the counts of a grouping sum to the number of keys |
| CardPackDetails.DistributionsSumToCardCount | domain/src/main/java/com/manus/juryumarble/domain/usecase/GetCardPackDetailsUseCase.kt:27-35 | both distributions sum to the number of cards |
| CardPackDetails.TypeDistributionCounts | domain/src/main/java/com/manus/juryumarble/domain/usecase/GetCardPackDetailsUseCase.kt:27 | a type is a key exactly when a card has it, and maps to the number of such cards |
| CardPackDetails.SeverityDistributionCounts | domain/src/main/java/com/manus/juryumarble/domain/usecase/GetCardPackDetailsUseCase.kt:28 | a severity is a key exactly when a card has it, and maps to the number of such cards |
| ViewModel.DefaultRosterIsValid | app/src/main/java/com/manus/juryumarble/presentation/viewmodel/GameViewModel.kt:645-680 | the default roster has two to six non-blank names |
| ViewModel.DefaultBoard | app/src/main/java/com/manus/juryumarble/presentation/viewmodel/GameViewModel.kt:507-526 | sixteen squares |
| ViewModel.DefaultBoardMatchesBaseTemplate | app/src/main/java/com/manus/juryumarble/presentation/viewmodel/GameViewModel.kt:507-526 | the base template's size, square i at position i, sorted, START first and nowhere else |
| ViewModel.PlayerPositions | app/src/main/java/com/manus/juryumarble/presentation/viewmodel/GameViewModel.kt:618 | `associate`: a key per player id; with distinct ids each maps to its player's position |
| ViewModel.SampleGame | app/src/main/java/com/manus/juryumarble/presentation/viewmodel/GameViewModel.kt:140-171 | the seated roster with the first name as current player |
| ViewModel.SampleGameIsPlayable | app/src/main/java/com/manus/juryumarble/presentation/viewmodel/GameViewModel.kt:137-171 | all players at 0 with zero counters and distinct ids; index 0, turn 1, START, IN_PROGRESS, the sixteen-square board, the ten samples |
| ViewModel.DdaSafeCard | app/src/main/java/com/manus/juryumarble/presentation/viewmodel/GameViewModel.kt:326-335 | a built-in MILD SAFE card on SELF with scale 0 in the "dda" pack, its id "dda_safe_" and the clock |
| ViewModel.DdaRestCard | app/src/main/java/com/manus/juryumarble/presentation/viewmodel/GameViewModel.kt:354-363 | a built-in MILD SAFE card on SELF with scale 0 in the "dda" pack, its id "dda_rest_" and the clock |
| ViewModel.ApplyDDAAction | app/src/main/java/com/manus/juryumarble/presentation/viewmodel/GameViewModel.kt:301-377 | an adjustment never changes the settings and changes nothing of a game but its deck |
| ViewModel.ReductionOutcome | app/src/main/java/com/manus/juryumarble/presentation/viewmodel/GameViewModel.kt:312-349 | the reduction installs the shuffled edited deck and its message, or changes nothing |
| ViewModel.ReducedView | app/src/main/java/com/manus/juryumarble/presentation/viewmodel/GameViewModel.kt:312-349 | computes the reduction; settings and difficulty untouched |
| ViewModel.ApplyDDAActions | app/src/main/java/com/manus/juryumarble/presentation/viewmodel/GameViewModel.kt:291-293 | applying a list of actions keeps the settings and all of a game but its deck |
| ViewModel.ReductionReplacesPenalties | app/src/main/java/com/manus/juryumarble/presentation/viewmodel/GameViewModel.kt:312-342 | with distinct penalties and a rate in [0, 1], the deck keeps its size and loses n penalty cards, as a permutation of the edited deck |
| ViewModel.RestBoostPutsSafeCardOnTop | app/src/main/java/com/manus/juryumarble/presentation/viewmodel/GameViewModel.kt:350-368 | one SAFE card on top, the old deck below it |
| ViewModel.ResetRestoresDefault | app/src/main/java/com/manus/juryumarble/presentation/viewmodel/GameViewModel.kt:369-375 | the default difficulty, the game untouched |
| ViewModel.NoGameNoDeckChange | app/src/main/java/com/manus/juryumarble/presentation/viewmodel/GameViewModel.kt:314 | without a game no action creates one |
| ViewModel.AfterUpdateDDA | app/src/main/java/com/manus/juryumarble/presentation/viewmodel/GameViewModel.kt:280-296 | nothing without settings or with DDA off; otherwise only the deck of a game changes |
| ViewModel.AfterEndGame | app/src/main/java/com/manus/juryumarble/presentation/viewmodel/GameViewModel.kt:396-410 | only the UI shows ENDED and the totals; game, settings and difficulty are kept |
| ViewModel.AfterEndTurn | app/src/main/java/com/manus/juryumarble/presentation/viewmodel/GameViewModel.kt:246-275 | the end check and the DDA update run only with settings |
| ViewModel.WithoutSettingsTheTurnAlwaysEnds | app/src/main/java/com/manus/juryumarble/presentation/viewmodel/GameViewModel.kt:249 | without settings the turn always passes on, whatever the game looks like |
| ViewModel.EndCheckStopsTheTurn | app/src/main/java/com/manus/juryumarble/presentation/viewmodel/GameViewModel.kt:249-254 | a firing end check keeps the game state as it was, still in progress, and shows ENDED |
| ViewModel.ContinuingTurnOnlyAdjustsTheDeck | app/src/main/java/com/manus/juryumarble/presentation/viewmodel/GameViewModel.kt:257-261 | a continuing turn changes the game as `endTurn` does, and the deck at most |
| ViewModel.CardExecutionKeepsTheTurn | app/src/main/java/com/manus/juryumarble/presentation/viewmodel/GameViewModel.kt:589-625 | executing a card keeps player, turn, phase and doubles |
| ViewModel.GameViewModel.AddPlayer | app/src/main/java/com/manus/juryumarble/presentation/viewmodel/GameViewModel.kt:61-65 | the trimmed name is appended exactly with fewer than six names and a non-blank name; a valid roster stays valid |
| ViewModel.GameViewModel.RemovePlayer | app/src/main/java/com/manus/juryumarble/presentation/viewmodel/GameViewModel.kt:70-76 | removes the index only with more than two names; a valid roster stays valid |
| ViewModel.GameViewModel.SetSeverity | app/src/main/java/com/manus/juryumarble/presentation/viewmodel/GameViewModel.kt:81-83 | only the selected severity changes |
| ViewModel.GameViewModel.StartGame | app/src/main/java/com/manus/juryumarble/presentation/viewmodel/GameViewModel.kt:88-132 | nothing with fewer than two names; otherwise the sample game; the settings are never set |
| ViewModel.GameViewModel.StartGameWithoutCards | app/src/main/java/com/manus/juryumarble/presentation/viewmodel/GameViewModel.kt:137-188 | the sample game and the UI fields it sets |
| ViewModel.GameViewModel.HandleDDAAction | app/src/main/java/com/manus/juryumarble/presentation/viewmodel/GameViewModel.kt:301-377 | the new state is `ApplyDDAAction` of the old |
| ViewModel.GameViewModel.ReducePenaltyProbability | app/src/main/java/com/manus/juryumarble/presentation/viewmodel/GameViewModel.kt:312-349 | the new state is the reduction of the old |
| ViewModel.GameViewModel.UpdateDDA | app/src/main/java/com/manus/juryumarble/presentation/viewmodel/GameViewModel.kt:280-296 | the new state is `AfterUpdateDDA` of the old |
| ViewModel.GameViewModel.HandleDDAActions | app/src/main/java/com/manus/juryumarble/presentation/viewmodel/GameViewModel.kt:291-293 | the `forEach` applies the actions in order |
| ViewModel.GameViewModel.EndGame | app/src/main/java/com/manus/juryumarble/presentation/viewmodel/GameViewModel.kt:396-410 | the new state is `AfterEndGame` of the old |
| ViewModel.GameViewModel.ForceEndGame | app/src/main/java/com/manus/juryumarble/presentation/viewmodel/GameViewModel.kt:415-417 | the same as `endGame` |
| ViewModel.GameViewModel.EndTurn | app/src/main/java/com/manus/juryumarble/presentation/viewmodel/GameViewModel.kt:246-275 | the new state is `AfterEndTurn` of the old |
| ViewModel.GameViewModel.ExecuteCard | app/src/main/java/com/manus/juryumarble/presentation/viewmodel/GameViewModel.kt:589-625 | a pending selection changes only the UI; otherwise the effect applied and the card discarded; the turn is not ended |
| ViewModel.GameViewModel.DismissCardDialog | app/src/main/java/com/manus/juryumarble/presentation/viewmodel/GameViewModel.kt:630-639 | clears the UI card fields; the game is untouched |
| ViewModel.GameViewModel.ConsumeDdaMessage | app/src/main/java/com/manus/juryumarble/presentation/viewmodel/GameViewModel.kt:382-384 | only the DDA message is cleared |
| ViewModel.GameViewModel.DismissBreakSuggestion | app/src/main/java/com/manus/juryumarble/presentation/viewmodel/GameViewModel.kt:389-391 | only the break flag is cleared |
| ViewModel.GameViewModel.ResetGame | app/src/main/java/com/manus/juryumarble/presentation/viewmodel/GameViewModel.kt:422-426 | game, settings and UI back to defaults; the difficulty state is kept |
| ViewModel.StartedGameSkipsTheEndCheck | app/src/main/java/com/manus/juryumarble/presentation/viewmodel/GameViewModel.kt:88-275 | after `startGame` the settings stay empty, so `endTurn` just passes the turn on |

## Left out

- Clock and randomness: every `System.currentTimeMillis()` reading is an explicit parameter
  (`now`, `seed`, `startClock`, ...).
- `kotlin.random.Random`, `List.shuffled` and `nextLong` are replaced by the seeded generator
  in `rand.dfy`. Proofs rely only on its ranges and on shuffles being permutations, not on
  Kotlin's XorWow sequence.
- Time perturbation: the clock-seeded `nextLong` in `calculateFinalSeed` is the parameter
  `randomComponent`.
- Floating point: `Float` and `Long` are exact `real` and `int`, so IEEE-754 rounding, NaN,
  infinities and 64-bit overflow are not modelled. `fatigueLimitMinutes > 0` and
  `maxConsecutivePenalty > 0` are assumed, because the formulas divide by them.
- GameStateModel.GameState.ElapsedMinutes: the `Long`-to-`Int` narrowing of the minute count is dropped.
- Messages that print a `Float` (`${scaledPenalty}샷`) use a `Message` datatype carrying the
  number, because Kotlin's decimal rendering of floats is not modelled.
- ViewModel.GameViewModel.EndTurn: one clock reading `now` stands for the separate readings
  of the end check, the DDA update and the DDA card ids.
- ViewModel: `StateFlow`, `viewModelScope.launch`, delays and `Log` calls are not modelled.
  The UI state is a field that is replaced as a whole.
- ViewModel: `rollDice`, `processCurrentTile` and `drawCard` are not modelled. They sequence
  the use cases above inside coroutines with animation delays.
- ViewModel: the persistence commands (`checkForSavedGame`, `saveGame`, `loadSavedGame`,
  `deleteSavedGame`, `autoSaveGame`) are not modelled. They are coroutine calls into the
  Gson-backed state repository, which is not part of this model. `endTurn`'s autosave is
  dropped with them.
- ViewModel.GameViewModel.StartGame: the commented-out database path (lines 102-131) is
  inactive code.
- ViewModel: `createSampleCards` repeats the use case's ten samples and is modelled once,
  as `InitializeGame.SampleCards`.
- Repository: Room DAOs are replaced by values. The card table is a map keyed by `cardId`,
  and the card-pack rows are a sequence. Gson is a pair of function parameters.
- Repository: `getCardsByPack` is a function parameter of the use cases that call it.
- GameRepository: the companion-object slot shared by all instances is the field of one
  object.
- Exceptions: the crashing ones become preconditions. These are:
  - an index out of range in `players[i]` (the current player, a chosen target, the first
    name) and in `removeAt`;
  - an index out of range in `board[position]` (`processTileEvent`);
  - a modulo by an empty board (`movePlayer`) or by an empty player list
    (`getNextActivePlayerIndex`);
  - `first()` on an empty deck (`drawFromDeck`, the draw after the emptiness checks);
  - `nextInt(0)` for a forced tile on an empty board.

  `require` failures and caught exceptions become `Result`/`Option`.
- Kotlin.HashCode: folds over the string's characters taken as Unicode code points, while the
  JVM's `String.hashCode` folds over UTF-16 code units. The two agree inside the Basic
  Multilingual Plane and differ on characters outside it.
- GenerateMap.SelectTileType: the float sum and `nextFloat()` are exact reals, so Float
  rounding at the weight boundaries is not modelled.
- Pack line texts and the Korean message strings are transcribed but carry no properties
  beyond their shape.
