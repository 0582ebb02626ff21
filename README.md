# NoaPlay memory cards: the reducer layer in Dafny

NoaPlay's memory-card game is built from reducers. A reducer takes the
current state and an action, updates the state, and returns the effects to
run next. This project models that layer of the Swift package `NoaPlayKit`
and proves what each transition does.

The modelled parts are these:

- **The pair tracker** `PairMatch` (`Models.PairMatch`). It has two slots,
  filled first slot then second. It reports the held pair, or the pair only
  when its injected matching predicate holds.
- **The level catalog** (`GeneratorData`, `CardsGenerator`, `Utils`):
  - the literal face tables of levels one to four per style;
  - the first level of each difficulty;
  - the level that follows a completed one;
  - the live generator, which shuffles, and the mock one, which does not;
  - dealing faces as fresh cards.
- **The card board** (`CardBoard.Board`). The class holds the board state's
  fields and a method per reducer case. It covers:
  - guarding taps;
  - interrupting a visible mismatch;
  - flipping a card and tracking it;
  - delayed match and mismatch resolution;
  - detecting that the level is complete;
  - the started flag, the timer and the tick count;
  - reloading a level from the summary.
- **The small reducers**:
  - `Card` turns a tap into a request to the board;
  - `LevelDetails` is the end-of-level summary with next, retry and finish;
  - `Game` is the navigation flow: start pushes a board, finish empties the
    stack, and board actions go to the addressed board;
  - `GameOptions` and the three option sections select a mode, a style or a
    difficulty.

Effects are data. The `Effects.Effect` datatype has three cases:

- a delayed `Send` of an action, optionally cancellable under an id;
- a repeating `Every`, which is the game timer;
- a `Cancel` of an id.

`.none` is the empty sequence and `.merge` is concatenation. A child
reducer's effects are lifted into the parent's action type with
`Effects.Map`.

The three injected collaborators are modelled explicitly:

- the random shuffle is driven by a sequence of draws `rng`;
- the UUID supply is the counter object `Dependencies.UuidGenerator`, which
  behaves like the tests' incrementing generator;
- the duration formatter is a function parameter.

Two plays of level one are proved end to end in `BoardScenarios`. Every step
sends an action through the board's reducer `CardBoard.Board.Reduce`, as the
tests send their actions to the store:

- the one from `testCompleteLevel`, which completes in two seconds;
- the one from `testCompleteLevelFailureSteps`, which completes in four
  seconds after a mismatch, an interrupted mismatch and a delayed flip.

Both use the mock generator and ids counted from zero.

Paths below are relative to the repository root. Files under
`NoaPlayKit/Sources/` are cited with that prefix.

## Model

| member | source | states |
|---|---|---|
| `Models.CardStyle.Description` | NoaPlayKit/Sources/Models/Models.swift:35-44 | Every face's text is its carried value; for an image it is the value and never the name, unless the two are equal. |
| `Models.PairMatch.constructor` | NoaPlayKit/Sources/Models/Models.swift:95-101 | A new tracker keeps the given predicate and holds nothing. |
| `Models.PairMatch.Add` | NoaPlayKit/Sources/Models/Models.swift:103-109 | It fills the first slot if empty, else the second if empty, else changes nothing. A held element is never overwritten, the count grows by one up to two, and the second slot is never filled before the first. |
| `Models.PairMatch.Clear` | NoaPlayKit/Sources/Models/Models.swift:111-114 | It empties both slots; afterwards neither the current pair nor the matching pair is present. |
| `Models.PairMatch.Count` | NoaPlayKit/Sources/Models/Models.swift:103-121 | The tracker holds at most two elements, none exactly when the first slot is empty, and two exactly when the second slot is filled. |
| `Models.PairMatch.CurrentPair` | NoaPlayKit/Sources/Models/Models.swift:116-121 | It is present exactly when both slots are filled, and then it is (first, second) in that order. |
| `Models.PairMatch.MatchingPair` | NoaPlayKit/Sources/Models/Models.swift:123-128 | It is present exactly when both slots are filled and the predicate holds of them; then it equals the current pair. |
| `Models.PairMatch.Equals` | NoaPlayKit/Sources/Models/Models.swift:131-135 | Equal trackers report the same current pair, and the same matching pair when their predicates agree. |
| `Models.EqualsIgnoresMatching` | NoaPlayKit/Sources/Models/Models.swift:131-135 | Trackers with the same slots are equal whatever predicates they were built with. |
| `GeneratorData.Level1` | NoaPlayKit/Sources/DataGenerator/MemoryCardGeneratorData.swift:12-31 | Level one has four faces for numbers and letters and none for animals; all are `.number` faces, in adjacent equal pairs. |
| `GeneratorData.Level2` | NoaPlayKit/Sources/DataGenerator/MemoryCardGeneratorData.swift:33-60 | Level two has eight faces for numbers and letters and none for animals; all are `.number` faces, in adjacent equal pairs. |
| `GeneratorData.Level3` | NoaPlayKit/Sources/DataGenerator/MemoryCardGeneratorData.swift:62-97 | Level three has twelve faces for numbers and letters and none for animals; all are `.number` faces, in adjacent equal pairs. |
| `GeneratorData.Level4` | NoaPlayKit/Sources/DataGenerator/MemoryCardGeneratorData.swift:99-142 | Level four has sixteen faces for numbers and letters and none for animals; all are `.number` faces, in adjacent equal pairs. |
| `GeneratorData.Level1Doubled` | NoaPlayKit/Sources/DataGenerator/MemoryCardGeneratorData.swift:12-31 | Level one is "1","1","2","2" for numbers and "A","A","B","B" for letters, all as `.number` faces. |
| `GeneratorData.Level2Doubled` | NoaPlayKit/Sources/DataGenerator/MemoryCardGeneratorData.swift:33-60 | Level two is "1" to "4" (or "A" to "D"), each twice in a row. |
| `GeneratorData.Level3Doubled` | NoaPlayKit/Sources/DataGenerator/MemoryCardGeneratorData.swift:62-97 | Level three is "1" to "6" (or "A" to "F"), each twice in a row. |
| `GeneratorData.Level4Doubled` | NoaPlayKit/Sources/DataGenerator/MemoryCardGeneratorData.swift:99-142 | Level four is "1" to "8" (or "A" to "H"), each twice in a row. |
| `GeneratorData.TableIsDoubledPrefix` | NoaPlayKit/Sources/DataGenerator/MemoryCardGeneratorData.swift:12-142 | The animals table is empty at every level. Otherwise level k's table is the first 2k symbols of the style, each dealt twice in a row. |
| `GeneratorData.SymbolsDistinct` | NoaPlayKit/Sources/DataGenerator/MemoryCardGeneratorData.swift:99-138 | The symbols the tables are built from are pairwise different. |
| `GeneratorData.TableShape` | NoaPlayKit/Sources/DataGenerator/MemoryCardGeneratorData.swift:12-142 | A table is empty exactly for animals; otherwise level k has 4k cards. Every face occurs in one adjacent pair, and different pairs have different faces. |
| `GeneratorData.TablePrefix` | NoaPlayKit/Sources/DataGenerator/MemoryCardGeneratorData.swift:12-142 | Within a style, level k's table is a prefix of level k+1's. |
| `GeneratorData.TableFaces` | NoaPlayKit/Sources/DataGenerator/MemoryCardGeneratorData.swift:99-138 | Every table face is a `.number` face whose description is its symbol. |
| `CardsGenerator.Shuffle` | NoaPlayKit/Sources/DataGenerator/MemoryCardsGeneratorKey.swift:16-22 | A shuffle keeps the length. |
| `CardsGenerator.ShufflePermutes` | NoaPlayKit/Sources/DataGenerator/MemoryCardsGeneratorKey.swift:16-22 | Whatever the draws, a shuffle is a permutation of its input. |
| `CardsGenerator.SwapPreservesMultiset` | NoaPlayKit/Sources/DataGenerator/MemoryCardsGeneratorKey.swift:16-22 | Swapping the first card with another keeps the multiset of cards. |
| `CardsGenerator.Arrange` | NoaPlayKit/Sources/DataGenerator/MemoryCardsGeneratorKey.swift:12-84 | The live generator shuffles the table and the mock returns it as is; either way the length is kept. |
| `CardsGenerator.ArrangePermutes` | NoaPlayKit/Sources/DataGenerator/MemoryCardsGeneratorKey.swift:13-84 | The live generator deals a permutation of the table; the mock deals the table itself. |
| `CardsGenerator.AvailableCards` | NoaPlayKit/Sources/DataGenerator/MemoryCardsGeneratorKey.swift:13-35 | Levels one to four deal their table, arranged by the generator; levels five to ten deal nothing. |
| `CardsGenerator.DealtFaces` | NoaPlayKit/Sources/DataGenerator/MemoryCardsGeneratorKey.swift:13-97 | For levels one to four, the dealt faces are the table's, each as often as in the table; the mock deals them in table order. |
| `CardsGenerator.InitialLevel` | NoaPlayKit/Sources/DataGenerator/MemoryCardsGeneratorKey.swift:37-46 | Easy starts at level one, medium at three, hard at four. |
| `CardsGenerator.NextLevel` | NoaPlayKit/Sources/DataGenerator/MemoryCardsGeneratorKey.swift:47-70 | Levels one to four always have a successor. A successor is the next level in order. There is none exactly after ten, or after five to nine under easy. |
| `CardsGenerator.ProgressionEnds` | NoaPlayKit/Sources/DataGenerator/MemoryCardsGeneratorKey.swift:47-70 | From level k, 11-k steps of "next level" always reach nothing, so every game ends. |
| `CardsGenerator.ProgressionClimbs` | NoaPlayKit/Sources/DataGenerator/MemoryCardsGeneratorKey.swift:47-70 | Below the difficulty's cap (five for easy, ten otherwise), n steps from level k reach level k+n. |
| `CardsGenerator.AdvanceSplit` | NoaPlayKit/Sources/DataGenerator/MemoryCardsGeneratorKey.swift:47-70 | n+1 steps are n steps followed by one more. |
| `CardsGenerator.EasyGameLength` | NoaPlayKit/Sources/DataGenerator/MemoryCardsGeneratorKey.swift:37-70 | An easy game runs from level one through level five and stops there. |
| `Dependencies.UuidGenerator.constructor` | NoaPlayKit/Sources/MemoryCards/Card.swift:25-26 | The id supply starts at zero, like the tests' incrementing generator. |
| `Dependencies.UuidGenerator.Take` | NoaPlayKit/Sources/MemoryCards/Card.swift:25-26 | Drawing `count` ids returns the first and advances the supply by `count`, so no id is handed out twice. |
| `Utils.Deal` | NoaPlayKit/Sources/MemoryCards/Utils.swift:16-18 | One card per face. |
| `Utils.DealAt` | NoaPlayKit/Sources/MemoryCards/Utils.swift:16-18 | Card i shows face i, has id first+i, and is face down and unpaired. |
| `Utils.DealShape` | NoaPlayKit/Sources/MemoryCards/Utils.swift:14-20 | A deal keeps the faces in order. Every card starts face down and unpaired, and the ids are consecutive, hence pairwise distinct. |
| `Utils.AvailableCards` | NoaPlayKit/Sources/MemoryCards/Utils.swift:13-20 | A level's cards are the generator's faces for it, in its order: card i shows face i, has id firstId+i, and starts face down and unpaired. |
| `Utils.DealLevel` | NoaPlayKit/Sources/MemoryCards/Utils.swift:14-20 | The cards of a level are the generator's faces dealt from the supply's next id. The supply then continues after the last card. |
| `Card.Reduce` | NoaPlayKit/Sources/MemoryCards/Card.swift:53-63 | A card never changes. A tap asks the board to flip it, by its own id. A delegate action does nothing. |
| `LevelDetails.Init` | NoaPlayKit/Sources/MemoryCards/LevelDetails.swift:19-33 | The summary keeps the level and difficulty. A duration string is present exactly when a duration was given, and it is the details format of that duration. |
| `LevelDetails.Reduce` | NoaPlayKit/Sources/MemoryCards/LevelDetails.swift:53-81 | The summary never changes and at most one request goes out. "Next" asks for the next level when there is one. "Try again" asks for the completed level, and "finish" asks to finish. |
| `LevelDetails.NextAfterLevelOne` | NoaPlayKit/Sources/MemoryCards/LevelDetails.swift:58-65 | After level one, "next" asks for level two under every difficulty. |
| `LevelDetails.NothingAfterEasyFive` | NoaPlayKit/Sources/MemoryCards/LevelDetails.swift:66-69 | After level five under easy, "next" asks for nothing. |
| `Effects.Map` | NoaPlayKit/Sources/MemoryCards/Board.swift:177-182 | A child's effects, lifted into the parent's actions one for one, in order. |
| `CardBoard.IndexOf` | NoaPlayKit/Sources/MemoryCards/Board.swift:193 | It finds a position holding the id, or reports that none does. |
| `CardBoard.Lookup` | NoaPlayKit/Sources/MemoryCards/Board.swift:193 | The card with the id is found exactly when it is on the board, and it is that card. |
| `CardBoard.WithFlipped` | NoaPlayKit/Sources/MemoryCards/Board.swift:123 | Only the card with the id gets the new flag; every other card is unchanged. |
| `CardBoard.WithPaired` | NoaPlayKit/Sources/MemoryCards/Board.swift:128-129 | Only the card with the id becomes paired; every other card is unchanged. |
| `CardBoard.HideUnlessPaired` | NoaPlayKit/Sources/MemoryCards/Board.swift:200-205 | Only the card with the id is turned face down, and only if it is unpaired. |
| `CardBoard.UnpairedCards` | NoaPlayKit/Sources/MemoryCards/Board.swift:53-55 | Exactly the unpaired cards of the board are kept. |
| `CardBoard.NoUnpairedIffAllPaired` | NoaPlayKit/Sources/MemoryCards/Board.swift:131 | No unpaired card is left exactly when every card is paired. |
| `CardBoard.TapKeepsDeck` | NoaPlayKit/Sources/MemoryCards/Board.swift:187-258 | A tap keeps the cards, their order, ids and faces. It pairs nothing and unpairs nothing, turns face up at most the tapped card, and returns at most two effects. |
| `CardBoard.TapLeavesNoMatchTracked` | NoaPlayKit/Sources/MemoryCards/Board.swift:223-256 | After a tap on a face-down, unpaired card of the board, the tracker is empty, or holds the tapped card alone, or holds two cards with different faces. |
| `CardBoard.Board.constructor` | NoaPlayKit/Sources/MemoryCards/Board.swift:32-51 | The new board has the given options and level, and `showTimer` is on exactly in default mode. Its cards are the level's deal. It is unstarted, has no time and no summary, and its tracker is empty and matches by face. |
| `CardBoard.Board.Reset` | NoaPlayKit/Sources/MemoryCards/Board.swift:57-63 | It sets the level, re-deals its cards and empties the tracker. |
| `CardBoard.Board.ReduceDelegateAction` | NoaPlayKit/Sources/MemoryCards/Board.swift:187-258 | A tap does exactly one of the following. On an unknown, face-up or paired card: nothing. With a pair showing: empty the tracker, turn the unpaired pair face down, and schedule the tapped card's flip while cancelling the turn-back. Otherwise: flip and track the card; a match empties the tracker and schedules the match, and a mismatch schedules the turn-back. |
| `CardBoard.Board.CardDelegate` | NoaPlayKit/Sources/MemoryCards/Board.swift:100-117 | The tap's outcome, with the game marked started. The repeating one-second timer is added only on the first tap of a level, and only in default mode. |
| `CardBoard.Board.StartedTimer` | NoaPlayKit/Sources/MemoryCards/Board.swift:102-116 | A timer is started exactly on the first tap in default mode. |
| `CardBoard.Board.FlipCard` | NoaPlayKit/Sources/MemoryCards/Board.swift:121-125 | The card is added to the tracker's first free slot and turned face up. No other card changes and there is no effect. |
| `CardBoard.Board.ShowMatch` | NoaPlayKit/Sources/MemoryCards/Board.swift:127-138 | Both cards become paired and nothing else changes. Completion of the current level is scheduled exactly when every card is paired. |
| `CardBoard.Board.UnflippedPair` | NoaPlayKit/Sources/MemoryCards/Board.swift:139-143 | The tracker is emptied and both cards are turned face down; no other card changes. |
| `CardBoard.Board.LoadGameLevel` | NoaPlayKit/Sources/MemoryCards/Board.swift:145-151 | The summary is dropped, the time is zero and the game unstarted. The new level is dealt and the tracker is empty. |
| `CardBoard.Board.FinishGame` | NoaPlayKit/Sources/MemoryCards/Board.swift:153-156 | Only the summary is dropped. |
| `CardBoard.Board.CompleteLevel` | NoaPlayKit/Sources/MemoryCards/Board.swift:160-166 | The summary appears with the elapsed time in default mode and none in practice mode, and the timer is cancelled. |
| `CardBoard.Board.TimerTicked` | NoaPlayKit/Sources/MemoryCards/Board.swift:168-174 | One second is added exactly when the game has started and no summary shows. |
| `CardBoard.Board.ReduceCard` | NoaPlayKit/Sources/MemoryCards/Board.swift:100-120 | A card's tap request starts the game. It has the tap's outcome, followed by the timer on the first tap in default mode. A tap on a card makes that card, if present, ask at once to be flipped by its own id, and changes nothing. |
| `CardBoard.Board.ReduceDetails` | NoaPlayKit/Sources/MemoryCards/Board.swift:145-158 | A request for a level deals that level afresh: zero time, unstarted, no summary, empty tracker. A request to finish drops only the summary. Any other summary action is run by the summary, if one shows, and its effects are lifted. |
| `CardBoard.Board.Reduce` | NoaPlayKit/Sources/MemoryCards/Board.swift:96-184 | Each action does what its case says (`Reduced`), and states which fields it keeps: the tap and reload steps above; the delayed flip into the tracker's first free slot; the turn-back emptying the tracker; the match pairing both cards and scheduling completion exactly when all are paired; completion showing the summary and cancelling the timer; a tick adding a second when started with no summary. Across all actions, only a reload re-deals; every other action keeps the cards' order, ids and faces, never unpairs one, and keeps the level and the id supply. |
| `BoardScenarios.NewLevelOneBoard` | NoaPlayKit/Tests/MemoryCardsTests/CardBoardDefaultModeTests.swift:17-31 | An easy, default-mode numbers board at level one from the mock generator holds cards 0 to 3 with faces "1","1","2","2", all face down. |
| `BoardScenarios.FirstTap` | NoaPlayKit/Tests/MemoryCardsTests/CardBoardDefaultModeTests.swift:33-41 | The first tap flips and tracks card 0 and starts the game; one tick makes it one second. |
| `BoardScenarios.FirstPairMatched` | NoaPlayKit/Tests/MemoryCardsTests/CardBoardDefaultModeTests.swift:43-52 | Card 1 matches card 0: the match is scheduled, and once shown both are paired with the tracker empty. |
| `BoardScenarios.ThirdCardTapped` | NoaPlayKit/Tests/MemoryCardsTests/CardBoardDefaultModeTests.swift:54-57 | Card 2 is flipped and tracked. |
| `BoardScenarios.SecondPairTapped` | NoaPlayKit/Tests/MemoryCardsTests/CardBoardDefaultModeTests.swift:59-62 | Card 3 matches card 2 and the tracker is emptied. |
| `BoardScenarios.SecondPairShown` | NoaPlayKit/Tests/MemoryCardsTests/CardBoardDefaultModeTests.swift:64-72 | A tick, then the last match: every card is paired, completion is scheduled, and one second more has passed. |
| `BoardScenarios.SecondPairCompletes` | NoaPlayKit/Tests/MemoryCardsTests/CardBoardDefaultModeTests.swift:64-76 | After the last match, completion shows the summary with the level, the difficulty and one second more. |
| `BoardScenarios.CompleteLevel` | NoaPlayKit/Tests/MemoryCardsTests/CardBoardDefaultModeTests.swift:15-77 | The straight play ends with the summary for level one, easy, two seconds. |
| `BoardScenarios.MismatchShown` | NoaPlayKit/Tests/MemoryCardsTests/CardBoardDefaultModeTests.swift:107-110 | Card 2 does not match card 0: both stay face up and tracked, and their turn-back is scheduled. |
| `BoardScenarios.MismatchTurnedBack` | NoaPlayKit/Tests/MemoryCardsTests/CardBoardDefaultModeTests.swift:112-125 | After two ticks and the turn-back, both cards are face down again, the tracker is empty, and three seconds have passed. |
| `BoardScenarios.FirstCardTappedAgain` | NoaPlayKit/Tests/MemoryCardsTests/CardBoardDefaultModeTests.swift:127-130 | Card 0 is flipped and tracked again. |
| `BoardScenarios.SecondMismatch` | NoaPlayKit/Tests/MemoryCardsTests/CardBoardDefaultModeTests.swift:132-135 | Card 3 does not match card 0: both stay tracked and the turn-back is scheduled. |
| `BoardScenarios.MismatchInterrupted` | NoaPlayKit/Tests/MemoryCardsTests/CardBoardDefaultModeTests.swift:137-141 | A tap on card 1 turns the pair back and empties the tracker. Card 1 stays face down, and its flip is scheduled while the turn-back is cancelled. |
| `BoardScenarios.DelayedFlip` | NoaPlayKit/Tests/MemoryCardsTests/CardBoardDefaultModeTests.swift:143-148 | The delayed flip turns card 1 face up and tracks it. |
| `BoardScenarios.DelayedFlipMatched` | NoaPlayKit/Tests/MemoryCardsTests/CardBoardDefaultModeTests.swift:150-159 | Card 0 matches card 1 and both become paired. |
| `BoardScenarios.CompleteLevelFailureSteps` | NoaPlayKit/Tests/MemoryCardsTests/CardBoardDefaultModeTests.swift:79-184 | The play with mismatches ends with the summary for level one, easy, four seconds. |
| `Game.Push` | NoaPlayKit/Sources/MemoryCards/Game.swift:55-57 | Pushing a valid board that shares nothing with the stack keeps the stack sound. |
| `Game.Navigation.constructor` | NoaPlayKit/Sources/MemoryCards/Game.swift:20-26 | The flow starts with the given options and an empty stack. |
| `Game.Navigation.StartGame` | NoaPlayKit/Sources/MemoryCards/Game.swift:54-58 | Exactly one new board is pushed and the boards below are kept. It has the chosen mode, style and difficulty, the difficulty's first level and that level's deal. It is unstarted, with no time, no summary and nothing tracked. |
| `Game.Navigation.FinishGame` | NoaPlayKit/Sources/MemoryCards/Game.swift:59-61 | The whole stack is emptied. |
| `Game.Navigation.ReduceElement` | NoaPlayKit/Sources/MemoryCards/Game.swift:68-70 | The board at `id` steps exactly as `CardBoard.Board.Reduce` specifies (`Reduced`). The effects are that board's effects, lifted one for one and addressed to the same position. The stack is unchanged, and an id with no board does nothing. |
| `Game.Navigation.Reduce` | NoaPlayKit/Sources/MemoryCards/Game.swift:48-71 | Start pushes exactly one fresh board with the chosen mode, style and difficulty, at the difficulty's first level with that level's deal, unstarted and with nothing tracked, and returns no effect. Finish empties the stack and returns no effect. An option action runs the options reducer: the tapped mode or style is selected, and only the start button returns the start request, lifted. A board action makes the addressed board step as its reducer specifies and returns its effects lifted; no other board can change. Option and board actions leave the stack as it is, and only option actions change the selection. |
| `GameOptions.Options.constructor` | NoaPlayKit/Sources/MemoryCards/GameOptions.swift:25-35 | The selection defaults to practice mode with numbers. |
| `GameOptions.Options.StartRequest` | NoaPlayKit/Sources/MemoryCards/GameOptions.swift:63-66 | An immediate, uncancellable request to start with the selected mode and style. |
| `GameOptions.Options.Reduce` | NoaPlayKit/Sources/MemoryCards/GameOptions.swift:48-69 | Each tap selects what was tapped and leaves the other choice alone; re-selecting is a no-op. Only the start button has an effect, the start request. |
| `GameModeSection.Section.constructor` | NoaPlayKit/Sources/MemoryCards/GameModeOption.swift:20-30 | The title, height and listed modes are fixed; the height defaults to 140. |
| `GameModeSection.Section.Reduce` | NoaPlayKit/Sources/MemoryCards/GameModeOption.swift:37-47 | The tapped mode is selected, listed or not. Re-selecting changes nothing, and there is no effect. |
| `GameStyleSection.Section.constructor` | NoaPlayKit/Sources/MemoryCards/GameStyleOption.swift:20-30 | The title, height and listed styles are fixed; the height defaults to 140. |
| `GameStyleSection.Section.Reduce` | NoaPlayKit/Sources/MemoryCards/GameStyleOption.swift:37-47 | The tapped style is selected, listed or not. Re-selecting changes nothing, and there is no effect. |
| `GameDifficultySection.Section.constructor` | NoaPlayKit/Sources/MemoryCards/GameDifficultyOption.swift:20-30 | The title, height and listed difficulties are fixed; the height defaults to 140. |
| `GameDifficultySection.Section.Reduce` | NoaPlayKit/Sources/MemoryCards/GameDifficultyOption.swift:37-47 | The tapped difficulty is selected, listed or not. Re-selecting changes nothing, and there is no effect. |

## Left out

- SwiftUI views, animations, colours and themes are not modelled. A level keeps only its theme key, and a card does not carry its level's colours.
- The effect runtime is not modelled: the clock, sleeping, cancel-in-flight and the running of effects. Effects are returned as values; the 0.3 s, 0.5 s, 2 s and 0.4 s delays and the 1 s tick are constants in milliseconds.
- `._printChanges()` (debug logging) is left out.
- Durations are whole seconds, which is all the reducers ever add.
- The formatter is an arbitrary function parameter; its output format is not modelled.
- The live shuffle is modelled as a swap-based shuffle driven by explicit draws. Any permutation the platform shuffle returns is one such shuffle for some draws, but its random distribution is not modelled.
- UUIDs are consecutive natural numbers from a counter object, as with the tests' incrementing generator.
- `IdentifiedArrayOf(uniqueElements:)` traps on duplicate ids. The model instead carries distinct ids as a type invariant (`Utils.Cards`), which the counter guarantees.
- The TCA stack actions that push and pop through the navigation view are not modelled. Stack element ids are modelled as positions on the stack.
- The automatic cancellation of a popped element's effects and `ifLet`'s cancellation on dismiss are not modelled.
- The summary's own reducer runs only while a summary is shown. Framework warnings for actions sent to an absent child are left out.
- The difficulty enum in `Models.swift` lists only easy and medium, but the generator switches on a third case, hard. The model includes `Hard`.
- The options' start request carries a mode and a style, but the flow matches a start action with a difficulty too. The model gives the flow its own `Game.Action.StartGame(mode, style, difficulty)`. An options delegate action itself pushes nothing.
- The board declares no delegate action, but the flow matches a board's finish request. The model gives the flow an explicit `BoardFinishGame` action. The board does not run it.
- `CardBoard.Board.FinishGame`: follows the board code, which only drops the summary. The integration test also expects the time and the started flag to be reset.
- The live and mock generators' `initialLevel` and `nextLevel` tables are textually identical, so the model has one definition of each.
- Level sizes follow the data tables in `MemoryCardGeneratorData.swift`: level k deals 4k cards.
- Two cards match when their face texts are equal (`CardBoard.SameFace`), as the board code decides, not when the card values are equal.
- `CardBoard.Board.FlipCard`: like the code, the delayed flip does not check for a match. A card flipped by a delayed flip after another card was tapped during the settle delay can sit in the tracker's second slot with no match or turn-back scheduled. The next tap then turns that pair back.
- `Game.Navigation.StartGame`: the flow calls `difficulty.initialLevel()`, which the generator interface (`MemoryCardsGenerator.swift:10-13`) does not declare. The model assumes it is the generator's initial level for the difficulty (`CardsGenerator.InitialLevel`).
- `Utils.DealLevel`: the deal calls a card initialiser with the level's colours, which `Card.swift:20-24` does not declare. The model assumes the colours are only passed through to the view and deals with the declared initialiser.
- The debug-only `Card.State` initialiser that takes an explicit id is not modelled separately. The scenarios build their cards through the normal deal.
