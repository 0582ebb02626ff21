/**
 * Two complete plays of level one in default mode, on an easy numbers board
 * dealt by the mock generator with ids counted from zero: cards 0 and 1
 * show "1", cards 2 and 3 show "2". The timer's ticks are interleaved where
 * the one-second interval puts them.
 */
module BoardScenarios {
  import opened Wrappers
  import opened Models
  import opened Effects
  import opened Dependencies
  import opened GeneratorData
  import opened CardBoard
  import Card
  import LevelDetails
  import CardsGenerator
  import Utils

  /** A fresh board for the plays below, with its four cards spelled out. */
  method NewLevelOneBoard(formatter: Formatter) returns (board: Board)
    ensures fresh(board) && fresh(board.flippedPairCards) && fresh(board.uuid)
    ensures board.Valid()
    ensures board.mode == Default && board.difficulty == Easy && board.level == LevelOne
    ensures board.gameDurationFormatter == formatter
    ensures board.cards == Deck(false, false, false, false, false, false, false, false)
    ensures board.gameDuration == 0 && !board.didStartGame && board.showLevelDetails == None
    ensures board.flippedPairCards.first == None && board.flippedPairCards.second == None
  {
    var uuid := new UuidGenerator();
    board := new Board(Default, Easy, Numbers, LevelOne, CardsGenerator.Mock, uuid, formatter, []);
    Utils.DealShape(Level1(Numbers), 0);
  }

  /** The four cards with the given flags, as (isFlipped, isPaired) per card. */
  function Deck(f0: bool, p0: bool, f1: bool, p1: bool, f2: bool, p2: bool, f3: bool, p3: bool): seq<Card.State>
  {
    [Card.State(0, Number("1"), f0, p0), Card.State(1, Number("1"), f1, p1),
     Card.State(2, Number("2"), f2, p2), Card.State(3, Number("2"), f3, p3)]
  }

  /** A started level-one board in default mode with these cards, this tracker and this time. */
  ghost predicate Shows(board: Board, cards: seq<Card.State>, first: Option<FlippedCard>,
                        second: Option<FlippedCard>, duration: nat)
    reads board, board.flippedPairCards
  {
    && board.Valid() && board.mode == Default && board.difficulty == Easy && board.level == LevelOne
    && board.cards == cards
    && board.flippedPairCards.first == first && board.flippedPairCards.second == second
    && board.gameDuration == duration && board.didStartGame && board.showLevelDetails == None
  }

  /** The request a card sends when tapped, as the board receives it. */
  function Tap(id: CardId): Action
  {
    CardAction(id, Card.DelegateAction(Card.AttemptToFlipCard(id)))
  }

  const Down := Deck(false, false, false, false, false, false, false, false)
  const FirstPairPaired := Deck(true, true, true, true, false, false, false, false)

  /** The first tap turns card 0 and starts the timer, which ticks once. */
  method FirstTap(board: Board)
    requires board.Valid() && board.mode == Default && board.difficulty == Easy && board.level == LevelOne
    requires board.cards == Down
    requires board.flippedPairCards.first == None && board.flippedPairCards.second == None
    requires board.gameDuration == 0 && !board.didStartGame && board.showLevelDetails == None
    modifies board, board.flippedPairCards, board.uuid
    ensures Shows(board, Deck(true, false, false, false, false, false, false, false),
                  Some(FlippedCard(0, "1")), None, 1)
  {
    var e := board.Reduce(Tap(0), []);
    assert e == [Every(TickInterval, Action.TimerTicked, Some(GameTimer))];
    e := board.Reduce(Action.TimerTicked, []);
  }

  /** Card 1 matches card 0; once the match is shown both are paired and the tracker is empty. */
  method FirstPairMatched(board: Board)
    requires Shows(board, Deck(true, false, false, false, false, false, false, false),
                   Some(FlippedCard(0, "1")), None, 1)
    modifies board, board.flippedPairCards, board.uuid
    ensures Shows(board, FirstPairPaired, None, None, 1)
  {
    var e := board.Reduce(Tap(1), []);
    assert e == [Send(MatchDelay, Action.ShowMatch(0, 1), Some(ShowPairMatch))];
    e := board.Reduce(Action.ShowMatch(0, 1), []);
    assert !board.cards[2].isPaired;
  }

  /** Card 2 is turned and tracked. */
  method ThirdCardTapped(board: Board, duration: nat)
    requires Shows(board, FirstPairPaired, None, None, duration)
    modifies board, board.flippedPairCards, board.uuid
    ensures Shows(board, Deck(true, true, true, true, true, false, false, false),
                  Some(FlippedCard(2, "2")), None, duration)
  {
    var e := board.Reduce(Tap(2), []);
  }

  /** Card 3 matches card 2: the match is scheduled and the tracker emptied. */
  method SecondPairTapped(board: Board, duration: nat)
    requires Shows(board, Deck(true, true, true, true, true, false, false, false),
                   Some(FlippedCard(2, "2")), None, duration)
    modifies board, board.flippedPairCards, board.uuid
    ensures Shows(board, Deck(true, true, true, true, true, false, true, false), None, None, duration)
  {
    var e := board.Reduce(Tap(3), []);
    assert e == [Send(MatchDelay, Action.ShowMatch(2, 3), Some(ShowPairMatch))];
  }

  /** One more tick, then the second match is shown: every card is paired and completion is scheduled. */
  method SecondPairShown(board: Board, duration: nat)
    requires Shows(board, Deck(true, true, true, true, true, false, true, false), None, None, duration)
    modifies board, board.flippedPairCards, board.uuid
    ensures Shows(board, Deck(true, true, true, true, true, true, true, true), None, None, duration + 1)
  {
    var e := board.Reduce(Action.TimerTicked, []);
    e := board.Reduce(Action.ShowMatch(2, 3), []);
    assert e == [Send(CompleteDelay, Action.CompleteLevel(LevelOne), None)];
  }

  /** The level completes after its delay: the summary reports level one, easy, and the time. */
  method SecondPairCompletes(board: Board, duration: nat) returns (summary: Option<LevelDetails.State>)
    requires Shows(board, Deck(true, true, true, true, true, false, true, false), None, None, duration)
    modifies board, board.flippedPairCards, board.uuid
    ensures summary == Some(LevelDetails.Init(LevelOne, Easy, Some(duration + 1), board.gameDurationFormatter))
  {
    SecondPairShown(board, duration);
    var e := board.Reduce(Action.CompleteLevel(LevelOne), []);
    summary := board.showLevelDetails;
  }

  /** Two matches in a row: the summary reports level one, easy, and two seconds. */
  method CompleteLevel(formatter: Formatter) returns (summary: Option<LevelDetails.State>)
    ensures summary == Some(LevelDetails.Init(LevelOne, Easy, Some(2), formatter))
  {
    var board := NewLevelOneBoard(formatter);
    FirstTap(board);
    FirstPairMatched(board);
    ThirdCardTapped(board, 1);
    SecondPairTapped(board, 1);
    summary := SecondPairCompletes(board, 1);
  }

  /** Card 2 does not match card 0: both stay turned and tracked, and the turn-back is scheduled. */
  method MismatchShown(board: Board)
    requires Shows(board, Deck(true, false, false, false, false, false, false, false),
                   Some(FlippedCard(0, "1")), None, 1)
    modifies board, board.flippedPairCards, board.uuid
    ensures Shows(board, Deck(true, false, false, false, true, false, false, false),
                  Some(FlippedCard(0, "1")), Some(FlippedCard(2, "2")), 1)
  {
    var e := board.Reduce(Tap(2), []);
    assert e == [Send(MismatchDelay, Action.UnflippedPair(0, 2), Some(UnflipPairAfterUnmatch))];
  }

  /** The mismatch is turned back after its delay, two ticks later. */
  method MismatchTurnedBack(board: Board)
    requires Shows(board, Deck(true, false, false, false, true, false, false, false),
                   Some(FlippedCard(0, "1")), Some(FlippedCard(2, "2")), 1)
    modifies board, board.flippedPairCards, board.uuid
    ensures Shows(board, Down, None, None, 3)
  {
    var e := board.Reduce(Action.TimerTicked, []);
    e := board.Reduce(Action.UnflippedPair(0, 2), []);
    e := board.Reduce(Action.TimerTicked, []);
  }

  /** Card 0 is turned again and tracked. */
  method FirstCardTappedAgain(board: Board)
    requires Shows(board, Down, None, None, 3)
    modifies board, board.flippedPairCards, board.uuid
    ensures Shows(board, Deck(true, false, false, false, false, false, false, false),
                  Some(FlippedCard(0, "1")), None, 3)
  {
    var e := board.Reduce(Tap(0), []);
  }

  /** Card 3 does not match card 0: the turn-back is scheduled. */
  method SecondMismatch(board: Board)
    requires Shows(board, Deck(true, false, false, false, false, false, false, false),
                   Some(FlippedCard(0, "1")), None, 3)
    modifies board, board.flippedPairCards, board.uuid
    ensures Shows(board, Deck(true, false, false, false, false, false, true, false),
                  Some(FlippedCard(0, "1")), Some(FlippedCard(3, "2")), 3)
  {
    var e := board.Reduce(Tap(3), []);
    assert e == [Send(MismatchDelay, Action.UnflippedPair(0, 3), Some(UnflipPairAfterUnmatch))];
  }

  /**
   * Card 1 is tapped while the mismatch still shows: the pair turns back,
   * the tracker empties, and card 1 waits face down for its delayed flip.
   */
  method MismatchInterrupted(board: Board)
    requires Shows(board, Deck(true, false, false, false, false, false, true, false),
                   Some(FlippedCard(0, "1")), Some(FlippedCard(3, "2")), 3)
    modifies board, board.flippedPairCards, board.uuid
    ensures Shows(board, Down, None, None, 3)
  {
    var e := board.Reduce(Tap(1), []);
    assert e == [Send(SettleDelay, Action.FlipCard(1, "1"), Some(SelectCardAfterPairUnflipped)),
                 Cancel(UnflipPairAfterUnmatch)];
  }

  /** The delayed flip of card 1: turned and tracked. */
  method DelayedFlip(board: Board)
    requires Shows(board, Down, None, None, 3)
    modifies board, board.flippedPairCards, board.uuid
    ensures Shows(board, Deck(false, false, true, false, false, false, false, false),
                  Some(FlippedCard(1, "1")), None, 3)
  {
    var e := board.Reduce(Action.FlipCard(1, "1"), []);
  }

  /** Card 0 matches card 1; once the match is shown both are paired. */
  method DelayedFlipMatched(board: Board)
    requires Shows(board, Deck(false, false, true, false, false, false, false, false),
                   Some(FlippedCard(1, "1")), None, 3)
    modifies board, board.flippedPairCards, board.uuid
    ensures Shows(board, FirstPairPaired, None, None, 3)
  {
    var e := board.Reduce(Tap(0), []);
    assert e == [Send(MatchDelay, Action.ShowMatch(1, 0), Some(ShowPairMatch))];
    e := board.Reduce(Action.ShowMatch(1, 0), []);
    assert !board.cards[2].isPaired;
  }

  /**
   * A mismatch turned back, a second one interrupted by a third tap whose
   * card is flipped after the settle delay, then the two matches: four seconds.
   */
  method CompleteLevelFailureSteps(formatter: Formatter) returns (summary: Option<LevelDetails.State>)
    ensures summary == Some(LevelDetails.Init(LevelOne, Easy, Some(4), formatter))
  {
    var board := NewLevelOneBoard(formatter);
    FirstTap(board);
    MismatchShown(board);
    MismatchTurnedBack(board);
    FirstCardTappedAgain(board);
    SecondMismatch(board);
    MismatchInterrupted(board);
    DelayedFlip(board);
    DelayedFlipMatched(board);
    ThirdCardTapped(board, 3);
    SecondPairTapped(board, 3);
    summary := SecondPairCompletes(board, 3);
  }
}
