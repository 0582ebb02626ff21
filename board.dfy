/**
 * The card board: one level in play. It guards taps, flips cards and tracks
 * the turned pair, resolves matches and mismatches through delayed actions,
 * notices when the level is complete, keeps the game clock, and reloads a
 * level when the summary asks for it.
 */
module CardBoard {
  import opened Wrappers
  import opened Models
  import opened Effects
  import opened Dependencies
  import Card
  import LevelDetails
  import CardsGenerator
  import Utils

  /** What the tracker remembers of a turned card: its id and its face as text. */
  datatype FlippedCard = FlippedCard(id: CardId, value: string)

  /** The board's matching rule: two turned cards match when their faces read the same. */
  predicate SameFace(a: FlippedCard, b: FlippedCard)
  {
    a.value == b.value
  }

  type Cards = Utils.Cards

  /** Where the card with `id` is, if anywhere. */
  function IndexOf(cards: seq<Card.State>, id: CardId): (r: Option<nat>)
    ensures r.Some? ==> r.value < |cards| && cards[r.value].id == id
    ensures r.None? <==> forall i :: 0 <= i < |cards| ==> cards[i].id != id
  {
    if cards == [] then None
    else if cards[0].id == id then Some(0)
    else
      match IndexOf(cards[1..], id)
      case Some(i) => Some(i + 1)
      case None => None
  }

  /** `cards[id: id]`: the card with that id, if present. */
  function Lookup(cards: Cards, id: CardId): (r: Option<Card.State>)
    ensures r.Some? <==> exists i :: 0 <= i < |cards| && cards[i].id == id
    ensures r.Some? ==> r.value.id == id && r.value in cards
    ensures forall i :: 0 <= i < |cards| && cards[i].id == id ==> r == Some(cards[i])
  {
    match IndexOf(cards, id)
    case Some(i) => Some(cards[i])
    case None => None
  }

  /** `cards[id: id]?.isFlipped = flag`: that card's flag set, every other card as it was. */
  function WithFlipped(cards: Cards, id: CardId, flag: bool): (r: Cards)
    ensures |r| == |cards|
    ensures forall i :: 0 <= i < |cards| ==>
              r[i] == if cards[i].id == id then cards[i].(isFlipped := flag) else cards[i]
  {
    match IndexOf(cards, id)
    case None => cards
    case Some(i) => cards[i := cards[i].(isFlipped := flag)]
  }

  /** `cards[id: id]?.isPaired = true`: that card paired, every other card as it was. */
  function WithPaired(cards: Cards, id: CardId): (r: Cards)
    ensures |r| == |cards|
    ensures forall i :: 0 <= i < |cards| ==>
              r[i] == if cards[i].id == id then cards[i].(isPaired := true) else cards[i]
  {
    match IndexOf(cards, id)
    case None => cards
    case Some(i) => cards[i := cards[i].(isPaired := true)]
  }

  /** Turns the card with `id` face down unless it is already paired. */
  function HideUnlessPaired(cards: Cards, id: CardId): (r: Cards)
    ensures |r| == |cards|
    ensures forall i :: 0 <= i < |cards| ==>
              r[i] == if cards[i].id == id && !cards[i].isPaired then cards[i].(isFlipped := false) else cards[i]
  {
    match Lookup(cards, id)
    case Some(card) => if !card.isPaired then WithFlipped(cards, id, false) else cards
    case None => cards
  }

  /** The cards still to be paired. */
  function UnpairedCards(cards: seq<Card.State>): (r: seq<Card.State>)
    ensures |r| <= |cards|
    ensures forall c :: c in r ==> c in cards && !c.isPaired
    ensures forall c :: c in cards && !c.isPaired ==> c in r
  {
    if cards == [] then []
    else (if cards[0].isPaired then [] else [cards[0]]) + UnpairedCards(cards[1..])
  }

  predicate AllPaired(cards: seq<Card.State>)
  {
    forall i :: 0 <= i < |cards| ==> cards[i].isPaired
  }

  /** No unpaired card remains exactly when every card is paired. */
  lemma NoUnpairedIffAllPaired(cards: seq<Card.State>)
    ensures UnpairedCards(cards) == [] <==> AllPaired(cards)
  {
    if UnpairedCards(cards) == [] {
      forall i | 0 <= i < |cards|
        ensures cards[i].isPaired
      {
        assert cards[i] in cards;
      }
    } else {
      var c := UnpairedCards(cards)[0];
      assert c in UnpairedCards(cards);
    }
  }

  /**
   * `after` is `before` with only flags changed, and no paired card
   * unpaired: the same cards in the same order with the same ids and faces.
   */
  ghost predicate SameDeck(before: seq<Card.State>, after: seq<Card.State>)
  {
    && |after| == |before|
    && forall i :: 0 <= i < |before| ==>
         && after[i].id == before[i].id
         && after[i].style == before[i].style
         && (before[i].isPaired ==> after[i].isPaired)
  }

  datatype Action =
    | CardAction(id: CardId, action: Card.Action)
    | ShowLevelDetails(details: LevelDetails.Action)
    | FlipCard(id: CardId, value: string)
    | UnflippedPair(id1: CardId, id2: CardId)
    | ShowMatch(id1: CardId, id2: CardId)
    | CompleteLevel(level: Level)
    | TimerTicked

  /** The delays of the board's effects, in milliseconds. */
  const SettleDelay: nat := 300
  const MatchDelay: nat := 500
  const MismatchDelay: nat := 2000
  const CompleteDelay: nat := 400
  const TickInterval: nat := 1000

  /**
   * What a tap on the card with `id` does to the cards, to the tracker's two
   * slots and which effects it returns, when the tracker was valid before.
   * - Unknown, face-up or paired card: nothing at all.
   * - A pair still showing: the tracker is emptied, the pair turned back
   *   (paired cards excepted), the tapped card stays face down and is flipped
   *   after the settle delay; the pending mismatch turn-back is cancelled.
   * - Otherwise the card is flipped and tracked; a second card with the same
   *   face empties the tracker and schedules the match, a second card with
   *   another face schedules turning the pair back.
   */
  ghost predicate TapOutcome(
    cards: Cards, first: Option<FlippedCard>, second: Option<FlippedCard>, id: CardId,
    cards': Cards, first': Option<FlippedCard>, second': Option<FlippedCard>, effects: seq<Effect<Action>>)
  {
    match Lookup(cards, id)
    case None => cards' == cards && first' == first && second' == second && effects == []
    case Some(card) =>
      if card.isFlipped || card.isPaired then
        cards' == cards && first' == first && second' == second && effects == []
      else if first.Some? && second.Some? then
        && first' == None && second' == None
        && cards' == HideUnlessPaired(HideUnlessPaired(cards, first.value.id), second.value.id)
        && effects == [Send(SettleDelay, Action.FlipCard(id, card.style.Description()), Some(SelectCardAfterPairUnflipped)),
                       Cancel(UnflipPairAfterUnmatch)]
      else
        var picked := FlippedCard(id, card.style.Description());
        && cards' == WithFlipped(cards, id, true)
        && if first.None? then
             first' == Some(picked) && second' == second && effects == []
           else if SameFace(first.value, picked) then
             first' == None && second' == None &&
             effects == [Send(MatchDelay, Action.ShowMatch(first.value.id, id), Some(ShowPairMatch))]
           else
             first' == first && second' == Some(picked) &&
             effects == [Send(MismatchDelay, Action.UnflippedPair(first.value.id, id), Some(UnflipPairAfterUnmatch))]
  }

  /** A tap changes flags only, pairs nothing, and turns face up at most the tapped card. */
  lemma TapKeepsDeck(
    cards: Cards, first: Option<FlippedCard>, second: Option<FlippedCard>, id: CardId,
    cards': Cards, first': Option<FlippedCard>, second': Option<FlippedCard>, effects: seq<Effect<Action>>)
    requires TapOutcome(cards, first, second, id, cards', first', second', effects)
    ensures SameDeck(cards, cards')
    ensures forall i :: 0 <= i < |cards| ==> cards'[i].isPaired == cards[i].isPaired
    ensures forall i :: 0 <= i < |cards| && cards'[i].isFlipped && !cards[i].isFlipped ==> cards[i].id == id
    ensures |effects| <= 2
  {
    match Lookup(cards, id)
    case None =>
    case Some(card) =>
      if !card.isFlipped && !card.isPaired {
        if first.Some? && second.Some? {
          var hidden := HideUnlessPaired(cards, first.value.id);
          assert forall i :: 0 <= i < |cards| ==>
                   hidden[i].id == cards[i].id && hidden[i].style == cards[i].style &&
                   hidden[i].isPaired == cards[i].isPaired && (hidden[i].isFlipped ==> cards[i].isFlipped);
        }
      }
  }

  /**
   * A tap on a face-down, unpaired card of the board leaves the tracker
   * either empty, or holding the tapped card alone, or holding two cards
   * with different faces.
   */
  lemma TapLeavesNoMatchTracked(
    cards: Cards, first: Option<FlippedCard>, second: Option<FlippedCard>, id: CardId,
    cards': Cards, first': Option<FlippedCard>, second': Option<FlippedCard>, effects: seq<Effect<Action>>)
    requires second.Some? ==> first.Some?
    requires Lookup(cards, id).Some? && !Lookup(cards, id).value.isFlipped && !Lookup(cards, id).value.isPaired
    requires TapOutcome(cards, first, second, id, cards', first', second', effects)
    ensures second'.Some? ==> first'.Some? && !SameFace(first'.value, second'.value)
    ensures first'.Some? && second'.None? ==> first'.value.id == id
  {
  }

  class Board {
    const mode: Mode
    const difficulty: Difficulty
    const style: Style
    var level: Level

    /** Elapsed time in whole seconds. */
    var gameDuration: nat
    var didStartGame: bool

    const showTimer: bool

    var cards: Cards

    /** The summary, present once the level is complete. */
    var showLevelDetails: Option<LevelDetails.State>

    const flippedPairCards: PairMatch<FlippedCard>

    // Injected collaborators.
    const cardsGenerator: CardsGenerator.Generator
    const uuid: UuidGenerator
    const gameDurationFormatter: Formatter

    ghost predicate Valid()
      reads this, flippedPairCards
    {
      && flippedPairCards.Valid()
      && flippedPairCards.matching == SameFace
    }

    /**
     * The board as a level starts: the given options and level, the level's
     * cards dealt from `firstId`, no time, not started, no summary and
     * nothing tracked.
     */
    ghost predicate AtStart(mode: Mode, difficulty: Difficulty, style: Style, level: Level,
                            rng: seq<nat>, firstId: CardId)
      reads this, flippedPairCards
    {
      && this.mode == mode && this.difficulty == difficulty && this.style == style
      && showTimer == (mode == Default)
      && this.level == level
      && cards == Utils.AvailableCards(level, style, cardsGenerator, rng, firstId)
      && gameDuration == 0 && !didStartGame && showLevelDetails == None
      && flippedPairCards.first == None && flippedPairCards.second == None
    }

    /** A board at the start of `level`, dealt with ids drawn from `uuid`. */
    constructor (mode: Mode, difficulty: Difficulty, style: Style, level: Level,
                 cardsGenerator: CardsGenerator.Generator, uuid: UuidGenerator,
                 gameDurationFormatter: Formatter, rng: seq<nat>)
      modifies uuid
      ensures Valid() && fresh(flippedPairCards)
      ensures this.cardsGenerator == cardsGenerator && this.uuid == uuid
      ensures this.gameDurationFormatter == gameDurationFormatter
      ensures AtStart(mode, difficulty, style, level, rng, old(uuid.next))
      ensures uuid.next == old(uuid.next) + |cards|
    {
      this.mode := mode;
      this.difficulty := difficulty;
      this.style := style;
      this.showTimer := mode == Default;
      this.level := level;
      this.cardsGenerator := cardsGenerator;
      this.uuid := uuid;
      this.gameDurationFormatter := gameDurationFormatter;
      var dealt := Utils.DealLevel(level, style, cardsGenerator, uuid, rng);
      this.cards := dealt;
      this.gameDuration := 0;
      this.didStartGame := false;
      this.showLevelDetails := None;
      this.flippedPairCards := new PairMatch(SameFace);
    }

    /** Re-deals the cards for `level` and empties the tracker. */
    method Reset(level: Level, rng: seq<nat>)
      requires Valid()
      modifies this`level, this`cards, flippedPairCards, uuid
      ensures Valid()
      ensures this.level == level
      ensures cards == Utils.AvailableCards(level, style, cardsGenerator, rng, old(uuid.next))
      ensures uuid.next == old(uuid.next) + |cards|
      ensures flippedPairCards.first == None && flippedPairCards.second == None
    {
      this.level := level;
      cards := Utils.DealLevel(level, style, cardsGenerator, uuid, rng);
      flippedPairCards.Clear();
    }

    /** The cards' own request to flip one of them. */
    method ReduceDelegateAction(action: Card.Delegate) returns (effects: seq<Effect<Action>>)
      requires Valid()
      modifies this`cards, flippedPairCards
      ensures Valid()
      ensures TapOutcome(old(cards), old(flippedPairCards.first), old(flippedPairCards.second), action.id,
                         cards, flippedPairCards.first, flippedPairCards.second, effects)
    {
      var id := action.id;
      var found := Lookup(cards, id);
      if found.None? || found.value.isFlipped || found.value.isPaired {
        return [];
      }
      var card := found.value;

      var currentPair := flippedPairCards.CurrentPair();
      if currentPair.Some? {
        var (f, s) := currentPair.value;
        flippedPairCards.Clear();
        var firstCard := Lookup(cards, f.id);
        if firstCard.Some? && !firstCard.value.isPaired {
          cards := WithFlipped(cards, f.id, false);
        }
        var secondCard := Lookup(cards, s.id);
        if secondCard.Some? && !secondCard.value.isPaired {
          cards := WithFlipped(cards, s.id, false);
        }
        return [Send(SettleDelay, Action.FlipCard(card.id, card.style.Description()), Some(SelectCardAfterPairUnflipped)),
                Cancel(UnflipPairAfterUnmatch)];
      }

      cards := WithFlipped(cards, id, true);
      flippedPairCards.Add(FlippedCard(card.id, card.style.Description()));

      var pairMatch := flippedPairCards.MatchingPair();
      if pairMatch.Some? {
        flippedPairCards.Clear();
        effects := [Send(MatchDelay, Action.ShowMatch(pairMatch.value.0.id, pairMatch.value.1.id), Some(ShowPairMatch))];
      } else {
        var pair := flippedPairCards.CurrentPair();
        if pair.Some? {
          effects := [Send(MismatchDelay, Action.UnflippedPair(pair.value.0.id, pair.value.1.id), Some(UnflipPairAfterUnmatch))];
        } else {
          effects := [];
        }
      }
    }

    /**
     * A tap forwarded by a card. The first one of the level, whether or not
     * it flips anything, starts the game, and in default mode also the
     * repeating one-second timer.
     */
    method CardDelegate(action: Card.Delegate) returns (effects: seq<Effect<Action>>)
      requires Valid()
      modifies this`cards, this`didStartGame, flippedPairCards
      ensures Valid()
      ensures didStartGame
      ensures var timer := StartedTimer(old(didStartGame));
              && |timer| <= |effects|
              && effects[|effects| - |timer|..] == timer
              && TapOutcome(old(cards), old(flippedPairCards.first), old(flippedPairCards.second), action.id,
                            cards, flippedPairCards.first, flippedPairCards.second,
                            effects[..|effects| - |timer|])
    {
      var delegateEffect := ReduceDelegateAction(action);
      if didStartGame {
        return delegateEffect;
      }
      didStartGame := true;
      if mode != Default {
        return delegateEffect;
      }
      effects := delegateEffect + [Every(TickInterval, Action.TimerTicked, Some(GameTimer))];
    }

    /** The timer a tap starts: only the first tap of a level, only in default mode. */
    function StartedTimer(wasStarted: bool): (r: seq<Effect<Action>>)
      ensures r != [] <==> !wasStarted && mode == Default
    {
      if !wasStarted && mode == Default then [Every(TickInterval, Action.TimerTicked, Some(GameTimer))] else []
    }

    /** The delayed flip after an interrupted pair: track the card and turn it face up. */
    method FlipCard(id: CardId, value: string) returns (effects: seq<Effect<Action>>)
      requires Valid()
      modifies this`cards, flippedPairCards
      ensures Valid()
      ensures var picked := FlippedCard(id, value);
              && (old(flippedPairCards.first).None? ==> flippedPairCards.first == Some(picked))
              && (old(flippedPairCards.first).Some? ==> flippedPairCards.first == old(flippedPairCards.first))
              && flippedPairCards.second ==
                   if old(flippedPairCards.first).Some? && old(flippedPairCards.second).None? then Some(picked)
                   else old(flippedPairCards.second)
      ensures cards == WithFlipped(old(cards), id, true)
      ensures SameDeck(old(cards), cards)
      ensures effects == []
    {
      flippedPairCards.Add(FlippedCard(id, value));
      cards := WithFlipped(cards, id, true);
      effects := [];
    }

    /**
     * The delayed confirmation of a match: both cards become paired, and when
     * no unpaired card is left the level completes after a short delay.
     */
    method ShowMatch(id1: CardId, id2: CardId) returns (effects: seq<Effect<Action>>)
      modifies this`cards
      ensures cards == WithPaired(WithPaired(old(cards), id1), id2)
      ensures SameDeck(old(cards), cards)
      ensures effects == if AllPaired(cards) then [Send(CompleteDelay, Action.CompleteLevel(level), None)] else []
    {
      cards := WithPaired(cards, id1);
      cards := WithPaired(cards, id2);
      NoUnpairedIffAllPaired(cards);
      if UnpairedCards(cards) == [] {
        return [Send(CompleteDelay, Action.CompleteLevel(level), None)];
      }
      return [];
    }

    /** The delayed end of a mismatch: the tracker is emptied and both cards turned face down. */
    method UnflippedPair(id1: CardId, id2: CardId) returns (effects: seq<Effect<Action>>)
      modifies this`cards, flippedPairCards
      ensures flippedPairCards.Valid()
      ensures flippedPairCards.first == None && flippedPairCards.second == None
      ensures cards == WithFlipped(WithFlipped(old(cards), id1, false), id2, false)
      ensures SameDeck(old(cards), cards)
      ensures effects == []
    {
      flippedPairCards.Clear();
      cards := WithFlipped(cards, id1, false);
      cards := WithFlipped(cards, id2, false);
      effects := [];
    }

    /** The summary asks for a level: back to a fresh, unstarted board at that level. */
    method LoadGameLevel(newLevel: Level, rng: seq<nat>) returns (effects: seq<Effect<Action>>)
      requires Valid()
      modifies this`showLevelDetails, this`gameDuration, this`didStartGame, this`level, this`cards,
               flippedPairCards, uuid
      ensures Valid()
      ensures showLevelDetails == None && gameDuration == 0 && !didStartGame
      ensures level == newLevel
      ensures cards == Utils.AvailableCards(newLevel, style, cardsGenerator, rng, old(uuid.next))
      ensures uuid.next == old(uuid.next) + |cards|
      ensures flippedPairCards.first == None && flippedPairCards.second == None
      ensures effects == []
    {
      showLevelDetails := None;
      gameDuration := 0;
      didStartGame := false;
      Reset(newLevel, rng);
      effects := [];
    }

    /** The summary asks to finish: the board only drops the summary. */
    method FinishGame() returns (effects: seq<Effect<Action>>)
      modifies this`showLevelDetails
      ensures showLevelDetails == None
      ensures effects == []
    {
      showLevelDetails := None;
      effects := [];
    }

    /**
     * The level is complete: the summary appears, with the elapsed time in
     * default mode and none in practice mode, and the timer is cancelled.
     */
    method CompleteLevel(completed: Level) returns (effects: seq<Effect<Action>>)
      modifies this`showLevelDetails
      ensures showLevelDetails.Some?
      ensures showLevelDetails.value ==
                LevelDetails.Init(completed, difficulty,
                                  if mode == Default then Some(gameDuration) else None,
                                  gameDurationFormatter)
      ensures showLevelDetails.value.gameDuration.Some? <==> mode == Default
      ensures effects == [Cancel(GameTimer)]
    {
      showLevelDetails := Some(LevelDetails.Init(completed, difficulty,
                                                 if mode == Default then Some(gameDuration) else None,
                                                 gameDurationFormatter));
      effects := [Cancel(GameTimer)];
    }

    /** One second passes: it counts only once the game has started and while no summary shows. */
    method TimerTicked() returns (effects: seq<Effect<Action>>)
      modifies this`gameDuration
      ensures gameDuration == old(gameDuration) + (if showLevelDetails.None? && didStartGame then 1 else 0)
      ensures effects == []
    {
      if showLevelDetails.None? && didStartGame {
        gameDuration := gameDuration + 1;
      }
      effects := [];
    }

    /**
     * What one action does to the board, between the state before (`old`)
     * and after, and which effects it returns:
     * - a card's tap request: the game is started, the tap's outcome is as
     *   `TapOutcome` says, followed by the timer when it is the first tap;
     * - a card tapped: the addressed card, if present, asks at once to be
     *   flipped, by its own id; nothing changes;
     * - the summary asks for a level: that level is dealt afresh, the clock
     *   is back to zero and unstarted, the summary and the tracker are gone;
     * - the summary asks to finish: the summary is gone;
     * - any other summary action: run by the summary, if one shows;
     * - the delayed flip: the card is turned face up and goes into the
     *   tracker's first free slot;
     * - the end of a mismatch: the tracker is emptied and both cards are
     *   turned face down;
     * - a match: both cards are paired, and completion of the current level
     *   is scheduled exactly when every card is paired;
     * - completion: the summary for that level, timed in default mode only,
     *   and the timer is cancelled;
     * - a tick: one second more once started and while no summary shows.
     */
    twostate predicate Reduced(action: Action, rng: seq<nat>, new effects: seq<Effect<Action>>)
      reads this, flippedPairCards, uuid
    {
      var first := flippedPairCards.first;
      var second := flippedPairCards.second;
      var keepsCards := cards == old(cards);
      var keepsTracker := first == old(flippedPairCards.first) && second == old(flippedPairCards.second);
      var keepsClock := gameDuration == old(gameDuration) && didStartGame == old(didStartGame);
      var keepsSummary := showLevelDetails == old(showLevelDetails);
      var keepsLevel := level == old(level) && uuid.next == old(uuid.next);
      if action.CardAction? then
        var id := action.id;
        if action.action.DelegateAction? then
          var timer := StartedTimer(old(didStartGame));
          && didStartGame && gameDuration == old(gameDuration) && keepsSummary && keepsLevel
          && |timer| <= |effects| && effects[|effects| - |timer|..] == timer
          && TapOutcome(old(cards), old(flippedPairCards.first), old(flippedPairCards.second),
                        action.action.delegate.id, cards, first, second, effects[..|effects| - |timer|])
        else
          && keepsCards && keepsTracker && keepsClock && keepsSummary && keepsLevel
          && effects == if Lookup(cards, id).Some?
                        then [Send(0, CardAction(id, Card.DelegateAction(Card.AttemptToFlipCard(id))), None)]
                        else []
      else if action.ShowLevelDetails? then
        var detailsAction := action.details;
        if IsReload(action) then
          && level == detailsAction.delegate.level
          && cards == Utils.AvailableCards(level, style, cardsGenerator, rng, old(uuid.next))
          && uuid.next == old(uuid.next) + |cards|
          && gameDuration == 0 && !didStartGame && showLevelDetails == None
          && first == None && second == None
          && effects == []
        else if detailsAction.DelegateAction? then
          && showLevelDetails == None
          && keepsCards && keepsTracker && keepsClock && keepsLevel
          && effects == []
        else
          && keepsCards && keepsTracker && keepsClock && keepsSummary && keepsLevel
          && effects == match old(showLevelDetails)
                        case Some(details) =>
                          Map(LevelDetails.Reduce(details, detailsAction).1,
                              (a: LevelDetails.Action) => ShowLevelDetails(a))
                        case None => []
      else if action.FlipCard? then
        var picked := FlippedCard(action.id, action.value);
        && cards == WithFlipped(old(cards), action.id, true)
        && first == (if old(flippedPairCards.first).None? then Some(picked) else old(flippedPairCards.first))
        && second == (if old(flippedPairCards.first).Some? && old(flippedPairCards.second).None? then Some(picked)
                      else old(flippedPairCards.second))
        && keepsClock && keepsSummary && keepsLevel
        && effects == []
      else if action.UnflippedPair? then
        && cards == WithFlipped(WithFlipped(old(cards), action.id1, false), action.id2, false)
        && first == None && second == None
        && keepsClock && keepsSummary && keepsLevel
        && effects == []
      else if action.ShowMatch? then
        && cards == WithPaired(WithPaired(old(cards), action.id1), action.id2)
        && keepsTracker && keepsClock && keepsSummary && keepsLevel
        && effects == if AllPaired(cards) then [Send(CompleteDelay, Action.CompleteLevel(level), None)] else []
      else if action.CompleteLevel? then
        && showLevelDetails == Some(LevelDetails.Init(action.level, difficulty,
                                                      if mode == Default then Some(gameDuration) else None,
                                                      gameDurationFormatter))
        && keepsCards && keepsTracker && keepsClock && keepsLevel
        && effects == [Cancel(GameTimer)]
      else
        && gameDuration == old(gameDuration) + (if old(showLevelDetails).None? && old(didStartGame) then 1 else 0)
        && keepsCards && keepsTracker && didStartGame == old(didStartGame) && keepsSummary && keepsLevel
        && effects == []
    }

    /** The card actions: a tap request is the board's to handle, a tap is the card's. */
    method ReduceCard(id: CardId, cardAction: Card.Action) returns (effects: seq<Effect<Action>>)
      requires Valid()
      modifies this`cards, this`didStartGame, flippedPairCards
      ensures Valid()
      ensures Reduced(CardAction(id, cardAction), [], effects)
      ensures SameDeck(old(cards), cards)
    {
      match cardAction
      case DelegateAction(d) =>
        effects := CardDelegate(d);
        TapKeepsDeck(old(cards), old(flippedPairCards.first), old(flippedPairCards.second), d.id,
                     cards, flippedPairCards.first, flippedPairCards.second,
                     effects[..|effects| - |StartedTimer(old(didStartGame))|]);
      case FlippedCardTapped =>
        match Lookup(cards, id) {
        case Some(card) =>
          var (_, cardEffects) := Card.Reduce(card, cardAction);
          effects := Map(cardEffects, (a: Card.Action) => CardAction(id, a));
        case None =>
          effects := [];
        }
    }

    /** The summary's actions: its requests are the board's, its buttons the summary's own. */
    method ReduceDetails(detailsAction: LevelDetails.Action, rng: seq<nat>) returns (effects: seq<Effect<Action>>)
      requires Valid()
      modifies this`showLevelDetails, this`gameDuration, this`didStartGame, this`level, this`cards,
               flippedPairCards, uuid
      ensures Valid()
      ensures Reduced(ShowLevelDetails(detailsAction), rng, effects)
    {
      match detailsAction
      case DelegateAction(LoadGameLevel(newLevel)) =>
        effects := LoadGameLevel(newLevel, rng);
      case DelegateAction(FinishGame) =>
        effects := FinishGame();
      case _ =>
        match showLevelDetails {
        case Some(details) =>
          var (_, detailsEffects) := LevelDetails.Reduce(details, detailsAction);
          effects := Map(detailsEffects, (a: LevelDetails.Action) => ShowLevelDetails(a));
        case None =>
          effects := [];
        }
    }

    /**
     * The board's reducer, with the card reducer run on the addressed card
     * and the summary's reducer run on the summary when one is showing.
     * `rng` is the randomness a reload's shuffle draws.
     */
    method Reduce(action: Action, rng: seq<nat>) returns (effects: seq<Effect<Action>>)
      requires Valid()
      modifies this, flippedPairCards, uuid
      ensures Valid()
      ensures Reduced(action, rng, effects)
      ensures !IsReload(action) ==> SameDeck(old(cards), cards) && level == old(level) && uuid.next == old(uuid.next)
      ensures !IsReload(action) && !action.TimerTicked? ==> gameDuration == old(gameDuration)
      ensures action.TimerTicked? ==>
                gameDuration == old(gameDuration) + if old(showLevelDetails).None? && old(didStartGame) then 1 else 0
      ensures old(didStartGame) && !IsReload(action) ==> didStartGame
      ensures !action.ShowLevelDetails? && !action.CompleteLevel? ==> showLevelDetails == old(showLevelDetails)
      ensures !IsReload(action) && !action.CardAction? && !action.FlipCard? && !action.UnflippedPair? ==>
                flippedPairCards.first == old(flippedPairCards.first) &&
                flippedPairCards.second == old(flippedPairCards.second)
    {
      match action
      case CardAction(id, cardAction) =>
        effects := ReduceCard(id, cardAction);
      case ShowLevelDetails(detailsAction) =>
        effects := ReduceDetails(detailsAction, rng);
      case FlipCard(id, value) =>
        effects := FlipCard(id, value);
      case UnflippedPair(id1, id2) =>
        effects := UnflippedPair(id1, id2);
      case ShowMatch(id1, id2) =>
        effects := ShowMatch(id1, id2);
      case CompleteLevel(completed) =>
        effects := CompleteLevel(completed);
      case TimerTicked =>
        effects := TimerTicked();
    }
  }

  /** The summary's request for a level, the only action that re-deals the cards. */
  predicate IsReload(action: Action)
  {
    action.ShowLevelDetails? && action.details.DelegateAction? && action.details.delegate.LoadGameLevel?
  }
}
