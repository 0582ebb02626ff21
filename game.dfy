/**
 * The game flow: the options screen at the root of a navigation stack whose
 * elements are card boards. Starting a game pushes a board at the first
 * level of the chosen difficulty; finishing it from a board pops everything.
 * Board actions are run by the addressed board.
 */
module Game {
  import opened Models
  import opened Effects
  import opened Dependencies
  import CardBoard
  import GameOptions
  import CardsGenerator

  datatype Action =
      /** The options' start request, with the difficulty the flow starts the game at. */
    | StartGame(mode: Mode, style: Style, difficulty: Difficulty)
    | GameOptionsAction(options: GameOptions.Action)
      /** A board on the stack asks to finish the game. */
    | BoardFinishGame(elementId: nat)
      /** An action for the board at position `elementId` of the stack. */
    | PathElement(elementId: nat, board: CardBoard.Action)

  /**
   * The boards on `path` and their trackers lie in `repr`; every board is
   * valid and uses the given collaborators, and no two boards share a board
   * or a tracker.
   */
  ghost predicate Stacked(path: seq<CardBoard.Board>, repr: set<object>, uuid: UuidGenerator,
                          cardsGenerator: CardsGenerator.Generator, formatter: Formatter)
    reads repr
  {
    && (forall i :: 0 <= i < |path| ==> path[i] in repr && path[i].flippedPairCards in repr)
    && (forall i :: 0 <= i < |path| ==>
          && path[i].Valid()
          && path[i].uuid == uuid
          && path[i].cardsGenerator == cardsGenerator
          && path[i].gameDurationFormatter == formatter)
    && (forall i, j :: 0 <= i < j < |path| ==>
          path[i] != path[j] && path[i].flippedPairCards != path[j].flippedPairCards)
  }

  /** Pushing a valid board that shares nothing with the stack keeps the stack sound. */
  lemma Push(path: seq<CardBoard.Board>, repr: set<object>, board: CardBoard.Board, uuid: UuidGenerator,
             cardsGenerator: CardsGenerator.Generator, formatter: Formatter)
    requires Stacked(path, repr, uuid, cardsGenerator, formatter)
    requires board.Valid() && board.uuid == uuid && board.cardsGenerator == cardsGenerator
    requires board.gameDurationFormatter == formatter
    requires board !in repr && board.flippedPairCards !in repr
    ensures Stacked(path + [board], repr + {board, board.flippedPairCards}, uuid, cardsGenerator, formatter)
  {
    var p := path + [board];
    forall i | 0 <= i < |p|
      ensures p[i].Valid()
    {
      if i < |path| {
        assert p[i] == path[i];
      }
    }
  }

  class Navigation {
    const gameOptions: GameOptions.Options
    /** The navigation stack, root first. */
    var path: seq<CardBoard.Board>

    // Injected collaborators, shared with every board.
    const cardsGenerator: CardsGenerator.Generator
    const uuid: UuidGenerator
    const gameDurationFormatter: Formatter

    /** The boards on the stack and their trackers. */
    ghost var Repr: set<object>

    ghost predicate Valid()
      reads this, Repr
    {
      && this !in Repr && uuid !in Repr && gameOptions !in Repr
      && Stacked(path, Repr, uuid, cardsGenerator, gameDurationFormatter)
    }

    /** The flow with the options screen alone. */
    constructor (gameOptions: GameOptions.Options, cardsGenerator: CardsGenerator.Generator,
                 uuid: UuidGenerator, gameDurationFormatter: Formatter)
      ensures Valid()
      ensures this.gameOptions == gameOptions && path == []
      ensures this.cardsGenerator == cardsGenerator && this.uuid == uuid
      ensures this.gameDurationFormatter == gameDurationFormatter
    {
      this.gameOptions := gameOptions;
      this.path := [];
      this.cardsGenerator := cardsGenerator;
      this.uuid := uuid;
      this.gameDurationFormatter := gameDurationFormatter;
      Repr := {};
    }

    /**
     * Pushes exactly one new board with the chosen options at the first
     * level of the difficulty; it is unstarted, untimed, without summary and
     * with nothing tracked. The boards below it are kept.
     */
    method StartGame(mode: Mode, style: Style, difficulty: Difficulty, rng: seq<nat>)
      returns (effects: seq<Effect<Action>>)
      requires Valid()
      modifies this`path, this`Repr, uuid
      ensures Valid()
      ensures |path| == |old(path)| + 1 && path[..|old(path)|] == old(path)
      ensures fresh(path[|old(path)|]) && fresh(path[|old(path)|].flippedPairCards)
      ensures path[|old(path)|].AtStart(mode, difficulty, style, CardsGenerator.InitialLevel(difficulty),
                                        rng, old(uuid.next))
      ensures effects == []
    {
      var board := new CardBoard.Board(mode, difficulty, style, CardsGenerator.InitialLevel(difficulty),
                                       cardsGenerator, uuid, gameDurationFormatter, rng);
      Push(path, Repr, board, uuid, cardsGenerator, gameDurationFormatter);
      path := path + [board];
      Repr := Repr + {board, board.flippedPairCards};
      effects := [];
    }

    /** A board asked to finish: the whole stack is popped. */
    method FinishGame() returns (effects: seq<Effect<Action>>)
      requires Valid()
      modifies this`path
      ensures Valid()
      ensures path == []
      ensures effects == []
    {
      path := [];
      effects := [];
    }

    /**
     * Runs the board at `id` on `action`: that board steps as its own reducer
     * says, and its effects come back addressed to the same position. The
     * stack and every other board are left alone; an id with no board does
     * nothing.
     */
    method ReduceElement(id: nat, action: CardBoard.Action, rng: seq<nat>)
      returns (effects: seq<Effect<Action>>, boardEffects: seq<Effect<CardBoard.Action>>)
      requires Valid()
      modifies if id < |path| then {path[id], path[id].flippedPairCards} else {}, uuid
      ensures Valid()
      ensures path == old(path)
      ensures id < |path| ==> path[id].Reduced(action, rng, boardEffects)
      ensures effects == Map(boardEffects, (a: CardBoard.Action) => PathElement(id, a))
      ensures id >= |path| ==> boardEffects == []
    {
      if id >= |path| {
        return [], [];
      }
      var board := path[id];
      boardEffects := board.Reduce(action, rng);
      effects := Map(boardEffects, (a: CardBoard.Action) => PathElement(id, a));
    }

    /**
     * The flow's reducer: the options screen sees option actions first, then
     * starting pushes a board, finishing empties the stack, and board actions
     * go to their board. Nothing else touches the stack, and only the
     * addressed board of a board action can change.
     */
    method Reduce(action: Action, rng: seq<nat>) returns (effects: seq<Effect<Action>>)
      requires Valid()
      modifies this`path, this`Repr, gameOptions, uuid
      modifies if action.PathElement? && action.elementId < |path|
               then {path[action.elementId], path[action.elementId].flippedPairCards} else {}
      ensures Valid()
      ensures action.StartGame? ==>
                && |path| == |old(path)| + 1 && path[..|old(path)|] == old(path)
                && fresh(path[|old(path)|]) && fresh(path[|old(path)|].flippedPairCards)
                && path[|old(path)|].AtStart(action.mode, action.difficulty, action.style,
                                             CardsGenerator.InitialLevel(action.difficulty), rng, old(uuid.next))
                && effects == []
      ensures action.BoardFinishGame? ==> path == [] && effects == []
      ensures action.GameOptionsAction? || action.PathElement? ==> path == old(path)
      ensures action.GameOptionsAction? ==>
                && gameOptions.selectedMode ==
                     (if action.options.SelectModeTapped? then action.options.mode else old(gameOptions.selectedMode))
                && gameOptions.selectedStyle ==
                     (if action.options.SelectStyleTapped? then action.options.style else old(gameOptions.selectedStyle))
                && effects == Map(if action.options.StartGameButtonTapped? then [gameOptions.StartRequest()] else [],
                                  (a: GameOptions.Action) => GameOptionsAction(a))
                && uuid.next == old(uuid.next)
      ensures action.PathElement? && action.elementId < |path| ==>
                exists boardEffects :: path[action.elementId].Reduced(action.board, rng, boardEffects) &&
                                       effects == Map(boardEffects, (a: CardBoard.Action) => PathElement(action.elementId, a))
      ensures action.PathElement? && action.elementId >= |path| ==> effects == []
      ensures !action.GameOptionsAction? ==>
                gameOptions.selectedMode == old(gameOptions.selectedMode) &&
                gameOptions.selectedStyle == old(gameOptions.selectedStyle)
    {
      match action
      case StartGame(mode, style, difficulty) =>
        effects := StartGame(mode, style, difficulty, rng);
      case GameOptionsAction(optionsAction) =>
        var optionsEffects := gameOptions.Reduce(optionsAction);
        effects := Map(optionsEffects, (a: GameOptions.Action) => GameOptionsAction(a));
      case BoardFinishGame(_) =>
        effects := FinishGame();
      case PathElement(id, boardAction) =>
        var boardEffects;
        effects, boardEffects := ReduceElement(id, boardAction, rng);
    }
  }
}
