/**
 * The end-of-level summary: what was completed, how long it took when the
 * game was timed, and the three buttons that decide what comes next.
 */
module LevelDetails {
  import opened Wrappers
  import opened Models
  import opened Effects
  import opened Dependencies
  import CardsGenerator
  import GeneratorData

  /** All fields are constants: no action ever changes a summary. */
  datatype State = State(completedLevel: Level, difficulty: Difficulty, gameDuration: Option<string>)

  /** The summary of a completed level; the duration, when given, is formatted for display. */
  function Init(completedLevel: Level, difficulty: Difficulty, gameDuration: Option<nat>,
                formatter: Formatter): (s: State)
    ensures s.completedLevel == completedLevel && s.difficulty == difficulty
    ensures s.gameDuration.Some? <==> gameDuration.Some?
    ensures gameDuration.Some? ==> s.gameDuration.value == formatter(gameDuration.value, Details)
  {
    State(completedLevel, difficulty,
          match gameDuration
          case Some(d) => Some(formatter(d, Details))
          case None => None)
  }

  datatype Delegate = LoadGameLevel(level: Level) | FinishGame

  datatype Action =
    | DelegateAction(delegate: Delegate)
    | GoToNextLevelButtonTapped
    | TryCurrentLevelButtonTapped
    | FinishGameButtonTapped

  /** An immediate `send` of a delegate action to the parent. */
  function Tell(d: Delegate): Effect<Action>
  {
    Send(0, DelegateAction(d), None)
  }

  /**
   * "Next level" asks for the level after the completed one when there is
   * one and does nothing otherwise, "try again" asks for the completed
   * level, "finish" asks to end the game; delegate actions are for the parent.
   */
  function Reduce(state: State, action: Action): (r: (State, seq<Effect<Action>>))
    ensures r.0 == state
    ensures |r.1| <= 1
    ensures r.1 != [] <==>
              || action.TryCurrentLevelButtonTapped?
              || action.FinishGameButtonTapped?
              || (action.GoToNextLevelButtonTapped? &&
                  CardsGenerator.NextLevel(state.completedLevel, state.difficulty).Some?)
    ensures action.GoToNextLevelButtonTapped? && r.1 != [] ==>
              r.1[0] == Tell(LoadGameLevel(CardsGenerator.NextLevel(state.completedLevel, state.difficulty).value))
    ensures action.TryCurrentLevelButtonTapped? ==> r.1[0] == Tell(LoadGameLevel(state.completedLevel))
    ensures action.FinishGameButtonTapped? ==> r.1[0] == Tell(FinishGame)
  {
    match action
    case DelegateAction(_) => (state, [])
    case GoToNextLevelButtonTapped =>
      (match CardsGenerator.NextLevel(state.completedLevel, state.difficulty)
       case Some(next) => (state, [Tell(LoadGameLevel(next))])
       case None => (state, []))
    case TryCurrentLevelButtonTapped => (state, [Tell(LoadGameLevel(state.completedLevel))])
    case FinishGameButtonTapped => (state, [Tell(FinishGame)])
  }

  /** From a completed level one, "next level" asks for level two under every difficulty. */
  lemma NextAfterLevelOne(difficulty: Difficulty, gameDuration: Option<string>)
    ensures Reduce(State(GeneratorData.LevelOne, difficulty, gameDuration), GoToNextLevelButtonTapped).1
            == [Tell(LoadGameLevel(GeneratorData.LevelTwo))]
  {
  }

  /** Under `Easy`, "next level" after level five asks for nothing: the game is over. */
  lemma NothingAfterEasyFive(level: Level, gameDuration: Option<string>)
    requires level.kind == Five
    ensures Reduce(State(level, Easy, gameDuration), GoToNextLevelButtonTapped).1 == []
  {
  }
}
