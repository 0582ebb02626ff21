/**
 * One card: its identity, its face and its two flags, and the card's own
 * reducer, which turns a tap into a request to the board.
 */
module Card {
  import opened Wrappers
  import opened Models
  import opened Effects
  import opened Dependencies

  /**
   * A card. `id` and `style` never change once the card exists; a new card
   * is face down and unpaired unless told otherwise.
   */
  datatype State = State(id: CardId, style: CardStyle, isFlipped: bool := false, isPaired: bool := false)

  datatype Delegate = AttemptToFlipCard(id: CardId)

  datatype Action =
    | DelegateAction(delegate: Delegate)
    | FlippedCardTapped

  /**
   * A tap asks the board to flip this card, by the card's own id; a
   * delegate action is for the parent and does nothing here. The card state
   * is never changed.
   */
  function Reduce(state: State, action: Action): (r: (State, seq<Effect<Action>>))
    ensures r.0 == state
    ensures action.DelegateAction? ==> r.1 == []
    ensures action.FlippedCardTapped? ==>
              |r.1| == 1 && r.1[0].Send? && r.1[0].delayMs == 0 && r.1[0].cancelId == None &&
              r.1[0].action == DelegateAction(AttemptToFlipCard(state.id))
  {
    match action
    case DelegateAction(_) => (state, [])
    case FlippedCardTapped => (state, [Send(0, DelegateAction(AttemptToFlipCard(state.id)), None)])
  }
}
