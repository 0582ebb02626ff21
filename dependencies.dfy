/**
 * The injected collaborators of the reducers that are not part of the game
 * logic: the card id supply and the duration formatter.
 */
module Dependencies {

  /** Card identifiers. The app draws random UUIDs; only their freshness matters. */
  type CardId = nat

  /**
   * The `uuid` dependency, as the incrementing generator the tests install:
   * each call yields the next natural number, so every id it hands out is
   * fresh.
   */
  class UuidGenerator {
    var next: CardId

    constructor ()
      ensures next == 0
    {
      next := 0;
    }

    /** Draws `count` ids in a row; they are `first`, `first + 1`, ... */
    method Take(count: nat) returns (first: CardId)
      modifies this
      ensures first == old(next) && next == old(next) + count
    {
      first := next;
      next := next + count;
    }
  }

  /** The two presentations of a game duration. */
  datatype DurationFormat = Timer | Details

  /** A duration formatter, applied to a duration in whole seconds. */
  type Formatter = (nat, DurationFormat) -> string
}
