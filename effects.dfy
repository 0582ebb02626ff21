/**
 * Effects a reducer returns instead of running them. The effect runtime
 * (sleeping on a clock, repeating timers, cancellation in flight) belongs to
 * the reducer framework; here an effect is only a value describing what will
 * be sent back to the reducer, after which delay, and under which
 * cancellation identifier. `.none` is the empty sequence and `.merge` is
 * concatenation.
 */
module Effects {
  import opened Wrappers

  /** The identifiers under which the board's effects can be cancelled. */
  datatype CancelID =
    | ShowPairMatch
    | SelectCardAfterPairUnflipped
    | UnflipPairAfterUnmatch
    | GameTimer

  datatype Effect<A> =
      /** Sleep `delayMs` milliseconds, then send `action`; when `cancelId` is
          present the effect is cancellable and cancels an earlier one in flight. */
    | Send(delayMs: nat, action: A, cancelId: Option<CancelID>)
      /** Send `action` every `intervalMs` milliseconds until cancelled. */
    | Every(intervalMs: nat, action: A, cancelId: Option<CancelID>)
      /** Cancel every effect in flight under `id`. */
    | Cancel(id: CancelID)

  /** The same effect, with the action it sends embedded into a parent action. */
  function Lift<A, B>(e: Effect<A>, embed: A -> B): Effect<B>
  {
    match e
    case Send(d, a, c) => Send(d, embed(a), c)
    case Every(d, a, c) => Every(d, embed(a), c)
    case Cancel(c) => Cancel(c)
  }

  /** A child reducer's effects as seen by its parent (`scope`, `forEach`, `ifLet`). */
  function Map<A, B>(effects: seq<Effect<A>>, embed: A -> B): (r: seq<Effect<B>>)
    ensures |r| == |effects|
    ensures forall i :: 0 <= i < |effects| ==> r[i] == Lift(effects[i], embed)
  {
    if effects == [] then [] else [Lift(effects[0], embed)] + Map(effects[1..], embed)
  }
}
