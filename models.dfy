/**
 * The game's vocabulary (modes, styles, difficulties, card faces, levels)
 * and the two-slot tracker that remembers the cards the player has turned.
 */
module Models {
  import opened Wrappers

  datatype Mode = Practice | Default

  datatype Style = Numbers | Letters | Animals

  /** `Hard` is used by the level catalog although the enum in the source lists only two cases. */
  datatype Difficulty = Easy | Medium | Hard

  /** What is printed on a card. Every case carries the text that identifies the face. */
  datatype CardStyle =
    | Number(value: string)
    | Letter(value: string)
    | Image(name: string, value: string)
  {
    /** The face as text: the carried value, for an image the value and not the name. */
    function Description(): (r: string)
      ensures r == value
      ensures Image? ==> r == value && (name != value ==> r != name)
    {
      match this
      case Number(v) => v
      case Letter(v) => v
      case Image(_, v) => v
    }
  }

  datatype LevelType = One | Two | Three | Four | Five | Six | Seven | Eight | Nine | Ten

  /**
   * A level. The colour set of the source is determined by a theme key
   * (`Colors.level("1")` ...); the model keeps that key, not the colours.
   */
  datatype Level = Level(kind: LevelType, message: string, theme: string)

  /** The position of a level type in the progression, one to ten. */
  function Ordinal(t: LevelType): (r: nat)
    ensures 1 <= r <= 10
    ensures r == 1 <==> t == One
    ensures r == 10 <==> t == Ten
  {
    match t
    case One => 1
    case Two => 2
    case Three => 3
    case Four => 4
    case Five => 5
    case Six => 6
    case Seven => 7
    case Eight => 8
    case Nine => 9
    case Ten => 10
  }

  /**
   * Holds at most two elements, filled first slot then second, and reports
   * them as a pair, or as a pair only when the injected `matching` predicate
   * holds of them.
   */
  class PairMatch<T(==)> {
    var first: Option<T>
    var second: Option<T>
    const matching: (T, T) -> bool

    /** The second slot is only ever filled after the first. */
    ghost predicate Valid()
      reads this
    {
      second.Some? ==> first.Some?
    }

    constructor (matching: (T, T) -> bool)
      ensures Valid()
      ensures first == None && second == None
      ensures this.matching == matching
    {
      this.matching := matching;
      first := None;
      second := None;
    }

    /** How many elements are held. */
    function Count(): (n: nat)
      reads this
      requires Valid()
      ensures n <= 2
      ensures n == 0 <==> first.None?
      ensures n == 2 <==> second.Some?
    {
      if first.None? then 0 else if second.None? then 1 else 2
    }

    /** Fills the first empty slot; when both are taken nothing changes. */
    method Add(element: T)
      requires Valid()
      modifies this
      ensures Valid()
      ensures old(first).None? ==> first == Some(element) && second == old(second)
      ensures old(first).Some? ==> first == old(first)
      ensures old(first).Some? && old(second).None? ==> second == Some(element)
      ensures old(second).Some? ==> second == old(second)
      ensures Count() == if old(Count()) == 2 then 2 else old(Count()) + 1
    {
      if first.None? {
        first := Some(element);
      } else if second.None? {
        second := Some(element);
      }
    }

    /** Empties both slots. */
    method Clear()
      modifies this
      ensures Valid()
      ensures first == None && second == None
      ensures CurrentPair() == None && MatchingPair() == None
    {
      first := None;
      second := None;
    }

    /** The held pair in (first, second) order, present exactly when both slots are filled. */
    function CurrentPair(): (r: Option<(T, T)>)
      reads this
      ensures r.Some? <==> first.Some? && second.Some?
      ensures r.Some? ==> r.value.0 == first.value && r.value.1 == second.value
    {
      if first.Some? && second.Some? then Some((first.value, second.value)) else None
    }

    /** The held pair, only when both slots are filled and `matching` holds of them. */
    function MatchingPair(): (r: Option<(T, T)>)
      reads this
      ensures r.Some? <==> CurrentPair().Some? && matching(first.value, second.value)
      ensures r.Some? ==> r == CurrentPair()
    {
      if first.Some? && second.Some? && matching(first.value, second.value)
      then Some((first.value, second.value))
      else None
    }

    /** Tracker equality: the two slots, never the matching predicate. */
    predicate Equals(other: PairMatch<T>)
      reads this, other
      ensures Equals(other) ==> CurrentPair() == other.CurrentPair()
      ensures Equals(other) && first.Some? && second.Some? && matching == other.matching ==>
                MatchingPair() == other.MatchingPair()
    {
      first == other.first && second == other.second
    }
  }

  /** Two trackers with the same slots are equal whatever predicates they were built with. */
  lemma EqualsIgnoresMatching<T>(a: PairMatch<T>, b: PairMatch<T>)
    requires a.first == b.first && a.second == b.second
    ensures a.Equals(b) && b.Equals(a)
  {
  }
}
