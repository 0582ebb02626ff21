/**
 * Dealing a level: the generator's faces become fresh cards, in the same
 * order, each with the next id of the id supply.
 */
module Utils {
  import opened Models
  import opened Dependencies
  import CardsGenerator
  import Card

  predicate DistinctIds(cards: seq<Card.State>)
  {
    forall i, j :: 0 <= i < j < |cards| ==> cards[i].id != cards[j].id
  }

  /** An identified array of cards: deal order, each id at most once. */
  type Cards = cards: seq<Card.State> | DistinctIds(cards) witness []

  /** The faces `faces` as new cards whose ids run from `firstId` upwards. */
  function Deal(faces: seq<CardStyle>, firstId: CardId): (cards: seq<Card.State>)
    ensures |cards| == |faces|
  {
    if faces == [] then []
    else [Card.State(firstId, faces[0])] + Deal(faces[1..], firstId + 1)
  }

  /** Card i of a deal shows face i, has id firstId + i, and is face down and unpaired. */
  lemma {:induction false} DealAt(faces: seq<CardStyle>, firstId: CardId, i: nat)
    requires i < |faces|
    ensures Deal(faces, firstId)[i] == Card.State(firstId + i, faces[i], false, false)
    decreases i
  {
    if i > 0 {
      DealAt(faces[1..], firstId + 1, i - 1);
    }
  }

  /** A deal keeps the faces in order, and its ids are consecutive, hence pairwise distinct. */
  lemma DealShape(faces: seq<CardStyle>, firstId: CardId)
    ensures |Deal(faces, firstId)| == |faces|
    ensures forall i :: 0 <= i < |faces| ==>
              && Deal(faces, firstId)[i].style == faces[i]
              && Deal(faces, firstId)[i].id == firstId + i
              && !Deal(faces, firstId)[i].isFlipped
              && !Deal(faces, firstId)[i].isPaired
    ensures forall i, j :: 0 <= i < j < |faces| ==> Deal(faces, firstId)[i].id != Deal(faces, firstId)[j].id
  {
    forall i | 0 <= i < |faces|
      ensures Deal(faces, firstId)[i] == Card.State(firstId + i, faces[i], false, false)
    {
      DealAt(faces, firstId, i);
    }
  }

  /** The cards of a level: the generator's faces for it, dealt from `firstId`. */
  function AvailableCards(level: Level, style: Style, generator: CardsGenerator.Generator,
                          rng: seq<nat>, firstId: CardId): (r: seq<Card.State>)
    ensures var faces := CardsGenerator.AvailableCards(generator, level, style, rng);
            && |r| == |faces|
            && forall i :: 0 <= i < |r| ==>
                 r[i].style == faces[i] && r[i].id == firstId + i && !r[i].isFlipped && !r[i].isPaired
  {
    DealShape(CardsGenerator.AvailableCards(generator, level, style, rng), firstId);
    Deal(CardsGenerator.AvailableCards(generator, level, style, rng), firstId)
  }

  /**
   * Deals `level`: the generator's faces in its order, each card taking the
   * next id from `uuid`. The ids are fresh, so the result is an identified array.
   */
  method DealLevel(level: Level, style: Style, generator: CardsGenerator.Generator,
                   uuid: UuidGenerator, rng: seq<nat>) returns (cards: Cards)
    modifies uuid
    ensures cards == AvailableCards(level, style, generator, rng, old(uuid.next))
    ensures uuid.next == old(uuid.next) + |cards|
  {
    var faces := CardsGenerator.AvailableCards(generator, level, style, rng);
    var firstId := uuid.Take(|faces|);
    DealShape(faces, firstId);
    cards := Deal(faces, firstId);
  }
}
