/**
 * The card generator: which faces a level deals (shuffled in the live
 * generator, in table order in the mock one), the first level of each
 * difficulty, and the level that follows a completed one.
 */
module CardsGenerator {
  import opened Wrappers
  import opened Models
  import opened GeneratorData

  /** The two generators the app ships: `live` shuffles, `mock` keeps table order. */
  datatype Generator = Live | Mock

  /**
   * The shuffle of `s`, driven by the random draws `rng`: the first card is
   * swapped with the one at the drawn position, then the rest is shuffled.
   * Missing draws count as zero.
   */
  function Shuffle<T>(s: seq<T>, rng: seq<nat>): (r: seq<T>)
    ensures |r| == |s|
    decreases |s|
  {
    if |s| <= 1 then s
    else
      var j := if rng == [] then 0 else rng[0] % |s|;
      var swapped := s[0 := s[j]][j := s[0]];
      [swapped[0]] + Shuffle(swapped[1..], if rng == [] then [] else rng[1..])
  }

  /** Whatever the draws, a shuffle is a permutation: every card is kept, as often as before. */
  lemma {:induction false} ShufflePermutes<T>(s: seq<T>, rng: seq<nat>)
    ensures multiset(Shuffle(s, rng)) == multiset(s)
    decreases |s|
  {
    if |s| > 1 {
      var j := if rng == [] then 0 else rng[0] % |s|;
      var swapped := s[0 := s[j]][j := s[0]];
      SwapPreservesMultiset(s, j);
      ShufflePermutes(swapped[1..], if rng == [] then [] else rng[1..]);
      assert swapped == [swapped[0]] + swapped[1..];
    }
  }

  lemma SwapPreservesMultiset<T>(s: seq<T>, j: nat)
    requires 0 < |s| && j < |s|
    ensures multiset(s[0 := s[j]][j := s[0]]) == multiset(s)
  {
    if j != 0 {
      var t := s[0 := s[j]];
      assert multiset(t) == multiset(s) - multiset{s[0]} + multiset{s[j]};
      assert multiset(t[j := s[0]]) == multiset(t) - multiset{t[j]} + multiset{s[0]};
    }
  }

  /** The live generator's shuffle, or the mock's table order. */
  function Arrange(g: Generator, table: seq<CardStyle>, rng: seq<nat>): (r: seq<CardStyle>)
    ensures |r| == |table|
    ensures g == Mock ==> r == table
  {
    match g
    case Live => Shuffle(table, rng)
    case Mock => table
  }

  /** Either generator deals exactly the table's faces, the mock one in table order. */
  lemma ArrangePermutes(g: Generator, table: seq<CardStyle>, rng: seq<nat>)
    ensures multiset(Arrange(g, table, rng)) == multiset(table)
    ensures g == Mock ==> Arrange(g, table, rng) == table
  {
    if g == Live {
      ShufflePermutes(table, rng);
    }
  }

  /** The faces dealt for a level: the level's table for one to four, arranged by the generator; nothing above. */
  function AvailableCards(g: Generator, level: Level, style: Style, rng: seq<nat>): (r: seq<CardStyle>)
    ensures Ordinal(level.kind) <= 4 ==> r == Arrange(g, Table(Ordinal(level.kind), style), rng)
    ensures Ordinal(level.kind) >= 5 ==> r == []
  {
    match level.kind
    case One => Arrange(g, Level1(style), rng)
    case Two => Arrange(g, Level2(style), rng)
    case Three => Arrange(g, Level3(style), rng)
    case Four => Arrange(g, Level4(style), rng)
    case Five => []
    case Six => []
    case Seven => []
    case Eight => []
    case Nine => []
    case Ten => []
  }

  /**
   * A level from one to four deals its table's faces, each as often as the
   * table has it, and the mock generator deals them in table order.
   */
  lemma DealtFaces(g: Generator, level: Level, style: Style, rng: seq<nat>)
    requires Ordinal(level.kind) <= 4
    ensures multiset(AvailableCards(g, level, style, rng)) == multiset(Table(Ordinal(level.kind), style))
    ensures g == Mock ==> AvailableCards(g, level, style, rng) == Table(Ordinal(level.kind), style)
  {
    ArrangePermutes(g, Table(Ordinal(level.kind), style), rng);
  }

  /**
   * The first level of a difficulty. The live and mock generators give the
   * same answers, so the model has one table for both.
   */
  function InitialLevel(difficulty: Difficulty): (r: Level)
    ensures difficulty == Easy ==> r == LevelOne
    ensures difficulty == Medium ==> r == LevelThree
    ensures difficulty == Hard ==> r == LevelFour
  {
    match difficulty
    case Easy => LevelOne
    case Medium => LevelThree
    case Hard => LevelFour
  }

  /**
   * The level after `level`: one to five for every difficulty, then up to
   * ten except under `Easy`, which stops after five; nothing after ten.
   * Shared by the live and mock generators.
   */
  function NextLevel(level: Level, difficulty: Difficulty): (r: Option<Level>)
    ensures Ordinal(level.kind) <= 4 ==> r.Some?
    ensures r.Some? ==> Ordinal(r.value.kind) == Ordinal(level.kind) + 1
    ensures r.None? <==> level.kind == Ten || (difficulty == Easy && Ordinal(level.kind) >= 5)
  {
    match level.kind
    case One => Some(LevelTwo)
    case Two => Some(LevelThree)
    case Three => Some(LevelFour)
    case Four => Some(Level(LevelType.Five, "Level 5", "1"))
    case Five => if difficulty == Easy then None else Some(Level(LevelType.Six, "Level 6", "1"))
    case Six => if difficulty == Easy then None else Some(Level(LevelType.Seven, "Level 7", "1"))
    case Seven => if difficulty == Easy then None else Some(Level(LevelType.Eight, "Level 8", "1"))
    case Eight => if difficulty == Easy then None else Some(Level(LevelType.Nine, "Level 9", "1"))
    case Nine => if difficulty == Easy then None else Some(Level(LevelType.Ten, "Level 10", "1"))
    case Ten => None
  }

  /** `n` successive "next level" steps. */
  function Advance(level: Option<Level>, difficulty: Difficulty, n: nat): Option<Level>
    decreases n
  {
    if n == 0 || level.None? then level
    else Advance(NextLevel(level.value, difficulty), difficulty, n - 1)
  }

  /** Every progression ends: after 11 - k steps from level k nothing is left. */
  lemma {:induction false} ProgressionEnds(level: Level, difficulty: Difficulty, n: nat)
    requires n >= 11 - Ordinal(level.kind)
    ensures Advance(Some(level), difficulty, n) == None
    decreases n
  {
    var next := NextLevel(level, difficulty);
    if next.Some? {
      ProgressionEnds(next.value, difficulty, n - 1);
    }
  }

  /** Below the cap of the difficulty every step is taken: n steps from level k reach level k + n. */
  lemma {:induction false} ProgressionClimbs(level: Level, difficulty: Difficulty, n: nat)
    requires Ordinal(level.kind) + n <= (if difficulty == Easy then 5 else 10)
    ensures Advance(Some(level), difficulty, n).Some?
    ensures Ordinal(Advance(Some(level), difficulty, n).value.kind) == Ordinal(level.kind) + n
    decreases n
  {
    if n > 0 {
      var next := NextLevel(level, difficulty);
      ProgressionClimbs(next.value, difficulty, n - 1);
    }
  }

  /** Under `Easy` the game runs from level one to level five and stops there. */
  lemma EasyGameLength()
    ensures Advance(Some(InitialLevel(Easy)), Easy, 4).Some?
    ensures Advance(Some(InitialLevel(Easy)), Easy, 4).value.kind == Five
    ensures Advance(Some(InitialLevel(Easy)), Easy, 5) == None
  {
    ProgressionClimbs(LevelOne, Easy, 4);
    AdvanceSplit(Some(LevelOne), Easy, 4);
  }

  lemma {:induction false} AdvanceSplit(level: Option<Level>, difficulty: Difficulty, n: nat)
    ensures Advance(level, difficulty, n + 1) == Advance(Advance(level, difficulty, n), difficulty, 1)
    decreases n
  {
    if n > 0 && level.Some? {
      AdvanceSplit(NextLevel(level.value, difficulty), difficulty, n - 1);
    }
  }
}
