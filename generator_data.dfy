/**
 * The fixed card-face tables of the first four levels, per style, and the
 * four named levels.
 */
module GeneratorData {
  import opened Models

  /** Level one's faces: the first 2 symbols of the style, each twice in a row; none for animals. */
  function Level1(style: Style): (r: seq<CardStyle>)
    ensures |r| == if style == Animals then 0 else 4
    ensures forall i :: 0 <= i < |r| ==> r[i].Number?
    ensures forall i :: 0 <= i < |r| / 2 ==> r[2 * i] == r[2 * i + 1]
  {
    match style
    case Numbers => [Number("1"), Number("1"), Number("2"), Number("2")]
    case Letters => [Number("A"), Number("A"), Number("B"), Number("B")]
    case Animals => []
  }

  /** Level two's faces: the first 4 symbols of the style, each twice in a row; none for animals. */
  function Level2(style: Style): (r: seq<CardStyle>)
    ensures |r| == if style == Animals then 0 else 8
    ensures forall i :: 0 <= i < |r| ==> r[i].Number?
    ensures forall i :: 0 <= i < |r| / 2 ==> r[2 * i] == r[2 * i + 1]
  {
    match style
    case Numbers =>
      [Number("1"), Number("1"), Number("2"), Number("2"),
       Number("3"), Number("3"), Number("4"), Number("4")]
    case Letters =>
      [Number("A"), Number("A"), Number("B"), Number("B"),
       Number("C"), Number("C"), Number("D"), Number("D")]
    case Animals => []
  }

  /** Level three's faces: the first 6 symbols of the style, each twice in a row; none for animals. */
  function Level3(style: Style): (r: seq<CardStyle>)
    ensures |r| == if style == Animals then 0 else 12
    ensures forall i :: 0 <= i < |r| ==> r[i].Number?
    ensures forall i :: 0 <= i < |r| / 2 ==> r[2 * i] == r[2 * i + 1]
  {
    match style
    case Numbers =>
      [Number("1"), Number("1"), Number("2"), Number("2"),
       Number("3"), Number("3"), Number("4"), Number("4"),
       Number("5"), Number("5"), Number("6"), Number("6")]
    case Letters =>
      [Number("A"), Number("A"), Number("B"), Number("B"),
       Number("C"), Number("C"), Number("D"), Number("D"),
       Number("E"), Number("E"), Number("F"), Number("F")]
    case Animals => []
  }

  /** Level four's faces: the first 8 symbols of the style, each twice in a row; none for animals. */
  function Level4(style: Style): (r: seq<CardStyle>)
    ensures |r| == if style == Animals then 0 else 16
    ensures forall i :: 0 <= i < |r| ==> r[i].Number?
    ensures forall i :: 0 <= i < |r| / 2 ==> r[2 * i] == r[2 * i + 1]
  {
    match style
    case Numbers =>
      [Number("1"), Number("1"), Number("2"), Number("2"),
       Number("3"), Number("3"), Number("4"), Number("4"),
       Number("5"), Number("5"), Number("6"), Number("6"),
       Number("7"), Number("7"), Number("8"), Number("8")]
    case Letters =>
      [Number("A"), Number("A"), Number("B"), Number("B"),
       Number("C"), Number("C"), Number("D"), Number("D"),
       Number("E"), Number("E"), Number("F"), Number("F"),
       Number("G"), Number("G"), Number("H"), Number("H")]
    case Animals => []
  }

  const LevelOne := Level(LevelType.One, "Level 1", "1")
  const LevelTwo := Level(LevelType.Two, "Level 2", "2")
  const LevelThree := Level(LevelType.Three, "Level 3", "3")
  const LevelFour := Level(LevelType.Four, "Level 4", "4")

  /** The table of level `k` (one to four) in the given style. */
  function Table(k: nat, style: Style): seq<CardStyle>
    requires 1 <= k <= 4
  {
    if k == 1 then Level1(style)
    else if k == 2 then Level2(style)
    else if k == 3 then Level3(style)
    else Level4(style)
  }

  // An independent description of the tables: the first 2k symbols of the
  // style, each dealt twice in a row, all as `.number` faces.

  const DigitSymbols := ["1", "2", "3", "4", "5", "6", "7", "8"]
  const LetterSymbols := ["A", "B", "C", "D", "E", "F", "G", "H"]

  function Symbols(style: Style): seq<string>
  {
    match style
    case Numbers => DigitSymbols
    case Letters => LetterSymbols
    case Animals => []
  }

  /** `t` is `symbols` with every symbol dealt twice in a row, as `.number` faces. */
  predicate DoubledFrom(t: seq<CardStyle>, symbols: seq<string>)
  {
    && |t| == 2 * |symbols|
    && forall i :: 0 <= i < |t| ==> t[i] == Number(symbols[i / 2])
  }

  lemma Level1Doubled()
    ensures DoubledFrom(Level1(Numbers), DigitSymbols[..2])
    ensures DoubledFrom(Level1(Letters), LetterSymbols[..2])
  {
  }

  lemma Level2Doubled()
    ensures DoubledFrom(Level2(Numbers), DigitSymbols[..4])
    ensures DoubledFrom(Level2(Letters), LetterSymbols[..4])
  {
  }

  lemma Level3Doubled()
    ensures DoubledFrom(Level3(Numbers), DigitSymbols[..6])
    ensures DoubledFrom(Level3(Letters), LetterSymbols[..6])
  {
  }

  lemma Level4Doubled()
    ensures DoubledFrom(Level4(Numbers), DigitSymbols[..8])
    ensures DoubledFrom(Level4(Letters), LetterSymbols[..8])
  {
  }

  /** The symbols of a style are pairwise different. */
  lemma SymbolsDistinct(style: Style)
    ensures forall i, j :: 0 <= i < j < |Symbols(style)| ==> Symbols(style)[i] != Symbols(style)[j]
  {
    var syms := Symbols(style);
    forall i, j | 0 <= i < j < |syms|
      ensures syms[i] != syms[j]
    {
      assert syms[i][0] != syms[j][0];
    }
  }

  /** The literal tables are the doubled prefixes of the style's symbols. */
  lemma TableIsDoubledPrefix(k: nat, style: Style)
    requires 1 <= k <= 4
    ensures style == Animals ==> Table(k, style) == []
    ensures style != Animals ==> 2 * k <= |Symbols(style)| && DoubledFrom(Table(k, style), Symbols(style)[..2 * k])
  {
    if k == 1 {
      Level1Doubled();
    } else if k == 2 {
      Level2Doubled();
    } else if k == 3 {
      Level3Doubled();
    } else {
      Level4Doubled();
    }
  }

  /** Distinct symbols doubled give every face exactly twice, in adjacent positions. */
  predicate AdjacentPairs(t: seq<CardStyle>)
  {
    && |t| % 2 == 0
    && (forall i :: 0 <= i < |t| / 2 ==> t[2 * i] == t[2 * i + 1])
    && (forall i, j :: 0 <= i < j < |t| / 2 ==> t[2 * i] != t[2 * j])
  }

  /** Level `k` holds 4k cards for numbers and letters, in adjacent pairs of distinct faces. */
  lemma TableShape(k: nat, style: Style)
    requires 1 <= k <= 4
    ensures style == Animals <==> Table(k, style) == []
    ensures style != Animals ==> |Table(k, style)| == 4 * k
    ensures AdjacentPairs(Table(k, style))
  {
    TableIsDoubledPrefix(k, style);
    if style != Animals {
      var syms := Symbols(style)[..2 * k];
      var t := Table(k, style);
      SymbolsDistinct(style);
      forall i | 0 <= i < |t| / 2
        ensures t[2 * i] == t[2 * i + 1] == Number(syms[i])
      {
        assert (2 * i) / 2 == i && (2 * i + 1) / 2 == i;
      }
    }
  }

  /** Within one style, the table of level k is a prefix of the table of level k + 1. */
  lemma TablePrefix(k: nat, style: Style)
    requires 1 <= k < 4
    ensures Table(k, style) == Table(k + 1, style)[..|Table(k, style)|]
  {
    TableIsDoubledPrefix(k, style);
    TableIsDoubledPrefix(k + 1, style);
  }

  /** Every face is built with `.number`, so its description is the symbol itself. */
  lemma TableFaces(k: nat, style: Style, i: nat)
    requires 1 <= k <= 4 && i < |Table(k, style)|
    ensures Table(k, style)[i].Number?
    ensures Table(k, style)[i].Description() == Symbols(style)[i / 2]
  {
    TableIsDoubledPrefix(k, style);
  }
}
