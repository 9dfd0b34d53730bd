/**
 * The palette catalogue: the `ColorPattern` enumeration, its string raw
 * values and the five colours each pattern shows.
 */
module Palette {
  import opened Wrappers

  /** The five named SwiftUI colours the fixed patterns use, and the
      colours `Color.random` builds from three channel values. */
  datatype Color = Red | Blue | Yellow | Green | Pink | Rgb(red: real, green: real, blue: real)

  datatype ColorPattern = Pattern1 | Pattern2 | Pattern3 | Pattern4 | Pattern5 | Random

  /** Every channel of a random colour is drawn from the closed range [0, 1]. */
  predicate InUnitCube(c: Color)
  {
    c.Rgb? && 0.0 <= c.red <= 1.0 && 0.0 <= c.green <= 1.0 && 0.0 <= c.blue <= 1.0
  }

  /** What one evaluation of the random pattern's colour list can produce:
      five colours, each built by `Color.random`. */
  predicate IsRandomDraw(draw: seq<Color>)
  {
    |draw| == 5 && forall k :: 0 <= k < |draw| ==> InUnitCube(draw[k])
  }

  /** The enumeration's raw value: the case name, as Swift derives it. */
  function RawValue(p: ColorPattern): (s: string)
    ensures p.Random? <==> s == "random"
    ensures !p.Random? ==> s == "pattern" + [('1' as int + Ordinal(p)) as char]
  {
    match p
    case Pattern1 => "pattern1"
    case Pattern2 => "pattern2"
    case Pattern3 => "pattern3"
    case Pattern4 => "pattern4"
    case Pattern5 => "pattern5"
    case Random => "random"
  }

  /** The failable initialiser `ColorPattern(rawValue:)`: it succeeds exactly
      on the six raw values and gives back the pattern that owns the string. */
  function Parse(s: string): (r: Option<ColorPattern>)
    ensures r.Some? ==> RawValue(r.value) == s
    ensures r.None? ==> forall p :: RawValue(p) != s
  {
    if s == "pattern1" then Some(Pattern1)
    else if s == "pattern2" then Some(Pattern2)
    else if s == "pattern3" then Some(Pattern3)
    else if s == "pattern4" then Some(Pattern4)
    else if s == "pattern5" then Some(Pattern5)
    else if s == "random" then Some(Random)
    else None
  }

  /** Distinct patterns have distinct raw values, so the raw value is a
      faithful persistence key. */
  lemma RawValueInjective(p: ColorPattern, q: ColorPattern)
    ensures RawValue(p) == RawValue(q) <==> p == q
  {
  }

  /** Parsing a raw value gives back the pattern it came from. */
  lemma ParseRawValue(p: ColorPattern)
    ensures Parse(RawValue(p)) == Some(p)
  {
  }

  /** The colour list of one of the five fixed patterns. */
  function FixedColors(p: ColorPattern): (r: seq<Color>)
    requires !p.Random?
    ensures |r| == 5
    ensures forall k :: 0 <= k < |r| ==> !r[k].Rgb?
  {
    match p
    case Pattern1 => [Red, Blue, Yellow, Green, Pink]
    case Pattern2 => [Blue, Yellow, Green, Pink, Red]
    case Pattern3 => [Yellow, Green, Pink, Red, Blue]
    case Pattern4 => [Green, Pink, Red, Blue, Yellow]
    case Pattern5 => [Pink, Red, Blue, Yellow, Green]
  }

  /**
   * The `colors` property. The random pattern builds a fresh list on every
   * evaluation; `draw` stands for the list that evaluation produced.
   */
  function Colors(p: ColorPattern, draw: seq<Color>): (r: seq<Color>)
    requires IsRandomDraw(draw)
    ensures |r| == 5
    ensures p.Random? ==> forall k :: 0 <= k < |r| ==> InUnitCube(r[k])
    ensures !p.Random? ==> forall k :: 0 <= k < |r| ==> !r[k].Rgb?
  {
    if p.Random? then draw else FixedColors(p)
  }

  /** The position of a fixed pattern in the enumeration, counted from 0. */
  function Ordinal(p: ColorPattern): nat
    requires !p.Random?
  {
    match p
    case Pattern1 => 0
    case Pattern2 => 1
    case Pattern3 => 2
    case Pattern4 => 3
    case Pattern5 => 4
  }

  /** Moves the head of a list to its end. */
  function RotateLeft<T>(s: seq<T>): seq<T>
  {
    if s == [] then s else s[1..] + [s[0]]
  }

  /** `s` rotated left `k` times. */
  function Rotated<T>(s: seq<T>, k: nat): seq<T>
  {
    if k == 0 then s else RotateLeft(Rotated(s, k - 1))
  }

  lemma RotateLeftMultiset<T>(s: seq<T>)
    ensures |RotateLeft(s)| == |s|
    ensures multiset(RotateLeft(s)) == multiset(s)
  {
    if s != [] {
      assert s == [s[0]] + s[1..];
    }
  }

  /** Rotation only reorders a list. */
  lemma {:induction false} RotatedMultiset<T>(s: seq<T>, k: nat)
    ensures |Rotated(s, k)| == |s|
    ensures multiset(Rotated(s, k)) == multiset(s)
  {
    if k > 0 {
      RotatedMultiset(s, k - 1);
      RotateLeftMultiset(Rotated(s, k - 1));
    }
  }

  /** Position `i` of `s` rotated `k` times (fewer times than its length)
      holds the element `k` places further on, wrapping round at the end. */
  lemma {:induction false} RotatedAt<T>(s: seq<T>, k: nat, i: int)
    requires k < |s| && 0 <= i < |s|
    ensures |Rotated(s, k)| == |s|
    ensures Rotated(s, k)[i] == if i + k < |s| then s[i + k] else s[i + k - |s|]
  {
    RotatedMultiset(s, k);
    if k > 0 {
      var t := Rotated(s, k - 1);
      RotatedMultiset(s, k - 1);
      if i < |s| - 1 {
        RotatedAt(s, k - 1, i + 1);
        assert RotateLeft(t)[i] == t[i + 1];
      } else {
        RotatedAt(s, k - 1, 0);
        assert RotateLeft(t)[i] == t[0];
      }
    }
  }

  /** Each fixed pattern is the first one rotated left by its ordinal. */
  lemma FixedIsRotation(p: ColorPattern)
    requires !p.Random?
    ensures FixedColors(p) == Rotated(FixedColors(Pattern1), Ordinal(p))
  {
    var base := FixedColors(Pattern1);
    assert Rotated(base, 1) == FixedColors(Pattern2);
    assert Rotated(base, 2) == FixedColors(Pattern3);
    assert Rotated(base, 3) == FixedColors(Pattern4);
    assert Rotated(base, 4) == FixedColors(Pattern5);
  }

  /** Colour `i` of a fixed pattern is colour `(ordinal + i) mod 5` of the first pattern. */
  lemma FixedColorsAt(p: ColorPattern, i: int)
    requires !p.Random? && 0 <= i < 5
    ensures FixedColors(p)[i] == FixedColors(Pattern1)[(Ordinal(p) + i) % 5]
  {
    FixedIsRotation(p);
    RotatedAt(FixedColors(Pattern1), Ordinal(p), i);
  }

  /** Each fixed pattern is its predecessor rotated left once, and the first
      pattern is the fifth rotated left once. */
  lemma RotationStep(p: ColorPattern, q: ColorPattern)
    requires !p.Random? && !q.Random?
    requires Ordinal(q) == (Ordinal(p) + 1) % 5
    ensures FixedColors(q) == RotateLeft(FixedColors(p))
  {
  }

  /** All five fixed patterns hold the same colours, as many times each. */
  lemma FixedSameColors(p: ColorPattern, q: ColorPattern)
    requires !p.Random? && !q.Random?
    ensures multiset(FixedColors(p)) == multiset(FixedColors(q))
  {
    var base := FixedColors(Pattern1);
    FixedIsRotation(p);
    FixedIsRotation(q);
    RotatedMultiset(base, Ordinal(p));
    RotatedMultiset(base, Ordinal(q));
  }

  /** Each fixed pattern shows every named colour exactly once. */
  lemma FixedShowsEachColorOnce(p: ColorPattern, c: Color)
    requires !p.Random? && !c.Rgb?
    ensures multiset(FixedColors(p))[c] == 1
  {
    FixedSameColors(p, Pattern1);
    var base := FixedColors(Pattern1);
    assert base == [Red] + ([Blue] + ([Yellow] + ([Green] + [Pink])));
  }
}
