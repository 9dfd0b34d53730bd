/**
 * The selection-persistence rules of `ColorSelectionViewModel`, stated on
 * values: the in-memory selection, the stored records, and the encode and
 * decode steps between them. The class in view_model.dfy is proved
 * against these functions.
 */
module Selection {
  import opened Wrappers
  import opened Palette

  /** Core Data's 16-bit integer attribute type. */
  newtype Int16 = x: int | -0x8000 <= x < 0x8000

  /** One stored `ColorPatternEntity`. Its string attribute may be nil in
      storage; its integer attribute is a scalar. */
  datatype Record = Record(pattern: Option<string>, circleIndex: Int16)

  /** The two published fields: `selectedPattern` and `selectedCircleIndex`. */
  datatype State = State(pattern: ColorPattern, circleIndex: Option<int>)

  /** The fields' initial values, before anything is loaded. */
  function Initial(): (s: State)
    ensures Valid(s) && s.circleIndex.None?
    ensures !s.pattern.Random? && Ordinal(s.pattern) == 0
  {
    State(Pattern1, None)
  }

  /** What every reachable state satisfies: a selected index is never
      negative (so the colour lookup cannot trap) and fits the 16-bit
      attribute (so saving cannot trap). */
  predicate Valid(s: State)
  {
    s.circleIndex.None? || 0 <= s.circleIndex.value < 0x8000
  }

  /** `Int16(selectedCircleIndex ?? -1)`: no selection is stored as -1. */
  function EncodeIndex(i: Option<int>): (v: Int16)
    requires i.None? || -0x8000 <= i.value < 0x8000
    ensures i.None? ==> v == -1
    ensures i.Some? ==> v as int == i.value
  {
    if i.None? then -1 else i.value as Int16
  }

  /** `savedIndex >= 0 ? savedIndex : nil`: every negative stored value
      reads back as no selection. */
  function DecodeIndex(v: Int16): (i: Option<int>)
    ensures i.Some? <==> v >= 0
    ensures i.Some? ==> i.value == v as int
  {
    if v >= 0 then Some(v as int) else None
  }

  /** Decoding undoes encoding for no selection and for every index the
      attribute can hold. */
  lemma IndexRoundTrip(i: Option<int>)
    requires i.None? || 0 <= i.value < 0x8000
    ensures DecodeIndex(EncodeIndex(i)) == i
  {
  }

  /** Encoding undoes decoding exactly on the stored values -1 and above;
      the other negative values all collapse to -1. */
  lemma StoredIndexRoundTrip(v: Int16)
    ensures EncodeIndex(DecodeIndex(v)) == v <==> v >= -1
  {
  }

  /** `savePattern` on the list of stored records: the first record, if
      there is one, takes the current selection; otherwise a new record
      holding it is appended. */
  function SaveRecords(s: State, stored: seq<Record>): (r: seq<Record>)
    requires Valid(s)
    ensures |r| == if stored == [] then 1 else |stored|
    ensures r[0].pattern == Some(RawValue(s.pattern))
    ensures s.circleIndex.None? ==> r[0].circleIndex == -1
    ensures s.circleIndex.Some? ==> r[0].circleIndex as int == s.circleIndex.value
    ensures DecodeIndex(r[0].circleIndex) == s.circleIndex
    ensures forall k :: 1 <= k < |r| ==> r[k] == stored[k]
  {
    var record := Record(Some(RawValue(s.pattern)), EncodeIndex(s.circleIndex));
    if stored != [] then stored[0 := record] else stored + [record]
  }

  /** The pattern named by the first stored record, if there is a first
      record, its string is present and the string is a raw value. */
  function StoredPattern(results: seq<Record>): (p: Option<ColorPattern>)
    ensures p.Some? <==> results != [] && exists q :: results[0].pattern == Some(RawValue(q))
    ensures p.Some? ==> results[0].pattern == Some(RawValue(p.value))
  {
    if results != [] && results[0].pattern.Some? then Parse(results[0].pattern.value) else None
  }

  /**
   * `loadPattern`: a failed fetch (None) changes nothing; a successful one
   * takes the pattern from the first record when it names one and keeps the
   * current pattern otherwise, and always decodes the first record's index
   * (no record reads as -1, so as no selection).
   */
  function LoadSelection(s: State, fetched: Option<seq<Record>>): (r: State)
    ensures fetched.None? ==> r == s
    ensures fetched == Some([]) ==> r == State(s.pattern, None)
    ensures fetched.Some? && fetched.value != [] ==>
      r.circleIndex == DecodeIndex(fetched.value[0].circleIndex) &&
      (fetched.value[0].pattern == Some(RawValue(r.pattern)) ||
       (r.pattern == s.pattern && forall q :: fetched.value[0].pattern != Some(RawValue(q))))
  {
    match fetched
    case None => s
    case Some(results) =>
      var pattern := StoredPattern(results);
      var savedIndex: Int16 := if results != [] then results[0].circleIndex else -1;
      State(if pattern.Some? then pattern.value else s.pattern, DecodeIndex(savedIndex))
  }

  /** The tap handler's rule: tapping the selected circle clears the
      selection, tapping any other circle selects it. */
  function Toggle(s: State, i: int): (r: State)
    ensures r.pattern == s.pattern
    ensures r.circleIndex.None? <==> s.circleIndex == Some(i)
    ensures r.circleIndex.Some? ==> r.circleIndex.value == i
  {
    State(s.pattern, if s.circleIndex == Some(i) then None else Some(i))
  }

  /**
   * `selectedColor`: the colour at the selected index of the current
   * pattern, or nothing when no index is selected or it is past the end.
   * The guard does not test for a negative index, which Swift would trap
   * on; `Valid` rules that out. `draw` is the random list built when the
   * colour is read.
   */
  function SelectedColor(s: State, draw: seq<Color>): (c: Option<Color>)
    requires s.circleIndex.None? || s.circleIndex.value >= 0
    requires IsRandomDraw(draw)
    ensures c.Some? <==> s.circleIndex.Some? && s.circleIndex.value < 5
    ensures c.Some? ==> c.value == Colors(s.pattern, draw)[s.circleIndex.value]
  {
    match s.circleIndex
    case None => None
    case Some(index) =>
      var colors := Colors(s.pattern, draw);
      if index < |colors| then Some(colors[index]) else None
  }

  /** Saving and then loading, on any store instance, from a fetch that
      returns the saved records in the order the save left them restores
      the saved selection. */
  lemma SaveLoadRoundTrip(s: State, stored: seq<Record>, other: State)
    requires Valid(s)
    ensures LoadSelection(other, Some(SaveRecords(s, stored))) == s
  {
  }

  /** Loading keeps the state valid, and a successful fetch makes any state valid. */
  lemma LoadValid(s: State, fetched: Option<seq<Record>>)
    requires Valid(s) || fetched.Some?
    ensures Valid(LoadSelection(s, fetched))
  {
  }

  /** Loading twice from unchanged storage gives the state the first load gave. */
  lemma LoadIdempotent(s: State, fetched: Option<seq<Record>>)
    ensures LoadSelection(LoadSelection(s, fetched), fetched) == LoadSelection(s, fetched)
  {
  }

  /** Saving the same selection twice stores what saving once stores. */
  lemma SaveIdempotent(s: State, stored: seq<Record>)
    requires Valid(s)
    ensures SaveRecords(s, SaveRecords(s, stored)) == SaveRecords(s, stored)
  {
  }

  /** Saving never adds a record when one exists, so storage that starts
      with at most one record holds exactly one after a save. */
  lemma SaveKeepsSingleton(s: State, stored: seq<Record>)
    requires Valid(s) && |stored| <= 1
    ensures |SaveRecords(s, stored)| == 1
  {
  }

  /** Tapping with a circle index of the palette keeps the state valid. */
  lemma ToggleValid(s: State, i: int)
    requires Valid(s) && 0 <= i < 5
    ensures Valid(Toggle(s, i))
  {
  }

  /** Tapping the same circle twice restores the selection exactly when
      that circle or nothing was selected before. */
  lemma ToggleTwice(s: State, i: int)
    ensures Toggle(Toggle(s, i), i) == s <==> s.circleIndex.None? || s.circleIndex == Some(i)
  {
  }

  /** After tapping a circle that was not selected, the selected colour is
      that circle's colour. */
  lemma SelectedAfterToggle(s: State, i: int, draw: seq<Color>)
    requires 0 <= i < 5 && s.circleIndex != Some(i) && IsRandomDraw(draw)
    ensures SelectedColor(Toggle(s, i), draw) == Some(Colors(s.pattern, draw)[i])
  {
  }

  /** For a fixed pattern the selected colour is one of the five named
      colours, found `ordinal` places on in the first pattern. */
  lemma SelectedColorFixed(s: State, draw: seq<Color>)
    requires Valid(s) && !s.pattern.Random? && IsRandomDraw(draw)
    requires s.circleIndex.Some? && s.circleIndex.value < 5
    ensures SelectedColor(s, draw) ==
      Some(FixedColors(Pattern1)[(Ordinal(s.pattern) + s.circleIndex.value) % 5])
  {
    FixedColorsAt(s.pattern, s.circleIndex.value);
  }

  /** With empty storage, loading leaves the initial state and nothing is selected. */
  lemma FreshStorage(draw: seq<Color>)
    requires IsRandomDraw(draw)
    ensures LoadSelection(Initial(), Some([])) == Initial()
    ensures SelectedColor(LoadSelection(Initial(), Some([])), draw).None?
  {
  }

  /** Choosing the third pattern and tapping the second circle selects green. */
  lemma Pattern3SecondCircle(s: State, draw: seq<Color>)
    requires s.circleIndex != Some(1) && IsRandomDraw(draw)
    ensures SelectedColor(Toggle(State(Pattern3, s.circleIndex), 1), draw) == Some(Green)
  {
  }
}
