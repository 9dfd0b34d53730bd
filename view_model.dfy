/**
 * `ColorSelectionViewModel`: the two published fields, the records fetched
 * from and inserted into Core Data, and the handlers the view calls when a
 * circle is tapped or the picker changes.
 */
module ViewModel {
  import opened Wrappers
  import opened Palette
  import opened Selection

  class ColorSelectionViewModel {
    var selectedPattern: ColorPattern
    var selectedCircleIndex: Option<int>
    /** The entities last fetched from, or inserted into, the context. */
    var storedPatterns: seq<Record>

    /** The selection the two published fields hold. */
    function Current(): State
      reads this
    {
      State(selectedPattern, selectedCircleIndex)
    }

    predicate Valid()
      reads this
    {
      Selection.Valid(Current())
    }

    /** `init(viewContext:)`: start from the initial fields and load.
        `fetched` is the outcome of the fetch request (None if it threw). */
    constructor (fetched: Option<seq<Record>>)
      ensures Valid()
      ensures Current() == LoadSelection(Initial(), fetched)
      ensures storedPatterns == if fetched.Some? then fetched.value else []
    {
      selectedPattern := Pattern1;
      selectedCircleIndex := None;
      storedPatterns := [];
      new;
      LoadPattern(fetched);
    }

    /**
     * `savePattern`: write the selection into the first stored entity, or
     * insert one holding it. The commit that follows swallows its own
     * failure, so nothing here depends on it.
     */
    method SavePattern()
      requires Valid()
      modifies this`storedPatterns
      ensures storedPatterns == SaveRecords(Current(), old(storedPatterns))
    {
      var index := EncodeIndex(selectedCircleIndex);
      if storedPatterns != [] {
        storedPatterns := storedPatterns[0 := Record(Some(RawValue(selectedPattern)), index)];
      } else {
        storedPatterns := storedPatterns + [Record(Some(RawValue(selectedPattern)), index)];
      }
    }

    /** `loadPattern`: on a successful fetch, keep the results, take the
        first record's pattern when it parses and decode its index. */
    method LoadPattern(fetched: Option<seq<Record>>)
      requires Valid() || fetched.Some?
      modifies this
      ensures Valid()
      ensures Current() == LoadSelection(old(Current()), fetched)
      ensures storedPatterns == if fetched.Some? then fetched.value else old(storedPatterns)
    {
      if fetched.Some? {
        var results := fetched.value;
        storedPatterns := results;
        if results != [] && results[0].pattern.Some? {
          var pattern := Parse(results[0].pattern.value);
          if pattern.Some? {
            selectedPattern := pattern.value;
          }
        }
        var savedIndex: int := if results != [] then results[0].circleIndex as int else -1;
        selectedCircleIndex := if savedIndex >= 0 then Some(savedIndex) else None;
      }
      LoadValid(old(Current()), fetched);
    }

    /** The tap handler on circle `index` (one of the palette's five positions). */
    method TapCircle(index: int)
      requires Valid() && 0 <= index < 5
      modifies this
      ensures Valid()
      ensures Current() == Toggle(old(Current()), index)
      ensures storedPatterns == SaveRecords(Current(), old(storedPatterns))
    {
      selectedCircleIndex := if selectedCircleIndex == Some(index) then None else Some(index);
      SavePattern();
    }

    /** The picker writes the new pattern; its change handler saves, and
        SwiftUI runs that handler only when the value actually changed. The
        selected index is carried over unchanged. */
    method PickPattern(p: ColorPattern)
      requires Valid()
      modifies this
      ensures Valid()
      ensures Current() == State(p, old(selectedCircleIndex))
      ensures storedPatterns ==
        if p == old(selectedPattern) then old(storedPatterns)
        else SaveRecords(Current(), old(storedPatterns))
    {
      var changed := p != selectedPattern;
      selectedPattern := p;
      if changed {
        SavePattern();
      }
    }
  }
}
