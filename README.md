# ColorPick selection model

A Dafny model of the core of ColorPick, a one-screen SwiftUI app in which
the user chooses one of six colour patterns and taps one of its five
circles. The choice is kept in a single Core Data record so that it
survives a restart. The model covers:

- the palette catalogue `ColorPattern` (`palette.dfy`): its raw values,
  the failable `ColorPattern(rawValue:)` initialiser, and the five colours
  of each pattern;
- the selection-persistence rules of `ColorSelectionViewModel`, stated on
  values (`selection.dfy`): how `savePattern` writes the selection into the
  stored records, how `loadPattern` reads it back, the tap rule and the
  guarded `selectedColor` read;
- the view model itself as a class (`view_model.dfy`): its two published
  fields and its list of stored entities. Its methods are `SavePattern`,
  `LoadPattern`, the tap handler and the picker handler. Each is proved to
  move the object's state exactly as the functions of `selection.dfy` say.

Core Data is replaced by a list of `Record` values plus the fetch outcome
`Option<seq<Record>>`, where `None` means the fetch threw. The random
pattern's colours are a parameter `draw`: five colours whose channels lie
in [0, 1].

Three details of the code that the model keeps:
- the picker's change handler runs only when the pattern actually changes,
  so picking the current pattern again does not save;
- `loadPattern` keeps the *current* pattern, not the initial one, when the
  stored string is not a raw value;
- after a successful fetch with no records, the index becomes nil.
  Before the first load this is the same as leaving the initial values, but
  on a later load it is not.

## Model

| member | source | states |
|---|---|---|
| Palette.RawValue | ColorPick/ContentView.swift:12-14 | the raw value of `random` is "random", and that of the n-th fixed case is "pattern" followed by the digit n |
| Palette.Parse | ColorPick/ContentView.swift:12-13 | `ColorPattern(rawValue:)` succeeds exactly on the six case names and returns the pattern owning that raw value |
| Palette.RawValueInjective | ColorPick/ContentView.swift:12-14 | two patterns have the same raw value (the persistence key and `id`) if and only if they are the same pattern |
| Palette.ParseRawValue | ColorPick/ContentView.swift:59 | parsing a pattern's raw value gives back that pattern |
| Palette.FixedColors | ColorPick/ContentView.swift:18-22 | each fixed pattern lists five colours, all of them named colours |
| Palette.Colors | ColorPick/ContentView.swift:16-25 | every pattern has exactly five colours; the random pattern's are all random colours with channels in [0, 1], and the fixed patterns' are all named colours |
| Palette.RotatedMultiset | ColorPick/ContentView.swift:18-22 | rotating a colour list any number of times keeps its length and its multiset of colours |
| Palette.RotatedAt | ColorPick/ContentView.swift:18-22 | for k below the list's length, position i of a list rotated left k times holds the element k places further on, wrapping round at the end |
| Palette.FixedIsRotation | ColorPick/ContentView.swift:18-22 | pattern n's list is pattern1's list rotated left n-1 times |
| Palette.FixedColorsAt | ColorPick/ContentView.swift:18-22 | colour i of a fixed pattern is colour (ordinal + i) mod 5 of pattern1 |
| Palette.RotationStep | ColorPick/ContentView.swift:18-22 | each fixed pattern is its predecessor rotated left once, and pattern1 is pattern5 rotated left once |
| Palette.FixedSameColors | ColorPick/ContentView.swift:18-22 | any two fixed patterns hold the same multiset of colours |
| Palette.FixedShowsEachColorOnce | ColorPick/ContentView.swift:18-22 | each fixed pattern shows red, blue, yellow, green and pink exactly once each |
| Selection.Initial | ColorPick/ContentView.swift:29-30 | the fields start at pattern1 with nothing selected, which satisfies the state invariant |
| Selection.EncodeIndex | ColorPick/ContentView.swift:43 | no selection is stored as -1 and an index is stored as itself |
| Selection.DecodeIndex | ColorPick/ContentView.swift:62-63 | a stored value reads back as an index if and only if it is non-negative, and then as that value |
| Selection.IndexRoundTrip | ColorPick/ContentView.swift:43-63 | decoding the encoded index gives back nil and every index from 0 to 32767 |
| Selection.StoredIndexRoundTrip | ColorPick/ContentView.swift:43-63 | re-encoding a decoded stored value gives it back exactly when it is -1 or above |
| Selection.SaveRecords | ColorPick/ContentView.swift:40-52 | after a save there is one record if there were none, otherwise the same number; the first record holds the pattern's raw value and the encoded index; every other record is untouched |
| Selection.StoredPattern | ColorPick/ContentView.swift:58-59 | a pattern is read from storage exactly when there is a first record whose string is some pattern's raw value, and it is that pattern |
| Selection.LoadSelection | ColorPick/ContentView.swift:54-65 | a failed fetch changes nothing; an empty result keeps the pattern and clears the index; otherwise the index is the first record's decoded index, and the pattern is the one the first record names, or is unchanged when it names none |
| Selection.Toggle | ColorPick/ContentView.swift:121 | tapping keeps the pattern; the selection becomes nil exactly when the tapped circle was selected, otherwise it is the tapped index |
| Selection.SelectedColor | ColorPick/ContentView.swift:67-73 | a colour is returned exactly when an index is selected and it is below five, and it is the current pattern's colour at that index |
| Selection.SaveLoadRoundTrip | ColorPick/ContentView.swift:40-65 | loading, into any state, from a fetch that returns the records a save produced, in that order, restores the saved pattern and index |
| Selection.LoadValid | ColorPick/ContentView.swift:62-63 | after a load the index is nil or between 0 and 32767 (from any state after a successful fetch) |
| Selection.LoadIdempotent | ColorPick/ContentView.swift:54-65 | loading twice from the same fetch result gives the state one load gives |
| Selection.SaveIdempotent | ColorPick/ContentView.swift:40-49 | saving the same selection twice stores what saving once stores |
| Selection.SaveKeepsSingleton | ColorPick/ContentView.swift:41-48 | from an in-memory list of at most one entity, a save leaves exactly one in the list |
| Selection.ToggleValid | ColorPick/ContentView.swift:113-121 | tapping one of the five circles keeps the index nil or in range |
| Selection.ToggleTwice | ColorPick/ContentView.swift:121 | tapping the same circle twice restores the selection if and only if that circle or nothing was selected |
| Selection.SelectedAfterToggle | ColorPick/ContentView.swift:68-72 | after tapping an unselected circle, the selected colour is that circle's colour in the current pattern |
| Selection.SelectedColorFixed | ColorPick/ContentView.swift:68-72 | for a fixed pattern the selected colour is pattern1's colour at (ordinal + index) mod 5 |
| Selection.FreshStorage | ColorPick/ContentView.swift:29-63 | loading from empty storage leaves pattern1 with nothing selected, and no colour is selected |
| Selection.Pattern3SecondCircle | ColorPick/ContentView.swift:20 | with pattern3 chosen, tapping the second circle (when it was not selected) selects green |
| ViewModel.ColorSelectionViewModel.constructor | ColorPick/ContentView.swift:35-38 | the new object holds the initial selection loaded from the fetch result, and it is valid |
| ViewModel.ColorSelectionViewModel.SavePattern | ColorPick/ContentView.swift:40-52 | the stored entities become `SaveRecords` of the current selection; the selection itself is unchanged |
| ViewModel.ColorSelectionViewModel.LoadPattern | ColorPick/ContentView.swift:54-65 | the selection becomes `LoadSelection` of the old selection; the stored entities become the fetched ones on success; validity holds afterwards |
| ViewModel.ColorSelectionViewModel.TapCircle | ColorPick/ContentView.swift:120-123 | the selection becomes `Toggle` of the old one and the save that follows writes it into the first record |
| ViewModel.ColorSelectionViewModel.PickPattern | ColorPick/ContentView.swift:100-109 | the pattern becomes the picked one and the index is carried over; it saves only when the pattern changed |

## Left out

- The SwiftUI view body is not modelled: layout, styling, the rendering
  of the picker, circles and text, and the `ObservableObject`/`@Published`
  change notifications (ContentView.swift:77-128). Only the tap handler and
  the picker's change handler are kept.
- Core Data is not modelled: the managed object context, the entity
  objects and their identity, and the commit `try? viewContext.save()`.
  Entities are values in `storedPatterns`, so the model does not capture
  that the first fetched entity is the same object the context holds.
  The commit's failure is swallowed, so it changes nothing the model holds.
  The fetch is a parameter whose failure is `None`.
- The durable store is not modelled: `storedPatterns` is the view model's
  in-memory list, not what storage holds. So the model does not capture
  that after a failed fetch (line 56) the list stays empty and the next
  save inserts a new entity (lines 45-48) even when storage already holds
  one. Storage can therefore end up with two records, while
  SaveKeepsSingleton speaks only of the in-memory list.
- The order of fetched records is not modelled: the fetch request (line
  55) has no sort descriptor, so with two or more stored entities
  `results.first` (lines 58 and 62) need not be the entity the last save
  wrote. SaveLoadRoundTrip assumes the fetch returns the saved records in
  the order the save left them, which holds when storage has one record.
- `Color.random` is not modelled (ContentView.swift:133-141): floating-point
  random channels. A random colour is an `Rgb` value with real channels in
  [0, 1], and each evaluation of the random pattern is a parameter.
- `selectedColor` evaluates `selectedPattern.colors` twice, once for the
  bounds guard and once for the read. The model uses one draw, the one the
  read produces. Every evaluation has five colours, so the guard's result
  is the same for either draw.
- Selection.SelectedColor: requires a non-negative index instead of
  modelling the trap Swift raises on a negative one, which its guard does
  not exclude. `Valid` establishes this for every reachable state.
- Selection.SaveRecords: requires `Valid`, that is the index is absent or
  in 0..32767, instead of modelling the trap of the `Int16(...)`
  conversion at lines 43 and 47. This also excludes negative indices,
  which the conversion accepts but no reachable state holds. In practice
  indices are 0 to 4. ViewModel.ColorSelectionViewModel.SavePattern has
  the same requirement.
- `CaseIterable`/`allCases` and the `id` property are not modelled beyond
  `RawValue`; they only feed the picker.
- ColorPickApp.swift (app entry and environment wiring) is not part of
  this model. Its `PersistenceController` is not part of this model either.
