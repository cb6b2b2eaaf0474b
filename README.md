# Beatmap carousel: collection synchroniser and selection state machine

This project models the logical core of osu!'s song-select carousel (`BeatmapCarousel`).
The carousel keeps a flat list of beatmaps (difficulties) in step with the beatmap sets
its store publishes. It also reacts to the user selecting a group header, a set, a
beatmap or anything else by opening and closing groups and sets. It does that by flipping
the visibility flags of the display items that the grouping filter indexes per group and
per set.

Modules:

- `Wrappers`: `Option`, `Result` and `Outcome`. A thrown exception becomes a `Failure` or a `Fail`.
- `Beatmaps`: the entities.
  - A `Beatmap` has an identity and the identity of its set. `SameBeatmap` is `BeatmapInfo.Equals`, which compares identities.
  - A `BeatmapSet` holds its beatmaps in order.
  - `GroupDefinition` is a value: equal titles mean equal groups, as for the C# record.
  - `Model` is the kind of object being selected. `OtherModel` stands for every other object, and for null.
  - `CarouselItem` is a class with a fixed model and a mutable `isVisible` flag.
- `CollectionSync`: `beatmapSetsChanged` stated on values.
  - `ApplyChange` gives the list after one notification.
  - `KeepUnmatched` is a one-pass reference definition of removal.
  - The lemmas prove that the source's nested `RemoveAll` loops compute exactly that removal, and what it keeps and drops.
- `Selection`: the selection state machine stated on values.
  - `HandleSelection` and its helpers `VisibleGroup`, `VisibleSet` and `SetVisibility`.
  - `CheckValidForGroupSelection`.
  - `FindContainingGroup`, the `SingleOrDefault` scan over the group index.
  - Lemmas for collapse on reselect, group swap, the set redirect, opening a beatmap's group or set, and the two exclusivity invariants.
- `Carousel`: the class `BeatmapCarousel`.
  - Its fields are `items`, `lastSelectedGroup`, `lastSelectedBeatmap` and `currentSelection`.
  - `criteria` and the two indices are read-only for the duration of one filter pass.
  - Its methods change these fields and the items' flags in place with the source's loops.
  - Each method is proved to produce the state the `Selection` and `CollectionSync` functions describe.

Exceptions and the state they leave:
- A Move or Replace notification gives `NotImplemented`.
- Selecting a set with no beatmaps (`First()`) gives `InvalidOperation`.
- Selecting a beatmap held by two or more groups while difficulties are split out (`SingleOrDefault`) gives `InvalidOperation`.
- The default case of `CheckValidForGroupSelection` gives `UnsupportedModel`.

Each of these is thrown before anything is changed, and the methods promise that the state is unchanged.

Groups and sets flip the same `IsVisible` flags. So a beatmap selection without split difficulties, which shows and hides set items, does not preserve "only the open group's items are shown". The exclusivity lemmas therefore cover only the selections that leave the other index alone.

Three behaviours of the code worth knowing:
- Selecting an unsupported model is not an error in `HandleItemSelected`. It returns true and changes nothing (line 140). Only `CheckValidForGroupSelection` rejects it.
- Selecting a set only assigns `CurrentSelection` to the set's first beatmap and returns false. Whatever the assignment triggers in the base class is not part of this model.
- When difficulties are split out, a beatmap held by more than one group is an error, not a pick of one of the groups.

## Model

| member | source | states |
|---|---|---|
| `Beatmaps.SameBeatmap` | osu.Game/Screens/SelectV2/BeatmapCarousel.cs:76 | `BeatmapInfo.Equals`: two beatmaps are equal iff their identities are |
| `CollectionSync.AllBeatmaps` | osu.Game/Screens/SelectV2/BeatmapCarousel.cs:68 | `SelectMany`: the beatmaps of every set, set by set, each set in its own order |
| `CollectionSync.RemoveEach` | osu.Game/Screens/SelectV2/BeatmapCarousel.cs:75-76 | the inner `foreach`: one `RemoveAll` per beatmap of a removed set, in order |
| `CollectionSync.RemoveSets` | osu.Game/Screens/SelectV2/BeatmapCarousel.cs:73-77 | the outer `foreach`: the inner loop for each removed set, in order |
| `CollectionSync.ApplyChange` | osu.Game/Screens/SelectV2/BeatmapCarousel.cs:65-88 | fails exactly on Move and Replace, with NotImplemented; Reset gives the empty list; Add keeps the old list as a prefix; Remove never grows the list |
| `CollectionSync.RemoveAll` | osu.Game/Screens/SelectV2/BeatmapCarousel.cs:76 | the result holds exactly the items not equal (by identity) to the removed beatmap, and is no longer than the input |
| `CollectionSync.AllBeatmapsAppend` | osu.Game/Screens/SelectV2/BeatmapCarousel.cs:68 | flattening sets distributes over concatenation, so set order is kept |
| `CollectionSync.AllBeatmapsMembers` | osu.Game/Screens/SelectV2/BeatmapCarousel.cs:68 | a beatmap is among the flattened beatmaps iff some set holds it |
| `CollectionSync.AddAppendsInOrder` | osu.Game/Screens/SelectV2/BeatmapCarousel.cs:67-69 | an Add appends the first set's beatmaps and then the rest's, after the unchanged existing items |
| `CollectionSync.KeepUnmatchedMembers` | osu.Game/Screens/SelectV2/BeatmapCarousel.cs:71-79 | an item survives the removal iff it was present and equals no removed beatmap |
| `CollectionSync.KeepUnmatchedAppend` | osu.Game/Screens/SelectV2/BeatmapCarousel.cs:71-79 | removal works element by element over concatenation, so survivors keep their relative order |
| `CollectionSync.KeepUnmatchedNone` | osu.Game/Screens/SelectV2/BeatmapCarousel.cs:71-79 | when no item matches a removed beatmap the list is unchanged |
| `CollectionSync.RemoveAllExtends` | osu.Game/Screens/SelectV2/BeatmapCarousel.cs:76 | one more RemoveAll extends the removed beatmaps by one |
| `CollectionSync.RemoveEachExtends` | osu.Game/Screens/SelectV2/BeatmapCarousel.cs:75-76 | the inner foreach of RemoveAll calls removes exactly that set's beatmaps |
| `CollectionSync.RemoveSetsExtends` | osu.Game/Screens/SelectV2/BeatmapCarousel.cs:73-77 | the nested loops remove exactly the beatmaps of all removed sets |
| `CollectionSync.RemoveDeletesMatchesOnly` | osu.Game/Screens/SelectV2/BeatmapCarousel.cs:71-79 | a Remove notification gives the reference removal of every beatmap of the removed sets |
| `CollectionSync.AddThenRemove` | osu.Game/Screens/SelectV2/BeatmapCarousel.cs:67-79 | removing sets right after adding them gives what removing them alone gives |
| `CollectionSync.AddThenRemoveEmpties` | osu.Game/Screens/SelectV2/BeatmapCarousel.cs:67-79 | adding one set to an empty list and removing it again leaves the list empty |
| `Selection.SetVisibility` | osu.Game/Screens/SelectV2/BeatmapCarousel.cs:169-176 | every item listed under the key takes the new flag; every other item keeps its flag; a missing key changes nothing |
| `Selection.VisibleGroup` | osu.Game/Screens/SelectV2/BeatmapCarousel.cs:161-167 | `setVisibleGroup`: hide the open group's items, record the new group, show its items |
| `Selection.VisibleSet` | osu.Game/Screens/SelectV2/BeatmapCarousel.cs:178-184 | `setVisibleSet`: hide the last beatmap's set items, record the new beatmap, show its set's items |
| `Selection.HoldsBeatmap` | osu.Game/Screens/SelectV2/BeatmapCarousel.cs:127 | the `Any(ReferenceEquals …)` lambda: some item of the group wraps exactly this beatmap |
| `Selection.HandleSelection` | osu.Game/Screens/SelectV2/BeatmapCarousel.cs:98-141 | the pick is final iff a beatmap or another model was selected; it fails, with InvalidOperation, iff an empty set was selected or a beatmap held by more than one group was selected with difficulties split out |
| `Selection.CheckValidForGroupSelection` | osu.Game/Screens/SelectV2/BeatmapCarousel.cs:143-158 | a group-selection target iff a set, or a beatmap with difficulties split out; never a group; fails with UnsupportedModel exactly for other models |
| `Selection.FindContainingGroup` | osu.Game/Screens/SelectV2/BeatmapCarousel.cs:127 | returns the only group holding the beatmap, none iff no group holds it, and fails iff more than one group holds it |
| `Selection.ReselectingOpenGroupCollapses` | osu.Game/Screens/SelectV2/BeatmapCarousel.cs:104-111 | selecting the open group hides its items, leaves every other item alone, closes it, and is not a final pick |
| `Selection.VisibleGroupSwaps` | osu.Game/Screens/SelectV2/BeatmapCarousel.cs:161-167 | opening a group shows all its items; the previous group's other items are hidden; items of neither group keep their flags |
| `Selection.SelectingOtherGroupSwaps` | osu.Game/Screens/SelectV2/BeatmapCarousel.cs:113-114 | selecting a group that is not open opens it, shows its items, and is not a final pick |
| `Selection.VisibleGroupKeepsExclusive` | osu.Game/Screens/SelectV2/BeatmapCarousel.cs:161-167 | opening a group preserves "only the open group's items are shown" |
| `Selection.GroupSelectionKeepsExclusive` | osu.Game/Screens/SelectV2/BeatmapCarousel.cs:104-131 | group selections and split-difficulty beatmap selections preserve "only the open group's items are shown" |
| `Selection.SetSelectionRedirects` | osu.Game/Screens/SelectV2/BeatmapCarousel.cs:116-119 | selecting a set fails iff it has no beatmaps; otherwise the current selection becomes its first beatmap, nothing else changes, and the pick is not final |
| `Selection.SplitBeatmapOpensItsGroup` | osu.Game/Screens/SelectV2/BeatmapCarousel.cs:124-131 | with difficulties split out, a beatmap held by no group changes nothing; one held by a single group gives exactly VisibleGroup of that group (all its items shown, also when it was already open) |
| `Selection.BeatmapOpensItsSet` | osu.Game/Screens/SelectV2/BeatmapCarousel.cs:121-137 | without split difficulties, a beatmap is recorded, its set's items are shown (sets do not collapse), the previous set's other items are hidden, items of neither set keep their flags, and the pick is final |
| `Selection.SetSelectionKeepsExclusive` | osu.Game/Screens/SelectV2/BeatmapCarousel.cs:178-184 | beatmap selections without split difficulties preserve "only the last beatmap's set is shown", and so do set and other selections |
| `Selection.OtherModelIgnored` | osu.Game/Screens/SelectV2/BeatmapCarousel.cs:140 | selecting any other model is a final pick that changes nothing |
| `Carousel.BeatmapCarousel.constructor` | osu.Game/Screens/SelectV2/BeatmapCarousel.cs:95-96 | a new carousel has no open group, no last beatmap and no current selection |
| `Carousel.BeatmapCarousel.BeatmapSetsChanged` | osu.Game/Screens/SelectV2/BeatmapCarousel.cs:58-89 | the list becomes what ApplyChange gives; on Move and Replace the call fails and the list is unchanged |
| `Carousel.BeatmapCarousel.SetVisibilityOfGroupItems` | osu.Game/Screens/SelectV2/BeatmapCarousel.cs:169-176 | the visible items become SetVisibility of the old ones for the group; only indexed items can change |
| `Carousel.BeatmapCarousel.SetVisibilityOfSetItems` | osu.Game/Screens/SelectV2/BeatmapCarousel.cs:186-193 | the visible items become SetVisibility of the old ones for the set; only indexed items can change |
| `Carousel.BeatmapCarousel.SetVisibleGroup` | osu.Game/Screens/SelectV2/BeatmapCarousel.cs:161-167 | the new state is VisibleGroup of the old one |
| `Carousel.BeatmapCarousel.SetVisibleSet` | osu.Game/Screens/SelectV2/BeatmapCarousel.cs:178-184 | the new state is VisibleSet of the old one |
| `Carousel.BeatmapCarousel.HandleItemSelected` | osu.Game/Screens/SelectV2/BeatmapCarousel.cs:98-141 | the new state and the verdict are those of HandleSelection; on an exception the state is unchanged |

## Left out

- `Filter`, `FilterAsync`, the loading layer and `DebounceDelay`: these are asynchronous, debounced scheduling. The criteria and the two indices are constructor inputs, fixed for the life of the object.
- The sorting and grouping filters that build `GroupItems` and `SetItems`: these classes are not part of this model. The indices are taken as given maps.
- The base class `Carousel<T>`.
  - `base.HandleItemSelected` is not modelled.
  - The side effects of the `CurrentSelection` setter are not modelled. The assignment is recorded in `currentSelection`.
  - `Items` is modelled as the `items` field.
- Drawable pools, `setupPools` and `GetDrawableForDisplay`: rendering and object pooling.
- `setupBeatmaps`, `BindCollectionChanged` and `BeatmapStore`: the external data source. Notifications arrive as `CollectionChange` values.
- A notification whose `NewItems` or `OldItems` is null, and a beatmap whose `BeatmapSet` is null: these throw (`ArgumentNullException` or `NullReferenceException`) in the source. In the model an Add or Remove always carries its sets and a beatmap always names its set.
- Object identity.
  - `ReferenceEquals` on a beatmap (line 127) is modelled as equality of the beatmap value.
  - `Equals` (line 76) compares identities (`SameBeatmap`).
  - Two distinct objects with identical fields are therefore one beatmap in the model.
- Dictionary iteration order in the `SingleOrDefault` scan: the result does not depend on it, because a second match throws whatever the order.
- The remaining fields of the filter criteria (sort mode, search terms): the selection logic reads only `SplitOutDifficulties`.
- The other files of the repository (catcher trails, the user tag test scene, hit event statistics, counter statistics): UI, test harness and floating-point statistics, outside this core.
