/**
 * The carousel's selection state machine, stated on values: which group is open,
 * which beatmap was last selected, what the current selection is and which display
 * items are visible, and how a selection event changes them.
 */
module Selection {
  import opened Wrappers
  import opened Beatmaps

  /** The selection state the carousel keeps between selection events. */
  datatype SelectionState = SelectionState(
    lastSelectedGroup: Option<GroupDefinition>,
    lastSelectedBeatmap: Option<Beatmap>,
    currentSelection: Option<Model>,
    visible: set<CarouselItem>)

  /** What handling a selection event leaves: the new state and whether the pick is final. */
  datatype Handled = Handled(state: SelectionState, isFinal: bool)

  /** The items an index lists under `key`, or none when the key is missing. */
  ghost function Members<K>(index: map<K, seq<CarouselItem>>, key: K): set<CarouselItem>
  {
    if key in index then set it | it in index[key] else {}
  }

  /** Every item listed anywhere in an index. */
  ghost function AllMembers<K>(index: map<K, seq<CarouselItem>>): set<CarouselItem>
  {
    set key, it | key in index && it in index[key] :: it
  }

  lemma MembersInAll<K>(index: map<K, seq<CarouselItem>>, key: K)
    ensures Members(index, key) <= AllMembers(index)
  {
  }

  /**
   * Visibility after setting the flag of every item listed under `key` to `v`:
   * those items take `v`, every other item keeps its flag.
   */
  ghost function SetVisibility<K>(visible: set<CarouselItem>, index: map<K, seq<CarouselItem>>, key: K, v: bool): (r: set<CarouselItem>)
    ensures v ==> Members(index, key) <= r
    ensures !v ==> r !! Members(index, key)
    ensures r - Members(index, key) == visible - Members(index, key)
    ensures key !in index ==> r == visible
  {
    if v then visible + Members(index, key) else visible - Members(index, key)
  }

  /** `setVisibleGroup`: hide the open group's items, then open `group` and show its items. */
  ghost function VisibleGroup(st: SelectionState, groupItems: map<GroupDefinition, seq<CarouselItem>>, group: GroupDefinition): SelectionState
  {
    var hidden := if st.lastSelectedGroup.Some?
      then SetVisibility(st.visible, groupItems, st.lastSelectedGroup.value, false)
      else st.visible;
    st.(lastSelectedGroup := Some(group), visible := SetVisibility(hidden, groupItems, group, true))
  }

  /** `setVisibleSet`: hide the last beatmap's set items, then record `beatmap` and show its set's items. */
  ghost function VisibleSet(st: SelectionState, setItems: map<nat, seq<CarouselItem>>, beatmap: Beatmap): SelectionState
  {
    var hidden := if st.lastSelectedBeatmap.Some?
      then SetVisibility(st.visible, setItems, st.lastSelectedBeatmap.value.setId, false)
      else st.visible;
    st.(lastSelectedBeatmap := Some(beatmap), visible := SetVisibility(hidden, setItems, beatmap.setId, true))
  }

  /** `kvp.Value.Any(i => ReferenceEquals(i.Model, beatmap))`. */
  predicate HoldsBeatmap(items: seq<CarouselItem>, beatmap: Beatmap)
  {
    exists i :: 0 <= i < |items| && items[i].model == BeatmapModel(beatmap)
  }

  /** The groups whose items include `beatmap`. */
  ghost function ContainingGroups(groupItems: map<GroupDefinition, seq<CarouselItem>>, beatmap: Beatmap): set<GroupDefinition>
  {
    set g | g in groupItems && HoldsBeatmap(groupItems[g], beatmap)
  }

  /**
   * `HandleItemSelected` on values: the state after selecting `model` and whether
   * the pick is final, or the exception the selection raises.
   */
  ghost function HandleSelection(st: SelectionState, model: Model, criteria: FilterCriteria,
                                 groupItems: map<GroupDefinition, seq<CarouselItem>>,
                                 setItems: map<nat, seq<CarouselItem>>): (r: Result<Handled, CarouselError>)
    ensures r.Success? ==> (r.value.isFinal <==> model.BeatmapModel? || model.OtherModel?)
    ensures r.Failure? <==>
      || (model.SetModel? && |model.beatmapSet.beatmaps| == 0)
      || (model.BeatmapModel? && criteria.splitOutDifficulties
          && |ContainingGroups(groupItems, model.beatmap)| > 1)
    ensures r.Failure? ==> r.error == InvalidOperation
  {
    match model
    case GroupModel(group) =>
      if st.lastSelectedGroup == Some(group) then
        Success(Handled(st.(visible := SetVisibility(st.visible, groupItems, group, false),
                            lastSelectedGroup := None), false))
      else
        Success(Handled(VisibleGroup(st, groupItems, group), false))
    case SetModel(s) =>
      if |s.beatmaps| == 0 then Failure(InvalidOperation)
      else Success(Handled(st.(currentSelection := Some(BeatmapModel(s.beatmaps[0]))), false))
    case BeatmapModel(b) =>
      if criteria.splitOutDifficulties then
        var groups := ContainingGroups(groupItems, b);
        if |groups| > 1 then Failure(InvalidOperation)
        else if groups == {} then Success(Handled(st, true))
        else
          var group :| group in groups;
          Success(Handled(VisibleGroup(st, groupItems, group), true))
      else
        Success(Handled(VisibleSet(st, setItems, b), true))
    case OtherModel =>
      Success(Handled(st, true))
  }

  /**
   * `CheckValidForGroupSelection`: sets are always group-selection targets,
   * beatmaps only when difficulties are split out, groups never; any other model
   * is unsupported.
   */
  function CheckValidForGroupSelection(item: CarouselItem, criteria: FilterCriteria): (r: Result<bool, CarouselError>)
    ensures r.Failure? <==> item.model.OtherModel?
    ensures r.Failure? ==> r.error == UnsupportedModel
    ensures r == Success(true) <==>
      item.model.SetModel? || (item.model.BeatmapModel? && criteria.splitOutDifficulties)
    ensures item.model.GroupModel? ==> r == Success(false)
  {
    match item.model
    case SetModel(_) => Success(true)
    case BeatmapModel(_) => Success(criteria.splitOutDifficulties)
    case GroupModel(_) => Success(false)
    case OtherModel => Failure(UnsupportedModel)
  }

  /**
   * `SingleOrDefault` over the group index: the only group holding `beatmap`, none
   * when no group holds it, or an error when more than one does.
   */
  method FindContainingGroup(groupItems: map<GroupDefinition, seq<CarouselItem>>, beatmap: Beatmap)
    returns (r: Result<Option<GroupDefinition>, CarouselError>)
    ensures r.Failure? <==> |ContainingGroups(groupItems, beatmap)| > 1
    ensures r.Failure? ==> r.error == InvalidOperation
    ensures r == Success(None) <==> ContainingGroups(groupItems, beatmap) == {}
    ensures r.Success? && r.value.Some? ==> ContainingGroups(groupItems, beatmap) == {r.value.value}
  {
    ghost var matches := ContainingGroups(groupItems, beatmap);
    var unvisited := groupItems.Keys;
    var found: Option<GroupDefinition> := None;
    while unvisited != {}
      invariant unvisited <= groupItems.Keys
      invariant found.None? ==> matches * (groupItems.Keys - unvisited) == {}
      invariant found.Some? ==> matches * (groupItems.Keys - unvisited) == {found.value}
      decreases unvisited
    {
      var g :| g in unvisited;
      if HoldsBeatmap(groupItems[g], beatmap) {
        if found.Some? {
          assert {found.value, g} <= matches;
          assert |{found.value, g}| == 2;
          return Failure(InvalidOperation);
        }
        found := Some(g);
      }
      unvisited := unvisited - {g};
    }
    assert matches <= groupItems.Keys;
    assert matches * (groupItems.Keys - unvisited) == matches;
    r := Success(found);
  }

  // ---------------------------------------------------------------------------
  // Groups

  /**
   * Only the open group's items are shown: an item listed in some group is
   * visible exactly when the open group lists it.
   */
  ghost predicate OnlyOpenGroupShown(st: SelectionState, groupItems: map<GroupDefinition, seq<CarouselItem>>)
  {
    forall it :: it in AllMembers(groupItems) ==>
      (it in st.visible <==> st.lastSelectedGroup.Some? && it in Members(groupItems, st.lastSelectedGroup.value))
  }

  /**
   * Selecting the open group collapses it: its items are hidden, no group is open,
   * every other item keeps its visibility, and the pick is not final.
   */
  lemma ReselectingOpenGroupCollapses(st: SelectionState, group: GroupDefinition, criteria: FilterCriteria,
                                      groupItems: map<GroupDefinition, seq<CarouselItem>>,
                                      setItems: map<nat, seq<CarouselItem>>)
    requires st.lastSelectedGroup == Some(group)
    ensures var r := HandleSelection(st, GroupModel(group), criteria, groupItems, setItems);
      && r.Success? && !r.value.isFinal
      && r.value.state.lastSelectedGroup == None
      && (forall it :: it in Members(groupItems, group) ==> it !in r.value.state.visible)
      && (forall it :: it !in Members(groupItems, group) ==> (it in r.value.state.visible <==> it in st.visible))
      && r.value.state.lastSelectedBeatmap == st.lastSelectedBeatmap
      && r.value.state.currentSelection == st.currentSelection
  {
  }

  /**
   * Opening a group: it becomes the open group and all its items are shown; the
   * previously open group's items that it does not list are hidden; items of
   * neither keep their visibility.
   */
  lemma VisibleGroupSwaps(st: SelectionState, groupItems: map<GroupDefinition, seq<CarouselItem>>, group: GroupDefinition)
    ensures var st' := VisibleGroup(st, groupItems, group);
      && st'.lastSelectedGroup == Some(group)
      && Members(groupItems, group) <= st'.visible
      && (st.lastSelectedGroup.Some? ==>
            forall it :: it in Members(groupItems, st.lastSelectedGroup.value) && it !in Members(groupItems, group)
              ==> it !in st'.visible)
      && (forall it ::
            (it !in Members(groupItems, group)
             && (st.lastSelectedGroup.None? || it !in Members(groupItems, st.lastSelectedGroup.value)))
            ==> (it in st'.visible <==> it in st.visible))
      && st'.lastSelectedBeatmap == st.lastSelectedBeatmap
      && st'.currentSelection == st.currentSelection
  {
  }

  /** Selecting a group other than the open one swaps the open group and is not a final pick. */
  lemma SelectingOtherGroupSwaps(st: SelectionState, group: GroupDefinition, criteria: FilterCriteria,
                                 groupItems: map<GroupDefinition, seq<CarouselItem>>,
                                 setItems: map<nat, seq<CarouselItem>>)
    requires st.lastSelectedGroup != Some(group)
    ensures HandleSelection(st, GroupModel(group), criteria, groupItems, setItems)
         == Success(Handled(VisibleGroup(st, groupItems, group), false))
    ensures VisibleGroup(st, groupItems, group).lastSelectedGroup == Some(group)
    ensures Members(groupItems, group) <= VisibleGroup(st, groupItems, group).visible
  {
  }

  /** Opening a group re-establishes that only the open group's items are shown. */
  lemma VisibleGroupKeepsExclusive(st: SelectionState, groupItems: map<GroupDefinition, seq<CarouselItem>>, group: GroupDefinition)
    requires OnlyOpenGroupShown(st, groupItems)
    ensures OnlyOpenGroupShown(VisibleGroup(st, groupItems, group), groupItems)
  {
  }

  /**
   * Exclusivity of the open group: every selection of a group, and every selection
   * of a beatmap while difficulties are split out, keeps at most the open group's
   * items shown among the grouped items.
   */
  lemma GroupSelectionKeepsExclusive(st: SelectionState, model: Model, criteria: FilterCriteria,
                                     groupItems: map<GroupDefinition, seq<CarouselItem>>,
                                     setItems: map<nat, seq<CarouselItem>>)
    requires OnlyOpenGroupShown(st, groupItems)
    requires model.GroupModel? || (model.BeatmapModel? && criteria.splitOutDifficulties)
    requires HandleSelection(st, model, criteria, groupItems, setItems).Success?
    ensures OnlyOpenGroupShown(HandleSelection(st, model, criteria, groupItems, setItems).value.state, groupItems)
  {
  }

  // ---------------------------------------------------------------------------
  // Sets and beatmaps

  /**
   * Only the last selected beatmap's set is shown: an item listed in some set is
   * visible exactly when the last selected beatmap's set lists it.
   */
  ghost predicate OnlyLastSetShown(st: SelectionState, setItems: map<nat, seq<CarouselItem>>)
  {
    forall it :: it in AllMembers(setItems) ==>
      (it in st.visible <==> st.lastSelectedBeatmap.Some? && it in Members(setItems, st.lastSelectedBeatmap.value.setId))
  }

  /**
   * Selecting a set is never a final pick: it redirects the current selection to
   * the set's first beatmap and changes nothing else; a set without beatmaps is
   * an error.
   */
  lemma SetSelectionRedirects(st: SelectionState, s: BeatmapSet, criteria: FilterCriteria,
                              groupItems: map<GroupDefinition, seq<CarouselItem>>,
                              setItems: map<nat, seq<CarouselItem>>)
    ensures var r := HandleSelection(st, SetModel(s), criteria, groupItems, setItems);
      && (r.Failure? <==> s.beatmaps == [])
      && (r.Success? ==>
            && !r.value.isFinal
            && r.value.state.currentSelection == Some(BeatmapModel(s.beatmaps[0]))
            && r.value.state.visible == st.visible
            && r.value.state.lastSelectedGroup == st.lastSelectedGroup
            && r.value.state.lastSelectedBeatmap == st.lastSelectedBeatmap)
  {
  }

  /**
   * With difficulties split out, selecting a beatmap opens the one group holding
   * it, even when that group is already open (no collapse), and leaves the state
   * alone when no group holds it.
   */
  lemma SplitBeatmapOpensItsGroup(st: SelectionState, b: Beatmap, criteria: FilterCriteria,
                                  groupItems: map<GroupDefinition, seq<CarouselItem>>,
                                  setItems: map<nat, seq<CarouselItem>>)
    requires criteria.splitOutDifficulties
    ensures var r := HandleSelection(st, BeatmapModel(b), criteria, groupItems, setItems);
      && (ContainingGroups(groupItems, b) == {} ==> r == Success(Handled(st, true)))
      && (forall g :: ContainingGroups(groupItems, b) == {g} ==>
            && r.Success? && r.value.isFinal
            && r.value.state.lastSelectedGroup == Some(g)
            && Members(groupItems, g) <= r.value.state.visible
            && r.value.state.lastSelectedBeatmap == st.lastSelectedBeatmap
            && r == Success(Handled(VisibleGroup(st, groupItems, g), true)))
  {
  }

  /**
   * Without split difficulties, selecting a beatmap records it and shows its set's
   * items (also when its set was already shown: sets do not collapse); the
   * previous beatmap's set items that its set does not list are hidden; items of
   * neither set keep their visibility; the open group is untouched.
   */
  lemma BeatmapOpensItsSet(st: SelectionState, b: Beatmap, criteria: FilterCriteria,
                           groupItems: map<GroupDefinition, seq<CarouselItem>>,
                           setItems: map<nat, seq<CarouselItem>>)
    requires !criteria.splitOutDifficulties
    ensures var r := HandleSelection(st, BeatmapModel(b), criteria, groupItems, setItems);
      && r.Success? && r.value.isFinal
      && r.value.state.lastSelectedBeatmap == Some(b)
      && Members(setItems, b.setId) <= r.value.state.visible
      && (st.lastSelectedBeatmap.Some? ==>
            forall it ::
              (it in Members(setItems, st.lastSelectedBeatmap.value.setId) && it !in Members(setItems, b.setId))
              ==> it !in r.value.state.visible)
      && (forall it ::
            (it !in Members(setItems, b.setId)
             && (st.lastSelectedBeatmap.None? || it !in Members(setItems, st.lastSelectedBeatmap.value.setId)))
            ==> (it in r.value.state.visible <==> it in st.visible))
      && r.value.state.lastSelectedGroup == st.lastSelectedGroup
      && r.value.state.currentSelection == st.currentSelection
  {
  }

  /**
   * Exclusivity of the shown set: selecting a beatmap without split difficulties,
   * selecting a set, or selecting any other model keeps only the last selected
   * beatmap's set shown among the set items.
   */
  lemma SetSelectionKeepsExclusive(st: SelectionState, model: Model, criteria: FilterCriteria,
                                   groupItems: map<GroupDefinition, seq<CarouselItem>>,
                                   setItems: map<nat, seq<CarouselItem>>)
    requires OnlyLastSetShown(st, setItems)
    requires model.SetModel? || model.OtherModel? || (model.BeatmapModel? && !criteria.splitOutDifficulties)
    requires HandleSelection(st, model, criteria, groupItems, setItems).Success?
    ensures OnlyLastSetShown(HandleSelection(st, model, criteria, groupItems, setItems).value.state, setItems)
  {
  }

  /** Selecting any other model is a final pick that changes nothing. */
  lemma OtherModelIgnored(st: SelectionState, criteria: FilterCriteria,
                          groupItems: map<GroupDefinition, seq<CarouselItem>>,
                          setItems: map<nat, seq<CarouselItem>>)
    ensures HandleSelection(st, OtherModel, criteria, groupItems, setItems) == Success(Handled(st, true))
  {
  }
}
