/**
 * The beatmap carousel as an object: the flat list of beatmaps it keeps in step with
 * the observed beatmap sets, and the selection fields and item visibility flags its
 * selection handling updates in place.
 */
module Carousel {
  import opened Wrappers
  import opened Beatmaps
  import opened CollectionSync
  import opened Selection

  class BeatmapCarousel {
    /** The criteria of the last filter pass. */
    const criteria: FilterCriteria
    /** `grouping.GroupItems`: the display items of each group, from the last filter pass. */
    const groupItems: map<GroupDefinition, seq<CarouselItem>>
    /** `grouping.SetItems`: the display items of each set (by set identity), from the last filter pass. */
    const setItems: map<nat, seq<CarouselItem>>

    /** `Items`: the flat list of beatmaps the filters run on. */
    var items: seq<Beatmap>
    var lastSelectedGroup: Option<GroupDefinition>
    var lastSelectedBeatmap: Option<Beatmap>
    /** `CurrentSelection`, as last assigned here. */
    var currentSelection: Option<Model>

    /** The display items whose visibility the selection handling may change. */
    ghost function Repr(): set<CarouselItem>
    {
      AllMembers(groupItems) + AllMembers(setItems)
    }

    /** The indexed items that are currently visible. */
    ghost function Visible(): set<CarouselItem>
      reads Repr()
    {
      set it | it in Repr() && it.isVisible
    }

    /** The selection state as a value. */
    ghost function State(): SelectionState
      reads this, Repr()
    {
      SelectionState(lastSelectedGroup, lastSelectedBeatmap, currentSelection, Visible())
    }

    constructor (criteria: FilterCriteria,
                 groupItems: map<GroupDefinition, seq<CarouselItem>>,
                 setItems: map<nat, seq<CarouselItem>>)
      ensures this.criteria == criteria && this.groupItems == groupItems && this.setItems == setItems
      ensures items == []
      ensures lastSelectedGroup == None && lastSelectedBeatmap == None && currentSelection == None
    {
      this.criteria := criteria;
      this.groupItems := groupItems;
      this.setItems := setItems;
      items := [];
      lastSelectedGroup := None;
      lastSelectedBeatmap := None;
      currentSelection := None;
    }

    /**
     * `beatmapSetsChanged`: follow one change notification about the beatmap sets.
     * The list becomes what `ApplyChange` says; on Move or Replace nothing changes
     * and the notification fails.
     */
    method BeatmapSetsChanged(change: CollectionChange) returns (r: Outcome<CarouselError>)
      modifies this`items
      ensures match ApplyChange(old(items), change)
        case Success(next) => r == Pass && items == next
        case Failure(e) => r == Fail(e) && items == old(items)
    {
      match change
      case Add(sets) =>
        items := items + AllBeatmaps(sets);
        r := Pass;
      case Remove(sets) =>
        var i := 0;
        while i < |sets|
          invariant 0 <= i <= |sets|
          invariant RemoveSets(items, sets[i..]) == RemoveSets(old(items), sets)
        {
          var beatmaps := sets[i].beatmaps;
          ghost var before := items;
          var j := 0;
          while j < |beatmaps|
            invariant 0 <= j <= |beatmaps|
            invariant RemoveEach(items, beatmaps[j..]) == RemoveEach(before, beatmaps)
          {
            assert beatmaps[j..][1..] == beatmaps[j + 1..];
            items := RemoveAll(items, beatmaps[j]);
            j := j + 1;
          }
          assert sets[i..][1..] == sets[i + 1..];
          i := i + 1;
        }
        r := Pass;
      case Move =>
        r := Fail(NotImplemented);
      case Replace =>
        r := Fail(NotImplemented);
      case Reset =>
        items := [];
        r := Pass;
    }

    /**
     * `setVisibilityOfGroupItems`: set the flag of every item the group lists;
     * nothing changes for a group missing from the index.
     */
    method SetVisibilityOfGroupItems(group: GroupDefinition, visible: bool)
      modifies Repr()
      ensures Visible() == SetVisibility(old(Visible()), groupItems, group, visible)
    {
      if group in groupItems {
        var list := groupItems[group];
        MembersInAll(groupItems, group);
        var i := 0;
        while i < |list|
          invariant 0 <= i <= |list|
          invariant forall it :: it in Repr() ==>
            it.isVisible == (if it in list[..i] then visible else old(it.isVisible))
        {
          list[i].isVisible := visible;
          i := i + 1;
        }
        assert list[..i] == list;
      }
    }

    /**
     * `setVisibilityOfSetItems`: set the flag of every item the set lists;
     * nothing changes for a set missing from the index.
     */
    method SetVisibilityOfSetItems(setId: nat, visible: bool)
      modifies Repr()
      ensures Visible() == SetVisibility(old(Visible()), setItems, setId, visible)
    {
      if setId in setItems {
        var list := setItems[setId];
        MembersInAll(setItems, setId);
        var i := 0;
        while i < |list|
          invariant 0 <= i <= |list|
          invariant forall it :: it in Repr() ==>
            it.isVisible == (if it in list[..i] then visible else old(it.isVisible))
        {
          list[i].isVisible := visible;
          i := i + 1;
        }
        assert list[..i] == list;
      }
    }

    /** `setVisibleGroup`: close the open group, then open `group`. */
    method SetVisibleGroup(group: GroupDefinition)
      modifies this`lastSelectedGroup, Repr()
      ensures State() == VisibleGroup(old(State()), groupItems, group)
    {
      if lastSelectedGroup.Some? {
        SetVisibilityOfGroupItems(lastSelectedGroup.value, false);
      }
      lastSelectedGroup := Some(group);
      SetVisibilityOfGroupItems(group, true);
    }

    /** `setVisibleSet`: hide the last beatmap's set, then record `beatmap` and show its set. */
    method SetVisibleSet(beatmap: Beatmap)
      modifies this`lastSelectedBeatmap, Repr()
      ensures State() == VisibleSet(old(State()), setItems, beatmap)
    {
      if lastSelectedBeatmap.Some? {
        SetVisibilityOfSetItems(lastSelectedBeatmap.value.setId, false);
      }
      lastSelectedBeatmap := Some(beatmap);
      SetVisibilityOfSetItems(beatmap.setId, true);
    }

    /**
     * `HandleItemSelected`: react to the selection of `model`. The new state and
     * the returned verdict are those of `HandleSelection`; when the selection
     * throws, nothing has changed.
     */
    method HandleItemSelected(model: Model) returns (r: Result<bool, CarouselError>)
      modifies this`lastSelectedGroup, this`lastSelectedBeatmap, this`currentSelection, Repr()
      ensures match HandleSelection(old(State()), model, criteria, groupItems, setItems)
        case Success(h) => r == Success(h.isFinal) && State() == h.state
        case Failure(e) => r == Failure(e) && State() == old(State())
    {
      match model
      case GroupModel(group) =>
        if lastSelectedGroup == Some(group) {
          SetVisibilityOfGroupItems(group, false);
          lastSelectedGroup := None;
          return Success(false);
        }
        SetVisibleGroup(group);
        return Success(false);
      case SetModel(s) =>
        if |s.beatmaps| == 0 {
          return Failure(InvalidOperation);
        }
        currentSelection := Some(BeatmapModel(s.beatmaps[0]));
        return Success(false);
      case BeatmapModel(b) =>
        if criteria.splitOutDifficulties {
          var found := FindContainingGroup(groupItems, b);
          match found
          case Failure(e) =>
            return Failure(e);
          case Success(None) =>
          case Success(Some(group)) =>
            SetVisibleGroup(group);
        } else {
          SetVisibleSet(b);
        }
        return Success(true);
      case OtherModel =>
        return Success(true);
    }
  }
}
