/**
 * How the carousel's flat list of beatmaps follows change notifications about the
 * collection of beatmap sets it observes.
 */
module CollectionSync {
  import opened Wrappers
  import opened Beatmaps

  /** A change notification about the observed collection of beatmap sets. */
  datatype CollectionChange =
    | Add(newSets: seq<BeatmapSet>)
    | Remove(oldSets: seq<BeatmapSet>)
    | Move
    | Replace
    | Reset

  /** Every beatmap of every set, set by set and each set in its own order (`SelectMany`). */
  function AllBeatmaps(sets: seq<BeatmapSet>): seq<Beatmap>
  {
    if sets == [] then [] else sets[0].beatmaps + AllBeatmaps(sets[1..])
  }

  /** Does some beatmap of `removed` equal `x`? */
  predicate MatchesAny(x: Beatmap, removed: seq<Beatmap>)
  {
    exists b :: b in removed && SameBeatmap(b, x)
  }

  /**
   * Reference definition of a removal: `items` with every element equal to some
   * beatmap of `removed` dropped, all others kept in their order.
   */
  function KeepUnmatched(items: seq<Beatmap>, removed: seq<Beatmap>): seq<Beatmap>
  {
    if items == [] then []
    else if MatchesAny(items[0], removed) then KeepUnmatched(items[1..], removed)
    else [items[0]] + KeepUnmatched(items[1..], removed)
  }

  /** `List.RemoveAll` with the predicate `beatmap.Equals`. */
  function RemoveAll(items: seq<Beatmap>, beatmap: Beatmap): (r: seq<Beatmap>)
    ensures |r| <= |items|
    ensures forall x :: x in r ==> x in items && !SameBeatmap(beatmap, x)
    ensures forall x :: x in items && !SameBeatmap(beatmap, x) ==> x in r
  {
    if items == [] then []
    else if SameBeatmap(beatmap, items[0]) then RemoveAll(items[1..], beatmap)
    else [items[0]] + RemoveAll(items[1..], beatmap)
  }

  /** The inner `foreach` of a removal: `RemoveAll` for each beatmap of one set, in order. */
  function RemoveEach(items: seq<Beatmap>, beatmaps: seq<Beatmap>): seq<Beatmap>
    decreases |beatmaps|
  {
    if beatmaps == [] then items else RemoveEach(RemoveAll(items, beatmaps[0]), beatmaps[1..])
  }

  /** The outer `foreach` of a removal: `RemoveEach` for each removed set, in order. */
  function RemoveSets(items: seq<Beatmap>, sets: seq<BeatmapSet>): seq<Beatmap>
    decreases |sets|
  {
    if sets == [] then items else RemoveSets(RemoveEach(items, sets[0].beatmaps), sets[1..])
  }

  /** The new list of beatmaps after one change notification, or the exception it raises. */
  function ApplyChange(items: seq<Beatmap>, change: CollectionChange): (r: Result<seq<Beatmap>, CarouselError>)
    ensures r.Failure? <==> change.Move? || change.Replace?
    ensures r.Failure? ==> r.error == NotImplemented
    ensures change.Reset? ==> r == Success([])
    ensures change.Add? ==> r.Success? && |r.value| >= |items| && r.value[..|items|] == items
    ensures change.Remove? ==> r.Success? && |r.value| <= |items|
  {
    match change
    case Add(sets) => Success(items + AllBeatmaps(sets))
    case Remove(sets) => RemoveSetsShrinks(items, sets); Success(RemoveSets(items, sets))
    case Move => Failure(NotImplemented)
    case Replace => Failure(NotImplemented)
    case Reset => Success([])
  }

  // ---------------------------------------------------------------------------
  // Additions

  /** Flattening distributes over concatenation of set lists: set order is kept. */
  lemma {:induction false} AllBeatmapsAppend(a: seq<BeatmapSet>, b: seq<BeatmapSet>)
    ensures AllBeatmaps(a + b) == AllBeatmaps(a) + AllBeatmaps(b)
  {
    if a == [] {
      assert a + b == b;
    } else {
      assert (a + b)[1..] == a[1..] + b;
      AllBeatmapsAppend(a[1..], b);
    }
  }

  /** A beatmap is among the flattened beatmaps exactly when some set holds it. */
  lemma {:induction false} AllBeatmapsMembers(sets: seq<BeatmapSet>, x: Beatmap)
    ensures x in AllBeatmaps(sets) <==> exists i :: 0 <= i < |sets| && x in sets[i].beatmaps
  {
    if sets != [] {
      AllBeatmapsMembers(sets[1..], x);
      if x in AllBeatmaps(sets[1..]) {
        var i :| 0 <= i < |sets[1..]| && x in sets[1..][i].beatmaps;
        assert x in sets[i + 1].beatmaps;
      }
      if exists i :: 0 <= i < |sets| && x in sets[i].beatmaps {
        var i :| 0 <= i < |sets| && x in sets[i].beatmaps;
        if i > 0 {
          assert x in sets[1..][i - 1].beatmaps;
        }
      }
    }
  }

  /**
   * An Add notification appends the beatmaps of the new sets after the existing
   * items, set by set, each set in its own order; nothing else changes.
   */
  lemma AddAppendsInOrder(items: seq<Beatmap>, first: BeatmapSet, rest: seq<BeatmapSet>)
    ensures ApplyChange(items, Add([first] + rest))
         == Success(items + first.beatmaps + AllBeatmaps(rest))
  {
    assert ([first] + rest)[0] == first;
    assert ([first] + rest)[1..] == rest;
    assert AllBeatmaps([first] + rest) == first.beatmaps + AllBeatmaps(rest);
    assert items + AllBeatmaps([first] + rest) == items + first.beatmaps + AllBeatmaps(rest);
  }

  // ---------------------------------------------------------------------------
  // Removals

  /** The inner loop of a removal never lengthens the list. */
  lemma {:induction false} RemoveEachShrinks(items: seq<Beatmap>, beatmaps: seq<Beatmap>)
    ensures |RemoveEach(items, beatmaps)| <= |items|
    decreases |beatmaps|
  {
    if beatmaps != [] {
      RemoveEachShrinks(RemoveAll(items, beatmaps[0]), beatmaps[1..]);
    }
  }

  /** The nested loops of a removal never lengthen the list. */
  lemma {:induction false} RemoveSetsShrinks(items: seq<Beatmap>, sets: seq<BeatmapSet>)
    ensures |RemoveSets(items, sets)| <= |items|
    decreases |sets|
  {
    if sets != [] {
      RemoveEachShrinks(items, sets[0].beatmaps);
      RemoveSetsShrinks(RemoveEach(items, sets[0].beatmaps), sets[1..]);
    }
  }

  /** The reference removal keeps exactly the items that match nothing removed. */
  lemma {:induction false} KeepUnmatchedMembers(items: seq<Beatmap>, removed: seq<Beatmap>, x: Beatmap)
    ensures x in KeepUnmatched(items, removed) <==> x in items && !MatchesAny(x, removed)
  {
    if items != [] {
      KeepUnmatchedMembers(items[1..], removed, x);
      assert x in items <==> x == items[0] || x in items[1..];
    }
  }

  /** The reference removal works element by element, so relative order is kept. */
  lemma {:induction false} KeepUnmatchedAppend(a: seq<Beatmap>, b: seq<Beatmap>, removed: seq<Beatmap>)
    ensures KeepUnmatched(a + b, removed) == KeepUnmatched(a, removed) + KeepUnmatched(b, removed)
  {
    if a == [] {
      assert a + b == b;
    } else {
      assert (a + b)[0] == a[0];
      assert (a + b)[1..] == a[1..] + b;
      KeepUnmatchedAppend(a[1..], b, removed);
    }
  }

  /** Removing nothing that matches leaves the list as it was. */
  lemma {:induction false} KeepUnmatchedNone(items: seq<Beatmap>, removed: seq<Beatmap>)
    requires forall i :: 0 <= i < |items| ==> !MatchesAny(items[i], removed)
    ensures KeepUnmatched(items, removed) == items
  {
    if items != [] {
      assert !MatchesAny(items[0], removed);
      KeepUnmatchedNone(items[1..], removed);
    }
  }

  /** One `RemoveAll` after a reference removal is the reference removal of one more beatmap. */
  lemma {:induction false} RemoveAllExtends(items: seq<Beatmap>, removed: seq<Beatmap>, beatmap: Beatmap)
    ensures RemoveAll(KeepUnmatched(items, removed), beatmap) == KeepUnmatched(items, removed + [beatmap])
  {
    if items != [] {
      RemoveAllExtends(items[1..], removed, beatmap);
      var x := items[0];
      assert MatchesAny(x, removed + [beatmap]) <==> MatchesAny(x, removed) || SameBeatmap(beatmap, x) by {
        if SameBeatmap(beatmap, x) {
          assert beatmap in removed + [beatmap];
        }
        if MatchesAny(x, removed) {
          var b :| b in removed && SameBeatmap(b, x);
          assert b in removed + [beatmap];
        }
      }
    }
  }

  /** The inner loop of a removal is the reference removal of that set's beatmaps. */
  lemma {:induction false} RemoveEachExtends(items: seq<Beatmap>, removed: seq<Beatmap>, beatmaps: seq<Beatmap>)
    ensures RemoveEach(KeepUnmatched(items, removed), beatmaps) == KeepUnmatched(items, removed + beatmaps)
    decreases |beatmaps|
  {
    if beatmaps == [] {
      assert removed + beatmaps == removed;
    } else {
      RemoveAllExtends(items, removed, beatmaps[0]);
      RemoveEachExtends(items, removed + [beatmaps[0]], beatmaps[1..]);
      assert removed + [beatmaps[0]] + beatmaps[1..] == removed + beatmaps;
    }
  }

  /** The nested loops of a removal are the reference removal of all the sets' beatmaps. */
  lemma {:induction false} RemoveSetsExtends(items: seq<Beatmap>, removed: seq<Beatmap>, sets: seq<BeatmapSet>)
    ensures RemoveSets(KeepUnmatched(items, removed), sets) == KeepUnmatched(items, removed + AllBeatmaps(sets))
    decreases |sets|
  {
    if sets == [] {
      assert removed + AllBeatmaps(sets) == removed;
    } else {
      RemoveEachExtends(items, removed, sets[0].beatmaps);
      RemoveSetsExtends(items, removed + sets[0].beatmaps, sets[1..]);
      assert removed + sets[0].beatmaps + AllBeatmaps(sets[1..]) == removed + AllBeatmaps(sets);
    }
  }

  lemma {:induction false} KeepUnmatchedNothing(items: seq<Beatmap>)
    ensures KeepUnmatched(items, []) == items
  {
    if items != [] {
      KeepUnmatchedNothing(items[1..]);
    }
  }

  /**
   * A Remove notification drops every item equal to a beatmap of a removed set
   * and keeps every other item, in its original relative order.
   */
  lemma RemoveDeletesMatchesOnly(items: seq<Beatmap>, sets: seq<BeatmapSet>)
    ensures ApplyChange(items, Remove(sets)) == Success(KeepUnmatched(items, AllBeatmaps(sets)))
  {
    KeepUnmatchedNothing(items);
    RemoveSetsExtends(items, [], sets);
    assert [] + AllBeatmaps(sets) == AllBeatmaps(sets);
  }

  /** Removing sets right after adding them leaves what removing them alone would. */
  lemma AddThenRemove(items: seq<Beatmap>, sets: seq<BeatmapSet>)
    ensures ApplyChange(items, Add(sets)).Success?
    ensures ApplyChange(ApplyChange(items, Add(sets)).value, Remove(sets)) == ApplyChange(items, Remove(sets))
  {
    var added := AllBeatmaps(sets);
    RemoveDeletesMatchesOnly(items + added, sets);
    RemoveDeletesMatchesOnly(items, sets);
    KeepUnmatchedAppend(items, added, added);
    KeepAllMatched(added, added);
    assert ApplyChange(items, Add(sets)).value == items + added;
    assert KeepUnmatched(items + added, added) == KeepUnmatched(items, added) + [];
    assert KeepUnmatched(items, added) + [] == KeepUnmatched(items, added);
    assert ApplyChange(items + added, Remove(sets)) == Success(KeepUnmatched(items, added));
  }

  lemma {:induction false} KeepAllMatched(items: seq<Beatmap>, removed: seq<Beatmap>)
    requires forall x :: x in items ==> x in removed
    ensures KeepUnmatched(items, removed) == []
  {
    if items != [] {
      assert items[0] in removed && SameBeatmap(items[0], items[0]);
      KeepAllMatched(items[1..], removed);
    }
  }

  /** Adding one set to an empty list and then removing it gives the empty list again. */
  lemma AddThenRemoveEmpties(s: BeatmapSet)
    ensures ApplyChange([], Add([s])).Success?
    ensures ApplyChange(ApplyChange([], Add([s])).value, Remove([s])) == Success([])
  {
    AddThenRemove([], [s]);
    RemoveDeletesMatchesOnly([], [s]);
  }
}
