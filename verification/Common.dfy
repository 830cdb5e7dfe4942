/** Small notions that all parts share. */
module Common {

  datatype Option<+T> = None | Some(value: T)

  ghost predicate Distinct<T>(s: seq<T>)
  {
    forall i, j :: 0 <= i < j < |s| ==> s[i] != s[j]
  }

  // ---------------------------------------------------------------- picking elements in order

  /** `places` are the positions of `whole` that are kept, in ascending order. */
  ghost predicate Places<T>(places: seq<int>, whole: seq<T>, keep: T -> bool)
  {
    (forall i, j :: 0 <= i < j < |places| ==> places[i] < places[j]) && (forall i :: 0 <= i < |places| ==> 0 <= places[i] < |whole|) &&
    forall p :: 0 <= p < |whole| ==> (keep(whole[p]) <==> p in places)
  }

  ghost predicate PicksAt<T>(part: seq<T>, whole: seq<T>, keep: T -> bool, places: seq<int>)
  {
    Places(places, whole, keep) && |part| == |places| && forall i :: 0 <= i < |part| ==> part[i] == whole[places[i]]
  }

  /** `part` lists the elements of `whole` that are kept, each as often as it occurs and in the same order. */
  ghost predicate Picks<T>(part: seq<T>, whole: seq<T>, keep: T -> bool)
  {
    exists places :: PicksAt(part, whole, keep, places)
  }

  lemma PicksNone<T>(keep: T -> bool)
    ensures Picks([], [], keep)
  {
    assert PicksAt([], [], keep, []);
  }

  lemma PlacesKeep<T>(places: seq<int>, whole: seq<T>, x: T, keep: T -> bool)
    requires Places(places, whole, keep) && keep(x)
    ensures Places(places + [|whole|], whole + [x], keep)
  {
    var places', whole' := places + [|whole|], whole + [x];
    forall p | 0 <= p < |whole'|
      ensures keep(whole'[p]) <==> p in places'
    {
      if p < |whole| {
        assert whole'[p] == whole[p] && (p in places' <==> p in places);
      } else {
        assert places'[|places|] == p && whole'[p] == x;
      }
    }
  }

  lemma PlacesSkip<T>(places: seq<int>, whole: seq<T>, x: T, keep: T -> bool)
    requires Places(places, whole, keep) && !keep(x)
    ensures Places(places, whole + [x], keep)
  {
    var whole' := whole + [x];
    forall p | 0 <= p < |whole'|
      ensures keep(whole'[p]) <==> p in places
    {
      if p < |whole| {
        assert whole'[p] == whole[p];
      } else {
        assert whole'[p] == x;
      }
    }
  }

  lemma PicksNext<T>(part: seq<T>, whole: seq<T>, x: T, keep: T -> bool)
    requires Picks(part, whole, keep)
    ensures Picks(part + if keep(x) then [x] else [], whole + [x], keep)
  {
    var places :| PicksAt(part, whole, keep, places);
    if keep(x) {
      PlacesKeep(places, whole, x, keep);
      hide Places;
      assert PicksAt(part + [x], whole + [x], keep, places + [|whole|]) by { InRange(places, whole, keep); }
    } else {
      PlacesSkip(places, whole, x, keep);
      assert part + [] == part;
      hide Places;
      assert PicksAt(part, whole + [x], keep, places) by { InRange(places, whole, keep); }
    }
  }

  lemma InRange<T>(places: seq<int>, whole: seq<T>, keep: T -> bool)
    requires Places(places, whole, keep)
    ensures forall i :: 0 <= i < |places| ==> 0 <= places[i] < |whole|
  {
  }
}
