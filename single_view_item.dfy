/** One row of a project's saved views: the favourite star, whose handlers
    update the cached views list before calling the views service, and the
    number of filters the view applies. */
module SingleViewItem {
  import opened Js
  import opened Entities
  import opened Services
  import opened Cache

  const AddFavoriteFailed := Toast("error", "Error!", "Couldn't add the view to favorites. Please try again.")
  const RemoveFavoriteFailed := Toast("error", "Error!", "Couldn't remove the view from favorites. Please try again.")

  /** The per-element update both handlers pass to the cache: the view whose
      id is `viewId` gets `is_favorite = flag`, every other view is copied. */
  function MarkFavorite(views: seq<View>, viewId: string, flag: bool): (r: seq<View>)
    ensures |r| == |views|
    ensures forall i :: 0 <= i < |views| ==>
      r[i].id == views[i].id && r[i].name == views[i].name && r[i].query_data == views[i].query_data
    ensures forall i :: 0 <= i < |views| && views[i].id == viewId ==> r[i].is_favorite == flag
    ensures forall i :: 0 <= i < |views| && views[i].id != viewId ==> r[i] == views[i]
  {
    seq(|views|, i requires 0 <= i < |views| =>
      views[i].(is_favorite := if views[i].id == viewId then flag else views[i].is_favorite))
  }

  /** Applying the same update twice is applying it once. */
  lemma MarkFavoriteIdempotent(views: seq<View>, viewId: string, flag: bool)
    ensures MarkFavorite(MarkFavorite(views, viewId, flag), viewId, flag) == MarkFavorite(views, viewId, flag)
  {
    var once := MarkFavorite(views, viewId, flag);
    var twice := MarkFavorite(once, viewId, flag);
    assert forall i :: 0 <= i < |views| ==> twice[i] == once[i];
  }

  /** Of two updates of the same view, the later one decides its flag. */
  lemma MarkFavoriteLastWins(views: seq<View>, viewId: string, first: bool, second: bool)
    ensures MarkFavorite(MarkFavorite(views, viewId, first), viewId, second) == MarkFavorite(views, viewId, second)
  {
    var a := MarkFavorite(MarkFavorite(views, viewId, first), viewId, second);
    var b := MarkFavorite(views, viewId, second);
    assert forall i :: 0 <= i < |views| ==> a[i] == b[i];
  }

  /** Removing a view from favourites undoes adding it, when it was not a
      favourite before. */
  lemma RemoveUndoesAdd(views: seq<View>, viewId: string)
    requires forall i :: 0 <= i < |views| && views[i].id == viewId ==> !views[i].is_favorite
    ensures MarkFavorite(MarkFavorite(views, viewId, true), viewId, false) == views
  {
    var r := MarkFavorite(MarkFavorite(views, viewId, true), viewId, false);
    assert forall i :: 0 <= i < |views| ==> r[i] == views[i];
  }

  /** `prevData ?? []`: the cached views list, or the empty list when the key
      holds nothing. */
  function CachedViews(entries: map<FetchKey, CacheValue>, key: FetchKey): (r: seq<View>)
    ensures key !in entries ==> r == []
    ensures key in entries && entries[key].ViewsValue? ==> r == entries[key].views
  {
    if key in entries && entries[key].ViewsValue? then entries[key].views else []
  }

  /** The guard of the add handler: `workspaceSlug`, `projectId` and `view` present. */
  predicate CanAdd(workspaceSlug: QueryParam, projectId: QueryParam, view: Option<View>) {
    Present(workspaceSlug) && Present(projectId) && view.Some?
  }

  /** The guard of the remove handler does not look at `projectId`. */
  predicate CanRemove(workspaceSlug: QueryParam, view: Option<View>) {
    Present(workspaceSlug) && view.Some?
  }

  /** Mark the view as a favourite in the cached list of the project (no
      revalidation), then ask the service; a failure only raises a toast and
      the cached list keeps the optimistic value. */
  method HandleAddToFavorites(cache: FetchCache, workspaceSlug: QueryParam, projectId: QueryParam,
                              view: Option<View>, serviceSucceeds: bool)
    returns (call: Option<ServiceCall>, toast: Option<Toast>)
    requires cache.Valid()
    modifies cache
    ensures cache.Valid() && cache.revalidations == old(cache.revalidations)
    ensures !CanAdd(workspaceSlug, projectId, view) ==>
      cache.entries == old(cache.entries) && call == None && toast == None
    ensures CanAdd(workspaceSlug, projectId, view) ==>
      && cache.entries == old(cache.entries)[ViewsList(projectId) :=
           ViewsValue(MarkFavorite(CachedViews(old(cache.entries), ViewsList(projectId)), view.value.id, true))]
      && call == Some(AddViewToFavorites(workspaceSlug.value, projectId.value, view.value.id))
      && toast == (if serviceSucceeds then None else Some(AddFavoriteFailed))
  {
    if !CanAdd(workspaceSlug, projectId, view) {
      return None, None;
    }
    var key := ViewsList(projectId);
    cache.Write(key, ViewsValue(MarkFavorite(CachedViews(cache.entries, key), view.value.id, true)));
    call := Some(AddViewToFavorites(workspaceSlug.value, projectId.value, view.value.id));
    toast := if serviceSucceeds then None else Some(AddFavoriteFailed);
  }

  /** Clear the favourite flag of the view in the cached list under the raw
      `projectId` (which may be undefined), then ask the service; a failure
      only raises a toast. */
  method HandleRemoveFromFavorites(cache: FetchCache, workspaceSlug: QueryParam, projectId: QueryParam,
                                   view: Option<View>, serviceSucceeds: bool)
    returns (call: Option<ServiceCall>, toast: Option<Toast>)
    requires cache.Valid()
    modifies cache
    ensures cache.Valid() && cache.revalidations == old(cache.revalidations)
    ensures !CanRemove(workspaceSlug, view) ==>
      cache.entries == old(cache.entries) && call == None && toast == None
    ensures CanRemove(workspaceSlug, view) ==>
      && cache.entries == old(cache.entries)[ViewsList(projectId) :=
           ViewsValue(MarkFavorite(CachedViews(old(cache.entries), ViewsList(projectId)), view.value.id, false))]
      && call == Some(RemoveViewFromFavorites(workspaceSlug.value, projectId, view.value.id))
      && toast == (if serviceSucceeds then None else Some(RemoveFavoriteFailed))
  {
    if !CanRemove(workspaceSlug, view) {
      return None, None;
    }
    var key := ViewsList(projectId);
    cache.Write(key, ViewsValue(MarkFavorite(CachedViews(cache.entries, key), view.value.id, false)));
    call := Some(RemoveViewFromFavorites(workspaceSlug.value, projectId, view.value.id));
    toast := if serviceSucceeds then None else Some(RemoveFavoriteFailed);
  }

  // The filter count shown beside the view's name.

  /** What one `query_data` property contributes: its length, or 0 for null. */
  function EntryLength(e: (string, Option<seq<string>>)): nat {
    match e.1
    case None => 0
    case Some(values) => |values|
  }

  /** The `map` step: one contribution per property, in property order. */
  function Contributions(q: QueryData): (r: seq<nat>)
    ensures |r| == |q|
    ensures forall i :: 0 <= i < |q| ==> r[i] == EntryLength(q[i])
  {
    seq(|q|, i requires 0 <= i < |q| => EntryLength(q[i]))
  }

  /** The `reduce((curr, prev) => curr + prev, acc)` step, a left fold. */
  function Reduce(acc: int, s: seq<nat>): (r: int)
    ensures r >= acc
    ensures r == acc <==> forall i :: 0 <= i < |s| ==> s[i] == 0
    decreases s
  {
    if s == [] then acc else Reduce(acc + s[0], s[1..])
  }

  function FilterCount(q: QueryData): (r: int)
    ensures r >= 0
    ensures r == 0 <==> forall i :: 0 <= i < |q| ==> EntryLength(q[i]) == 0
  {
    Reduce(0, Contributions(q))
  }

  /** Every filter value of the view, the null properties contributing none. */
  function AllFilterValues(q: QueryData): seq<string> {
    if q == [] then [] else (if q[0].1.Some? then q[0].1.value else []) + AllFilterValues(q[1..])
  }

  lemma {:induction false} ReduceCountsValues(acc: int, q: QueryData)
    ensures Reduce(acc, Contributions(q)) == acc + |AllFilterValues(q)|
    decreases q
  {
    if q != [] {
      assert Contributions(q)[1..] == Contributions(q[1..]);
      ReduceCountsValues(acc + EntryLength(q[0]), q[1..]);
    }
  }

  /** The filter count is the number of filter values over all properties. */
  lemma FilterCountIsNumberOfValues(q: QueryData)
    ensures FilterCount(q) == |AllFilterValues(q)|
  {
    ReduceCountsValues(0, q);
  }

  lemma {:induction false} AllFilterValuesAppend(a: QueryData, b: QueryData)
    ensures AllFilterValues(a + b) == AllFilterValues(a) + AllFilterValues(b)
  {
    if a == [] {
      assert a + b == b;
    } else {
      assert (a + b)[0] == a[0];
      assert (a + b)[1..] == a[1..] + b;
      AllFilterValuesAppend(a[1..], b);
    }
  }

  /** The count adds up over the properties, and a null property adds
      nothing while a list adds its length. */
  lemma FilterCountAdds(a: QueryData, key: string, value: Option<seq<string>>)
    ensures FilterCount(a + [(key, value)]) == FilterCount(a) + (if value.None? then 0 else |value.value|)
  {
    FilterCountIsNumberOfValues(a);
    FilterCountIsNumberOfValues(a + [(key, value)]);
    AllFilterValuesAppend(a, [(key, value)]);
    assert AllFilterValues([(key, value)]) == (if value.Some? then value.value else []) + AllFilterValues([]);
  }
}
