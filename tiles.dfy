/**
  The tile-list manager of the dashboard (src/components/TileGrid.tsx):
  an ordered list of tile ids, loaded from and saved to one local-storage
  slot, edited by remove, add and drag-and-drop reorder.
 */
module Tiles {

  import opened Optional

  /** The id whose tile shows the overview panel. */
  const OverviewId: string := "overview"

  /** The layout installed when nothing usable is saved. */
  const DefaultTiles: seq<string> := ["overview", "2", "3", "4"]

  /**
    What reading the `dashboard_tiles` key yields once `JSON.parse` has been
    applied to it. Writing the list with `JSON.stringify` and parsing it back
    gives the same list, so a save is modelled as storing `JsonArray(tiles)`.
    Reading and writing the slot are taken never to throw.
   */
  datatype Saved =
    | Missing                       // getItem returned null
    | EmptyString                   // "" is falsy and never parsed
    | ParseError                    // JSON.parse threw
    | NotArray                      // parsed, but not to an array
    | JsonArray(items: seq<string>)

  // ---------------------------------------------------------------------------
  // Load and save

  /** The list the load effect installs: a parsed array verbatim, else the default. */
  function LoadedTiles(saved: Saved): (r: seq<string>)
    ensures saved.JsonArray? ==> r == saved.items
    ensures !saved.JsonArray? ==> r == DefaultTiles
  {
    if saved.JsonArray? then saved.items else DefaultTiles
  }

  /** The slot after the save effect has seen `tiles`: an empty list is never written. */
  function Persisted(saved: Saved, tiles: seq<string>): (r: Saved)
    ensures |tiles| > 0 ==> r == JsonArray(tiles)
    ensures |tiles| == 0 ==> r == saved
  {
    if |tiles| > 0 then JsonArray(tiles) else saved
  }

  /** Saving a non-empty list and loading it again gives that list back. */
  lemma ReloadAfterSave(saved: Saved, tiles: seq<string>)
    requires |tiles| > 0
    ensures LoadedTiles(Persisted(saved, tiles)) == tiles
  {
  }

  /**
    Removing the only tile leaves the one-tile list in storage, so the next
    load brings that tile back.
   */
  lemma RemovingLastTileIsNotSaved(x: string)
    ensures Without([x], x) == []
    ensures Persisted(JsonArray([x]), Without([x], x)) == JsonArray([x])
    ensures LoadedTiles(Persisted(JsonArray([x]), Without([x], x))) == [x]
  {
    assert [x][1..] == [];
  }

  // ---------------------------------------------------------------------------
  // Remove: filter the id out

  /** `r` is `s` with some elements left out, the rest in their original order. */
  ghost predicate Subsequence<T>(r: seq<T>, s: seq<T>)
    decreases |s|
  {
    if r == [] then true
    else if s == [] then false
    else if r[0] == s[0] then Subsequence(r[1..], s[1..])
    else Subsequence(r, s[1..])
  }

  /** Every occurrence of `id` dropped; the other ids kept in their order. */
  function Without(s: seq<string>, id: string): (r: seq<string>)
    ensures id !in r
    ensures Subsequence(r, s)
  {
    if s == [] then []
    else
      if s[0] == id then Without(s[1..], id)
      else
        var rest := Without(s[1..], id);
        assert ([s[0]] + rest)[1..] == rest;
        [s[0]] + rest
  }

  /** Exactly the copies of `id` are gone: every other id keeps its number of occurrences. */
  lemma {:induction false} WithoutCounts(s: seq<string>, id: string)
    ensures multiset(Without(s, id)) == multiset(s)[id := 0]
  {
    if s != [] {
      WithoutCounts(s[1..], id);
      assert s == [s[0]] + s[1..];
      WithoutCons(s[0], s[1..], id);
    }
  }

  /** Removing an id that is not in the list changes nothing. */
  lemma {:induction false} WithoutAbsent(s: seq<string>, id: string)
    requires id !in s
    ensures Without(s, id) == s
  {
    if s != [] {
      WithoutAbsent(s[1..], id);
      assert s == [s[0]] + s[1..];
    }
  }

  /** Removing the same id twice is the same as removing it once. */
  lemma WithoutIdempotent(s: seq<string>, id: string)
    ensures Without(Without(s, id), id) == Without(s, id)
  {
    WithoutAbsent(Without(s, id), id);
  }

  /** One step of the filter: the head is kept unless it is `id`. */
  lemma WithoutCons(x: string, t: seq<string>, id: string)
    ensures Without([x] + t, id) == if x == id then Without(t, id) else [x] + Without(t, id)
  {
    assert ([x] + t)[0] == x && ([x] + t)[1..] == t;
  }

  /** Filtering distributes over concatenation: the kept ids stay in order across any split. */
  lemma {:induction false} WithoutAppend(a: seq<string>, b: seq<string>, id: string)
    ensures Without(a + b, id) == Without(a, id) + Without(b, id)
  {
    if a == [] {
      assert a + b == b;
    } else {
      WithoutAppend(a[1..], b, id);
      assert a + b == [a[0]] + (a[1..] + b);
      assert a == [a[0]] + a[1..];
      WithoutCons(a[0], a[1..] + b, id);
      WithoutCons(a[0], a[1..], id);
    }
  }

  // ---------------------------------------------------------------------------
  // Reorder: dnd-kit's `arrayMove`

  /** `s` with the element at index `i` taken out. */
  function RemoveAt<T>(s: seq<T>, i: nat): (r: seq<T>)
    requires i < |s|
    ensures |r| == |s| - 1
    ensures forall k :: 0 <= k < i ==> r[k] == s[k]
    ensures forall k :: i <= k < |r| ==> r[k] == s[k + 1]
  {
    s[..i] + s[i + 1..]
  }

  /** `s` with `x` spliced in so that it sits at index `i`. */
  function InsertAt<T>(s: seq<T>, i: nat, x: T): (r: seq<T>)
    requires i <= |s|
    ensures |r| == |s| + 1 && r[i] == x
    ensures forall k :: 0 <= k < i ==> r[k] == s[k]
    ensures forall k :: i < k < |r| ==> r[k] == s[k - 1]
  {
    s[..i] + [x] + s[i..]
  }

  /** Splicing an element in and taking it out again restores the list. */
  lemma RemoveInsertAt<T>(s: seq<T>, i: nat, x: T)
    requires i <= |s|
    ensures RemoveAt(InsertAt(s, i, x), i) == s
  {
  }

  /** Taking an element out and splicing it back at the same place restores the list. */
  lemma InsertRemoveAt<T>(s: seq<T>, i: nat)
    requires i < |s|
    ensures InsertAt(RemoveAt(s, i), i, s[i]) == s
  {
  }

  /** Taking out one element removes exactly one copy of it from the multiset. */
  lemma RemoveAtMultiset<T>(s: seq<T>, i: nat)
    requires i < |s|
    ensures multiset(RemoveAt(s, i)) + multiset{s[i]} == multiset(s)
  {
    assert s == s[..i] + [s[i]] + s[i + 1..];
  }

  /**
    `arrayMove(array, from, to)` for indices inside the array: the element at
    `from` is spliced out and spliced back in at `to`. It lands at `to`, the
    rest keep their relative order, and nothing is lost or added.
   */
  function ArrayMove<T>(s: seq<T>, from: nat, to: nat): (r: seq<T>)
    requires from < |s| && to < |s|
    ensures |r| == |s| && r[to] == s[from]
    ensures RemoveAt(r, to) == RemoveAt(s, from)
    ensures multiset(r) == multiset(s)
  {
    var rest := RemoveAt(s, from);
    RemoveInsertAt(rest, to, s[from]);
    RemoveAtMultiset(s, from);
    var r := InsertAt(rest, to, s[from]);
    assert r == rest[..to] + [s[from]] + rest[to..];
    assert rest == rest[..to] + rest[to..];
    r
  }

  /** Moving an element and moving it back restores the original list. */
  lemma ArrayMoveRoundTrip<T>(s: seq<T>, from: nat, to: nat)
    requires from < |s| && to < |s|
    ensures ArrayMove(ArrayMove(s, from, to), to, from) == s
  {
    var r := ArrayMove(s, from, to);
    InsertRemoveAt(s, from);
    assert ArrayMove(r, to, from) == InsertAt(RemoveAt(r, to), from, r[to]);
  }

  /** Position by position: which element of the old list each index of the moved list holds. */
  lemma ArrayMoveAt<T>(s: seq<T>, from: nat, to: nat, k: nat)
    requires from < |s| && to < |s| && k < |s|
    ensures from <= to ==>
      ArrayMove(s, from, to)[k] == (if k < from || to < k then s[k] else if k < to then s[k + 1] else s[from])
    ensures to < from ==>
      ArrayMove(s, from, to)[k] == (if k < to || from < k then s[k] else if to < k then s[k - 1] else s[from])
  {
    var r := ArrayMove(s, from, to);
    var rest := RemoveAt(s, from);
    if k != to {
      var j := if k < to then k else k - 1;
      assert r[k] == rest[j];
    }
  }

  /** `Array.prototype.indexOf`: the first index holding `x`, or -1 when there is none. */
  function IndexOf(s: seq<string>, x: string): (i: int)
    ensures -1 <= i < |s|
    ensures i == -1 <==> x !in s
    ensures 0 <= i ==> s[i] == x && forall j :: 0 <= j < i ==> s[j] != x
  {
    if s == [] then -1
    else if s[0] == x then 0
    else
      var j := IndexOf(s[1..], x);
      assert s == [s[0]] + s[1..];
      if j < 0 then -1 else j + 1
  }

  /**
    The list `handleDragEnd` installs: `arrayMove` from the first index of the
    dragged id to the first index of the target id. A target index of -1 (a
    target id not in the list) is resolved the way `arrayMove`'s splice
    resolves it, to the last index.
   */
  function Reordered(s: seq<string>, active: string, over: string): (r: seq<string>)
    requires active in s
    ensures |r| == |s| && multiset(r) == multiset(s)
    ensures over in s ==> r[IndexOf(s, over)] == active
    ensures over !in s ==> r[|s| - 1] == active
  {
    var from := IndexOf(s, active);
    var to := IndexOf(s, over);
    ArrayMove(s, from, if to < 0 then |s| + to else to)
  }

  /**
    With both ids in the list, the dragged tile ends at the index the target
    tile held, the list is a permutation of the old one, and every other tile
    keeps its relative order.
   */
  lemma ReorderedMoves(s: seq<string>, active: string, over: string)
    requires active in s && over in s
    ensures var r := Reordered(s, active, over);
      && multiset(r) == multiset(s)
      && r[IndexOf(s, over)] == active
      && RemoveAt(r, IndexOf(s, over)) == RemoveAt(s, IndexOf(s, active))
  {
  }

  /** A target id that is not in the list sends the dragged tile to the end. */
  lemma ReorderedToMissingTarget(s: seq<string>, active: string, over: string)
    requires active in s && over !in s
    ensures Reordered(s, active, over) == RemoveAt(s, IndexOf(s, active)) + [active]
  {
    var r := Reordered(s, active, over);
    var rest := RemoveAt(s, IndexOf(s, active));
    assert r == InsertAt(rest, |s| - 1, active);
    assert rest[..|s| - 1] == rest;
  }

  // ---------------------------------------------------------------------------
  // Unique ids

  /** No id occurs more than once. */
  ghost predicate Distinct(s: seq<string>)
  {
    forall x :: multiset(s)[x] <= 1
  }

  /** The default layout has unique ids. */
  lemma DefaultTilesDistinct()
    ensures Distinct(DefaultTiles)
  {
    var m := multiset(DefaultTiles);
    assert m == multiset{"overview", "2", "3", "4"};
  }

  /** Removing an id keeps ids unique. */
  lemma WithoutKeepsDistinct(s: seq<string>, id: string)
    requires Distinct(s)
    ensures Distinct(Without(s, id))
  {
    WithoutCounts(s, id);
  }

  /** Appending keeps ids unique only when the new id is fresh; a repeated id breaks it. */
  lemma AppendDistinct(s: seq<string>, newId: string)
    requires Distinct(s)
    ensures Distinct(s + [newId]) <==> newId !in s
  {
    assert multiset(s + [newId]) == multiset(s) + multiset{newId};
    if newId in s {
      assert multiset(s + [newId])[newId] >= 2;
    }
  }

  /** Reordering keeps ids unique. */
  lemma ReorderedKeepsDistinct(s: seq<string>, active: string, over: string)
    requires Distinct(s) && active in s
    ensures Distinct(Reordered(s, active, over))
  {
  }

  // ---------------------------------------------------------------------------
  // Rendering

  /** What a rendered tile holds: the overview panel, or nothing. */
  datatype Content = OverviewContent | NoContent

  /** One tile per id, in list order; only the id "overview" gets the overview panel. */
  function Rendered(tiles: seq<string>): (r: seq<Content>)
    ensures |r| == |tiles|
    ensures forall i :: 0 <= i < |r| ==> (r[i] == OverviewContent <==> tiles[i] == OverviewId)
  {
    seq(|tiles|, i requires 0 <= i < |tiles| => if tiles[i] == OverviewId then OverviewContent else NoContent)
  }

  // ---------------------------------------------------------------------------
  // The component

  /**
    The `TileGrid` component's state: the `tiles` list and the storage slot
    it is saved to. Every handler that replaces `tiles` is followed by the
    save effect, which writes the list unless it is empty.
   */
  class TileGrid {
    var tiles: seq<string>
    var stored: Saved

    /** After mounting, the slot holds an array, and it holds the current list whenever that is non-empty. */
    ghost predicate Synced()
      reads this
    {
      stored.JsonArray? && (|tiles| > 0 ==> stored.items == tiles)
    }

    /** The first render: an empty list, storage as the browser holds it. */
    constructor (saved: Saved)
      ensures tiles == [] && stored == saved
    {
      tiles := [];
      stored := saved;
    }

    /** The save effect: write the list unless it is empty. */
    method Persist()
      modifies this`stored
      ensures stored == Persisted(old(stored), tiles)
    {
      stored := Persisted(stored, tiles);
    }

    /** The load effect on mount, then the save effect of the render it causes. */
    method Load()
      modifies this
      ensures tiles == LoadedTiles(old(stored))
      ensures stored == Persisted(old(stored), tiles)
      ensures Synced()
    {
      tiles := LoadedTiles(stored);
      Persist();
    }

    /** `handleRemove(id)`. */
    method Remove(id: string)
      modifies this
      ensures tiles == Without(old(tiles), id)
      ensures stored == Persisted(old(stored), tiles)
      ensures old(Synced()) ==> Synced()
    {
      tiles := Without(tiles, id);
      Persist();
    }

    /** `handleAddTile()`, with the randomly generated id passed in. */
    method Add(newId: string)
      modifies this
      ensures tiles == old(tiles) + [newId]
      ensures stored == JsonArray(tiles)
      ensures old(Synced()) ==> Synced()
    {
      tiles := tiles + [newId];
      Persist();
    }

    /**
      `handleDragEnd`: nothing happens without a target or when the tile is
      dropped on itself; otherwise the list is reordered and saved. The
      dragged id is always a rendered tile.
     */
    method DragEnd(active: string, over: Option<string>)
      requires active in tiles
      modifies this
      ensures over.None? || over.value == active ==> tiles == old(tiles) && stored == old(stored)
      ensures over.Some? && over.value != active ==>
        tiles == Reordered(old(tiles), active, over.value) && stored == JsonArray(tiles)
      ensures old(Synced()) ==> Synced()
    {
      if over.Some? && active != over.value {
        tiles := Reordered(tiles, active, over.value);
        Persist();
      }
    }
  }
}
