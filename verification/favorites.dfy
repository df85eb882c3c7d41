/**
 * The favourites list of the search page (`toggleFavorite` and `isFavorite`):
 * a list of catalogue items keyed by `trackId`, where toggling an item appends
 * it when no entry has its `trackId` and drops every entry with that
 * `trackId` otherwise.
 */
module Favorites {
  import opened Wrappers
  import opened JsonValue
  import opened Sequences

  /**
   * A catalogue record's `trackId`. Collection and artist records carry none,
   * and JavaScript's `===` finds two missing ids equal, so `Missing` is a key
   * like any other.
   */
  datatype TrackId = Missing | Id(value: int)

  /** A catalogue record: its `trackId` and every other field it came with. */
  datatype Item = Item(trackId: TrackId, attributes: Json)

  /** `list.find(fav => fav.trackId === id)`: the first entry with that key. */
  function Find(list: seq<Item>, id: TrackId): (found: Option<Item>)
    ensures found.Some? <==> exists i :: 0 <= i < |list| && list[i].trackId == id
    ensures found.Some? ==> found.value in list && found.value.trackId == id
    ensures found.Some? ==> exists i :: 0 <= i < |list| && list[i] == found.value
                                     && forall j :: 0 <= j < i ==> list[j].trackId != id
  {
    if list == [] then None
    else if list[0].trackId == id then Some(list[0])
    else Find(list[1..], id)
  }

  /** `list.some(fav => fav.trackId === item.trackId)`. */
  function IsFavorite(list: seq<Item>, item: Item): (r: bool)
    ensures r <==> exists i :: 0 <= i < |list| && list[i].trackId == item.trackId
  {
    list != [] && (list[0].trackId == item.trackId || IsFavorite(list[1..], item))
  }

  /** `list.filter(fav => fav.trackId !== id)`. */
  function Without(list: seq<Item>, id: TrackId): (r: seq<Item>)
    ensures |r| <= |list|
    ensures (forall i :: 0 <= i < |list| ==> list[i].trackId != id) ==> r == list
  {
    if list == [] then []
    else if list[0].trackId != id then [list[0]] + Without(list[1..], id)
    else Without(list[1..], id)
  }

  /** The filter keeps exactly the entries whose key differs. */
  lemma {:induction false} WithoutMembers(list: seq<Item>, id: TrackId)
    ensures forall x :: x in Without(list, id) <==> x in list && x.trackId != id
  {
    if list != [] {
      WithoutMembers(list[1..], id);
      assert list == [list[0]] + list[1..];
    }
  }

  /** The functional update that `toggleFavorite(item)` hands to the favourites state. */
  function Toggle(list: seq<Item>, item: Item): (r: seq<Item>)
    ensures !IsFavorite(list, item) ==> r == list + [item]
    ensures IsFavorite(list, item) ==> forall x :: x in r <==> x in list && x.trackId != item.trackId
  {
    WithoutMembers(list, item.trackId);
    match Find(list, item.trackId)
    case Some(_) => Without(list, item.trackId)
    case None => list + [item]
  }

  /** No two favourites share a `trackId`. */
  predicate UniqueKeys(list: seq<Item>) {
    forall i, j :: 0 <= i < j < |list| ==> list[i].trackId != list[j].trackId
  }

  /** Filtering distributes over concatenation: the survivors keep their relative order. */
  lemma {:induction false} WithoutConcat(a: seq<Item>, b: seq<Item>, id: TrackId)
    ensures Without(a + b, id) == Without(a, id) + Without(b, id)
  {
    if a == [] {
      assert a + b == b;
    } else {
      var ab := a + b;
      assert ab[0] == a[0] && ab[1..] == a[1..] + b;
      WithoutConcat(a[1..], b, id);
      WithoutStep(ab, id);
      WithoutStep(a, id);
      var head := if a[0].trackId != id then [a[0]] else [];
      ConcatAssoc(head, Without(a[1..], id), Without(b, id));
    }
  }

  /** One step of the filter on a non-empty list. */
  lemma WithoutStep(list: seq<Item>, id: TrackId)
    requires list != []
    ensures Without(list, id) == (if list[0].trackId != id then [list[0]] else []) + Without(list[1..], id)
  {
  }

  /** Filtering keeps keys unique. */
  lemma {:induction false} WithoutUnique(list: seq<Item>, id: TrackId)
    requires UniqueKeys(list)
    ensures UniqueKeys(Without(list, id))
  {
    if list != [] {
      WithoutUnique(list[1..], id);
      WithoutMembers(list[1..], id);
      var rest := Without(list[1..], id);
      if list[0].trackId != id {
        forall j | 0 <= j < |rest| ensures rest[j].trackId != list[0].trackId {
          assert rest[j] in list[1..];
        }
      }
    }
  }

  /** Toggling removes the item from the favourites when it is there, and adds it when it is not. */
  lemma ToggleFlips(list: seq<Item>, item: Item)
    ensures IsFavorite(Toggle(list, item), item) == !IsFavorite(list, item)
  {
    var r := Toggle(list, item);
    if !IsFavorite(list, item) {
      assert r[|list|] == item;
    }
  }

  /** Toggling one item leaves the favourite status of every other key as it was. */
  lemma ToggleKeepsOthers(list: seq<Item>, item: Item, other: Item)
    requires other.trackId != item.trackId
    ensures IsFavorite(Toggle(list, item), other) == IsFavorite(list, other)
  {
    var r := Toggle(list, item);
    if IsFavorite(list, item) {
      if IsFavorite(list, other) {
        var i :| 0 <= i < |list| && list[i].trackId == other.trackId;
        assert list[i] in r;
      }
      if IsFavorite(r, other) {
        var i :| 0 <= i < |r| && r[i].trackId == other.trackId;
        assert r[i] in list;
      }
    } else {
      if IsFavorite(r, other) {
        var i :| 0 <= i < |r| && r[i].trackId == other.trackId;
        assert i < |list|;
      }
      if IsFavorite(list, other) {
        var i :| 0 <= i < |list| && list[i].trackId == other.trackId;
        assert r[i] == list[i];
      }
    }
  }

  /** Removing a present item is exactly the order-preserving filter on its key. */
  lemma TogglePresentFilters(list: seq<Item>, item: Item, before: seq<Item>, after: seq<Item>)
    requires IsFavorite(list, item)
    requires list == before + after
    ensures Toggle(list, item) == Without(before, item.trackId) + Without(after, item.trackId)
  {
    WithoutConcat(before, after, item.trackId);
  }

  /** Starting with unique keys, a toggle keeps them unique. */
  lemma ToggleKeepsUnique(list: seq<Item>, item: Item)
    requires UniqueKeys(list)
    ensures UniqueKeys(Toggle(list, item))
  {
    if IsFavorite(list, item) {
      WithoutUnique(list, item.trackId);
    } else {
      var r := Toggle(list, item);
      forall i, j | 0 <= i < j < |r| ensures r[i].trackId != r[j].trackId {
        if j == |list| {
          assert r[i] == list[i];
        }
      }
    }
  }

  /** Adding and then removing an item gives back the list it started from. */
  lemma ToggleTwiceFromAbsent(list: seq<Item>, item: Item)
    requires !IsFavorite(list, item)
    ensures Toggle(Toggle(list, item), item) == list
  {
    var added := Toggle(list, item);
    assert added[|list|] == item;
    WithoutConcat(list, [item], item.trackId);
  }

  /**
   * Removing and then adding an item does not give back the list: the other
   * entries stay in place and the item goes to the end.
   */
  lemma ToggleTwiceFromPresent(list: seq<Item>, item: Item)
    requires IsFavorite(list, item)
    ensures Toggle(Toggle(list, item), item) == Without(list, item.trackId) + [item]
  {
    ToggleFlips(list, item);
  }
}
