/**
 * The list of Claude-built items: the items the filter dropdown selects, their order with
 * favourites first, and the favourite toggle. The list's React state is the pair of inputs
 * (the items, sorted by recency when loaded, and the favourites set).
 */
module BuiltList {
  import opened Registry
  import Ordering

  /** `items.filter(keep)`. */
  function Keep(items: seq<RegistryItem>, keep: RegistryItem -> bool): (kept: seq<RegistryItem>)
    ensures forall x :: x in kept <==> x in items && keep(x)
    ensures multiset(kept) <= multiset(items)
    ensures |kept| <= |items|
  {
    if items == [] then []
    else
      var rest := Keep(items[1..], keep);
      assert items == [items[0]] + items[1..];
      if keep(items[0]) then [items[0]] + rest else rest
  }

  /** Filtering keeps the order of the items it keeps. */
  lemma {:induction false} KeepAppend(a: seq<RegistryItem>, b: seq<RegistryItem>, keep: RegistryItem -> bool)
    ensures Keep(a + b, keep) == Keep(a, keep) + Keep(b, keep)
  {
    if a == [] {
      assert a + b == b;
    } else {
      assert (a + b)[0] == a[0] && (a + b)[1..] == a[1..] + b;
      KeepAppend(a[1..], b, keep);
      if keep(a[0]) {
        assert [a[0]] + (Keep(a[1..], keep) + Keep(b, keep))
            == [a[0]] + Keep(a[1..], keep) + Keep(b, keep);
      }
    }
  }

  /** filteredItems for the dropdown value `filter`. */
  function FilteredItems(items: seq<RegistryItem>, filter: string, favorites: set<string>)
    : (shown: seq<RegistryItem>)
    ensures filter == "all" ==> shown == items
    ensures filter == "favorites" ==> forall x :: x in shown <==> x in items && x.id in favorites
    ensures filter != "all" && filter != "favorites"
            ==> forall x :: x in shown <==> x in items && TypeName(x.itemType) == filter
    ensures multiset(shown) <= multiset(items)
  {
    if filter == "all" then items
    else if filter == "favorites" then Keep(items, (item: RegistryItem) => item.id in favorites)
    else Keep(items, (item: RegistryItem) => TypeName(item.itemType) == filter)
  }

  /** A value that names no type, such as a misspelt one, shows nothing. */
  lemma UnknownFilterShowsNothing(items: seq<RegistryItem>, filter: string, favorites: set<string>)
    requires filter != "all" && filter != "favorites"
    requires forall t: ItemType :: TypeName(t) != filter
    ensures FilteredItems(items, filter, favorites) == []
  {
    var shown := FilteredItems(items, filter, favorites);
    assert forall k :: 0 <= k < |shown| ==> TypeName(shown[k].itemType) == filter;
  }

  /** The comparator of sortedItems as a key: favourite flag, then modification time. */
  function FavoritesFirstKey(favorites: set<string>, timeOf: string -> int): RegistryItem -> Ordering.Key {
    (item: RegistryItem) => Ordering.Key(if item.id in favorites then 1 else 0, timeOf(Modified(item)))
  }

  /** sortedItems: a sorted copy with favourites first and, within each group, newest first. */
  function SortedItems(filtered: seq<RegistryItem>, favorites: set<string>, timeOf: string -> int)
    : (sorted: seq<RegistryItem>)
    ensures multiset(sorted) == multiset(filtered)
    ensures forall i, j :: 0 <= i < j < |sorted| && sorted[j].id in favorites ==> sorted[i].id in favorites
    ensures forall i, j :: (0 <= i < j < |sorted| && (sorted[i].id in favorites <==> sorted[j].id in favorites)
                            ==> timeOf(Modified(sorted[i])) >= timeOf(Modified(sorted[j])))
  {
    var r := Ordering.SortDesc(filtered, FavoritesFirstKey(favorites, timeOf));
    assert forall i, j :: 0 <= i < j < |r| ==>
      Ordering.AtLeast(FavoritesFirstKey(favorites, timeOf)(r[i]), FavoritesFirstKey(favorites, timeOf)(r[j]));
    r
  }

  /** Items that tie on both keys keep the order they had in the filtered list. */
  lemma SortedItemsStable(filtered: seq<RegistryItem>, favorites: set<string>, timeOf: string -> int,
                          k: Ordering.Key)
    ensures Ordering.WithKey(SortedItems(filtered, favorites, timeOf), FavoritesFirstKey(favorites, timeOf), k)
         == Ordering.WithKey(filtered, FavoritesFirstKey(favorites, timeOf), k)
  {
    Ordering.SortDescStable(filtered, FavoritesFirstKey(favorites, timeOf), k);
  }

  /** The favourites after a toggle of `id`. */
  function Toggled(favorites: set<string>, id: string): (r: set<string>)
    ensures id in r <==> id !in favorites
    ensures forall other :: other != id ==> (other in r <==> other in favorites)
  {
    if id in favorites then favorites - {id} else favorites + {id}
  }

  /** Toggling twice restores the favourites. */
  lemma ToggleTwice(favorites: set<string>, id: string)
    ensures Toggled(Toggled(favorites, id), id) == favorites
  {
  }

  /**
   * handleToggleFavorite: the shown set decides between removeFavorite and addFavorite, which
   * work on the saved file; the returned set becomes the shown one.
   */
  method HandleToggleFavorite(store: FavoritesFile, shown: set<string>, item: RegistryItem)
    returns (newShown: set<string>)
    modifies store
    ensures newShown == store.saved
    ensures item.id in shown ==> store.saved == old(store.saved) - {item.id}
    ensures item.id !in shown ==> store.saved == old(store.saved) + {item.id}
    ensures shown == old(store.saved) ==> newShown == Toggled(shown, item.id)
  {
    if item.id in shown {
      newShown := store.RemoveFavorite(item.id);
    } else {
      newShown := store.AddFavorite(item.id);
    }
  }
}
