/** The active-list views: the shopping page (src/routes/shopping.tsx), the
    current-list page (src/routes/lists/current.tsx), which compute the same
    view from the session id, and the dashboard card
    (src/components/current-list-card.tsx). */
module ActiveList {
  import opened Wrappers
  import opened Schema
  import Seqs
  import Lists
  import Session
  import Provider

  /** The filter `(i) => i.checked`. */
  predicate IsChecked(item: ListItem) {
    item.checked
  }

  /** `items.filter((i) => i.checked).length`: never more than the number of
      items, equal to it exactly when every item is checked, and zero exactly
      when none is. */
  function CheckedCount(items: seq<ListItem>): (n: nat)
    ensures n <= |items|
    ensures n == |items| <==> forall i :: 0 <= i < |items| ==> items[i].checked
    ensures n == 0 <==> forall i :: 0 <= i < |items| ==> !items[i].checked
  {
    Seqs.FilterFull(IsChecked, items);
    Seqs.FilterEmpty(IsChecked, items);
    |Seqs.Filter(IsChecked, items)|
  }

  /** Checking an unchecked item through `setItemChecked` raises the checked
      count by exactly one. */
  lemma CheckingRaisesCount(items: seq<ListItem>, p: ProductId, r: seq<ListItem>)
    requires Lists.CheckItem(items, p, true) == Some(r)
    requires forall i :: Lists.FirstFor(items, p, i) ==> !items[i].checked
    ensures CheckedCount(r) == CheckedCount(items) + 1
  {
    var k := Seqs.FirstIndex(Lists.ForProduct(p), items).value;
    assert Lists.FirstFor(items, p, k);
    assert r == items[k := items[k].(checked := true)];
    Seqs.FilterUpdateLength(IsChecked, items, k, items[k].(checked := true));
  }

  /** `totalItems > 0 ? (checkedItems / totalItems) * 100 : 0`, on exact
      reals: a percentage, 0 for an empty list and 100 when all is checked. */
  function Progress(checked: nat, total: nat): (p: real)
    requires checked <= total
    ensures total == 0 ==> p == 0.0
    ensures 0.0 <= p <= 100.0
    ensures total > 0 && checked == total ==> p == 100.0
    ensures total > 0 && checked == 0 ==> p == 0.0
  {
    if total > 0 then
      var c, t := checked as real, total as real;
      assert c / t <= 1.0 by {
        assert c / t * t == c;
      }
      (c / t) * 100.0
    else 0.0
  }

  /** `products.find((p) => p._id === item.productId)`. */
  function FindProduct(catalog: seq<Doc<Product>>, id: ProductId): (r: Option<Doc<Product>>)
    ensures r.Some? ==> r.value in catalog && r.value.id == id
    ensures r.None? <==> forall i :: 0 <= i < |catalog| ==> catalog[i].id != id
  {
    Seqs.Find((d: Doc<Product>) => d.id == id, catalog)
  }

  /** A rendered row: the item's position in the list, the item and its
      catalog product. */
  datatype VisibleRow = VisibleRow(index: nat, item: ListItem, product: Doc<Product>)

  /** The rows rendered from position `start` on: items whose product is not
      in the catalog render nothing (they are skipped, not errors); every
      other item renders once, in order, remembering its position. */
  function VisibleFrom(items: seq<ListItem>, catalog: seq<Doc<Product>>, start: nat): (r: seq<VisibleRow>)
    requires start <= |items|
    ensures forall k :: 0 <= k < |r| ==>
      start <= r[k].index < |items| && r[k].item == items[r[k].index] &&
      FindProduct(catalog, r[k].item.productId) == Some(r[k].product)
    ensures forall k, l :: 0 <= k < l < |r| ==> r[k].index < r[l].index
    decreases |items| - start
  {
    if start == |items| then []
    else
      var rest := VisibleFrom(items, catalog, start + 1);
      match FindProduct(catalog, items[start].productId)
      case None => rest
      case Some(p) => [VisibleRow(start, items[start], p)] + rest
  }

  /** Nothing with a known product is left out: every item from `start` on
      whose product is in the catalog has a rendered row. */
  lemma {:induction false} VisibleComplete(items: seq<ListItem>, catalog: seq<Doc<Product>>, start: nat, i: nat)
    requires start <= i < |items|
    requires FindProduct(catalog, items[i].productId).Some?
    ensures exists k :: 0 <= k < |VisibleFrom(items, catalog, start)| && VisibleFrom(items, catalog, start)[k].index == i
    decreases |items| - start
  {
    var r := VisibleFrom(items, catalog, start);
    var found := FindProduct(catalog, items[start].productId);
    if i == start {
      assert r == [VisibleRow(start, items[start], found.value)] + VisibleFrom(items, catalog, start + 1);
      assert r[0].index == i;
    } else {
      VisibleComplete(items, catalog, start + 1, i);
      var rest := VisibleFrom(items, catalog, start + 1);
      var k :| 0 <= k < |rest| && rest[k].index == i;
      if found.Some? {
        assert r == [VisibleRow(start, items[start], found.value)] + rest;
        assert r[k + 1] == rest[k];
      } else {
        assert r == rest;
      }
    }
  }

  /** `lists.find((l) => l._id === currentListId)`; a `null` id matches no list. */
  function FindActive(lists: seq<Doc<ShoppingList>>, current: Option<ListId>): (r: Option<Doc<ShoppingList>>)
    ensures r.Some? ==> current == Some(r.value.id) && r.value in lists
    ensures r.None? <==> current.None? || forall i :: 0 <= i < |lists| ==> lists[i].id != current.value
  {
    Seqs.Find((l: Doc<ShoppingList>) => Some(l.id) == current, lists)
  }

  /** What the shopping page and the current-list page show. */
  datatype PageView =
    | EmptyState
    | ActivePage(list: Doc<ShoppingList>, checked: nat, total: nat, progress: real,
                 rows: seq<VisibleRow>, canToggle: bool)

  /** The page for session id `current`: the empty state when there is no
      (truthy) id or no loaded list has it (a dangling id is shown as empty,
      not cleared); otherwise the list with its counts, progress and rows,
      with toggling disabled once the list is completed. */
  function PageOf(current: Option<ListId>, lists: seq<Doc<ShoppingList>>, catalog: seq<Doc<Product>>)
    : (v: PageView)
    ensures v.EmptyState? <==> current.None? || current.value == "" || FindActive(lists, current).None?
    ensures v.ActivePage? ==> current == Some(v.list.id) && v.list in lists
    ensures v.ActivePage? ==> v.total == |v.list.value.items| && v.checked <= v.total
    ensures v.ActivePage? ==> 0.0 <= v.progress <= 100.0
    ensures v.ActivePage? && v.total == 0 ==> v.progress == 0.0
    ensures v.ActivePage? ==> (v.canToggle <==> v.list.value.status != Completed)
    ensures v.ActivePage? ==> v.checked == CheckedCount(v.list.value.items)
    ensures v.ActivePage? ==> v.progress == Progress(v.checked, v.total)
    ensures v.ActivePage? ==> v.rows == VisibleFrom(v.list.value.items, catalog, 0)
  {
    var found := FindActive(lists, current);
    if current.None? || current.value == "" || found.None? then EmptyState
    else
      var l := found.value;
      var checked, total := CheckedCount(l.value.items), |l.value.items|;
      ActivePage(l, checked, total, Progress(checked, total), VisibleFrom(l.value.items, catalog, 0),
                 l.value.status != Completed)
  }

  /** The arguments of the position-based toggle call. */
  datatype ToggleArgs = ToggleArgs(listId: ListId, itemIndex: nat)

  /** Ticking the checkbox of rendered row `k`: no call for a completed list;
      otherwise the call addresses the item by its position in the whole
      list, not by its position among the rendered rows. */
  function ToggleRequest(v: PageView, k: nat): (r: Option<ToggleArgs>)
    requires v.ActivePage? && k < |v.rows|
    requires forall j :: 0 <= j < |v.rows| ==> v.rows[j].index < |v.list.value.items|
    ensures r.Some? <==> v.canToggle
    ensures r.Some? ==> r.value.listId == v.list.id && r.value.itemIndex == v.rows[k].index
    ensures r.Some? ==> r.value.itemIndex < |v.list.value.items|
  {
    if v.canToggle then Some(ToggleArgs(v.list.id, v.rows[k].index)) else None
  }

  /** The shopping page's finish button: `stopShopping()` on the store,
      after which the page shows its empty state whatever lists are loaded. */
  method FinishShopping(store: Session.ShoppingStore, lists: seq<Doc<ShoppingList>>, catalog: seq<Doc<Product>>)
    modifies store
    ensures store.currentListId == None
    ensures PageOf(store.currentListId, lists, catalog).EmptyState?
  {
    store.StopShopping();
  }

  /** The current-list page's finish button: `stopShopping()` on the
      provider, which clears the state (and, when storage is reachable, the
      stored key), after which the page shows its empty state. */
  method FinishCurrent(provider: Provider.ShoppingProvider, accessible: bool,
                       lists: seq<Doc<ShoppingList>>, catalog: seq<Doc<Product>>)
    modifies provider
    ensures provider.currentListId == None
    ensures accessible && old(provider.currentListId).Some? ==> Provider.StorageKey !in provider.storage
    ensures PageOf(provider.currentListId, lists, catalog).EmptyState?
  {
    provider.StopShopping(accessible);
  }

  /** The card's query argument: the id, or 'skip' (`None`) when there is no
      (truthy) id, in which case no lookup is issued. */
  function CardQuery(current: Option<ListId>): (args: Option<ListId>)
    ensures args.None? <==> current.None? || current.value == ""
    ensures args.Some? ==> args.value == current.value
  {
    if current.Some? && current.value != "" then current else None
  }

  /** What the dashboard card shows. */
  datatype CardView = EmptyCard | ActiveCard(list: ShoppingList, checked: nat, total: nat, progress: real)

  /** The card, given what the lookup returned (`None` while skipped or
      when no list came back): the empty state when there is no id or no
      list; otherwise the list's counts and progress. */
  function CardOf(current: Option<ListId>, lookup: Option<ShoppingList>): (v: CardView)
    ensures v.EmptyCard? <==> CardQuery(current).None? || lookup.None?
    ensures v.ActiveCard? ==> v.list == lookup.value
    ensures v.ActiveCard? ==> v.total == |v.list.items| && v.checked <= v.total
    ensures v.ActiveCard? ==> 0.0 <= v.progress <= 100.0
    ensures v.ActiveCard? && v.total == 0 ==> v.progress == 0.0
    ensures v.ActiveCard? ==> v.checked == CheckedCount(v.list.items)
    ensures v.ActiveCard? ==> v.progress == Progress(v.checked, v.total)
  {
    if CardQuery(current).None? || lookup.None? then EmptyCard
    else
      var l := lookup.value;
      var checked, total := CheckedCount(l.items), |l.items|;
      ActiveCard(l, checked, total, Progress(checked, total))
  }
}
