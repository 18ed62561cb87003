/** The server-side shopping-list handlers (convex/lists.ts) over a table of
    list documents keyed by id. */
module Lists {
  import opened Wrappers
  import opened Schema
  import opened Access
  import Seqs

  /** The optional fields of an `updateList` request; an absent field is
      left as it is. */
  datatype ListPatch = ListPatch(name: Option<string>, status: Option<ListStatus>, items: Option<seq<ListItem>>)

  /** The list after `updateList` has patched it at time `now`: exactly the
      supplied fields are replaced, whatever the current status, and only
      `updatedAt` moves besides them. */
  function Patched(l: ShoppingList, p: ListPatch, now: int): (r: ShoppingList)
    ensures r.userId == l.userId && r.createdAt == l.createdAt && r.updatedAt == now
    ensures p.name.None? ==> r.name == l.name
    ensures p.name.Some? ==> r.name == p.name.value
    ensures p.status.None? ==> r.status == l.status
    ensures p.status.Some? ==> r.status == p.status.value
    ensures p.items.None? ==> r.items == l.items
    ensures p.items.Some? ==> r.items == p.items.value
  {
    l.(name := p.name.GetOr(l.name), status := p.status.GetOr(l.status),
       items := p.items.GetOr(l.items), updatedAt := now)
  }

  /** Sending the same patch twice leaves the list as sending it once. */
  lemma PatchIdempotent(l: ShoppingList, p: ListPatch, now: int)
    ensures Patched(Patched(l, p, now), p, now) == Patched(l, p, now)
  {
  }

  /** The item predicate `item.productId === productId`. */
  function ForProduct(p: ProductId): ListItem -> bool {
    (item: ListItem) => item.productId == p
  }

  /** `i` is the position of the first item for product `p`. */
  ghost predicate FirstFor(items: seq<ListItem>, p: ProductId, i: int) {
    0 <= i < |items| && items[i].productId == p &&
    forall j :: 0 <= j < i ==> items[j].productId != p
  }

  /** The items after `setItemChecked`: the first item for product `p` gets
      `checked := c`, nothing else changes; `None` when no item is for `p`. */
  function CheckItem(items: seq<ListItem>, p: ProductId, c: bool): (r: Option<seq<ListItem>>)
    ensures r.None? <==> forall i :: 0 <= i < |items| ==> items[i].productId != p
    ensures r.Some? ==> |r.value| == |items|
    ensures r.Some? ==> forall i :: 0 <= i < |items| && FirstFor(items, p, i) ==>
      r.value[i] == items[i].(checked := c)
    ensures r.Some? ==> forall i :: 0 <= i < |items| && !FirstFor(items, p, i) ==>
      r.value[i] == items[i]
  {
    match Seqs.FirstIndex(ForProduct(p), items)
    case None => None
    case Some(k) => Some(items[k := items[k].(checked := c)])
  }

  /** Checking an item twice with the same value is the same as checking it once. */
  lemma CheckItemIdempotent(items: seq<ListItem>, p: ProductId, c: bool, r: seq<ListItem>)
    requires CheckItem(items, p, c) == Some(r)
    ensures CheckItem(r, p, c) == Some(r)
  {
    Seqs.FirstIndexCongruent(ForProduct(p), items, ForProduct(p), r);
    var k := Seqs.FirstIndex(ForProduct(p), items).value;
    assert r[k := r[k].(checked := c)] == r;
  }

  /** Checking an unchecked item and then unchecking it gives back the
      original items. */
  lemma CheckThenUncheckRestores(items: seq<ListItem>, p: ProductId, r: seq<ListItem>)
    requires CheckItem(items, p, true) == Some(r)
    requires forall i :: FirstFor(items, p, i) ==> !items[i].checked
    ensures CheckItem(r, p, false) == Some(items)
  {
    Seqs.FirstIndexCongruent(ForProduct(p), items, ForProduct(p), r);
    var k := Seqs.FirstIndex(ForProduct(p), items).value;
    assert FirstFor(items, p, k);
    assert r[k := r[k].(checked := false)] == items;
  }

  /** The `lists` table: documents keyed by id. */
  class ListStore {
    var docs: map<ListId, ShoppingList>

    constructor ()
      ensures docs == map[]
    {
      docs := map[];
    }

    /** The owner of list `id`, if it exists. */
    function Owner(id: ListId): Option<UserId>
      reads this
    {
      if id in docs then Some(docs[id].userId) else None
    }

    /** `createList`: a signed-in caller inserts a `draft` list holding the
        given name and items verbatim, stamped with `now` twice; `newId` is the
        fresh id the database assigns. */
    method CreateList(caller: Option<UserId>, name: string, items: seq<ListItem>, now: int, newId: ListId)
      returns (r: Result<ListId, Error>)
      requires newId !in docs
      modifies this
      ensures caller.None? ==> r == Failure(UserNotFound) && docs == old(docs)
      ensures caller.Some? ==> r == Success(newId)
      ensures caller.Some? ==>
        docs == old(docs)[newId := ShoppingList(caller.value, name, Draft, items, now, now)]
    {
      if caller.None? {
        return Failure(UserNotFound);
      }
      docs := docs[newId := ShoppingList(caller.value, name, Draft, items, now, now)];
      r := Success(newId);
    }

    /** `updateList`: after the caller, existence and ownership checks, patches
        the supplied fields and `updatedAt`; on any error nothing is written. */
    method UpdateList(caller: Option<UserId>, id: ListId, patch: ListPatch, now: int)
      returns (r: Outcome<Error>)
      modifies this
      ensures r == Authorize(caller, old(Owner(id)), ListNotFound)
      ensures r.Fail? ==> docs == old(docs)
      ensures r.Pass? ==> docs == old(docs)[id := Patched(old(docs)[id], patch, now)]
    {
      r := Authorize(caller, Owner(id), ListNotFound);
      if r.Pass? {
        docs := docs[id := Patched(docs[id], patch, now)];
      }
    }

    /** `deleteList`: after the same checks, removes exactly that list. */
    method DeleteList(caller: Option<UserId>, id: ListId) returns (r: Outcome<Error>)
      modifies this
      ensures r == Authorize(caller, old(Owner(id)), ListNotFound)
      ensures r.Fail? ==> docs == old(docs)
      ensures r.Pass? ==> docs == old(docs) - {id}
    {
      r := Authorize(caller, Owner(id), ListNotFound);
      if r.Pass? {
        docs := docs - {id};
      }
    }

    /** `setItemChecked`: after the same checks, locates the first item for
        `productId` and rewrites only its `checked` flag, bumping `updatedAt`;
        fails with "Product not found" when no item matches. */
    method SetItemChecked(caller: Option<UserId>, listId: ListId, productId: ProductId, checked: bool, now: int)
      returns (r: Outcome<Error>)
      modifies this
      ensures Authorize(caller, old(Owner(listId)), ListNotFound).Fail? ==>
        r == Authorize(caller, old(Owner(listId)), ListNotFound)
      ensures Authorize(caller, old(Owner(listId)), ListNotFound).Pass? ==>
        (r.Fail? <==> CheckItem(old(docs)[listId].items, productId, checked).None?)
      ensures r.Fail? && Authorize(caller, old(Owner(listId)), ListNotFound).Pass? ==>
        r == Fail(ProductNotFound)
      ensures r.Fail? ==> docs == old(docs)
      ensures r.Pass? ==> listId in old(docs) && docs == old(docs)[listId := old(docs)[listId].(
        items := CheckItem(old(docs)[listId].items, productId, checked).value,
        updatedAt := now)]
    {
      r := Authorize(caller, Owner(listId), ListNotFound);
      if r.Fail? {
        return;
      }
      var list := docs[listId];
      var newItems := list.items;
      var found := Seqs.FirstIndex(ForProduct(productId), newItems);
      if found.None? {
        return Fail(ProductNotFound);
      }
      var k := found.value;
      newItems := newItems[k := newItems[k].(checked := checked)];
      docs := docs[listId := list.(items := newItems, updatedAt := now)];
    }

    /** The caller's lists, as the `by_user` index yields them. */
    function OwnedBy(u: UserId): (r: map<ListId, ShoppingList>)
      reads this
      ensures forall id :: id in r <==> id in docs && docs[id].userId == u
      ensures forall id :: id in r ==> r[id] == docs[id]
    {
      map id | id in docs && docs[id].userId == u :: docs[id]
    }

    /** `getLists`: exactly the signed-in caller's lists, never another user's. */
    function GetLists(caller: Option<UserId>): (r: Result<map<ListId, ShoppingList>, Error>)
      reads this
      ensures caller.None? <==> r == Failure(UserNotFound)
      ensures r.Success? ==> forall id :: id in r.value <==> id in docs && docs[id].userId == caller.value
      ensures r.Success? ==> forall id :: id in r.value ==> r.value[id] == docs[id]
    {
      if caller.None? then Failure(UserNotFound) else Success(OwnedBy(caller.value))
    }

    /** `getListById`: the list, to its owner only; the same errors, in the
        same order, as the mutations. */
    function GetListById(caller: Option<UserId>, id: ListId): (r: Result<ShoppingList, Error>)
      reads this
      ensures r.Success? <==> caller.Some? && id in docs && docs[id].userId == caller.value
      ensures r.Success? ==> r.value == docs[id]
      ensures r.Failure? ==> Authorize(caller, Owner(id), ListNotFound) == Fail(r.error)
    {
      match Authorize(caller, Owner(id), ListNotFound)
      case Fail(e) => Failure(e)
      case Pass => Success(OwnedBy(caller.value)[id])
    }
  }
}
