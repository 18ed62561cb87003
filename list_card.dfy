/** The shopping-list card (src/components/shopping-list.tsx): which actions
    each status offers, which request each action sends, and what the title
    links to. */
module ListCard {
  import opened Wrappers
  import opened Schema
  import Lists

  /** The dropdown entries a card can show. */
  datatype CardAction = MarkReady | StartShopping | MarkDraft | Edit | Delete

  /** `getDropdownItems`, switching on the list's stored status string. */
  function DropdownItems(status: string): (r: seq<CardAction>)
    ensures MarkReady in r <==> status == "draft"
    ensures StartShopping in r <==> status == "ready"
    ensures MarkDraft in r <==> status == "ready"
    ensures Edit in r <==> status == "draft" || status == "ready"
    ensures Delete in r <==> ParseStatus(status).Some?
    ensures r == [] <==> ParseStatus(status).None?
    ensures forall i, j :: 0 <= i < j < |r| ==> r[i] != r[j]
    ensures r != [] ==> r[|r| - 1] == Delete
  {
    match status
    case "draft" => [MarkReady, Edit, Delete]
    case "ready" => [StartShopping, MarkDraft, Edit, Delete]
    case "completed" => [Delete]
    case _ => []
  }

  /** The client routes a card action can open. */
  datatype Route = EditRoute(listId: ListId) | ShopRoute(listId: ListId)

  /** What an action does: an `updateList` or `deleteList` call, or a
      navigation. */
  datatype Request = Update(id: ListId, patch: Lists.ListPatch) | Remove(id: ListId) | Navigate(route: Route)

  /** The handlers: mark-ready and mark-draft send `updateList` with the
      status alone, delete sends `deleteList`, edit and start-shopping only
      navigate (start-shopping does not touch the session). */
  function Handle(a: CardAction, listId: ListId): (r: Request)
    ensures r.Update? <==> a == MarkReady || a == MarkDraft
    ensures r.Update? ==> r.id == listId && r.patch.name.None? && r.patch.items.None?
    ensures a == MarkReady ==> r.Update? && r.patch.status == Some(Ready)
    ensures a == MarkDraft ==> r.Update? && r.patch.status == Some(Draft)
    ensures a == Delete <==> r == Remove(listId)
    ensures a == StartShopping <==> r == Navigate(ShopRoute(listId))
    ensures a == Edit <==> r == Navigate(EditRoute(listId))
  {
    match a
    case MarkReady => Update(listId, Lists.ListPatch(None, Some(Ready), None))
    case MarkDraft => Update(listId, Lists.ListPatch(None, Some(Draft), None))
    case StartShopping => Navigate(ShopRoute(listId))
    case Edit => Navigate(EditRoute(listId))
    case Delete => Remove(listId)
  }

  /** The intended list lifecycle: draft to ready, back to draft, and ready
      to completed. The server does not enforce it (Lists.Patched). */
  predicate IntendedTransition(from: ListStatus, to: ListStatus) {
    (from == Draft && to == Ready) || (from == Ready && to == Draft) || (from == Ready && to == Completed)
  }

  /** Every status change a card offers is an intended transition out of
      the list's current status, and none of them asks for `completed`. */
  lemma OfferedChangesFollowLifecycle(s: ListStatus, listId: ListId, a: CardAction)
    requires a in DropdownItems(StatusName(s))
    requires Handle(a, listId).Update?
    ensures Handle(a, listId).patch.status.Some?
    ensures IntendedTransition(s, Handle(a, listId).patch.status.value)
    ensures Handle(a, listId).patch.status.value != Completed
  {
  }

  /** Applied to the list, a card's status change moves the status and
      `updatedAt` and leaves the name, items, owner and creation time alone. */
  lemma StatusChangeKeepsContent(l: ShoppingList, listId: ListId, a: CardAction, now: int)
    requires Handle(a, listId).Update?
    ensures var after := Lists.Patched(l, Handle(a, listId).patch, now);
      after == l.(status := Handle(a, listId).patch.status.value, updatedAt := now)
  {
  }

  /** What the card title shows. */
  datatype Title = EditLink(listId: ListId) | ShopLink(listId: ListId) | PlainName | NoTitle

  /** The title links to the editor for a draft, to the shop route for a
      ready list, and is plain text for a completed one; any other status
      renders no title. */
  function TitleOf(status: string, listId: ListId): (t: Title)
    ensures t.EditLink? <==> status == "draft"
    ensures t.ShopLink? <==> status == "ready"
    ensures t.PlainName? <==> status == "completed"
    ensures t.EditLink? || t.ShopLink? ==> t.listId == listId
    ensures t.NoTitle? <==> ParseStatus(status).None?
  {
    if status == "draft" then EditLink(listId)
    else if status == "ready" then ShopLink(listId)
    else if status == "completed" then PlainName
    else NoTitle
  }
}
