/** The errors the server handlers throw and the order in which every
    owner-scoped handler checks its caller (convex/lists.ts, convex/templates.ts). */
module Access {
  import opened Wrappers
  import opened Schema

  /** The fixed set of errors a handler can throw. */
  datatype Error = UserNotFound | ListNotFound | TemplateNotFound | NotAuthorized | ProductNotFound

  /** The message each error is thrown with. */
  function Message(e: Error): string {
    match e
    case UserNotFound => "User not found"
    case ListNotFound => "List not found"
    case TemplateNotFound => "Template not found"
    case NotAuthorized => "User not authorized"
    case ProductNotFound => "Product not found"
  }

  /** No two errors share a message, so a client can tell them apart by
      their text alone. */
  lemma MessagesDistinct(e: Error, f: Error)
    requires Message(e) == Message(f)
    ensures e == f
  {
  }

  /** The checks every owner-scoped handler runs, in this order: a caller is
      signed in, the document exists (`owner` is its `userId`, `None` when the
      document is absent; `missing` is the not-found error of its table), and
      the caller owns it. */
  function Authorize(caller: Option<UserId>, owner: Option<UserId>, missing: Error): (r: Outcome<Error>)
    ensures r.Pass? <==> caller.Some? && owner.Some? && owner.value == caller.value
    ensures caller.None? ==> r == Fail(UserNotFound)
    ensures caller.Some? && owner.None? ==> r == Fail(missing)
    ensures caller.Some? && owner.Some? && owner.value != caller.value ==> r == Fail(NotAuthorized)
  {
    if caller.None? then Fail(UserNotFound)
    else if owner.None? then Fail(missing)
    else if owner.value != caller.value then Fail(NotAuthorized)
    else Pass
  }
}
