/** The active-list session: at most one list id being shopped, overwritten
    by start and cleared by stop. The pure step function is shared by the
    zustand store (src/components/shopping-store.ts) below and the React
    provider (module Provider). */
module Session {
  import opened Wrappers
  import opened Schema

  /** What a client can do to the session. */
  datatype SessionAction = Start(listId: ListId) | Stop

  /** One action: start overwrites any previous id (nothing is stacked),
      stop clears it. */
  function Step(current: Option<ListId>, a: SessionAction): (r: Option<ListId>)
    ensures a.Start? ==> r == Some(a.listId)
    ensures a.Stop? ==> r.None?
  {
    match a
    case Start(id) => Some(id)
    case Stop => None
  }

  /** A sequence of actions, applied in order. */
  function Run(current: Option<ListId>, actions: seq<SessionAction>): Option<ListId>
    decreases |actions|
  {
    if actions == [] then current else Run(Step(current, actions[0]), actions[1..])
  }

  /** Running two sequences one after the other is running their concatenation. */
  lemma {:induction false} RunAppend(current: Option<ListId>, a: seq<SessionAction>, b: seq<SessionAction>)
    ensures Run(current, a + b) == Run(Run(current, a), b)
    decreases |a|
  {
    if a == [] {
      assert a + b == b;
    } else {
      assert (a + b)[1..] == a[1..] + b;
      RunAppend(Step(current, a[0]), a[1..], b);
    }
  }

  /** After any non-empty sequence of actions the session holds what the last
      action left: the id of the last start, or nothing after a final stop. */
  lemma {:induction false} RunLast(current: Option<ListId>, actions: seq<SessionAction>)
    requires actions != []
    ensures Run(current, actions) == match actions[|actions| - 1]
      case Start(id) => Some(id)
      case Stop => None
    decreases |actions|
  {
    if |actions| > 1 {
      RunLast(Step(current, actions[0]), actions[1..]);
    }
  }

  /** Start then stop gives no session; stop then start gives the started id;
      stopping twice is stopping once. */
  lemma StartStopRoundTrips(current: Option<ListId>, id: ListId)
    ensures Run(current, [Start(id), Stop]) == None
    ensures Run(current, [Stop, Start(id)]) == Some(id)
    ensures Run(current, [Stop, Stop]) == Run(current, [Stop])
  {
    RunLast(current, [Start(id), Stop]);
    RunLast(current, [Stop, Start(id)]);
    RunLast(current, [Stop, Stop]);
    RunLast(current, [Stop]);
  }

  /** What the persist middleware stores: the id alone, not the actions. */
  datatype PersistedSession = PersistedSession(currentListId: Option<ListId>)

  /** The zustand store `useShoppingStore`. */
  class ShoppingStore {
    var currentListId: Option<ListId>

    /** The store starts with no active list. */
    constructor ()
      ensures currentListId == None
    {
      currentListId := None;
    }

    /** `startShopping(listId)`. */
    method StartShopping(listId: ListId)
      modifies this
      ensures currentListId == Step(old(currentListId), Start(listId))
    {
      currentListId := Some(listId);
    }

    /** `stopShopping()`. */
    method StopShopping()
      modifies this
      ensures currentListId == Step(old(currentListId), Stop)
    {
      currentListId := None;
    }

    /** `partialize`: the persisted part of the state is the current id. */
    function Persisted(): (p: PersistedSession)
      reads this
      ensures p.currentListId == currentListId
    {
      PersistedSession(currentListId)
    }
  }
}
