/** The React session provider (src/components/shopping-provider.tsx): the
    `currentListId` state, mirrored into browser storage by an effect that
    runs after every change, and the `useShopping` guard. Storage is a map
    from keys to strings; `accessible == false` stands for a storage call that
    throws, which the provider swallows. */
module Provider {
  import opened Wrappers
  import opened Schema
  import opened Session

  /** The storage key the id is kept under. */
  const StorageKey: string := "shopping.currentListId"

  /** The storage mirrors the state: the key holds the id when the state
      holds a (non-empty) id, and is absent otherwise. */
  ghost predicate Mirrors(storage: map<string, string>, current: Option<ListId>) {
    if current.Some? && current.value != "" then StorageKey in storage && storage[StorageKey] == current.value
    else StorageKey !in storage
  }

  /** The storage after the sync effect has run for state `current`: it
      mirrors the state and no other key changes. */
  function Synced(storage: map<string, string>, current: Option<ListId>): (r: map<string, string>)
    ensures Mirrors(r, current)
    ensures forall k :: k != StorageKey ==> (k in r <==> k in storage)
    ensures forall k :: k != StorageKey && k in r ==> r[k] == storage[k]
  {
    if current.Some? && current.value != "" then storage[StorageKey := current.value]
    else storage - {StorageKey}
  }

  /** The state a fresh mount loads: a non-empty saved id, otherwise none. */
  function Loaded(storage: map<string, string>, accessible: bool): (r: Option<ListId>)
    ensures r.Some? <==> accessible && StorageKey in storage && storage[StorageKey] != ""
    ensures r.Some? ==> r.value == storage[StorageKey]
  {
    if accessible && StorageKey in storage && storage[StorageKey] != "" then Some(storage[StorageKey]) else None
  }

  /** `ShoppingProvider`. */
  class ShoppingProvider {
    var currentListId: Option<ListId>
    var storage: map<string, string>

    /** The first render: state `null`, storage as the browser has it. */
    constructor (saved: map<string, string>)
      ensures currentListId == None && storage == saved
    {
      currentListId := None;
      storage := saved;
    }

    /** The sync effect: set the key to the id, or remove it; a throwing
        storage leaves it as it was. The state is not touched. */
    method SyncStorage(accessible: bool)
      modifies this
      ensures currentListId == old(currentListId)
      ensures storage == if accessible then Synced(old(storage), currentListId) else old(storage)
    {
      if accessible {
        if currentListId.Some? && currentListId.value != "" {
          storage := storage[StorageKey := currentListId.value];
        } else {
          storage := storage - {StorageKey};
        }
      }
    }

    /** Mounting runs both effects once: the load effect reads the saved id
        and schedules it as the new state, the sync effect (still seeing
        `null`) removes the key, and the re-render with the loaded id writes
        it back. The net result: a non-empty saved id becomes the state and
        stays stored; an absent or empty one leaves the state `null` and the
        key absent. */
    method Mount(accessible: bool)
      requires currentListId == None
      modifies this
      ensures currentListId == Loaded(old(storage), accessible)
      ensures storage == if accessible then Synced(old(storage), currentListId) else old(storage)
    {
      var saved := if accessible && StorageKey in storage then Some(storage[StorageKey]) else None;
      SyncStorage(accessible);
      if saved.Some? && saved.value != "" {
        currentListId := Some(saved.value);
        SyncStorage(accessible);
      }
    }

    /** `startShopping(listId)`: the state is overwritten even when storage
        fails; the sync effect runs when the state actually changed. */
    method StartShopping(listId: ListId, accessible: bool)
      modifies this
      ensures currentListId == Step(old(currentListId), Start(listId))
      ensures storage == if accessible && old(currentListId) != currentListId
                         then Synced(old(storage), currentListId) else old(storage)
    {
      var changed := currentListId != Some(listId);
      currentListId := Some(listId);
      if changed {
        SyncStorage(accessible);
      }
    }

    /** `stopShopping()`: the state is cleared even when storage fails; the
        sync effect runs when the state actually changed. */
    method StopShopping(accessible: bool)
      modifies this
      ensures currentListId == Step(old(currentListId), Stop)
      ensures storage == if accessible && old(currentListId) != currentListId
                         then Synced(old(storage), currentListId) else old(storage)
    {
      var changed := currentListId != None;
      currentListId := None;
      if changed {
        SyncStorage(accessible);
      }
    }
  }

  /** Once storage mirrors the state, a start or stop whose effect can reach
      storage keeps it mirrored, whether or not the state changed. */
  lemma MirrorPreserved(storage: map<string, string>, current: Option<ListId>, a: SessionAction)
    requires Mirrors(storage, current)
    ensures var next := Step(current, a);
      Mirrors(if current != next then Synced(storage, next) else storage, next)
  {
  }

  /** A reload restores what was being shopped: mounting over storage that
      mirrors a non-empty id brings that id back as the state. */
  lemma ReloadRestores(storage: map<string, string>, id: ListId)
    requires id != "" && Mirrors(storage, Some(id))
    ensures Loaded(storage, true) == Some(id)
  {
  }

  /** `useShopping`: the context value inside a provider; outside one (no
      context) it throws. */
  function UseShopping(context: Option<Option<ListId>>): (r: Result<Option<ListId>, string>)
    ensures r.Failure? <==> context.None?
    ensures r.Failure? ==> r.error == "useShopping must be used within ShoppingProvider"
    ensures r.Success? ==> r.value == context.value
  {
    match context
    case None => Failure("useShopping must be used within ShoppingProvider")
    case Some(c) => Success(c)
  }
}
