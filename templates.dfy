/** The server-side template handlers (convex/templates.ts) over a table of
    template documents keyed by id. */
module Templates {
  import opened Wrappers
  import opened Schema
  import opened Access

  /** The template after `updateTemplate` at time `now`: every editable field
      is replaced, the owner and creation time are kept. */
  function Replaced(t: Template, name: string, description: string, kind: TemplateType,
                    products: seq<TemplateProduct>, now: int): (r: Template)
    ensures r.userId == t.userId && r.createdAt == t.createdAt && r.updatedAt == now
    ensures r.name == name && r.description == description && r.kind == kind && r.products == products
  {
    t.(name := name, description := description, kind := kind, products := products, updatedAt := now)
  }

  /** A full replacement forgets every earlier edit: updating twice is the
      same as updating once with the second request. */
  lemma ReplaceForgetsEarlierEdit(t: Template, n1: string, d1: string, k1: TemplateType, p1: seq<TemplateProduct>,
                                  n2: string, d2: string, k2: TemplateType, p2: seq<TemplateProduct>, t1: int, t2: int)
    ensures Replaced(Replaced(t, n1, d1, k1, p1, t1), n2, d2, k2, p2, t2) == Replaced(t, n2, d2, k2, p2, t2)
  {
  }

  /** The `templates` table: documents keyed by id. */
  class TemplateStore {
    var docs: map<TemplateId, Template>

    constructor ()
      ensures docs == map[]
    {
      docs := map[];
    }

    /** The owner of template `id`, if it exists. */
    function Owner(id: TemplateId): Option<UserId>
      reads this
    {
      if id in docs then Some(docs[id].userId) else None
    }

    /** `createTemplate`: a signed-in caller inserts a template holding the
        given fields verbatim, stamped with `now` twice; `newId` is the fresh
        id the database assigns. */
    method CreateTemplate(caller: Option<UserId>, name: string, description: string, kind: TemplateType,
                          products: seq<TemplateProduct>, now: int, newId: TemplateId)
      returns (r: Result<TemplateId, Error>)
      requires newId !in docs
      modifies this
      ensures caller.None? ==> r == Failure(UserNotFound) && docs == old(docs)
      ensures caller.Some? ==> r == Success(newId)
      ensures caller.Some? ==>
        docs == old(docs)[newId := Template(caller.value, name, description, kind, products, now, now)]
    {
      if caller.None? {
        return Failure(UserNotFound);
      }
      docs := docs[newId := Template(caller.value, name, description, kind, products, now, now)];
      r := Success(newId);
    }

    /** `updateTemplate`: after the caller, existence and ownership checks,
        replaces all editable fields and bumps `updatedAt`; on any error
        nothing is written. */
    method UpdateTemplate(caller: Option<UserId>, id: TemplateId, name: string, description: string,
                          kind: TemplateType, products: seq<TemplateProduct>, now: int)
      returns (r: Outcome<Error>)
      modifies this
      ensures r == Authorize(caller, old(Owner(id)), TemplateNotFound)
      ensures r.Fail? ==> docs == old(docs)
      ensures r.Pass? ==> docs == old(docs)[id := Replaced(old(docs)[id], name, description, kind, products, now)]
    {
      r := Authorize(caller, Owner(id), TemplateNotFound);
      if r.Pass? {
        docs := docs[id := Replaced(docs[id], name, description, kind, products, now)];
      }
    }

    /** `deleteTemplate`: after the same checks, removes exactly that template. */
    method DeleteTemplate(caller: Option<UserId>, id: TemplateId) returns (r: Outcome<Error>)
      modifies this
      ensures r == Authorize(caller, old(Owner(id)), TemplateNotFound)
      ensures r.Fail? ==> docs == old(docs)
      ensures r.Pass? ==> docs == old(docs) - {id}
    {
      r := Authorize(caller, Owner(id), TemplateNotFound);
      if r.Pass? {
        docs := docs - {id};
      }
    }

    /** The caller's templates, as the `by_user` index yields them. */
    function OwnedBy(u: UserId): (r: map<TemplateId, Template>)
      reads this
      ensures forall id :: id in r <==> id in docs && docs[id].userId == u
      ensures forall id :: id in r ==> r[id] == docs[id]
    {
      map id | id in docs && docs[id].userId == u :: docs[id]
    }

    /** `getTemplates`: exactly the signed-in caller's templates. */
    function GetTemplates(caller: Option<UserId>): (r: Result<map<TemplateId, Template>, Error>)
      reads this
      ensures caller.None? <==> r == Failure(UserNotFound)
      ensures r.Success? ==> forall id :: id in r.value <==> id in docs && docs[id].userId == caller.value
      ensures r.Success? ==> forall id :: id in r.value ==> r.value[id] == docs[id]
    {
      if caller.None? then Failure(UserNotFound) else Success(OwnedBy(caller.value))
    }

    /** `getTemplateById`: needs a caller, then yields the template only when
        it exists and belongs to the caller, and `null` (not an error) when it
        is absent or owned by someone else. */
    function GetTemplateById(caller: Option<UserId>, id: TemplateId): (r: Result<Option<Template>, Error>)
      reads this
      ensures caller.None? <==> r == Failure(UserNotFound)
      ensures r.Success? ==> (r.value.Some? <==> id in docs && docs[id].userId == caller.value)
      ensures r.Success? && r.value.Some? ==> r.value.value == docs[id]
    {
      if caller.None? then Failure(UserNotFound)
      else
        var mine := OwnedBy(caller.value);
        Success(if id in mine then Some(mine[id]) else None)
    }
  }
}
