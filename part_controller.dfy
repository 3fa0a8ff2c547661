/** The part controller: the five request handlers of `/api/parts` over
    the stored parts. The database collection is the `parts` field of a
    store object, in insertion order; ids are allocated from `nextId`. */
module PartController {
  import opened Base
  import opened Keyed
  import opened Parts
  import opened PartQuery

  /** A reply: a status with a JSON body, or a status with `{ message }`. */
  datatype Response<T> = Ok(status: int, body: T) | Fail(status: int, message: string)

  const PartNotFound := "Part not found"
  const PartRemoved := "Part removed"

  class PartStore {
    var parts: seq<Part>
    var nextId: Id

    /** Ids are unique and every one was allocated before `nextId`. */
    ghost predicate Valid()
      reads this
    {
      && UniqueIds(parts, PartId)
      && forall i :: 0 <= i < |parts| ==> parts[i].id < nextId
    }

    constructor ()
      ensures Valid() && parts == []
    {
      parts := [];
      nextId := 0;
    }

    /** GET /api/parts: the parts that pass the query's filters, sorted as
        it asks; always 200. */
    function GetParts(q: Query): (res: Response<seq<Part>>)
      reads this
      ensures res.Ok? && res.status == 200
      ensures Sorted(OrderOf(q), res.body)
      ensures forall p :: multiset(res.body)[p] == if Matches(q, p) then multiset(parts)[p] else 0
    {
      ListedExactlyAll(parts, q);
      Ok(200, ListParts(parts, q))
    }

    /** GET /api/parts/:id: the part with that id, or 404 "Part not found". */
    function GetPartById(id: Id): (res: Response<Part>)
      reads this
      ensures res.Ok? <==> HasId(parts, PartId, id)
      ensures res.Ok? ==> res.status == 200 && res.body in parts && res.body.id == id
      ensures res.Fail? ==> res == Fail(404, PartNotFound)
    {
      match Find(parts, PartId, id)
      case Some(i) => Ok(200, parts[i])
      case None => Fail(404, PartNotFound)
    }

    /** POST /api/parts: a new part owned by the requester, with the body's
        fields, appended to the store (201); a body the schema refuses
        (`rejected` carries its message) gives 400 and stores nothing. */
    method CreatePart(requester: Id, body: PartFields, now: int, rejected: Option<string>)
      returns (res: Response<Part>)
      requires Valid()
      modifies this
      ensures Valid()
      ensures rejected.Some? ==> res == Fail(400, rejected.value) && parts == old(parts) && nextId == old(nextId)
      ensures rejected.None? ==> res == Ok(201, NewPart(old(nextId), requester, body, now))
      ensures rejected.None? ==> parts == old(parts) + [res.body] && !HasId(old(parts), PartId, res.body.id)
    {
      if rejected.Some? {
        res := Fail(400, rejected.value);
      } else {
        var p := NewPart(nextId, requester, body, now);
        parts := parts + [p];
        nextId := nextId + 1;
        res := Ok(201, p);
      }
    }

    /** PUT /api/parts/:id: merges the body into the stored part (200); an
        unknown id gives 404 and changes nothing. */
    method UpdatePart(id: Id, patch: PartPatch) returns (res: Response<Part>)
      requires Valid()
      modifies this
      ensures Valid() && nextId == old(nextId)
      ensures !HasId(old(parts), PartId, id) ==> res == Fail(404, PartNotFound) && parts == old(parts)
      ensures HasId(old(parts), PartId, id) ==>
        exists i :: 0 <= i < |old(parts)| && old(parts)[i].id == id &&
          parts == old(parts)[i := Merge(old(parts)[i], patch)] && res == Ok(200, parts[i])
    {
      match Find(parts, PartId, id)
      case None =>
        res := Fail(404, PartNotFound);
      case Some(i) =>
        var updated := Merge(parts[i], patch);
        parts := parts[i := updated];
        res := Ok(200, updated);
        assert parts[i] == updated;
    }

    /** DELETE /api/parts/:id: removes exactly the part with that id (200
        "Part removed"); an unknown id gives 404 and changes nothing. */
    method DeletePart(id: Id) returns (res: Response<string>)
      requires Valid()
      modifies this
      ensures Valid() && nextId == old(nextId)
      ensures parts == Without(old(parts), PartId, id)
      ensures HasId(old(parts), PartId, id) ==> res == Ok(200, PartRemoved) && |parts| == |old(parts)| - 1
      ensures !HasId(old(parts), PartId, id) ==> res == Fail(404, PartNotFound) && parts == old(parts)
    {
      match Find(parts, PartId, id)
      case None =>
        WithoutAbsent(parts, PartId, id);
        res := Fail(404, PartNotFound);
      case Some(i) =>
        RemovesOne(parts, PartId, i);
        WithoutUnique(parts, PartId, id);
        parts := parts[..i] + parts[i + 1..];
        res := Ok(200, PartRemoved);
    }
  }

  /** With unique ids, the part found for an id is the only one with it. */
  lemma FoundPartIsUnique(store: PartStore, id: Id)
    requires store.Valid()
    requires store.GetPartById(id).Ok?
    ensures forall p :: p in store.parts && p.id == id ==> p == store.GetPartById(id).body
  {
  }
}
