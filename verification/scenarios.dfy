/**
 * Sequences of requests against one store, from the handlers' contracts
 * alone: an item is created, then read, or updated and read again.
 */
module Scenarios {
  import opened JsValues
  import opened Http
  import opened DataStore
  import opened AuthMiddleware
  import opened DataController

  /**
   * After a successful create, the creator and any admin read back exactly
   * what the create returned; any other user is refused.
   */
  method CreateThenRead(svc: DataService, owner: Caller, other: Caller, admin: Caller, body: Record, now: int)
    returns (created: Response, byOwner: Response, byOther: Response, byAdmin: Response)
    requires svc.Valid()
    requires CreateError(body).None?
    requires other.uid != owner.uid && !IsAdmin(other) && IsAdmin(admin)
    modifies svc
    ensures created.status == 201 && created.payload.Doc?
    ensures Get(created.payload.doc, "createdBy") == Some(Str(owner.uid))
    ensures byOwner == Response(200, created.payload)
    ensures byOther == Response(403, Error(CannotView))
    ensures byAdmin == Response(200, created.payload)
    ensures svc.docs.Keys == old(svc.docs.Keys) + {old(svc.NextId())}
  {
    var id := AutoId(svc.issued);
    created := CreateItem(svc, owner, body, now);
    assert Get(svc.docs[id], "createdBy") == Some(Str(owner.uid));
    byOwner := GetItem(svc, owner, id);
    byOther := GetItem(svc, other, id);
    byAdmin := GetItem(svc, admin, id);
  }

  /**
   * An update the price check refuses changes nothing: reading the item back
   * gives what the create returned.
   */
  method RejectedUpdateKeepsItem(svc: DataService, owner: Caller, body: Record, patch: Record, now: int)
    returns (created: Response, refused: Response, afterwards: Response)
    requires svc.Valid()
    requires CreateError(body).None? && PriceRejected(patch)
    modifies svc
    ensures created.status == 201
    ensures refused == Response(400, Error(BadPrice))
    ensures afterwards == Response(200, created.payload)
  {
    var id := AutoId(svc.issued);
    created := CreateItem(svc, owner, body, now);
    assert Get(svc.docs[id], "createdBy") == Some(Str(owner.uid));
    refused := UpdateItem(svc, owner, id, patch);
    afterwards := GetItem(svc, owner, id);
  }

  /** The laptop user u1 posts; it claims to belong to u2. */
  const Laptop: Record :=
    map["nombre" := Str("Laptop"), "precio" := Num(1299.99), "categoria" := Str("tech"), "createdBy" := Str("u2")]

  /** The laptop is accepted, stored as u1's, and a price of -5 is refused. */
  lemma LaptopAccepted()
    ensures CreateError(Laptop).None?
    ensures ItemData(Laptop, "u1")["createdBy"] == Str("u1")
    ensures PriceRejected(map["precio" := Num(-5.0)])
  {
    assert Get(Laptop, "precio") == Some(Num(1299.99));
    assert Get(map["precio" := Num(-5.0)], "precio") == Some(Num(-5.0));
  }
}
