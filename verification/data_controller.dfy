/**
 * The item handlers: each runs a fixed sequence of checks on the caller and
 * the request, makes at most one change to the item store and answers with a
 * status and a body. The store is the controller's one `DataService`, passed
 * in as `svc`; the caller is what authentication attached to the request.
 */
module DataController {
  import opened JsValues
  import opened Http
  import opened DataStore
  import opened AuthMiddleware

  const MissingFields := "Nombre, precio y categoría son requeridos"
  const BadPrice := "El precio debe ser un número positivo"
  const NotFound := "Item no encontrado"
  const CannotView := "No tienes permiso para ver este item"
  const CannotEdit := "No tienes permiso para editar este item"
  const CannotDelete := "No tienes permiso para eliminar este item"
  const Deleted := "Item eliminado correctamente"
  const ListFailed := "Error al obtener items: "
  const SearchParamsRequired := "Los parámetros field y value son requeridos"
  const SearchFieldInvalid := "Campo no válido. Use uno de: nombre, categoria, createdBy"
  const SearchFailed := "Error en la búsqueda: "
  /** The error a call of a missing method raises, as the search handler reports it. */
  const SearchCrash := SearchFailed + "dataService.queryByField is not a function"

  /** The fields a created item is stored with (before the store adds `createdAt`). */
  const ItemFields := {"nombre", "descripcion", "precio", "categoria", "stock", "createdBy"}

  /** The fields a search may name. */
  const SearchFields := ["nombre", "categoria", "createdBy"]

  predicate IsAdmin(caller: Caller) {
    caller.role == Str("admin")
  }

  /** The one ownership rule: the caller created the item, or is an admin. */
  predicate CanAccess(item: Record, caller: Caller) {
    Get(item, "createdBy") == Some(Str(caller.uid)) || IsAdmin(caller)
  }

  /** `typeof precio === 'number' && precio > 0`; such a price is always truthy. */
  predicate ValidPrice(precio: Option<Value>): (ok: bool)
    ensures ok ==> Truthy(precio)
  {
    precio.Some? && precio.value.Num? && precio.value.n > 0.0
  }

  /** The reason `createItem` refuses a body, if it does. */
  function CreateError(body: Record): (error: Option<string>)
    ensures error.None? <==>
      Truthy(Get(body, "nombre")) && Truthy(Get(body, "categoria")) && ValidPrice(Get(body, "precio"))
    ensures error == Some(BadPrice) <==>
      Truthy(Get(body, "nombre")) && Truthy(Get(body, "categoria")) && Truthy(Get(body, "precio"))
      && !ValidPrice(Get(body, "precio"))
    ensures error.Some? ==> error.value == MissingFields || error.value == BadPrice
  {
    if !Truthy(Get(body, "nombre")) || !Truthy(Get(body, "precio")) || !Truthy(Get(body, "categoria")) then
      Some(MissingFields)
    else if !ValidPrice(Get(body, "precio")) then
      Some(BadPrice)
    else
      None
  }

  /**
   * The item `createItem` stores for an accepted body: the six item fields
   * and nothing else from the body, owned by the caller whatever the body says.
   */
  function ItemData(body: Record, uid: Uid): (data: Record)
    requires "nombre" in body && "precio" in body && "categoria" in body
    ensures data.Keys == ItemFields
    ensures data["createdBy"] == Str(uid)
    ensures forall k :: k in {"nombre", "precio", "categoria"} ==> data[k] == body[k]
    ensures Truthy(Get(body, "descripcion")) ==> data["descripcion"] == body["descripcion"]
    ensures !Truthy(Get(body, "descripcion")) ==> data["descripcion"] == Str("")
    ensures Truthy(Get(body, "stock")) ==> data["stock"] == body["stock"]
    ensures !Truthy(Get(body, "stock")) ==> data["stock"] == Num(0.0)
  {
    map[
      "nombre" := body["nombre"],
      "descripcion" := Or(Get(body, "descripcion"), Str("")),
      "precio" := body["precio"],
      "categoria" := body["categoria"],
      "stock" := Or(Get(body, "stock"), Num(0.0)),
      "createdBy" := Str(uid)
    ]
  }

  /** `createItem`: validate, then store the item owned by the caller. */
  method CreateItem(svc: DataService, caller: Caller, body: Record, now: int) returns (res: Response)
    requires svc.Valid()
    modifies svc
    ensures svc.Valid()
    ensures CreateError(body).Some? ==>
      res == Response(400, Error(CreateError(body).value)) && svc.docs == old(svc.docs)
    ensures CreateError(body).None? ==>
      var id := old(svc.NextId());
      var stored := ItemData(body, caller.uid)["createdAt" := Date(now)];
      && id !in old(svc.docs)
      && svc.docs == old(svc.docs)[id := stored]
      && res == Response(201, Doc(WithId(id, stored)))
  {
    var error := CreateError(body);
    if error.Some? {
      return Response(400, Error(error.value));
    }
    var item := svc.Create(ItemData(body, caller.uid), now);
    res := Response(201, Doc(item));
  }

  /** `getItem`: 404 for an unknown id, then 403 unless the caller may see it. */
  method GetItem(svc: DataService, caller: Caller, id: string) returns (res: Response)
    ensures id !in svc.docs ==> res == Response(404, Error(NotFound))
    ensures id in svc.docs && !CanAccess(svc.docs[id], caller) ==> res == Response(403, Error(CannotView))
    ensures id in svc.docs && CanAccess(svc.docs[id], caller) ==>
      res == Response(200, Doc(WithId(id, svc.docs[id])))
  {
    var item := svc.GetById(id);
    if item.None? {
      return Response(404, Error(NotFound));
    }
    if !CanAccess(item.value, caller) {
      return Response(403, Error(CannotView));
    }
    res := Response(200, Doc(item.value));
  }

  /** The query of a listing: `categoria`, `createdBy` and `parseInt(limit)` (`None` for NaN or missing). */
  datatype ListQuery = ListQuery(categoria: Option<string>, createdBy: Option<string>, limit: Option<int>)

  /** `parseInt(limit) || 10`. */
  function EffectiveLimit(limit: Option<int>): (n: int)
    ensures n != 0
    ensures limit.None? || limit == Some(0) ==> n == 10
    ensures limit.Some? && limit.value != 0 ==> n == limit.value
  {
    if limit.Some? && limit.value != 0 then limit.value else 10
  }

  /**
   * Which documents a listing may return: those of the requested category,
   * and, for a non-admin, only the caller's own; an admin may narrow to one creator.
   */
  predicate Listable(doc: Record, query: ListQuery, caller: Caller) {
    && (TruthyText(query.categoria) ==> Get(doc, "categoria") == Some(Str(query.categoria.value)))
    && (if IsAdmin(caller) then
          TruthyText(query.createdBy) ==> Get(doc, "createdBy") == Some(Str(query.createdBy.value))
        else
          Get(doc, "createdBy") == Some(Str(caller.uid)))
  }

  /**
   * `getAllItems`: builds the filter object step by step, forcing the
   * caller's own id for a non-admin, and lists at most the effective limit.
   */
  method GetAllItems(svc: DataService, caller: Caller, query: ListQuery) returns (res: Response, ghost ids: seq<string>)
    ensures EffectiveLimit(query.limit) < 0 ==> res == Response(500, Error(ListFailed))
    ensures EffectiveLimit(query.limit) > 0 ==>
      && res.status == 200 && res.payload.Docs?
      && |res.payload.docs| == |ids| <= EffectiveLimit(query.limit)
      && (forall i :: 0 <= i < |ids| ==>
            && ids[i] in svc.docs && Listable(svc.docs[ids[i]], query, caller)
            && res.payload.docs[i] == WithId(ids[i], svc.docs[ids[i]]))
      && (forall i, j :: 0 <= i < j < |ids| ==> ids[i] != ids[j])
      && (|ids| < EffectiveLimit(query.limit) ==>
            forall id :: id in svc.docs && Listable(svc.docs[id], query, caller) ==> id in ids)
    ensures res.status == 200 && !IsAdmin(caller) ==>
      res.payload.Docs? && forall item :: item in res.payload.docs ==> Get(item, "createdBy") == Some(Str(caller.uid))
  {
    var filters := Filters(None, None);
    if TruthyText(query.categoria) {
      filters := filters.(categoria := query.categoria);
    }
    if !IsAdmin(caller) {
      filters := filters.(createdBy := Some(caller.uid));
    } else if TruthyText(query.createdBy) {
      filters := filters.(createdBy := query.createdBy);
    }
    assert forall doc :: SatisfiesFilters(doc, filters) <==> Listable(doc, query, caller);
    var limit := EffectiveLimit(query.limit);
    var items;
    items, ids := svc.GetAll(filters, limit);
    if items.None? {
      return Response(500, Error(ListFailed)), ids;
    }
    res := Response(200, Docs(items.value));
    forall item | item in res.payload.docs && !IsAdmin(caller)
      ensures Get(item, "createdBy") == Some(Str(caller.uid))
    {
      var i :| 0 <= i < |items.value| && items.value[i] == item;
      assert Listable(svc.docs[ids[i]], query, caller);
    }
  }

  /** `updateItem` refuses a truthy `precio` that is not a positive number; a falsy one passes. */
  predicate PriceRejected(body: Record) {
    Truthy(Get(body, "precio")) && !ValidPrice(Get(body, "precio"))
  }

  /**
   * The two price checks agree except on a falsy price: every price `createItem`
   * accepts passes `updateItem`'s check, every price it refuses as not
   * positive is refused by the update too, but a price of 0 that the create
   * refuses passes the update.
   */
  lemma PriceChecks(body: Record)
    ensures CreateError(body).None? ==> !PriceRejected(body)
    ensures CreateError(body) == Some(BadPrice) ==> PriceRejected(body)
    ensures Get(body, "precio") == Some(Num(0.0)) ==> CreateError(body) == Some(MissingFields) && !PriceRejected(body)
  {
  }

  /** `{...body, updatedBy: uid}`: the whole body, with the caller as last updater. */
  function UpdatePatch(body: Record, uid: Uid): (patch: Record)
    ensures patch.Keys == body.Keys + {"updatedBy"}
    ensures patch["updatedBy"] == Str(uid)
    ensures forall k :: k in body && k != "updatedBy" ==> patch[k] == body[k]
  {
    body["updatedBy" := Str(uid)]
  }

  /**
   * The price check is guarded by truthiness, so a `precio` of 0 passes it
   * and is stored; and nothing keeps the body from naming a new creator.
   */
  lemma UpdateQuirks(stored: Record, body: Record, uid: Uid)
    ensures Get(body, "precio") == Some(Num(0.0)) ==>
      !PriceRejected(body) && Merge(stored, UpdatePatch(body, uid))["precio"] == Num(0.0)
    ensures "createdBy" in body ==> Merge(stored, UpdatePatch(body, uid))["createdBy"] == body["createdBy"]
  {
  }

  /** `updateItem`: 404, then 403, then 400, each leaving the store as it was; otherwise merge. */
  method UpdateItem(svc: DataService, caller: Caller, id: string, body: Record) returns (res: Response)
    requires svc.Valid()
    modifies svc
    ensures svc.Valid() && svc.issued == old(svc.issued)
    ensures id !in old(svc.docs) ==>
      res == Response(404, Error(NotFound)) && svc.docs == old(svc.docs)
    ensures id in old(svc.docs) && !CanAccess(old(svc.docs)[id], caller) ==>
      res == Response(403, Error(CannotEdit)) && svc.docs == old(svc.docs)
    ensures id in old(svc.docs) && CanAccess(old(svc.docs)[id], caller) && PriceRejected(body) ==>
      res == Response(400, Error(BadPrice)) && svc.docs == old(svc.docs)
    ensures id in old(svc.docs) && CanAccess(old(svc.docs)[id], caller) && !PriceRejected(body) ==>
      && svc.docs == old(svc.docs)[id := Merge(old(svc.docs)[id], UpdatePatch(body, caller.uid))]
      && res == Response(200, Doc(WithId(id, svc.docs[id])))
  {
    var existing := svc.GetById(id);
    if existing.None? {
      return Response(404, Error(NotFound));
    }
    if !CanAccess(existing.value, caller) {
      return Response(403, Error(CannotEdit));
    }
    if PriceRejected(body) {
      return Response(400, Error(BadPrice));
    }
    var updated := svc.Update(id, UpdatePatch(body, caller.uid));
    res := Response(200, Doc(updated.value));
  }

  /** `deleteItem`: 404, then 403, each leaving the store as it was; otherwise remove exactly that id. */
  method DeleteItem(svc: DataService, caller: Caller, id: string) returns (res: Response)
    requires svc.Valid()
    modifies svc
    ensures svc.Valid() && svc.issued == old(svc.issued)
    ensures id !in old(svc.docs) ==>
      res == Response(404, Error(NotFound)) && svc.docs == old(svc.docs)
    ensures id in old(svc.docs) && !CanAccess(old(svc.docs)[id], caller) ==>
      res == Response(403, Error(CannotDelete)) && svc.docs == old(svc.docs)
    ensures id in old(svc.docs) && CanAccess(old(svc.docs)[id], caller) ==>
      && svc.docs == old(svc.docs) - {id}
      && res == Response(200, Doc(map["message" := Str(Deleted), "id" := Str(id)]))
  {
    var existing := svc.GetById(id);
    if existing.None? {
      return Response(404, Error(NotFound));
    }
    var isAdmin := IsAdmin(caller);
    var isCreator := Get(existing.value, "createdBy") == Some(Str(caller.uid));
    if !isAdmin && !isCreator {
      return Response(403, Error(CannotDelete));
    }
    var _ := svc.Delete(id);
    res := Response(200, Doc(map["message" := Str(Deleted), "id" := Str(id)]));
  }

  /** The query of a search: `field`, `value` and `parseInt(limit)`. */
  datatype SearchQuery = SearchQuery(field: Option<string>, value: Option<string>, limit: Option<int>)

  /** The reason `searchItems` refuses a query, if it does. */
  function SearchError(query: SearchQuery): (error: Option<string>)
    ensures !TruthyText(query.field) || !TruthyText(query.value) ==> error == Some(SearchParamsRequired)
    ensures TruthyText(query.field) && TruthyText(query.value) ==>
      (error.None? <==> query.field.value == "nombre" || query.field.value == "categoria" || query.field.value == "createdBy")
    ensures error.Some? ==> error.value == SearchParamsRequired || error.value == SearchFieldInvalid
  {
    if !TruthyText(query.field) || !TruthyText(query.value) then Some(SearchParamsRequired)
    else if query.field.value !in SearchFields then Some(SearchFieldInvalid)
    else None
  }

  /**
   * `searchItems` as written: the validation answers 400; a query that passes
   * it calls a method the store does not have, and the handler reports the
   * resulting error with 500. No ownership filter is involved either way.
   */
  function SearchItems(query: SearchQuery): (res: Response)
    ensures res.status == 400 || res.status == 500
    ensures SearchError(query).Some? ==> res == Response(400, Error(SearchError(query).value))
    ensures SearchError(query).None? ==> res == Response(500, Error(SearchCrash))
  {
    match SearchError(query)
    case Some(error) => Response(400, Error(error))
    case None => Response(500, Error(SearchCrash))
  }

  /** A well-formed search on an allowed field still fails. */
  lemma SearchOnAllowedFieldFails()
    ensures SearchItems(SearchQuery(Some("nombre"), Some("Laptop"), None)) == Response(500, Error(SearchCrash))
  {
  }

  /**
   * `searchItems` as evidently intended: the same validation, then an
   * equality query on the named field with the effective limit, for any
   * caller and without the ownership filter of a listing.
   */
  method SearchItemsIntended(svc: DataService, query: SearchQuery) returns (res: Response, ghost ids: seq<string>)
    ensures SearchError(query).Some? ==> res == Response(400, Error(SearchError(query).value))
    ensures SearchError(query).None? && EffectiveLimit(query.limit) < 0 ==> res == Response(500, Error(SearchFailed))
    ensures SearchError(query).None? && EffectiveLimit(query.limit) > 0 ==>
      var field, value := query.field.value, query.value.value;
      && res.status == 200 && res.payload.Docs?
      && |res.payload.docs| == |ids| <= EffectiveLimit(query.limit)
      && (forall i :: 0 <= i < |ids| ==>
            && ids[i] in svc.docs && Get(svc.docs[ids[i]], field) == Some(Str(value))
            && res.payload.docs[i] == WithId(ids[i], svc.docs[ids[i]]))
      && (forall i, j :: 0 <= i < j < |ids| ==> ids[i] != ids[j])
      && (|ids| < EffectiveLimit(query.limit) ==>
            forall id :: id in svc.docs && Get(svc.docs[id], field) == Some(Str(value)) ==> id in ids)
  {
    var error := SearchError(query);
    if error.Some? {
      return Response(400, Error(error.value)), [];
    }
    var limit := EffectiveLimit(query.limit);
    var items;
    items, ids := svc.QueryByField(query.field.value, query.value.value, limit);
    if items.None? {
      return Response(500, Error(SearchFailed)), ids;
    }
    res := Response(200, Docs(items.value));
  }
}
