/**
 * The item store: one document collection held by a `DataService`. The hosted
 * collection is modelled as an in-memory map from document id to document.
 */
module DataStore {
  import opened JsValues

  /**
   * `{ id: doc.id, ...doc.data() }`: the document with its id added. The
   * spread comes last, so a document that has its own `id` field keeps it.
   */
  function WithId(id: string, data: Record): (r: Record)
    ensures r.Keys == data.Keys + {"id"}
    ensures forall k :: k in data ==> r[k] == data[k]
    ensures "id" !in data ==> r["id"] == Str(id)
  {
    map["id" := Str(id)] + data
  }

  /** A merging update: the fields of `patch` overwrite, every other stored field stays. */
  function Merge(stored: Record, patch: Record): (r: Record)
    ensures r.Keys == stored.Keys + patch.Keys
    ensures forall k :: k in patch ==> r[k] == patch[k]
    ensures forall k :: k in stored && k !in patch ==> r[k] == stored[k]
  {
    stored + patch
  }

  /** One `where(field, '==', value)` clause of a query. */
  datatype Where = Where(field: string, value: string)

  /** A document satisfies a clause when it has that field with that string value. */
  predicate Holds(doc: Record, clause: Where) {
    clause.field in doc && doc[clause.field] == Str(clause.value)
  }

  /** A document satisfies a query when it satisfies all of its clauses. */
  predicate Matches(doc: Record, query: seq<Where>) {
    forall i :: 0 <= i < |query| ==> Holds(doc, query[i])
  }

  /** Adding a clause to a query (`query = query.where(...)`) conjoins it. */
  lemma MatchesWhere(query: seq<Where>, clause: Where)
    ensures forall doc :: Matches(doc, query + [clause]) <==> Matches(doc, query) && Holds(doc, clause)
  {
    forall doc
      ensures Matches(doc, query + [clause]) <==> Matches(doc, query) && Holds(doc, clause)
    {
      if Matches(doc, query + [clause]) {
        assert Holds(doc, (query + [clause])[|query|]);
        forall i | 0 <= i < |query| ensures Holds(doc, query[i]) {
          assert (query + [clause])[i] == query[i];
        }
      }
    }
  }

  /** The filter object `getAll` accepts; a falsy entry is ignored. */
  datatype Filters = Filters(categoria: Option<string>, createdBy: Option<string>)

  /** The meaning of a filter object: every truthy entry is an equality on that field. */
  predicate SatisfiesFilters(doc: Record, filters: Filters) {
    && (TruthyText(filters.categoria) ==> "categoria" in doc && doc["categoria"] == Str(filters.categoria.value))
    && (TruthyText(filters.createdBy) ==> "createdBy" in doc && doc["createdBy"] == Str(filters.createdBy.value))
  }

  /**
   * Stand-in for the store's automatic document ids: the `n`-th id issued.
   * Ids of different lengths differ, which is all the model relies on.
   */
  function AutoId(n: nat): (id: string)
    ensures |id| == n + 1
  {
    seq(n + 1, _ => 'x')
  }

  class DataService {
    const collection: string
    var docs: map<string, Record>
    var issued: nat   // how many automatic ids the collection has handed out

    /** Every stored id is shorter than the next automatic id. */
    ghost predicate Valid()
      reads this
    {
      forall id :: id in docs ==> |id| <= issued
    }

    /** The id the next `Create` will use. */
    ghost function NextId(): string
      reads this
    {
      AutoId(issued)
    }

    /**
     * `db.collection(collection)`: a handle on the hosted collection, holding
     * whatever documents it already has. `issued` starts at the length of the
     * longest stored id, so no automatic id can clash with them.
     */
    constructor (collection: string, stored: map<string, Record>)
      ensures Valid()
      ensures this.collection == collection && docs == stored
    {
      var longest: nat := 0;
      var pending := stored.Keys;
      while pending != {}
        invariant pending <= stored.Keys
        invariant forall id :: id in stored && id !in pending ==> |id| <= longest
        decreases |pending|
      {
        var id :| id in pending;
        if |id| > longest {
          longest := |id|;
        }
        pending := pending - {id};
      }
      this.collection := collection;
      docs := stored;
      issued := longest;
    }

    /** `add({...data, createdAt: new Date()})`, then the stored document with its id. */
    method Create(data: Record, now: int) returns (item: Record)
      requires Valid()
      modifies this
      ensures Valid()
      ensures old(NextId()) !in old(docs)
      ensures docs == old(docs)[old(NextId()) := data["createdAt" := Date(now)]]
      ensures item == WithId(old(NextId()), data["createdAt" := Date(now)])
    {
      var id := AutoId(issued);
      docs := docs[id := data["createdAt" := Date(now)]];
      issued := issued + 1;
      item := WithId(id, docs[id]);
    }

    /** `null` for an unknown id, otherwise the stored document with its id. */
    method GetById(id: string) returns (item: Option<Record>)
      ensures item.None? <==> id !in docs
      ensures item.Some? ==> item.value == WithId(id, docs[id])
    {
      if id !in docs {
        return None;
      }
      item := Some(WithId(id, docs[id]));
    }

    /** Merge `patch` into document `id` and return the re-read document; `null` and no change for an unknown id. */
    method Update(id: string, patch: Record) returns (item: Option<Record>)
      requires Valid()
      modifies this
      ensures Valid() && issued == old(issued)
      ensures id !in old(docs) ==> item.None? && docs == old(docs)
      ensures id in old(docs) ==>
        && docs == old(docs)[id := Merge(old(docs)[id], patch)]
        && item == Some(WithId(id, docs[id]))
    {
      if id !in docs {
        return None;
      }
      docs := docs[id := Merge(docs[id], patch)];
      item := Some(WithId(id, docs[id]));
    }

    /** Remove document `id` and return `{id}`; `null` and no change for an unknown id. */
    method Delete(id: string) returns (deleted: Option<string>)
      requires Valid()
      modifies this
      ensures Valid() && issued == old(issued)
      ensures id !in old(docs) ==> deleted.None? && docs == old(docs)
      ensures id in old(docs) ==> deleted == Some(id) && docs == old(docs) - {id}
    {
      if id !in docs {
        return None;
      }
      docs := docs - {id};
      deleted := Some(id);
    }

    /**
     * `query.limit(limit).get()` followed by the `forEach` that pushes each
     * document with its id: at most `limit` matching documents, each once, and
     * every matching document when fewer than `limit` came back.
     */
    method Fetch(query: seq<Where>, limit: nat) returns (items: seq<Record>, ghost ids: seq<string>)
      ensures |items| == |ids| <= limit
      ensures forall i :: 0 <= i < |ids| ==>
        ids[i] in docs && Matches(docs[ids[i]], query) && items[i] == WithId(ids[i], docs[ids[i]])
      ensures forall i, j :: 0 <= i < j < |ids| ==> ids[i] != ids[j]
      ensures |ids| < limit ==> forall id :: id in docs && Matches(docs[id], query) ==> id in ids
    {
      var pending := docs.Keys;
      items, ids := [], [];
      while pending != {} && |items| < limit
        invariant pending <= docs.Keys
        invariant |items| == |ids| <= limit
        invariant forall i :: 0 <= i < |ids| ==>
          ids[i] in docs && ids[i] !in pending && Matches(docs[ids[i]], query) && items[i] == WithId(ids[i], docs[ids[i]])
        invariant forall i, j :: 0 <= i < j < |ids| ==> ids[i] != ids[j]
        invariant forall id :: id in docs && id !in pending && Matches(docs[id], query) ==> id in ids
        decreases |pending|
      {
        var id :| id in pending;
        if Matches(docs[id], query) {
          items, ids := items + [WithId(id, docs[id])], ids + [id];
        }
        pending := pending - {id};
      }
    }

    /**
     * `getAll(filters, limit)`: a `where` clause for each truthy filter, then
     * the limited fetch. The store refuses a negative limit (`None`).
     */
    method GetAll(filters: Filters, limit: int) returns (items: Option<seq<Record>>, ghost ids: seq<string>)
      ensures items.None? <==> limit < 0
      ensures items.Some? ==>
        && |items.value| == |ids| <= limit
        && (forall i :: 0 <= i < |ids| ==>
              ids[i] in docs && SatisfiesFilters(docs[ids[i]], filters) && items.value[i] == WithId(ids[i], docs[ids[i]]))
        && (forall i, j :: 0 <= i < j < |ids| ==> ids[i] != ids[j])
        && (|ids| < limit ==> forall id :: id in docs && SatisfiesFilters(docs[id], filters) ==> id in ids)
    {
      var query: seq<Where> := [];
      if TruthyText(filters.categoria) {
        MatchesWhere(query, Where("categoria", filters.categoria.value));
        query := query + [Where("categoria", filters.categoria.value)];
      }
      assert forall doc :: Matches(doc, query) <==>
        (TruthyText(filters.categoria) ==> "categoria" in doc && doc["categoria"] == Str(filters.categoria.value));
      if TruthyText(filters.createdBy) {
        MatchesWhere(query, Where("createdBy", filters.createdBy.value));
        query := query + [Where("createdBy", filters.createdBy.value)];
      }
      if limit < 0 {
        return None, [];
      }
      var found;
      found, ids := Fetch(query, limit);
      items := Some(found);
    }

    /**
     * An equality query on one field. `DataService` as written has no such
     * operation; this is what the search handler evidently expects of it.
     */
    method QueryByField(field: string, value: string, limit: int) returns (items: Option<seq<Record>>, ghost ids: seq<string>)
      ensures items.None? <==> limit < 0
      ensures items.Some? ==>
        && |items.value| == |ids| <= limit
        && (forall i :: 0 <= i < |ids| ==>
              && ids[i] in docs && field in docs[ids[i]] && docs[ids[i]][field] == Str(value)
              && items.value[i] == WithId(ids[i], docs[ids[i]]))
        && (forall i, j :: 0 <= i < j < |ids| ==> ids[i] != ids[j])
        && (|ids| < limit ==> forall id :: id in docs && field in docs[id] && docs[id][field] == Str(value) ==> id in ids)
    {
      if limit < 0 {
        return None, [];
      }
      MatchesWhere([], Where(field, value));
      var query := [] + [Where(field, value)];
      var found;
      found, ids := Fetch(query, limit);
      items := Some(found);
    }
  }
}
