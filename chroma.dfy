/** The local-store adapter (`ChromaManager`): embed documents and add
    them to a collection in one call. */
module Chroma {
  import opened Python
  import opened Operations

  /** The keyword arguments of one `collection.add` call. */
  datatype AddCall = AddCall(ids: Value, documents: Value, embeddings: Value, metadatas: Value)

  /** The local collection, a collaborator: `onAdd` is what the store
      answers (or raises) for a call, and `adds` records every call. */
  class Collection {
    ghost var adds: seq<AddCall>
    const onAdd: AddCall -> Outcome<()>

    constructor (onAdd: AddCall -> Outcome<()>)
      ensures this.onAdd == onAdd && adds == []
    {
      this.onAdd := onAdd;
      adds := [];
    }

    method Add(call: AddCall) returns (r: Outcome<()>)
      modifies this
      ensures adds == old(adds) + [call]
      ensures r == onAdd(call)
    {
      adds := adds + [call];
      r := onAdd(call);
    }
  }

  /** `[{}] * n` */
  function EmptyDicts(n: nat): (r: seq<Value>)
    ensures |r| == n
    ensures forall k :: 0 <= k < n ==> r[k] == EmptyDict
  {
    if n == 0 then [] else EmptyDicts(n - 1) + [EmptyDict]
  }

  /** The `metadatas` argument: the caller's list when it is truthy, else
      one empty dict per document. */
  function Metadatas(metadata: Value, n: nat): (r: Value)
    ensures Truthy(metadata) ==> r == metadata
    ensures !Truthy(metadata) ==> r.VList? && |r.items| == n && forall k :: 0 <= k < n ==> r.items[k] == EmptyDict
  {
    if Truthy(metadata) then metadata else VList(EmptyDicts(n))
  }

  /** What `embed_and_upsert` passes to `collection.add`, given what
      `encode` answered and what `.tolist()` makes of the embeddings
      (`toList`); the arguments are evaluated in the order written, so a
      failing `.tolist()` raises before `add` is reached. */
  function PlanAdd(documents: Value, encoded: Outcome<Value>, ids: Value, metadata: Value,
                   uuids: nat -> string, toList: Value -> Outcome<Value>): (r: Outcome<AddCall>)
    ensures !documents.VList? ==> r == Raise(ValueError("documents should be a list of strings"))
    ensures documents.VList? && encoded.Raise? ==> r == Raise(encoded.exc)
    ensures documents.VList? && encoded.Return? && !IdsValid(ChosenIds(ids, |documents.items|, uuids)) ==>
      r == Raise(IdsError)
    ensures documents.VList? && encoded.Return? && IdsValid(ChosenIds(ids, |documents.items|, uuids)) &&
            MetadataListError(metadata, |documents.items|, "documents").Some? ==>
      r == Raise(MetadataListError(metadata, |documents.items|, "documents").value)
    ensures documents.VList? && encoded.Return? && IdsValid(ChosenIds(ids, |documents.items|, uuids)) &&
            MetadataListError(metadata, |documents.items|, "documents").None? &&
            toList(encoded.value).Raise? ==>
      r == Raise(toList(encoded.value).exc)
    ensures r.Return? <==>
      documents.VList? && encoded.Return? && IdsValid(ChosenIds(ids, |documents.items|, uuids)) &&
      MetadataListError(metadata, |documents.items|, "documents").None? && toList(encoded.value).Return?
    ensures r.Return? ==>
      r.value.ids == ChosenIds(ids, |documents.items|, uuids) &&
      r.value.documents == documents &&
      toList(encoded.value) == Return(r.value.embeddings) &&
      r.value.metadatas == Metadatas(metadata, |documents.items|)
  {
    if !documents.VList? then Raise(ValueError("documents should be a list of strings"))
    else if encoded.Raise? then Raise(encoded.exc)
    else
      var n := |documents.items|;
      var ids := ChosenIds(ids, n, uuids);
      if !IdsValid(ids) then Raise(IdsError)
      else match MetadataListError(metadata, n, "documents")
        case Some(e) => Raise(e)
        case None =>
          match toList(encoded.value)
          case Raise(e) => Raise(e)
          case Return(embeddings) => Return(AddCall(ids, documents, embeddings, Metadatas(metadata, n)))
  }

  /** Whatever the caller passed, `add` always receives one metadata dict
      per document. */
  lemma MetadatasOnePerDocument(documents: Value, encoded: Outcome<Value>, ids: Value, metadata: Value,
                                uuids: nat -> string, toList: Value -> Outcome<Value>)
    requires PlanAdd(documents, encoded, ids, metadata, uuids, toList).Return?
    ensures var m := PlanAdd(documents, encoded, ids, metadata, uuids, toList).value.metadatas;
      m.VList? && |m.items| == |documents.items| &&
      forall k :: 0 <= k < |m.items| ==> m.items[k].VDict?
  {
    var n := |documents.items|;
    assert MetadataListError(metadata, n, "documents").None?;
    if Truthy(metadata) {
      assert metadata.VList?;
    }
  }

  /** With `ids` omitted, one generated id per document is sent and
      returned, and all of them pass the id check when no generated id is
      empty. */
  lemma GeneratesOneIdPerDocument(documents: Value, encoded: Outcome<Value>, metadata: Value,
                                  uuids: nat -> string, toList: Value -> Outcome<Value>)
    requires documents.VList? && encoded.Return?
    requires forall k :: 0 <= k < |documents.items| ==> uuids(k) != ""
    requires MetadataListError(metadata, |documents.items|, "documents").None?
    requires toList(encoded.value).Return?
    ensures var r := PlanAdd(documents, encoded, VNone, metadata, uuids, toList);
      r.Return? && r.value.ids.VList? && |r.value.ids.items| == |documents.items| &&
      forall k :: 0 <= k < |documents.items| ==> r.value.ids.items[k] == VStr(uuids(k))
  {
    GeneratedIdsValid(|documents.items|, uuids);
    var ids := GeneratedIds(|documents.items|, uuids);
    forall k | 0 <= k < |documents.items| ensures ids[k] == VStr(uuids(k)) {
      assert ids[k].VStr? && ids[k].s == uuids(k);
    }
  }

  class ChromaManager {
    const model: SentenceModel
    const collection: Collection

    /** Stands for a manager with an open collection; opening is not modelled. */
    constructor (model: SentenceModel, collection: Collection)
      ensures this.model == model && this.collection == collection
    {
      this.model := model;
      this.collection := collection;
    }

    /** `embed_and_upsert`: a non-list `documents` raises before the model
        is asked; at most one `collection.add` call is made, only after
        every check passed; on success the ids passed to `add` are
        returned, and every exception propagates unchanged. */
    method EmbedAndUpsert(documents: Value, uuids: nat -> string, toList: Value -> Outcome<Value>,
                          ids: Value := VNone, metadata: Value := VNone)
      returns (r: Outcome<Value>)
      modifies model, collection
      ensures !documents.VList? ==> model.calls == old(model.calls)
      ensures documents.VList? ==> model.calls == old(model.calls) + [documents]
      ensures var plan := PlanAdd(documents, model.encode(documents), ids, metadata, uuids, toList);
        collection.adds == old(collection.adds) + (if plan.Return? then [plan.value] else []) &&
        r == if plan.Raise? then Raise(plan.exc)
             else match collection.onAdd(plan.value)
               case Return(_) => Return(plan.value.ids)
               case Raise(e) => Raise(e)
    {
      if !documents.VList? {
        return Raise(ValueError("documents should be a list of strings"));
      }
      var embeddings := model.Encode(documents);
      ghost var plan := PlanAdd(documents, embeddings, ids, metadata, uuids, toList);
      if embeddings.Raise? {
        return Raise(embeddings.exc);
      }
      var n := |documents.items|;
      var chosen := ids;
      if chosen.VNone? {
        chosen := VList(GeneratedIds(n, uuids));
      }
      assert chosen == ChosenIds(ids, n, uuids);
      if !IdsValid(chosen) {
        assert plan == Raise(IdsError);
        return Raise(IdsError);
      }
      var metadataError := MetadataListError(metadata, n, "documents");
      if metadataError.Some? {
        assert plan == Raise(metadataError.value);
        return Raise(metadataError.value);
      }
      var asList := toList(embeddings.value);
      if asList.Raise? {
        return Raise(asList.exc);
      }
      var metadatas := if Truthy(metadata) then metadata else VList(EmptyDicts(n));
      var call := AddCall(chosen, documents, asList.value, metadatas);
      assert plan == Return(call);
      var added := collection.Add(call);
      if added.Raise? {
        return Raise(added.exc);
      }
      return Return(chosen);
    }
  }
}
