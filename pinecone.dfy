/** The remote-index adapter (`PineconeManager`): vector upsert with
    out-of-band metadata, similarity search, and embed-then-upsert. */
module Pinecone {
  import opened Python
  import opened Operations

  /** One `(id, vector, metadata)` triple as sent to `index.upsert`. */
  datatype VectorRecord = VectorRecord(id: string, vector: Value, metadata: Value)

  /** One match of a query answer: its `id` and `score` attributes. */
  datatype Match = Match(id: Value, score: Value)

  /** The keyword arguments of one `index.query` call. */
  datatype QueryRequest = QueryRequest(vector: Value, topK: int, includeMetadata: bool)

  /** What `upsert_vectors` does with its arguments: return at once, raise
      a validation error, or send one list of records to the index. */
  datatype UpsertPlan = NothingToUpsert | Invalid(error: Exception) | Send(records: seq<VectorRecord>)

  const DefaultTopK := 5

  /** The remote index, a collaborator.  `onUpsert` and `onQuery` are what
      the service answers (or raises) for a call; the ghost logs record
      every call made to it. */
  class Index {
    ghost var upserts: seq<seq<VectorRecord>>
    ghost var queries: seq<QueryRequest>
    const onUpsert: seq<VectorRecord> -> Outcome<()>
    const onQuery: QueryRequest -> Outcome<seq<Match>>

    constructor (onUpsert: seq<VectorRecord> -> Outcome<()>, onQuery: QueryRequest -> Outcome<seq<Match>>)
      ensures this.onUpsert == onUpsert && this.onQuery == onQuery
      ensures upserts == [] && queries == []
    {
      this.onUpsert := onUpsert;
      this.onQuery := onQuery;
      upserts, queries := [], [];
    }

    method Upsert(vectors: seq<VectorRecord>) returns (r: Outcome<()>)
      modifies this
      ensures upserts == old(upserts) + [vectors] && queries == old(queries)
      ensures r == onUpsert(vectors)
    {
      upserts := upserts + [vectors];
      r := onUpsert(vectors);
    }

    method Query(q: QueryRequest) returns (r: Outcome<seq<Match>>)
      modifies this
      ensures queries == old(queries) + [q] && upserts == old(upserts)
      ensures r == onQuery(q)
    {
      queries := queries + [q];
      r := onQuery(q);
    }
  }

  // ---------------------------------------------------------------------
  // upsert_vectors: the reference definition

  /** `isinstance(t, tuple) and len(t) == 2` */
  predicate IsPair(v: Value) {
    v.VTuple? && |v.elems| == 2
  }

  predicate AllPairs(items: seq<Value>) {
    forall k :: 0 <= k < |items| ==> IsPair(items[k])
  }

  /** The per-pair checks of the loop: the id is a `str`, the vector a `list`. */
  predicate WellTyped(p: Value)
    requires IsPair(p)
  {
    p.elems[0].VStr? && p.elems[1].VList?
  }

  /** The error the loop raises for an ill-typed pair; the id is checked first. */
  function PairError(p: Value): Exception
    requires IsPair(p) && !WellTyped(p)
  {
    if !p.elems[0].VStr? then ValueError("id should be a string")
    else ValueError("vector should be a list")
  }

  /** Pair `j` is the first ill-typed one. */
  predicate FirstIllTyped(pairs: seq<Value>, j: int)
    requires AllPairs(pairs)
  {
    0 <= j < |pairs| && !WellTyped(pairs[j]) &&
    forall k :: 0 <= k < j ==> WellTyped(pairs[k])
  }

  /** `metadata[id]` when `metadata` is truthy and holds `id`, else `{}`. */
  function MetadataFor(metadata: Value, id: string): (r: Value)
    ensures Truthy(metadata) && metadata.VDict? && HasKey(metadata.entries, VStr(id)) ==>
      Lookup(metadata.entries, VStr(id)) == Some(r)
    ensures !(Truthy(metadata) && metadata.VDict? && HasKey(metadata.entries, VStr(id))) ==> r == EmptyDict
  {
    if Truthy(metadata) && metadata.VDict? then
      match Lookup(metadata.entries, VStr(id))
      case Some(m) => m
      case None => EmptyDict
    else EmptyDict
  }

  function RecordFor(p: Value, metadata: Value): VectorRecord
    requires IsPair(p) && WellTyped(p)
  {
    VectorRecord(p.elems[0].s, p.elems[1], MetadataFor(metadata, p.elems[0].s))
  }

  /** The loop of `upsert_vectors` as a function: one record per pair, in
      order, or the error of the first ill-typed pair. */
  function Combine(pairs: seq<Value>, metadata: Value): (r: Outcome<seq<VectorRecord>>)
    requires AllPairs(pairs)
    ensures r.Return? <==> forall k :: 0 <= k < |pairs| ==> WellTyped(pairs[k])
    ensures r.Return? ==> (|r.value| == |pairs| &&
      forall k :: 0 <= k < |pairs| ==> r.value[k] == RecordFor(pairs[k], metadata))
    ensures r.Raise? ==> exists j :: FirstIllTyped(pairs, j) && r.exc == PairError(pairs[j])
  {
    if pairs == [] then Return([])
    else if !WellTyped(pairs[0]) then Raise(PairError(pairs[0]))
    else
      match Combine(pairs[1..], metadata)
      case Raise(e) =>
        assert exists j :: FirstIllTyped(pairs[1..], j) && e == PairError(pairs[1..][j]);
        var j :| FirstIllTyped(pairs[1..], j) && e == PairError(pairs[1..][j]);
        assert FirstIllTyped(pairs, j + 1);
        Raise(e)
      case Return(rest) =>
        assert forall k :: 0 <= k < |pairs| - 1 ==> pairs[1..][k] == pairs[k + 1];
        Return([RecordFor(pairs[0], metadata)] + rest)
  }

  /** Once the first ill-typed pair is known, so is the error. */
  lemma CombineStopsAt(pairs: seq<Value>, metadata: Value, i: int)
    requires AllPairs(pairs) && FirstIllTyped(pairs, i)
    ensures Combine(pairs, metadata) == Raise(PairError(pairs[i]))
  {
    var r := Combine(pairs, metadata);
    assert r.Raise?;
    var j :| FirstIllTyped(pairs, j) && r.exc == PairError(pairs[j]);
    assert j == i;
  }

  /** What `upsert_vectors(vectors, metadata)` decides to do.  The falsy
      check comes before the list check, and a falsy `metadata` is never
      checked to be a dict. */
  function PlanUpsert(vectors: Value, metadata: Value): (r: UpsertPlan)
    ensures r == NothingToUpsert <==> !Truthy(vectors)
    ensures Truthy(vectors) && !vectors.VList? ==>
      r == Invalid(ValueError("vectors should be a list of tuples"))
    ensures Truthy(vectors) && vectors.VList? && !AllPairs(vectors.items) ==>
      r == Invalid(ValueError("vectors should be a list of tuples of length 2"))
    ensures Truthy(vectors) && vectors.VList? && AllPairs(vectors.items) && Truthy(metadata) && !metadata.VDict? ==>
      r == Invalid(ValueError("metadata should be a dictionary"))
    ensures Truthy(vectors) && vectors.VList? && AllPairs(vectors.items) && (!Truthy(metadata) || metadata.VDict?) ==>
      forall j :: FirstIllTyped(vectors.items, j) ==> r == Invalid(PairError(vectors.items[j]))
    ensures r.Invalid? ==> r.error.ValueError?
    ensures r.Send? <==>
      Truthy(vectors) && vectors.VList? && AllPairs(vectors.items) && (!Truthy(metadata) || metadata.VDict?) &&
      forall k :: 0 <= k < |vectors.items| ==> WellTyped(vectors.items[k])
    ensures r.Send? ==> (|r.records| == |vectors.items| &&
      forall k :: 0 <= k < |r.records| ==>
        VStr(r.records[k].id) == vectors.items[k].elems[0] &&
        r.records[k].vector == vectors.items[k].elems[1] &&
        r.records[k].metadata == MetadataFor(metadata, r.records[k].id))
  {
    if !Truthy(vectors) then NothingToUpsert
    else if !vectors.VList? then Invalid(ValueError("vectors should be a list of tuples"))
    else if !AllPairs(vectors.items) then Invalid(ValueError("vectors should be a list of tuples of length 2"))
    else if Truthy(metadata) && !metadata.VDict? then Invalid(ValueError("metadata should be a dictionary"))
    else
      var c := Combine(vectors.items, metadata);
      if c.Raise? then
        forall j | FirstIllTyped(vectors.items, j) ensures c == Raise(PairError(vectors.items[j])) {
          CombineStopsAt(vectors.items, metadata, j);
        }
        Invalid(c.exc)
      else Send(c.value)
  }

  /** The `index.upsert` calls a plan makes: one call exactly when it sends. */
  function Forwarded(plan: UpsertPlan): seq<seq<VectorRecord>> {
    if plan.Send? then [plan.records] else []
  }

  /** How `upsert_vectors` ends: an exception of the index propagates as it is. */
  function Delivered(plan: UpsertPlan, onUpsert: seq<VectorRecord> -> Outcome<()>): Outcome<()> {
    match plan
    case NothingToUpsert => Return(())
    case Invalid(e) => Raise(e)
    case Send(records) => onUpsert(records)
  }

  // ---------------------------------------------------------------------
  // search_similar

  /** `[(match.id, match.score) for match in matches]` */
  function Scores(matches: seq<Match>): (r: seq<(Value, Value)>)
    ensures |r| == |matches|
    ensures forall k :: 0 <= k < |r| ==> r[k] == (matches[k].id, matches[k].score)
  {
    if matches == [] then [] else [(matches[0].id, matches[0].score)] + Scores(matches[1..])
  }

  // ---------------------------------------------------------------------
  // embed_and_upsert: the reference definition

  /** What `embed_and_upsert` passes to `upsert_vectors`, and returns. */
  datatype Prepared = Prepared(ids: Value, vectors: Value, metadataDict: Value)

  const EmbeddingsError: Exception := ValueError("embeddings should be a list of vectors")

  /** The steps of `embed_and_upsert` after `encode` returned `embeddings`
      for `n` sentences: check the embeddings, generate or check the ids,
      check the metadata list, zip ids with embeddings and re-key the
      metadata list by id. */
  function PrepareUpsert(embeddings: Value, ids: Value, metadata: Value, n: nat, uuids: nat -> string): (r: Outcome<Prepared>)
    ensures !embeddings.VList? || !AllTruthy(embeddings.items) ==> r == Raise(EmbeddingsError)
    ensures embeddings.VList? && AllTruthy(embeddings.items) && !IdsValid(ChosenIds(ids, n, uuids)) ==>
      r == Raise(IdsError)
    ensures embeddings.VList? && AllTruthy(embeddings.items) && IdsValid(ChosenIds(ids, n, uuids)) &&
            MetadataListError(metadata, n, "sentences").Some? ==>
      r == Raise(MetadataListError(metadata, n, "sentences").value)
    ensures embeddings.VList? && AllTruthy(embeddings.items) && IdsValid(ChosenIds(ids, n, uuids)) &&
            MetadataListError(metadata, n, "sentences").None? && !metadata.VNone? &&
            BuildDict(Zip(ChosenIds(ids, n, uuids).items, metadata.items)).Raise? ==>
      r == Raise(UnhashableError)
    ensures r.Return? <==>
      embeddings.VList? && AllTruthy(embeddings.items) && IdsValid(ChosenIds(ids, n, uuids)) &&
      MetadataListError(metadata, n, "sentences").None? &&
      (metadata.VNone? || BuildDict(Zip(ChosenIds(ids, n, uuids).items, metadata.items)).Return?)
    ensures r.Return? ==> r.value.ids == ChosenIds(ids, n, uuids)
    ensures r.Return? ==> embeddings.VList? && IdsValid(r.value.ids) && MetadataListError(metadata, n, "sentences").None?
    ensures r.Return? ==> r.value.vectors == VList(ZipTuples(r.value.ids.items, embeddings.items))
    ensures r.Return? ==> (metadata.VNone? <==> r.value.metadataDict.VNone?)
    ensures r.Return? && !metadata.VNone? ==>
      r.value.metadataDict.VDict? && BuildDict(Zip(r.value.ids.items, metadata.items)) == Return(r.value.metadataDict.entries)
    ensures r.Raise? ==> r.exc.ValueError? || r.exc == UnhashableError
  {
    if !embeddings.VList? || !AllTruthy(embeddings.items) then Raise(EmbeddingsError)
    else
      var ids := ChosenIds(ids, n, uuids);
      if !IdsValid(ids) then Raise(IdsError)
      else match MetadataListError(metadata, n, "sentences")
        case Some(e) => Raise(e)
        case None =>
          var vectors := VList(ZipTuples(ids.items, embeddings.items));
          if metadata.VNone? then Return(Prepared(ids, vectors, VNone))
          else match BuildDict(Zip(ids.items, metadata.items))
            case Raise(e) => Raise(e)
            case Return(d) => Return(Prepared(ids, vectors, VDict(d)))
  }

  /** The whole of `embed_and_upsert` up to the `upsert_vectors` call, for
      what `encode` answered. */
  function PlanEmbed(sentences: Value, encoded: Outcome<Value>, ids: Value, metadata: Value, uuids: nat -> string):
    (r: Outcome<Prepared>)
    ensures !sentences.VList? ==> r == Raise(ValueError("sentences should be a list of strings"))
    ensures sentences.VList? && encoded.Raise? ==> r == Raise(encoded.exc)
    ensures r.Return? ==>
      sentences.VList? && encoded.Return? && encoded.value.VList? &&
      r.value.ids == ChosenIds(ids, |sentences.items|, uuids) && IdsValid(r.value.ids) &&
      r.value.vectors == VList(ZipTuples(r.value.ids.items, encoded.value.items)) &&
      MetadataListError(metadata, |sentences.items|, "sentences").None?
  {
    if !sentences.VList? then Raise(ValueError("sentences should be a list of strings"))
    else if encoded.Raise? then Raise(encoded.exc)
    else PrepareUpsert(encoded.value, ids, metadata, |sentences.items|, uuids)
  }

  /** The `upsert_vectors` call that a prepared embed makes, if any. */
  function EmbedUpsertPlan(p: Outcome<Prepared>): UpsertPlan {
    if p.Return? then PlanUpsert(p.value.vectors, p.value.metadataDict) else NothingToUpsert
  }

  /** How `embed_and_upsert` ends: the ids once `upsert_vectors` returned,
      otherwise the exception raised on the way. */
  function EmbedResult(p: Outcome<Prepared>, onUpsert: seq<VectorRecord> -> Outcome<()>): Outcome<Value> {
    if p.Raise? then Raise(p.exc)
    else match Delivered(PlanUpsert(p.value.vectors, p.value.metadataDict), onUpsert)
      case Return(_) => Return(p.value.ids)
      case Raise(e) => Raise(e)
  }

  /** Every record sent carries the id returned at the same position, so
      the sent ids are a prefix of the returned ones (`zip` drops the ids
      that have no embedding). */
  lemma EmbedSendsReturnedIds(sentences: Value, embeddings: Value, ids: Value, metadata: Value, uuids: nat -> string)
    requires PlanEmbed(sentences, Return(embeddings), ids, metadata, uuids).Return?
    requires EmbedUpsertPlan(PlanEmbed(sentences, Return(embeddings), ids, metadata, uuids)).Send?
    ensures var p := PlanEmbed(sentences, Return(embeddings), ids, metadata, uuids).value;
      var records := EmbedUpsertPlan(PlanEmbed(sentences, Return(embeddings), ids, metadata, uuids)).records;
      p.ids == ChosenIds(ids, |sentences.items|, uuids) &&
      |records| == Min(|p.ids.items|, |embeddings.items|) &&
      forall k :: 0 <= k < |records| ==>
        VStr(records[k].id) == p.ids.items[k] && records[k].vector == embeddings.items[k]
  {
    var p := PlanEmbed(sentences, Return(embeddings), ids, metadata, uuids).value;
    var records := EmbedUpsertPlan(PlanEmbed(sentences, Return(embeddings), ids, metadata, uuids)).records;
    forall k | 0 <= k < |records|
      ensures VStr(records[k].id) == p.ids.items[k] && records[k].vector == embeddings.items[k]
    {
      assert p.vectors.items[k] == VTuple([p.ids.items[k], embeddings.items[k]]);
    }
  }

  /** The record at position `k` carries the metadata of the LAST position
      `j` within the metadata list that repeats its id: the dict
      comprehension lets a later pair overwrite an earlier one. */
  lemma EmbedSendsLastMetadata(sentences: Value, embeddings: Value, ids: Value, metadata: Value, uuids: nat -> string,
                               k: nat, j: nat)
    requires PlanEmbed(sentences, Return(embeddings), ids, metadata, uuids).Return?
    requires EmbedUpsertPlan(PlanEmbed(sentences, Return(embeddings), ids, metadata, uuids)).Send?
    requires metadata.VList?
    requires k < |EmbedUpsertPlan(PlanEmbed(sentences, Return(embeddings), ids, metadata, uuids)).records|
    requires var chosen := PlanEmbed(sentences, Return(embeddings), ids, metadata, uuids).value.ids.items;
      k <= j < Min(|chosen|, |metadata.items|) && chosen[j] == chosen[k] &&
      forall l :: j < l < Min(|chosen|, |metadata.items|) ==> chosen[l] != chosen[k]
    ensures EmbedUpsertPlan(PlanEmbed(sentences, Return(embeddings), ids, metadata, uuids)).records[k].metadata
      == metadata.items[j]
  {
    var p := PlanEmbed(sentences, Return(embeddings), ids, metadata, uuids).value;
    var records := EmbedUpsertPlan(PlanEmbed(sentences, Return(embeddings), ids, metadata, uuids)).records;
    var pairs := Zip(p.ids.items, metadata.items);
    assert p.vectors.items[k] == VTuple([p.ids.items[k], embeddings.items[k]]);
    assert VStr(records[k].id) == p.ids.items[k];
    assert j < |pairs| && pairs[j].0 == p.ids.items[k];
    forall l | j < l < |pairs| ensures pairs[l].0 != pairs[j].0 {
      assert pairs[l].0 == p.ids.items[l];
    }
    BuildDictLookup(pairs, j);
    var d := p.metadataDict.entries;
    assert Lookup(d, p.ids.items[k]) == Some(metadata.items[j]);
    assert Truthy(p.metadataDict);
  }

  /** The record at position `k` carries `metadata[k]` when no later
      position within the metadata list repeats its id. */
  lemma EmbedSendsMetadataAt(sentences: Value, embeddings: Value, ids: Value, metadata: Value, uuids: nat -> string, k: nat)
    requires PlanEmbed(sentences, Return(embeddings), ids, metadata, uuids).Return?
    requires EmbedUpsertPlan(PlanEmbed(sentences, Return(embeddings), ids, metadata, uuids)).Send?
    requires metadata.VList?
    requires k < |EmbedUpsertPlan(PlanEmbed(sentences, Return(embeddings), ids, metadata, uuids)).records|
    requires k < |metadata.items|
    requires var chosen := PlanEmbed(sentences, Return(embeddings), ids, metadata, uuids).value.ids.items;
      forall j :: k < j < Min(|chosen|, |metadata.items|) ==> chosen[j] != chosen[k]
    ensures EmbedUpsertPlan(PlanEmbed(sentences, Return(embeddings), ids, metadata, uuids)).records[k].metadata
      == metadata.items[k]
  {
    EmbedSendsReturnedIds(sentences, embeddings, ids, metadata, uuids);
    EmbedSendsLastMetadata(sentences, embeddings, ids, metadata, uuids, k, k);
  }

  /** The ids (given or generated) are distinct non-empty strings, one per sentence. */
  predicate DistinctIds(chosen: Value, n: nat) {
    chosen.VList? && |chosen.items| == n &&
    (forall k :: 0 <= k < n ==> chosen.items[k].VStr? && chosen.items[k] != VStr("")) &&
    forall j, k :: 0 <= j < k < n ==> chosen.items[j] != chosen.items[k]
  }

  /** One non-empty list per sentence. */
  predicate OneVectorEach(embeddings: Value, n: nat) {
    embeddings.VList? && |embeddings.items| == n &&
    forall k :: 0 <= k < n ==> embeddings.items[k].VList? && Truthy(embeddings.items[k])
  }

  /** With well-formed embeddings, ids and metadata, every check passes. */
  lemma EmbedAlignedPrepares(sentences: Value, embeddings: Value, ids: Value, metadata: Value, uuids: nat -> string)
    requires sentences.VList? && OneVectorEach(embeddings, |sentences.items|)
    requires DistinctIds(ChosenIds(ids, |sentences.items|, uuids), |sentences.items|)
    requires MetadataListError(metadata, |sentences.items|, "sentences").None?
    ensures PlanEmbed(sentences, Return(embeddings), ids, metadata, uuids).Return?
  {
    var chosen := ChosenIds(ids, |sentences.items|, uuids);
    assert IdsValid(chosen) by {
      forall k | 0 <= k < |chosen.items| ensures Truthy(chosen.items[k]) {
        assert chosen.items[k] != VStr("");
      }
    }
    if !metadata.VNone? {
      var pairs := Zip(chosen.items, metadata.items);
      forall k | 0 <= k < |pairs| ensures Hashable(pairs[k].0) {
        assert pairs[k].0 == chosen.items[k];
      }
    }
  }

  /** The common case end to end: when there are as many embeddings as
      sentences and the ids (given or generated) are distinct non-empty
      strings, record `k` is `(ids[k], embeddings[k], metadata[k] or {})`
      and the ids are returned; with no sentences nothing is sent. */
  lemma EmbedAligned(sentences: Value, embeddings: Value, ids: Value, metadata: Value, uuids: nat -> string)
    requires sentences.VList? && OneVectorEach(embeddings, |sentences.items|)
    requires DistinctIds(ChosenIds(ids, |sentences.items|, uuids), |sentences.items|)
    requires MetadataListError(metadata, |sentences.items|, "sentences").None?
    ensures PlanEmbed(sentences, Return(embeddings), ids, metadata, uuids).Return?
    ensures PlanEmbed(sentences, Return(embeddings), ids, metadata, uuids).value.ids == ChosenIds(ids, |sentences.items|, uuids)
    ensures |sentences.items| == 0 ==>
      EmbedUpsertPlan(PlanEmbed(sentences, Return(embeddings), ids, metadata, uuids)) == NothingToUpsert
    ensures |sentences.items| > 0 ==>
      var plan := EmbedUpsertPlan(PlanEmbed(sentences, Return(embeddings), ids, metadata, uuids));
      plan.Send? && |plan.records| == |sentences.items| &&
      forall k :: 0 <= k < |plan.records| ==>
        plan.records[k] == VectorRecord(ChosenIds(ids, |sentences.items|, uuids).items[k].s, embeddings.items[k],
                                        if metadata.VNone? then EmptyDict else metadata.items[k])
  {
    EmbedAlignedPrepares(sentences, embeddings, ids, metadata, uuids);
    var n := |sentences.items|;
    var chosen := ChosenIds(ids, n, uuids);
    var p := PlanEmbed(sentences, Return(embeddings), ids, metadata, uuids);
    var vectors := p.value.vectors;
    if n > 0 {
      assert Truthy(vectors);
      forall k | 0 <= k < |vectors.items| ensures IsPair(vectors.items[k]) && WellTyped(vectors.items[k]) {
        assert vectors.items[k] == VTuple([chosen.items[k], embeddings.items[k]]);
      }
      var plan := EmbedUpsertPlan(p);
      assert plan.Send?;
      EmbedSendsReturnedIds(sentences, embeddings, ids, metadata, uuids);
      forall k | 0 <= k < |plan.records|
        ensures plan.records[k] == VectorRecord(chosen.items[k].s, embeddings.items[k],
                                                if metadata.VNone? then EmptyDict else metadata.items[k])
      {
        if !metadata.VNone? {
          EmbedSendsMetadataAt(sentences, embeddings, ids, metadata, uuids, k);
        }
      }
    }
  }

  // ---------------------------------------------------------------------
  // The scenarios of the unit tests

  /** Metadata for one of two ids: the other record gets `{}`. */
  lemma UpsertPartialMetadataExample()
    ensures var v1, v2 := VList([VNum(0.1), VNum(0.2), VNum(0.3)]), VList([VNum(0.4), VNum(0.5), VNum(0.6)]);
      var doc1 := VDict([(VStr("type"), VStr("doc1"))]);
      PlanUpsert(VList([VTuple([VStr("id1"), v1]), VTuple([VStr("id2"), v2])]), VDict([(VStr("id1"), doc1)]))
        == Send([VectorRecord("id1", v1, doc1), VectorRecord("id2", v2, EmptyDict)])
  {
    var v1, v2 := VList([VNum(0.1), VNum(0.2), VNum(0.3)]), VList([VNum(0.4), VNum(0.5), VNum(0.6)]);
    var doc1 := VDict([(VStr("type"), VStr("doc1"))]);
    var meta := VDict([(VStr("id1"), doc1)]);
    var items := [VTuple([VStr("id1"), v1]), VTuple([VStr("id2"), v2])];
    assert MetadataFor(meta, "id1") == doc1;
    assert Lookup(meta.entries, VStr("id2")) == None;
    var r := PlanUpsert(VList(items), meta);
    assert r.Send?;
    assert r.records == [VectorRecord("id1", v1, doc1), VectorRecord("id2", v2, EmptyDict)];
  }

  /** A string, a 3-tuple and a string as metadata are each refused. */
  lemma UpsertInvalidInputExamples()
    ensures PlanUpsert(VStr("not_a_list"), VNone) == Invalid(ValueError("vectors should be a list of tuples"))
    ensures PlanUpsert(VList([VTuple([VStr("id1"), VStr("vec1"), VStr("extra")])]), VNone)
      == Invalid(ValueError("vectors should be a list of tuples of length 2"))
    ensures PlanUpsert(VList([VTuple([VStr("id1"), VList([VNum(0.1), VNum(0.2)])])]), VStr("not_a_dict"))
      == Invalid(ValueError("metadata should be a dictionary"))
  {
    var triple := [VTuple([VStr("id1"), VStr("vec1"), VStr("extra")])];
    assert |triple[0].elems| == 3;
    assert !IsPair(triple[0]);
  }

  /** The backend's ranking comes back as it was. */
  lemma SearchExample()
    ensures Scores([Match(VStr("id1"), VNum(0.9)), Match(VStr("id2"), VNum(0.8))])
      == [(VStr("id1"), VNum(0.9)), (VStr("id2"), VNum(0.8))]
  {
  }

  // ---------------------------------------------------------------------
  // The manager

  class PineconeManager {
    const model: SentenceModel
    const index: Index

    /** Stands for a connected manager; connecting is not modelled. */
    constructor (model: SentenceModel, index: Index)
      ensures this.model == model && this.index == index
    {
      this.model := model;
      this.index := index;
    }

    /** The loop of `upsert_vectors`: checks each pair in turn and appends
        its record, stopping at the first ill-typed pair. */
    method BuildVectorList(items: seq<Value>, metadata: Value) returns (r: Outcome<seq<VectorRecord>>)
      requires AllPairs(items)
      requires Truthy(metadata) ==> metadata.VDict?
      ensures r == Combine(items, metadata)
    {
      var vectorList: seq<VectorRecord> := [];
      var i := 0;
      while i < |items|
        invariant 0 <= i <= |items|
        invariant forall k :: 0 <= k < i ==> WellTyped(items[k])
        invariant |vectorList| == i
        invariant forall k :: 0 <= k < i ==> vectorList[k] == RecordFor(items[k], metadata)
      {
        var id, vec := items[i].elems[0], items[i].elems[1];
        if !id.VStr? {
          CombineStopsAt(items, metadata, i);
          return Raise(ValueError("id should be a string"));
        }
        if !vec.VList? {
          CombineStopsAt(items, metadata, i);
          return Raise(ValueError("vector should be a list"));
        }
        if Truthy(metadata) && HasKey(metadata.entries, id) {
          vectorList := vectorList + [VectorRecord(id.s, vec, Lookup(metadata.entries, id).value)];
        } else {
          vectorList := vectorList + [VectorRecord(id.s, vec, EmptyDict)];
        }
        i := i + 1;
      }
      assert vectorList == Combine(items, metadata).value;
      return Return(vectorList);
    }

    /** `upsert_vectors`: validates, builds one record per pair in order,
        and sends them in a single `index.upsert` call. */
    method UpsertVectors(vectors: Value, metadata: Value := VNone) returns (r: Outcome<()>)
      modifies index
      ensures index.upserts == old(index.upserts) + Forwarded(PlanUpsert(vectors, metadata))
      ensures index.queries == old(index.queries)
      ensures r == Delivered(PlanUpsert(vectors, metadata), index.onUpsert)
    {
      if !Truthy(vectors) {
        return Return(());
      }
      if !vectors.VList? {
        return Raise(ValueError("vectors should be a list of tuples"));
      }
      var items := vectors.items;
      if !forall k :: 0 <= k < |items| ==> IsPair(items[k]) {
        return Raise(ValueError("vectors should be a list of tuples of length 2"));
      }
      if Truthy(metadata) && !metadata.VDict? {
        return Raise(ValueError("metadata should be a dictionary"));
      }

      var built := BuildVectorList(items, metadata);
      if built.Raise? {
        return Raise(built.exc);
      }
      r := index.Upsert(built.value);
    }

    /** `search_similar`: one query with metadata requested and `topK`
        passed on unchanged, answered by the matches' `(id, score)` pairs
        in the backend's order; an error of the index propagates. */
    method SearchSimilar(queryVector: Value, topK: int := DefaultTopK) returns (r: Outcome<seq<(Value, Value)>>)
      modifies index
      ensures index.queries == old(index.queries) + [QueryRequest(queryVector, topK, true)]
      ensures index.upserts == old(index.upserts)
      ensures match index.onQuery(QueryRequest(queryVector, topK, true))
        case Return(matches) => r == Return(Scores(matches))
        case Raise(e) => r == Raise(e)
    {
      var results := index.Query(QueryRequest(queryVector, topK, true));
      match results
      case Return(matches) =>
        r := Return(Scores(matches));
      case Raise(e) =>
        r := Raise(e);
    }

    /** `embed_and_upsert`: a non-list `sentences` raises before the model
        is asked; every later validation error raises before the index is
        touched; on success the ids are returned. */
    method EmbedAndUpsert(sentences: Value, uuids: nat -> string, ids: Value := VNone, metadata: Value := VNone)
      returns (r: Outcome<Value>)
      modifies model, index
      ensures !sentences.VList? ==> model.calls == old(model.calls)
      ensures sentences.VList? ==> model.calls == old(model.calls) + [sentences]
      ensures var p := PlanEmbed(sentences, model.encode(sentences), ids, metadata, uuids);
        index.upserts == old(index.upserts) + Forwarded(EmbedUpsertPlan(p)) &&
        r == EmbedResult(p, index.onUpsert)
      ensures index.queries == old(index.queries)
    {
      if !sentences.VList? {
        return Raise(ValueError("sentences should be a list of strings"));
      }
      var encoded := model.Encode(sentences);
      if encoded.Raise? {
        return Raise(encoded.exc);
      }
      ghost var plan := PlanEmbed(sentences, encoded, ids, metadata, uuids);
      var embeddings := encoded.value;
      if !embeddings.VList? || !AllTruthy(embeddings.items) {
        assert plan == Raise(EmbeddingsError);
        return Raise(EmbeddingsError);
      }
      var chosen := ids;
      if chosen.VNone? {
        chosen := VList(GeneratedIds(|sentences.items|, uuids));
      }
      assert chosen == ChosenIds(ids, |sentences.items|, uuids);
      if !IdsValid(chosen) {
        assert plan == Raise(IdsError);
        return Raise(IdsError);
      }
      var metadataError := MetadataListError(metadata, |sentences.items|, "sentences");
      if metadataError.Some? {
        assert plan == Raise(metadataError.value);
        return Raise(metadataError.value);
      }
      var vectors := VList(ZipTuples(chosen.items, embeddings.items));
      var metadataDict := VNone;
      if !metadata.VNone? {
        var d := BuildDict(Zip(chosen.items, metadata.items));
        if d.Raise? {
          assert plan == Raise(d.exc);
          return Raise(d.exc);
        }
        metadataDict := VDict(d.value);
      }
      assert plan == Return(Prepared(chosen, vectors, metadataDict));
      var done := UpsertVectors(vectors, metadataDict);
      if done.Raise? {
        return Raise(done.exc);
      }
      return Return(chosen);
    }
  }
}
