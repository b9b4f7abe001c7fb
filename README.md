# cssallmlib vector-store adapters in Dafny

This project models the validation and data-shaping logic of the two
vector-database adapters of `cssallmlib`:

- `PineconeManager` (remote index):
  - `upsert_vectors` checks a list of `(id, vector)` pairs and an id-to-metadata dict. It then sends one
    `(id, vector, metadata-or-{})` triple per pair, in input order, in a single `index.upsert` call.
  - `search_similar` queries the index with `top_k` passed on unchanged and `include_metadata=True`. It
    projects the matches to `(id, score)` pairs in the backend's order.
  - `embed_and_upsert` checks the sentences and calls the embedding model. It checks the embeddings, uses
    the caller's ids or generates new ones, and checks the metadata list. It zips ids with embeddings,
    re-keys the metadata list by id and hands everything to `upsert_vectors`.
- `ChromaManager.embed_and_upsert` (local collection) checks the documents, calls the embedding model, and
  runs its own copy of the id and metadata-list checks. It has no embeddings check and no per-pair checks.
  It converts the embeddings with `.tolist()` and makes one `collection.add` call. When no metadata is
  given it sends one empty metadata dict per document.

Files and modules:

- `python.dfy` (`Python`): the Python semantics these adapters use. It has a `Value` datatype for dynamic
  values, truthiness, hashability, `zip`, dict lookup and store, and dict comprehensions. It also has the
  `Exception` and `Outcome` (return or raise) types.
- `operations.dfy` (`Operations`): the pieces both adapters use. This is the embedding model collaborator,
  generated ids, and the id and metadata-list checks. Each adapter has its own copy of the id generation and
  the two checks. They are defined once here because the copies behave the same, up to the noun in one
  message.
- `pinecone.dfy` (`Pinecone`): the remote index collaborator, the reference definitions of the three
  operations with their properties, and the `PineconeManager` class.
- `chroma.dfy` (`Chroma`): the collection collaborator, the reference definition of the `add` call, and
  the `ChromaManager` class.

Collaborators are classes with ghost logs of the calls made to them:

- `Pinecone.Index` logs `upserts` and `queries`.
- `Chroma.Collection` logs `adds`.
- `Operations.SentenceModel` logs `calls` to `encode`.

Each collaborator also has a constant function that gives its answer to a call, which is either a value or
an exception. This is how "encode is not called", "upsert is called exactly once" and "the backend's
exception propagates" are stated. The strings that `uuid.uuid4()` produces are an oracle parameter
`uuids: nat -> string`. So is numpy's `.tolist()` (`toList: Value -> Outcome<Value>`).

Each manager method is proved against a pure function: `PlanUpsert`, `Scores`, `PlanEmbed` with
`PrepareUpsert`, and `PlanAdd`. The ensures clauses of those functions and the lemmas beside them state
what the source promises.

Where the code and its tests disagree, the model follows the code.
`src/tests/test_pinecone_db.py:94-103` makes `encode` return a numpy array. So does
`src/cssallmlib/tests/test_pinecone_manager_embed_and_upsert.py:18`, and its test at lines 29-36 expects one
`upsert` call. `pinecone_db.py:102` rejects any non-list, so `PrepareUpsert` raises "embeddings should be a
list of vectors" for that input, and no upsert is made.
`chroma_db.py:63-65` logs every exception and then re-raises it, and the model re-raises too.

## Model

| member | source | states |
|---|---|---|
| `Python.Zip` | src/cssallmlib/vectordb/pinecone_db.py:124 | `zip` has the length of the shorter list and pairs positionally |
| `Python.ZipTuples` | src/cssallmlib/vectordb/pinecone_db.py:124 | `list(zip(ids, embeddings))` is a list of 2-tuples `(ids[k], embeddings[k])`, truncated to the shorter list |
| `Python.Lookup` | src/cssallmlib/vectordb/pinecone_db.py:53-54 | a key is found exactly when the dict holds it, and the value found is one stored under that key |
| `Python.Store` | src/cssallmlib/vectordb/pinecone_db.py:128 | after `d[k] = v`, `k` maps to `v`, every other key is unchanged, and the dict is non-empty |
| `Python.BuildDict` | src/cssallmlib/vectordb/pinecone_db.py:128 | a dict comprehension succeeds exactly when every key is hashable, raises `TypeError` otherwise, and is empty exactly when there are no pairs |
| `Python.BuildDictLookup` | src/cssallmlib/vectordb/pinecone_db.py:128 | in the comprehension's dict a key maps to the value of the last pair with that key |
| `Python.BuildDictKeys` | src/cssallmlib/vectordb/pinecone_db.py:128 | the comprehension's dict holds exactly the keys of its pairs |
| `Operations.SentenceModel.Encode` | src/cssallmlib/vectordb/pinecone_db.py:99 | each `encode` call is logged and answered by the model |
| `Operations.GeneratedIds` | src/cssallmlib/vectordb/pinecone_db.py:106-107 | one id per input is generated, and id `k` is the string of the k-th `uuid4` call |
| `Operations.GeneratedIdsValid` | src/cssallmlib/vectordb/pinecone_db.py:107-111 | generated ids always pass the `ids` check when no generated string is empty |
| `Operations.ChosenIds` | src/cssallmlib/vectordb/pinecone_db.py:106-107 | the caller's `ids` are kept whenever they are not `None`; otherwise id `k` of `n` is the k-th `uuid4` string |
| `Operations.IdsValid` | src/cssallmlib/vectordb/pinecone_db.py:110-111 | `isinstance(ids, list) and all(ids)`: a non-list fails, the empty list passes, and a list holding `None` or `""` fails |
| `Operations.MetadataListError` | src/cssallmlib/vectordb/pinecone_db.py:114-121 | the metadata check passes exactly for `None` or a list of `n` dicts; a wrong type or length gives the "same length" error, and a non-dict item gives the "each metadata item" error |
| `Pinecone.Index.Upsert` | src/cssallmlib/vectordb/pinecone_db.py:59 | an `index.upsert` call is logged once and answered by the backend |
| `Pinecone.Index.Query` | src/cssallmlib/vectordb/pinecone_db.py:77-79 | an `index.query` call is logged once and answered by the backend |
| `Pinecone.IsPair` | src/cssallmlib/vectordb/pinecone_db.py:39 | the arity check: a tuple of exactly two elements |
| `Pinecone.WellTyped` | src/cssallmlib/vectordb/pinecone_db.py:47-51 | the per-pair type checks: the id is a `str` and the vector a `list` |
| `Pinecone.PairError` | src/cssallmlib/vectordb/pinecone_db.py:47-51 | an ill-typed pair raises the id error when the id is not a `str`, else the vector error |
| `Pinecone.MetadataFor` | src/cssallmlib/vectordb/pinecone_db.py:53-56 | a record takes `metadata[id]` exactly when `metadata` is truthy and holds `id`, and `{}` otherwise |
| `Pinecone.Combine` | src/cssallmlib/vectordb/pinecone_db.py:45-56 | the loop succeeds exactly when every pair has a `str` id and a `list` vector; it then gives one record per pair in order, or else the error of the first ill-typed pair |
| `Pinecone.PineconeManager.BuildVectorList` | src/cssallmlib/vectordb/pinecone_db.py:45-56 | the imperative loop over the pairs builds exactly the records `Combine` describes, or stops with the same error at the first ill-typed pair |
| `Pinecone.CombineStopsAt` | src/cssallmlib/vectordb/pinecone_db.py:46-51 | the loop raises the error of the first ill-typed pair, with the id checked before the vector |
| `Pinecone.PlanUpsert` | src/cssallmlib/vectordb/pinecone_db.py:32-56 | falsy `vectors` means nothing is sent; the non-list, wrong-arity and truthy non-dict metadata cases give their messages in that order; every failure is a `ValueError` and sends nothing; records are sent exactly when all checks pass, one per pair, with `(id_i, vec_i, metadata[id_i] or {})` |
| `Pinecone.PineconeManager.UpsertVectors` | src/cssallmlib/vectordb/pinecone_db.py:24-63 | the index gets exactly one upsert call carrying `PlanUpsert`'s records when the plan sends, and none otherwise; the result is the validation error or the index's own outcome, propagated unchanged |
| `Pinecone.Scores` | src/cssallmlib/vectordb/pinecone_db.py:80 | exactly one `(id, score)` per match, in the backend's order |
| `Pinecone.PineconeManager.SearchSimilar` | src/cssallmlib/vectordb/pinecone_db.py:65-83 | exactly one query with `top_k` unchanged (default 5) and `include_metadata=True`; the result is the projected matches, or the index's exception |
| `Pinecone.PrepareUpsert` | src/cssallmlib/vectordb/pinecone_db.py:101-130 | embeddings that are not a list of truthy items raise the embeddings error; then invalid ids raise the ids error, a bad metadata list raises its own message, and an unhashable id raises `TypeError`, in that order; it returns exactly when all of these pass, with the caller's or the generated ids, the vectors `zip(ids, embeddings)` and the metadata dict the comprehension over `zip(ids, metadata)` (or `None`) |
| `Pinecone.PlanEmbed` | src/cssallmlib/vectordb/pinecone_db.py:95-130 | a non-list `sentences` raises the sentences error, whatever the model would answer; an `encode` error propagates unchanged; on success the ids are the chosen ones and pass the id check, the metadata list passed its check, and the vectors are `zip(ids, embeddings)` |
| `Pinecone.EmbedSendsReturnedIds` | src/cssallmlib/vectordb/pinecone_db.py:124-135 | each record sent carries the returned id at its position and that position's embedding; `zip` truncation makes the sent ids a prefix of the returned ones |
| `Pinecone.EmbedSendsMetadataAt` | src/cssallmlib/vectordb/pinecone_db.py:124-133 | record `k` carries `metadata[k]` when no later position of the metadata list repeats its id |
| `Pinecone.EmbedSendsLastMetadata` | src/cssallmlib/vectordb/pinecone_db.py:124-133 | when positions `k <= j` carry the same id and no later position does, record `k` carries `metadata[j]`: the later metadata wins |
| `Pinecone.EmbedAlignedPrepares` | src/cssallmlib/vectordb/pinecone_db.py:101-121 | with one non-empty vector per sentence, distinct non-empty ids and valid metadata, every check passes |
| `Pinecone.EmbedAligned` | src/cssallmlib/vectordb/pinecone_db.py:106-135 | in that case the ids (with `ids` omitted, `len(sentences)` generated ones) are returned; record `k` is `(ids[k], embeddings[k], metadata[k] or {})`; with no sentences nothing is sent |
| `Pinecone.PineconeManager.EmbedAndUpsert` | src/cssallmlib/vectordb/pinecone_db.py:85-138 | a non-list `sentences` raises before `encode` is called; any later error (encode, embeddings, ids, metadata, unhashable id) raises before the index is touched; otherwise `upsert_vectors` runs on the prepared vectors and the ids are returned |
| `Pinecone.UpsertPartialMetadataExample` | src/cssallmlib/tests/test_pinecone_manager_upsert.py:51-66 | the partial-metadata scenario sends `("id1", v1, {"type": "doc1"})` and `("id2", v2, {})` |
| `Pinecone.UpsertInvalidInputExamples` | src/tests/test_pinecone_db.py:49-63 | a string, a 3-tuple and non-dict metadata each raise their message |
| `Pinecone.SearchExample` | src/cssallmlib/tests/test_pinecone_manager.py:25-36 | two matches come back as `[("id1", 0.9), ("id2", 0.8)]` |
| `Chroma.Collection.Add` | src/cssallmlib/vectordb/chroma_db.py:54-59 | a `collection.add` call is logged once and answered by the store |
| `Chroma.EmptyDicts` | src/cssallmlib/vectordb/chroma_db.py:58 | `[{}] * n` is `n` empty dicts |
| `Chroma.Metadatas` | src/cssallmlib/vectordb/chroma_db.py:58 | truthy metadata is passed on as given; otherwise `add` receives `n` empty dicts, one per document |
| `Chroma.PlanAdd` | src/cssallmlib/vectordb/chroma_db.py:29-59 | a non-list `documents`, an encode error, invalid ids, invalid metadata and a failing `.tolist()` each raise their own exception, in that order; `add` is planned exactly when none does, with the chosen ids, the documents unchanged, the converted embeddings, and `metadata` if truthy else `n` empty dicts |
| `Chroma.MetadatasOnePerDocument` | src/cssallmlib/vectordb/chroma_db.py:44-58 | `add` always gets a list with one dict per document |
| `Chroma.GeneratesOneIdPerDocument` | src/cssallmlib/vectordb/chroma_db.py:36-41 | with `ids` omitted, one generated id per document is sent |
| `Chroma.ChromaManager.EmbedAndUpsert` | src/cssallmlib/vectordb/chroma_db.py:19-65 | a non-list `documents` raises before `encode` is called; `collection.add` is called once exactly when `PlanAdd` succeeds; the ids passed to `add` are returned; every exception propagates unchanged |

## Left out

- Constructors and connection setup (`pinecone.init`, `pinecone.Index`, `chromadb.PersistentClient`,
  `get_or_create_collection`) are network and disk I/O in external clients. The model's constructors
  only take the collaborator objects.
- The `VectorDBManager` base class in `src/cssallmlib/vectordb/operations.py` declares only stubs that do
  nothing. Only the model it loads is modelled, as the `SentenceModel` collaborator. The model's name
  (`all-MiniLM-L6-v2`) is not modelled, because loading the model happens in the constructor.
- Logging (every `logger` call) is left out. The `except ... raise` blocks are modelled as propagating the
  same exception.
- Embedding values and similarity scores are floating point. A number is a `real` token that is never
  computed with; only whether it is zero matters (for truthiness).
- numpy arrays are not a `Value`: any non-list `encode` result is simply "not a list". The truthiness rules
  for numpy arrays are not modelled, and `.tolist()` is the `toList` oracle.
- The randomness and uniqueness of `uuid4` are left out. Generated ids come from the `uuids` oracle, and
  lemmas that need distinct or non-empty ids assume it.
- Python's cross-type key equality (`1 == 1.0 == True` as dict keys) is not modelled: keys compare
  structurally. Only non-string keys can be affected, and no lookup in this core uses one.
- `Python.BuildDict`: the unhashable-key `TypeError` message leaves out the type name Python appends.
- `Chroma.EmptyDicts`: `[{}] * n` in Python is `n` references to one dict. The model has `n` equal
  values, so the aliasing is not captured.
- A query response is modelled as its list of matches. A response without a `matches` attribute, or a
  match without `id` and `score`, is not modelled.
- `search_similar` does not bound the number of results by `top_k`; only the backend does. The model
  passes `top_k` on unchanged and keeps the number of matches, so the bound holds whenever the backend
  keeps it.
- The Chroma read and search API used by `src/tests/test_chroma_real.py` (`upsert_documents`,
  `search_documents`, `count_documents`, ...) is not part of this model: those methods are not in
  `chroma_db.py`.
- `llm_translation.py`, `pdf_to_chroma.py`, `core.py` and the sandbox scripts are glue over external
  libraries, environment variables and file I/O, and are not modelled.
