/** What both `embed_and_upsert` methods use: the sentence-embedding
    model, identifier generation, and the id and metadata-list checks.
    Each adapter carries its own copy of the last two; they are defined
    once here because the copies agree up to the noun in one message. */
module Operations {
  import opened Python

  /** The embedding model, a collaborator: `encode` is what the model
      answers (or raises) for a given input, and `calls` records every
      input it was asked to encode. */
  class SentenceModel {
    ghost var calls: seq<Value>
    const encode: Value -> Outcome<Value>

    constructor (encode: Value -> Outcome<Value>)
      ensures this.encode == encode && calls == []
    {
      this.encode := encode;
      calls := [];
    }

    method Encode(input: Value) returns (r: Outcome<Value>)
      modifies this
      ensures calls == old(calls) + [input]
      ensures r == encode(input)
    {
      calls := calls + [input];
      r := encode(input);
    }
  }

  /** `[str(uuid.uuid4()) for _ in xs]` for a list of length `n`:
      `uuids(k)` is the string the k-th call of `uuid4` produced. */
  function GeneratedIds(n: nat, uuids: nat -> string): (r: seq<Value>)
    ensures |r| == n
    ensures forall k :: 0 <= k < n ==> r[k].VStr? && r[k].s == uuids(k)
  {
    if n == 0 then [] else GeneratedIds(n - 1, uuids) + [VStr(uuids(n - 1))]
  }

  /** Every generated id is a string, and all of them are truthy when the
      generator never produces the empty string (a UUID never does). */
  lemma GeneratedIdsValid(n: nat, uuids: nat -> string)
    requires forall k :: 0 <= k < n ==> uuids(k) != ""
    ensures IdsValid(VList(GeneratedIds(n, uuids)))
  {
    var ids := GeneratedIds(n, uuids);
    forall k | 0 <= k < n ensures Truthy(ids[k]) {
      assert ids[k].s == uuids(k);
    }
  }

  /** The ids `embed_and_upsert` works with: the caller's when given
      (`ids is not None`), else one generated id per input. */
  function ChosenIds(ids: Value, n: nat, uuids: nat -> string): (r: Value)
    ensures !ids.VNone? ==> r == ids
    ensures ids.VNone? ==>
      r.VList? && |r.items| == n && forall k :: 0 <= k < n ==> r.items[k] == VStr(uuids(k))
  {
    if ids.VNone? then VList(GeneratedIds(n, uuids)) else ids
  }

  const IdsError: Exception := ValueError("ids should be a list of strings")

  /** `isinstance(ids, list) and all(ids)`: only truthiness of the ids is
      checked, not that they are strings or that there are enough; so the
      empty list passes, and `None` or `""` as an id does not. */
  predicate IdsValid(ids: Value)
    ensures !ids.VList? ==> !IdsValid(ids)
    ensures ids == VList([]) ==> IdsValid(ids)
    ensures IdsValid(ids) ==> forall k :: 0 <= k < |ids.items| ==> ids.items[k] != VNone && ids.items[k] != VStr("")
  {
    ids.VList? && AllTruthy(ids.items)
  }

  /** The metadata check of `embed_and_upsert`: `None` passes, otherwise a
      list of exactly `n` dicts is required; `noun` names the input list in
      the message. */
  function MetadataListError(metadata: Value, n: nat, noun: string): (r: Option<Exception>)
    ensures r.None? <==>
      metadata.VNone? ||
      (metadata.VList? && |metadata.items| == n &&
       forall k :: 0 <= k < |metadata.items| ==> metadata.items[k].VDict?)
    ensures !metadata.VNone? && !(metadata.VList? && |metadata.items| == n) ==>
      r == Some(ValueError("metadata should be a list of dictionaries with the same length as " + noun))
    ensures metadata.VList? && |metadata.items| == n && r.Some? ==>
      r == Some(ValueError("each metadata item should be a dictionary"))
  {
    if metadata.VNone? then None
    else if !metadata.VList? || |metadata.items| != n then
      Some(ValueError("metadata should be a list of dictionaries with the same length as " + noun))
    else if exists k :: 0 <= k < |metadata.items| && !metadata.items[k].VDict? then
      Some(ValueError("each metadata item should be a dictionary"))
    else None
  }
}
