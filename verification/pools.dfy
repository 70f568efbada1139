/** The reference pool: list entries of several types, filtering by type and the two
    pool lookups of the factory helper (`getRandomExistingMongoId`,
    `getRandomExistingListElementName`), the `arrayElement` draw being a parameter. */
module Pools {
  import opened JsCore
  import opened JsText
  import opened ObjectIds

  /** One entry of a lists pool: its `type`, `_id` and `name`. */
  datatype ListEntry = ListEntry(kind: string, id: string, name: string)

  const DoctypeKind: string := "doctype"
  const AuthorKind: string := "author"
  const LabelKind: string := "label"
  const ProjectPhaseKind: string := "projectPhase"

  /** `b` contains the elements of `a` in the same relative order. */
  ghost predicate Subsequence(a: seq<ListEntry>, b: seq<ListEntry>)
    decreases |b|
  {
    if a == [] then true
    else if b == [] then false
    else if a[0] == b[0] then Subsequence(a[1..], b[1..])
    else Subsequence(a, b[1..])
  }

  /** `pool.filter(listEntry => kind === listEntry.type)`. */
  function FilterByType(pool: seq<ListEntry>, kind: string): (r: seq<ListEntry>)
    ensures forall k :: 0 <= k < |r| ==> r[k].kind == kind
    ensures forall k :: 0 <= k < |pool| && pool[k].kind == kind ==> pool[k] in r
    ensures forall e :: e in r ==> e in pool
    ensures Subsequence(r, pool)
    ensures forall e :: multiset(r)[e] == if e.kind == kind then multiset(pool)[e] else 0
    ensures |r| <= |pool|
  {
    if pool == [] then []
    else
      assert pool == [pool[0]] + pool[1..];
      assert multiset(pool) == multiset([pool[0]]) + multiset(pool[1..]);
      if pool[0].kind == kind then [pool[0]] + FilterByType(pool[1..], kind)
      else FilterByType(pool[1..], kind)
  }

  /** A pool made only of entries of one type is kept whole by the filter for that type. */
  lemma {:induction false} FilterKeepsHomogeneousPool(pool: seq<ListEntry>, kind: string)
    requires forall k :: 0 <= k < |pool| ==> pool[k].kind == kind
    ensures FilterByType(pool, kind) == pool
  {
    if pool != [] {
      FilterKeepsHomogeneousPool(pool[1..], kind);
    }
  }

  /** A pool without entries of a type filters to nothing for that type. */
  lemma {:induction false} FilterWithoutKind(pool: seq<ListEntry>, kind: string)
    requires forall k :: 0 <= k < |pool| ==> pool[k].kind != kind
    ensures FilterByType(pool, kind) == []
  {
    if pool != [] {
      FilterWithoutKind(pool[1..], kind);
    }
  }

  /** Filtering twice by the same type changes nothing. */
  lemma FilterIdempotent(pool: seq<ListEntry>, kind: string)
    ensures FilterByType(FilterByType(pool, kind), kind) == FilterByType(pool, kind)
  {
    FilterKeepsHomogeneousPool(FilterByType(pool, kind), kind);
  }

  /** The identifiers of the pool entries of one type. */
  ghost function IdsOfKind(pool: seq<ListEntry>, kind: string): set<string> {
    set e | e in pool && e.kind == kind :: e.id
  }

  /** `arrayElement(pool)` draws an index of the pool when it has entries. */
  predicate PickFits(pool: seq<ListEntry>, pick: nat) {
    |pool| > 0 ==> pick < |pool|
  }

  /** `getRandomExistingMongoId(pool)`. The guard tests truthiness only: an absent pool
      yields a fresh id, while an empty array passes the guard, `arrayElement` returns
      undefined and reading its `_id` throws. A drawn entry's id is adopted, and thrown
      on if it is not a valid id. */
  function GetRandomExistingMongoId(pool: Option<seq<ListEntry>>, pick: nat, freshDraws: seq<nat>): (r: Result<string, Exception>)
    requires pool.Some? ==> PickFits(pool.value, pick)
    requires pool.None? ==> AllBelow(freshDraws, |HexSymbols|) && 24 <= |freshDraws|
    ensures pool.None? ==> r.Success? && IsValidObjectId(r.value) && IsLowerHexString(r.value)
    ensures pool == Some([]) ==> r == Failure(TypeErrorOnUndefined("_id"))
    ensures pool.Some? && pool.value != [] ==>
              (r.Success? <==> IsValidObjectId(pool.value[pick].id)) &&
              (r.Success? ==> r.value == pool.value[pick].id)
  {
    match pool
    case None => GenerateSeededObjectId(None, freshDraws)
    case Some(entries) =>
      if entries == [] then Failure(TypeErrorOnUndefined("_id"))
      else GenerateSeededObjectId(Some(entries[pick].id), [])
  }

  /** `getRandomExistingListElementName(pool)`: "" for an absent pool, the name of the
      drawn entry otherwise, and a throw for an empty array. */
  function GetRandomExistingListElementName(pool: Option<seq<ListEntry>>, pick: nat): (r: Result<string, Exception>)
    requires pool.Some? ==> PickFits(pool.value, pick)
    ensures pool.None? ==> r == Success("")
    ensures pool == Some([]) ==> r == Failure(TypeErrorOnUndefined("name"))
    ensures pool.Some? && pool.value != [] ==> r == Success(pool.value[pick].name)
  {
    match pool
    case None => Success("")
    case Some(entries) =>
      if entries == [] then Failure(TypeErrorOnUndefined("name")) else Success(entries[pick].name)
  }

  /** `ObjectId(getRandomExistingMongoId(entries))` on an array of entries (as the document
      factory calls it): it succeeds exactly when the array has entries and the drawn one has
      a valid id, and the id then belongs to an entry of the array. */
  function ResolveReference(entries: seq<ListEntry>, pick: nat): (r: Result<string, Exception>)
    requires PickFits(entries, pick)
    ensures r.Success? <==> entries != [] && IsValidObjectId(entries[pick].id)
    ensures entries == [] ==> r == Failure(TypeErrorOnUndefined("_id"))
    ensures r.Success? ==> IsValidObjectId(r.value) && r.value == entries[pick].id
    ensures r.Success? ==> exists k :: 0 <= k < |entries| && entries[k].id == r.value
  {
    match GetRandomExistingMongoId(Some(entries), pick, [])
    case Failure(e) => Failure(e)
    case Success(id) => GenerateSeededObjectId(Some(id), [])
  }

  /** A reference resolved in the entries of one type names an entry of that type in the pool. */
  lemma ResolvedReferenceInPool(pool: seq<ListEntry>, kind: string, pick: nat)
    requires PickFits(FilterByType(pool, kind), pick)
    requires ResolveReference(FilterByType(pool, kind), pick).Success?
    ensures ResolveReference(FilterByType(pool, kind), pick).value in IdsOfKind(pool, kind)
  {
  }
}
