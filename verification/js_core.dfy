/** The few JavaScript runtime notions the factories depend on: absent values,
    thrown exceptions, truthiness of strings and `substring(0, n)`. */
module JsCore {

  /** `undefined`/`null` (None) or a present value. */
  datatype Option<+T> = None | Some(value: T)

  /** A computation that completed with a value or threw. */
  datatype Result<+T, +E> = Success(value: T) | Failure(error: E)

  /** What the factories can throw. */
  datatype Exception =
    | Thrown(message: string)                // `throw <string>`
    | TypeErrorOnNull(property: string)      // reading `property` of null
    | TypeErrorOnUndefined(property: string) // reading `property` of undefined

  /** Truthiness of a string option: undefined, null and "" are falsy. */
  predicate Truthy(s: Option<string>) {
    s.Some? && s.value != ""
  }

  /** `s.substring(0, n)` (equally `s.substr(0, n)`) for a non-negative `n`. */
  function Take<T>(s: seq<T>, n: nat): (r: seq<T>)
    ensures |r| == if n < |s| then n else |s|
    ensures r == s[..|r|]
  {
    if n < |s| then s[..n] else s
  }

  predicate IsPrefix<T(==)>(p: seq<T>, s: seq<T>) {
    |p| <= |s| && s[..|p|] == p
  }

  lemma PrefixOfConcat<T>(a: seq<T>, b: seq<T>)
    ensures IsPrefix(a, a + b)
  {
    assert (a + b)[..|a|] == a;
  }

  lemma PrefixTransitive<T>(a: seq<T>, b: seq<T>, c: seq<T>)
    requires IsPrefix(a, b) && IsPrefix(b, c)
    ensures IsPrefix(a, c)
  {
    assert c[..|a|] == c[..|b|][..|a|];
  }

  predicate IsSuffix<T(==)>(p: seq<T>, s: seq<T>) {
    |p| <= |s| && s[|s| - |p|..] == p
  }

  lemma SuffixOfConcat<T>(a: seq<T>, b: seq<T>)
    ensures IsSuffix(b, a + b)
  {
    assert (a + b)[|a|..] == b;
  }

  /** The middle piece of a three-way concatenation is found at its own offsets. */
  lemma MiddleOfConcat<T>(a: seq<T>, b: seq<T>, c: seq<T>)
    ensures (a + b + c)[|a| .. |a| + |b|] == b
  {
    assert (a + b + c)[..|a| + |b|] == a + b;
  }

  /** Every draw lies in [0, bound): the range of `arrayElement` over a list of `bound` entries. */
  predicate AllBelow(draws: seq<nat>, bound: nat) {
    forall k :: 0 <= k < |draws| ==> draws[k] < bound
  }
}
