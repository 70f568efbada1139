/** String operations of the JavaScript runtime, restricted to what the factories use:
    `toLowerCase` on ASCII letters, integer-to-decimal conversion, `Number(...)` of a
    string of digits, and `replace(/[set]/g, "")`. */
module JsText {
  import opened JsCore

  predicate IsUpper(c: char) {
    'A' <= c <= 'Z'
  }

  function LowerChar(c: char): char {
    if IsUpper(c) then (c as int + 32) as char else c
  }

  /** `s.toLowerCase()` (and `toLocaleLowerCase`) on ASCII letters. */
  function Lower(s: string): (r: string)
    ensures |r| == |s|
    ensures forall i :: 0 <= i < |s| ==> r[i] == LowerChar(s[i])
  {
    seq(|s|, i requires 0 <= i < |s| => LowerChar(s[i]))
  }

  /** No upper-case ASCII letter occurs in `s`. */
  predicate IsLowerCase(s: string) {
    forall i :: 0 <= i < |s| ==> !IsUpper(s[i])
  }

  lemma LowerIsLowerCase(s: string)
    ensures IsLowerCase(Lower(s))
    ensures IsLowerCase(s) ==> Lower(s) == s
  {
  }

  predicate IsDigit(c: char) {
    '0' <= c <= '9'
  }

  predicate AllDigits(s: string) {
    forall i :: 0 <= i < |s| ==> IsDigit(s[i])
  }

  function DigitChar(d: nat): (c: char)
    requires d < 10
    ensures IsDigit(c)
  {
    ('0' as int + d) as char
  }

  function DigitValue(c: char): (d: nat)
    requires IsDigit(c)
    ensures d < 10
  {
    c as int - '0' as int
  }

  function Pow10(k: nat): (p: nat)
    ensures p >= 1
  {
    if k == 0 then 1 else 10 * Pow10(k - 1)
  }

  /** `String(n)` for a non-negative integer: its decimal digits, without leading zeros. */
  function NatToDecimal(n: nat): (r: string)
    ensures 0 < |r|
    ensures AllDigits(r)
    ensures 0 < n ==> r[0] != '0'
    decreases n
  {
    if n < 10 then [DigitChar(n)] else NatToDecimal(n / 10) + [DigitChar(n % 10)]
  }

  /** The value of a string of decimal digits, the empty string being 0. */
  function DecimalValue(s: string): nat
    requires AllDigits(s)
  {
    if s == [] then 0 else DecimalValue(s[..|s| - 1]) * 10 + DigitValue(s[|s| - 1])
  }

  /** `Number(s)` where `s` is a string of ASCII digits (possibly empty, which is 0);
      None stands for NaN, the value of every other string in this model. */
  function Number(s: string): (r: Option<nat>)
    ensures r.Some? <==> AllDigits(s)
  {
    if AllDigits(s) then Some(DecimalValue(s)) else None
  }

  /** A string of k digits denotes a value below 10^k. */
  lemma {:induction false} DecimalValueBound(s: string)
    requires AllDigits(s)
    ensures DecimalValue(s) < Pow10(|s|)
  {
    if s != [] {
      DecimalValueBound(s[..|s| - 1]);
    }
  }

  /** Reading back the decimal form of a natural number yields that number. */
  lemma {:induction false} NumberOfDecimal(n: nat)
    ensures Number(NatToDecimal(n)) == Some(n)
    decreases n
  {
    var r := NatToDecimal(n);
    if n < 10 {
      assert r[..|r| - 1] == [];
      assert DigitValue(r[0]) == n;
      assert DecimalValue(r) == DecimalValue([]) * 10 + n;
    } else {
      NumberOfDecimal(n / 10);
      assert r[..|r| - 1] == NatToDecimal(n / 10);
      assert DigitValue(r[|r| - 1]) == n % 10;
    }
  }

  /** `s.replace(/[drop]/g, "")`: `s` with every character of `drop` removed, order kept. */
  function Remove(s: string, drop: set<char>): (r: string)
    ensures |r| <= |s|
    ensures forall i :: 0 <= i < |r| ==> r[i] !in drop
    ensures (forall i :: 0 <= i < |s| ==> s[i] !in drop) ==> r == s
  {
    if s == [] then []
    else (if s[0] in drop then [] else [s[0]]) + Remove(s[1..], drop)
  }

  /** Removal acts character by character: a single character is dropped exactly when it is in
      `drop` and kept otherwise. With `RemoveConcat` this determines the result completely. */
  lemma RemoveChar(c: char, drop: set<char>)
    ensures Remove([c], drop) == if c in drop then [] else [c]
  {
    assert [c][1..] == [];
  }

  /** Removal distributes over concatenation, so the kept characters stay in their order. */
  lemma {:induction false} RemoveConcat(a: string, b: string, drop: set<char>)
    ensures Remove(a + b, drop) == Remove(a, drop) + Remove(b, drop)
    decreases |a|
  {
    if a != [] {
      assert (a + b)[1..] == a[1..] + b;
      RemoveConcat(a[1..], b, drop);
    } else {
      assert a + b == b;
    }
  }

  /** Every character outside `drop` occurs as often in the result as in `s`; none of `drop` occurs. */
  lemma {:induction false} RemoveCounts(s: string, drop: set<char>)
    ensures forall c :: multiset(Remove(s, drop))[c] == if c in drop then 0 else multiset(s)[c]
  {
    if s != [] {
      RemoveCounts(s[1..], drop);
      assert s == [s[0]] + s[1..];
      assert multiset(s) == multiset([s[0]]) + multiset(s[1..]);
      var head: string := if s[0] in drop then [] else [s[0]];
      assert Remove(s, drop) == head + Remove(s[1..], drop);
      assert multiset(Remove(s, drop)) == multiset(head) + multiset(Remove(s[1..], drop));
    }
  }
}
