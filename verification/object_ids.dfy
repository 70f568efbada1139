/** Identifiers of the factory helper: `hexaDecimal`, `ObjectId` (generateSeededObjectId),
    `getInc` and `generateDeterministicSeed`, with every random symbol a parameter. */
module ObjectIds {
  import opened JsCore
  import opened JsText

  /** The 22 symbols `hexaDecimal` draws from, in the order of its list. */
  const HexSymbols: string := "0123456789abcdefABCDEF"

  predicate IsHexChar(c: char) {
    IsDigit(c) || 'a' <= c <= 'f' || 'A' <= c <= 'F'
  }

  predicate IsHexString(s: string) {
    forall i :: 0 <= i < |s| ==> IsHexChar(s[i])
  }

  predicate IsLowerHexString(s: string) {
    forall i :: 0 <= i < |s| ==> IsDigit(s[i]) || 'a' <= s[i] <= 'f'
  }

  /** The validity check `bsonObjectId.isValid` applies to a string: 24 hexadecimal characters. */
  predicate IsValidObjectId(s: string) {
    |s| == 24 && IsHexString(s)
  }

  /** The string `wholeString += HexSymbols[d]` builds over the draws `d`, in order. */
  function HexSymbolsOf(draws: seq<nat>): (r: string)
    requires AllBelow(draws, |HexSymbols|)
    ensures |r| == |draws|
    ensures forall k :: 0 <= k < |r| ==> r[k] == HexSymbols[draws[k]]
    ensures IsHexString(r)
  {
    if draws == [] then ""
    else HexSymbolsOf(draws[..|draws| - 1]) + [HexSymbols[draws[|draws| - 1]]]
  }

  /** Number of loop iterations of `for (i = 0; i < count; i++)`, count defaulting to 1. */
  function Iterations(count: Option<int>): nat {
    match count
    case None => 1
    case Some(n) => if 0 < n then n else 0
  }

  /** `hexaDecimal(count)`: one drawn symbol per iteration. */
  function HexaDecimal(count: Option<int>, draws: seq<nat>): (r: string)
    requires AllBelow(draws, |HexSymbols|)
    requires Iterations(count) <= |draws|
    ensures |r| == Iterations(count)
    ensures count.None? ==> |r| == 1
    ensures IsHexString(r)
  {
    HexSymbolsOf(draws[..Iterations(count)])
  }

  /** Lower-casing a hexadecimal string keeps it hexadecimal and makes it lower-case hex. */
  lemma LowerOfHex(s: string)
    requires IsHexString(s)
    ensures IsHexString(Lower(s)) && IsLowerHexString(Lower(s))
  {
  }

  function InvalidObjectIdMessage(oid: string): string {
    "Invalid attempt to generate an ObjectID: '" + oid + "'"
  }

  /** `generateSeededObjectId(value)`: with no value, 24 drawn symbols lower-cased;
      otherwise the value itself, which must pass the validity check or a message is thrown.
      `mongTypes.ObjectId` is the identity on the hexadecimal string. */
  function GenerateSeededObjectId(value: Option<string>, draws: seq<nat>): (r: Result<string, Exception>)
    requires value.None? ==> AllBelow(draws, |HexSymbols|) && 24 <= |draws|
    ensures value.None? ==> r.Success? && IsValidObjectId(r.value) && IsLowerHexString(r.value)
    ensures value.Some? ==> (r.Success? <==> IsValidObjectId(value.value))
    ensures value.Some? && r.Success? ==> r.value == value.value
    ensures value.Some? && r.Failure? ==> r.error == Thrown(InvalidObjectIdMessage(value.value))
  {
    var oid := if value.None? then Lower(HexaDecimal(Some(24), draws)) else value.value;
    assert value.None? ==> IsValidObjectId(oid) && IsLowerHexString(oid) by {
      if value.None? {
        LowerOfHex(HexaDecimal(Some(24), draws));
      }
    }
    if !IsValidObjectId(oid) then Failure(Thrown(InvalidObjectIdMessage(oid))) else Success(oid)
  }

  /** `ObjectId()`: a fresh identifier of 24 lower-case hexadecimal characters. */
  function FreshObjectId(draws: seq<nat>): (r: string)
    requires AllBelow(draws, |HexSymbols|) && 24 <= |draws|
    ensures IsValidObjectId(r) && IsLowerHexString(r)
  {
    GenerateSeededObjectId(None, draws).value
  }

  /** Adopting an identifier that was itself produced by `ObjectId` gives it back unchanged. */
  lemma AdoptProducedId(value: Option<string>, draws: seq<nat>)
    requires value.None? ==> AllBelow(draws, |HexSymbols|) && 24 <= |draws|
    requires GenerateSeededObjectId(value, draws).Success?
    ensures GenerateSeededObjectId(Some(GenerateSeededObjectId(value, draws).value), []) == GenerateSeededObjectId(value, draws)
  {
  }

  /** Adopting `"not-a-valid-hex-id"` throws; adopting a lower-case 24-digit id returns it. */
  lemma AdoptExamples()
    ensures GenerateSeededObjectId(Some("not-a-valid-hex-id"), []).Failure?
    ensures GenerateSeededObjectId(Some("a1b2c3d4e5f6a1b2c3d4e5f6"), []) == Success("a1b2c3d4e5f6a1b2c3d4e5f6")
  {
  }

  // ---------------------------------------------------------------------------
  // getInc and generateDeterministicSeed

  /** The modulus of `getInc`. */
  const IncModulus: int := 0xFFFFFF

  /** The initial (and, as written, only) value of the module-level `index`. */
  const InitialIndex: int := 1

  /** The characters `replace(/a|b|c|d|e|f/gi, "")` deletes. */
  const HexLetters: set<char> := {'a', 'b', 'c', 'd', 'e', 'f', 'A', 'B', 'C', 'D', 'E', 'F'}

  /** `Number(parentId.replace(/a|b|c|d|e|f/gi, "").substr(0, 5))`; None stands for NaN. */
  function ParentTerm(parentId: string): Option<nat> {
    Number(Take(Remove(parentId, HexLetters), 5))
  }

  /** For a hexadecimal parent id the parent-derived term is a number in [0, 99999]. */
  lemma ParentTermOfHex(parentId: string)
    requires IsHexString(parentId)
    ensures ParentTerm(parentId).Some?
    ensures ParentTerm(parentId).value <= 99999
  {
    var digits := Take(Remove(parentId, HexLetters), 5);
    RemoveHexLetters(parentId);
    DecimalValueBound(digits);
    assert Pow10(|digits|) <= Pow10(5) by {
      Pow10Monotone(|digits|, 5);
    }
  }

  lemma {:induction false} Pow10Monotone(j: nat, k: nat)
    requires j <= k
    ensures Pow10(j) <= Pow10(k)
    decreases k
  {
    if j < k {
      Pow10Monotone(j, k - 1);
    }
  }

  /** One call of `getInc` as written, with the module-level `index` explicit:
      the counter is read, `(index + 1) % 0xffffff` is returned, and `index` is never assigned. */
  datatype IncCall = IncCall(value: int, index: int)

  function GetIncAt(index: nat): (r: IncCall)
    ensures r.index == index
    ensures 0 <= r.value < IncModulus
  {
    IncCall((index + 1) % IncModulus, index)
  }

  /** The values `count` successive calls of `getInc` return, the counter threaded from `index`. */
  function IncSequence(index: nat, count: nat): (r: seq<int>)
    ensures |r| == count
  {
    if count == 0 then []
    else
      var call := GetIncAt(index);
      [call.value] + IncSequence(call.index, count - 1)
  }

  /** However many times `getInc` is called, every call returns what the first one did; from
      the module's initial counter that is 2. */
  lemma {:induction false} IncSequenceConstant(index: nat, count: nat)
    ensures forall j :: 0 <= j < count ==> IncSequence(index, count)[j] == GetIncAt(index).value
    ensures index == InitialIndex ==> forall j :: 0 <= j < count ==> IncSequence(index, count)[j] == 2
  {
    if count > 0 {
      IncSequenceConstant(index, count - 1);
    }
  }

  /** `getInc()`: since `index` stays 1, every call returns 2. */
  function GetInc(): (r: int)
    ensures r == 2
  {
    GetIncAt(InitialIndex).value
  }

  /** `generateDeterministicSeed(commonFactorySeed, parentId)`; None stands for NaN. */
  function DeterministicSeed(commonFactorySeed: int, parentId: string): (r: Option<int>)
    ensures r.Some? <==> ParentTerm(parentId).Some?
  {
    match ParentTerm(parentId)
    case None => None
    case Some(p) => Some(commonFactorySeed * 1000000 + p + GetInc())
  }

  /** For a hexadecimal parent the seed lies in [seed * 10^6 + 2, seed * 10^6 + 100001]. */
  lemma DeterministicSeedRange(commonFactorySeed: int, parentId: string)
    requires IsHexString(parentId)
    ensures DeterministicSeed(commonFactorySeed, parentId).Some?
    ensures commonFactorySeed * 1000000 + 2 <= DeterministicSeed(commonFactorySeed, parentId).value
    ensures DeterministicSeed(commonFactorySeed, parentId).value <= commonFactorySeed * 1000000 + 100001
  {
    ParentTermOfHex(parentId);
  }

  /** Seeds generated under different common factory seeds never collide, whatever the hex parents. */
  lemma DistinctFactorySeedsNeverCollide(seed1: int, parent1: string, seed2: int, parent2: string)
    requires IsHexString(parent1) && IsHexString(parent2)
    requires seed1 != seed2
    ensures DeterministicSeed(seed1, parent1) != DeterministicSeed(seed2, parent2)
  {
    DeterministicSeedRange(seed1, parent1);
    DeterministicSeedRange(seed2, parent2);
    if seed1 < seed2 {
      assert seed1 * 1000000 + 1000000 <= seed2 * 1000000;
    } else {
      assert seed2 * 1000000 + 1000000 <= seed1 * 1000000;
    }
  }

  /** One call of `generateDeterministicSeed` as written, the counter state explicit. */
  datatype SeedCall = SeedCall(seed: Option<int>, index: nat)

  function SeedCallAsWritten(index: nat, commonFactorySeed: int, parentId: string): (r: SeedCall)
    ensures r.index == index
    ensures r.seed.Some? <==> ParentTerm(parentId).Some?
    ensures IsHexString(parentId) ==>
              r.seed.Some? &&
              commonFactorySeed * 1000000 <= r.seed.value - GetIncAt(index).value <= commonFactorySeed * 1000000 + 99999
  {
    assert IsHexString(parentId) ==> ParentTerm(parentId).Some? && ParentTerm(parentId).value <= 99999 by {
      if IsHexString(parentId) {
        ParentTermOfHex(parentId);
      }
    }
    var inc := GetIncAt(index);
    match ParentTerm(parentId)
    case None => SeedCall(None, inc.index)
    case Some(p) => SeedCall(Some(commonFactorySeed * 1000000 + p + inc.value), inc.index)
  }

  /** From the module's initial counter, the explicit-state call computes `generateDeterministicSeed`. */
  lemma SeedCallAsWrittenIsDeterministicSeed(commonFactorySeed: int, parentId: string)
    ensures SeedCallAsWritten(InitialIndex, commonFactorySeed, parentId).seed == DeterministicSeed(commonFactorySeed, parentId)
  {
  }

  /** As written, the second of two successive calls with the same arguments returns the same
      seed as the first: the counter never advances, so the seeds collide. */
  lemma SeedRepeatsAsWritten(index: nat, commonFactorySeed: int, parentId: string)
    ensures var first := SeedCallAsWritten(index, commonFactorySeed, parentId);
            SeedCallAsWritten(first.index, commonFactorySeed, parentId).seed == first.seed
  {
  }

  /** The repository's own state: both calls from `index == 1` yield 1050002 for this parent. */
  lemma SeedRepeatsExample()
    ensures SeedCallAsWritten(InitialIndex, 1, ExampleParent).seed == Some(1050002)
    ensures SeedCallAsWritten(SeedCallAsWritten(InitialIndex, 1, ExampleParent).index,
                              1, ExampleParent).seed == Some(1050002)
  {
    ExampleParentTerm();
  }

  const ExampleParent: string := "5f0000000000000000000001"

  lemma ExampleParentTerm()
    ensures ParentTerm(ExampleParent) == Some(50000)
  {
    var rest := ExampleParent[2..];
    assert ExampleParent == "5f" + rest;
    assert rest == "0000000000000000000001";
    assert rest[..4] == "0000";
    assert AllDigits(rest) by {
      forall i | 0 <= i < |rest|
        ensures IsDigit(rest[i])
      {
        assert rest[i] == '0' || rest[i] == '1';
      }
    }
    ParentTermAfter5f(rest);
  }

  lemma ParentTermAfter5f(rest: string)
    requires AllDigits(rest) && 4 <= |rest| && rest[..4] == "0000"
    ensures ParentTerm("5f" + rest) == Some(50000)
  {
    StripAfter5f(rest);
    TakeFiveAfter5(rest);
    NumberOf50000();
  }

  lemma StripAfter5f(rest: string)
    requires AllDigits(rest)
    ensures Remove("5f" + rest, HexLetters) == "5" + rest
  {
    RemoveKeepsDigits(rest);
    RemoveConcat("5f", rest, HexLetters);
    assert Remove("5f", HexLetters) == "5" by {
      assert "5f"[1..] == "f";
      assert "f"[1..] == "";
    }
  }

  lemma TakeFiveAfter5(rest: string)
    requires 4 <= |rest| && rest[..4] == "0000"
    ensures Take("5" + rest, 5) == "50000"
  {
    var stripped := "5" + rest;
    assert rest[0] == '0' && rest[1] == '0' && rest[2] == '0' && rest[3] == '0' by {
      assert rest[..4][0] == rest[0] && rest[..4][3] == rest[3];
      assert rest[..4][1] == rest[1] && rest[..4][2] == rest[2];
    }
    assert stripped[..5] == "50000";
  }

  lemma NumberOf50000()
    ensures Number("50000") == Some(50000)
  {
    assert AllDigits("50000");
    assert "50000"[..4] == "5000";
    assert "5000"[..3] == "500";
    assert "500"[..2] == "50";
    assert "50"[..1] == "5";
    assert "5"[..0] == "";
  }

  /** Stripping the hex letters from a hexadecimal string leaves only digits. */
  lemma {:induction false} RemoveHexLetters(s: string)
    requires IsHexString(s)
    ensures AllDigits(Remove(s, HexLetters))
  {
    if s != [] {
      RemoveHexLetters(s[1..]);
    }
  }

  /** Stripping hex letters leaves a string of digits as it is. */
  lemma RemoveKeepsDigits(s: string)
    requires AllDigits(s)
    ensures Remove(s, HexLetters) == s
  {
  }

  /** The counter `getInc` evidently intends: `index` advances modulo 0xffffff and the new value is returned. */
  function NextInc(index: nat): (r: IncCall)
    requires index < IncModulus
    ensures 0 <= r.index < IncModulus && r.value == r.index
    ensures r.index == if index + 1 < IncModulus then index + 1 else 0
  {
    var next := (index + 1) % IncModulus;
    IncCall(next, next)
  }

  /** `generateDeterministicSeed` over the advancing counter. */
  function SeedCallCounted(index: nat, commonFactorySeed: int, parentId: string): (r: SeedCall)
    requires index < IncModulus
    ensures r.index < IncModulus
    ensures r.seed.Some? <==> ParentTerm(parentId).Some?
  {
    var inc := NextInc(index);
    match ParentTerm(parentId)
    case None => SeedCall(None, inc.index)
    case Some(p) => SeedCall(Some(commonFactorySeed * 1000000 + p + inc.value), inc.index)
  }

  /** With the advancing counter, two successive calls for the same seed and hex parent differ. */
  lemma ConsecutiveCountedSeedsDiffer(index: nat, commonFactorySeed: int, parentId: string)
    requires index < IncModulus
    requires IsHexString(parentId)
    ensures var first := SeedCallCounted(index, commonFactorySeed, parentId);
            var second := SeedCallCounted(first.index, commonFactorySeed, parentId);
            first.seed.Some? && second.seed.Some? && first.seed != second.seed
  {
    ParentTermOfHex(parentId);
    var first := SeedCallCounted(index, commonFactorySeed, parentId);
    var second := SeedCallCounted(first.index, commonFactorySeed, parentId);
    assert NextInc(first.index).value != NextInc(index).value;
  }
}
