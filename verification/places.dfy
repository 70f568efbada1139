/** Small string utilities of the factory helper: `endsWithPathSep`,
    `generateFakeLocationString` and `generateFakePostal`, with faker draws as parameters. */
module Places {
  import opened JsCore
  import opened JsText

  // ---------------------------------------------------------------------------
  // endsWithPathSep

  predicate EndsWith(s: string, c: char) {
    0 < |s| && s[|s| - 1] == c
  }

  /** `endsWithPathSep(pathToCheck)` with `path.sep` the one-character separator `sep`. */
  function EndsWithPathSep(pathToCheck: string, sep: char): (r: string)
    ensures EndsWith(r, sep)
    ensures EndsWith(pathToCheck, sep) ==> r == pathToCheck
    ensures !EndsWith(pathToCheck, sep) ==> r == pathToCheck + [sep]
  {
    if 0 < |pathToCheck| && sep == pathToCheck[|pathToCheck| - 1] then pathToCheck else pathToCheck + [sep]
  }

  /** Applying `endsWithPathSep` to its own result changes nothing. */
  lemma EndsWithPathSepIdempotent(pathToCheck: string, sep: char)
    ensures EndsWithPathSep(EndsWithPathSep(pathToCheck, sep), sep) == EndsWithPathSep(pathToCheck, sep)
  {
  }

  // ---------------------------------------------------------------------------
  // generateFakeLocationString

  const NsAxes: seq<string> := ["", "N", "S"]
  const EwAxes: seq<string> := ["", "E", "W"]
  const Fillers: seq<string> := ["N", "S", "E", "W"]

  /** The eight compass directions the location string can carry. */
  const Directions: set<string> := {"N", "S", "E", "W", "N E", "N W", "S E", "S W"}

  /** `nsAxis + spacer + ewAxis + filler`: a space only between two axes, and a filler
      direction only when both axes were drawn empty. */
  function Direction(ns: nat, ew: nat, filler: nat): (r: string)
    requires ns < |NsAxes| && ew < |EwAxes| && filler < |Fillers|
    ensures r in Directions
    ensures (ns == 0) != (ew == 0) ==> r == NsAxes[ns] + EwAxes[ew]
    ensures ns == 0 && ew == 0 ==> r == Fillers[filler]
    ensures ns != 0 && ew != 0 ==> r == NsAxes[ns] + " " + EwAxes[ew]
  {
    var nsAxis := NsAxes[ns];
    var ewAxis := EwAxes[ew];
    var spacer := if 0 == |nsAxis| || 0 == |ewAxis| then "" else " ";
    var fill := if 0 == |nsAxis| && 0 == |ewAxis| then Fillers[filler] else "";
    assert nsAxis + spacer + ewAxis + fill in Directions by {
      if ns == 0 || ew == 0 {
        assert spacer == "";
        if ns == 0 && ew == 0 {
          assert nsAxis + spacer + ewAxis + fill == fill;
          assert filler == 0 || filler == 1 || filler == 2 || filler == 3;
        } else if ns == 0 {
          assert nsAxis + spacer + ewAxis + fill == ewAxis;
          assert ew == 1 || ew == 2;
        } else {
          assert nsAxis + spacer + ewAxis + fill == nsAxis;
          assert ns == 1 || ns == 2;
        }
      } else {
        assert fill == "";
        assert "N" + " " + "E" == "N E" && "N" + " " + "W" == "N W";
        assert "S" + " " + "E" == "S E" && "S" + " " + "W" == "S W";
        assert nsAxis + spacer + ewAxis + fill == nsAxis + " " + ewAxis;
        assert ns == 1 || ns == 2;
        assert ew == 1 || ew == 2;
      }
    }
    nsAxis + spacer + ewAxis + fill
  }

  /** `faker.random.number(200) + "km " + direction + " of " + city`; the city comes from a
      dataset outside this model and is a parameter. */
  function FakeLocationString(km: nat, ns: nat, ew: nat, filler: nat, city: string): (r: string)
    requires km <= 200
    requires ns < |NsAxes| && ew < |EwAxes| && filler < |Fillers|
    ensures var digits := NatToDecimal(km);
            && IsPrefix(digits + "km ", r)
            && Number(digits) == Some(km)
            && IsSuffix(" of " + city, r)
            && |digits| + 3 <= |r| - |city| - 4
            && r[|digits| + 3 .. |r| - |city| - 4] in Directions
  {
    var digits := NatToDecimal(km);
    var dir := Direction(ns, ew, filler);
    NumberOfDecimal(km);
    var head := digits + "km ";
    var tail := " of " + city;
    var r := head + dir + tail;
    PrefixOfConcat(head, dir);
    PrefixOfConcat(head + dir, tail);
    PrefixTransitive(head, head + dir, r);
    SuffixOfConcat(head + dir, tail);
    MiddleOfConcat(head, dir, tail);
    r
  }

  // ---------------------------------------------------------------------------
  // generateFakePostal

  /** The letters a Canadian postal code may start with, in the helper's order. */
  const PostalDistricts: string := "XVTSRPNKLMHJGECBA"
  const Alphabet: string := "ABCDEFGHIJKLMNOPQRSTUVWXYZ"

  function CountOf(s: string, c: char): nat {
    if s == [] then 0 else (if s[0] == c then 1 else 0) + CountOf(s[1..], c)
  }

  /** `faker.helpers.replaceSymbolWithNumber(template)` for a template without `!`:
      each `#` becomes the next drawn digit, every other character is kept. */
  function ReplaceSymbolWithNumber(template: string, digits: seq<nat>): (r: string)
    requires AllBelow(digits, 10)
    requires CountOf(template, '#') <= |digits|
    ensures |r| == |template|
    ensures forall i :: 0 <= i < |template| && template[i] != '#' ==> r[i] == template[i]
    ensures forall i :: 0 <= i < |template| && template[i] == '#' ==> IsDigit(r[i])
  {
    if template == [] then ""
    else if template[0] == '#' then [DigitChar(digits[0])] + ReplaceSymbolWithNumber(template[1..], digits[1..])
    else [template[0]] + ReplaceSymbolWithNumber(template[1..], digits)
  }

  /** A postal code of the layout letter-digit-letter space digit-letter-digit, its first
      letter one of the postal districts. */
  predicate IsPostalLayout(s: string) {
    && |s| == 7
    && s[0] in PostalDistricts && IsDigit(s[1]) && IsUpper(s[2])
    && s[3] == ' '
    && IsDigit(s[4]) && IsUpper(s[5]) && IsDigit(s[6])
  }

  /** `generateFakePostal()`. */
  function FakePostal(district: nat, fsaLetter: nat, lduLetter: nat, digits: seq<nat>): (r: string)
    requires district < |PostalDistricts| && fsaLetter < |Alphabet| && lduLetter < |Alphabet|
    requires AllBelow(digits, 10) && 3 <= |digits|
    ensures IsPostalLayout(r)
    ensures r[0] == PostalDistricts[district] && r[2] == Alphabet[fsaLetter] && r[5] == Alphabet[lduLetter]
  {
    var forwardSortationArea := [PostalDistricts[district]] + "#" + [Alphabet[fsaLetter]];
    var localDeliveryUnit := "#" + [Alphabet[lduLetter]] + "#";
    var template := forwardSortationArea + " " + localDeliveryUnit;
    assert template == [PostalDistricts[district], '#', Alphabet[fsaLetter], ' ', '#', Alphabet[lduLetter], '#'];
    assert forall k :: 0 <= k < |PostalDistricts| ==> PostalDistricts[k] != '#';
    assert forall k :: 0 <= k < |Alphabet| ==> IsUpper(Alphabet[k]);
    assert CountOf(template, '#') == 3 by {
      PostalTemplateCount(PostalDistricts[district], Alphabet[fsaLetter], Alphabet[lduLetter]);
    }
    ReplaceSymbolWithNumber(template, digits)
  }

  lemma PostalTemplateCount(a: char, b: char, c: char)
    requires a != '#' && b != '#' && c != '#'
    ensures CountOf([a, '#', b, ' ', '#', c, '#'], '#') == 3
  {
    var t := [a, '#', b, ' ', '#', c, '#'];
    assert CountOf(t[6..], '#') == 1 by { assert t[6..][1..] == []; }
    assert CountOf(t[5..], '#') == 1 by { assert t[5..][1..] == t[6..]; }
    assert CountOf(t[4..], '#') == 2 by { assert t[4..][1..] == t[5..]; }
    assert CountOf(t[3..], '#') == 2 by { assert t[3..][1..] == t[4..]; }
    assert CountOf(t[2..], '#') == 2 by { assert t[2..][1..] == t[3..]; }
    assert CountOf(t[1..], '#') == 3 by { assert t[1..][1..] == t[2..]; }
  }
}
