/** Person synthesis of the factory helper: `generateFakePerson` and
    `generateEpicFormatPhoneNumber`, with the faker draws as parameters. */
module Persons {
  import opened JsCore
  import opened JsText

  /** `idirMaxAllowedChars`. */
  const IdirMaxAllowedChars: nat := 8

  /** The stored prefix of an IDIR login: the characters `idir\\`. */
  const IdirPrefix: string := "idir\\\\"

  /** The British Columbia area codes a phone number is given. */
  const AreaCodes: seq<string> := ["604", "250", "778", "236", "672"]

  /** The characters `.` in a regular expression does not match. */
  const LineTerminators: set<char> := {'\n', '\r', '\U{2028}', '\U{2029}'}

  const Parentheses: set<char> := {'(', ')'}

  /** A phone number as faker formats it and the drawn area-code index. */
  datatype PhoneDraw = PhoneDraw(formatted: string, areaCode: nat)

  /** The draws `generateFakePerson` makes, each used only when its field is not supplied. */
  datatype PersonDraws = PersonDraws(
    firstName: string,
    middleChoice: nat,       // arrayElement(["", firstName()])
    middleFirstName: string,
    lastName: string,
    initialChoice: nat,      // arrayElement(["", middle.charAt(0) + ". "])
    emailDot: bool,
    sampleEmail: string,     // faker.internet.email()
    phone: PhoneDraw,
    fax: PhoneDraw,
    cell: PhoneDraw)
  {
    predicate Valid() {
      && middleChoice < 2 && initialChoice < 2
      && phone.areaCode < |AreaCodes| && fax.areaCode < |AreaCodes| && cell.areaCode < |AreaCodes|
    }
  }

  datatype Person = Person(
    firstName: string,
    middleName: string,
    lastName: string,
    fullName: string,
    emailAddress: string,
    idir: string,
    phoneNumber: string,
    faxNumber: string,
    cellPhoneNumber: string)

  /** `s.charAt(0)`. */
  function FirstChar(s: string): (r: string)
    ensures |r| == if s == "" then 0 else 1
  {
    if s == "" then "" else [s[0]]
  }

  /** `s` is an IDIR login derived from `first` and `last`: the prefix, then at most eight
      lower-case characters that begin the lower-cased initial-plus-surname. */
  predicate IsIdirOf(s: string, first: string, last: string) {
    var source := Lower(FirstChar(first) + last);
    && IsPrefix(IdirPrefix, s)
    && var handle := s[|IdirPrefix|..];
       && |handle| <= IdirMaxAllowedChars
       && IsLowerCase(handle)
       && IsPrefix(handle, source)
       && (|handle| == IdirMaxAllowedChars || handle == source)
  }

  /** `"idir\\\\" + ((first.charAt(0) + last).toLowerCase()).substring(0, 8)`. */
  function Idir(first: string, last: string): (r: string)
    ensures IsIdirOf(r, first, last)
  {
    var handle := Take(Lower(FirstChar(first) + last), IdirMaxAllowedChars);
    LowerIsLowerCase(FirstChar(first) + last);
    assert (IdirPrefix + handle)[|IdirPrefix|..] == handle;
    IdirPrefix + handle
  }

  /** The login depends only on the first eight characters of the lower-cased initial and surname,
      so distinct people can share one. */
  lemma IdirDependsOnFirstEight(first1: string, last1: string, first2: string, last2: string)
    requires Take(Lower(FirstChar(first1) + last1), 8) == Take(Lower(FirstChar(first2) + last2), 8)
    ensures Idir(first1, last1) == Idir(first2, last2)
  {
  }

  /** `s` is a full name of the person: first name, a space and the surname, with the middle
      initial and ". " between them allowed only when there is a middle name. */
  predicate IsFullNameOf(s: string, first: string, middle: string, last: string) {
    || s == first + " " + last
    || (middle != "" && s == first + " " + [middle[0]] + ". " + last)
  }

  /** `first + " " + (("" == middle) ? "" : arrayElement(["", middle.charAt(0) + ". "])) + last`. */
  function FullName(first: string, middle: string, last: string, initialChoice: nat): (r: string)
    requires initialChoice < 2
    ensures IsFullNameOf(r, first, middle, last)
    ensures middle == "" ==> r == first + " " + last
    ensures IsPrefix(first + " ", r) && IsSuffix(last, r)
  {
    var inserted := if "" == middle then "" else ["", [middle[0]] + ". "][initialChoice];
    first + " " + inserted + last
  }

  /** `email.split("@").pop()`: the text after the last `@`, or all of it when there is none. */
  function AfterLastAt(email: string): (r: string)
    ensures '@' !in r
    ensures IsSuffix(r, email)
    ensures r == email || email[|email| - |r| - 1] == '@'
  {
    if email == [] then ""
    else if email[|email| - 1] == '@' then ""
    else AfterLastAt(email[..|email| - 1]) + [email[|email| - 1]]
  }

  /** The local part of the address: lower-cased first name, an optional dot, lower-cased surname. */
  function LocalPart(first: string, last: string, dot: bool): string {
    Lower(first) + (if dot then "." else "") + Lower(last)
  }

  /** `s` is the address built for the person: the local part and `@`, then the domain of the
      sample address, which is also what `split("@").pop()` of `s` gives back. */
  predicate IsEmailOf(s: string, first: string, last: string, dot: bool, sampleEmail: string) {
    var local := LocalPart(first, last, dot);
    && IsPrefix(local + "@", s)
    && AfterLastAt(s) == AfterLastAt(sampleEmail)
    && |s| == |local| + 1 + |AfterLastAt(sampleEmail)|
  }

  /** `first.toLowerCase() + (dot ? "." : "") + last.toLowerCase() + "@" + domain`. */
  function Email(first: string, last: string, dot: bool, sampleEmail: string): (r: string)
    ensures IsEmailOf(r, first, last, dot, sampleEmail)
    ensures IsPrefix(Lower(first), r)
  {
    var domain := AfterLastAt(sampleEmail);
    var head := Lower(first) + (if dot then "." else "");
    var local := LocalPart(first, last, dot);
    AfterLastAtOfJoin(local, domain);
    var r := local + "@" + domain;
    PrefixOfConcat(Lower(first), if dot then "." else "");
    PrefixOfConcat(head, Lower(last));
    PrefixOfConcat(local, "@");
    PrefixOfConcat(local + "@", domain);
    PrefixTransitive(Lower(first), head, local);
    PrefixTransitive(Lower(first), local, local + "@");
    PrefixTransitive(Lower(first), local + "@", r);
    r
  }

  /** Appending `"@" + domain` with an `@`-free domain makes that domain the last segment. */
  lemma {:induction false} AfterLastAtOfJoin(local: string, domain: string)
    requires '@' !in domain
    ensures AfterLastAt(local + "@" + domain) == domain
    decreases |domain|
  {
    var e := local + "@" + domain;
    if domain == [] {
      assert e[|e| - 1] == '@';
    } else {
      var shorter := domain[..|domain| - 1];
      assert e[..|e| - 1] == local + "@" + shorter;
      assert '@' !in shorter by {
        assert forall c :: c in shorter ==> c in domain;
      }
      AfterLastAtOfJoin(local, shorter);
      assert domain == shorter + [domain[|domain| - 1]];
    }
  }

  /** `s.replace(/^.{3}/gi, code)`: the first three characters are replaced when they exist
      and none of them is a line terminator. */
  function ReplaceFirstThree(s: string, code: string): (r: string)
    ensures |s| >= 3 && (forall i :: 0 <= i < 3 ==> s[i] !in LineTerminators) ==>
              r == code + s[3..]
    ensures !(|s| >= 3 && (forall i :: 0 <= i < 3 ==> s[i] !in LineTerminators)) ==> r == s
  {
    if |s| >= 3 && s[0] !in LineTerminators && s[1] !in LineTerminators && s[2] !in LineTerminators
    then code + s[3..]
    else s
  }

  predicate HasNoParentheses(s: string) {
    forall i :: 0 <= i < |s| ==> s[i] !in Parentheses
  }

  /** `generateEpicFormatPhoneNumber()`: parentheses removed, then a BC area code written over
      the first three characters. */
  function EpicFormatPhoneNumber(d: PhoneDraw): (r: string)
    requires d.areaCode < |AreaCodes|
    ensures HasNoParentheses(r)
    ensures var stripped := Remove(d.formatted, Parentheses);
            |r| == |stripped| || |stripped| < 3
  {
    var stripped := Remove(d.formatted, Parentheses);
    var r := ReplaceFirstThree(stripped, AreaCodes[d.areaCode]);
    assert forall k :: 0 <= k < |AreaCodes| ==> HasNoParentheses(AreaCodes[k]);
    r
  }

  /** When the stripped number has three leading ordinary characters the result starts with a BC
      area code and keeps every character from the fourth on; otherwise the stripped number is kept. */
  lemma PhoneAreaCode(d: PhoneDraw)
    requires d.areaCode < |AreaCodes|
    ensures var stripped := Remove(d.formatted, Parentheses);
            var r := EpicFormatPhoneNumber(d);
            if |stripped| >= 3 && (forall i :: 0 <= i < 3 ==> stripped[i] !in LineTerminators)
            then |r| == |stripped| && r[..3] in AreaCodes && r[3..] == stripped[3..]
            else r == stripped
  {
  }

  /** The record `generateFakePerson` returns once its three names are fixed. */
  function AssemblePerson(first: string, middle: string, last: string, d: PersonDraws): (p: Person)
    requires d.Valid()
    ensures p.firstName == first && p.middleName == middle && p.lastName == last
    ensures IsFullNameOf(p.fullName, first, middle, last)
    ensures IsIdirOf(p.idir, first, last)
    ensures IsEmailOf(p.emailAddress, first, last, d.emailDot, d.sampleEmail)
    ensures HasNoParentheses(p.phoneNumber) && HasNoParentheses(p.faxNumber) && HasNoParentheses(p.cellPhoneNumber)
    ensures p.phoneNumber == EpicFormatPhoneNumber(d.phone) && p.faxNumber == EpicFormatPhoneNumber(d.fax)
            && p.cellPhoneNumber == EpicFormatPhoneNumber(d.cell)
  {
    Person(
      first, middle, last,
      FullName(first, middle, last, d.initialChoice),
      Email(first, last, d.emailDot, d.sampleEmail),
      Idir(first, last),
      EpicFormatPhoneNumber(d.phone),
      EpicFormatPhoneNumber(d.fax),
      EpicFormatPhoneNumber(d.cell))
  }

  /** `generateFakePerson(firstName, middleName, lastName)`: each falsy argument is drawn. */
  function GenerateFakePerson(firstName: Option<string>, middleName: Option<string>, lastName: Option<string>,
                              d: PersonDraws): (p: Person)
    requires d.Valid()
    ensures p.firstName == if Truthy(firstName) then firstName.value else d.firstName
    ensures p.lastName == if Truthy(lastName) then lastName.value else d.lastName
    ensures Truthy(middleName) ==> p.middleName == middleName.value
    ensures !Truthy(middleName) ==> p.middleName == "" || p.middleName == d.middleFirstName
    ensures IsFullNameOf(p.fullName, p.firstName, p.middleName, p.lastName)
    ensures IsIdirOf(p.idir, p.firstName, p.lastName)
    ensures IsEmailOf(p.emailAddress, p.firstName, p.lastName, d.emailDot, d.sampleEmail)
    ensures HasNoParentheses(p.phoneNumber) && HasNoParentheses(p.faxNumber) && HasNoParentheses(p.cellPhoneNumber)
    ensures p.phoneNumber == EpicFormatPhoneNumber(d.phone) && p.faxNumber == EpicFormatPhoneNumber(d.fax)
            && p.cellPhoneNumber == EpicFormatPhoneNumber(d.cell)
  {
    var first := if Truthy(firstName) then firstName.value else d.firstName;
    var middle := if Truthy(middleName) then middleName.value else if d.middleChoice == 0 then "" else d.middleFirstName;
    var last := if Truthy(lastName) then lastName.value else d.lastName;
    AssemblePerson(first, middle, last, d)
  }
}
