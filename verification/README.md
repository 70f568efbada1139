# Test-data factories of the EPIC document API, in Dafny

This project models the deterministic logic in two JavaScript files of the EPIC API's
test-data factories. Both files fabricate records for integration tests:

- `factory_helper.js` fabricates people, identifiers, seeds, postal codes, location
  strings and path suffixes;
- `document_factory.js` is the attribute builder that `factory-girl` runs to produce one
  document record. It also holds the `docProps` table and `generateOriginalFileName`.

Every value the code takes from `faker` is a parameter, with a `requires` stating the range
faker draws from. Examples: the index of an `arrayElement` call, a `random.number(n)`
result, a formatted phone number, a lorem sentence. Thrown JavaScript exceptions are a
`Result.Failure` carrying an `Exception`:

- `Thrown(message)` is the string `generateSeededObjectId` throws;
- `TypeErrorOnNull("filter")` is the error when the lists pool is null;
- `TypeErrorOnUndefined(p)` is the error when a property `p` is read from the `undefined`
  that `arrayElement([])` returns.

Modules, one per file:

- `JsCore` (`js_core.dfy`): `Option`, `Result`, the exception kinds, truthiness of an
  optional string, and prefixes and suffixes.
- `JsText` (`js_text.dfy`): `toLowerCase` on ASCII, decimal rendering of numbers,
  `Number()` of a digit string, and the deletion of a set of characters.
- `ObjectIds` (`object_ids.dfy`): `hexaDecimal`, `generateSeededObjectId` (exported as
  `ObjectId`), `getInc` and `generateDeterministicSeed`.
- `Pools` (`pools.dfy`): list entries, filtering by `type`, and the two pool lookups.
- `Persons` (`persons.dfy`): `generateFakePerson` and `generateEpicFormatPhoneNumber`.
- `Places` (`places.dfy`): `endsWithPathSep`, `generateFakeLocationString` and
  `generateFakePostal`.
- `Documents` (`documents.dfy`): the attribute builder (`Compose`), `docProps`, the file
  names and the date chain.

In a few places the code does something other than what its comments or its documentation
lead one to expect. The model follows the code in each case:

- A lists pool that has no entry of type `doctype`, `author` or `projectPhase` does not
  fall back to a fresh identifier. The empty filtered array is truthy, so
  `arrayElement([])._id` throws a TypeError (`Documents.NoDoctypeEntryThrows`).
- `passedAVCheck` is `random.number(100) < 5`. It is true for 5 of the 101 draws, so
  passing is the rare outcome, although the comment says "5% fail"
  (`Documents.AvPassingDraws`).
- The label loop header `i < numberOfLabels, i++` uses the comma operator. The test
  evaluates to the old `i`, which is 0 and falsy, so `labels` is always empty
  (`Documents.LabelLoopFromZero`). Were the loop to run, its duplicate check
  `distinctLabelsForThisDoc[label]` looks the name up as an array key, not as an element, so
  it would not keep labels distinct (`Documents.LabelLookupKeepsDuplicates`).
- `updatedDate` is computed by subtracting days from `datePosted`, so it falls on or
  before the posting date, never after it (`Documents.DateChain`).
- `getInc` never advances its counter, so deterministic seeds repeat (see Findings).

## Model

| member | source | states |
|---|---|---|
| `ObjectIds.HexSymbolsOf` | api/test/factories/factory_helper.js:120-123 | one symbol per draw: the k-th character is the list symbol of the k-th draw, so the string is hexadecimal and as long as the draws |
| `ObjectIds.HexaDecimal` | api/test/factories/factory_helper.js:115-126 | the length is the count, one when no count is given and zero for a count below one; every character is one of the 22 hex symbols |
| `ObjectIds.GenerateSeededObjectId` | api/test/factories/factory_helper.js:128-132 | with no value: a valid 24-character lower-case hex id; with a value: success exactly when it is a valid id, the value itself is returned, otherwise the "Invalid attempt to generate an ObjectID: '…'" string is thrown |
| `ObjectIds.FreshObjectId` | api/test/factories/factory_helper.js:129 | `ObjectId()` without argument always yields a valid lower-case id |
| `ObjectIds.AdoptProducedId` | api/test/factories/factory_helper.js:128-132 | passing an id that `ObjectId` produced back into `ObjectId` returns it unchanged (the nested `ObjectId(getRandomExistingMongoId(...))` calls) |
| `ObjectIds.AdoptExamples` | api/test/factories/factory_helper.js:130 | an 18-character non-hex value is refused; a 24-character hex value is returned as it is |
| `ObjectIds.ParentTermOfHex` | api/test/factories/factory_helper.js:143 | for a hexadecimal parent id, deleting the letters a–f and taking five characters leaves a number between 0 and 99999, never NaN |
| `ObjectIds.GetIncAt` | api/test/factories/factory_helper.js:134-138 | a call leaves the module-level `index` as it was and returns a value in [0, 0xffffff) |
| `ObjectIds.IncSequenceConstant` | api/test/factories/factory_helper.js:134-138 | over any number of successive calls, with the counter threaded from call to call, every call returns what the first returned; from the initial counter 1 that is 2 |
| `ObjectIds.GetInc` | api/test/factories/factory_helper.js:134-138 | every call returns 2 |
| `ObjectIds.DeterministicSeed` | api/test/factories/factory_helper.js:142-144 | the seed is a number exactly when the parent-derived term is one |
| `ObjectIds.DeterministicSeedRange` | api/test/factories/factory_helper.js:142-144 | for a hex parent the seed lies between factorySeed·10^6 + 2 and factorySeed·10^6 + 100001 |
| `ObjectIds.DistinctFactorySeedsNeverCollide` | api/test/factories/factory_helper.js:140-144 | seeds under different common factory seeds differ, whatever the two hex parents |
| `ObjectIds.SeedCallAsWritten` | api/test/factories/factory_helper.js:134-144 | a seed call leaves the module-level `index` unchanged; the seed is a number exactly when the parent-derived term is one, and for a hex parent it is factorySeed·10^6 plus a term in [0, 99999] plus the value `getInc` returns, `index` plus one modulo 0xffffff |
| `ObjectIds.SeedCallAsWrittenIsDeterministicSeed` | api/test/factories/factory_helper.js:134-144 | from the initial counter, the explicit-state call gives exactly `generateDeterministicSeed`'s result |
| `ObjectIds.SeedRepeatsAsWritten` | api/test/factories/factory_helper.js:134-144 | two successive calls with the same arguments return the same seed |
| `ObjectIds.SeedRepeatsExample` | api/test/factories/factory_helper.js:142-144 | from the initial counter, both calls for factory seed 1 and parent `5f0000000000000000000001` give 1050002 |
| `ObjectIds.NextInc` | api/test/factories/factory_helper.js:134-138 | corrected counter: it advances by one modulo 0xffffff and returns the new value |
| `ObjectIds.SeedCallCounted` | api/test/factories/factory_helper.js:142-144 | corrected seed call: the counter stays in range, and the seed is a number exactly when the parent term is one |
| `ObjectIds.ConsecutiveCountedSeedsDiffer` | api/test/factories/factory_helper.js:140-144 | with the corrected counter, two successive seeds for the same arguments and hex parent differ |
| `JsText.NumberOfDecimal` | api/test/factories/factory_helper.js:111 | a number rendered in decimal (the `number + "km "` concatenation) reads back as that number |
| `JsText.DecimalValueBound` | api/test/factories/factory_helper.js:143 | a digit string of length k reads as a number below 10^k |
| `JsText.Remove` | api/test/factories/factory_helper.js:44 | a global character-class replacement by "": none of the deleted characters remains, the result is no longer than the input, and a string without them is unchanged |
| `JsText.RemoveChar` | api/test/factories/factory_helper.js:44 | one character is dropped exactly when it is in the class, and kept otherwise |
| `JsText.RemoveConcat` | api/test/factories/factory_helper.js:143 | removal distributes over concatenation, so the kept characters stay in their order (with `RemoveChar`, this determines the result) |
| `JsText.RemoveCounts` | api/test/factories/factory_helper.js:44 | every character outside the class occurs as often in the result as in the input, and none inside it occurs |
| `Pools.FilterByType` | api/test/factories/document_factory.js:41-44 | `listsPool.filter(e => kind === e.type)`: every kept entry has the type; each entry of the type is kept as many times as it occurs and others not at all, in the pool's order |
| `Pools.FilterKeepsHomogeneousPool` | api/test/factories/document_factory.js:41-44 | a pool whose entries all have the type is kept whole |
| `Pools.FilterWithoutKind` | api/test/factories/document_factory.js:41-44 | a pool with no entry of the type filters to the empty array |
| `Pools.FilterIdempotent` | api/test/factories/document_factory.js:41-44 | filtering twice by one type equals filtering once |
| `Pools.GetRandomExistingMongoId` | api/test/factories/factory_helper.js:47-49 | no pool: a fresh valid id; an empty array: a TypeError on `_id`; otherwise the drawn entry's id, which must be valid |
| `Pools.GetRandomExistingListElementName` | api/test/factories/factory_helper.js:51-53 | no pool: ""; an empty array: a TypeError on `name`; otherwise the drawn entry's name |
| `Pools.ResolveReference` | api/test/factories/document_factory.js:105 | the reference resolves exactly when the entries are non-empty and the drawn id is valid, and it is then that entry's id |
| `Pools.ResolvedReferenceInPool` | api/test/factories/document_factory.js:105-109 | a resolved reference is the id of an entry of the requested type in the lists pool |
| `Persons.Idir` | api/test/factories/factory_helper.js:24 | the login is `idir\\` followed by at most 8 lower-case characters that begin the lower-cased initial plus surname; it is exactly 8 characters long unless that whole text is shorter |
| `Persons.IdirDependsOnFirstEight` | api/test/factories/factory_helper.js:14-24 | people whose lower-cased initial plus surname agree in the first eight characters share a login |
| `Persons.FullName` | api/test/factories/factory_helper.js:21 | first name, a space, then the surname, with the middle initial and ". " possibly between them, and never an initial when the middle name is empty |
| `Persons.AfterLastAt` | api/test/factories/factory_helper.js:22 | `split("@").pop()`: a suffix with no `@`, and either the whole string or preceded by an `@` |
| `Persons.AfterLastAtOfJoin` | api/test/factories/factory_helper.js:22 | appending "@" and an `@`-free domain makes that domain the last segment |
| `Persons.Email` | api/test/factories/factory_helper.js:22 | the address is the lower-cased first name, a dot if drawn, the lower-cased surname and `@`, followed by the domain of faker's sample address and nothing else; `split("@").pop()` of it gives that domain back |
| `Persons.ReplaceFirstThree` | api/test/factories/factory_helper.js:44 | `/^.{3}/` is replaced exactly when the string has three leading characters that are not line terminators; otherwise the string is unchanged |
| `Persons.EpicFormatPhoneNumber` | api/test/factories/factory_helper.js:42-45 | the number holds no parentheses, and it is as long as the parenthesis-free number whenever that is three characters or more |
| `Persons.PhoneAreaCode` | api/test/factories/factory_helper.js:44 | when the stripped number has three ordinary leading characters, the result starts with one of 604, 250, 778, 236 or 672 and keeps everything from the fourth character on; otherwise it is the stripped number |
| `Persons.AssemblePerson` | api/test/factories/factory_helper.js:21-39 | the returned record carries the three names with a full name, login and e-mail built from them, and the phone, fax and cell numbers are `generateEpicFormatPhoneNumber` of their own draws |
| `Persons.GenerateFakePerson` | api/test/factories/factory_helper.js:16-40 | truthy arguments are kept and falsy ones drawn (the middle name drawn as "" or a first name); the full name, login and e-mail relate to the chosen names as above, and the phone, fax and cell numbers are the BC-formatted numbers of their own draws |
| `Places.EndsWithPathSep` | api/test/factories/factory_helper.js:182-184 | the result ends in the separator; a path that already ends in it is returned as it is, any other path gets exactly one appended |
| `Places.EndsWithPathSepIdempotent` | api/test/factories/factory_helper.js:182-184 | applying it twice equals applying it once |
| `Places.Direction` | api/test/factories/factory_helper.js:107-110 | one of the eight compass directions; a single drawn axis stands alone, two axes are joined by one space, and the filler appears only when both axes are empty |
| `Places.FakeLocationString` | api/test/factories/factory_helper.js:106-113 | the distance in decimal followed by "km ", then a direction, then " of " and the city; the distance reads back as the drawn number |
| `Places.ReplaceSymbolWithNumber` | api/test/factories/factory_helper.js:75 | every `#` becomes a digit and every other character is kept, so the length is unchanged |
| `Places.FakePostal` | api/test/factories/factory_helper.js:69-76 | letter–digit–letter, space, digit–letter–digit; the first letter is the drawn postal district and the other two letters are the drawn ones |
| `Documents.ProjectShortName` | api/test/factories/document_factory.js:35-36 | the option when it is truthy and not "the-project-name", else "the-project-name"; never empty |
| `Documents.ProjectShortNameStable` | api/test/factories/document_factory.js:35-36 | supplying the resolved name again resolves to the same name |
| `Documents.ListsPool` | api/test/factories/document_factory.js:38-41 | with a pipeline only `pipeline.lists` is used, else `listsPool`; when the chosen one is absent the first `filter` throws on null |
| `Documents.PipelineTakesPrecedence` | api/test/factories/document_factory.js:38-40 | with a pipeline present, the `listsPool` option has no influence |
| `Documents.SplitPoolSeparatesTypes` | api/test/factories/document_factory.js:41-44 | each of the four sub-pools holds exactly the pool's entries of its type, each as many times as in the pool, in the pool's order |
| `Documents.ChooseUpdator` | api/test/factories/document_factory.js:47 | the updator is absent, the author or a fresh person |
| `Documents.ChooseDeletor` | api/test/factories/document_factory.js:48 | the deletor is absent, the author, the updator or a fresh person; it is absent only for the null element or for an absent updator |
| `Documents.IdirOf` | api/test/factories/document_factory.js:79-80 | the `_updatedBy`/`_deletedBy` value is null exactly when the person is, and otherwise that person's login |
| `Documents.DateChain` | api/test/factories/document_factory.js:50-53 | created ≤ uploaded ≤ posted, and updated lies between uploaded and posted; the updated date exists exactly when there is an updator; the span is at most 75 days with an updator and 30 without |
| `Documents.DateChainSpanIsTight` | api/test/factories/document_factory.js:51-53 | the largest draws reach the 75-day and 30-day spans |
| `Documents.MinioFileName` | api/test/factories/document_factory.js:58 | the decimal token and "_", then the lower-cased alphanumerics, then "." and the extension |
| `Documents.StripFinalDot` | api/test/factories/document_factory.js:157 | `/\.$/` removes one final full stop and nothing else |
| `Documents.OriginalFileName` | api/test/factories/document_factory.js:156-158 | the sentence without its final full stop, then "." and the extension |
| `Documents.OriginalFileNameDropsSentenceStop` | api/test/factories/document_factory.js:157 | a sentence ending in a full stop gives the sentence followed directly by the extension, with a single dot |
| `Documents.LabelLoop` | api/test/factories/document_factory.js:62-66 | the loop only appends, at most one name per pass; with no label entries, a pass from a non-zero counter throws a TypeError on `name` |
| `Documents.LabelLoopFromZero` | api/test/factories/document_factory.js:62 | from counter 0 the comma-operator test is falsy at once, so the array is returned unchanged for every count, pool and draw sequence |
| `Documents.LabelLookupKeepsDuplicates` | api/test/factories/document_factory.js:64-65 | from counter 1, drawing the single label "x" twice pushes it twice: the key lookup does not detect the repeat |
| `Documents.AvPassingDraws` | api/test/factories/document_factory.js:94 | the flag `random.number(100) < 5` is true for exactly the five draws 0–4 of the 101 |
| `Documents.DistinctLabels` | api/test/factories/document_factory.js:60-66 | the labels after the loop started at 0 are empty and nothing is thrown, whatever the count, the label entries and the draws |
| `Documents.DistinctLabelsBounded` | api/test/factories/document_factory.js:60-66 | the labels have no duplicates and are no more than the drawn count |
| `Documents.BuildFileAttributes` | api/test/factories/document_factory.js:89-95 | extension and MIME type are one `docProps` row; both file names end in that extension; the URL is `etl/<project>/<storage name>` |
| `Documents.Milestone` | api/test/factories/document_factory.js:102 | a drawn milestone is a valid id |
| `Documents.BuildRecord` | api/test/factories/document_factory.js:69-113 | given the chosen people and resolved references, the record is consistent (dates ordered, fresh ids valid, references of the right type, fixed role lists, empty labels and keywords), carries the people's logins and the author's full name, and the AV flag is true exactly for a draw below 5 |
| `Documents.Compose` | api/test/factories/document_factory.js:31-117 | no lists pool throws on `filter`; a built record is consistent with its pool and project name and carries the drawn actors and AV flag |
| `Documents.ComposeSucceedsExactly` | api/test/factories/document_factory.js:38-109 | the builder succeeds exactly when a pool is given and the doctype, author and project-phase categories each have entries and a valid drawn id |
| `Documents.NoDoctypeEntryThrows` | api/test/factories/document_factory.js:105 | a pool without doctype entries throws a TypeError on `_id` |
| `Documents.ComposeActors` | api/test/factories/document_factory.js:46-80 | `_updatedBy` is null, the author's login or the fresh updator's login; `_deletedBy` is null, the author's, the updator's or a fresh one's login; no updator means no updated date |

## Left out

- `generatePhysicalFile` is left out: it does file-system and network I/O (template stat, copy, Minio upload, unlink).
- `generatePrerequisitePdf` and `generatePrerequisitePdfs` are left out: they are asynchronous PDF generation with 3, 25 and 120 pages.
- `loadBcCities` and `getBcCities` are left out: they read the external `canada` dataset. The city of a location string is a parameter.
- `generateFakeBcLatLong` is left out: it is floating-point arithmetic.
- The module-level temporary paths and `shell.mkdir` calls are left out: they are file-system side effects.
- `factory.seq` for `displayName` is left out: it is a factory-girl counter. `DocumentRecord` has no `displayName` field.
- The `buildOptions.faker` substitution is left out: every draw is a parameter, so the provider does not matter.
- The exported Minio bucket constant is left out: it is a foreign value.
- faker's internals are parameters: name lists, `phoneNumberFormat`, `internet.email`, `lorem.sentence`, `alphaNumeric`. Only the ranges of the indices and numbers are stated.
- `faker.date.past(10)` and moment's day subtraction are integer day numbers. Times of day are not modelled.
- `JsText.Lower`: lower-cases ASCII only. JavaScript `toLowerCase` and `toLocaleLowerCase` also map non-ASCII letters.
- `JsText.Number`: only a string of decimal digits, including "", is a number. JavaScript's `Number()` also accepts surrounding whitespace, signs, fractions, exponents and `0x` prefixes. Those strings are NaN in the model.
- `ObjectIds.DeterministicSeed`: for a parent id whose stripped five-character prefix is not all digits (`"-1"`, `" 7"`, `"1.5"`), the model gives NaN while JavaScript gives a number. For a hexadecimal parent id, such as an ObjectId's `toString()`, the model is exact (`ObjectIds.ParentTermOfHex`).
- `ObjectIds.DeterministicSeed`: JavaScript arithmetic is double precision, and the model uses unbounded integers. `commonFactorySeed * 1000000 + …` is exact only while the result stays below 2^53, that is for |commonFactorySeed| below about 9·10^9. Non-integer seeds are not modelled.
- `Persons.Idir`: Dafny strings are sequences of Unicode scalar values, while `charAt(0)` and `substring(0, 8)` count UTF-16 code units. The two agree only on names without characters outside the Basic Multilingual Plane.
- `Persons.FullName`: `middle.charAt(0)` is a UTF-16 code unit in JavaScript and a Unicode scalar value here, as for `Persons.Idir`.
- `Persons.ReplaceFirstThree`: `/^.{3}/` without the `u` flag matches three UTF-16 code units, and the model matches three Unicode scalar values.
- `Documents.LabelLoop`: the number of passes is bounded by the supplied draws. From a positive counter the source loop does not stop until an exception, and from counter 0, the only start the builder uses, it makes no pass at all.
- `Documents.LookupTruthy`: models only the array-index keys and `length`. Other inherited keys such as `push` read a function, which is truthy, and the model reads them as falsy.
- `ObjectIds.GenerateSeededObjectId`: validity is 24 hexadecimal characters. `bson`'s `isValid` also accepts 12-character strings, numbers and ObjectId instances. `mongTypes.ObjectId` is the identity on the string, and a `null` argument is not distinguished from an absent one.
- `Places.ReplaceSymbolWithNumber`: the `!` symbol of faker's `replaceSymbolWithNumber` is not modelled. The postal template never contains it.
- `Persons.EpicFormatPhoneNumber`: its own contract gives only the absence of parentheses and the length. The area-code prefix and the kept tail are stated by `Persons.PhoneAreaCode`.

## Findings

| source | as written | input that shows it | evidently intended | confidence | as-written member | corrected member |
|---|---|---|---|---|---|---|
| api/test/factories/factory_helper.js:134-144 | `getInc` returns `(index + 1) % 0xffffff` but never assigns `index`, so it always returns 2 | `generateDeterministicSeed(1, "5f0000000000000000000001")` called twice returns 1050002 both times | the counter advances on each call, so successive seeds for the same arguments are distinct, as the comment above `generateDeterministicSeed` requires | high; not executed | `ObjectIds.SeedRepeatsAsWritten` | `ObjectIds.ConsecutiveCountedSeedsDiffer` |

The corrected counter is `ObjectIds.NextInc`, and `ObjectIds.SeedCallCounted` computes seeds over it. No other operation of the model calls `getInc`.
