/** The document factory: the attribute builder registered with `factory.define`, the
    `docProps` table and `generateOriginalFileName`. Every faker draw is a field of
    `DocumentDraws`; dates are day numbers and moment's day subtraction is integer subtraction. */
module Documents {
  import opened JsCore
  import opened JsText
  import opened ObjectIds
  import opened Pools
  import opened Persons

  /** `unsetProjectName`. */
  const UnsetProjectName: string := "the-project-name"

  /** One row of `docProps`: a file extension and its MIME type. */
  datatype DocProp = DocProp(ext: string, mime: string)

  const DocProps: seq<DocProp> := [
    DocProp("jpg", "image/jpeg"),
    DocProp("jpeg", "image/jpeg"),
    DocProp("gif", "image/gif"),
    DocProp("png", "image/png"),
    DocProp("bmp", "image/bmp"),
    DocProp("doc", "application/msword"),
    DocProp("docx", "application/vnd.openxmlformats-officedocument.wordprocessingml.document"),
    DocProp("xls", "application/vnd.ms-excel"),
    DocProp("xlsx", "application/vnd.openxmlformats-officedocument.spreadsheetml.sheet"),
    DocProp("ppt", "application/vnd.ms-powerpoint"),
    DocProp("pptx", "application/vnd.openxmlformats-officedocument.presentationml.presentation"),
    DocProp("pdf", "application/pdf"),
    DocProp("txt", "text/plain")
  ]

  const ReadRoles: seq<string> := ["public", "project-admin", "project-intake", "project-team", "project-system-admin"]
  const WriteRoles: seq<string> := ["project-admin", "project-intake", "project-team", "project-system-admin"]
  const DeleteRoles: seq<string> := ["project-admin", "project-intake", "project-team", "project-system-admin"]
  const DocumentSources: seq<string> := ["COMMENT", "DROPZONE", "PROJECT"]
  const EaoStatuses: seq<string> := ["", "Published", "Rejected"]

  /** Bounds of the draws, as the builder passes them to faker. */
  const PastYears: nat := 10
  const DaysPerYear: nat := 365
  const MaxUpdatedBack: nat := 45
  const MaxUploadedBack: nat := 15
  const MaxCreatedBack: nat := 15
  const MinFileToken: nat := 999999999999
  const MaxFileToken: nat := 10000000000000
  const FileTokenChars: nat := 60
  const MaxLabels: nat := 5
  const MinInternalSize: nat := 20000
  const MaxInternalSize: nat := 250000000
  const MaxAvDraw: nat := 100
  const AvThreshold: nat := 5

  /** `buildOptions.pipeline`. */
  datatype Pipeline = Pipeline(lists: Option<seq<ListEntry>>)

  /** The build options the builder reads (`faker`, the provider override, is left out). */
  datatype BuildOptions = BuildOptions(
    projectShortName: Option<string>,
    pipeline: Option<Pipeline>,
    listsPool: Option<seq<ListEntry>>)

  // ---------------------------------------------------------------------------
  // Project name and lists pool

  /** The project short name: the option when it is truthy and not the sentinel, else the sentinel. */
  function ProjectShortName(option: Option<string>): (r: string)
    ensures Truthy(option) && option.value != UnsetProjectName ==> r == option.value
    ensures !(Truthy(option) && option.value != UnsetProjectName) ==> r == UnsetProjectName
    ensures r != ""
  {
    if Truthy(option) && UnsetProjectName != option.value then option.value else UnsetProjectName
  }

  /** Supplying the resolved name again resolves to the same name. */
  lemma ProjectShortNameStable(option: Option<string>)
    ensures ProjectShortName(Some(ProjectShortName(option))) == ProjectShortName(option)
  {
  }

  /** The lists pool: `pipeline.lists` when a pipeline is given, else `listsPool`; a null pool
      makes the first `listsPool.filter(...)` throw. */
  function ListsPool(options: BuildOptions): (r: Result<seq<ListEntry>, Exception>)
    ensures options.pipeline.Some? ==>
              (r.Success? <==> options.pipeline.value.lists.Some?) &&
              (r.Success? ==> r.value == options.pipeline.value.lists.value)
    ensures options.pipeline.None? ==>
              (r.Success? <==> options.listsPool.Some?) &&
              (r.Success? ==> r.value == options.listsPool.value)
    ensures r.Failure? ==> r.error == TypeErrorOnNull("filter")
  {
    var listsPool :=
      if options.pipeline.Some? then
        (if options.pipeline.value.lists.Some? then options.pipeline.value.lists else None)
      else
        (if options.listsPool.Some? then options.listsPool else None);
    match listsPool
    case None => Failure(TypeErrorOnNull("filter"))
    case Some(pool) => Success(pool)
  }

  /** With a pipeline present, `listsPool` has no influence on the pool. */
  lemma PipelineTakesPrecedence(options: BuildOptions, other: Option<seq<ListEntry>>)
    requires options.pipeline.Some?
    ensures ListsPool(options.(listsPool := other)) == ListsPool(options)
  {
  }

  /** The four typed sub-pools the builder filters out of the lists pool. */
  datatype TypedPools = TypedPools(
    doctypes: seq<ListEntry>,
    authors: seq<ListEntry>,
    labels: seq<ListEntry>,
    projectPhases: seq<ListEntry>)

  function SplitPool(pool: seq<ListEntry>): TypedPools {
    TypedPools(
      FilterByType(pool, DoctypeKind),
      FilterByType(pool, AuthorKind),
      FilterByType(pool, LabelKind),
      FilterByType(pool, ProjectPhaseKind))
  }

  /** Each sub-pool holds exactly the pool's entries of its own type, in the pool's order. */
  lemma SplitPoolSeparatesTypes(pool: seq<ListEntry>)
    ensures var t := SplitPool(pool);
            && (forall k :: 0 <= k < |t.doctypes| ==> t.doctypes[k].kind == DoctypeKind)
            && (forall k :: 0 <= k < |t.authors| ==> t.authors[k].kind == AuthorKind)
            && (forall k :: 0 <= k < |t.labels| ==> t.labels[k].kind == LabelKind)
            && (forall k :: 0 <= k < |t.projectPhases| ==> t.projectPhases[k].kind == ProjectPhaseKind)
            && Subsequence(t.doctypes, pool) && Subsequence(t.authors, pool)
            && Subsequence(t.labels, pool) && Subsequence(t.projectPhases, pool)
            && (forall k :: 0 <= k < |pool| && pool[k].kind == DoctypeKind ==> pool[k] in t.doctypes)
            && (forall k :: 0 <= k < |pool| && pool[k].kind == AuthorKind ==> pool[k] in t.authors)
            && (forall k :: 0 <= k < |pool| && pool[k].kind == LabelKind ==> pool[k] in t.labels)
            && (forall k :: 0 <= k < |pool| && pool[k].kind == ProjectPhaseKind ==> pool[k] in t.projectPhases)
            && (forall e :: multiset(t.doctypes)[e] == if e.kind == DoctypeKind then multiset(pool)[e] else 0)
            && (forall e :: multiset(t.authors)[e] == if e.kind == AuthorKind then multiset(pool)[e] else 0)
            && (forall e :: multiset(t.labels)[e] == if e.kind == LabelKind then multiset(pool)[e] else 0)
            && (forall e :: multiset(t.projectPhases)[e] == if e.kind == ProjectPhaseKind then multiset(pool)[e] else 0)
  {
  }

  // ---------------------------------------------------------------------------
  // Updator and deletor

  /** `arrayElement([null, author, fresh])`. */
  function ChooseUpdator(choice: nat, author: Person, newcomer: Person): (r: Option<Person>)
    requires choice < 3
    ensures r == None || r == Some(author) || r == Some(newcomer)
    ensures choice == 0 ==> r == None
  {
    [None, Some(author), Some(newcomer)][choice]
  }

  /** `arrayElement([null, author, updator, fresh])`: the updator option yields null when
      there is no updator. */
  function ChooseDeletor(choice: nat, author: Person, updator: Option<Person>, newcomer: Person): (r: Option<Person>)
    requires choice < 4
    ensures r == None || r == Some(author) || r == updator || r == Some(newcomer)
    ensures r.None? ==> choice == 0 || (choice == 2 && updator.None?)
  {
    [None, Some(author), updator, Some(newcomer)][choice]
  }

  /** `(null == person) ? null : person.idir`. */
  function IdirOf(p: Option<Person>): (r: Option<string>)
    ensures r.None? <==> p.None?
    ensures p.Some? ==> r == Some(p.value.idir)
  {
    match p
    case None => None
    case Some(person) => Some(person.idir)
  }

  // ---------------------------------------------------------------------------
  // Dates

  /** The four dates of a document, as day numbers. */
  datatype Dates = Dates(posted: int, updated: Option<int>, uploaded: int, created: int)

  /** The backward chain from `datePosted`: `updatedDate` (with an updator) lies up to 45 days
      before it, `dateUploaded` up to 15 days before the updated (or posted) date, and
      `createdDate` up to 15 days before that. */
  function DateChain(posted: int, hasUpdator: bool, updatedBack: nat, uploadedBack: nat, createdBack: nat): (r: Dates)
    requires updatedBack <= MaxUpdatedBack && uploadedBack <= MaxUploadedBack && createdBack <= MaxCreatedBack
    ensures r.posted == posted
    ensures r.updated.Some? <==> hasUpdator
    ensures r.created <= r.uploaded <= r.posted
    ensures r.updated.Some? ==> r.uploaded <= r.updated.value <= r.posted
    ensures r.posted - r.created <= if hasUpdator then MaxUpdatedBack + MaxUploadedBack + MaxCreatedBack
                                     else MaxUploadedBack + MaxCreatedBack
  {
    var updated := if !hasUpdator then None else Some(posted - updatedBack);
    var uploaded := if !hasUpdator then posted - uploadedBack else updated.value - uploadedBack;
    var created := uploaded - createdBack;
    Dates(posted, updated, uploaded, created)
  }

  /** Every day offset the draws allow is reached: with an updator the chain can span 75 days. */
  lemma DateChainSpanIsTight(posted: int)
    ensures DateChain(posted, true, MaxUpdatedBack, MaxUploadedBack, MaxCreatedBack).created == posted - 75
    ensures DateChain(posted, false, 0, MaxUploadedBack, MaxCreatedBack).created == posted - 30
  {
  }

  // ---------------------------------------------------------------------------
  // File names

  /** `token + "_" + alnum.toLowerCase() + "." + ext`: the storage file name. */
  function MinioFileName(token: nat, alnum: string, ext: string): (r: string)
    ensures IsSuffix("." + ext, r)
    ensures IsPrefix(NatToDecimal(token) + "_", r)
    ensures |r| == |NatToDecimal(token)| + |alnum| + |ext| + 2
    ensures r[|NatToDecimal(token)| + 1 .. |r| - |ext| - 1] == Lower(alnum)
  {
    var digits := NatToDecimal(token);
    var r := digits + "_" + Lower(alnum) + "." + ext;
    assert r[|digits| + 1 .. |r| - |ext| - 1] == Lower(alnum);
    r
  }

  /** `s.replace(/\.$/g, '')`: one final full stop removed. */
  function StripFinalDot(s: string): (r: string)
    ensures IsPrefix(r, s)
    ensures |r| == if 0 < |s| && s[|s| - 1] == '.' then |s| - 1 else |s|
  {
    if 0 < |s| && s[|s| - 1] == '.' then s[..|s| - 1] else s
  }

  /** `generateOriginalFileName(faker, ext)`: a sentence without its final full stop, then `.ext`. */
  function OriginalFileName(sentence: string, ext: string): (r: string)
    ensures IsSuffix("." + ext, r)
    ensures r[..|r| - |ext| - 1] == StripFinalDot(sentence)
    ensures IsPrefix(r[..|r| - |ext| - 1], sentence)
  {
    var stem := StripFinalDot(sentence);
    var r := stem + "." + ext;
    assert r[..|r| - |ext| - 1] == stem;
    r
  }

  /** A sentence ending in a full stop gives a name with a single dot before the extension. */
  lemma OriginalFileNameDropsSentenceStop(sentence: string, ext: string)
    requires 0 < |sentence| && sentence[|sentence| - 1] == '.'
    ensures OriginalFileName(sentence, ext) == sentence + ext
  {
  }

  // ---------------------------------------------------------------------------
  // Antivirus flag and labels

  /** `faker.random.number(100) < 5`. */
  function PassedAvCheck(draw: nat): bool
    requires draw <= MaxAvDraw
  {
    draw < AvThreshold
  }

  /** Exactly five of the 101 equally likely draws pass the check: a pass, not a failure, is the
      rare outcome. */
  lemma AvPassingDraws()
    ensures (set d: nat | d <= MaxAvDraw && PassedAvCheck(d)) == {0, 1, 2, 3, 4}
    ensures |set d: nat | d <= MaxAvDraw && PassedAvCheck(d)| == 5
  {
  }

  /** The test of `for (let i = 0; i < numberOfLabels, i++;)`: the comma operator evaluates
      `i < numberOfLabels`, discards it, and yields the value of `i++`, the old `i`. */
  function LabelLoopTest(i: int, numberOfLabels: int): int
  {
    var discarded := i < numberOfLabels;
    i
  }

  predicate NoDuplicates(s: seq<string>) {
    forall j, k :: 0 <= j < k < |s| ==> s[j] != s[k]
  }

  /** `distinctLabelsForThisDoc[label]`: a string key on an array reads an element when it is a
      canonical index (the decimal form of a number) within bounds, and the length for "length";
      any other key reads nothing. */
  predicate LookupTruthy(acc: seq<string>, key: string) {
    if key == "length" then |acc| > 0
    else match Number(key)
      case Some(k) => NatToDecimal(k) == key && k < |acc| && acc[k] != ""
      case None => false
  }

  /** The label loop as written, from counter `i`: each pass evaluates the comma-operator test
      and, while it is truthy, draws a label name from `labels` (the next element of `picks`),
      skips it when the array lookup by that name is truthy and pushes it otherwise. The loop
      stops when the test is falsy, a draw throws, or the supplied draws run out. */
  function LabelLoop(i: int, numberOfLabels: int, labels: seq<ListEntry>, picks: seq<nat>,
                     acc: seq<string>): (r: Result<seq<string>, Exception>)
    requires forall k :: 0 <= k < |picks| ==> PickFits(labels, picks[k])
    ensures r.Success? ==> IsPrefix(acc, r.value) && |r.value| <= |acc| + |picks|
    ensures labels == [] && picks != [] && i != 0 ==> r == Failure(TypeErrorOnUndefined("name"))
    decreases |picks|
  {
    if picks == [] || LabelLoopTest(i, numberOfLabels) == 0 then Success(acc)
    else
      var drawn := GetRandomExistingListElementName(Some(labels), picks[0]);
      if drawn.Failure? then Failure(drawn.error)
      else if LookupTruthy(acc, drawn.value) then LabelLoop(i + 1, numberOfLabels, labels, picks[1..], acc)
      else LabelLoop(i + 1, numberOfLabels, labels, picks[1..], acc + [drawn.value])
  }

  /** Started from `i = 0`, the first test yields 0, which is falsy: the loop leaves the array as
      it was, whatever the count, the label entries and the draws. */
  lemma LabelLoopFromZero(numberOfLabels: int, labels: seq<ListEntry>, picks: seq<nat>, acc: seq<string>)
    requires forall k :: 0 <= k < |picks| ==> PickFits(labels, picks[k])
    ensures LabelLoop(0, numberOfLabels, labels, picks, acc) == Success(acc)
  {
  }

  /** Were the loop to run, the lookup by name would not keep labels distinct: from counter 1,
      drawing the single label "x" twice pushes it twice. */
  lemma LabelLookupKeepsDuplicates()
    ensures LabelLoop(1, 2, [ListEntry(LabelKind, "000000000000000000000001", "x")], [0, 0], [])
            == Success(["x", "x"])
  {
    var labels := [ListEntry(LabelKind, "000000000000000000000001", "x")];
    assert GetRandomExistingListElementName(Some(labels), 0) == Success("x");
    assert "x"[0] == 'x' && !IsDigit('x') && "x" != "length";
    assert !LookupTruthy([], "x") && !LookupTruthy(["x"], "x");
    assert [0, 0][1..] == [0] && [0][1..] == [];
    assert [] + ["x"] == ["x"] && ["x"] + ["x"] == ["x", "x"];
    assert LabelLoop(3, 2, labels, [], ["x", "x"]) == Success(["x", "x"]);
    assert LabelLoop(2, 2, labels, [0], ["x"]) == LabelLoop(3, 2, labels, [], ["x", "x"]);
    assert LabelLoop(1, 2, labels, [0, 0], []) == LabelLoop(2, 2, labels, [0], ["x"]);
  }

  /** `distinctLabelsForThisDoc` after the loop: empty, since the loop starts at `i = 0`. */
  function DistinctLabels(numberOfLabels: nat, labels: seq<ListEntry>, picks: seq<nat>): (r: Result<seq<string>, Exception>)
    requires numberOfLabels <= MaxLabels
    requires forall k :: 0 <= k < |picks| ==> PickFits(labels, picks[k])
    ensures r == Success([])
  {
    LabelLoopFromZero(numberOfLabels, labels, picks, []);
    LabelLoop(0, numberOfLabels, labels, picks, [])
  }

  /** The labels are therefore free of duplicates and at most the drawn count, whatever the pool. */
  lemma DistinctLabelsBounded(numberOfLabels: nat, labels: seq<ListEntry>, picks: seq<nat>)
    requires numberOfLabels <= MaxLabels
    requires forall k :: 0 <= k < |picks| ==> PickFits(labels, picks[k])
    ensures NoDuplicates(DistinctLabels(numberOfLabels, labels, picks).value)
    ensures |DistinctLabels(numberOfLabels, labels, picks).value| <= numberOfLabels
  {
  }

  // ---------------------------------------------------------------------------
  // The attribute builder

  /** Every faker draw the builder makes, in the units the builder asks for. */
  datatype DocumentDraws = DocumentDraws(
    author: PersonDraws,
    updatorChoice: nat,
    freshUpdator: PersonDraws,
    deletorChoice: nat,
    freshDeletor: PersonDraws,
    now: int,                 // today, as a day number
    postedBack: nat,          // faker.date.past(10): days before today
    updatedBack: nat,
    uploadedBack: nat,
    createdBack: nat,
    docProp: nat,
    fileToken: nat,
    fileAlnum: string,        // faker.random.alphaNumeric(60)
    labelCount: nat,
    labelPicks: seq<nat>,     // one arrayElement(labels) draw per pass of the label loop
    idHex: seq<nat>,
    projectHex: seq<nat>,
    commentHex: seq<nat>,
    fileNameSentence: string, // faker.lorem.sentence() for documentFileName
    internalSize: nat,
    avDraw: nat,
    documentSource: nat,
    milestoneChoice: nat,
    milestoneHex: seq<nat>,
    typePick: nat,
    description: string,
    authorTypePick: nat,
    phasePick: nat,
    eaoStatus: nat)
  {
    predicate Valid() {
      && author.Valid() && freshUpdator.Valid() && freshDeletor.Valid()
      && updatorChoice < 3 && deletorChoice < 4
      && postedBack <= PastYears * DaysPerYear
      && updatedBack <= MaxUpdatedBack && uploadedBack <= MaxUploadedBack && createdBack <= MaxCreatedBack
      && docProp < |DocProps|
      && MinFileToken <= fileToken <= MaxFileToken && |fileAlnum| == FileTokenChars
      && labelCount <= MaxLabels
      && AllBelow(idHex, |HexSymbols|) && 24 <= |idHex|
      && AllBelow(projectHex, |HexSymbols|) && 24 <= |projectHex|
      && AllBelow(commentHex, |HexSymbols|) && 24 <= |commentHex|
      && AllBelow(milestoneHex, |HexSymbols|) && 24 <= |milestoneHex|
      && MinInternalSize <= internalSize <= MaxInternalSize
      && avDraw <= MaxAvDraw
      && documentSource < |DocumentSources| && milestoneChoice < 2 && eaoStatus < |EaoStatuses|
    }
  }

  /** The three `arrayElement` draws over the doctype, author and project-phase entries fit those lists. */
  predicate PicksFit(options: BuildOptions, d: DocumentDraws) {
    match ListsPool(options)
    case Failure(_) => true
    case Success(pool) =>
      && PickFits(FilterByType(pool, DoctypeKind), d.typePick)
      && PickFits(FilterByType(pool, AuthorKind), d.authorTypePick)
      && PickFits(FilterByType(pool, ProjectPhaseKind), d.phasePick)
      && forall k :: 0 <= k < |d.labelPicks| ==> PickFits(FilterByType(pool, LabelKind), d.labelPicks[k])
  }

  /** The attributes the builder returns (`displayName`, a factory-girl sequence, is left out). */
  datatype DocumentRecord = DocumentRecord(
    id: string,
    project: string,
    comment: string,
    createdDate: int,
    updatedDate: Option<int>,
    addedBy: string,
    updatedBy: Option<string>,
    deletedBy: Option<string>,
    readRoles: seq<string>,
    writeRoles: seq<string>,
    deleteRoles: seq<string>,
    documentFileName: string,
    internalOriginalName: string,
    internalURL: string,
    internalExt: string,
    internalSize: nat,
    passedAVCheck: bool,
    internalMime: string,
    documentSource: string,
    milestone: Option<string>,
    dateUploaded: int,
    datePosted: int,
    docType: string,
    description: string,
    documentAuthor: string,
    documentAuthorType: string,
    projectPhase: string,
    eaoStatus: string,
    keywords: string,
    labels: seq<string>)

  function Author(d: DocumentDraws): Person
    requires d.Valid()
  {
    GenerateFakePerson(None, None, None, d.author)
  }

  function Updator(d: DocumentDraws): Option<Person>
    requires d.Valid()
  {
    ChooseUpdator(d.updatorChoice, Author(d), GenerateFakePerson(None, None, None, d.freshUpdator))
  }

  function Deletor(d: DocumentDraws): Option<Person>
    requires d.Valid()
  {
    ChooseDeletor(d.deletorChoice, Author(d), Updator(d), GenerateFakePerson(None, None, None, d.freshDeletor))
  }

  /** The internal consistency a built record has, relative to its pool and project name. */
  ghost predicate IsConsistentRecord(doc: DocumentRecord, pool: seq<ListEntry>, projectShortName: string) {
    && doc.createdDate <= doc.dateUploaded <= doc.datePosted
    && (doc.updatedDate.Some? ==> doc.dateUploaded <= doc.updatedDate.value <= doc.datePosted)
    && (doc.updatedDate.None? <==> doc.updatedBy.None?)
    && doc.datePosted - doc.createdDate <= (if doc.updatedDate.Some? then 75 else 30)
    && DocProp(doc.internalExt, doc.internalMime) in DocProps
    && IsSuffix("." + doc.internalExt, doc.internalOriginalName)
    && doc.internalURL == "etl/" + projectShortName + "/" + doc.internalOriginalName
    && IsSuffix("." + doc.internalExt, doc.documentFileName)
    && IsValidObjectId(doc.id) && IsValidObjectId(doc.project) && IsValidObjectId(doc.comment)
    && (doc.milestone.Some? ==> IsValidObjectId(doc.milestone.value))
    && doc.docType in IdsOfKind(pool, DoctypeKind)
    && doc.documentAuthorType in IdsOfKind(pool, AuthorKind)
    && doc.projectPhase in IdsOfKind(pool, ProjectPhaseKind)
    && doc.labels == []
    && doc.documentSource in DocumentSources && doc.eaoStatus in EaoStatuses
    && MinInternalSize <= doc.internalSize <= MaxInternalSize
    && doc.readRoles == ReadRoles && doc.writeRoles == WriteRoles && doc.deleteRoles == DeleteRoles
    && doc.keywords == ""
  }

  /** The file attributes of a record: a row of `docProps`, the storage name built on its
      extension, the storage URL under the project name, and the original file name. */
  datatype FileAttributes = FileAttributes(
    documentFileName: string,
    internalOriginalName: string,
    internalURL: string,
    internalExt: string,
    internalMime: string)

  function BuildFileAttributes(projectShortName: string, d: DocumentDraws): (f: FileAttributes)
    requires d.Valid()
    ensures DocProp(f.internalExt, f.internalMime) in DocProps
    ensures IsSuffix("." + f.internalExt, f.internalOriginalName)
    ensures f.internalURL == "etl/" + projectShortName + "/" + f.internalOriginalName
    ensures IsSuffix("." + f.internalExt, f.documentFileName)
  {
    var docTypeSettings := DocProps[d.docProp];
    var minioFileSystemFileName := MinioFileName(d.fileToken, d.fileAlnum, docTypeSettings.ext);
    FileAttributes(
      OriginalFileName(d.fileNameSentence, docTypeSettings.ext),
      minioFileSystemFileName,
      "etl/" + projectShortName + "/" + minioFileSystemFileName,
      docTypeSettings.ext,
      docTypeSettings.mime)
  }

  /** `arrayElement([null, ObjectId()])`. */
  function Milestone(choice: nat, hexDraws: seq<nat>): (r: Option<string>)
    requires choice < 2
    requires AllBelow(hexDraws, |HexSymbols|) && 24 <= |hexDraws|
    ensures r.Some? ==> IsValidObjectId(r.value)
  {
    var id := FreshObjectId(hexDraws);
    [None, Some(id)][choice]
  }

  /** The record once the author, updator and deletor are chosen and the three references are
      resolved. */
  function BuildRecord(options: BuildOptions, pool: seq<ListEntry>, d: DocumentDraws,
                       author: Person, updator: Option<Person>, deletor: Option<Person>,
                       typeId: string, authorTypeId: string, phaseId: string): (doc: DocumentRecord)
    requires d.Valid()
    requires typeId in IdsOfKind(pool, DoctypeKind)
    requires authorTypeId in IdsOfKind(pool, AuthorKind)
    requires phaseId in IdsOfKind(pool, ProjectPhaseKind)
    requires forall k :: 0 <= k < |d.labelPicks| ==> PickFits(FilterByType(pool, LabelKind), d.labelPicks[k])
    ensures IsConsistentRecord(doc, pool, ProjectShortName(options.projectShortName))
    ensures doc.addedBy == author.idir && doc.documentAuthor == author.fullName
    ensures doc.updatedBy == IdirOf(updator) && doc.deletedBy == IdirOf(deletor)
    ensures doc.passedAVCheck <==> d.avDraw < AvThreshold
    ensures doc.datePosted == d.now - d.postedBack
  {
    var projectShortName := ProjectShortName(options.projectShortName);
    var dates := DateChain(d.now - d.postedBack, updator.Some?, d.updatedBack, d.uploadedBack, d.createdBack);
    var file := BuildFileAttributes(projectShortName, d);
    var milestone := Milestone(d.milestoneChoice, d.milestoneHex);
    DocumentRecord(
      FreshObjectId(d.idHex),
      FreshObjectId(d.projectHex),
      FreshObjectId(d.commentHex),
      dates.created,
      dates.updated,
      author.idir,
      IdirOf(updator),
      IdirOf(deletor),
      ReadRoles,
      WriteRoles,
      DeleteRoles,
      file.documentFileName,
      file.internalOriginalName,
      file.internalURL,
      file.internalExt,
      d.internalSize,
      PassedAvCheck(d.avDraw),
      file.internalMime,
      DocumentSources[d.documentSource],
      milestone,
      dates.uploaded,
      dates.posted,
      typeId,
      d.description,
      author.fullName,
      authorTypeId,
      phaseId,
      EaoStatuses[d.eaoStatus],
      "",
      DistinctLabels(d.labelCount, FilterByType(pool, LabelKind), d.labelPicks).value)
  }

  /** The attribute builder of `factory.define`. It throws when no lists pool is given, and
      when the doctype, author or project-phase entries are empty or the drawn entry's id is
      invalid, in that order. */
  function Compose(options: BuildOptions, d: DocumentDraws): (r: Result<DocumentRecord, Exception>)
    requires d.Valid()
    requires PicksFit(options, d)
    ensures ListsPool(options).Failure? ==> r == Failure(TypeErrorOnNull("filter"))
    ensures r.Success? ==> ListsPool(options).Success? &&
                           IsConsistentRecord(r.value, ListsPool(options).value, ProjectShortName(options.projectShortName))
    ensures r.Success? ==> r.value.addedBy == Author(d).idir && r.value.documentAuthor == Author(d).fullName
    ensures r.Success? ==> r.value.updatedBy == IdirOf(Updator(d)) && r.value.deletedBy == IdirOf(Deletor(d))
    ensures r.Success? ==> (r.value.passedAVCheck <==> d.avDraw < AvThreshold)
  {
    match ListsPool(options)
    case Failure(e) => Failure(e)
    case Success(pool) =>
      var pools := SplitPool(pool);
      match ResolveReference(pools.doctypes, d.typePick)
      case Failure(e) => Failure(e)
      case Success(typeId) =>
        match ResolveReference(pools.authors, d.authorTypePick)
        case Failure(e) => Failure(e)
        case Success(authorTypeId) =>
          match ResolveReference(pools.projectPhases, d.phasePick)
          case Failure(e) => Failure(e)
          case Success(phaseId) =>
            ResolvedReferenceInPool(pool, DoctypeKind, d.typePick);
            ResolvedReferenceInPool(pool, AuthorKind, d.authorTypePick);
            ResolvedReferenceInPool(pool, ProjectPhaseKind, d.phasePick);
            Success(BuildRecord(options, pool, d, Author(d), Updator(d), Deletor(d), typeId, authorTypeId, phaseId))
  }

  /** A reference category resolves when it has entries and the drawn entry's id is valid. */
  predicate Resolvable(entries: seq<ListEntry>, pick: nat) {
    entries != [] && pick < |entries| && IsValidObjectId(entries[pick].id)
  }

  /** The builder succeeds exactly when a pool is given and the doctype, author and
      project-phase categories each resolve; the label entries play no part. */
  lemma ComposeSucceedsExactly(options: BuildOptions, d: DocumentDraws)
    requires d.Valid()
    requires PicksFit(options, d)
    ensures Compose(options, d).Success? <==>
              && ListsPool(options).Success?
              && Resolvable(FilterByType(ListsPool(options).value, DoctypeKind), d.typePick)
              && Resolvable(FilterByType(ListsPool(options).value, AuthorKind), d.authorTypePick)
              && Resolvable(FilterByType(ListsPool(options).value, ProjectPhaseKind), d.phasePick)
  {
  }

  /** A pool with no doctype entry makes the builder throw rather than fall back to a fresh id. */
  lemma NoDoctypeEntryThrows(options: BuildOptions, d: DocumentDraws)
    requires d.Valid()
    requires PicksFit(options, d)
    requires ListsPool(options).Success?
    requires forall k :: 0 <= k < |ListsPool(options).value| ==> ListsPool(options).value[k].kind != DoctypeKind
    ensures Compose(options, d) == Failure(TypeErrorOnUndefined("_id"))
  {
    FilterWithoutKind(ListsPool(options).value, DoctypeKind);
  }

  /** The updator is absent, the author or the fresh person; so is the deletor, which may also be
      the updator; a missing updator means no updated date. */
  lemma ComposeActors(options: BuildOptions, d: DocumentDraws)
    requires d.Valid()
    requires PicksFit(options, d)
    requires Compose(options, d).Success?
    ensures var doc := Compose(options, d).value;
            var author := Author(d);
            && (doc.updatedBy == None || doc.updatedBy == Some(author.idir) ||
                doc.updatedBy == Some(GenerateFakePerson(None, None, None, d.freshUpdator).idir))
            && (doc.deletedBy == None || doc.deletedBy == Some(author.idir) || doc.deletedBy == doc.updatedBy ||
                doc.deletedBy == Some(GenerateFakePerson(None, None, None, d.freshDeletor).idir))
            && (doc.updatedBy.None? <==> doc.updatedDate.None?)
            && (doc.deletedBy.None? <==> Deletor(d).None?)
  {
  }
}
