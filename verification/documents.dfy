/**
 The `Document` record of a live-code block (src/models/Document.ts).

 A document is an immutable value: the constructor `NewDocument` derives every
 field from an initial-state payload, getters are pure functions, and the one
 real action, `SetCode`, returns an updated copy. The external helper
 `splitPreCode`, the uuid generator and the clock are parameters.
 */
module Documents {
  import opened Wrappers

  /** A `Date`, as milliseconds since the epoch. */
  type Timestamp = int

  /** Persistence state of a document. */
  datatype Status = Idle | Syncing | Error | Success

  /** The string value each `Status` member carries in the source enum. */
  function StatusName(s: Status): string
  {
    match s
    case Idle => "IDLE"
    case Syncing => "SYNCING"
    case Error => "ERROR"
    case Success => "SUCCESS"
  }

  /** The enum's string values tell its members apart. */
  lemma StatusNameInjective(a: Status, b: Status)
    ensures StatusName(a) == StatusName(b) <==> a == b
  {
  }

  datatype LogKind = Done | Stdout | Stderr | Start

  datatype LogMessage = LogMessage(kind: LogKind, output: string, timeStamp: int)

  datatype Version = Version(code: string, createdAt: Timestamp, version: int, pasted: Option<bool>)

  /** The payload a document is built from; `id` may be undefined. */
  datatype InitState = InitState(
    id: Option<string>,
    lang: string,
    title: string,
    raw: string,
    readonly: bool,
    versioned: bool)

  /** Whether a document was created with an id of its own or generated one. */
  datatype Source = Local | Remote

  /** What `splitPreCode` returns when it succeeds: the fixed preamble and the editable body. */
  datatype PreCode = PreCode(pre: string, code: string)

  /** The snapshot returned by the `props` getter. */
  datatype DocumentProps = DocumentProps(
    id: string,
    codeId: string,
    code: string,
    pristineCode: string,
    createdAt: Timestamp,
    updatedAt: Timestamp,
    preCode: string,
    lang: string,
    isExecuting: bool,
    logs: seq<LogMessage>,
    isGraphicsmodalOpen: bool,
    hasGraphicsOutput: bool,
    hasTurtleOutput: bool,
    hasCanvasOutput: bool,
    hasEdits: bool,
    isLoaded: bool,
    status: Status,
    versionsLoaded: bool,
    isPasted: bool,
    showRaw: bool,
    versions: seq<Version>)

  // ---------------------------------------------------------------------------
  // codeId sanitisation
  // ---------------------------------------------------------------------------

  /** The characters the codeId must not contain. */
  predicate IsUnsafe(c: char)
  {
    c == '-' || c == '.'
  }

  /** A token free of `-` and `.`, usable as a DOM id and storage key. */
  predicate SafeToken(s: string)
  {
    forall i :: 0 <= i < |s| ==> !IsUnsafe(s[i])
  }

  /** Replaces every `-` and `.` by `_`, leaving all other characters in place. */
  function Sanitize(s: string): (r: string)
    ensures |r| == |s|
    ensures forall i :: 0 <= i < |s| ==> r[i] == (if IsUnsafe(s[i]) then '_' else s[i])
    ensures SafeToken(r)
  {
    if s == [] then []
    else [if IsUnsafe(s[0]) then '_' else s[0]] + Sanitize(s[1..])
  }

  /** Sanitising works character by character, so it distributes over concatenation. */
  lemma SanitizeAppend(a: string, b: string)
    ensures Sanitize(a + b) == Sanitize(a) + Sanitize(b)
  {
  }

  /** A string is left alone by sanitising exactly when it is already safe. */
  lemma SanitizeFixesExactlySafe(s: string)
    ensures Sanitize(s) == s <==> SafeToken(s)
  {
  }

  /** Sanitising twice is sanitising once. */
  lemma SanitizeIdempotent(s: string)
    ensures Sanitize(Sanitize(s)) == Sanitize(s)
  {
  }

  /** The alphabet of a uuid: no `_` and no `.`, so `-` is the only character mapped to `_`. */
  predicate UuidAlphabet(s: string)
  {
    forall i :: 0 <= i < |s| ==> s[i] != '_' && s[i] != '.'
  }

  /** On strings over the uuid alphabet sanitising loses no information. */
  lemma SanitizeInjectiveOnUuidAlphabet(s: string, t: string)
    requires UuidAlphabet(s) && UuidAlphabet(t)
    requires Sanitize(s) == Sanitize(t)
    ensures s == t
  {
  }

  /** The middle part of the codeId: the title, or the declared language when untitled. */
  function CodeIdLabel(title: string, lang: string): string
  {
    if title != "" then title else lang
  }

  /** The codeId before sanitising: `code.<label>.<id>`. */
  function CodeIdTemplate(title: string, lang: string, id: string): string
  {
    "code." + CodeIdLabel(title, lang) + "." + id
  }

  /** The codeId: the template with every `-` and `.` replaced by `_` in place. */
  function CodeId(title: string, lang: string, id: string): (r: string)
    ensures SafeToken(r)
    ensures |r| == |CodeIdTemplate(title, lang, id)|
    ensures forall i :: 0 <= i < |r| && !IsUnsafe(CodeIdTemplate(title, lang, id)[i]) ==>
              r[i] == CodeIdTemplate(title, lang, id)[i]
    ensures forall i :: 0 <= i < |r| && IsUnsafe(CodeIdTemplate(title, lang, id)[i]) ==> r[i] == '_'
    ensures |r| >= 6 && r[..5] == "code_"
  {
    Sanitize(CodeIdTemplate(title, lang, id))
  }

  /** The codeId splits into the sanitised label and the sanitised id. */
  lemma CodeIdDecomposes(title: string, lang: string, id: string)
    ensures CodeId(title, lang, id) == "code_" + Sanitize(CodeIdLabel(title, lang)) + "_" + Sanitize(id)
  {
  }

  /**
   Two documents with the same title and language but different uuid-shaped ids
   get different codeIds.
   */
  lemma CodeIdSeparatesIds(title: string, lang: string, id1: string, id2: string)
    requires UuidAlphabet(id1) && UuidAlphabet(id2)
    requires id1 != id2
    ensures CodeId(title, lang, id1) != CodeId(title, lang, id2)
  {
    var prefix := "code_" + Sanitize(CodeIdLabel(title, lang)) + "_";
    CodeIdDecomposes(title, lang, id1);
    CodeIdDecomposes(title, lang, id2);
    if CodeId(title, lang, id1) == CodeId(title, lang, id2) {
      assert prefix + Sanitize(id1) == prefix + Sanitize(id2);
      assert Sanitize(id1) == (prefix + Sanitize(id1))[|prefix|..];
      assert Sanitize(id2) == (prefix + Sanitize(id2))[|prefix|..];
      SanitizeInjectiveOnUuidAlphabet(id1, id2);
      assert false;
    }
  }

  // ---------------------------------------------------------------------------
  // The document record
  // ---------------------------------------------------------------------------

  /** A JavaScript-truthy id: present and non-empty. */
  predicate HasSuppliedId(init: InitState)
  {
    init.id.Some? && init.id.value != ""
  }

  datatype Document = Document(
    id: string,
    codeId: string,
    source: Source,
    declaredLang: string,
    pristineCode: string,
    createdAt: Timestamp,
    updatedAt: Timestamp,
    code: string,
    preCode: string,
    isExecuting: bool,
    showRaw: bool,
    isLoaded: bool,
    status: Status,
    versions: seq<Version>,
    logs: seq<LogMessage>)

  /** The `lang` getter: the declared tag, with `py` reported as `python`. */
  function Lang(d: Document): (l: string)
    ensures l != "py"
    ensures l == "python" <==> d.declaredLang == "py" || d.declaredLang == "python"
    ensures d.declaredLang != "py" ==> l == d.declaredLang
  {
    if d.declaredLang == "py" then "python" else d.declaredLang
  }

  /** Replaces the editable body; the edit action tag has no effect. */
  function SetCode(d: Document, raw: string, action: Option<string>): (d': Document)
    ensures d'.code == raw
    ensures UnchangedExceptCode(d, d')
  {
    d.(code := raw)
  }

  /**
   The `props` snapshot handed to storage: identity, content and load state
   mirror the document, while language, status and every flag are fixed values.
   */
  function Props(d: Document): (p: DocumentProps)
    ensures p.id == d.id && p.codeId == d.codeId
    ensures p.code == d.code && p.pristineCode == d.pristineCode && p.preCode == d.preCode
    ensures p.createdAt == d.createdAt && p.updatedAt == d.updatedAt
    ensures p.isLoaded == d.isLoaded && p.versions == d.versions
    ensures p.lang == "python" && p.status == Idle
    ensures !p.isExecuting && p.logs == [] && !p.showRaw
    ensures !p.hasEdits && p.isPasted && !p.versionsLoaded
    ensures !p.isGraphicsmodalOpen && !p.hasGraphicsOutput && !p.hasTurtleOutput && !p.hasCanvasOutput
  {
    DocumentProps(
      id := d.id,
      codeId := d.codeId,
      code := d.code,
      pristineCode := d.pristineCode,
      createdAt := d.createdAt,
      updatedAt := d.updatedAt,
      preCode := d.preCode,
      lang := "python",
      isExecuting := false,
      logs := [],
      isGraphicsmodalOpen := false,
      hasGraphicsOutput := false,
      hasTurtleOutput := false,
      hasCanvasOutput := false,
      hasEdits := false,
      isLoaded := d.isLoaded,
      status := Idle,
      versionsLoaded := false,
      isPasted := true,
      showRaw := false,
      versions := d.versions)
  }

  /** Every field other than `code` agrees between `a` and `b`. */
  predicate UnchangedExceptCode(a: Document, b: Document)
  {
    && a.id == b.id
    && a.codeId == b.codeId
    && a.source == b.source
    && a.declaredLang == b.declaredLang
    && a.pristineCode == b.pristineCode
    && a.createdAt == b.createdAt
    && a.updatedAt == b.updatedAt
    && a.preCode == b.preCode
    && a.isExecuting == b.isExecuting
    && a.showRaw == b.showRaw
    && a.isLoaded == b.isLoaded
    && a.status == b.status
    && a.versions == b.versions
    && a.logs == b.logs
  }

  /** What holds of a document from construction on: its codeId is a safe `code_` token. */
  predicate Valid(d: Document)
  {
    SafeToken(d.codeId) && |d.codeId| >= 5 && d.codeId[..5] == "code_"
  }

  /** The flags a freshly built document starts with. */
  predicate InitialFlags(d: Document)
  {
    && !d.isExecuting
    && !d.showRaw
    && d.isLoaded
    && d.status == Idle
    && d.versions == []
    && d.logs == []
  }

  /**
   The constructor. `freshId` is what the uuid generator would return, used
   only when the payload has no truthy id; `splitPreCode` is the external
   preamble splitter, `None` where it throws; `createdAt`/`updatedAt` are the
   clock readings. A throwing splitter aborts construction: no document.
   */
  function NewDocument(
    init: InitState,
    freshId: string,
    splitPreCode: string -> Option<PreCode>,
    createdAt: Timestamp,
    updatedAt: Timestamp): (r: Option<Document>)
    ensures r.None? <==> splitPreCode(init.raw).None?
    ensures r.Some? && HasSuppliedId(init) ==> r.value.id == init.id.value
    ensures r.Some? && !HasSuppliedId(init) ==> r.value.id == freshId
    ensures r.Some? ==> (r.value.source == Remote <==> HasSuppliedId(init))
    ensures r.Some? ==> r.value.declaredLang == init.lang
    ensures r.Some? ==> r.value.code == r.value.pristineCode == splitPreCode(init.raw).value.code
    ensures r.Some? ==> r.value.preCode == splitPreCode(init.raw).value.pre
    ensures r.Some? ==> r.value.codeId == CodeId(init.title, init.lang, r.value.id)
    ensures r.Some? ==> r.value.createdAt == createdAt && r.value.updatedAt == updatedAt
    ensures r.Some? ==> InitialFlags(r.value)
    ensures r.Some? ==> Valid(r.value)
  {
    match splitPreCode(init.raw)
    case None => None
    case Some(split) =>
      var id := if HasSuppliedId(init) then init.id.value else freshId;
      Some(Document(
        id := id,
        codeId := CodeId(init.title, init.lang, id),
        source := if HasSuppliedId(init) then Remote else Local,
        declaredLang := init.lang,
        pristineCode := split.code,
        createdAt := createdAt,
        updatedAt := updatedAt,
        code := split.code,
        preCode := split.pre,
        isExecuting := false,
        showRaw := false,
        isLoaded := true,
        status := Idle,
        versions := [],
        logs := []))
  }

  // ---------------------------------------------------------------------------
  // Properties relating several operations
  // ---------------------------------------------------------------------------

  /** A fresh document has no edits: its code is the body of the split raw source. */
  lemma NewDocumentCodeIsPristine(
    init: InitState, freshId: string, splitPreCode: string -> Option<PreCode>, c: Timestamp, u: Timestamp)
    ensures var r := NewDocument(init, freshId, splitPreCode, c, u);
      r.Some? ==> Some(PreCode(r.value.preCode, r.value.code)) == splitPreCode(init.raw)
                  && r.value.code == r.value.pristineCode
  {
  }

  /** `SetCode` keeps a document valid. */
  lemma SetCodePreservesValid(d: Document, raw: string, action: Option<string>)
    requires Valid(d)
    ensures Valid(SetCode(d, raw, action))
  {
  }

  /** Only the last of two edits is visible, whatever their action tags. */
  lemma SetCodeLastWriteWins(d: Document, a: string, b: string, x: Option<string>, y: Option<string>)
    ensures SetCode(SetCode(d, a, x), b, y) == SetCode(d, b, None)
  {
  }

  /** Writing back the current code leaves the document as it was. */
  lemma SetCodeCurrentIsNoOp(d: Document, action: Option<string>)
    ensures SetCode(d, d.code, action) == d
  {
  }

  /** The snapshot of an edited document differs from the old one in `code` alone. */
  lemma PropsAfterSetCode(d: Document, raw: string, action: Option<string>)
    ensures Props(SetCode(d, raw, action)) == Props(d).(code := raw)
  {
  }

  /** Normalising an already normalised tag is a no-op. */
  lemma LangIdempotent(d: Document)
    ensures Lang(d.(declaredLang := Lang(d))) == Lang(d)
  {
  }

  /**
   The snapshot's fixed language agrees with the `lang` getter exactly for
   Python documents.
   */
  lemma PropsLangAgreesWithLang(d: Document)
    ensures Props(d).lang == Lang(d) <==> d.declaredLang == "py" || d.declaredLang == "python"
  {
  }

  /** On a fresh document the snapshot's code, pristine code and preamble are the split raw source. */
  lemma PropsOfNewDocument(
    init: InitState, freshId: string, splitPreCode: string -> Option<PreCode>, c: Timestamp, u: Timestamp)
    requires splitPreCode(init.raw).Some?
    ensures var p := Props(NewDocument(init, freshId, splitPreCode, c, u).value);
      && p.code == p.pristineCode == splitPreCode(init.raw).value.code
      && p.preCode == splitPreCode(init.raw).value.pre
      && p.isLoaded && p.versions == []
  {
  }

  /**
   An untitled block keys its codeId on the declared tag, not on the
   normalised one: `py` and `python` blocks with the same id get different codeIds.
   */
  lemma CodeIdUsesDeclaredTag(id: string)
    ensures CodeId("", "py", id) != CodeId("", "python", id)
  {
    assert |CodeIdTemplate("", "py", id)| < |CodeIdTemplate("", "python", id)|;
  }
}
