/**
 How the script context component creates a document
 (src/theme/CodeEditor/WithScript/ScriptContext.tsx): it resolves the id
 itself (the payload's id, else a uuid it draws), keys its lookups on that
 id, and hands the payload with that id to the `Document` constructor, which
 would draw a uuid of its own only if the id it receives is falsy.
 */
module ScriptContexts {
  import opened Wrappers
  import opened Documents

  /** The id the component keeps in its state and looks the document up by. */
  function ContextId(init: InitState, ctxUuid: string): (id: string)
    ensures HasSuppliedId(init) ==> id == init.id.value
    ensures !HasSuppliedId(init) ==> id == ctxUuid
  {
    if HasSuppliedId(init) then init.id.value else ctxUuid
  }

  /**
   Document creation as written: the payload's id is overwritten with the
   already-resolved context id before the constructor sees it. `ctxUuid` is
   the component's uuid draw, `ctorUuid` the constructor's.
   */
  function CreateAsWritten(
    init: InitState, ctxUuid: string, ctorUuid: string,
    splitPreCode: string -> Option<PreCode>, c: Timestamp, u: Timestamp): (r: Option<Document>)
    ensures r.None? <==> splitPreCode(init.raw).None?
    ensures r.Some? && ctxUuid != "" ==> r.value.id == ContextId(init, ctxUuid)
    ensures r.Some? && ctxUuid != "" ==> r.value.source == Remote
  {
    NewDocument(init.(id := Some(ContextId(init, ctxUuid))), ctorUuid, splitPreCode, c, u)
  }

  /** A payload without an id, and a uuid, for which the written code reports a remote origin. */
  lemma AsWrittenMarksGeneratedIdRemote()
    ensures var init := InitState(None, "py", "", "print(1)", false, false);
      var r := CreateAsWritten(init, "5f0c-41", "9b7e-02", s => Some(PreCode("", s)), 0, 0);
      !HasSuppliedId(init) && r.Some? && r.value.source == Remote
  {
  }

  /**
   Handing the constructor the payload unchanged is no fix: it draws its own
   uuid, so the document's id differs from the one the component looks up.
   */
  lemma PassingPayloadUnchangedLosesId(
    init: InitState, ctxUuid: string, ctorUuid: string,
    splitPreCode: string -> Option<PreCode>, c: Timestamp, u: Timestamp)
    requires !HasSuppliedId(init) && ctxUuid != ctorUuid
    requires splitPreCode(init.raw).Some?
    ensures NewDocument(init, ctorUuid, splitPreCode, c, u).value.id != ContextId(init, ctxUuid)
  {
  }

  /**
   Document creation as intended: the component still passes the resolved
   id, and passes alongside it the origin read from the original payload,
   which the constructor records instead of re-deriving it from the id.
   */
  function CreateCorrected(
    init: InitState, ctxUuid: string, ctorUuid: string,
    splitPreCode: string -> Option<PreCode>, c: Timestamp, u: Timestamp): (r: Option<Document>)
    ensures r.None? <==> splitPreCode(init.raw).None?
    ensures r.Some? && ctxUuid != "" ==> r.value.id == ContextId(init, ctxUuid)
    ensures r.Some? ==> (r.value.source == Remote <==> HasSuppliedId(init))
  {
    var origin := if HasSuppliedId(init) then Remote else Local;
    match NewDocument(init.(id := Some(ContextId(init, ctxUuid))), ctorUuid, splitPreCode, c, u)
    case None => None
    case Some(d) => Some(d.(source := origin))
  }

  /** The two creations succeed together and then differ in the recorded origin only. */
  lemma CorrectedDiffersOnlyInSource(
    init: InitState, ctxUuid: string, ctorUuid: string,
    splitPreCode: string -> Option<PreCode>, c: Timestamp, u: Timestamp)
    requires ctxUuid != ""
    ensures var w := CreateAsWritten(init, ctxUuid, ctorUuid, splitPreCode, c, u);
      var k := CreateCorrected(init, ctxUuid, ctorUuid, splitPreCode, c, u);
      w.Some? == k.Some? && (w.Some? ==> w.value == k.value.(source := Remote))
  {
  }
}
