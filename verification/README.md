# Live-code document model

This project models the core of a Docusaurus live-code plugin: the `Document` record behind one
editable Python code block, and the `DocumentStore` that carries a click counter. In the source
both are MobX observable classes. Here they are immutable Dafny datatypes:

- the constructor becomes the pure function `Documents.NewDocument`;
- the getters (`lang`, `pristineCode`, `props`) become pure functions or fields;
- the two real actions, `setCode` and `setClicks`, become functions that return an updated copy.

Modules:

- `Wrappers` (wrappers.dfy): `Option`, which stands for a TypeScript `T | undefined`.
- `Documents` (documents.dfy): the `Document` record from src/models/Document.ts. This covers its
  `Status` enum, the `InitState` payload, the `props` snapshot, codeId sanitisation, the `lang`
  normaliser, the constructor and `setCode`.
- `DocumentStores` (document_stores.dfy): the `DocumentStore` from src/stores/documentStore.ts.
- `ScriptContexts` (script_contexts.dfy): the step in which the script context component creates a
  document. It is modelled only to state the finding below.

Collaborators that cannot be seen become parameters of `NewDocument`:

- `splitPreCode` from the docusaurus-live-brython package is an arbitrary function
  `string -> Option<PreCode>`, where `None` stands for a throw; a throw aborts the constructor, so
  `NewDocument` then returns `None`, and every other property holds for any splitter;
- `uuidv4()` is the string `freshId`;
- the two `new Date()` readings are the timestamps `createdAt` and `updatedAt`.

The JavaScript `props.id || uuidv4()` and `props.id ? 'remote' : 'local'` test truthiness. An id
counts as supplied (`HasSuppliedId`) when it is present and non-empty.

What the code does not do, and the model therefore does not either:

- `Document` keeps no execution state: `execScript`, `stopScript` and the log actions have empty bodies;
- `hasEdits` is the constant `false`, not `code != pristineCode`;
- the graphics flags are the constant `false`, not derived from the logs;
- the shown `DocumentStore` holds no documents and defines no `find` or `addDocument`.

## Model

| member | source | states |
|---|---|---|
| Documents.StatusNameInjective | src/models/Document.ts:6-11 | The four `Status` string values are pairwise distinct, so a status can be recovered from its name |
| Documents.Sanitize | src/models/Document.ts:107 | The result has the input's length. At each position `-` and `.` become `_` and every other character is kept. The result contains no `-` or `.` |
| Documents.SanitizeAppend | src/models/Document.ts:107 | Replacing characters distributes over concatenation |
| Documents.SanitizeFixesExactlySafe | src/models/Document.ts:107 | A string is left unchanged exactly when it contains no `-` or `.` (both directions) |
| Documents.SanitizeIdempotent | src/models/Document.ts:107 | Sanitising an already sanitised codeId changes nothing |
| Documents.SanitizeInjectiveOnUuidAlphabet | src/models/Document.ts:96-107 | On strings without `_` or `.` (the uuid alphabet), sanitising is injective |
| Documents.CodeId | src/models/Document.ts:107 | The codeId contains no `-` or `.`. It has the length of `code.<title or lang>.<id>`. Each `-` or `.` in that template becomes `_` and every other character stays at its position. It starts with `code_` |
| Documents.CodeIdDecomposes | src/models/Document.ts:107 | The codeId is `code_`, then the sanitised title (or lang), then `_`, then the sanitised id |
| Documents.CodeIdSeparatesIds | src/models/Document.ts:96-107 | Documents with the same title and language but distinct uuid-shaped ids get distinct codeIds |
| Documents.CodeIdUsesDeclaredTag | src/models/Document.ts:107 | For any id, an untitled `py` block and an untitled `python` block get different codeIds: the template uses the declared tag `props.lang`, not the normalised `lang` getter |
| Documents.NewDocument | src/models/Document.ts:94-110 | Construction yields no document exactly when `splitPreCode` throws. Otherwise: the id is the payload's when it is truthy and the generated one otherwise. The source is `Remote` exactly when the payload id is truthy. `code` and `pristineCode` are the body half of the split raw source and `preCode` is the prefix half. The codeId is `CodeId` of title, lang and id. The document starts not executing, not showing raw, loaded, `IDLE`, with no versions and no logs. Its codeId is valid |
| Documents.NewDocumentCodeIsPristine | src/models/Document.ts:103-106 | For a successfully built document, `(preCode, code)` is exactly what `splitPreCode` returned, and `code == pristineCode` |
| Documents.Lang | src/models/Document.ts:223-228 | The reported tag is never `py`. It is `python` exactly when the declared tag is `py` or `python`. Any tag other than `py` is returned unchanged |
| Documents.LangIdempotent | src/models/Document.ts:223-228 | Normalising an already normalised tag is a no-op |
| Documents.SetCode | src/models/Document.ts:151-154 | After `setCode(raw, action)`, `code == raw` for any action. Every other field is unchanged, including id, codeId, source, pristineCode, preCode, status, versions, logs and both timestamps |
| Documents.SetCodePreservesValid | src/models/Document.ts:151-154 | Editing keeps the codeId a safe `code_` token |
| Documents.SetCodeLastWriteWins | src/models/Document.ts:151-154 | Two consecutive edits equal the second edit alone, whatever the action tags |
| Documents.SetCodeCurrentIsNoOp | src/models/Document.ts:151-154 | Writing back the current code returns the same document |
| Documents.Props | src/models/Document.ts:112-137 | The snapshot copies id, codeId, code, pristineCode, preCode, both timestamps, isLoaded and versions. It always reports lang `python`, status `IDLE`, not executing, empty logs, showRaw false, hasEdits false, isPasted true, versionsLoaded false and all graphics flags false |
| Documents.PropsAfterSetCode | src/models/Document.ts:112-154 | The snapshot of an edited document differs from the old snapshot in `code` alone |
| Documents.PropsLangAgreesWithLang | src/models/Document.ts:122-228 | The snapshot's fixed `python` agrees with the `lang` getter exactly when the declared tag is `py` or `python` |
| Documents.PropsOfNewDocument | src/models/Document.ts:94-137 | When the splitter succeeds, the snapshot of the fresh document carries the split body as both code and pristine code and the split prefix as preCode. It is loaded and has no versions |
| DocumentStores.NewDocumentStore | src/stores/documentStore.ts:5-11 | A new store starts with `clicks == 0` and holds the root it was given |
| DocumentStores.SetClicks | src/stores/documentStore.ts:13-16 | After `setClicks(n)`, `clicks == n` and `root` is unchanged |
| DocumentStores.NewDocumentStoreIsReset | src/stores/documentStore.ts:7-16 | A new store equals any store for the same root with its counter set to 0 |
| DocumentStores.SetClicksLastWriteWins | src/stores/documentStore.ts:13-16 | `setClicks(a); setClicks(b)` gives the same store as `setClicks(b)` |
| DocumentStores.SetClicksIdempotent | src/stores/documentStore.ts:13-16 | Setting the same value twice is the same as setting it once |
| DocumentStores.SetClicksCurrentIsNoOp | src/stores/documentStore.ts:13-16 | Writing back the current count returns the same store |
| DocumentStores.IncrementThenDecrementRestores | src/pages/index.tsx:19-37 | The page's `+` then `-` buttons, in either order, restore the store while `clicks ± 1` stays within JavaScript's safe integers |
| ScriptContexts.ContextId | src/theme/CodeEditor/WithScript/ScriptContext.tsx:11 | The context's id is the payload's id when it is truthy and the fresh uuid otherwise |
| ScriptContexts.CreateAsWritten | src/theme/CodeEditor/WithScript/ScriptContext.tsx:11-20 | As written, creation fails exactly when the splitter throws. Given the component's (non-empty) uuid, the document's id is the context id and its source is `Remote`, even when the payload had no id |
| ScriptContexts.AsWrittenMarksGeneratedIdRemote | src/theme/CodeEditor/WithScript/ScriptContext.tsx:19 | A concrete payload without an id is created with source `Remote` |
| ScriptContexts.CreateCorrected | src/theme/CodeEditor/WithScript/ScriptContext.tsx:11-19 | Corrected creation, which passes the resolved id together with the payload's origin, fails exactly when the splitter throws, keeps the context id, and records source `Remote` exactly when the payload supplied a truthy id |
| ScriptContexts.CorrectedDiffersOnlyInSource | src/theme/CodeEditor/WithScript/ScriptContext.tsx:11-19 | For a non-empty component uuid, the as-written and corrected creations succeed together and agree on every field except `source` |
| ScriptContexts.PassingPayloadUnchangedLosesId | src/theme/CodeEditor/WithScript/ScriptContext.tsx:11-24 | Handing the constructor the unchanged payload is not a fix: when the payload has no id and the constructor draws a different uuid, the document's id is not the one the component looks up |

## Left out

- The empty-bodied actions `clearLogMessages`, `setExecuting`, `addLogMessage`, `execScript`, `saveNow`, `stopScript` and `closeGraphicsModal` (src/models/Document.ts:139-168, 207-209). Their bodies are empty, so each one leaves the document unchanged.
- The getters `hasGraphicsOutput`, `hasTurtleOutput`, `hasCanvasOutput`, `hasEdits`, `isGraphicsmodalOpen`, `isPasted` and `versionsLoaded` (src/models/Document.ts:170-204). Each one returns the constant `false`. The snapshot's own copies of these flags are modelled in `Documents.Props`. Note that `props` reports `isPasted: true` while the getter returns `false`.
- The `pristineCode` getter (src/models/Document.ts:218-221). It returns the stored field, which is the `pristineCode` field of the datatype.
- `Document.subscribe` (src/models/Document.ts:211-216) and `useScript`. Both wrap MobX `reaction` and React `useSyncExternalStore`, whose semantics are not part of this model.
- The document registry: `find` and `addDocument` are called by the script context but are not defined in the shown `DocumentStore`.
- `splitPreCode`: its implementation is in an external package, so it is kept as an arbitrary function parameter that may fail (`None`) on any input.
- uuid generation: kept as an opaque string parameter.
- `Date` readings: kept as integer timestamp parameters.
- The constructor's `libDir` argument, which the constructor never reads.
- The document's `store` back-reference, which no modelled member reads.
- rootStore.ts is not part of this model. The store's root is a type parameter.
- MobX observability, decorators and change notification.
- React components, plugin data loading and the `window.store` global.
- DocumentStores.SetClicks: `clicks` is a JavaScript number, modelled as an unbounded integer. Fractional, NaN and infinite values are not modelled.
- DocumentStores.IncrementThenDecrementRestores: holds only while `clicks - 1` and `clicks + 1` are safe integers; beyond 2^53 - 1 in magnitude the page's `±1` rounds and the count is not restored, which the unbounded-integer model cannot express.

## Findings

| source | as written | input that shows it | evidently intended | confidence | as-written member | corrected member |
|---|---|---|---|---|---|---|
| src/theme/CodeEditor/WithScript/ScriptContext.tsx:11-19 | The component resolves the id itself (the payload id if truthy, else `uuidv4()`) and passes `{...props, id: id}` to the constructor. The constructor therefore always sees a truthy id and records `source = 'remote'`. | A payload with `id: undefined` (for example lang `py`, title empty, raw `print(1)`) and uuid `5f0c-41` gives a document with source `Remote`. | A document whose id was generated is `local` (src/models/Document.ts:96-97). The component should keep passing the resolved id, which it needs for its lookups, and pass the origin read from the original payload alongside it for the constructor to record. Passing the payload unchanged is no fix: the constructor would then draw a second uuid that the lookups never find. | medium, not executed | ScriptContexts.CreateAsWritten, ScriptContexts.AsWrittenMarksGeneratedIdRemote | ScriptContexts.CreateCorrected, ScriptContexts.CorrectedDiffersOnlyInSource, ScriptContexts.PassingPayloadUnchangedLosesId |
