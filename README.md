# Medical co-pilot: session, relay and PDF model

A verified Dafny model of the logic inside a small clinical-note assistant.
The browser client records or types a consultation transcript. It sends the
transcript to a relay. The relay forwards it to a language-model service and
answers with structured JSON: the dialogue split by speaker, a probable
diagnosis, suggested exams and medications. The client shows the result,
keeps a newest-first history per doctor in browser storage, and can export a
consultation as a PDF.

Three parts are modelled:

- `session.dfy`, module `Session` (frontend/src/App.tsx): the component's state as the class `App`.
  Its fields are the doctor name, the logged-in user, the view, the history, the
  microphone flag, the transcript, the result, the loading flag, and browser
  storage as a map from key to stored list. Each event handler is one method.
  The invariant `Synced()` says that while someone is logged in, the history in
  memory is the list stored under `"history_" + user`. The specification
  functions `WithoutId` (delete), `FinalText` (speech events), `Trim` and
  `StorageKey` carry the lemmas.
- `relay.dfy`, module `Relay` (backend/src/server.ts): the `POST /api/diagnose`
  handler as a pure function of the request's `text`, the downstream outcome
  and the JSON parser. It returns the downstream requests it issued and the
  response it sent.
- `medical_pdf.dfy`, module `MedicalPdf` (frontend/src/components/MedicalPDF.tsx):
  the ordered text lines of the exported document, each with its style and its
  JSX children, or the TypeError the JSX would throw.
- `json.dfy` gives JavaScript values and their truthiness. `wrappers.dfy` gives Option and Result.

Three behaviours of the code worth stating:

- `fetch` rejects only on a network failure. A 400 or 500 answer from the relay
  is therefore read, shown as the result and saved as a consultation
  (`Session.App.Analyze`). Only a thrown call leaves history and storage untouched.
- Logging in does not clear the draft transcript or result. Logging out does.
- Logging out leaves the previous user's list in memory. The next login replaces it.

## Model

| member | source | states |
|---|---|---|
| `Session.StorageKey` | frontend/src/App.tsx:34 | the key is `"history_"` followed by the user name, untrimmed; with no user it is `"history_null"` |
| `Session.Stored` | frontend/src/App.tsx:34-39 | the list read for a key is the stored list, or [] when nothing is stored under it |
| `Session.StorageKeyInjective` | frontend/src/App.tsx:34 | two user names share a storage key exactly when they are equal, so `" A"` and `"A"` are kept apart |
| `Session.TrimStart` | frontend/src/App.tsx:70 | the result is a suffix of the input, everything dropped before it is white space, and it is empty or starts with a non-white-space character |
| `Session.TrimEnd` | frontend/src/App.tsx:70 | the result is a prefix of the input, everything dropped after it is white space, and it is empty or ends with a non-white-space character |
| `Session.TrimStartEmptyIffBlank` | frontend/src/App.tsx:70 | stripping leading white space leaves nothing exactly when the string is all white space |
| `Session.TrimEndKeepsFirst` | frontend/src/App.tsx:70 | stripping trailing white space never removes a leading non-white-space character |
| `Session.Trim` | frontend/src/App.tsx:70 | `doctorName.trim()` is empty exactly when the name is all ECMAScript white space; otherwise it starts and ends with a non-white-space character |
| `Session.WithoutId` | frontend/src/App.tsx:125 | the filtered history is no longer than the old one and holds exactly the old records whose id differs |
| `Session.WithoutIdAppend` | frontend/src/App.tsx:125 | the filter distributes over concatenation, so the kept records stay in their original order |
| `Session.WithoutAbsentId` | frontend/src/App.tsx:124-127 | deleting an id that no record carries leaves the history unchanged |
| `Session.RecordThenDeleteRestores` | frontend/src/App.tsx:113-125 | prepending a record with a fresh id and then deleting that id gives back the old history |
| `Session.FinalText` | frontend/src/App.tsx:54-59 | one event appends nothing exactly when none of its segments is final |
| `Session.FinalTextAppend` | frontend/src/App.tsx:54-59 | the text one event appends is the text of its first segments followed by that of the rest |
| `Session.InterimIgnored` | frontend/src/App.tsx:55-58 | an interim segment, wherever it stands and whatever it says, adds nothing to the transcript |
| `Session.App.constructor` | frontend/src/App.tsx:18-29 | the first render is logged out, on the new-consultation view, with an empty draft and history, over the existing storage |
| `Session.App.EditDoctorName` | frontend/src/App.tsx:153 | the login input sets the doctor name |
| `Session.App.LoadHistory` | frontend/src/App.tsx:32-41 | with a user logged in (a non-empty name, as `if (currentUser)` tests), history becomes the list stored under that user's key, or [] when nothing is stored; with nobody logged in, nothing changes |
| `Session.App.Login` | frontend/src/App.tsx:68-72 | a blank name changes nothing; otherwise the untrimmed name becomes the user, and a changed user's stored list is loaded, keeping `Synced()` |
| `Session.App.Logout` | frontend/src/App.tsx:74-79 | user, doctor name, result and transcript are cleared; storage is untouched |
| `Session.App.ToggleMic` | frontend/src/App.tsx:81-91 | with no recognizer nothing changes; while recording, recording stops; otherwise transcript and result are cleared and recording is on exactly when `start()` returned normally |
| `Session.App.OnResult` | frontend/src/App.tsx:52-61 | the transcript becomes the old transcript followed by `" " + text` for each final segment from `resultIndex` on, in order |
| `Session.App.OnEnd` | frontend/src/App.tsx:62 | the end of recognition turns recording off |
| `Session.App.EditTranscript` | frontend/src/App.tsx:231 | a manual edit replaces the transcript |
| `Session.App.Analyze` | frontend/src/App.tsx:93-122 | an empty transcript changes nothing. A thrown call changes only `loading`, which ends false. Any answered body becomes the result and the head of the history; the old records keep their order; storage is rewritten at the user's key only; `Synced()` is preserved |
| `Session.App.DeleteItem` | frontend/src/App.tsx:124-128 | history becomes `WithoutId(old history, id)`; storage is rewritten at the user's key only; afterwards memory and storage agree |
| `Session.App.StartNewConsultation` | frontend/src/App.tsx:183 | "Nova Consulta" shows the capture view with an empty transcript and no result |
| `Session.App.ShowHistory` | frontend/src/App.tsx:186 | "Histórico" shows the history view |
| `Session.SwitchingUsersKeepsHistory` | frontend/src/App.tsx:32-41 | logging in as A, out, in as B, out, and in as A again shows A the list stored for A, and storage is unchanged |
| `Session.AnalyzeThenDeleteRestores` | frontend/src/App.tsx:113-127 | for a logged-in user, analyzing and then deleting the new record restores the history and the list stored under the user's key; every other key is unchanged |
| `Relay.CompletionFor` | backend/src/server.ts:27-55 | the downstream request has temperature 0.1 and a `json_object` response format; its messages are the fixed system prompt followed by one user message equal to `text` |
| `Relay.FailureBody` | backend/src/server.ts:68 | the 500 body is an object with `error: "Erro na IA"`; it has a `details` key exactly when the thrown value has a message, and then holds that message; no other key |
| `Relay.Classify` | backend/src/server.ts:22-64 | a request is refused for input exactly when `text` is falsy, fails upstream exactly when the call threw, and is answered exactly when the content is non-empty and parses |
| `Relay.Diagnose` | backend/src/server.ts:19-70 | a falsy `text` gives 400 with the fixed error body and no downstream request. Otherwise exactly one request is sent. The answer is 200 with the parsed value unchanged exactly when the content is non-empty and parses, and 500 with `error: "Erro na IA"` in every other case |
| `Relay.StatusIsDocumented` | backend/src/server.ts:22-68 | the status is always 200, 400 or 500 |
| `Relay.EmptyCompletionLooksLikeThrow` | backend/src/server.ts:59-64 | empty or null content answers exactly like a call that threw "Resposta vazia" |
| `Relay.MalformedCompletionLooksLikeThrow` | backend/src/server.ts:60-68 | content that fails to parse answers exactly like a call that threw the parser's message |
| `Relay.FailureDetails` | backend/src/server.ts:66-68 | each 500 body has `error: "Erro na IA"`. `details` is "Resposta vazia", the parser's message or the thrown message, and is omitted when the thrown value has no message |
| `Relay.MissingTextIgnoresDownstream` | backend/src/server.ts:22 | with a falsy `text`, the answer does not depend on the downstream service or the parser |
| `MedicalPdf.UtteranceLines` | frontend/src/components/MedicalPDF.tsx:48-53 | the lines succeed exactly when no utterance is null; then there is one line per utterance, in order |
| `MedicalPdf.Bullets` | frontend/src/components/MedicalPDF.tsx:67-69 | one line `• item` per medication, in order |
| `MedicalPdf.DialogueSection` | frontend/src/components/MedicalPDF.tsx:48-56 | the chat box renders exactly when the dialogue is falsy or an array with no null utterance; a falsy dialogue gives the raw transcript as the single line; an array gives one line per utterance |
| `MedicalPdf.MedicationSection` | frontend/src/components/MedicalPDF.tsx:67-69 | the medication list renders exactly when the field is nullish or an array, with one line per item and none for a nullish field |
| `MedicalPdf.Render` | frontend/src/components/MedicalPDF.tsx:27-79 | a falsy `data` gives the lone "Carregando..." line; a rendered truthy `data` has at least eight lines and ends with the disclaimer; the lemmas below state the rest |
| `MedicalPdf.Page` | frontend/src/components/MedicalPDF.tsx:30-79 | the page holds the header, the transcript label, the dialogue lines, the diagnosis label and line, the medication label, the medication lines and the disclaimer, in that order |
| `MedicalPdf.LoadingIffFalsy` | frontend/src/components/MedicalPDF.tsx:27-28 | the document is the lone "Carregando..." line exactly when `data` is falsy. For truthy `data`, rendering fails exactly on the shapes where the JSX throws |
| `MedicalPdf.DialogueLinesInOrder` | frontend/src/components/MedicalPDF.tsx:48-53 | a dialogue array gives exactly one line per utterance between the two labels, in order, with children `falante`, `": "`, `texto`; each line has the doctor style when `falante == "Médico"` and the patient style for every other speaker |
| `MedicalPdf.EmptyDialogueHasNoLines` | frontend/src/components/MedicalPDF.tsx:48 | an empty dialogue array is truthy, so it gives no lines and no transcript fallback |
| `MedicalPdf.TranscriptFallback` | frontend/src/components/MedicalPDF.tsx:54-56 | without a truthy dialogue, the raw transcript is the single line between the two labels |
| `MedicalPdf.DiagnosisAndMedications` | frontend/src/components/MedicalPDF.tsx:60-70 | the diagnosis line follows its label; the medication lines are one bullet per item, in order, or none when the field is absent; the disclaimer comes last |
| `MedicalPdf.DoctorNameInHeaderAndDisclaimer` | frontend/src/components/MedicalPDF.tsx:37-74 | the doctor's name is a child of the subtitle line and of the disclaimer line |
| `MedicalPdf.RenderReadsThreeFields` | frontend/src/components/MedicalPDF.tsx:27-79 | for truthy data, the document depends only on the dialogue, medication and diagnosis fields |
| `MedicalPdf.IgnoredFields` | frontend/src/components/MedicalPDF.tsx:60-70 | changing `exames_sugeridos` or `doencas_associadas` never changes the document |

## Left out

- Markup, styles, icons, the logo image and fonts are presentation. The PDF binary and the renderer's turning of a child value into glyphs are also left out. A line keeps its JSX children as values.
- frontend/src/main.tsx only mounts the React root and holds no logic.
- The language-model client, Express, CORS, dotenv and `app.listen` are left out. The `console.log` of each request and the `console.error` of each failure in backend/src/server.ts are output only and change no answer. The downstream call is the `Downstream` outcome. `JSON.parse` is a parameter of `Relay.Diagnose`. The model name is a constant that nothing checks.
- A completion with no choices is not a case of its own. The resulting TypeError is caught like any throw, so it falls under `Threw`.
- `JSON.stringify`/`JSON.parse` of the history and `localStorage` itself are modelled as identity. A stored list stands for its JSON text. A storage write failure is not modelled.
- `Date.now()` and `toLocaleString` are left out. The id and date are parameters of `Session.App.Analyze`. The PDF date is the `today` parameter of `MedicalPdf.Render`.
- The speech engine is left out. An event is a `resultIndex` and a list of (final, text) segments. `recognition.start()` throwing is the `startSucceeds` parameter. The stop call and the alerts have no state to model.
- `async` interleavings are left out, along with React's batched updates and the stale `history` captured by `analyze`. Each handler is one atomic step, so `loading` is seen only at its final value.
- `Session.App.Analyze` and `Session.App.DeleteItem` are not guarded against a logged-out call. In that case the model writes to `"history_null"`, as the template literal would. The source only offers their buttons while someone is logged in.
- JavaScript numbers are reals, so NaN and -0 are not modelled. `null` and `undefined` are one value. Only an object's own fields are read, since no key the program reads is a built-in property.
