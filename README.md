# Notes app core, modelled in Dafny

A note-taking web app keeps a list of notes, newest first, in its root
component (`src/app.tsx`): creating a note puts it at the front, deleting
removes every note with a given id, and after every change the whole list is
written to local storage as one value. The visible list is a
case-insensitive substring search over note contents. An empty query
shows every note. A "new note" card (`src/components/New.card.tsx`) captures
content either typed or dictated. Its three state variables are
`option` (mode chooser shown), `content` (the buffer) and `isRecording`. The
speech recogniser is a module-level variable. On every result the recogniser
reports, the buffer is rebuilt from all results so far.

Files:

- `wrappers.dfy` (`Wrappers`): `Option`.
- `seqs.dfy` (`Seqs`): `Filter`, the order-preserving filter of
  `Array.prototype.filter`, with its characterisation: membership, per-element
  multiplicity and subsequence. Also identity when all elements pass,
  idempotence and congruence.
- `text.dfy` (`Text`): lower-casing and `String.prototype.includes`. `Includes`
  is proved equal to "occurs at some offset".
- `notes.dfy` (`Notes`): the `Note` record and the pure list operations
  (`Prepend`, `RemoveId`, `Search`) with their lemmas. It also holds the class
  `App` with `notes`, a ghost `stored` (the value in local storage) and
  `search`, and `SubmitNote`, which wires the card's save to `App.OnNoteCreated`.
- `new_card.dfy` (`Capture`): the card state as a value `CardState`, one pure
  transition per handler, the transcript fold `Transcript` and its lemmas.
  The class `NewCard` has methods whose contract is
  `State() == <transition>(old(State()))`.

## Model

| member | source | states |
|---|---|---|
| Seqs.Filter | src/app.tsx:38-40 | the result is no longer than the input; it holds an element iff the input holds it and the predicate accepts it |
| Seqs.FilterIsSubsequence | src/app.tsx:38-40 | the filter keeps the input's order (the result is a subsequence of it) |
| Seqs.FilterCount | src/app.tsx:38-40 | every accepted value occurs as often as in the input, every rejected one not at all |
| Seqs.FilterAllKept | src/app.tsx:38-40 | when every element is accepted the filter returns its input unchanged |
| Seqs.FilterIdempotent | src/app.tsx:38-40 | filtering twice with one predicate equals filtering once |
| Seqs.FilterCongruent | src/app.tsx:52 | predicates that agree on the input's elements give the same result |
| Text.Lower | src/app.tsx:52 | upper-case ASCII letters map to their lower-case letters, all other characters are kept |
| Text.LowerCaseNoUpper | src/app.tsx:52 | a string without upper-case letters is its own lower-case form |
| Text.LowerCaseIdempotent | src/app.tsx:52 | lower-casing a lower-cased string changes nothing |
| Text.IncludesIff | src/app.tsx:52 | `includes` holds exactly when the query occurs at some offset of the text (both directions) |
| Text.IncludesKeepsCharacters | src/app.tsx:52 | every character of a contained query occurs in the text |
| Text.LowerCaseExamples | src/app.tsx:52 | "Buy milk" lower-cases to "buy milk"; "milk" and "bread" are already lower case |
| Text.MilkInBuyMilk | src/app.tsx:52 | "buy milk" includes "milk" |
| Text.BreadNotInBuyMilk | src/app.tsx:52 | "buy milk" does not include "bread" |
| Text.IncludesEmpty | src/app.tsx:52 | the empty string is contained in every text |
| Notes.Prepend | src/app.tsx:30 | the new list is one longer, starts with the new note and continues with the old list unchanged |
| Notes.PrependKeepsIdsUnique | src/app.tsx:25-30 | unique ids plus an unused new id give unique ids after creation |
| Notes.RemoveId | src/app.tsx:37-40 | the result is a subsequence of the list and holds exactly the notes whose id differs, each as often as before |
| Notes.RemoveAbsentId | src/app.tsx:38-40 | deleting an id no note carries leaves the list unchanged |
| Notes.RemoveIdIdempotent | src/app.tsx:38-40 | deleting the same id twice equals deleting it once |
| Notes.RemoveUniqueId | src/app.tsx:38-40 | with unique ids, deleting a present id shortens the list by exactly one |
| Notes.RemoveKeepsIdsUnique | src/app.tsx:38-40 | deletion keeps ids unique |
| Notes.Search | src/app.tsx:52 | the empty query returns the list itself; any query returns a subsequence holding exactly the notes whose lower-cased content includes the lower-cased query (sound and complete), with their multiplicities |
| Notes.SearchIgnoresQueryCase | src/app.tsx:52 | searching for a query and for its lower-cased form gives the same list |
| Notes.MilkMatchesBuyMilk | src/app.tsx:52 | the query "milk" matches the content "Buy milk" |
| Notes.BreadMissesBuyMilk | src/app.tsx:52 | the query "bread" does not match the content "Buy milk" |
| Notes.BuyMilkScenario | src/app.tsx:23-52 | after creating "Buy milk": searching "milk" shows it, searching "bread" shows nothing, deleting its id leaves an empty list |
| Notes.Load | src/app.tsx:13-20 | start-up restores the stored list, or the empty list when nothing is stored |
| Notes.App.constructor | src/app.tsx:13-21 | the list is the restored one, storage is untouched, the query is empty |
| Notes.App.OnNoteCreated | src/app.tsx:23-35 | the list becomes the new note (with exactly the given content) followed by the old list; storage then holds the new list; the query is kept; unique ids stay unique |
| Notes.App.OnNoteDeleted | src/app.tsx:37-44 | the list becomes `RemoveId` of the old list; storage then holds the new list; the query is kept; unique ids stay unique |
| Notes.App.HandleSearch | src/app.tsx:46-50 | the query becomes the typed text; list and storage are unchanged, so reloading still restores the list iff it did before |
| Notes.App.FilteredNotes | src/app.tsx:52 | the shown list is the whole list for the empty query, and otherwise the notes matching the query, in list order, each as often as in the list |
| Notes.SubmitNote | src/components/New.card.tsx:29-43 | saving an empty buffer leaves the list and storage unchanged; saving a non-empty buffer creates exactly one note with that content at the front and stores the list |
| Capture.Initial | src/components/New.card.tsx:13-15 | a mounted card shows the chooser, has an empty buffer and is not recording |
| Capture.StartEditor | src/components/New.card.tsx:17-19 | the chooser is hidden and nothing else changes |
| Capture.ContentChange | src/components/New.card.tsx:21-27 | the buffer becomes the new value; the chooser is shown iff the value is empty or it was already shown; recording is untouched |
| Capture.SaveNote | src/components/New.card.tsx:29-43 | an empty buffer: no note and no state change; otherwise the buffer is emitted once, then cleared and the chooser shown; recording is untouched |
| Capture.NewRecognizer | src/components/New.card.tsx:59-81 | the recogniser is set to "pt-BR", continuous, one alternative, interim results, and started |
| Capture.StartRecording | src/components/New.card.tsx:45-67 | without the speech API nothing changes; with it recording is on, the chooser hidden, the buffer kept and a new configured recogniser replaces the old one |
| Capture.StopRecording | src/components/New.card.tsx:84-90 | recording is off; a recogniser, if any, is stopped, and none is created; buffer and chooser are kept |
| Capture.TranscriptAppend | src/components/New.card.tsx:70-72 | the transcript of two result lists in a row is their transcripts joined |
| Capture.TranscriptSingle | src/components/New.card.tsx:70-72 | one result contributes its first alternative |
| Capture.TranscriptFront | src/components/New.card.tsx:70-72 | the transcript is the first result's first alternative followed by the transcript of the rest, i.e. all first alternatives in order |
| Capture.ResultEvent | src/components/New.card.tsx:69-75 | the buffer becomes the transcript of all results so far; nothing else changes |
| Capture.ResultEventsReplace | src/components/New.card.tsx:69-75 | after two result events the buffer is the second event's transcript (replace, not append) |
| Capture.HelloWorldScenario | src/components/New.card.tsx:69-75 | events "hello" then "hello world" (one or two segments) leave the buffer "hello world" |
| Capture.StopRecordingIdempotent | src/components/New.card.tsx:84-90 | stopping twice equals stopping once |
| Capture.CallMomScenario | src/components/New.card.tsx:29-90 | start dictation, hear "call mo" then "call mom", stop, save: the note emitted is "call mom" |
| Capture.NewCard.constructor | src/components/New.card.tsx:12-15 | the card starts in the initial state; the module-level recogniser keeps its value |
| Capture.NewCard.HandleStartEditor | src/components/New.card.tsx:17-19 | the new state is `StartEditor` of the old one |
| Capture.NewCard.HandleContentChange | src/components/New.card.tsx:21-27 | the new state is `ContentChange` of the old one |
| Capture.NewCard.HandleSaveNote | src/components/New.card.tsx:29-43 | the new state and the emitted content are `SaveNote` of the old state |
| Capture.NewCard.HandleStartRecording | src/components/New.card.tsx:45-82 | the new state is `StartRecording` of the old one |
| Capture.NewCard.OnResult | src/components/New.card.tsx:69-75 | the new state is `ResultEvent` of the old one |
| Capture.NewCard.HandleStopRecording | src/components/New.card.tsx:84-90 | the new state is `StopRecording` of the old one |

## Behaviour of the code worth noting

The model keeps these behaviours of the code, which a reader might expect to be otherwise:

- Start-up does not catch a parse failure (`src/app.tsx:17`), so corrupt storage
  does not degrade to an empty list. `Load` takes the already-parsed value.
- There is no cancel-dictation operation. There are no session states
  Idle/Stopped beyond the `isRecording` flag.
- A result event after stopping still replaces the buffer.
  `ResultEvent` has no guard on `isRecording`, as the callback has none.
- Starting a recording while a recogniser exists does not stop the old one.
  The new recogniser just replaces it (`StartRecording`).
- The buffer is not trimmed before the emptiness check. Whitespace-only notes
  are saved.
- Saving while recording does not stop the recogniser. `SaveNote` leaves
  `isRecording` and the recogniser as they were. In the rendered card the save
  button is only offered while not recording.

## Left out

- Rendering, the dialog, the toast after saving and the alert when the speech
  API is missing (`src/components/New.card.tsx:92-157`, `src/app.tsx:54-76`):
  presentation.
- Local storage and JSON serialisation: storage is the ghost field
  `App.stored`, holding the list itself. An absent or empty stored item is
  `None`.
- `crypto.randomUUID()` and `new Date()`: the id and date are parameters of
  `OnNoteCreated` and `SubmitNote`. Their precondition that the id is unused
  stands for the uniqueness of generated UUIDs. Dates are plain integers.
- `toLocaleLowerCase` is locale-sensitive and covers all of Unicode. `Lower`
  folds only the ASCII letters A-Z.
- The browser speech recognition API is foreign and event-driven. Whether it
  exists is the boolean `available`. An event's result list is a
  `seq<seq<string>>` of alternatives' transcripts (confidences dropped). The
  recogniser is a value recording its settings and whether it listens.
  `onerror` only logs and is not modelled.
- Recognizer.listening tracks only the card's own `start()` and `stop()`
  calls. The browser may end recognition by itself (a no-speech timeout, an
  error); the code has no `onend` handler, so `isRecording` stays true, as in
  the model, but `listening` is then not updated.
- Capture.NewCard.OnResult: requires every result to carry at least one
  alternative (`result[0]` would throw otherwise; the API always supplies one).
- The module-level `speechRecognition` variable is a field of the card,
  because only one card is ever mounted. Its value at mount is a constructor
  parameter.
- React's batching of state updates and closures over stale state are not
  modelled. Handlers run one at a time on the current state.
- The `Card` component that renders a note and triggers deletion is not part
  of this model.
