# SmartMed client state and medication handlers, in Dafny

SmartMed is a medication-tracking mobile app backed by cloud functions. This project models
the two parts of it that carry behaviour of their own:

- **The client's Redux slices** (`mobile/src/store/slices`). Each slice is a record of lists,
  a counter and loading/error flags that its reducers edit in place. Each slice is a Dafny
  `class` whose fields are the slice state (`seq` for arrays, `Option` for `| null`), and each
  reducer is a method. A reducer's `ensures` gives the whole new state, and usually states it
  through a specification function over sequences. The lemmas about those functions state what
  the app relies on:
  - the alert slice's `unreadCount` always equals the number of unread alerts. `AlertStore.Valid()`
    is that invariant: the constructor and `SetAlerts` establish it, and every other reducer
    keeps it;
  - the OCR history holds at most ten sessions, newest first;
  - an update changes only the first element with the id, and never one without an id;
  - a medication or supplement delete (`RemoveAll`) removes exactly the elements with the id and
    keeps the rest in order; an alert delete (`DeleteFirst`) removes only the first alert with the
    id, and a later alert with the same id stays.
- **The medication/supplement callable handlers** (`functions/src/controllers/medicationController.ts`),
  modelled up to the point where each would call the document database. The payload is a
  JSON-like value (`Json.Value`) that includes JavaScript's `undefined` and truthiness. Each
  handler is a function that returns either the `HttpsError` code it raises or the database
  request it would issue. The guards run in this order: `unauthenticated`, then
  `invalid-argument`, then the write. One consequence of the code as written: the update and
  delete handlers read `data.id` before checking `data`. A `null` payload therefore throws a
  TypeError, which the functions runtime reports as `internal`. The add handlers call the
  validator first, so they reject `null` as `invalid-argument`. The model keeps this difference.

Modules: `Wrappers` (Option), `Severity`, `IdLists` (the list operations shared by the
slices), `AlertSlice`, `OcrSlice`, `MedicationSlice`, `SupplementSlice`, `InteractionSlice`,
`UserSlice`, `Json` and `MedicationController`.

Clock readings (`new Date().toISOString()`, `new Date()`) are parameters (`now`). The model
has no I/O and no randomness.

## Model

| member | source | states |
|---|---|---|
| `IdLists.FindIndex` | SmartMed/mobile/src/store/slices/medicationSlice.ts:43 | The result is -1 exactly when no element has the id. Otherwise it is an index whose element has the id and no earlier element has it. An element without an id never matches. |
| `IdLists.UpdateFirst` | SmartMed/mobile/src/store/slices/medicationSlice.ts:42-47 | The length is kept. Only the first element with the id can change, and it becomes `f` of itself. Nothing changes when no element has the id. |
| `IdLists.RemoveAt` | SmartMed/mobile/src/store/slices/alertSlice.ts:68 | `splice(i, 1)` drops element `i`. Elements before it stay in place, and those after it shift down by one in order. |
| `IdLists.RemoveAll` | SmartMed/mobile/src/store/slices/medicationSlice.ts:48-50 | The filter never lengthens the list, and no element of the result has the id. |
| `IdLists.RemoveAllAppend` | SmartMed/mobile/src/store/slices/medicationSlice.ts:49 | Filtering distributes over concatenation, so the surviving elements keep their relative order. |
| `IdLists.RemoveAllOccurrences` | SmartMed/mobile/src/store/slices/medicationSlice.ts:49 | Every element with the id is gone. Every other element, including each one without an id, keeps its number of occurrences. |
| `IdLists.RemoveAllUnchanged` | SmartMed/mobile/src/store/slices/medicationSlice.ts:49 | The filter leaves the list unchanged if and only if no element has the id. |
| `IdLists.RemoveAllIdempotent` | SmartMed/mobile/src/store/slices/medicationSlice.ts:48-50 | Deleting an id twice gives the same list as deleting it once. |
| `AlertSlice.UnreadCount` | SmartMed/mobile/src/store/slices/alertSlice.ts:36 | The number of unread alerts is at most the number of alerts. |
| `AlertSlice.UnreadCountZero` | SmartMed/mobile/src/store/slices/alertSlice.ts:36 | The unread count is zero if and only if every alert is read. |
| `AlertSlice.UnreadCountReplace` | SmartMed/mobile/src/store/slices/alertSlice.ts:46-60 | Replacing one alert changes the unread count only by that alert's change in read state. |
| `AlertSlice.UnreadCountRemoveAt` | SmartMed/mobile/src/store/slices/alertSlice.ts:61-70 | Splicing out one alert lowers the unread count by one exactly when that alert was unread. |
| `AlertSlice.MarkRead` | SmartMed/mobile/src/store/slices/alertSlice.ts:46-53 | Only the first alert with the id changes, and only when it is unread: it becomes read with `readAt = now`. An alert that is already read never changes, and ids are kept. The unread count drops by exactly one when the first match was unread, and by nothing otherwise. |
| `AlertSlice.MarkReadIdempotent` | SmartMed/mobile/src/store/slices/alertSlice.ts:46-53 | Marking the same id read a second time changes nothing, whatever the clock then says. |
| `AlertSlice.Acknowledge` | SmartMed/mobile/src/store/slices/alertSlice.ts:54-60 | Only the first alert with the id changes: it gets `isAcknowledged` and `acknowledgedAt = now`. Read flags, ids and the unread count never change. |
| `AlertSlice.DeleteFirst` | SmartMed/mobile/src/store/slices/alertSlice.ts:61-70 | If some alert has the id, the result is the list with the first such alert spliced out; the alerts before it and after it keep their order. If none has the id, the list is unchanged. The unread count drops by one exactly when the removed alert was unread. |
| `AlertSlice.AlertStore.constructor` | SmartMed/mobile/src/store/slices/alertSlice.ts:23-28 | The initial state: no alerts, a counter of 0, not loading, no error. The counter invariant holds. |
| `AlertSlice.AlertStore.SetAlerts` | SmartMed/mobile/src/store/slices/alertSlice.ts:34-39 | Replaces the list and sets the counter to the payload's unread count. It clears the loading flag and the error, and establishes the invariant from any state. |
| `AlertSlice.AlertStore.AddAlert` | SmartMed/mobile/src/store/slices/alertSlice.ts:40-45 | The alert goes first, with the old list unchanged after it. The counter rises by 1 exactly when the alert is unread. The invariant is kept. |
| `AlertSlice.AlertStore.MarkAsRead` | SmartMed/mobile/src/store/slices/alertSlice.ts:46-53 | The new list is `MarkRead` of the old one. The counter moves exactly as the true unread count does, so the invariant is kept. |
| `AlertSlice.AlertStore.MarkAsAcknowledged` | SmartMed/mobile/src/store/slices/alertSlice.ts:54-60 | The new list is `Acknowledge` of the old one. The counter is untouched, and the invariant is kept. |
| `AlertSlice.AlertStore.DeleteAlert` | SmartMed/mobile/src/store/slices/alertSlice.ts:61-70 | The new list is `DeleteFirst` of the old one. The counter moves exactly as the true unread count does, and the invariant is kept. |
| `AlertSlice.AlertStore.SetLoading` | SmartMed/mobile/src/store/slices/alertSlice.ts:71-73 | Only `loading` changes. |
| `AlertSlice.AlertStore.SetError` | SmartMed/mobile/src/store/slices/alertSlice.ts:74-77 | Sets the error, forces `loading` to false, and leaves the list and counter alone. |
| `OcrSlice.PushHistory` | SmartMed/mobile/src/store/slices/ocrSlice.ts:38-44 | The new session comes first, followed by the previous entries in order. The length is min(old + 1, 10), so only the oldest entry is ever dropped. |
| `OcrSlice.ReplayKeepsNewest` | SmartMed/mobile/src/store/slices/ocrSlice.ts:38-44 | Start from the initial empty history and add sessions one by one. The history is then always the ten most recent sessions, newest first, and never holds more than ten. |
| `OcrSlice.OcrStore.constructor` | SmartMed/mobile/src/store/slices/ocrSlice.ts:19-24 | The initial state: no session, empty history, not loading, no error. |
| `OcrSlice.OcrStore.SetCurrentSession` | SmartMed/mobile/src/store/slices/ocrSlice.ts:30-32 | Replaces the current session (null allowed). History, loading and error are unchanged. |
| `OcrSlice.OcrStore.UpdateSessionStatus` | SmartMed/mobile/src/store/slices/ocrSlice.ts:33-37 | Changes only the status, and only when there is a current session whose id matches. Otherwise nothing changes. History is never touched. |
| `OcrSlice.OcrStore.AddToHistory` | SmartMed/mobile/src/store/slices/ocrSlice.ts:38-44 | The new history is `PushHistory` of the old one. It starts with the new session, is at most ten long, and nothing else changes. |
| `OcrSlice.OcrStore.SetLoading` | SmartMed/mobile/src/store/slices/ocrSlice.ts:45-47 | Only `loading` changes. |
| `OcrSlice.OcrStore.SetError` | SmartMed/mobile/src/store/slices/ocrSlice.ts:48-51 | Sets the error, forces `loading` to false, and leaves the session and history alone. |
| `MedicationSlice.MergeUnchangedIff` | SmartMed/mobile/src/store/slices/medicationSlice.ts:45 | For every update, the spread leaves a medication as it was exactly when each field the update supplies already holds that value. The update with no fields changes nothing. |
| `MedicationSlice.MergeIdempotent` | SmartMed/mobile/src/store/slices/medicationSlice.ts:45 | Applying the same update twice equals applying it once. |
| `MedicationSlice.MedicationStore.constructor` | SmartMed/mobile/src/store/slices/medicationSlice.ts:24-28 | The initial state: an empty list, not loading, no error. |
| `MedicationSlice.MedicationStore.SetMedications` | SmartMed/mobile/src/store/slices/medicationSlice.ts:34-38 | Replaces the list, clears `loading` and sets `error` to null. |
| `MedicationSlice.MedicationStore.AddMedication` | SmartMed/mobile/src/store/slices/medicationSlice.ts:39-41 | Appends at the end: the length rises by one and every earlier element is unchanged. |
| `MedicationSlice.MedicationStore.UpdateMedication` | SmartMed/mobile/src/store/slices/medicationSlice.ts:42-47 | The new list is `UpdateFirst` of the old one, with the merge as the change. Only the first medication with the id changes, and an unknown id changes nothing. |
| `MedicationSlice.MedicationStore.DeleteMedication` | SmartMed/mobile/src/store/slices/medicationSlice.ts:48-50 | The new list is `RemoveAll` of the old one, so every medication with the id is gone and the rest keep their order. |
| `MedicationSlice.MedicationStore.SetLoading` | SmartMed/mobile/src/store/slices/medicationSlice.ts:51-53 | Only `loading` changes. |
| `MedicationSlice.MedicationStore.SetError` | SmartMed/mobile/src/store/slices/medicationSlice.ts:54-57 | Sets the error, forces `loading` to false, and leaves the list alone. |
| `SupplementSlice.MergeUnchangedIff` | SmartMed/mobile/src/store/slices/supplementSlice.ts:43 | For every update, the spread leaves a supplement as it was exactly when each field the update supplies already holds that value. The update with no fields changes nothing. |
| `SupplementSlice.MergeIdempotent` | SmartMed/mobile/src/store/slices/supplementSlice.ts:43 | Applying the same update twice equals applying it once. |
| `SupplementSlice.SupplementStore.constructor` | SmartMed/mobile/src/store/slices/supplementSlice.ts:22-26 | The initial state: an empty list, not loading, no error. |
| `SupplementSlice.SupplementStore.SetSupplements` | SmartMed/mobile/src/store/slices/supplementSlice.ts:32-36 | Replaces the list, clears `loading` and sets `error` to null. |
| `SupplementSlice.SupplementStore.AddSupplement` | SmartMed/mobile/src/store/slices/supplementSlice.ts:37-39 | Appends at the end: the length rises by one and every earlier element is unchanged. |
| `SupplementSlice.SupplementStore.UpdateSupplement` | SmartMed/mobile/src/store/slices/supplementSlice.ts:40-45 | The new list is `UpdateFirst` of the old one, with the merge as the change. Only the first supplement with the id changes, and an unknown id changes nothing. |
| `SupplementSlice.SupplementStore.DeleteSupplement` | SmartMed/mobile/src/store/slices/supplementSlice.ts:46-48 | The new list is `RemoveAll` of the old one, so every supplement with the id is gone and the rest keep their order. |
| `SupplementSlice.SupplementStore.SetLoading` | SmartMed/mobile/src/store/slices/supplementSlice.ts:49-51 | Only `loading` changes. |
| `SupplementSlice.SupplementStore.SetError` | SmartMed/mobile/src/store/slices/supplementSlice.ts:52-55 | Sets the error, forces `loading` to false, and leaves the list alone. |
| `InteractionSlice.InteractionStore.constructor` | SmartMed/mobile/src/store/slices/interactionSlice.ts:23-28 | The initial state: both lists empty, not loading, no error. |
| `InteractionSlice.InteractionStore.SetInteractions` | SmartMed/mobile/src/store/slices/interactionSlice.ts:34-38 | Replaces `interactions`, clears `loading` and sets `error` to null. `currentCheck` is untouched. |
| `InteractionSlice.InteractionStore.SetCurrentCheck` | SmartMed/mobile/src/store/slices/interactionSlice.ts:39-41 | Replaces `currentCheck` and nothing else. |
| `InteractionSlice.InteractionStore.AddInteraction` | SmartMed/mobile/src/store/slices/interactionSlice.ts:42-44 | Appends to `interactions`. `currentCheck` and the flags are unchanged. |
| `InteractionSlice.InteractionStore.SetLoading` | SmartMed/mobile/src/store/slices/interactionSlice.ts:45-47 | Only `loading` changes. |
| `InteractionSlice.InteractionStore.SetError` | SmartMed/mobile/src/store/slices/interactionSlice.ts:48-51 | Sets the error and forces `loading` to false. Both lists are unchanged. |
| `UserSlice.ApplySetUser` | SmartMed/mobile/src/store/slices/userSlice.ts:49-51 | Fields present in the payload overwrite the state, and absent ones keep it. Whatever the payload says, `isAuthenticated` ends true, `loading` false and `error` null. |
| `UserSlice.SetUserFlagsIgnored` | SmartMed/mobile/src/store/slices/userSlice.ts:49-51 | The flags in a payload have no effect, and applying the same payload twice equals applying it once. |
| `UserSlice.UserStore.constructor` | SmartMed/mobile/src/store/slices/userSlice.ts:26-43 | The state is `initialState`. |
| `UserSlice.UserStore.SetUser` | SmartMed/mobile/src/store/slices/userSlice.ts:49-51 | The new state is `ApplySetUser` of the old one, so the user is signed in, not loading and without error. |
| `UserSlice.UserStore.UpdateProfile` | SmartMed/mobile/src/store/slices/userSlice.ts:52-54 | Only the supplied profile fields are overwritten. The rest of the state is unchanged. |
| `UserSlice.UserStore.UpdatePreferences` | SmartMed/mobile/src/store/slices/userSlice.ts:55-57 | Only the supplied preference fields are overwritten. The rest of the state is unchanged. |
| `UserSlice.UserStore.SetLoading` | SmartMed/mobile/src/store/slices/userSlice.ts:58-60 | Only `loading` changes. |
| `UserSlice.UserStore.SetError` | SmartMed/mobile/src/store/slices/userSlice.ts:61-64 | Sets the error, forces `loading` to false, and changes nothing else. |
| `UserSlice.UserStore.Logout` | SmartMed/mobile/src/store/slices/userSlice.ts:65-67 | The state becomes exactly `initialState` (empty uid and email, not authenticated) whatever it was, so logging out twice equals logging out once. |
| `MedicationController.ValidateMedicationData` | SmartMed/functions/src/controllers/medicationController.ts:10-16 | A payload passes if and only if it is an object whose `name`, `dosage` and `frequency` are strings and whose `isActive` is a boolean. |
| `MedicationController.ValidateSupplementData` | SmartMed/functions/src/controllers/medicationController.ts:21-28 | A payload passes if and only if it passes the medication check and `category` is a string. Any string is accepted. |
| `MedicationController.AddHandler` | SmartMed/functions/src/controllers/medicationController.ts:33-48 | A missing or empty uid is rejected as `unauthenticated`. An authenticated caller with an invalid payload gets `invalid-argument`. The handler proceeds exactly when the caller is authenticated and the payload is valid, and then it inserts the payload's fields with `createdAt` and `updatedAt` set to now. |
| `MedicationController.UpdateHandler` | SmartMed/functions/src/controllers/medicationController.ts:67-81 | Rejects as `unauthenticated` first. A null or undefined payload then gives `internal`. A falsy `id` or an invalid payload gives `invalid-argument`. Otherwise the handler updates document `data.id` with the payload minus `id`, plus `updatedAt`. |
| `MedicationController.UpdateReplyRestoresId` | SmartMed/functions/src/controllers/medicationController.ts:77-91 | The written document has no `id`. The reply is the written document with the payload's `id` put back, which is the payload stamped with `updatedAt`. |
| `MedicationController.DeleteHandler` | SmartMed/functions/src/controllers/medicationController.ts:101-108 | Rejects as `unauthenticated` first. A null or undefined payload then gives `internal`. A falsy `id` gives `invalid-argument`. Otherwise the handler deletes document `data.id`, and no other field is looked at. |
| `MedicationController.ListHandler` | SmartMed/functions/src/controllers/medicationController.ts:129-139 | The only guard is authentication. An authenticated caller's request is exactly the query for the active documents (`isActive == true`) of their own collection. |
| `MedicationController.UnauthenticatedFirst` | SmartMed/functions/src/controllers/medicationController.ts:33-41 | Without a caller, every handler rejects as `unauthenticated`, whatever the payload. |
| `MedicationController.EmptyPayloadRejected` | SmartMed/functions/src/controllers/medicationController.ts:39-108 | The empty payload `{}` from an authenticated caller is `invalid-argument` for add (the validation at lines 39-41), update (the id-and-validation check at lines 72-74) and delete (the id check at lines 106-108). |
| `MedicationController.DeleteIgnoresFields` | SmartMed/functions/src/controllers/medicationController.ts:227-234 | A payload holding only an `id` fails validation, yet delete accepts it. |

## Left out

- The interaction-checking engine (`checkInteractions`, `getInteractionDetails`, `createInteractionAlert`, `checkSupplementInteractions`, `dailyInteractionCheck`). Its controller is not part of this model: only its wiring in `functions/src/index.ts` exists, so there is no behaviour to model.
- The database calls themselves and everything after them: each handler's `try` block result (except the update handlers' reply, modelled by `UpdateReply`), the `internal` errors for failed writes, logging, and the add handlers' reply (which needs the id the database generates). `userController.ts` is database plumbing and is not part of this model either.
- The client services (Firestore listeners and CRUD, authentication, notifications, Firebase setup), screens, navigation, the store wiring and persistence, and the native text-recognition bridge.
- `AddHandler`: the two separate `new Date()` calls for `createdAt` and `updatedAt` are modelled as one reading, `now`.
- `UpdateHandler`, `DeleteHandler`: a truthy non-string `id` (such as a number) is passed on as the document id. What the database then does with it is not modelled.
- `Json.Truthy`: NaN is not representable. Strings and arrays have no own properties in `Json.Member`; the handlers never read built-in properties such as `length`.
- Partial updates (`MedicationPatch`, `SupplementPatch`, `ProfilePatch`, `PreferencesPatch`, `UserPatch`) model a key as present or absent. A key present with the value `undefined`, which the spread would copy, is not modelled.
- Redux Toolkit's copy-on-write drafts are modelled by value semantics: a session stored both as current and in the history are independent values.
- The OCR `confidence` number and the recognised `medications` data are carried as opaque values and never interpreted.
