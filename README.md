# Pastoral visit log — a Dafny model

This project models a small app for recording pastoral visits. A pastor fills
in a form per visit: who was visited, when and where, the Bible passage,
hymn and sermon, the conversation, prayer requests, a faith rating from 1 to 5,
interest tags, a private note and follow-up to-dos. The record is stored
either in a Google Sheet, through an Apps Script back end, or in the
browser's local storage when no back end is present.

The model covers four parts:

- `apps_script.dfy` (module `AppsScript`) models `GoogleAppsScript.js`.
  - It flattens a record into a 17-cell row, with lists joined by `", "` or
    a line break and to-dos marked `[V] ` or `[ ] `.
  - It reads the sheet back bottom-up, so the newest record comes first.
  - It creates the sheet with its header row only when the sheet is missing.
  - The sheet lives in the class `Spreadsheet`.
  - The JavaScript string operations it relies on (`split`, `join`) are in
    `js_text.dfy` (module `JsText`), together with the `trim` that the form
    handlers of `App.tsx` apply.
  - The record types of `types.ts` are in `records.dfy` (module `Records`).
- `sheet_service.dfy` (module `SheetService`) models
  `services/mockSheetService.ts`.
  - The class `VisitLogService` holds the one local storage value.
  - A boolean parameter says per call whether the Apps Script bridge is
    present.
  - Without the bridge, a local save prepends the time-stamped record.
  - A local listing shows the stored records, or a built-in example record
    while nothing is stored.
- `form.dfy` (module `Form`) models the form state of `App.tsx`.
  - The initial record, and the add, remove and toggle updaters.
  - The invariant those updaters keep.
  - The submit status machine, in the class `FormScreen`.
- `dictation.dfy` (module `Dictation`) models `components/TextAreaGroup.tsx`.
  - How a speech result event becomes a transcript.
  - How the transcript is merged into the text.
  - The listen button's flag, in the class `Recognizer`.

Clock readings (the server time of a row, the client time stamp, today's
date, the current time) are parameters. So is every answer of a service the
model cannot see: a spreadsheet fault, what the bridge's handlers receive,
and the speech engine's events.

Unparseable local storage is not read as an empty list. `JSON.parse` throws
inside the `try` of both operations, so both promises reject and nothing is
written (`services/mockSheetService.ts:26-41`, `:63-93`).
`SheetService.CorruptStorageRejects` states the code's behaviour.

## Model

| member | source | states |
|---|---|---|
| `JsText.Split` | GoogleAppsScript.js:98 | `split` with a non-empty separator always yields at least one piece, so an empty string splits to `[""]` |
| `JsText.JoinSplit` | GoogleAppsScript.js:98-107 | joining the pieces of a split with the same separator gives back the split text, for every text |
| `JsText.SplitJoin` | GoogleAppsScript.js:58-67 | splitting a joined non-empty list gives back the list, when no item contains the separator and the separator cannot overlap itself |
| `JsText.FirstPiece` | GoogleAppsScript.js:94 | the first piece of a split is a prefix free of the separator, followed by the separator unless it is the whole text |
| `JsText.TrimStart` | App.tsx:100 | the result is a suffix of the input, everything removed is whitespace, and it does not start with whitespace |
| `JsText.TrimEnd` | App.tsx:100 | the result is a prefix of the input, everything removed is whitespace, and it does not end with whitespace |
| `JsText.TrimIsCore` | App.tsx:101 | a trimmed string is a piece of the input that neither starts nor ends with whitespace |
| `JsText.TrimEmptyIffBlank` | App.tsx:124 | `trim()` is empty exactly when the input is all whitespace, which is when the add handlers ignore it |
| `JsText.TrimIdempotent` | App.tsx:101 | trimming twice is trimming once |
| `AppsScript.EncodeRow` | GoogleAppsScript.js:52-70 | a row has as many cells as the header has names, always decodes, ends with the server time, and has an empty cell for every list field that was not an array |
| `AppsScript.SplitCell` | GoogleAppsScript.js:98 | reading a list cell throws exactly when the cell is truthy but not text; an empty cell gives `[]`, never `[""]`; the items joined back give the cell text |
| `AppsScript.DateCell` | GoogleAppsScript.js:111 | a date cell becomes the part of its ISO form before the first `T`; any other cell passes through unchanged |
| `AppsScript.DecodeRow` | GoogleAppsScript.js:92-112 | decoding a row succeeds exactly when none of its four list cells throws |
| `AppsScript.TodoRoundTrip` | GoogleAppsScript.js:107-110 | a to-do line read back gives the original text and done flag |
| `AppsScript.ListRoundTrip` | GoogleAppsScript.js:98-107 | a joined list cell splits back into the same items when no item contains the separator and the list is not `[""]` |
| `AppsScript.TodosRoundTrip` | GoogleAppsScript.js:67 | a to-do cell reads back as the same to-dos when no text holds a line break |
| `AppsScript.RoundTrip` | GoogleAppsScript.js:52-112 | a saved record is read back field for field, without its `context`, when its lists survive the separators |
| `AppsScript.EmptyItemIsLost` | GoogleAppsScript.js:58 | a list holding one empty item is read back as the empty list |
| `AppsScript.SeparatorInItemSplitsIt` | GoogleAppsScript.js:98 | an item that holds `", "` is read back as two items |
| `AppsScript.CollectOk` | GoogleAppsScript.js:90-113 | the loop over the data rows (decoding each with `AppsScript.DecodeRow`, as `AppsScript.DecodeAll` does) completes exactly when every row decodes |
| `AppsScript.CollectAt` | GoogleAppsScript.js:90-113 | the k-th record read is the k-th row from the bottom, and there is one record per row |
| `AppsScript.CollectReversed` | GoogleAppsScript.js:90-113 | the same for every k at once: the records are the decoded rows in reverse order |
| `AppsScript.CollectFailureSpreads` | GoogleAppsScript.js:115-117 | one row that fails anywhere makes the whole read fail |
| `AppsScript.CollectAppend` | GoogleAppsScript.js:90-113 | a row added at the bottom is read first, ahead of the earlier rows in their earlier order |
| `AppsScript.ListingIsNewestFirst` | GoogleAppsScript.js:86-117 | a listing has one record per data row, newest first, with the header skipped; a header-only sheet or one bad row gives the empty list |
| `AppsScript.ListingAllRows` | GoogleAppsScript.js:86-113 | when every data row decodes, the listing has one record per data row, the bottom row first |
| `AppsScript.ListingBadRow` | GoogleAppsScript.js:115-117 | a single data row that cannot be decoded makes the listing empty |
| `AppsScript.ListingAppend` | GoogleAppsScript.js:86-113 | a decodable row added at the bottom of a sheet whose rows all decode is listed first, ahead of the earlier listing |
| `AppsScript.SavedRecordIsListedFirst` | GoogleAppsScript.js:72 | after a save, the listing is the saved record followed by the previous listing |
| `AppsScript.Spreadsheet.constructor` | GoogleAppsScript.js:25-26 | the model starts from the sheet as it is found, or from no sheet |
| `AppsScript.Spreadsheet.GetOrCreateSheet` | GoogleAppsScript.js:24-42 | a missing sheet is created holding only the header row; an existing sheet is returned untouched |
| `AppsScript.Spreadsheet.ProcessForm` | GoogleAppsScript.js:47-77 | on success exactly one row, the encoded record, is appended after the unchanged earlier rows, with the success message; on a fault no row is added and the error is returned |
| `AppsScript.Spreadsheet.GetVisitLogs` | GoogleAppsScript.js:82-118 | returns the listing of the sheet, or `[]` on a fault; creates the sheet if missing, and otherwise leaves it unchanged |
| `SheetService.SaveThenList` | services/mockSheetService.ts:27-37 | a local save stores the stamped record in front of the unchanged earlier entries, and a listing then returns exactly that list |
| `SheetService.LaterSaveListsFirst` | services/mockSheetService.ts:37 | saving A and then B lists B, then A, then the entries stored before |
| `SheetService.CorruptStorageRejects` | services/mockSheetService.ts:26-41 | unparseable storage makes listing reject, and a save leaves it as it was |
| `SheetService.MissingKeyIsEmpty` | services/mockSheetService.ts:28-30 | a missing or empty key is the empty list: a save stores just the new entry, a listing shows just the example |
| `SheetService.SaveKeepsStamped` | services/mockSheetService.ts:32-35 | every entry a save adds carries a time stamp, so storage that saves alone wrote holds only stamped entries |
| `SheetService.SeedOnlyWhenEmpty` | services/mockSheetService.ts:67-88 | the unstamped example is listed exactly when nothing is stored; it is then the only record and carries the example name |
| `SheetService.VisitLogService.constructor` | services/mockSheetService.ts:3 | the service starts from whatever the storage key holds |
| `SheetService.VisitLogService.SaveVisitLog` | services/mockSheetService.ts:9-44 | with the bridge, storage is untouched and the promise resolves exactly when the success handler runs, whatever the back end answered; without it, storage becomes the stamped record in front of the old entries, and the promise resolves unless the old value is unparseable |
| `SheetService.VisitLogService.GetVisitLogs` | services/mockSheetService.ts:50-96 | with the bridge, passes on what the success handler received or rejects with the failure; without it, returns the local listing, or rejects on unparseable storage; never writes storage |
| `Form.Without` | App.tsx:118 | filtering out a value removes every copy of it and keeps every other element as often as before |
| `Form.WithoutSingle` | App.tsx:118 | filtering a one-element list keeps the element exactly when it differs from the value removed |
| `Form.WithoutConcat` | App.tsx:118 | filtering distributes over concatenation; with `Form.WithoutSingle` this fixes the result, so the kept elements stay in their original order |
| `Form.InitialIsTidy` | App.tsx:42-59 | the initial form has rating 3, the district visit type, empty lists and no name, fills in the date and time given, and satisfies the form invariant |
| `Form.AddListItemLaw` | App.tsx:99-105 | adding a blank value changes nothing; any other value is appended trimmed at the end of its list, leaving the rest of the form as it was |
| `Form.AddTodoLaw` | App.tsx:123-129 | adding a blank to-do changes nothing; any other is appended trimmed and not done, leaving the rest of the form as it was |
| `Form.RemoveAtLaw` | App.tsx:107-112 | removing index i deletes exactly element i; an index out of range leaves the list unchanged |
| `Form.RemoveTouchesOneList` | App.tsx:384 | removing an attendee, prayer request or to-do changes only that list |
| `Form.ToggleMembership` | App.tsx:114-121 | toggling an interest flips its membership, keeps every other interest's, and changes nothing else |
| `Form.ToggleKeepsNoDup` | App.tsx:117-119 | toggling keeps the interests free of duplicates |
| `Form.ToggleTwice` | App.tsx:114-121 | toggling twice restores an interest list that lacked the tag; for one that held it, the tag moves to the end and the same interests remain |
| `Form.ToggleTodoFlipsOne` | App.tsx:382 | ticking to-do i flips only its done flag, and ticking it again restores the form |
| `Form.AddItemKeepsTidy` | App.tsx:99-105 | adding an attendee or prayer request keeps the form invariant: trimmed non-empty items, a rating in 1..5, each tag once |
| `Form.AddTodoKeepsTidy` | App.tsx:123-129 | adding a to-do keeps the form invariant |
| `Form.RemoveKeepsTidy` | App.tsx:107-112 | removing an item or a to-do keeps the form invariant |
| `Form.ToggleInterestKeepsTidy` | App.tsx:342 | toggling one of the tag buttons keeps the form invariant |
| `Form.TickAndRateKeepTidy` | App.tsx:332-333 | ticking a to-do or pressing one of the five stars keeps the form invariant |
| `Form.TagsHaveNoComma` | App.tsx:342 | no interest tag contains the sheet's list separator |
| `Form.TidyFormRoundTrips` | GoogleAppsScript.js:52-112 | a form built with the form's own controls comes back from the sheet as it was saved, when no attendee holds `", "` and no prayer request or to-do holds a line break |
| `Form.FormScreen.constructor` | App.tsx:63-76 | the write tab opens on the initial form with the clock's date and time, status idle |
| `Form.FormScreen.Submit` | App.tsx:138-142 | while a save is pending, or without a name, nothing is sent and nothing changes; otherwise the form is sent and the status becomes loading |
| `Form.FormScreen.Settle` | App.tsx:143-148 | a pending save ends in success when it resolved and in error when it rejected |
| `Form.FormScreen.CloseAlert` | App.tsx:411 | closing the success alert returns the status to idle |
| `Form.FormScreen.Reset` | App.tsx:131-136 | a confirmed reset restores the initial form with the clock's date and time; otherwise the form stays; the status is kept either way |
| `Dictation.JoinedAppend` | components/TextAreaGroup.tsx:64-67 | the transcript of two runs of results is the first run's transcript followed by the second's |
| `Dictation.Transcript` | components/TextAreaGroup.tsx:64-67 | the loop returns the best alternatives of the results from `resultIndex` to the end, in order |
| `Dictation.MergeLaw` | components/TextAreaGroup.tsx:70 | the merged text starts with the old text and ends with the transcript; an empty old text gives the transcript; one ending in a space gains no extra space; any other gets exactly one space before the transcript |
| `Dictation.TextAfterAppend` | components/TextAreaGroup.tsx:63-81 | with results merged into the current text, one more event merges into the text the earlier events left |
| `Dictation.TextOnlyExtends` | components/TextAreaGroup.tsx:63-81 | with results merged into the current text, dictation never removes text: the earlier text stays in front |
| `Dictation.StaleTextLosesPhrases` | components/TextAreaGroup.tsx:70 | dictating "가" then "나" into an empty area leaves "나" as written, and "가 나" when each result merges into the current text |
| `Dictation.Recognizer.constructor` | components/TextAreaGroup.tsx:25-34 | a text area starts not listening, with no session, on its current text |
| `Dictation.Recognizer.Toggle` | components/TextAreaGroup.tsx:36-47 | unsupported: nothing changes; listening: the session stops and the flag clears; idle: a session starts and the flag waits for the engine; the text is untouched |
| `Dictation.Recognizer.Started` | components/TextAreaGroup.tsx:59-61 | the engine's start report sets the listening flag |
| `Dictation.Recognizer.Ended` | components/TextAreaGroup.tsx:83-96 | an end, an error or a failure to start clears the listening flag |
| `Dictation.Recognizer.Heard` | components/TextAreaGroup.tsx:63-81 | a result event merges its transcript into the current text, which keeps its old content in front |

## Left out

- AppsScript.DecodeRow: requires rows of at least 16 cells whose faith cell is a whole number or empty. `Number()` of other cells (NaN, fractions) is floating point and is not modelled. Narrower rows, where JavaScript reads `undefined`, are not modelled either.
- AppsScript.Spreadsheet.ProcessForm: a spreadsheet failure is modelled only at the append. A failure while creating the sheet is not modelled.
- AppsScript.Spreadsheet.GetVisitLogs: a service failure is one fault parameter at the read. Google Sheets turning typed text into dates or numbers is not modelled; the cells are taken as they come.
- AppsScript.RoundTrip: assumes a sheet that stores text cells as given. In Google Sheets, `appendRow` turns the `YYYY-MM-DD` date and the `HH:MM` time into date values, so `visitDate` comes back through the date branch and `visitTime` as a date value; `AppsScript.SavedRecordIsListedFirst` and `Form.TidyFormRoundTrips` rest on the same assumption.
- Header formatting (bold, background, frozen row) and `doGet`'s HTML page are not modelled; they are presentation only.
- How `google.script.run` serialises records and dates between server and client is not modelled. The remote listing passes on whatever the success handler receives.
- SheetService.VisitLogService.SaveVisitLog: the 800 ms and 600 ms `setTimeout` delays and promise scheduling are left out. A settled promise is a value.
- SheetService.VisitLogService.GetVisitLogs: the rejection on unparseable storage carries a fixed message, not the engine's `SyntaxError` text.
- JSON itself is not modelled: the stored value is missing, blank, unparseable, or a list of entries. Stored JSON that parses to something other than an array is not modelled.
- `console` logging in the service and the recognizer is not modelled.
- Form.ToggleTodoFlipsOne: this is a value-level model. The source builds a shallow copy of the list and flips `completed` on the to-do object shared with the previous state. The model does not capture that aliasing.
- Form.FormScreen.Submit: the `alert` shown for a missing name, and the one shown after a failed save, are not modelled; they are UI.
- Form.FormScreen.Reset: `window.confirm` is the boolean `confirmed`.
- The generic `handleChange`, the "now" and "today" buttons (`setNowTime`, `setTodayDate`), the tab and privacy toggles, and all rendering are not modelled. They set one field to a given string, or only affect display.
- Dictation.Recognizer.Toggle: the Web Speech API calls are not modelled (creating the engine, `lang`, `continuous`, `start`, `stop`); the model keeps only whether a session exists. The alert shown when recognition is unsupported is left out.
- Dictation.Recognizer.Heard: merges into the current text, as corrected under Findings. Typing into the area between results is not modelled.

## Findings

| source | as written | input that shows it | evidently intended | confidence | as-written member | corrected member |
|---|---|---|---|---|---|---|
| components/TextAreaGroup.tsx:70 | the `onresult` handler is created when listening starts and keeps the `value` of that moment; in continuous mode every later result event is merged into that old text, so each event replaces what the earlier events dictated | an empty text area, then the events (results `[["가"]]`, index 0) and (results `[["가"], ["나"]]`, index 1): the area ends as "나" | every result is appended to the text as it is now, giving "가 나" | likely; not executed | `Dictation.TextAfterAsWritten` | `Dictation.TextAfter` |
