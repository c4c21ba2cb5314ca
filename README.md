# Interview-slot booking front-end, modelled in Dafny

This project models the logic of a small interview-slot booking front-end.
A candidate reads the company's greeting and guidelines, picks an open time
slot, fills in a contact form and books the slot. An administrator edits the
slot list and the company configuration and saves both. All data lives in a
spreadsheet behind a script endpoint; the front-end only fetches, saves and
asks the script to book.

Four pieces are modelled, one module each, plus shared records:

- `Types` (types.ts): `TimeSlot`, `CompanyInfo`, `BookingDetails`,
  `AppStep`, plus `Option` and `Remote`. `Remote` says how an awaited remote
  call ended: it threw, or it returned a value.
- `SlotItem` (components/SlotItem.tsx): the stateless slot button. It holds
  the availability guard on selection, the disabled flag, the badge and the
  styling.
- `App` and `AppSession` (App.tsx). `App` holds the session record as a
  value, the derived values (screen choice, offered slots, selected slot,
  greeting, success echo) and one function per event. It also defines the
  event sequence semantics `Run` and the invariant `Inv` that every
  reachable session keeps. `AppSession.Session` is the same session as an
  object: one method per handler updates the fields step by step, and each
  method is proved to give the state the `App` function gives and to keep
  `Inv`.
- `AdminPage` (components/AdminPage.tsx): the editor's load with its
  defaults, add and delete on the slot list, config edits and "save all".
  These exist both as functions and as methods of the class `AdminEditor`.
  `SaveAllThenFetch` connects "save all" to the script: fetching after the
  saves returns exactly what the editor held.
- `SheetScript` and `Json` (the script text `gasCode` in
  components/AdminPage.tsx). A sheet is a sequence of rows of cells. The
  five actions are modelled as `Handle` and, in place, as
  `Spreadsheet.DoPost`, which uses the `Sheet` methods `Clear`, `AppendRow`
  and `SetValue`. `bookSlot` is a loop that marks the first matching row.
  The guidelines cell holds JSON text, so `Json` models `JSON.stringify` and
  `JSON.parse` for arrays of strings and proves that they round-trip.

Every remote call is an event parameter. A fetch of the slots is
`Remote<Option<seq<TimeSlot>>>`, where `None` is absent data. A config fetch
is `Remote<Option<CompanyInfo>>`. A booking is `Remote<bool>`. The greeting is
an arbitrary string delivered by its own event. A new slot's id, elsewhere
`Date.now().toString()`, is also a parameter.

In these places the model keeps what the code does, which a reader may not
expect:
- The admin "back" action (App.tsx:141) only reruns `loadInitialData`. It does
  not return to the welcome step. `App.AdminIsNeverLeft` proves that no event
  leaves the admin step.
- Adding a slot does not check that the date and start time are non-empty.
- The offered list keeps every active slot, including booked ones.
- After a failed first load the config stays absent. It is not replaced by a
  placeholder.
- The script's `bookSlot` reports success even when it marked no row. The
  model answers as the script does; the intended answer is modelled beside
  it (see Findings).

## Model

| member | source | states |
|---|---|---|
| `Types.OrEmpty` | App.tsx:32 | `fetchedSlots` or else `[]`: an absent list becomes the empty list and a present one is kept |
| `SlotItem.IsAvailable` | components/SlotItem.tsx:12 | `isAvailable` as a predicate; `SlotItem.OnClick`, `SlotItem.Disabled` and `SlotItem.Badge` state that each follows it |
| `SlotItem.OnClick` | components/SlotItem.tsx:16 | a click reports `Some(slot.id)` exactly when the slot is not booked, and nothing for a booked slot |
| `SlotItem.Disabled` | components/SlotItem.tsx:17 | the button is disabled exactly when the slot is booked |
| `SlotItem.Badge` | components/SlotItem.tsx:29-30 | the badge is '예약 가능' exactly when the slot is available and '예약 마감' exactly when it is booked |
| `SlotItem.LookOf` | components/SlotItem.tsx:18-26 | greyed out exactly when booked; highlighted exactly when available and selected |
| `SlotItem.Render` | components/SlotItem.tsx:11-47 | the view's disabled flag and badge follow the booked flag; the check-mark follows `isSelected` alone, even on a booked slot |
| `SlotItem.RenderDependsOnlyOnShownFields` | components/SlotItem.tsx:11-47 | the component keeps no state: two slots that agree on date, times and booked flag render alike, whatever their id, booker or active flag |
| `App.ScreenOf` | App.tsx:86-122 | the connection-error screen exactly when that flag is set; otherwise the loading screen exactly when loading and not on the success step; otherwise the current step |
| `App.ActiveSlots` | App.tsx:125 | a slot is offered exactly when it is in the list and active; booked slots are not excluded |
| `App.ActiveSlotsAppend` | App.tsx:125 | the filter distributes over concatenation, so the kept slots keep their original order |
| `App.ActiveSlotsAllActive` | App.tsx:165-167 | a list of active slots is offered whole and in order, booked or not |
| `App.SelectedSlot` | App.tsx:124 | the found slot is the first in the list whose id equals the selected id; none exactly when nothing is selected or no slot has that id |
| `App.GreetingText` | App.tsx:148 | the generated greeting when one has arrived, else the fixed fallback line |
| `App.SuccessEcho` | App.tsx:200 | the success text echoes the form's name and a listed slot whose id is the selected id |
| `App.LoadedConfig` | App.tsx:33-44 | a fetched config with a non-empty name is kept; a missing or nameless one becomes the placeholder ('면접 시스템', '준비 중인 공고', '', one guideline); the kept config always has a name |
| `App.LoadInitialData` | App.tsx:23-51 | loading ends false; step, selection, form and greeting are untouched; the error flag is set exactly when a fetch threw, and then slots and config keep their old values; otherwise slots are the fetched list (absent data counts as empty) and config is the loaded config |
| `App.GreetingRequest` | App.tsx:33-35 | a greeting is requested exactly when both fetches returned and the config has a name, and then for that config |
| `App.BookingRequest` | App.tsx:59-68 | a booking request is sent exactly when a non-empty slot id is selected; it carries the form's three fields and that id |
| `App.HandleBooking` | App.tsx:57-84 | with no selection nothing changes; on `true` the step becomes success and the selection is kept; on `false` with a re-fetch the slots become the re-fetched list, the selection is cleared and the step is selection; a throw from either call changes only the loading flag; loading ends false |
| `App.HasSelection` | App.tsx:59 | `!!selectedSlotId`, the negation of the early-return test, as a predicate: a selection exists exactly when the id is present and non-empty; `App.BookingRequest` and `App.NavigationKeepsSelection` state its role in sending and in "next" (App.tsx:175) |
| `App.Enabled` | App.tsx:86-210 | when each event's control is on the screen; its properties are stated by `App.ApplyKeepsInv`, `App.RunKeepsInv` and `App.AdminIsNeverLeft` |
| `App.Apply` | App.tsx:23-210 | what each handler does to the session; stated by `App.ApplyKeepsInv`, `App.NavigationKeepsSelection`, `App.AdminIsNeverLeft` and, field by field, by the `AppSession.Session` methods |
| `App.InitialInv` | App.tsx:10-21 | the initial session satisfies the invariant |
| `App.ApplyKeepsInv` | App.tsx:23-210 | every enabled event keeps the invariant: a set config has a name; confirmation and success always have a selection; outside admin a selection names a listed slot; loading and the error screen occur only where the invariant allows |
| `App.RunKeepsInv` | App.tsx:23-210 | every session reached by any event sequence satisfies the invariant |
| `App.ReachableSubmitSends` | App.tsx:59-68 | on every reachable confirmation step a submit sends its request, so the early return never fires there, and the selected slot is listed |
| `App.ReachableSuccessEchoes` | App.tsx:196-200 | on every reachable success step the echo shows the form's name and the slot whose id was booked |
| `App.AdminIsNeverLeft` | App.tsx:140-141 | once on the admin step, no event sequence changes the step; "back" only reloads |
| `App.NavigationKeepsSelection` | App.tsx:174-175 | "choose time", "previous", "next" and "cancel" keep the selection, the form and the slots; "next" reaches confirmation exactly when a slot is selected |
| `AppSession.Session.constructor` | App.tsx:10-21 | the initial session: welcome step, no slots, no config, no selection, loading, no error, empty form |
| `AppSession.Session.LoadInitialData` | App.tsx:23-51 | the fields become `App.LoadInitialData` of the old state; returns the config a greeting is requested for; keeps the invariant |
| `AppSession.Session.ReceiveGreeting` | App.tsx:35 | only the greeting changes |
| `AppSession.Session.ChooseTime` | App.tsx:157 | welcome becomes selection; nothing else changes |
| `AppSession.Session.Previous` | App.tsx:174 | selection becomes welcome; nothing else changes |
| `AppSession.Session.Next` | App.tsx:175 | selection becomes confirmation only when a slot is selected |
| `AppSession.Session.Select` | App.tsx:167 | clicking an offered slot selects its id when it is not booked, and does nothing when it is booked |
| `AppSession.Session.Cancel` | App.tsx:190 | confirmation becomes selection; nothing else changes |
| `AppSession.Session.EditName` | App.tsx:186 | only the form's name changes |
| `AppSession.Session.EditEmail` | App.tsx:187 | only the form's e-mail changes |
| `AppSession.Session.EditPhone` | App.tsx:188 | only the form's phone changes |
| `AppSession.Session.HandleBooking` | App.tsx:57-84 | the fields become `App.HandleBooking` of the old state; the returned request is `App.BookingRequest` of the old state |
| `AppSession.Session.EnterAdmin` | App.tsx:210 | from any step screen the step becomes admin |
| `AppSession.Session.ForceAdmin` | App.tsx:106 | clears the connection error and sets the admin step |
| `AdminPage.AfterLoad` | components/AdminPage.tsx:17-32 | loading ends and a config is always set; a named config is kept; a nameless one becomes ('회사명', '직무명', '', []); a throw keeps the slots and sets the all-empty config |
| `AdminPage.MountLoadThrown` | components/AdminPage.tsx:24-27 | a throw at mount leaves no slots and the all-empty config |
| `AdminPage.NewSlot` | components/AdminPage.tsx:144 | the new slot has the given id, date and start time, an empty end time, is not booked, is active and has no booker; date and time are not checked |
| `AdminPage.AppendSlot` | components/AdminPage.tsx:143-145 | exactly one slot is appended at the end and the earlier slots are unchanged |
| `AdminPage.RemoveSlot` | components/AdminPage.tsx:154 | a slot survives exactly when it was in the list and its id differs from the given id |
| `AdminPage.RemoveSlotAppend` | components/AdminPage.tsx:154 | deletion distributes over concatenation, so survivors keep their original order |
| `AdminPage.RemoveSlotSingle` | components/AdminPage.tsx:154 | one slot survives exactly when its id differs |
| `AdminPage.RemoveSlotAbsent` | components/AdminPage.tsx:154 | deleting an id that no slot carries changes nothing |
| `AdminPage.RemoveSlotTwice` | components/AdminPage.tsx:154 | deleting twice is deleting once |
| `AdminPage.RemoveAppendedSlot` | components/AdminPage.tsx:143-154 | deleting the id of a just-added slot gives the same list as deleting it before the add |
| `AdminPage.SetName` | components/AdminPage.tsx:133 | editing the name changes only the name |
| `AdminPage.SetJobTitle` | components/AdminPage.tsx:134 | editing the job title changes only the job title |
| `AdminPage.SaveCalls` | components/AdminPage.tsx:36-38 | with no config only the slots are saved; with a config it is saved first, and the slots are saved after it unless that save threw |
| `AdminPage.SaveSucceeded` | components/AdminPage.tsx:36-41 | the success notice shows exactly when the last issued write is the slots save and it did not throw, so neither issued write threw |
| `AdminPage.SaveAllThenFetch` | components/AdminPage.tsx:34-89 | after both saves, whatever the sheets held before, the script's fetches return exactly the editor's slots and config |
| `AdminPage.AdminEditor.constructor` | components/AdminPage.tsx:11-15 | no slots, no config, loading, empty form |
| `AdminPage.AdminEditor.Load` | components/AdminPage.tsx:17-32 | the fields become `AfterLoad` of the old state |
| `AdminPage.AdminEditor.EditDraftDate` | components/AdminPage.tsx:141 | only the form's date changes |
| `AdminPage.AdminEditor.EditDraftStartTime` | components/AdminPage.tsx:142 | only the form's start time changes |
| `AdminPage.AdminEditor.AddSlot` | components/AdminPage.tsx:143-145 | the slots become `AppendSlot` of the old slots with the form's date and time; the form is not cleared |
| `AdminPage.AdminEditor.DeleteSlot` | components/AdminPage.tsx:154 | the slots become `RemoveSlot` of the old slots |
| `AdminPage.AdminEditor.EditName` | components/AdminPage.tsx:133 | the config becomes `SetName` of the old config |
| `AdminPage.AdminEditor.EditJobTitle` | components/AdminPage.tsx:134 | the config becomes `SetJobTitle` of the old config |
| `AdminPage.AdminEditor.SaveAll` | components/AdminPage.tsx:34-45 | returns the calls `SaveCalls` prescribes and the success flag; the slots and config are not modified and loading ends false |
| `Json.EscapeChar` | components/AdminPage.tsx:76 | a character is escaped exactly when it is a quote, a backslash or a control character; any other character is written as itself |
| `Json.Stringify` | components/AdminPage.tsx:76 | `JSON.stringify` of a string array: bracketed, items quoted and comma-separated; `Json.ParseStringify` states that it is undone by `Json.Parse` |
| `Json.Parse` | components/AdminPage.tsx:72 | `JSON.parse` of a string array, absent where it would throw; `Json.ParseStringify` states that it undoes `Json.Stringify` |
| `Json.UnescapeEscapeChar` | components/AdminPage.tsx:72-76 | every escape sequence the writer produces decodes to the character it stands for and consumes exactly its own length |
| `Json.ParseEscaped` | components/AdminPage.tsx:72-76 | the escaped text of any string, followed by a closing quote, parses back to that string and leaves what follows untouched |
| `Json.ParseItems` | components/AdminPage.tsx:72-76 | the comma-separated quoted items of a non-empty list, closed by a bracket, parse back to that list |
| `Json.ParseStringify` | components/AdminPage.tsx:72-76 | parsing the stringified guidelines gives the same list back |
| `SheetScript.Put` | components/AdminPage.tsx:81-82 | writing a cell sets that column and leaves every other column as it was, widening the row if needed |
| `SheetScript.AsText` | components/AdminPage.tsx:62-64 | a cell read into a text field (also the config cells at :72): written text reads back as itself, an empty cell as "", a boolean as "true" or "false"; `SheetScript.ReadSlotRow` and `SheetScript.FetchSavedConfig` state that written text survives |
| `SheetScript.AsOptText` | components/AdminPage.tsx:63 | the booker cell read into `bookedBy`: an empty cell means no booker; `SheetScript.ReadSlotRow` states that a written booker, or its absence, reads back |
| `SheetScript.IsTrue` | components/AdminPage.tsx:64 | `row[4] === true` or `row[4] === "TRUE"` (also for `row[6]`); `SheetScript.ReadSlotRow` states that a written flag reads back, and `SheetScript.BookedSlotFetched` that a marked row reads as booked |
| `SheetScript.SlotTable` | components/AdminPage.tsx:66-69 | the saved sheet is the header followed by one row per slot, in order |
| `SheetScript.FetchSlots` | components/AdminPage.tsx:60-65 | no slots when the sheet has at most one row; otherwise one slot per row after the header, in order |
| `SheetScript.SlotRow` | components/AdminPage.tsx:69 | the row `saveSlots` appends for one slot; `SheetScript.ReadSlotRow` states that `ReadSlot` reads it back |
| `SheetScript.ReadSlot` | components/AdminPage.tsx:62-64 | the object `fetchSlots` builds from one row; `SheetScript.ReadSlotRow` states that it inverts `SlotRow` |
| `SheetScript.ReadSlotRow` | components/AdminPage.tsx:62-69 | a slot row as `saveSlots` writes it reads back through `fetchSlots`' mapping as the same slot |
| `SheetScript.FetchSavedSlots` | components/AdminPage.tsx:60-69 | fetching after saving returns the same slots in the same order |
| `SheetScript.FetchConfig` | components/AdminPage.tsx:70-72 | an empty object when the sheet has at most one row; otherwise a failure exactly when the fourth cell of the second row does not parse, and else the record whose name, job title and description are that row's first three cells and whose guidelines are the parsed fourth |
| `SheetScript.ConfigRow` | components/AdminPage.tsx:76 | the row `saveConfig` appends, with the guidelines as JSON text; `SheetScript.FetchSavedConfig` states that `fetchConfig` reads it back |
| `SheetScript.ConfigTable` | components/AdminPage.tsx:73-76 | the config sheet after `saveConfig`: header, then `ConfigRow`; `SheetScript.SaveConfig` states that the method leaves it and `SheetScript.FetchSavedConfig` that it reads back |
| `SheetScript.FetchSavedConfig` | components/AdminPage.tsx:70-76 | fetching the config after saving it returns it |
| `SheetScript.Bookable` | components/AdminPage.tsx:80 | the loop's test: the id cell matches and the booked cell is neither `true` nor "TRUE" (exact comparison, see Left out); `SheetScript.FirstBookable`, `SheetScript.BookedTableChangesOneRow` and `SheetScript.SecondBookingLeavesSheet` state how it chooses the row |
| `SheetScript.Booker` | components/AdminPage.tsx:82 | the booker text `name + " (" + email + ")"`; `SheetScript.BookedRowCells` and `SheetScript.BookedSlotFetched` state that it lands in column 6 and reads back as `bookedBy` |
| `SheetScript.MarkBooked` | components/AdminPage.tsx:81-82 | the two `setValue` writes on one row; `SheetScript.BookedRowCells` states that column 5 becomes true, column 6 the booker text, and nothing else changes |
| `SheetScript.FirstBookable` | components/AdminPage.tsx:79-80 | the row found is the first row at or after the start whose id matches and that is not booked; none exactly when no such row exists |
| `SheetScript.BookedTable` | components/AdminPage.tsx:77-85 | the slot sheet after `bookSlot`; stated by `SheetScript.BookedTableChangesOneRow`, `SheetScript.BookedRowCells`, `SheetScript.BookedSlotFetched` and `SheetScript.SecondBookingLeavesSheet` |
| `SheetScript.BookedTableChangesOneRow` | components/AdminPage.tsx:77-85 | booking never changes the header; with no match the sheet is unchanged; otherwise only the first matching unbooked row changes |
| `SheetScript.BookedRowCells` | components/AdminPage.tsx:81-82 | in that row column 5 becomes true and column 6 becomes `name + " (" + email + ")"`; all other cells are unchanged |
| `SheetScript.BookedSlotFetched` | components/AdminPage.tsx:60-85 | fetched after booking, the booked slot has the requested id and shows as booked by the candidate; every other slot is unchanged |
| `SheetScript.SecondBookingLeavesSheet` | components/AdminPage.tsx:80 | a marked row is no longer bookable: when no other data row is still bookable for that id, a second request for the same slot changes nothing |
| `SheetScript.Handle` | components/AdminPage.tsx:47-89 | `doPost` as a function of the request and the two sheets; stated by `SheetScript.HandleFrames`, `SheetScript.AnswersDifferWhenNothingMarked` and `AdminPage.SaveAllThenFetch` |
| `SheetScript.HandleFrames` | components/AdminPage.tsx:57-87 | a request answers failure exactly when it is `fetchConfig` and the guidelines do not parse; `bookSlot` always answers success with no data; reads change neither sheet; each write changes only its own sheet |
| `SheetScript.BookResponseAsWritten` | components/AdminPage.tsx:57-87 | as written: `bookSlot` always answers success with no data |
| `SheetScript.BookSlotReportsSuccessWithoutBooking` | components/AdminPage.tsx:77-87 | as written: a request for an already-booked slot leaves the sheet unchanged, yet the written answer is success and the intended answer is failure |
| `SheetScript.IntendedBookResponse` | components/AdminPage.tsx:77-87 | corrected: success exactly when the booking changed the sheet, which is exactly when a bookable row exists |
| `SheetScript.AnswersDifferWhenNothingMarked` | components/AdminPage.tsx:57-87 | the script's answer and the intended one differ exactly when no row is bookable, that is exactly when the booking leaves the sheet as it was |
| `SheetScript.Sheet.Clear` | components/AdminPage.tsx:67 | the sheet becomes empty |
| `SheetScript.Sheet.AppendRow` | components/AdminPage.tsx:68 | the row is added at the end |
| `SheetScript.Sheet.SetValue` | components/AdminPage.tsx:81 | one cell, addressed from 1, takes the value |
| `SheetScript.SaveSlots` | components/AdminPage.tsx:66-69 | the slot sheet becomes `SlotTable(slots)` |
| `SheetScript.SaveConfig` | components/AdminPage.tsx:73-76 | the config sheet becomes the header and the one config row |
| `SheetScript.BookSlot` | components/AdminPage.tsx:77-85 | the loop leaves the sheet equal to `BookedTable` of the old sheet, and reports a mark exactly when a bookable row existed |
| `SheetScript.Spreadsheet.constructor` | components/AdminPage.tsx:52-56 | two distinct, empty sheets |
| `SheetScript.Spreadsheet.DoPost` | components/AdminPage.tsx:47-89 | the response and both sheets afterwards are exactly what `Handle` gives for the request and the sheets before |

## Findings

| source | as written | input that shows it | evidently intended | confidence | as-written member | corrected member |
|---|---|---|---|---|---|---|
| components/AdminPage.tsx:77-87 | `bookSlot` leaves `result.success` true whether or not a row was marked | a sheet whose only row for slot `s1` is already booked, and a booking request for `s1` | success only when a row was marked, so that the client's "already booked" branch (App.tsx:72-77) can run | high (not executed) | `SheetScript.BookSlotReportsSuccessWithoutBooking` | `SheetScript.IntendedBookResponse` |

`SheetScript.Handle` and `SheetScript.Spreadsheet.DoPost` answer `bookSlot`
as the script does. `SheetScript.IntendedBookResponse` is the corrected
answer, and `SheetScript.AnswersDifferWhenNothingMarked` says exactly where
the two differ. The client takes the booking outcome as a parameter
(`Remote<bool>`), so `App.HandleBooking` is proved for both outcomes. With
the script as written, the client's "already booked" branch (App.tsx:72-77)
is reached only when the script throws (the catch at
components/AdminPage.tsx:87); the thrown exception is not modelled.

## Left out

- The HTTP wrapper in services/googleSheetService.ts (the URL check, `fetch`, CORS, JSON bodies) is not modelled. Its `data || []` for slots is `OrEmpty` over an optional list. Its pass-through of `success` is the `Remote<bool>` booking outcome.
- The generated greeting in services/geminiService.ts is not modelled. It is an arbitrary string event, and only the display fallback at App.tsx:148 is kept.
- Rendering, CSS, `alert`, `console`, the clipboard, the code-guide toggle and the "start over" reload (App.tsx:201) are not modelled. They are presentation or browser effects.
- Each handler is one atomic event, with its awaited results as parameters. So the loading screen shown while a booking or a reload is in flight is not modelled. Neither are late responses that arrive after navigation, nor the admin screen remounting after its "back" reload.
- New slot ids are parameters. `Date.now()` does not make them unique, and no uniqueness is claimed.
- Of the browser's form validation, only `required` is modelled, as the precondition of `Submit`. The `type=email` check is not modelled.
- Google Sheets' own cell coercion is not modelled. Numeric-looking ids and dates become numbers; an empty cell reads back as "". Cells here keep what was written, and an empty booker cell reads as no booker.
- SheetScript.Bookable: JavaScript's loose `==` and `!=` also count numeric text such as "1" as `true`, and can match a boolean id cell with a numeric id. The model compares exactly: a flag cell is booked only when it is `true` or "TRUE", and a boolean id cell never matches.
- SheetScript.AsText: a boolean cell in a text column is read as "true" or "false". The script would pass the raw boolean into a text field.
- Json.Parse: accepts only arrays of strings with no insignificant whitespace, and no `\u` escape of a surrogate. `JSON.parse` accepts more.
- Exceptions inside `doPost` other than the guidelines' `JSON.parse` are not modelled by `Handle`, `HandleFrames` or `DoPost`. For example, a Sheets call can fail, and the script would then answer `success: false` (components/AdminPage.tsx:87); a `saveSlots` that fails partway through its loop leaves the sheet partly written. The text in `result.error` is not modelled either.
- The creation of missing sheets is not modelled; a missing sheet behaves like an empty one.
- AdminPage.AdminEditor.EditName: requires a loaded config, as `config!` asserts. An edit made before the load finishes, which the source leaves to `{...null}`, is not modelled.
- AdminPage.AdminEditor.EditJobTitle: requires a loaded config, for the same reason as `EditName`.
- The editor has no handlers for the description and the guidelines, so none are modelled.
