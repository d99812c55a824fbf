# Voyage scheduling form: a verified model

This project models the client-side logic of a small voyage-scheduling web app.
It covers three React components:

- **The date/time picker** (`DatetimePicker`). It holds two state cells: the selected
  date, which is absent until a day is picked, and the text of a time input. A time
  edit and a calendar day selection update them. After each update an effect hands the
  selected date, when there is one, to the owning form.
- **The create-voyage form** (`AddVoyageForm`). Its zod `FormSchema` checks five fields
  on submit. An effect copies the two composed timestamps into the form and sets or
  clears an error on `arrival`. A submit either sends nothing, fails with
  "Failed to add the voyage", or creates the voyage and invalidates the `voyages` query.
- **The multi-select checkbox list** (`CheckboxInput`). An item is checked when its id
  is in the value list. Checking appends the id. Unchecking filters out every copy.

Modules:

- `Wrappers` (`wrappers.dfy`): `Option` and `Result`.
- `Timestamps` (`timestamps.dfy`): a JavaScript `Date` as a year/month/day/hour/minute
  record or `Invalid`. `Before` compares them lexicographically, and every comparison
  with an invalid date is false, as with `NaN`.
- `TimeParse` (`time_parse.dfy`): `split(':')`, `parseInt(str, 10)`, and the
  `"HH:MM"` text an `<input type="time">` holds.
- `Datetime` (`datetime.dfy`): `TimeChange` and `DaySelect` say what one event does to the
  picker's two cells, and `Emitted` says what the effect then passes to `setDatetime`.
  The class `DatetimePicker` updates its fields in place and is proved against these
  functions.
- `VoyageForm` (`voyage_form.dfy`): the schema (`Validate`), the ordering effect
  (`SyncValues`, `SyncErrors`), the mutation (`Mutate`) and the submit outcome
  (`Submit`). The class `AddVoyageForm` holds the timestamps, the values and the errors.
- `Checkbox` (`checkbox.dfy`): `IsChecked`, `Without` (the `filter`) and `OnCheckedChange`.

Three behaviours of the code are worth knowing, and the model keeps them:

- The ordering rule is not part of `FormSchema`. react-hook-form's `handleSubmit`
  replaces the form's errors with the schema's result. So an arrival before the
  departure is flagged live, but it does not block a submit. See
  `OrderingDoesNotBlockSubmit`.
- A time typed before any day is picked is buffered as typed. It is not validated.
  Applying it later has no `NaN` guard, so a malformed buffered time gives an invalid
  date. An invalid `Date` is still truthy, so it is emitted and copied into the form.
  There, zod rejects it with "Invalid date".
- A time text without `':'`, such as `"10"`, has no minutes piece, so `minutes` is
  `undefined`. `Number.isNaN(undefined)` is false, so a time edit with a day selected
  passes the guard and stores and emits an invalid date. See `TimeChangeWithoutMinutes`.
- The form has no unit-type field and no minimum unit-type count. A successful create
  invalidates only `voyages`; it does not refetch vessels or unit types. There is no
  guard against overlapping submits, and no freshness or subscriber tracking.

## Model

| member | source | states |
|---|---|---|
| `Timestamps.BeforeIrreflexive` | src/components/CreateVoyageForm.tsx:81 | No date is strictly later than itself, so equal departure and arrival raise no ordering error. |
| `Timestamps.BeforeTransitive` | src/components/CreateVoyageForm.tsx:81 | Comparing `getTime()` values is transitive. |
| `Timestamps.BeforeTotal` | src/components/CreateVoyageForm.tsx:81 | Two valid dates are equal, or one of them is earlier. |
| `Timestamps.BeforeAsymmetric` | src/components/CreateVoyageForm.tsx:81 | Of two dates, at most one is earlier than the other. |
| `Timestamps.AtOrBeforeIffNotAfter` | src/components/Inputs/Datetime.tsx:110 | For valid dates, `a <= b` holds exactly when `b` is not earlier than `a`. |
| `TimeParse.TrimStart` | src/components/Inputs/Datetime.tsx:54 | `parseInt` skips exactly the leading whitespace: the result is a suffix that does not start with whitespace, and everything cut was whitespace. |
| `TimeParse.DigitPrefix` | src/components/Inputs/Datetime.tsx:54 | `parseInt` reads the longest run of leading decimal digits. |
| `TimeParse.JoinSplit` | src/components/Inputs/Datetime.tsx:54 | Joining the pieces of `split(':')` with `':'` gives back the original text. |
| `TimeParse.SplitPiecesLackSeparator` | src/components/Inputs/Datetime.tsx:54 | No piece of `split(':')` contains a colon. |
| `TimeParse.SplitJoin` | src/components/Inputs/Datetime.tsx:54 | Splitting a join of colon-free pieces gives back the pieces. |
| `TimeParse.ParseIntDigits` | src/components/Inputs/Datetime.tsx:54 | `parseInt` of a digit run followed by a non-digit (or nothing) is the run's value; trailing text is ignored. |
| `TimeParse.ParseFormatTime` | src/components/Inputs/Datetime.tsx:72-74 | The hours and minutes of any `"HH:MM"` time-input value are read back exactly, and the minutes are present. |
| `TimeParse.NoColonNoMinutes` | src/components/Inputs/Datetime.tsx:54 | A time without `':'` has `undefined` minutes and hours `parseInt` of the whole text. It passes the `NaN` guard exactly when the hours are a number, and never counts as numeric. |
| `TimeParse.HourOnlyParts` | src/components/Inputs/Datetime.tsx:54 | A bare run of digits such as `"10"` reads as that number of hours with `undefined` minutes. |
| `TimeParse.EmptyTimeParts` | src/components/Inputs/Datetime.tsx:54-55 | A cleared time input `""` gives `NaN` hours and `undefined` minutes, and fails the `NaN` guard. |
| `Datetime.NewDate` | src/components/Inputs/Datetime.tsx:56-62 | The rebuilt date is valid exactly when the base date is valid and both parts are numbers. It then has the base's year, month and day and the new hours and minutes. |
| `Datetime.TimeChangeWithoutDate` | src/components/Inputs/Datetime.tsx:50-53 | With no day selected, a time edit stores the text unvalidated, leaves the selection absent, and emits nothing. |
| `Datetime.TimeChangeMalformedIgnored` | src/components/Inputs/Datetime.tsx:54-55 | With a day selected, a time whose hours are `NaN`, or whose minutes are present and `NaN`, leaves both cells unchanged and emits nothing. |
| `Datetime.TimeChangeWithoutMinutes` | src/components/Inputs/Datetime.tsx:54-64 | With a day selected, a time without `':'` whose hours parse passes the guard: the selection becomes an invalid date, the text is stored, and the invalid date is emitted. |
| `Datetime.HourOnlyEditGivesInvalid` | src/components/Inputs/Datetime.tsx:54-64 | Editing the time to a bare hour such as `"10"` with any day selected stores the text and stores and emits an invalid date. |
| `Datetime.TimeChangeSetsTime` | src/components/Inputs/Datetime.tsx:56-64 | With a valid day selected, entering `"HH:MM"` keeps the day, sets that hour and minute, stores the text, and emits the new selection. |
| `Datetime.TimeChangeEmitsIff` | src/components/Inputs/Datetime.tsx:43-65 | A time edit emits exactly when a day is selected and the time passes the `NaN` guard. What it emits is the new selection, and it is a valid date exactly when the selected day is valid and both hours and minutes are numbers. |
| `Datetime.InvalidSelectionPersists` | src/components/Inputs/Datetime.tsx:54-62 | Once the selection is an invalid date, no time edit makes it valid again. |
| `Datetime.DaySelectNone` | src/components/Inputs/Datetime.tsx:68-70 | Deselecting the day clears the selection and keeps the time text. |
| `Datetime.DaySelectEmptyTime` | src/components/Inputs/Datetime.tsx:68-70 | With an empty time text, the picked date is adopted unchanged. |
| `Datetime.DaySelectAppliesTime` | src/components/Inputs/Datetime.tsx:72-82 | A buffered `"HH:MM"` is applied to the picked day: same year, month and day, buffered hour and minute. |
| `Datetime.DaySelectMalformedTime` | src/components/Inputs/Datetime.tsx:72-82 | With no `NaN` guard, a non-empty buffered time that does not parse turns the picked day into an invalid date. |
| `Datetime.HourOnlyTimeGivesInvalid` | src/components/Inputs/Datetime.tsx:72-82 | For example, the buffered text `"10"` makes any picked day an invalid date. |
| `Datetime.DaySelectDeterministic` | src/components/Inputs/Datetime.tsx:67-83 | The result of a day selection depends only on the picked date and the time text. It does not depend on the previous selection. |
| `Datetime.DaySelectEmits` | src/components/Inputs/Datetime.tsx:43-46 | After a day selection the owner receives the new selection exactly when it is present. |
| `Datetime.BufferedTimeThenDay` | src/components/Inputs/Datetime.tsx:48-83 | Typing a time before picking a day emits nothing. The day picked next is emitted at once, at the typed time. |
| `Datetime.SelectableIff` | src/components/Inputs/Datetime.tsx:110 | A day is selectable exactly when it is strictly after "now" and not before 1900-01-01. |
| `Datetime.SelectableAfterNow` | src/components/Inputs/Datetime.tsx:110 | When "now" is not before 1900-01-01, a day is selectable exactly when it is strictly after "now". |
| `Datetime.DatetimePicker.constructor` | src/components/Inputs/Datetime.tsx:37-41 | On mount nothing is selected, and the time text is `defaultTime`, which is `"15:00"` unless supplied. |
| `Datetime.DatetimePicker.RunEffect` | src/components/Inputs/Datetime.tsx:43-46 | The effect calls the owner with the selection exactly when one is present, and with that selection. |
| `Datetime.DatetimePicker.HandleTimeChange` | src/components/Inputs/Datetime.tsx:48-65 | Updates the two fields as `TimeChange` says, with the guard testing only `NaN` numbers, and returns what the effect then emits. |
| `Datetime.DatetimePicker.HandleDaySelect` | src/components/Inputs/Datetime.tsx:67-83 | Updates the two fields as `DaySelect` says and returns what the effect then emits. |
| `VoyageForm.IssueOfField` | src/components/CreateVoyageForm.tsx:22-38 | The schema raises an issue for a field exactly when the field is unacceptable. The issue carries the field's required message if the field is unset, zod's "Invalid date" for an invalid date, and zod's minimum-length message for `""`. |
| `VoyageForm.ValidateReportsEachField` | src/components/CreateVoyageForm.tsx:22-38 | Validation reports every failing field and only failing fields, each with its message; a failing field does not hide the others. |
| `VoyageForm.MissingDateIsRequired` | src/components/CreateVoyageForm.tsx:23-28 | A missing departure or arrival fails with "A departure date is required." or "An arrival date is required.". |
| `VoyageForm.EmptyTextRejected` | src/components/CreateVoyageForm.tsx:29-37 | An empty port of loading, port of discharge or vessel makes validation fail, and each empty one is reported with zod's minimum-length message. |
| `VoyageForm.ValidateOkIff` | src/components/CreateVoyageForm.tsx:22-38 | The schema accepts exactly when all five fields are acceptable, and then passes on the values unchanged. |
| `VoyageForm.SubmitErrorsMatchValidation` | src/components/CreateVoyageForm.tsx:105 | After a submit, the form holds an error for exactly the failing fields. It holds none exactly when the schema accepts. |
| `VoyageForm.OrderingErrorIff` | src/components/CreateVoyageForm.tsx:81-85 | With both timestamps set, the arrival error is set exactly when departure is strictly later than arrival, with "Arrival date cannot be before departure date.". Other fields' errors are untouched. |
| `VoyageForm.OrderingClearedWhenNotEarlier` | src/components/CreateVoyageForm.tsx:83-85 | An arrival equal to or after the departure clears the arrival error. |
| `VoyageForm.OrderingClearedWhenIncomplete` | src/components/CreateVoyageForm.tsx:81-85 | If either timestamp is unset or invalid, the arrival error is cleared. |
| `VoyageForm.SyncCopiesOnlyPresent` | src/components/CreateVoyageForm.tsx:78-79 | A set timestamp is copied into its form field. An unset one never overwrites the field. The other fields are untouched. |
| `VoyageForm.SubmitOutcomes` | src/components/CreateVoyageForm.tsx:54-94 | A request is sent exactly when the schema accepts, and its payload is the validated values. A non-ok response yields "Failed to add the voyage". A rejected fetch yields its own message. Success invalidates exactly `["voyages"]`. |
| `VoyageForm.OrderingDoesNotBlockSubmit` | src/components/CreateVoyageForm.tsx:76-94 | For any acceptable values whose departure is later than the arrival, and any response, the arrival error is set live, yet a submit sends the values with both timestamps unchanged. |
| `VoyageForm.OrderingViolationExample` | src/components/CreateVoyageForm.tsx:76-94 | A 10:00 departure with a 09:00 arrival on the same day is flagged and, on a successful response, created with `voyages` invalidated. |
| `VoyageForm.AddVoyageForm.constructor` | src/components/CreateVoyageForm.tsx:73-74 | On mount, both composed timestamps, all form values and all errors are empty. |
| `VoyageForm.AddVoyageForm.SyncEffect` | src/components/CreateVoyageForm.tsx:76-86 | The effect updates the values as `SyncValues` says and the errors as `SyncErrors` says. |
| `VoyageForm.AddVoyageForm.SetDepartureDT` | src/components/CreateVoyageForm.tsx:73-86 | Setting the departure timestamp re-runs the effect. The arrival timestamp stays as it was. |
| `VoyageForm.AddVoyageForm.SetArrivalDT` | src/components/CreateVoyageForm.tsx:74-86 | Setting the arrival timestamp re-runs the effect. The departure timestamp stays as it was. |
| `VoyageForm.AddVoyageForm.Choose` | src/components/Inputs/Select.tsx:40 | A select sets its own field and changes no other field. |
| `VoyageForm.AddVoyageForm.HandleSubmit` | src/components/CreateVoyageForm.tsx:88-95 | A submit replaces the errors with the schema's result, dropping a live ordering error. Its outcome is that of `Submit` on the current values. |
| `Checkbox.WithoutMembership` | src/components/Inputs/Checkbox.tsx:56 | An id remains after unchecking exactly when it was present and is not the unchecked id. |
| `Checkbox.WithoutMultiset` | src/components/Inputs/Checkbox.tsx:56 | Unchecking deletes exactly the copies of the id, and every other id keeps its count. |
| `Checkbox.WithoutLength` | src/components/Inputs/Checkbox.tsx:56 | Unchecking shortens the list by the number of copies of the id, and never lengthens it. |
| `Checkbox.WithoutKeepsOrder` | src/components/Inputs/Checkbox.tsx:56 | Unchecking keeps the other ids in their original relative order. |
| `Checkbox.WithoutAbsent` | src/components/Inputs/Checkbox.tsx:56 | Filtering out an id that is not present leaves the list unchanged. |
| `Checkbox.WithoutAppend` | src/components/Inputs/Checkbox.tsx:56 | Filtering distributes over concatenation. |
| `Checkbox.Check` | src/components/Inputs/Checkbox.tsx:52-55 | Checking appends the id at the end: the length grows by one, the old entries keep their places, and the item then shows as checked. |
| `Checkbox.Uncheck` | src/components/Inputs/Checkbox.tsx:52-56 | Unchecking leaves no copy of the id, so the item shows as unchecked. It keeps the other ids in order and with their counts, and never lengthens the list. |
| `Checkbox.UncheckAbsent` | src/components/Inputs/Checkbox.tsx:56 | Unchecking an id that is not selected changes nothing. |
| `Checkbox.CheckThenUncheck` | src/components/Inputs/Checkbox.tsx:55-56 | Checking an unselected id and then unchecking it restores the original list. |
| `Checkbox.UncheckIdempotent` | src/components/Inputs/Checkbox.tsx:56 | Unchecking twice is the same as unchecking once. |
| `Checkbox.UnsetValue` | src/components/Inputs/Checkbox.tsx:52-56 | With no value set, nothing shows as checked, checking throws, and unchecking leaves the value unset. |

## Left out

- JavaScript `Date` arithmetic is not modelled: no time zones, no roll-over of out-of-range hours or minutes (such as `"25:99"`) into the next day, no mapping of years 0 to 99 to 1900 to 1999, and no millisecond range limit. Timestamps are compared lexicographically, which matches `getTime()` for in-range values on one time zone.
- Timestamps have minute precision. "Now" is a parameter truncated to the minute; this keeps `date <= new Date()` the same for the calendar's midnight dates. The clock is not read.
- `new Date('1900-01-01')` is UTC midnight in JavaScript; here it is midnight in the same zone as the other dates.
- `parseInt` yields exact integers: the loss of precision for digit runs longer than a double can hold is not modelled.
- `setDatetime` is modelled as the form's `SetDepartureDT` and `SetArrivalDT`, called with what the picker's effect emits. React's scheduling, batching and identity-based re-render bail-outs are not modelled; an event handler that calls a state setter counts as re-rendering.
- The checkbox's `checked` argument is a boolean. The `"indeterminate"` state of the underlying checkbox, which is truthy, is not modelled.
- react-hook-form's re-validation of a field when it changes after a first submit is not modelled; errors change only through the ordering effect and submit.
- The request body's JSON encoding and the create and list API handlers are not part of this model; the create request is a `Response` parameter. React Query's cache, toasts, the sheet and popover, and all rendering are not modelled either.
- The page listing voyages (`src/pages/index.tsx`), its date formatting and its delete request are not part of this model.
