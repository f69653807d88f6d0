# Salon booking front-end: the client-side rules

A Dafny model of the client-side rules of a hair-salon booking site. There are two
screens. The customer's booking dialog is a five-step wizard: services, personal
details, date and time, review, confirmation. The administrators' dashboard lists the
bookings, shows figures about them and moves each booking through its statuses. The
backend is a hosted database. Everything it answers arrives in the model as a parameter.

Modules, one per concern of the front-end:

- `Options`: the option type.
- `Text`: ECMAScript `String.prototype.trim` and decimal numerals.
- `Catalog`: services, service locations, and left-fold sums over a selection.
- `Selection`: the services step's `toggleService` and `removeService`, and its Continue button.
- `Pricing`: subtotal, travel fee, total and total duration, shown on the review step and in the dialog.
- `Durations`: `formatDuration` (one copy each in the services step, the review step and the dashboard) and a reader for the text it produces.
- `ContactDetails`: the personal step's trimmed validity check.
- `Schedule`: the time slot table, the date-time validity check and the calendar's `disabled` test.
- `Steps`: `handleNext` and `handleBack` as functions on the step.
- `Submission`: the draft, the confirm handler's guard, and the rows one submission inserts.
- `BookingModal`: the dialog as a class. `BookingWizard` holds the step, the draft, `loading` and `orderNumber`. It has one method per event.
- `AdminDashboard`: the dashboard figures, the actions offered per status, the status colours, and the class `Dashboard` with `fetchBookings` and `updateBookingStatus`.
- `Scenarios`: complete runs of the wizard, driven through the class's methods.

The confirm handler is asynchronous. It is modelled in two phases:

- `BeginConfirmBooking` applies the guard and sets `loading`. It records in `submitting` the draft the handler works on.
- `FinishConfirmBooking` receives the backend's answers: the signed-in user, the primary insert and the batch insert.

`handleNext` itself checks nothing. The step buttons do the gating: `PressContinue` and `PressBack` are the presses of those buttons, and `Next` and `Back` are the bare handlers. The ghost predicate `StepGatesHeld` records what the buttons guarantee. Every method except the bare `Next` keeps it, and with it the review step always passes the confirm handler's guard.

A calendar date is a day number counted in the visitor's local calendar. "Now" is a millisecond instant on the same clock and is passed in. Prices and durations are natural numbers.

The dashboard holds its rows in an array, in the backend's listing order. The model keeps them as a `seq` of rows and applies a status update to every row carrying the booking id.

## Model

| member | source | states |
|---|---|---|
| Text.Trim | src/components/booking/PersonalInfo.tsx:32 | the result is a slice of the string with only whitespace cut from either end, and it neither starts nor ends with whitespace |
| Text.TrimEmptyIff | src/components/booking/PersonalInfo.tsx:32 | a string trims to "" exactly when it has no non-whitespace character |
| Text.TrimNonEmptyImpliesNonEmpty | src/components/BookingModal.tsx:105 | a string that trims to something non-empty is itself non-empty |
| Text.Decimal | src/components/booking/ServiceSelection.tsx:83-85 | the numeral printed for a number is a non-empty digit string with no leading zero |
| Text.DecimalRoundTrip | src/components/booking/ServiceSelection.tsx:83-85 | reading back the printed numeral gives the number |
| Text.DecimalInjective | src/components/booking/ServiceSelection.tsx:83-85 | distinct numbers print differently |
| Catalog.Sum | src/components/booking/ServiceSelection.tsx:101-107 | the sum of no services is 0, and every element's price or duration is at most the sum |
| Catalog.SumAppend | src/components/booking/ServiceSelection.tsx:101-107 | the reduce-sum of a concatenation is the sum of the parts' sums |
| Catalog.SumBoundsElement | src/components/booking/ServiceSelection.tsx:101-107 | every element's price or duration is at most the sum |
| Catalog.SumRemoveAt | src/components/booking/ServiceSelection.tsx:101-107 | removing one element takes exactly its amount off the sum |
| Catalog.SumPermutation | src/components/booking/ServiceSelection.tsx:101-107 | two selections with the same elements in any order have the same sum |
| Selection.RemoveId | src/components/booking/ServiceSelection.tsx:97-99 | keeps exactly the elements whose id differs; no element with the id remains; never longer |
| Selection.Toggle | src/components/booking/ServiceSelection.tsx:88-95 | after toggling, the id is selected exactly when it was not before |
| Selection.RemoveIdAppend | src/components/booking/ServiceSelection.tsx:97-99 | filtering a concatenation filters each part and keeps the order |
| Selection.RemoveIdSingleton | src/components/booking/ServiceSelection.tsx:97-99 | a one-element selection is emptied exactly when its id matches |
| Selection.RemoveIdAbsent | src/components/booking/ServiceSelection.tsx:97-99 | removing an id that is not selected changes nothing |
| Selection.RemoveIdIdempotent | src/components/booking/ServiceSelection.tsx:97-99 | removing the same id twice is removing it once |
| Selection.RemoveIdShrinks | src/components/booking/ServiceSelection.tsx:97-99 | removing a selected id strictly shortens the selection |
| Selection.RemoveIdUniqueDropsOne | src/components/booking/ServiceSelection.tsx:97-99 | with unique ids, removing a selected id removes exactly one service |
| Selection.RemoveIdKeepsUnique | src/components/booking/ServiceSelection.tsx:97-99 | removing keeps the ids unique |
| Selection.ToggleAbsentAppends | src/components/booking/ServiceSelection.tsx:88-94 | toggling an absent id appends the service at the end and keeps the earlier elements in order |
| Selection.TogglePresentRemoves | src/components/booking/ServiceSelection.tsx:89-91 | toggling a present id removes every element with that id, keeping the rest in order |
| Selection.ToggleTwice | src/components/booking/ServiceSelection.tsx:88-94 | from a selection without the id, toggling the same service twice gives back the original selection |
| Selection.ToggleKeepsUnique | src/components/booking/ServiceSelection.tsx:88-95 | toggling keeps the ids unique |
| Selection.ContinueOffered | src/components/booking/ServiceSelection.tsx:287-297 | the Continue button is rendered exactly when some service is selected |
| Pricing.Subtotal | src/components/booking/ReviewBooking.tsx:51-53 | the subtotal of an empty selection is 0, and every selected price is at most the subtotal |
| Pricing.TotalDuration | src/components/booking/ReviewBooking.tsx:63-65 | the duration of an empty selection is 0, and every selected duration is at most the total |
| Pricing.TravelFee | src/components/booking/ReviewBooking.tsx:55-57 | 25 at home, 0 in the salon |
| Pricing.Total | src/components/booking/ReviewBooking.tsx:59-61 | the total covers both the subtotal and the travel fee |
| Pricing.TotalOfEmptySelection | src/components/booking/ReviewBooking.tsx:51-61 | with nothing selected the total is the travel fee: 0 in the salon |
| Pricing.TotalByLocation | src/components/booking/ReviewBooking.tsx:59-61 | the total is the subtotal plus 25 at home and the subtotal in the salon |
| Pricing.TotalIgnoresOrder | src/components/booking/ReviewBooking.tsx:51-65 | subtotal, total and total duration do not depend on the order of the selection |
| Pricing.SelectingAddsItsAmounts | src/components/booking/ServiceSelection.tsx:101-107 | selecting one more service adds exactly its price and its duration |
| Pricing.SubtotalCoversEachPrice | src/components/booking/ReviewBooking.tsx:51-53 | every selected price and duration is part of the totals |
| Pricing.TravelFeeLineIffAtHome | src/components/booking/ReviewBooking.tsx:181-186 | the travel-fee line is shown exactly for at-home appointments |
| Durations.FormatDuration | src/components/booking/ServiceSelection.tsx:79-86 | the text has an "h" exactly from one hour on, and ends in "h" exactly for whole hours |
| Durations.FormatDurationShapes | src/components/booking/ServiceSelection.tsx:79-86 | "{m}m" under an hour, "{h}h" for whole hours, "{h}h {m}m" otherwise |
| Durations.FormatDurationExamples | src/components/booking/ReviewBooking.tsx:42-49 | 0 shows "0m", 45 shows "45m", 75 shows "1h 15m", 120 shows "2h" |
| Durations.ParseHoursAndMinutes | src/components/booking/ServiceSelection.tsx:83 | "Xh Ym" reads back as 60X + Y minutes |
| Durations.ParseWholeHours | src/components/booking/ServiceSelection.tsx:83 | "Xh" reads back as 60X minutes |
| Durations.ParseMinutesOnly | src/components/booking/ServiceSelection.tsx:85 | "Ym" reads back as Y minutes |
| Durations.ParseFormatRoundTrip | src/components/booking/ServiceSelection.tsx:79-86 | every displayed duration reads back as the minutes it was made from |
| Durations.FormatDurationInjective | src/pages/AdminDashboard.tsx:121-128 | different durations never display the same text |
| ContactDetails.ContactValid | src/components/booking/PersonalInfo.tsx:32 | the details are valid exactly when name, email and phone each have a non-whitespace character; the location plays no part |
| ContactDetails.WhitespaceFieldInvalid | src/components/booking/PersonalInfo.tsx:129-144 | a whitespace-only field makes the details invalid and disables Continue |
| ContactDetails.ContactValidPassesConfirmGuard | src/components/BookingModal.tsx:105 | details that pass the trimmed check pass the confirm handler's untrimmed emptiness check |
| ContactDetails.BlankNameOnlyPassesConfirmGuard | src/components/BookingModal.tsx:105 | the converse fails: " " is not empty but is not a valid name |
| Schedule.TimeSlotsAreHalfHours | src/components/booking/DateTimeSelection.tsx:31-35 | the table has 18 entries, entry i being the label of 09:00 plus i half hours |
| Schedule.TimeSlotMinute | src/components/booking/DateTimeSelection.tsx:31-35 | slot i is a well-formed "HH:MM" at 9*60 + 30*i minutes, ending in "00" or "30" |
| Schedule.TimeSlotsTable | src/components/booking/DateTimeSelection.tsx:31-35 | 18 slots from "09:00" to "17:30", zero-padded, on the hour or half hour, each 30 minutes after the one before |
| Schedule.TimeSlotsIncreasing | src/components/booking/DateTimeSelection.tsx:31-35 | the slots strictly increase, so no time is repeated |
| Schedule.EmptyOptionIsPlaceholder | src/components/booking/DateTimeSelection.tsx:84-97 | the only option with value "" is the placeholder; every other value is a slot |
| Schedule.DateTimeValid | src/components/booking/DateTimeSelection.tsx:37 | a valid step has a date; for a value of the time select, the step is valid exactly when a date is picked and the time is a real slot, not the placeholder |
| Schedule.SummaryShownIffValid | src/components/booking/DateTimeSelection.tsx:118 | the appointment line is shown exactly when the step is valid, and Continue is disabled exactly when it is not |
| Schedule.PlaceholderTimeInvalid | src/components/booking/DateTimeSelection.tsx:37 | the placeholder time, or a missing date, makes the step invalid |
| Schedule.Weekday | src/components/booking/DateTimeSelection.tsx:71 | the weekday number is in 0..6 |
| Schedule.WeekdayCycle | src/components/booking/DateTimeSelection.tsx:71 | consecutive days have consecutive weekdays modulo 7, so every seventh day is a Sunday and a Monday follows it |
| Schedule.DateDisabled | src/components/booking/DateTimeSelection.tsx:71 | Sundays and past days are disabled; a future day is disabled exactly when it is a Sunday |
| Schedule.PastAndTodayDisabled | src/components/booking/DateTimeSelection.tsx:71 | every past day is disabled, and so is today after its first millisecond |
| Schedule.FutureWeekdayEnabled | src/components/booking/DateTimeSelection.tsx:71 | a future day that is not a Sunday can be picked |
| Schedule.FirstOpenDay | src/components/booking/DateTimeSelection.tsx:71 | the earliest selectable day is enabled, every earlier day is disabled, and it is at most two days away |
| Steps.NextStep | src/components/BookingModal.tsx:72-86 | one position forward from services, personal and date-time; review and confirmation unchanged; never confirmation |
| Steps.BackStep | src/components/BookingModal.tsx:88-102 | one position back from personal, date-time and review; services and confirmation unchanged |
| Steps.BackUndoesNext | src/components/BookingModal.tsx:72-102 | Back after Next returns to services, personal or date-time |
| Steps.NextUndoesBack | src/components/BookingModal.tsx:72-102 | Next after Back returns to personal, date-time or review |
| Steps.MovesNeverConfirm | src/components/BookingModal.tsx:72-102 | no sequence of Next and Back moves reaches confirmation |
| Submission.ConfirmGuard | src/components/BookingModal.tsx:105 | a passing draft has a service and also passes the date-time step's check: a date is picked and the time is not the placeholder |
| Submission.UserIdColumn | src/components/BookingModal.tsx:137 | the user column is null for an anonymous visitor and otherwise the user's (non-empty) id |
| Submission.PrimaryNotes | src/components/BookingModal.tsx:136 | the primary row's notes are the trimmed notes, or null exactly when they trim to empty |
| Submission.PrimaryRecord | src/components/BookingModal.tsx:126-140 | the primary row is for the first selected service, copies the draft's customer, date, time, location and user, and carries the trimmed notes, null exactly when they are blank |
| Submission.SecondaryRecords | src/components/BookingModal.tsx:144-156 | one secondary row per selected service after the first, in order; each carries the order reference note and the draft's customer, date, time, location and user |
| Submission.SubmittedRecords | src/components/BookingModal.tsx:126-156 | one row per selected service: the primary row first, then for each later position the row for that service with the order reference note |
| Submission.SubmittedRecordAt | src/components/BookingModal.tsx:126-156 | row i is the row for selected service i, with the primary notes at 0 and the order reference after |
| Submission.SubmittedRecordsMatchSelection | src/components/BookingModal.tsx:126-156 | one row per service in selection order, all sharing customer, date, time, location and user; notes as above |
| Submission.AnonymousRowsHaveNoUser | src/components/BookingModal.tsx:137 | without a user every row's user id is null |
| Submission.SingleServiceHasNoSecondaryRows | src/components/BookingModal.tsx:145 | one selected service produces the primary row only |
| BookingModal.ContinueEnabled | src/components/booking/DateTimeSelection.tsx:138-140 | a usable Continue always leads exactly one step forward |
| BookingModal.BackEnabled | src/components/booking/ReviewBooking.tsx:196-200 | a usable Back always leads exactly one step back; Back is always usable on personal and date-time, and never on services or confirmation |
| BookingModal.StepButtonGating | src/components/booking/PersonalInfo.tsx:129-144 | Continue is usable exactly when the step's check passes; Back is always enabled on personal and date-time, and on review exactly when not loading |
| BookingModal.SentRecords | src/components/BookingModal.tsx:126-163 | the primary row is always sent; a failed primary insert sends nothing more; a successful one sends one row per service |
| BookingModal.SentRecordsOnInsert | src/components/BookingModal.tsx:142-163 | after a successful primary insert the rows sent are exactly the submission's rows |
| BookingModal.ReviewGatesImplyConfirmGuard | src/components/BookingModal.tsx:105 | a draft that got through the step buttons to review passes the confirm guard |
| BookingModal.BookingWizard.constructor | src/components/BookingModal.tsx:44-52 | opened with a service: that service selected, on the personal step; otherwise on services with an empty draft; not loading, no order number |
| BookingModal.BookingWizard.TotalAmount | src/components/BookingModal.tsx:184-188 | the amount is the review step's total for the same selection and location |
| BookingModal.BookingWizard.Reset | src/components/BookingModal.tsx:54-70 | step services, every field at its default, order number empty; loading untouched |
| BookingModal.BookingWizard.Next | src/components/BookingModal.tsx:72-86 | the step moves as NextStep; nothing else changes |
| BookingModal.BookingWizard.Back | src/components/BookingModal.tsx:88-102 | the step moves as BackStep; nothing else changes; the gates stay held |
| BookingModal.BookingWizard.PressContinue | src/components/booking/DateTimeSelection.tsx:138-145 | handleNext runs exactly when the step's Continue is enabled (a non-empty selection, valid contact details, a date and a time); never reaches confirmation; the gates stay held |
| BookingModal.BookingWizard.PressBack | src/components/booking/ReviewBooking.tsx:196-204 | handleBack runs exactly when the step's Back is enabled; review stays put while loading |
| BookingModal.BookingWizard.ToggleService | src/components/booking/ServiceSelection.tsx:88-95 | only the selection changes, to the toggled selection; ids stay unique |
| BookingModal.BookingWizard.RemoveService | src/components/booking/ServiceSelection.tsx:97-99 | only the selection changes, to the filtered selection |
| BookingModal.BookingWizard.EditContact | src/components/BookingModal.tsx:237-250 | only the three contact fields change |
| BookingModal.BookingWizard.ChooseLocation | src/components/booking/PersonalInfo.tsx:89-91 | only the location changes |
| BookingModal.BookingWizard.SelectDate | src/components/booking/DateTimeSelection.tsx:67-71 | only the date changes, to a day the calendar allows |
| BookingModal.BookingWizard.ChooseTime | src/components/booking/DateTimeSelection.tsx:84-97 | only the time changes, to an option of the select |
| BookingModal.BookingWizard.EditNotes | src/components/booking/DateTimeSelection.tsx:107-114 | only the notes change |
| BookingModal.BookingWizard.BeginConfirmBooking | src/components/BookingModal.tsx:104-114 | starts exactly when the guard holds, then loading with the draft captured; otherwise nothing changes |
| BookingModal.BookingWizard.PressConfirm | src/components/booking/ReviewBooking.tsx:205-211 | ignored while loading; otherwise starts exactly when the guard holds, which the step gates guarantee |
| BookingModal.BookingWizard.FinishConfirmBooking | src/components/BookingModal.tsx:114-181 | sends the rows of SentRecords; on full success moves to confirmation with the primary order number, otherwise step and order number unchanged; loading ends either way; the draft is kept |
| AdminDashboard.PriceCell | src/pages/AdminDashboard.tsx:258 | the price, or 0 without a service |
| AdminDashboard.DurationCell | src/pages/AdminDashboard.tsx:254 | "-" exactly when the service or its duration is missing, otherwise text that reads back as the duration |
| AdminDashboard.Filter | src/pages/AdminDashboard.tsx:66-70 | keeps exactly the rows with that status string |
| AdminDashboard.Count | src/pages/AdminDashboard.tsx:66-68 | at most the number of rows, and positive exactly when some row carries that status |
| AdminDashboard.Revenue | src/pages/AdminDashboard.tsx:69-71 | at most the prices of all rows, and 0 when no row is completed |
| AdminDashboard.ComputeStats | src/pages/AdminDashboard.tsx:61-73 | total is the number of rows; the three counts add up to at most the total; revenue is at most all prices and 0 without completed rows |
| AdminDashboard.FilterAppend | src/pages/AdminDashboard.tsx:66-70 | filtering a concatenation filters each part |
| AdminDashboard.PriceTotalAppend | src/pages/AdminDashboard.tsx:69-71 | the price total of a concatenation is the sum of the parts' totals |
| AdminDashboard.CountsWithinTotal | src/pages/AdminDashboard.tsx:65-68 | pending, confirmed and completed counts add up to at most the total |
| AdminDashboard.FilterPriceTotalBound | src/pages/AdminDashboard.tsx:69-71 | the prices of rows with one status are at most the prices of all rows |
| AdminDashboard.CountShift | src/pages/AdminDashboard.tsx:66-68 | changing a row's status moves it from the old status's count to the new one's |
| AdminDashboard.RevenueShift | src/pages/AdminDashboard.tsx:69-71 | changing a row's status moves its price into or out of the revenue exactly when completed is entered or left |
| AdminDashboard.StatusChangeShiftsStats | src/pages/AdminDashboard.tsx:61-73 | a status change keeps the total and shifts counts and revenue by that row alone |
| AdminDashboard.OfferedActions | src/pages/AdminDashboard.tsx:270-297 | Confirm only for pending, Complete only for confirmed, Cancel for pending or confirmed |
| AdminDashboard.TargetStatus | src/pages/AdminDashboard.tsx:273-292 | each button targets a known status other than pending; only Cancel targets cancelled |
| AdminDashboard.TransitionRelation | src/pages/AdminDashboard.tsx:270-297 | the reachable moves are exactly pending to confirmed or cancelled, and confirmed to completed or cancelled |
| AdminDashboard.TerminalStatuses | src/pages/AdminDashboard.tsx:270-297 | completed, cancelled and unknown statuses offer no action and have no move |
| AdminDashboard.TransitionRaisesRank | src/pages/AdminDashboard.tsx:270-297 | every move strictly advances a booking's life stage |
| AdminDashboard.ChainRank | src/pages/AdminDashboard.tsx:270-297 | along a chain of moves the k-th status is at least k stages along |
| AdminDashboard.ChainsAreShort | src/pages/AdminDashboard.tsx:270-297 | no booking passes through more than three statuses |
| AdminDashboard.StatusColor | src/pages/AdminDashboard.tsx:111-119 | gray exactly for strings other than the four known statuses |
| AdminDashboard.StatusColorsDistinct | src/pages/AdminDashboard.tsx:111-119 | the four known statuses get four different colours |
| AdminDashboard.ApplyStatusUpdate | src/pages/AdminDashboard.tsx:88-91 | rows with the id get the new status, every other row is unchanged, the length is kept |
| AdminDashboard.UpdateTouchesOneRow | src/pages/AdminDashboard.tsx:88-91 | with unique ids the update changes exactly the row pressed |
| AdminDashboard.ActionShiftsStats | src/pages/AdminDashboard.tsx:270-297 | Confirm moves one booking from pending to confirmed, Complete from confirmed to completed adding its price to revenue, Cancel removes one from pending or confirmed; the total is kept |
| AdminDashboard.RowsOf | src/pages/AdminDashboard.tsx:61 | null data is an empty list |
| AdminDashboard.Dashboard.constructor | src/pages/AdminDashboard.tsx:29-37 | no rows, zero figures, spinner on |
| AdminDashboard.Dashboard.FetchBookings | src/pages/AdminDashboard.tsx:44-84 | on success rows and figures are replaced, the figures computed from the rows; on error both are kept; loading ends either way |
| AdminDashboard.Dashboard.UpdateBookingStatus | src/pages/AdminDashboard.tsx:86-109 | sends the given id and status; a rejected update changes nothing; an accepted one re-fetches |
| AdminDashboard.Dashboard.PressAction | src/pages/AdminDashboard.tsx:270-297 | an offered button sends the pressed booking's id with the button's target status; a rejected update changes nothing; after an accepted one a fetched list replaces the rows with figures computed from it (the updated rows when the backend lists them), and a failed fetch keeps rows and figures; the spinner is off afterwards |
| Scenarios.TenOClockOffered | src/components/booking/DateTimeSelection.tsx:31-35 | "10:00" is an option of the time select |
| Scenarios.SingleServiceTotal | src/components/BookingModal.tsx:184-188 | one service booked in the salon costs its price |
| Scenarios.TwoServicesAtHome | src/components/booking/ReviewBooking.tsx:51-65 | $40 and $60 services at home give subtotal 100, fee 25, total 125, 75 minutes shown "1h 15m" |
| Scenarios.SingleServiceBooking | src/components/BookingModal.tsx:104-182 | a complete single-service run ends on confirmation with the backend's order number, the service's price and one row for that service, day and time |
| Scenarios.EmptyTimeRejected | src/components/BookingModal.tsx:105-112 | with the placeholder time Continue does nothing, and even at review the confirm handler refuses without loading |
| Scenarios.CloseAfterPartialInput | src/components/BookingModal.tsx:54-70 | closing after partial input empties every field and returns to the services step |

## Left out

- The database client: every select, insert and update, and `auth.getUser`. Their answers are method parameters: `BackendOutcome` for the wizard, and `FetchResult` plus an update flag for the dashboard. Server guarantees are not modelled: unique order numbers, status checks on the server, and no rollback of a stored primary row when the batch insert fails.
- The sorting of the admin listing by date and time is done by the backend. The model takes the rows in the order given.
- `src/components/ServiceCatalog.tsx` is not part of this model. It fetches and displays services and opens the dialog. Its copy of `formatDuration` is the same function as `Durations.FormatDuration`.
- `src/components/booking/ConfirmationScreen.tsx` is not part of this model. It only displays, and copies the order number to the clipboard.
- The services step's own fetch of categories and services, and its loading spinner, are left out.
- Rendering is left out: JSX layout, CSS classes, toasts, console logging, the progress dots, `getDialogTitle`, and the dashboard's spinner while `loading` holds.
- Dates are left abstract: date-fns formatting, the `toISOString` date column and time zones. A date is a local day number and "now" is a parameter. `SelectDate` takes "now" as a ghost parameter, so the model requires what the calendar enforces.
- Submission.RecordFor: the model stores the picked local day as `bookingDate`. The code stores `date.toISOString().split('T')[0]` (src/components/BookingModal.tsx:133 and 151), the UTC date of the picked local midnight, so east of UTC the row gets the day before the one picked. `Scenarios.SingleServiceBooking` states the picked day too.
- Prices and durations are natural numbers. `Number(price)` floating point and `toFixed(2)` are display concerns and are left out.
- Text.Decimal: gives the plain digit string for every natural number. JavaScript prints that form only below 10^21 and switches to exponent notation from there on; durations that large are not modelled.
- Async timing is left out. Only the in-flight flag `loading` and the draft captured in `submitting` are modelled. Three consequences follow:
  - closing the dialog during a submission resets the step to services, so later edits change the draft shown but not the captured `submitting` draft whose rows are sent;
  - `BookingModal.BookingWizard.FinishConfirmBooking` applies its answer even after a `Reset` made during the submission, as the handler does;
  - in the dashboard the re-fetch after an update completes at once.
- The once-only state initialiser is the constructor. It does not run again when the dialog is reopened.
- Trimming covers the ECMAScript whitespace and line-terminator characters. There is no Unicode normalisation.
