# Good Cut booking core, modelled in Dafny

Good Cut is a barbershop web application. Customers book an appointment in a
four-step modal (barber, service, date and time, contact data). Staff manage
barbers, services, bookings and walk-in cuts from an admin area and read
reports. All state lives in three in-memory stores that are mirrored to the
browser's storage:

- the barber store holds the barbers, the bookings and a queue of
  notification messages;
- the service store holds the service catalogue;
- the settings store holds the shop's settings record.

The project models those stores and the computations the screens run over
them:

- The stores are classes whose fields are sequences or records. Each
  operation is a method whose `ensures` ties the new state to a pure function
  on the old state (append, replace by id, set a status by id, remove by id).
  The meaning of those functions is proved once: lengths and order, which
  entries change and which do not, membership and multiplicity.
- The notification queue keeps a count of the expiry timers still running.
  Posting appends and starts a timer. Each `Expire` step removes the oldest
  message.
- Loading from storage is a function of what storage gave back: nothing, text
  that does not parse, or a parsed value.
- The booking modal has four parts:
  - the per-slot availability rule, a function on the slot template and the
    bookings;
  - the wizard as a state machine with clamped navigation and per-step guards;
  - a class around that state machine;
  - the submission into the barber store.
- The walk-in panel, the booking list, the service editor and the reports are
  functions with their specifications, plus classes for the form state that
  the handlers mutate. The weekday tally is a loop over the bookings.
- The seed services and the 19-slot day template are constants, with lemmas
  about their shape.

Places where the code does not keep its own promises; the model follows the code.
- `clearNotifications` does not cancel the expiry timers already running, so
  a later message can be dropped early (`BarberContext.ClearKeepsTimers`).
- The slot test ignores booking status, so cancelled bookings keep blocking
  their slot (`BookingModal.CancelledStillBlocks`).
- Bookings made in the customer modal carry no status, no price and no
  walk-in flag, although the record type declares the status as mandatory.
  Such a booking is labelled "Pendiente", but the pending filter and the
  pending counter leave it out, and reports never include it.
- Step 2 of the modal lists the six seed services, including the service under
  maintenance, not the service store's current list.
- The store never checks for a double booking. Re-activating a cancelled
  booking is not checked either
  (`BarberContext.ReactivationCanDoubleBook`).
- A time picked on one date stays in the draft when the date changes. A
  customer can therefore confirm a time that step 3 now shows as taken, and
  the store ends up with two live bookings for one barber, date and time
  (`BookingModal.StaleTimeCanDoubleBook`).
- The weekday tally parses a "YYYY-MM-DD" date as midnight UTC and reads the
  day in local time. West of UTC, as in Colombia, every booking is therefore
  tallied under the day before its date, such as a Monday under "Domingo". The
  model leaves `weekday` abstract and does not fix the shift.
- Walk-ins get no availability check. Their time need not be a slot of the
  template (`WalkInCuts.WalkInTimeNeedNotBeASlot`).

Module layout: `Seqs` holds the generic list operations the code uses
(filter, count, conditional map, map, find, find-last, subsequence) and their
lemmas. `Text` holds lower-casing and substring search. `Types` mirrors
`types/index.ts`, and `MockData` mirrors `data/mockData.ts`. Each remaining
module mirrors one source file: `BarberContext`, `ServiceContext`,
`SettingsContext`, `BookingModal`, `WalkInCuts`, `ManageBookings`,
`ManageServices` and `Reports`.

Inputs the code reads from its environment become parameters:
- ids are `id: string`;
- the walk-in form's default date and time are `today` and `now`;
- the browser's delete confirmation is `confirmed: bool`;
- the browser's email and URL syntax checks on the `type="email"` and `type="url"` inputs are `emailOk` and `urlOk: string -> bool`;
- the reports' date window is `inRange: string -> bool`;
- the day of the week the tally uses is `weekday: string -> int`: what `getDay()` gives in the browser's local time for the date parsed as midnight UTC.

## Model

| member | source | states |
|---|---|---|
| Types.StatusName | project/src/types/index.ts:75 | a booking status is one of the literals "pending", "completed", "cancelled" |
| Types.StatusNameInjective | project/src/types/index.ts:75 | distinct booking statuses have distinct literals |
| Types.LoadOr | project/src/context/BarberContext.tsx:37-54 | a parsed saved value is used as it is; a missing or unparsable one yields the fallback |
| MockData.Minutes | project/src/types/index.ts:45 | an "HH:MM" label denotes a non-negative minute count |
| MockData.MinutesExamples | project/src/data/mockData.ts:77-95 | "09:00", "09:30" and "18:00" denote 540, 570 and 1080 minutes |
| MockData.TemplateShape | project/src/data/mockData.ts:76-96 | the template has 19 slots, from "09:00" to "18:00", every label is "HH:MM" and every slot is available |
| MockData.TemplateHalfHourSteps | project/src/data/mockData.ts:77-95 | consecutive slots are exactly 30 minutes apart |
| MockData.SpacedOffset | project/src/data/mockData.ts:77-95 | in an evenly spaced template, slot j starts step*(j-i) minutes after slot i |
| MockData.TemplateStrictlyIncreasing | project/src/data/mockData.ts:77-95 | template times strictly increase, so no label occurs twice |
| MockData.SeedServicesShape | project/src/data/mockData.ts:12-73 | six seed services with distinct ids "1" to "6", positive prices and durations, all active except "6", which is in maintenance |
| MockData.SeedActiveCount | project/src/data/mockData.ts:71 | filtering the seed list on active leaves 5 services |
| BarberContext.ReplaceBarber | project/src/context/BarberContext.tsx:72 | same length; every barber with the new barber's id becomes it, every other entry stays in place |
| BarberContext.RemoveBarber | project/src/context/BarberContext.tsx:78 | an order-preserving subsequence holding exactly the barbers with another id, each as often as before |
| BarberContext.SetStatus | project/src/context/BarberContext.tsx:90-92 | same length; bookings with the id get the new status and nothing else changes |
| BarberContext.RemoveBooking | project/src/context/BarberContext.tsx:107 | an order-preserving subsequence holding exactly the bookings with another id, each as often as before |
| BarberContext.SetStatusIdempotent | project/src/context/BarberContext.tsx:88-99 | setting the same status twice equals setting it once |
| BarberContext.SetStatusKeepsEverythingButStatus | project/src/context/BarberContext.tsx:90-92 | a status change alters no other field of any booking |
| BarberContext.AppendCanDoubleBook | project/src/context/BarberContext.tsx:83-86 | appending can create two live bookings for one barber, date and time |
| BarberContext.ReactivationCanDoubleBook | project/src/context/BarberContext.tsx:88-99 | re-activating a cancelled booking whose slot was re-booked creates a double booking |
| BarberContext.BarberStore.constructor | project/src/context/BarberContext.tsx:37-54 | missing or unparsable saved lists load as empty; the queue starts empty |
| BarberContext.BarberStore.Post | project/src/context/BarberContext.tsx:112-118 | the message joins the tail of the queue and one more timer runs; barbers and bookings unchanged |
| BarberContext.BarberStore.Expire | project/src/context/BarberContext.tsx:115-117 | a firing timer removes the head of the queue, and on an empty queue changes nothing |
| BarberContext.BarberStore.ClearNotifications | project/src/context/BarberContext.tsx:120 | the queue becomes empty, running timers are kept |
| BarberContext.BarberStore.AddBarber | project/src/context/BarberContext.tsx:66-69 | the barber is appended with no id check, bookings unchanged, one message posted |
| BarberContext.BarberStore.UpdateBarber | project/src/context/BarberContext.tsx:71-74 | barbers become the replace-by-id result; a message is posted even when no id matches |
| BarberContext.BarberStore.DeleteBarber | project/src/context/BarberContext.tsx:76-80 | barbers become the remove-by-id result, bookings untouched; a message only if a barber had the id |
| BarberContext.BarberStore.AddBooking | project/src/context/BarberContext.tsx:83-86 | the booking is appended with no conflict check; the message depends only on the walk-in flag |
| BarberContext.BarberStore.UpdateBookingStatus | project/src/context/BarberContext.tsx:88-99 | bookings become the set-status result; a message naming the first match only if the id exists |
| BarberContext.BarberStore.DeleteBooking | project/src/context/BarberContext.tsx:101-109 | bookings become the remove-by-id result; a message if and only if the booking existed |
| BarberContext.ExpiryIsFifo | project/src/context/BarberContext.tsx:112-118 | after posting a then b, the first expiry leaves exactly [b] |
| BarberContext.ClearKeepsTimers | project/src/context/BarberContext.tsx:115-120 | after post, clear, post, the old timer removes the new message |
| BarberContext.DeleteBarberKeepsBookings | project/src/context/BarberContext.tsx:76-80 | deleting a barber keeps the bookings that name them |
| ServiceContext.ReplaceService | project/src/context/ServiceContext.tsx:54-56 | same length; matching services become the whole new record, the others stay in place |
| ServiceContext.SetServiceStatus | project/src/context/ServiceContext.tsx:58-60 | same length; matching services change only their status |
| ServiceContext.RemoveService | project/src/context/ServiceContext.tsx:62-64 | an order-preserving subsequence holding exactly the services with another id |
| ServiceContext.SetServiceStatusIdempotent | project/src/context/ServiceContext.tsx:58-60 | changing to the same status twice equals changing it once |
| ServiceContext.ServiceStore.constructor | project/src/context/ServiceContext.tsx:29-36 | a missing or unparsable saved list loads the seed services |
| ServiceContext.ServiceStore.AddService | project/src/context/ServiceContext.tsx:49-52 | one service is appended, its status forced to active |
| ServiceContext.ServiceStore.UpdateService | project/src/context/ServiceContext.tsx:54-56 | services become the replace-by-id result |
| ServiceContext.ServiceStore.UpdateServiceStatus | project/src/context/ServiceContext.tsx:58-60 | services become the set-status result |
| ServiceContext.ServiceStore.DeleteService | project/src/context/ServiceContext.tsx:62-64 | services become the remove-by-id result |
| SettingsContext.Set | project/src/context/SettingsContext.tsx:67-72 | reading k afterwards gives v; every other key reads as before |
| SettingsContext.Extensionality | project/src/context/SettingsContext.tsx:4-17 | two records that agree on every key are equal |
| SettingsContext.SetTwice | project/src/context/SettingsContext.tsx:67-72 | writing the same value twice equals writing it once |
| SettingsContext.SetCommutes | project/src/context/SettingsContext.tsx:67-72 | updates to distinct keys commute |
| SettingsContext.SetUnchanged | project/src/context/SettingsContext.tsx:67-72 | writing back a key's own value changes nothing |
| SettingsContext.DefaultsAsDeclared | project/src/context/SettingsContext.tsx:32-45 | the defaults leave exactly the Nequi number, the Daviplata number and the logo empty; the name is "Good Cut", the colour "#D4AF37", the welcome text greets with the name |
| SettingsContext.SettingsStore.constructor | project/src/context/SettingsContext.tsx:48-55 | a missing or unparsable saved record loads the defaults |
| SettingsContext.SettingsStore.UpdateSetting | project/src/context/SettingsContext.tsx:67-72 | field k becomes v and every other field keeps its value |
| Text.Lower | project/src/components/admin/ManageBookings.tsx:37 | same length, each ASCII capital lowered, the other characters kept, no capital left |
| Text.ContainsEmpty | project/src/components/admin/ManageBookings.tsx:37 | the empty term occurs in every string |
| Text.LowerIdempotent | project/src/components/admin/ManageServices.tsx:40 | lower-casing twice equals lower-casing once |
| BookingModal.Availability | project/src/components/BookingModal.tsx:47-59 | same length and times as the template; a slot is available exactly when a date is chosen, the template offers it and no booking has that barber, date and time |
| BookingModal.SlotBarber | project/src/components/BookingModal.tsx:48 | the draft's barber when it is truthy, otherwise the barber the modal was opened for |
| BookingModal.Taken | project/src/components/BookingModal.tsx:49-54 | a slot can only be taken for a given barber and date, and never when there are no bookings |
| BookingModal.NoDateNoSlot | project/src/components/BookingModal.tsx:57 | without a date no slot is available |
| BookingModal.EmptyDayAllAvailable | project/src/components/BookingModal.tsx:47-59 | with a date and no bookings every template slot is available |
| BookingModal.BookingBlocksItsSlot | project/src/components/BookingModal.tsx:49-54 | any booking, whatever its status, blocks its own barber, date and time |
| BookingModal.TakenIgnoresStatus | project/src/components/BookingModal.tsx:49-54 | a slot is taken after a status change exactly when it was before |
| BookingModal.CancelledStillBlocks | project/src/components/BookingModal.tsx:49-54 | changing any booking's status, cancelling included, leaves every slot's availability as it was |
| BookingModal.OtherBookingIrrelevant | project/src/components/BookingModal.tsx:48-53 | a booking for another barber or date changes no slot |
| BookingModal.Submitted | project/src/components/BookingModal.tsx:29-38 | the submitted booking copies the id and the seven draft fields and has no status, price or walk-in flag |
| BookingModal.Next | project/src/components/BookingModal.tsx:341-349 | the draft is kept; the step changes exactly when it is below 4 and Next is enabled, and then it goes up by one |
| BookingModal.Previous | project/src/components/BookingModal.tsx:322-325 | the draft is kept; above step 1 the step goes down by one, at step 1 nothing changes |
| BookingModal.PickTime | project/src/components/BookingModal.tsx:247-248 | only the time can change; at step 3 an available slot stores its time, and the time changes only in that case |
| BookingModal.NextGuards | project/src/components/BookingModal.tsx:341-349 | Next advances from step 1, 2 or 3 exactly when that step's fields are filled, does nothing at step 4 and keeps the draft |
| BookingModal.PreviousGoesBack | project/src/components/BookingModal.tsx:322-325 | Previous goes back one step, never below 1, keeping the draft |
| BookingModal.TransitionsKeepInvariant | project/src/components/BookingModal.tsx:20-24 | every handler, the opening state and the reset keep the step in 1..4 and the draft as complete as the step requires |
| BookingModal.PickedTimeWasFree | project/src/components/BookingModal.tsx:247-248 | at step 3, clicking a slot shown available stores its time, and then a date is chosen and no booking takes that slot; a slot shown taken changes nothing |
| BookingModal.FreshSlotKeepsNoDoubleBooking | project/src/components/BookingModal.tsx:46-59 | confirming a time still free keeps the one-live-booking-per-barber-date-time rule the slot picker is meant to enforce |
| BookingModal.StaleSlotOffered | project/src/components/BookingModal.tsx:47-59 | on the free day the first slot, 09:00, is offered |
| BookingModal.StaleContinueState | project/src/components/BookingModal.tsx:237 | changing the date keeps the chosen time; the run then reaches the final state |
| BookingModal.StaleRunState | project/src/components/BookingModal.tsx:237-248 | picking 09:00, switching day and filling the contact data reaches the stated final state |
| BookingModal.StaleFinalConfirmable | project/src/components/BookingModal.tsx:370-371 | that final state can be confirmed |
| BookingModal.StaleFinalShownTaken | project/src/components/BookingModal.tsx:49-54 | in that final state step 3 shows 09:00 as taken |
| BookingModal.StaleFinalClashes | project/src/components/BookingModal.tsx:29-39 | confirming it breaks the no-double-booking invariant |
| BookingModal.StaleTimeCanDoubleBook | project/src/components/BookingModal.tsx:237-248 | a confirmable run stores a time shown as taken and creates a double booking |
| BookingModal.Modal.constructor | project/src/components/BookingModal.tsx:15-24 | the modal opens at step 1 with the selected barber in the draft |
| BookingModal.Modal.SelectedBarberChanged | project/src/components/BookingModal.tsx:20-24 | a selected barber is written into the draft |
| BookingModal.Modal.PressNext | project/src/components/BookingModal.tsx:341-349 | the state becomes Next of the old state, keeping the invariant |
| BookingModal.Modal.PressPrevious | project/src/components/BookingModal.tsx:322-325 | the state becomes Previous of the old state |
| BookingModal.Modal.ChooseBarber | project/src/components/BookingModal.tsx:157 | at step 1 the clicked barber's id goes into the draft |
| BookingModal.Modal.ChooseService | project/src/components/BookingModal.tsx:200-203 | at step 2 the clicked seed service's id goes into the draft |
| BookingModal.Modal.ChangeDate | project/src/components/BookingModal.tsx:237 | at step 3 the date goes into the draft, keeping the time |
| BookingModal.Modal.ChooseTime | project/src/components/BookingModal.tsx:247-248 | at step 3 the clicked slot's time is stored only if the slot was available |
| BookingModal.Modal.ChangeName | project/src/components/BookingModal.tsx:281 | at step 4 the name goes into the draft |
| BookingModal.Modal.ChangePhone | project/src/components/BookingModal.tsx:294 | at step 4 the phone goes into the draft |
| BookingModal.Modal.ChangeEmail | project/src/components/BookingModal.tsx:307 | at step 4 the email goes into the draft |
| BookingModal.Modal.Confirm | project/src/components/BookingModal.tsx:26-44 | when enabled, appends the draft's booking, posts its message with one more expiry timer and resets to step 1 with an empty draft; otherwise nothing changes |
| WalkInCuts.SetField | project/src/components/admin/WalkInCuts.tsx:47-50 | the named field takes the value, every other field is kept |
| WalkInCuts.RequiredFilled | project/src/components/admin/WalkInCuts.tsx:124-156 | the inputs marked required are filled exactly when every field except the email is non-empty |
| WalkInCuts.Submittable | project/src/components/admin/WalkInCuts.tsx:119-171 | the browser submits only a form whose required fields are filled; with an empty email that is enough, and a non-empty email failing the `type="email"` check blocks it |
| WalkInCuts.WalkInBooking | project/src/components/admin/WalkInCuts.tsx:60-71 | the booking carries the id and exactly the form's fields, is completed and a walk-in, and has no price |
| WalkInCuts.WalkInAnnounced | project/src/context/BarberContext.tsx:83-86 | a walk-in is announced as "Corte sin reserva registrado para" followed by the customer's name |
| WalkInCuts.WalkInInjective | project/src/components/admin/WalkInCuts.tsx:60-71 | two walk-ins under one id are equal exactly when their forms are |
| WalkInCuts.WalkInIsReported | project/src/components/admin/WalkInCuts.tsx:69 | a walk-in is labelled "Completada" and appears in every report whose window and barber filter it meets |
| WalkInCuts.WalkInTimeNeedNotBeASlot | project/src/components/admin/WalkInCuts.tsx:146 | a submittable form may carry a time that is no template label, and an empty email |
| WalkInCuts.ActiveChoices | project/src/components/admin/WalkInCuts.tsx:135 | the choices are an order-preserving subsequence holding exactly the active services, each as often as in the list |
| WalkInCuts.SeedChoices | project/src/components/admin/WalkInCuts.tsx:135 | with the seed list the choices are the first five services |
| WalkInCuts.WalkInPanel.constructor | project/src/components/admin/WalkInCuts.tsx:30-41 | hidden, with a blank form carrying the clock's date and time |
| WalkInCuts.WalkInPanel.Open | project/src/components/admin/WalkInCuts.tsx:104 | shows the form, keeping its contents |
| WalkInCuts.WalkInPanel.Input | project/src/components/admin/WalkInCuts.tsx:47-50 | the form becomes SetField of the old form |
| WalkInCuts.WalkInPanel.Cancel | project/src/components/admin/WalkInCuts.tsx:82-93 | hides the form and resets it to blank with the clock's values |
| WalkInCuts.WalkInPanel.Submit | project/src/components/admin/WalkInCuts.tsx:57-77 | a shown form the browser accepts appends the walk-in, posts its message with one more expiry timer, hides and resets; otherwise nothing changes |
| ManageBookings.FilteredBookings | project/src/components/admin/ManageBookings.tsx:35-44 | an order-preserving subsequence; a booking is kept if and only if it matches the search and the status filter, as often as it occurs |
| ManageBookings.MatchesSearch | project/src/components/admin/ManageBookings.tsx:36-39 | the empty term matches every booking; a matching term is no longer than the name, the phone or the email |
| ManageBookings.EmptySearchShowsAll | project/src/components/admin/ManageBookings.tsx:35-44 | empty search with "all" lists every booking in order |
| ManageBookings.StatusFilterNarrows | project/src/components/admin/ManageBookings.tsx:42-43 | filtering the search result by status equals filtering once on both |
| ManageBookings.NameAndEmailIgnoreCase | project/src/components/admin/ManageBookings.tsx:37-39 | a match through name or email survives a change of the term's letter case |
| ManageBookings.PhoneSearchIsCaseSensitive | project/src/components/admin/ManageBookings.tsx:38 | "EXT" finds the phone "EXT12" and "ext" does not |
| ManageBookings.StatusCountsPartition | project/src/components/admin/ManageBookings.tsx:118-121 | the three counters plus the status-less bookings add up to the total |
| ManageBookings.CompletedCount | project/src/components/admin/ManageBookings.tsx:119 | at most the number of bookings, and zero exactly when no booking is completed |
| ManageBookings.PendingCount | project/src/components/admin/ManageBookings.tsx:120 | at most the number of bookings, and zero exactly when no booking carries the pending status |
| ManageBookings.CancelledCount | project/src/components/admin/ManageBookings.tsx:121 | at most the number of bookings, and zero exactly when no booking is cancelled |
| ManageBookings.CountersSumToTotal | project/src/components/admin/ManageBookings.tsx:118-121 | each counter is at most the total; their sum is the total exactly when every booking has a status |
| ManageBookings.StatusText | project/src/components/admin/ManageBookings.tsx:69-78 | the label is one of "Completada", "Cancelada", "Pendiente" |
| ManageBookings.StatusTextCases | project/src/components/admin/ManageBookings.tsx:69-78 | "Completada" exactly for completed, "Cancelada" exactly for cancelled, "Pendiente" for pending or no status |
| ManageBookings.StatuslessBookingLooksPendingButIsNot | project/src/components/admin/ManageBookings.tsx:42 | a status-less booking reads "Pendiente" but the pending filter and counter leave it out |
| ManageBookings.DeleteWithConfirmation | project/src/components/admin/ManageBookings.tsx:111-115 | a confirmed delete removes the booking by id, keeps the barbers and posts "Reserva eliminada" with the first match's name if the booking existed; an unconfirmed one changes nothing |
| ManageServices.MatchesSearch | project/src/components/admin/ManageServices.tsx:40-41 | the empty term matches every service; a matching term is no longer than the name or the description |
| ManageServices.FilteredServices | project/src/components/admin/ManageServices.tsx:39-42 | an order-preserving subsequence of exactly the services whose name or description contains the term, ignoring case, each as often as in the list |
| ManageServices.SearchIgnoresCase | project/src/components/admin/ManageServices.tsx:39-42 | terms differing only in letter case give the same list |
| ManageServices.EmptySearchShowsAll | project/src/components/admin/ManageServices.tsx:39-42 | the empty term lists every service |
| ManageServices.Merged | project/src/components/admin/ManageServices.tsx:97-101 | the edited service keeps its id and takes every other field from the form |
| ManageServices.MergedWithOwnForm | project/src/components/admin/ManageServices.tsx:97-101 | saving an edit with the service's own form gives it back, and only the edited service's id matters |
| ManageServices.Created | project/src/components/admin/ManageServices.tsx:103-107 | a new service has the fresh id and exactly the form's fields |
| ManageServices.Apply | project/src/components/admin/ManageServices.tsx:83-88 | the input's own field takes the entered value and the other five fields are kept |
| ManageServices.ApplyAllFields | project/src/components/admin/ManageServices.tsx:83-88 | entering all six fields of a service gives exactly that service's form |
| ManageServices.StatusText | project/src/components/admin/ManageServices.tsx:133-140 | the label is one of "Activo", "Inactivo", "Mantenimiento" |
| ManageServices.StatusTextInjective | project/src/components/admin/ManageServices.tsx:133-140 | distinct statuses have distinct labels |
| ManageServices.TotalPrice | project/src/components/admin/ManageServices.tsx:161 | the empty list totals 0; with no negative prices the total is non-negative and at least every single price |
| ManageServices.TotalPriceAppend | project/src/components/admin/ManageServices.tsx:161 | the total of two lists joined is the sum of their totals |
| ManageServices.TotalAfterAdd | project/src/components/admin/ManageServices.tsx:161 | adding a service raises the total by its price |
| ManageServices.TotalSamePrices | project/src/components/admin/ManageServices.tsx:161 | lists with the same prices in the same places have the same total |
| ManageServices.TotalIgnoresStatus | project/src/components/admin/ManageServices.tsx:161 | status changes leave the total unchanged |
| ManageServices.SeedTotal | project/src/components/admin/ManageServices.tsx:161 | the seed prices total 230 |
| ManageServices.Editor.constructor | project/src/components/admin/ManageServices.tsx:22-36 | hidden, editing nothing, blank form |
| ManageServices.Editor.NewService | project/src/components/admin/ManageServices.tsx:49-60 | shows a blank form with nothing being edited |
| ManageServices.Editor.EditService | project/src/components/admin/ManageServices.tsx:66-77 | shows the service's fields with that service being edited |
| ManageServices.Editor.Input | project/src/components/admin/ManageServices.tsx:83-88 | the form takes the input's field |
| ManageServices.Editor.Cancel | project/src/components/admin/ManageServices.tsx:126-129 | hides the form and edits nothing, keeping its contents |
| ManageServices.Editor.Submit | project/src/components/admin/ManageServices.tsx:94-111 | from the shown form, when the image is empty or passes the `type="url"` check, an edit replaces the service by the merged record and a creation appends the new service as active; otherwise nothing changes |
| ManageServices.Editor.Delete | project/src/components/admin/ManageServices.tsx:117-121 | a confirmed delete removes by id; an unconfirmed one changes nothing |
| Reports.ReportBookings | project/src/components/admin/Reports.tsx:37-45 | an order-preserving subsequence of exactly the completed bookings in the window matching the barber filter, each as often as in the list |
| Reports.StatuslessNeverReported | project/src/components/admin/Reports.tsx:42 | a booking without status never appears in a report |
| Reports.PriceOfUnique | project/src/components/admin/Reports.tsx:34 | with one service per id the lookup gives that service's price |
| Reports.PriceOf | project/src/components/admin/Reports.tsx:34-49 | a missing service counts 0; otherwise the price is that of the last service with the id |
| Reports.PriceOfLast | project/src/components/admin/Reports.tsx:34 | with several services under one id, the lookup gives the last one's price |
| Reports.Revenue | project/src/components/admin/Reports.tsx:49 | with no negative prices, revenue is non-negative |
| Reports.RevenueAppend | project/src/components/admin/Reports.tsx:49 | revenue of two lists joined is the sum of their revenues |
| Reports.Insert | project/src/components/admin/Reports.tsx:61 | inserting into a non-increasing list keeps it non-increasing and adds exactly one entry |
| Reports.SortByBookings | project/src/components/admin/Reports.tsx:61 | a non-increasing permutation of its input |
| Reports.StatOf | project/src/components/admin/Reports.tsx:53-60 | a barber's entry names that barber, counts at most the filtered bookings, and counts zero exactly when none of them is theirs |
| Reports.BarberStats | project/src/components/admin/Reports.tsx:53-61 | one entry per barber, non-increasing by count, a permutation of the per-barber figures |
| Reports.StatsCoverBarbers | project/src/components/admin/Reports.tsx:53-60 | every barber's figures appear, and every entry is a barber's with that barber's count |
| Reports.SumSorted | project/src/components/admin/Reports.tsx:61 | sorting keeps the sum of counts |
| Reports.AttributedPlusUnlisted | project/src/components/admin/Reports.tsx:53-55 | with distinct ids, the per-barber counts plus the bookings of unlisted barbers are all filtered bookings |
| Reports.StatsCountsBound | project/src/components/admin/Reports.tsx:48-55 | with distinct barber ids, the ranking's counts add up to at most the total, and to the total exactly when no filtered booking belongs to an unlisted barber |
| Reports.DuplicateIdOvercounts | project/src/components/admin/Reports.tsx:53-55 | two barbers sharing an id both count the same booking, so one booking makes a ranking total of 2 |
| Reports.WeekdayCounts | project/src/components/admin/Reports.tsx:64-70 | seven counts, count d being the number of filtered bookings on weekday d |
| Reports.WeekdaysSumToTotal | project/src/components/admin/Reports.tsx:64-70 | with every weekday in 0..6 the seven counts add up to the number of filtered bookings |
| Reports.RepeatPriceIsProduct | project/src/components/admin/Reports.tsx:275 | adding a price once per booking gives count times price |
| Reports.ServiceRevenue | project/src/components/admin/Reports.tsx:274-275 | a service's revenue is its filtered booking count times its price |
| Reports.ServiceRevenueAgreesWithLookup | project/src/components/admin/Reports.tsx:274-275 | with unique ids the per-service figure equals the lookup revenue of that service's bookings |
| Reports.RevenueOfOneService | project/src/components/admin/Reports.tsx:49 | bookings of one service earn their count times its looked-up price |

## Left out

- Storage I/O and JSON parsing: only the fallback on load is modelled, as a function of what storage gave back. The write-back effects are not modelled.
- Timing: the 5-second expiry is the explicit `Expire` step, and the modal's 2-second submission delay is not modelled. Re-rendering and concurrency are left out, and so is the `isLoading` state during that delay; the modal class keeps it false.
- The clock: ids made from the current time, the walk-in form's default date and time, the reports' date window and the weekday lookup are parameters.
- Floating-point figures (average bookings per day, ratings, averages, number formatting) are left out. Barber ratings are `real`, and nothing computes with them.
- Number conversion of the service form's price and duration inputs: `FormInput` carries the number already converted.
- Settings values are strings only; numeric values passed to `updateSetting` are not modelled.
- Authentication, the admin and barber dashboards, the password change, presentational components and the print export of the reports are not part of this model.
- Closing the modal is not modelled; the model does not capture that a successful submission also closes it.
- Case folding: lower-casing covers the ASCII letters only.
- The `Appointment` record type is not used by the modelled code and is not modelled.
- ManageServices.StatusText: the default label "Activo" for a status outside the three is not modelled, because the status type admits only those three.
- WalkInCuts.WalkInPanel.Input: accepts any value for the barber and service selects; that these offer only listed barbers and active services is stated separately by `ActiveChoices`.
- Reports.SortByBookings: does not claim the order among barbers with equal counts, which depends on the sort's stability.
- Types.RatingInRange and Types.IsHHMM state the documented rating range and time format as predicates; the record types do not enforce them, and only the template's labels are proved to be "HH:MM".
