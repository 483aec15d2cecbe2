# Appointment service — a Dafny model

This project models the appointment service of a small booking API. The service keeps one ordered, in-memory store of appointments. Each appointment holds a doctor, a patient and a time-slot text `"HH:MM - HH:MM"`. The service offers five operations:

- **listing** by patient email, or else by doctor name;
- **the availability check**: a slot must be exactly one whole hour, must start between 09:00 and 15:00, and must not clash with an appointment of the same doctor or the same patient;
- **create**: check, then append;
- **delete**: remove the first exact `(email, slot)` match;
- **update**: move the first exact match to a new slot, after checking that slot.

Files:

- `types.dfy` (module `AppointmentTypes`): the `Doctor`, `Patient` and `Appointment` records. It also holds the two error classes (`BadRequest`, status 400; `Conflict`, status 409), as constructors of `ServiceError`, and the `Result` type that stands in for thrown exceptions.
- `slot.dfy` (module `SlotRules`): the slot text's shape and how the four numbers are read from it (`ParseSlot`). It holds the start text before `" - "` (`StartText`), the one-hour and working-hours rules, and `FormatSlot`, the inverse of parsing.
- `service.dfy` (module `AppointmentService`):
  - the read-only queries, as functions of a snapshot of the store: `Select`/`Get` for listing, `FindIndex` for `findIndex`, and `AnyClash`/`CheckAvailability` for the availability check;
  - the store invariants and the lemmas showing that each operation keeps them;
  - the class `AppointmentStore`, whose `appointments` field the methods `Create`, `Delete` and `Update` change in place.
- `seed.dfy` (module `SeedScenarios`): the store's initial contents and the scenarios of the test suite, each proved on the model.

The conflict test is modelled as written: a stored appointment blocks a request when it shares the doctor's name or the patient's email, and its slot text starts with the requested start text (`StartText(slot) <= e.timeSlot`, a prefix test on strings). `AvailabilityBySameStart` shows that this text test equals a comparison of start clocks whenever every stored slot is well shaped.

The code and the design description disagree in three places. The model follows the code in each:

- The described invariants speak of start *hours*. The code compares start *text*. The two agree on stores of bookable slots (`AvailabilityBySameStart`, `AllBookable`).
- The description lists "list by patient" and "list by doctor" as two operations. The code has one listing operation over an optional email and an optional doctor name, and it uses JavaScript truthiness. A missing or empty email falls through to the doctor name; if both are missing or empty, the result is empty (`Get`).
- The description calls `"10:00 - 11:60"` an invalid-minute format error. The code reports it as the one-hour-long error, because the end minute is not 0 (`SeedAvailabilityChecks`).

Slot text reaching the parsing step is assumed to have the shape `DD:DD - DD:DD`, with any digits (`SlotShape`). The request validators admit only such text, and with hours limited to 00-23 and minutes to 00-59. The shape used here admits any digits, so that inputs with out-of-range minutes, such as `"10:00 - 11:60"`, stay in scope.

## Model

| member | source | states |
|---|---|---|
| AppointmentTypes.StatusCode | src/errors/ErrorTypes.ts:1-20 | a bad-request error carries status 400 and a conflict error 409, and no other error has those codes |
| SlotRules.ParseFormat | src/services/appointmentService.ts:69-71 | formatting four two-digit numbers as a slot and parsing the text back (split on " - " and ":", then Number) gives the same four numbers |
| SlotRules.FormatParse | src/services/appointmentService.ts:69-71 | parsing well-shaped slot text and formatting it again gives the original text: parsing loses nothing |
| SlotRules.StartPrefixIsSameStart | src/services/appointmentService.ts:80-82 | between well-shaped slots, "b starts with a's start text" holds exactly when both start at the same clock, and the test is symmetric |
| AppointmentService.Select | src/services/appointmentService.ts:21-23 | the filtered list is no longer than the store, holds only matching appointments from the store, and holds every matching one |
| AppointmentService.SelectAppend | src/services/appointmentService.ts:21-23 | filtering distributes over concatenation, so it keeps store order |
| AppointmentService.SelectCount | src/services/appointmentService.ts:21-23 | each matching appointment appears in the result as often as in the store; non-matching ones never appear |
| AppointmentService.SelectIdempotent | src/services/appointmentService.ts:21-23 | filtering a filtered list again by the same key changes nothing |
| AppointmentService.Get | src/services/appointmentService.ts:17-26 | with a non-empty email the result is exactly that patient's appointments; otherwise, with a non-empty doctor name, exactly that doctor's; with neither, empty |
| AppointmentService.FindIndex | src/services/appointmentService.ts:40-42 | -1 exactly when no appointment has that email and exactly that slot text; otherwise the index of the first such appointment |
| AppointmentService.AnyClash | src/services/appointmentService.ts:80-82 | true exactly when some stored appointment shares the doctor's name or the patient's email and has a slot beginning with the start text |
| AppointmentService.CheckAvailability | src/services/appointmentService.ts:68-88 | fails with the one-hour error exactly when the slot is not one whole hour. Failing that, it fails with the working-hours error exactly when the start hour is outside 9..15. It succeeds exactly on bookable slots, and then returns true exactly when no stored appointment clashes |
| AppointmentService.AvailabilityBySameStart | src/services/appointmentService.ts:80-87 | when every stored slot is well shaped, a bookable slot is available exactly when no appointment of the same doctor or patient starts at the same clock |
| AppointmentService.AppendPreservesNoDoubleBooking | src/services/appointmentService.ts:28-36 | appending a record the check found available keeps the store free of same-doctor or same-patient bookings with a shared start |
| AppointmentService.AppendPreservesAllBookable | src/services/appointmentService.ts:28-36 | appending a bookable slot keeps every stored slot bookable |
| AppointmentService.ReslotPreservesNoDoubleBooking | src/services/appointmentService.ts:59-64 | moving a stored record to a slot the check, run against the store that still holds it, found available keeps the store free of double bookings |
| AppointmentService.RemovePreservesNoDoubleBooking | src/services/appointmentService.ts:46 | removing one record keeps the store free of double bookings |
| AppointmentService.RemovePreservesAllBookable | src/services/appointmentService.ts:46 | removing one record keeps every stored slot bookable |
| AppointmentService.RemoveTakesOneCopy | src/services/appointmentService.ts:46 | splicing out position k takes out exactly one copy of that record and no other record |
| AppointmentService.CreatedListedOnce | src/services/appointmentService.ts:28-36 | after a successful create, listing that patient gives the earlier listing followed by the new record, which appears exactly once |
| AppointmentService.CreateThenDeleteRestores | src/services/appointmentService.ts:38-48 | a record that create appended is the first exact match for its email and slot, so deleting that pair gives back the store as it was before the create |
| AppointmentService.FindIndexOfAppended | src/services/appointmentService.ts:40-42 | a match appended behind a store with no match is found at the last index |
| AppointmentService.MoveOntoHeldStartUnavailable | src/services/appointmentService.ts:52-64 | update checks while the moved record is still stored, so any slot whose start text another stored record of the same doctor or patient begins with, including the record itself, is unavailable |
| AppointmentService.AppointmentStore.constructor | src/data/seedData.ts:17 | the store starts with exactly the given appointments |
| AppointmentService.AppointmentStore.Create | src/services/appointmentService.ts:28-36 | a slot error propagates unchanged; an unavailable slot gives the conflict error; in both cases the store is unchanged; otherwise the store becomes old store + [record] and the record is returned; both store invariants are kept |
| AppointmentService.AppointmentStore.Delete | src/services/appointmentService.ts:38-48 | no exact match gives the "does not exist" bad request with the store unchanged; otherwise the first match i is returned, the store becomes store[..i] + store[i+1..], and exactly one copy leaves; both invariants are kept |
| AppointmentService.AppointmentStore.Update | src/services/appointmentService.ts:50-66 | no exact match gives the "does not exist" bad request; with a match i, slot errors and the conflict error leave the store unchanged; on success only store[i]'s slot changes, to the new slot; the length and every other record are unchanged, and the record is returned with its original doctor and patient; both invariants are kept |
| SeedScenarios.SeedIsWellBooked | src/data/seedData.ts:17-40 | the initial store has no double booking and only bookable slots |
| SeedScenarios.SeedAvailabilityChecks | src/tests/appointment.test.ts:23-63 | "10:00 - 10:30" and "10:00 - 11:60" give the one-hour error and "08:00 - 09:00" the working-hours error; Michael Brown with Dr. Clara Williams at 10:00 is unavailable; a new doctor and patient at 11:00 is available |
| SeedScenarios.CreateInEmptyStore | src/tests/appointment.test.ts:71-80 | creating in an empty store returns the record and stores exactly it |
| SeedScenarios.CreateConflicts | src/tests/appointment.test.ts:82-114 | the same patient with another doctor, and the same doctor with another patient, at a held slot both give the conflict error |
| SeedScenarios.DeleteFromSeed | src/services/appointmentService.ts:38-48 | deleting Michael Brown's 10:00 appointment from the initial store returns it and leaves only the 14:00 one |
| SeedScenarios.UpdateInSeed | src/tests/appointment.test.ts:153-167 | moving 14:00 to 12:00 returns Dr. Alice Smith's record with the new slot, rewrites only that record, and leaves no 14:00 match for the patient |
| SeedScenarios.UpdateUnknown | src/tests/appointment.test.ts:185-193 | updating an unknown email gives the "does not exist" bad request and leaves the store unchanged |
| SeedScenarios.UpdateOntoTakenSlot | src/tests/appointment.test.ts:195-203 | moving 10:00 onto the patient's 14:00 gives the conflict error and leaves the store unchanged |
| SeedScenarios.UpdateOutsideHours | src/tests/appointment.test.ts:205-213 | moving to 07:00 gives the working-hours error and leaves the store unchanged |

## Left out

- Slot text that does not have the shape `DD:DD - DD:DD` is excluded by precondition (`CheckAvailability`, `AppointmentStore.Create`, `AppointmentStore.Update`). That covers `Number` producing NaN from non-digits, the TypeError when `" - "` is missing, and one-digit or space-padded hours that `Number` would accept. The validators in front of the service never pass such text.
- AppointmentService.AppointmentStore.Update: its precondition on the new slot's shape applies even when no record matches, where the source never parses the new slot. The validators guarantee the shape for every request.
- Object identity and aliasing: the source returns the stored object itself, so a caller holding it would see a later in-place update. The model returns values.
- The module-level singleton store is modelled as one `AppointmentStore` object. No concurrency exists.
- HTTP routing, controllers, response envelopes and the request validators are left out. The validators are calls into a foreign schema library, and the rest is plumbing with no logic of its own.
- Error objects are modelled as their class and message only. The JavaScript `Error` machinery (stack, prototype) is left out.
