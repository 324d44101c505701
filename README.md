# Train ticket booking core, modelled in Dafny

This project models the booking core of a single-user train reservation utility. The core
keeps two in-memory collections: a list of train records and a list of booking records.

- **Route search** keeps the trains that run on the travel weekday and that pass the source
  station strictly before the destination. Each station is found by its first occurrence.
- **Seat lookup** reads one class's seat count from the first train with a given number.
- **Fare calculation** sums the segment distances between the two stations and multiplies the
  total by the class's per-km rate.
- **PNR generation** draws four-digit suffixes until the reference
  `<train number>-<date>-<suffix>` is unused.
- **Booking** checks the request, takes one seat from the first train with the selected number,
  and appends a `"Booked"` record.
- **Cancellation** sets a booking's status to `"Cancelled"` and gives the seat back.

Modules, one per component: `Records` (the records and first-match lookups), `Search`, `Seats`,
`Fare`, `Pnr`, `Reservation` (the workflows and the class `ReservationSystem`), and `Scenario`
(concrete runs on an example train).

The two collections are updated in place. `ReservationSystem` holds them as the `seq` fields
`trains` and `bookings`, and its methods reassign those fields. Each method is proved against a
pure function of the old state (`Book`, `Cancel`), and the workflow properties are lemmas about
those functions. The loops of the source are methods with loop invariants, each proved equal to
a specification function:

| method | specification |
|---|---|
| `SearchTrains` | `Matches` |
| `CalculateFare` | `FareAsWritten` |
| `SumSegments` | `SegmentTotal` |
| `GeneratePnr` | `FirstFreshPnr` |
| `AdjustSeat` | `AdjustSeats` |

There are two exceptions. Inside the booking checks, the seat lookup loop (`check_seat_avaibility`)
is the recursive function `Seats.SeatsOf`. The `next(...)` search for a requested train number is
the recursive function `Reservation.FirstResult`. `CheckRequest` calls these two functions
directly.

The first train with a given number and the first booking with a given PNR are both found by
`Records.IndexOf` applied to the list of keys. `FirstTrain` applies it to the train numbers and
`FirstBooking` to the booking PNRs.

Inputs that the source computes from the environment are parameters here:

- `weekday` is the day abbreviation of the travel date.
- `now` is the booking timestamp.
- `draws` is the sequence of random suffixes, each in 1000..9999.
- The set of PNRs in use is taken from the `bookings` collection.

Distances are integer km, rates are integers in the smallest currency unit per km, and fares are
integers in that currency unit. Rounding an integer fare to two decimals leaves it unchanged.

Where the code and its documented behaviour disagree, the model follows the code:

- A segment key missing from the distance table counts as distance 0. Only a key stored as null
  makes the fare unavailable.
- The fare calculator crashes when the first train record has another number than the requested
  train (see Findings). With no trains at all it returns no fare.
- The already-cancelled check lower-cases the status, so `"CANCELLED"` also counts as cancelled.
- A cancellation whose train no longer exists still marks the booking `"Cancelled"`, but it gives
  no seat back.

## Model

| member | source | states |
|---|---|---|
| `Records.IndexOf` | train_ticket_system.py:60-61 | the position of the first occurrence of a station; the list length exactly when it is absent |
| `Records.FirstTrain` | train_ticket_system.py:80-81 | the position of the first train with the number; every earlier train has another number |
| `Records.FirstBooking` | train_ticket_system.py:238-241 | the position of the first booking with the PNR; every earlier booking has another PNR |
| `Search.SearchTrains` | train_ticket_system.py:36-76 | the search loop returns exactly the filtered list `Matches` |
| `Search.MatchesSound` | train_ticket_system.py:49-74 | every returned record was produced by a train of the list that runs on the weekday and has the source's first index before the destination's |
| `Search.MatchesComplete` | train_ticket_system.py:49-74 | every such train contributes its record, with the departure time of the source stop and the arrival time of the destination stop |
| `Search.MatchesMembership` | train_ticket_system.py:49-74 | both directions together: a record is returned iff some train of the list qualifies and produced it |
| `Search.MatchesAppend` | train_ticket_system.py:49-74 | searching a concatenation gives the concatenated results: train order is kept and duplicates are not merged |
| `Search.MatchesFields` | train_ticket_system.py:66-74 | every result carries the searched source, destination and weekday |
| `Seats.SeatsOf` | train_ticket_system.py:79-84 | the class's seat count on the first train with the number; None if no train matches or that first train lacks the class |
| `Seats.SeatsOfIgnoresLater` | train_ticket_system.py:80-83 | trains after the first one with the number never change the answer |
| `Fare.SumSegments` | train_ticket_system.py:100-108 | the summation loop returns `SegmentTotal`, returning None at the first null segment |
| `Fare.SegmentTotalMeaning` | train_ticket_system.py:103-108 | the summation fails iff some segment in range is stored as null; otherwise it is the sum of the distances, with a missing key counting as 0 |
| `Fare.PriceOnMeaning` | train_ticket_system.py:99-116 | a price is the total distance times the class rate; it is unavailable iff a segment is null or the class has no rate |
| `Fare.CalculateFare` | train_ticket_system.py:87-118 | the fare loop as written, including the crash when `stations` is read unbound, returns `FareAsWritten` |
| `Fare.FareLoopStale` | train_ticket_system.py:88-99 | once `stations` holds a route that is not in order, the rest of the loop behaves like the correctly indented calculator |
| `Fare.FareAsWrittenMeaning` | train_ticket_system.py:87-118 | the calculator crashes iff the first train record has another number; otherwise it equals the correctly indented calculator |
| `Fare.FareAsWrittenValue` | train_ticket_system.py:99-116 | a returned fare comes from the first train with the number whose route is in order: its null-free segment sum (missing keys as 0) times its rate for the class |
| `Fare.FirstServingIsFirst` | train_ticket_system.py:88-98 | no train before the position `FirstServing` finds has the number and an in-order route |
| `Fare.FareIndentedFirstServing` | train_ticket_system.py:89-116 | the corrected calculator prices only the first train with the number whose route is in order, and gives no fare if there is none |
| `Pnr.Suffix` | train_ticket_system.py:131 | the decimal text of a draw in 1000..9999 is four digits with no leading zero |
| `Pnr.SuffixRoundTrip` | train_ticket_system.py:131 | reading the four digits back gives the draw |
| `Pnr.MakePnrShape` | train_ticket_system.py:131 | a PNR is the train number, `-`, the date, `-` and the four-digit suffix; for one train and date, different draws give different PNRs |
| `Pnr.FirstFreshPnr` | train_ticket_system.py:129-133 | the chosen PNR is that of the first draw whose PNR is not in use: every earlier draw's PNR is in use; there is none iff every draw's PNR is already in use |
| `Pnr.GeneratePnr` | train_ticket_system.py:129-133 | the retry loop returns `FirstFreshPnr`, so it never returns a PNR already in use |
| `Reservation.FirstResult` | train_ticket_system.py:144 | the first search result with the requested number; None iff no result has that number |
| `Reservation.Select` | train_ticket_system.py:143-149 | the selected train is one of the search results; for a non-empty requested number there is a selection iff some result has that number, and the selection has it; with no or an empty number the first result is selected |
| `Reservation.BookCheck` | train_ticket_system.py:137-161 | the request is rejected as "no trains" iff the search is empty, and as "train not on route" iff the search finds trains, a non-empty number is requested and no result has it; once a train is selected, "no seats" iff its first record has no free seat in the class, "fare crashed" iff there is a free seat and the calculator as written crashes, "fare unavailable" iff there is a free seat and the calculator gives no fare; a rejection is never a booking or a PNR shortage |
| `Reservation.CheckSelected` | train_ticket_system.py:151-161 | after selection a rejection is "no seats", "fare crashed" or "fare unavailable"; it is "no seats" iff the seat lookup finds no record or class or a count of at most zero, "fare crashed" iff there is a free seat and the calculator crashes, "fare unavailable" iff there is a free seat and the calculator gives no fare; an acceptance carries the selected number, a free seat and the calculator's fare |
| `Reservation.AdjustSeats` | train_ticket_system.py:166-169 | the list keeps its length; only the first train with the number can change, and only in its seat counts; its set of classes is kept, the given class moves by `delta`, every other class and every other train is unchanged |
| `Reservation.BookCheckAccepted` | train_ticket_system.py:137-161 | an accepted request selects a train among the search results: the requested one when a non-empty number is given, else the first result; that train's first record has a positive seat count for the class; the fare is the calculator's |
| `Reservation.BookCheckAccepts` | train_ticket_system.py:137-161 | conversely, when the search finds trains, the selection succeeds, the selected train's first record has a free seat and the fare is computed, the request is accepted with that train and fare |
| `Reservation.Book` | train_ticket_system.py:136-187 | every failure (no train, train not in results, no seats, no fare, fare crash, no free PNR) leaves trains and bookings unchanged; a rejected request reports the reason `BookCheck` gives; an accepted request is booked with the PNR of the first draw not in use, or reports `PnrExhausted` when every draw's PNR is in use; a booked PNR was not in use |
| `Reservation.BookSuccess` | train_ticket_system.py:163-183 | on success exactly one record is appended (PNR, train, date, class, stations, fare, status `"Booked"`, timestamp), and the first train with that number loses exactly one seat of that class; no other train or class changes |
| `Reservation.BookKeepsPnrsUnique` | train_ticket_system.py:163-183 | booking keeps the PNRs of the bookings pairwise distinct |
| `Reservation.AdjustSeatsInverse` | train_ticket_system.py:166-169 | taking a seat and giving it back to the same first train and class restores the trains exactly |
| `Reservation.StatusWords` | train_ticket_system.py:247 | `"Cancelled"` reads as cancelled after lower-casing; `"Booked"` does not |
| `Reservation.Cancel` | train_ticket_system.py:235-264 | the PNR is unknown iff it is not among the bookings, and then nothing changes; a first booking with the PNR whose status lower-cases to `cancelled` gives `AlreadyCancelled` and changes nothing, and `AlreadyCancelled` happens only then; the outcome is `Cancelled` iff the booking is found and active and the seat update finds its count; the cancellation crashes iff the booking is found and active and the first train with its number lacks its class, and then only that booking's status has changed |
| `Reservation.CancelEffect` | train_ticket_system.py:251-259 | a successful cancellation marks exactly the first booking with the PNR `"Cancelled"` and adds one seat of its class to the first train with its number when there is one (then that train has the class); nothing else changes |
| `Reservation.CancelTwice` | train_ticket_system.py:243-249 | a second cancellation changes nothing, and for a known PNR it reports the booking as already cancelled |
| `Reservation.CancelFreshBooking` | train_ticket_system.py:238-258 | cancelling an appended booking whose PNR no earlier record has cancels that record and returns its seat |
| `Reservation.BookThenCancelRestores` | train_ticket_system.py:166-259 | a booking followed by the cancellation of its PNR restores every seat count; the new record stays, with status `"Cancelled"` |
| `Reservation.ReservationSystem.CheckRequest` | train_ticket_system.py:137-161 | the booking checks (search, selection, seat check, fare) read the trains and return `BookCheck` |
| `Reservation.ReservationSystem.AdjustSeat` | train_ticket_system.py:166-169 | the in-place seat update on the first train with the number, with its outcome |
| `Reservation.ReservationSystem.BookTickets` | train_ticket_system.py:136-187 | the new trains, bookings and outcome are those of `Book` applied to the old state; on failure both collections are unchanged |
| `Reservation.ReservationSystem.CancelTicket` | train_ticket_system.py:235-264 | the new trains, bookings and outcome are those of `Cancel` applied to the old state |
| `Scenario.ExpressFare` | train_ticket_system.py:99-116 | train 12001, Delhi to Jhansi over 200 + 300 km at rate 1 in SL: the fare is 500 |
| `Scenario.ExpressCheck` | train_ticket_system.py:137-161 | a Friday request for that trip, naming no train or naming 12001, is accepted for 12001 at fare 500 while a seat is left |
| `Scenario.FareCrashExample` | train_ticket_system.py:88-94 | with another train listed first, the calculator as written crashes; the corrected one gives 500 |
| `Scenario.ExpressBookOutcome` | train_ticket_system.py:163-187 | booking that train on a Friday with draw 1234 returns PNR `12001-2025-01-03-1234` |
| `Scenario.ExpressBook` | train_ticket_system.py:136-187 | that booking appends its record with fare 500 and status `"Booked"` and takes one SL seat |
| `Scenario.ExpressCancel` | train_ticket_system.py:235-264 | cancelling that PNR gives the SL seat back and marks the booking `"Cancelled"` |
| `Scenario.ExpressPnrText` | train_ticket_system.py:131 | the PNR of that booking is the text `12001-2025-01-03-1234` |
| `Scenario.SaturdayNoTrain` | train_ticket_system.py:49-52 | on a Saturday, outside the train's operating days, booking finds no train and changes nothing |

## Left out

- File persistence (`load_data`, `save_data`, and the file read inside `generate_pnr`) is left out. Both collections live in memory, and the bookings file is taken to hold the same records as the `bookings` collection. Write errors are not modelled, and neither is the missing atomicity between the two saves.
- Date parsing and weekday formatting are left out. The weekday is an input, and the model does not check that it matches the date. An unparsable date, which raises an error in the source, is not modelled.
- The wall-clock timestamp is the input `now`.
- The random source is the sequence `draws`. The source loops forever when every suffix is taken; the model instead returns `PnrExhausted` once the draws run out.
- Floating-point arithmetic and `round(fare, 2)` are left out: distances, rates and fares are integers.
- `print_ticket`, the menu loop and every printed message are left out. They are presentation only, and failures are modelled as outcome values.
- `Reservation.Lower` lower-cases ASCII letters only. Python's `str.lower` also maps other Unicode letters.
- A record missing a field the code indexes directly (`train_number`, `station`, `status`) would raise an error in the source. Every record in the model has every field. Missing list and table fields read as empty, as the code's `get` defaults do.
- A seat count or rate stored as null is treated like an absent key. Both make the seat check or the fare fail in the same way.
- `Reservation.CancelTicket`: when the booked train lacks the booked class, the source raises at line 258 after setting the status at line 251. This ends the process before anything is saved. The model returns `CancelCrashed` with the in-memory state at that point: status flipped, seats unchanged.
- Refund calculation does not exist in the source and is not modelled.

## Findings

| source | as written | input that shows it | evidently intended | confidence | as-written member | corrected member |
|---|---|---|---|---|---|---|
| train_ticket_system.py:93-116 | The route check and the summation sit outside the train-number test at line 89. They run for every train, and they read `stations` before any train with the requested number has bound it. | Trains `[54321 Local, 12001 Express]`, fare for 12001 from Delhi to Jhansi in SL: the first iteration reads the unbound `stations` and crashes. | Check, sum and price only the train with the requested number, against its own route. | not executed; proved in the model | `Fare.FareAsWritten` (the crash is shown by `Scenario.FareCrashExample`) | `Fare.FareIndented` (its meaning is proved in `Fare.FareIndentedFirstServing`, and `Fare.FareAsWrittenMeaning` proves that the two agree except for the crash) |

The stale-station path looks like a second problem but is unreachable: a train without the
requested number is never priced with another train's stations. On such a train the route check
sees the same `stations` that already failed it on the iteration that bound them, so it fails
again. `Fare.FareAsWrittenMeaning` proves that the only effect of the misplaced block is the crash.

The booking workflow (`Reservation.Book`, `BookTickets`) calls the calculator as written. It
therefore keeps the crash as the outcome `FareCrashed`: the source crashes whenever the first
train record has another number than the selected train, and the first record with the selected
number has a free seat in the class. A selected train without such a seat is rejected by the seat
check before the calculator runs. Swapping in the corrected calculator there changes only
this outcome. In that case the corrected calculator prices the first train with the number
whose route is in order.
