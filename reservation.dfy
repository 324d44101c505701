/** Booking and cancellation over the two collections: the trains (the only owner of seat
    counts) and the bookings. A booking decrements one seat count and appends a record;
    a cancellation flips a record's status and increments the seat count back. */
module Reservation {
  import opened Records
  import opened Search
  import opened Seats
  import opened Fare
  import opened Pnr

  /** A booking request. The weekday is the abbreviated day name of `date`; an absent or
      empty train number means "the first train the search finds". */
  datatype Request = Request(
    date: string,
    weekday: string,
    travelClass: string,
    source: string,
    destination: string,
    trainNumber: Option<string>)

  datatype BookOutcome =
    | NoTrains          // the search found nothing
    | TrainNotOnRoute   // the requested train is not among the search results
    | NoSeats           // seat count missing or not positive
    | FareUnavailable   // the fare calculator returned nothing
    | FareCrashed       // the fare calculator read its station list before binding it
    | PnrExhausted      // every draw gave a PNR already in use
    | Booked(pnr: string)

  datatype CancelOutcome =
    | BookingNotFound
    | AlreadyCancelled
    | CancelCrashed     // the booked train lacks the booked class: the seat update fails
    | Cancelled

  datatype State = State(trains: seq<Train>, bookings: seq<Booking>)
  datatype BookResult = BookResult(outcome: BookOutcome, state: State)
  datatype CancelResult = CancelResult(outcome: CancelOutcome, state: State)

  function PnrsOf(bookings: seq<Booking>): set<string>
  {
    set i | 0 <= i < |bookings| :: bookings[i].pnr
  }

  predicate UniquePnrs(bookings: seq<Booking>)
  {
    forall i, j :: 0 <= i < j < |bookings| ==> bookings[i].pnr != bookings[j].pnr
  }

  /** The first search result with the given train number. */
  function FirstResult(results: seq<Match>, number: string): (m: Option<Match>)
    ensures m.Some? <==> exists i :: 0 <= i < |results| && results[i].number == number
    ensures m.Some? ==> exists i :: 0 <= i < |results| && m.value == results[i] && results[i].number == number
                                    && forall j :: 0 <= j < i ==> results[j].number != number
  {
    if results == [] then None
    else if results[0].number == number then Some(results[0])
    else
      var m := FirstResult(results[1..], number);
      assert forall i :: 1 <= i < |results| ==> results[i] == results[1..][i - 1];
      m
  }

  /** Train selection among non-empty search results: a non-empty requested number picks the
      first result with that number, if any; otherwise the first result is taken. */
  function Select(results: seq<Match>, requested: Option<string>): (r: Option<Match>)
    requires results != []
    ensures r.Some? ==> exists i :: 0 <= i < |results| && r.value == results[i]
    ensures requested.Some? && requested.value != "" ==>
              (r.Some? <==> exists i :: 0 <= i < |results| && results[i].number == requested.value) &&
              (r.Some? ==> r.value.number == requested.value)
    ensures requested.None? || requested.value == "" ==> r == Some(results[0])
  {
    if requested.Some? && requested.value != "" then FirstResult(results, requested.value)
    else Some(results[0])
  }

  /** Adds `delta` to the seat count of `travelClass` on the first train with the number;
      nothing changes when there is no such train or it has no such class. */
  function AdjustSeats(trains: seq<Train>, number: string, travelClass: string, delta: int): (r: seq<Train>)
    ensures |r| == |trains|
    ensures forall j :: 0 <= j < |trains| && j != FirstTrain(number, trains) ==> r[j] == trains[j]
    ensures var i := FirstTrain(number, trains);
            i < |trains| ==>
              r[i] == trains[i].(classes := r[i].classes) &&
              r[i].classes.Keys == trains[i].classes.Keys &&
              (travelClass in trains[i].classes ==>
                 r[i].classes[travelClass] == trains[i].classes[travelClass] + delta) &&
              forall c :: c in trains[i].classes && c != travelClass ==> r[i].classes[c] == trains[i].classes[c]
  {
    var i := FirstTrain(number, trains);
    if i < |trains| && travelClass in trains[i].classes then
      trains[i := trains[i].(classes := trains[i].classes[travelClass := trains[i].classes[travelClass] + delta])]
    else trains
  }

  /** The seat update finds its count: no train with the number, or the first one has the class. */
  predicate CanAdjust(trains: seq<Train>, number: string, travelClass: string)
  {
    var i := FirstTrain(number, trains);
    i == |trains| || travelClass in trains[i].classes
  }

  /** Taking a seat and giving it back restores the trains exactly. */
  lemma AdjustSeatsInverse(trains: seq<Train>, number: string, travelClass: string, delta: int)
    ensures AdjustSeats(AdjustSeats(trains, number, travelClass, delta), number, travelClass, -delta) == trains
  {
    var once := AdjustSeats(trains, number, travelClass, delta);
    FirstTrainByNumbers(number, trains, once);
    var i := FirstTrain(number, trains);
    if i < |trains| && travelClass in trains[i].classes {
      var m := trains[i].classes;
      assert m[travelClass := m[travelClass] + delta][travelClass := m[travelClass] + delta + -delta] == m;
    }
  }

  /** The seat update keeps every train number and every class key, so it keeps what the next
      update can find. */
  lemma CanAdjustAfterAdjust(trains: seq<Train>, number: string, travelClass: string, delta: int,
                             number': string, travelClass': string)
    ensures CanAdjust(AdjustSeats(trains, number, travelClass, delta), number', travelClass')
         == CanAdjust(trains, number', travelClass')
  {
    var r := AdjustSeats(trains, number, travelClass, delta);
    FirstTrainByNumbers(number', trains, r);
    var k := FirstTrain(number', trains);
    if k < |trains| {
      assert r[k].classes.Keys == trains[k].classes.Keys;
    }
  }

  function LowerChar(c: char): char
  {
    if 'A' <= c <= 'Z' then (c as int + 32) as char else c
  }

  /** Lower-casing of a status, letter by letter. */
  function Lower(s: string): string
  {
    seq(|s|, i requires 0 <= i < |s| => LowerChar(s[i]))
  }

  predicate IsCancelledStatus(status: string)
  {
    Lower(status) == "cancelled"
  }

  /** The two statuses the system writes: "Cancelled" reads as cancelled, "Booked" does not. */
  lemma StatusWords()
    ensures IsCancelledStatus("Cancelled")
    ensures !IsCancelledStatus("Booked")
  {
    var l := Lower("Cancelled");
    assert forall i :: 0 <= i < 9 ==> l[i] == "cancelled"[i];
  }

  /** The checks of a booking (search, selection, seat check, fare), which only read: the
      selected train number and its fare, or the reason the request is turned down. */
  datatype Checked = Rejected(outcome: BookOutcome) | Accepted(number: string, fare: int)

  function BookCheck(trains: seq<Train>, req: Request): (r: Checked)
    ensures r.Rejected? ==> !r.outcome.Booked? && r.outcome != PnrExhausted
    ensures r == Rejected(NoTrains) <==> Matches(req.source, req.destination, req.weekday, trains) == []
    ensures var results := Matches(req.source, req.destination, req.weekday, trains);
            r == Rejected(TrainNotOnRoute)
            <==> results != [] && req.trainNumber.Some? && req.trainNumber.value != "" &&
                 forall i :: 0 <= i < |results| ==> results[i].number != req.trainNumber.value
    ensures var results := Matches(req.source, req.destination, req.weekday, trains);
            results != [] && Select(results, req.trainNumber).Some? ==>
              var number := Select(results, req.trainNumber).value.number;
              var seats := SeatsOf(number, req.travelClass, trains);
              var fare := FareAsWritten(number, req.travelClass, trains, req.source, req.destination);
              (r == Rejected(NoSeats) <==> seats.None? || seats.value <= 0) &&
              (r == Rejected(FareCrashed) <==> seats.Some? && seats.value > 0 && fare == Crash) &&
              (r == Rejected(FareUnavailable) <==> seats.Some? && seats.value > 0 && fare == NoFare)
  {
    var results := Matches(req.source, req.destination, req.weekday, trains);
    if results == [] then Rejected(NoTrains)
    else
      var selected := Select(results, req.trainNumber);
      if selected.None? then Rejected(TrainNotOnRoute)
      else CheckSelected(trains, req, selected.value.number)
  }

  /** The checks after a train is selected: a free seat in the class, then the fare. */
  function CheckSelected(trains: seq<Train>, req: Request, number: string): (r: Checked)
    ensures r.Rejected? ==> r.outcome in {NoSeats, FareCrashed, FareUnavailable}
    ensures r == Rejected(NoSeats)
            <==> SeatsOf(number, req.travelClass, trains).None? || SeatsOf(number, req.travelClass, trains).value <= 0
    ensures r.Accepted? ==>
              r.number == number && SeatsOf(number, req.travelClass, trains).Some? &&
              SeatsOf(number, req.travelClass, trains).value > 0 &&
              FareAsWritten(number, req.travelClass, trains, req.source, req.destination) == Fare(r.fare)
    ensures r == Rejected(FareCrashed)
            <==> SeatsOf(number, req.travelClass, trains).Some? && SeatsOf(number, req.travelClass, trains).value > 0 &&
                 FareAsWritten(number, req.travelClass, trains, req.source, req.destination) == Crash
    ensures r == Rejected(FareUnavailable)
            <==> SeatsOf(number, req.travelClass, trains).Some? && SeatsOf(number, req.travelClass, trains).value > 0 &&
                 FareAsWritten(number, req.travelClass, trains, req.source, req.destination) == NoFare
  {
    var seats := SeatsOf(number, req.travelClass, trains);
    if seats.None? || seats.value <= 0 then Rejected(NoSeats)
    else
      match FareAsWritten(number, req.travelClass, trains, req.source, req.destination)
      case Crash => Rejected(FareCrashed)
      case NoFare => Rejected(FareUnavailable)
      case Fare(fare) => Accepted(number, fare)
  }

  /** An accepted request's train has a free seat in the class on its first record. */
  lemma BookCheckSeats(trains: seq<Train>, req: Request)
    requires BookCheck(trains, req).Accepted?
    ensures
      var i := FirstTrain(BookCheck(trains, req).number, trains);
      i < |trains| && req.travelClass in trains[i].classes && trains[i].classes[req.travelClass] > 0
  {
    var results := Matches(req.source, req.destination, req.weekday, trains);
    var number := Select(results, req.trainNumber).value.number;
    assert BookCheck(trains, req).number == number;
    var seats := SeatsOf(number, req.travelClass, trains);
    assert seats.Some? && seats.value > 0;
  }

  /** An accepted request names a train of the search results (the requested one when a number
      was given, else the first result), whose first record has a free seat in the class, and
      carries the calculator's fare. */
  lemma BookCheckAccepted(trains: seq<Train>, req: Request)
    requires BookCheck(trains, req).Accepted?
    ensures exists k :: 0 <= k < |Matches(req.source, req.destination, req.weekday, trains)| &&
                        Matches(req.source, req.destination, req.weekday, trains)[k].number == BookCheck(trains, req).number
    ensures req.trainNumber.Some? && req.trainNumber.value != "" ==> BookCheck(trains, req).number == req.trainNumber.value
    ensures req.trainNumber.None? || req.trainNumber.value == "" ==>
      BookCheck(trains, req).number == Matches(req.source, req.destination, req.weekday, trains)[0].number
    ensures
      var a := BookCheck(trains, req);
      var i := FirstTrain(a.number, trains);
      i < |trains| && req.travelClass in trains[i].classes && trains[i].classes[req.travelClass] > 0
    ensures
      var a := BookCheck(trains, req);
      FareAsWritten(a.number, req.travelClass, trains, req.source, req.destination) == Fare(a.fare)
  {
    BookCheckSeats(trains, req);
    var results := Matches(req.source, req.destination, req.weekday, trains);
    var selected := Select(results, req.trainNumber);
    assert BookCheck(trains, req).number == selected.value.number;
    if req.trainNumber.Some? && req.trainNumber.value != "" {
      var k :| 0 <= k < |results| && selected.value == results[k] && results[k].number == req.trainNumber.value
               && forall j :: 0 <= j < k ==> results[j].number != req.trainNumber.value;
      assert results[k].number == BookCheck(trains, req).number;
    } else {
      assert results[0].number == selected.value.number;
    }
  }

  /** Conversely, a request whose search finds trains, whose selection succeeds, whose selected
      train's first record has a free seat in the class and whose fare is computed is accepted,
      with that train and fare. */
  lemma BookCheckAccepts(trains: seq<Train>, req: Request, m: Match)
    requires Matches(req.source, req.destination, req.weekday, trains) != []
    requires Select(Matches(req.source, req.destination, req.weekday, trains), req.trainNumber) == Some(m)
    requires SeatsOf(m.number, req.travelClass, trains).Some?
    requires SeatsOf(m.number, req.travelClass, trains).value > 0
    requires FareAsWritten(m.number, req.travelClass, trains, req.source, req.destination).Fare?
    ensures BookCheck(trains, req)
         == Accepted(m.number, FareAsWritten(m.number, req.travelClass, trains, req.source, req.destination).amount)
  {
    assert BookCheck(trains, req) == CheckSelected(trains, req, m.number);
  }

  /** The booking workflow: check the request, pick a PNR, then take a seat on the first train
      with the selected number and append the booking. Every failure returns the state untouched. */
  function Book(s: State, req: Request, draws: seq<int>, now: string): (r: BookResult)
    requires forall i :: 0 <= i < |draws| ==> InSuffixRange(draws[i])
    ensures !r.outcome.Booked? ==> r.state == s
    ensures r.outcome.Booked? ==> r.outcome.pnr !in PnrsOf(s.bookings)
    ensures BookCheck(s.trains, req).Rejected? ==> r == BookResult(BookCheck(s.trains, req).outcome, s)
    ensures BookCheck(s.trains, req).Accepted? ==>
              r.outcome == match FirstFreshPnr(BookCheck(s.trains, req).number, req.date, PnrsOf(s.bookings), draws)
                           case None => PnrExhausted
                           case Some(pnr) => Booked(pnr)
  {
    match BookCheck(s.trains, req)
    case Rejected(outcome) => BookResult(outcome, s)
    case Accepted(number, fare) =>
      match FirstFreshPnr(number, req.date, PnrsOf(s.bookings), draws)
      case None => BookResult(PnrExhausted, s)
      case Some(pnr) =>
        var booking := Booking(pnr, number, req.date, req.travelClass, req.source, req.destination,
                               fare, "Booked", now);
        BookResult(Booked(pnr), State(AdjustSeats(s.trains, number, req.travelClass, -1), s.bookings + [booking]))
  }

  /** The cancellation workflow: find the first booking with the PNR; an unknown PNR or an
      already cancelled booking changes nothing; otherwise the status becomes "Cancelled" and the
      first train with the booked number gets the seat back. */
  function Cancel(s: State, pnr: string): (r: CancelResult)
    ensures r.outcome == BookingNotFound <==> pnr !in PnrsOf(s.bookings)
    ensures r.outcome == BookingNotFound || r.outcome == AlreadyCancelled ==> r.state == s
    ensures r.outcome == Cancelled || r.outcome == CancelCrashed ==> |r.state.bookings| == |s.bookings|
    ensures var i := FirstBooking(pnr, s.bookings);
            i < |s.bookings| && IsCancelledStatus(s.bookings[i].status) ==> r == CancelResult(AlreadyCancelled, s)
    ensures var i := FirstBooking(pnr, s.bookings);
            r.outcome == AlreadyCancelled <==> i < |s.bookings| && IsCancelledStatus(s.bookings[i].status)
    ensures var i := FirstBooking(pnr, s.bookings);
            r.outcome == Cancelled
            <==> i < |s.bookings| && !IsCancelledStatus(s.bookings[i].status) &&
                 CanAdjust(s.trains, s.bookings[i].trainNumber, s.bookings[i].travelClass)
    ensures var i := FirstBooking(pnr, s.bookings);
            r.outcome == CancelCrashed
            <==> i < |s.bookings| && !IsCancelledStatus(s.bookings[i].status) &&
                 !CanAdjust(s.trains, s.bookings[i].trainNumber, s.bookings[i].travelClass)
    ensures var i := FirstBooking(pnr, s.bookings);
            i < |s.bookings| && r.outcome == CancelCrashed ==>
              r.state == State(s.trains, s.bookings[i := s.bookings[i].(status := "Cancelled")])
  {
    var i := FirstBooking(pnr, s.bookings);
    if i == |s.bookings| then CancelResult(BookingNotFound, s)
    else
      var b := s.bookings[i];
      if IsCancelledStatus(b.status) then CancelResult(AlreadyCancelled, s)
      else
        var bookings := s.bookings[i := b.(status := "Cancelled")];
        if CanAdjust(s.trains, b.trainNumber, b.travelClass) then
          CancelResult(Cancelled, State(AdjustSeats(s.trains, b.trainNumber, b.travelClass, 1), bookings))
        else
          CancelResult(CancelCrashed, State(s.trains, bookings))
  }

  /** What a successful booking leaves behind, stated on the checked request. */
  lemma BookedState(s: State, req: Request, draws: seq<int>, now: string)
    requires forall i :: 0 <= i < |draws| ==> InSuffixRange(draws[i])
    requires Book(s, req, draws, now).outcome.Booked?
    ensures BookCheck(s.trains, req).Accepted?
    ensures
      var r := Book(s, req, draws, now);
      var a := BookCheck(s.trains, req);
      r.state == State(AdjustSeats(s.trains, a.number, req.travelClass, -1),
                       s.bookings + [Booking(r.outcome.pnr, a.number, req.date, req.travelClass,
                                             req.source, req.destination, a.fare, "Booked", now)])
  {
  }

  /** A successful booking appends exactly one record, with the PNR, the requested date, class
      and stations, the checked train and fare, and status "Booked"; and it takes exactly one seat
      of that class from the first train with that number, leaving every other train and class
      as it was. */
  lemma BookSuccess(s: State, req: Request, draws: seq<int>, now: string)
    requires forall i :: 0 <= i < |draws| ==> InSuffixRange(draws[i])
    requires Book(s, req, draws, now).outcome.Booked?
    ensures BookCheck(s.trains, req).Accepted?
    ensures
      var r := Book(s, req, draws, now);
      r.outcome.pnr !in PnrsOf(s.bookings) &&
      r.state.trains == AdjustSeats(s.trains, BookCheck(s.trains, req).number, req.travelClass, -1)
    ensures
      var r := Book(s, req, draws, now);
      var a := BookCheck(s.trains, req);
      r.state.bookings == s.bookings + [Booking(r.outcome.pnr, a.number, req.date, req.travelClass,
                                                req.source, req.destination, a.fare, "Booked", now)]
    ensures
      var r := Book(s, req, draws, now);
      var c := req.travelClass;
      var i := FirstTrain(BookCheck(s.trains, req).number, s.trains);
      i < |s.trains| && c in s.trains[i].classes &&
      |r.state.trains| == |s.trains| &&
      r.state.trains[i] == s.trains[i].(classes := s.trains[i].classes[c := s.trains[i].classes[c] - 1]) &&
      forall j :: 0 <= j < |s.trains| && j != i ==> r.state.trains[j] == s.trains[j]
  {
    BookedState(s, req, draws, now);
    var a := BookCheck(s.trains, req);
    BookCheckSeats(s.trains, req);
    var i := FirstTrain(a.number, s.trains);
    var c := req.travelClass;
    assert s.trains[i].classes[c := s.trains[i].classes[c] - 1] == Book(s, req, draws, now).state.trains[i].classes;
  }

  /** A booking never reuses a PNR: distinct PNRs stay distinct. */
  lemma BookKeepsPnrsUnique(s: State, req: Request, draws: seq<int>, now: string)
    requires forall i :: 0 <= i < |draws| ==> InSuffixRange(draws[i])
    requires UniquePnrs(s.bookings)
    ensures UniquePnrs(Book(s, req, draws, now).state.bookings)
  {
    var r := Book(s, req, draws, now);
    if r.outcome.Booked? {
      BookSuccess(s, req, draws, now);
      var all := r.state.bookings;
      var n := |s.bookings|;
      forall i, j | 0 <= i < j < |all|
        ensures all[i].pnr != all[j].pnr
      {
        assert all[i] == s.bookings[i];
        if j < n {
          assert all[j] == s.bookings[j];
        } else {
          assert all[i].pnr in PnrsOf(s.bookings);
        }
      }
    }
  }

  /** A booking followed by the cancellation of its PNR restores every seat count and leaves
      the new record in the bookings with status "Cancelled". */
  lemma BookThenCancelRestores(s: State, req: Request, draws: seq<int>, now: string)
    requires forall i :: 0 <= i < |draws| ==> InSuffixRange(draws[i])
    requires Book(s, req, draws, now).outcome.Booked?
    ensures
      var r := Book(s, req, draws, now);
      var c := Cancel(r.state, r.outcome.pnr);
      c.outcome == Cancelled && c.state.trains == s.trains &&
      c.state.bookings == s.bookings + [r.state.bookings[|s.bookings|].(status := "Cancelled")]
  {
    var r := Book(s, req, draws, now);
    BookedState(s, req, draws, now);
    var a := BookCheck(s.trains, req);
    var b := Booking(r.outcome.pnr, a.number, req.date, req.travelClass, req.source, req.destination,
                     a.fare, "Booked", now);
    var after := AdjustSeats(s.trains, a.number, req.travelClass, -1);
    assert r.state == State(after, s.bookings + [b]);
    BookCheckSeats(s.trains, req);
    CanAdjustAfterAdjust(s.trains, a.number, req.travelClass, -1, a.number, req.travelClass);
    StatusWords();
    CancelFreshBooking(after, s.bookings, b);
    AdjustSeatsInverse(s.trains, a.number, req.travelClass, -1);
  }

  /** Cancelling the PNR of a record just appended, which no earlier record carries, cancels
      that record and gives its seat back. */
  lemma CancelFreshBooking(trains: seq<Train>, bookings: seq<Booking>, b: Booking)
    requires b.pnr !in PnrsOf(bookings)
    requires !IsCancelledStatus(b.status)
    requires CanAdjust(trains, b.trainNumber, b.travelClass)
    ensures Cancel(State(trains, bookings + [b]), b.pnr)
         == CancelResult(Cancelled, State(AdjustSeats(trains, b.trainNumber, b.travelClass, 1),
                                          bookings + [b.(status := "Cancelled")]))
  {
    var all := bookings + [b];
    var n := |bookings|;
    forall j | 0 <= j < n
      ensures all[j].pnr != b.pnr
    {
      assert all[j] == bookings[j];
      assert bookings[j].pnr in PnrsOf(bookings);
    }
    assert all[n] == b;
    assert FirstBooking(b.pnr, all) == n;
    assert all[n := b.(status := "Cancelled")] == bookings + [b.(status := "Cancelled")];
  }

  /** Cancelling twice is cancelling once: the second call changes nothing and, unless the PNR
      is unknown, reports the booking as already cancelled. */
  lemma CancelTwice(s: State, pnr: string)
    ensures var once := Cancel(s, pnr);
            Cancel(once.state, pnr).state == once.state
    ensures var once := Cancel(s, pnr);
            once.outcome != BookingNotFound ==> Cancel(once.state, pnr).outcome == AlreadyCancelled
  {
    var once := Cancel(s, pnr);
    if once.outcome == Cancelled || once.outcome == CancelCrashed {
      assert PnrList(s.bookings) == PnrList(once.state.bookings);
      StatusWords();
    }
  }

  /** A cancellation of an active booking marks exactly that record "Cancelled" and gives one
      seat of the booked class back to the first train with the booked number, changing no
      other train or class. */
  lemma CancelEffect(s: State, pnr: string)
    requires Cancel(s, pnr).outcome == Cancelled
    ensures
      var r := Cancel(s, pnr);
      var i := FirstBooking(pnr, s.bookings);
      i < |s.bookings| &&
      var b := s.bookings[i];
      !IsCancelledStatus(b.status) &&
      r.state.bookings == s.bookings[i := b.(status := "Cancelled")] &&
      var k := FirstTrain(b.trainNumber, s.trains);
      var c := b.travelClass;
      |r.state.trains| == |s.trains| &&
      (k < |s.trains| ==> c in s.trains[k].classes &&
                          r.state.trains[k] == s.trains[k].(classes := s.trains[k].classes[c := s.trains[k].classes[c] + 1])) &&
      forall j :: 0 <= j < |s.trains| && j != k ==> r.state.trains[j] == s.trains[j]
  {
  }

  /** The reservation system: the two collections, updated in place by the workflows. */
  class ReservationSystem {
    var trains: seq<Train>
    var bookings: seq<Booking>

    constructor (trains: seq<Train>, bookings: seq<Booking>)
      ensures this.trains == trains && this.bookings == bookings
    {
      this.trains := trains;
      this.bookings := bookings;
    }

    /** The checks of a booking: search, selection, seat check and fare, reading the trains only. */
    method CheckRequest(req: Request) returns (checked: Checked)
      ensures checked == BookCheck(trains, req)
    {
      var results := SearchTrains(req.source, req.destination, req.weekday, trains);
      if results == [] {
        return Rejected(NoTrains);
      }
      var selected: Match;
      if req.trainNumber.Some? && req.trainNumber.value != "" {
        var found := FirstResult(results, req.trainNumber.value);
        if found.None? {
          return Rejected(TrainNotOnRoute);
        }
        selected := found.value;
      } else {
        selected := results[0];
      }
      var number := selected.number;
      var seats := SeatsOf(number, req.travelClass, trains);
      if seats.None? || seats.value <= 0 {
        return Rejected(NoSeats);
      }
      var fare := CalculateFare(number, req.travelClass, trains, req.source, req.destination);
      match fare
      case Crash => return Rejected(FareCrashed);
      case NoFare => return Rejected(FareUnavailable);
      case Fare(amount) => return Accepted(number, amount);
    }

    /** The seat update of a booking or a cancellation: the first train with the number has its
        count for the class moved by `delta`; `ok` is false when that train lacks the class. */
    method AdjustSeat(number: string, travelClass: string, delta: int) returns (ok: bool)
      modifies this`trains
      ensures ok == CanAdjust(old(trains), number, travelClass)
      ensures trains == AdjustSeats(old(trains), number, travelClass, delta)
    {
      ok := true;
      var i := 0;
      while i < |trains|
        invariant 0 <= i <= |trains|
        invariant trains == old(trains)
        invariant forall j :: 0 <= j < i ==> trains[j].number != number
      {
        if trains[i].number == number {
          assert FirstTrain(number, trains) == i;
          if travelClass !in trains[i].classes {
            return false;
          }
          var t := trains[i];
          trains := trains[i := t.(classes := t.classes[travelClass := t.classes[travelClass] + delta])];
          return;
        }
        i := i + 1;
      }
    }

    /** Books one ticket; `draws` stands for the random four-digit suffixes, `now` for the clock. */
    method BookTickets(req: Request, draws: seq<int>, now: string) returns (outcome: BookOutcome)
      requires forall i :: 0 <= i < |draws| ==> InSuffixRange(draws[i])
      modifies this
      ensures BookResult(outcome, State(trains, bookings)) == Book(State(old(trains), old(bookings)), req, draws, now)
      ensures !outcome.Booked? ==> trains == old(trains) && bookings == old(bookings)
    {
      var checked := CheckRequest(req);
      if checked.Rejected? {
        return checked.outcome;
      }
      var pnr := GeneratePnr(checked.number, req.date, PnrsOf(bookings), draws);
      if pnr.None? {
        return PnrExhausted;
      }
      var booking := Booking(pnr.value, checked.number, req.date, req.travelClass, req.source, req.destination,
                             checked.fare, "Booked", now);
      var _ := AdjustSeat(checked.number, req.travelClass, -1);
      bookings := bookings + [booking];
      return Booked(pnr.value);
    }

    /** Cancels the booking with the given PNR. */
    method CancelTicket(pnr: string) returns (outcome: CancelOutcome)
      modifies this
      ensures CancelResult(outcome, State(trains, bookings)) == Cancel(State(old(trains), old(bookings)), pnr)
      ensures outcome == BookingNotFound || outcome == AlreadyCancelled ==> trains == old(trains) && bookings == old(bookings)
    {
      var found := |bookings|;
      var i := 0;
      while i < |bookings|
        invariant 0 <= i <= |bookings|
        invariant found == |bookings|
        invariant forall j :: 0 <= j < i ==> bookings[j].pnr != pnr
      {
        if bookings[i].pnr == pnr {
          found := i;
          break;
        }
        i := i + 1;
      }
      assert found == FirstBooking(pnr, bookings);
      if found == |bookings| {
        return BookingNotFound;
      }
      var booking := bookings[found];
      if Lower(booking.status) == "cancelled" {
        return AlreadyCancelled;
      }
      bookings := bookings[found := booking.(status := "Cancelled")];
      var ok := AdjustSeat(booking.trainNumber, booking.travelClass, 1);
      if !ok {
        return CancelCrashed;
      }
      return Cancelled;
    }
  }
}
