/** Concrete runs of the workflows on the "Express" train: 12001, Mon/Wed/Fri,
    Delhi -> Agra -> Jhansi, 200 + 300 km, class SL with 50 seats at rate 1 per km. */
module Scenario {
  import opened Records
  import opened Search
  import opened Seats
  import opened Fare
  import opened Pnr
  import opened Reservation

  function Express(seats: int): Train
  {
    Train("12001", "Express", ["Mon", "Wed", "Fri"],
          [Stop("Delhi", None, Some("06:00")), Stop("Agra", Some("09:00"), Some("09:10")),
           Stop("Jhansi", Some("12:00"), None)],
          map["Delhi-Agra" := Some(200), "Agra-Jhansi" := Some(300)],
          map["SL" := seats],
          map["SL" := 1])
  }

  /** Another train on the same route, listed before the Express. */
  function Local(): Train
  {
    Train("54321", "Local", ["Fri"],
          [Stop("Delhi", None, Some("07:00")), Stop("Agra", Some("11:00"), Some("11:05")),
           Stop("Jhansi", Some("15:00"), None)],
          map["Delhi-Agra" := Some(200), "Agra-Jhansi" := Some(300)],
          map["SL" := 80],
          map["SL" := 1])
  }

  function FridayRequest(number: Option<string>): Request
  {
    Request("2025-01-03", "Fri", "SL", "Delhi", "Jhansi", number)
  }

  /** The Express stops, as station names. */
  lemma ExpressStations(seats: int)
    ensures Stations(Express(seats).route) == ["Delhi", "Agra", "Jhansi"]
  {
    var st := Stations(Express(seats).route);
    assert st[0] == "Delhi" && st[1] == "Agra" && st[2] == "Jhansi";
  }

  /** Delhi is stop 0 and Jhansi stop 2. */
  lemma RouteIndices()
    ensures var st := ["Delhi", "Agra", "Jhansi"];
            IndexOf(st, "Delhi") == 0 && IndexOf(st, "Jhansi") == 2 && InOrder(st, "Delhi", "Jhansi")
  {
    var st := ["Delhi", "Agra", "Jhansi"];
    assert st[1..][1..] == ["Jhansi"];
    assert IndexOf(st[1..][1..], "Jhansi") == 0;
  }

  /** The two segments sum to 200 + 300 km. */
  lemma ExpressDistance(seats: int)
    ensures SegmentTotal(Express(seats).distances, ["Delhi", "Agra", "Jhansi"], 0, 2) == Some(500)
  {
    var st := ["Delhi", "Agra", "Jhansi"];
    var table := Express(seats).distances;
    assert SegmentKey(st[0], st[1]) == "Delhi-Agra";
    assert SegmentKey(st[1], st[2]) == "Agra-Jhansi";
    assert SegmentDistance(table, st, 0) == Some(200);
    assert SegmentDistance(table, st, 1) == Some(300);
    assert SegmentTotal(table, st, 0, 1) == Some(200);
  }

  /** The Express prices Delhi -> Jhansi in SL at (200 + 300) * 1. */
  lemma ExpressFare(seats: int)
    ensures FareAsWritten("12001", "SL", [Express(seats)], "Delhi", "Jhansi") == Fare(500)
  {
    ExpressStations(seats);
    RouteIndices();
    ExpressDistance(seats);
    var st := ["Delhi", "Agra", "Jhansi"];
    assert PriceOn(Express(seats), st, "SL", "Delhi", "Jhansi") == Some(500);
  }

  /** The calculator as written crashes when the requested train is not the first record;
      the corrected calculator prices the same request. */
  lemma FareCrashExample()
    ensures FareAsWritten("12001", "SL", [Local(), Express(50)], "Delhi", "Jhansi") == Crash
    ensures FareIndented("12001", "SL", [Local(), Express(50)], "Delhi", "Jhansi") == Some(500)
  {
    ExpressFare(50);
    assert [Local(), Express(50)][1..] == [Express(50)];
    FareAsWrittenMeaning("12001", "SL", [Express(50)], "Delhi", "Jhansi");
  }

  /** Moving the SL count of a lone Express record. */
  lemma SeatsMove(seats: int, delta: int)
    ensures AdjustSeats([Express(seats)], "12001", "SL", delta) == [Express(seats + delta)]
  {
    assert FirstTrain("12001", [Express(seats)]) == 0;
    assert Express(seats).classes["SL" := seats + delta] == Express(seats + delta).classes;
  }

  /** On one of its days the Express is the only search result for Delhi -> Jhansi. */
  lemma ExpressMatches(seats: int, day: string)
    requires day in Express(seats).days
    ensures Matches("Delhi", "Jhansi", day, [Express(seats)]) == [MatchOf(Express(seats), "Delhi", "Jhansi", day)]
  {
    ExpressStations(seats);
    RouteIndices();
    assert [Express(seats)][..0] == [];
  }

  /** The Express is the first train with its number, so its own count answers a seat lookup. */
  lemma ExpressSeats(seats: int)
    ensures SeatsOf("12001", "SL", [Express(seats)]) == Some(seats)
  {
  }

  /** A Friday request for Delhi -> Jhansi in SL, naming no train or naming 12001, selects the
      Express at fare 500 while it has a seat. */
  lemma ExpressCheck(seats: int, number: Option<string>)
    requires seats > 0
    requires number == None || number == Some("12001")
    ensures BookCheck([Express(seats)], FridayRequest(number)) == Accepted("12001", 500)
  {
    ExpressMatches(seats, "Fri");
    var m := MatchOf(Express(seats), "Delhi", "Jhansi", "Fri");
    assert m.number == "12001";
    assert Select([m], number) == Some(m);
    ExpressSeats(seats);
    ExpressFare(seats);
    BookCheckAccepts([Express(seats)], FridayRequest(number), m);
  }

  function ExpressBooking(status: string): Booking
  {
    Booking(MakePnr("12001", "2025-01-03", 1234), "12001", "2025-01-03", "SL", "Delhi", "Jhansi", 500,
            status, "2025-01-01 10:00:00")
  }

  /** Booking the Express on a Friday with draw 1234 succeeds with the PNR "12001-2025-01-03-1234". */
  lemma ExpressBookOutcome(seats: int)
    requires seats > 0
    ensures Book(State([Express(seats)], []), FridayRequest(None), [1234], "2025-01-01 10:00:00").outcome
         == Booked(MakePnr("12001", "2025-01-03", 1234))
  {
    ExpressCheck(seats, None);
    assert PnrsOf([]) == {};
    assert FirstFreshPnr("12001", "2025-01-03", {}, [1234]) == Some(MakePnr("12001", "2025-01-03", 1234));
  }

  /** That booking records fare 500 and takes one seat. */
  lemma ExpressBook(seats: int)
    requires seats > 0
    ensures Book(State([Express(seats)], []), FridayRequest(None), [1234], "2025-01-01 10:00:00")
         == BookResult(Booked(MakePnr("12001", "2025-01-03", 1234)),
                       State([Express(seats - 1)], [ExpressBooking("Booked")]))
  {
    var s, req, now := State([Express(seats)], []), FridayRequest(None), "2025-01-01 10:00:00";
    ExpressBookOutcome(seats);
    BookedState(s, req, [1234], now);
    ExpressCheck(seats, None);
    SeatsMove(seats, -1);
    var r := Book(s, req, [1234], now);
    assert r.state.trains == [Express(seats - 1)];
    assert [] + [ExpressBooking("Booked")] == [ExpressBooking("Booked")];
    assert r.state.bookings == [ExpressBooking("Booked")];
  }

  /** Cancelling that booking marks it "Cancelled" and gives the seat back. */
  lemma ExpressCancel(seats: int)
    ensures Cancel(State([Express(seats)], [ExpressBooking("Booked")]), MakePnr("12001", "2025-01-03", 1234))
         == CancelResult(Cancelled, State([Express(seats + 1)], [ExpressBooking("Cancelled")]))
  {
    var b := ExpressBooking("Booked");
    StatusWords();
    assert FirstTrain("12001", [Express(seats)]) == 0;
    CancelFreshBooking([Express(seats)], [], b);
    assert [] + [b] == [b];
    assert b.(status := "Cancelled") == ExpressBooking("Cancelled");
    SeatsMove(seats, 1);
  }

  /** The PNR of the Express booking reads "12001-2025-01-03-1234". */
  lemma ExpressPnrText()
    ensures MakePnr("12001", "2025-01-03", 1234) == "12001-2025-01-03-1234"
  {
  }

  /** On a Saturday the Express does not run: no train, nothing changes. */
  lemma SaturdayNoTrain(seats: int)
    ensures
      var s := State([Express(seats)], []);
      Book(s, Request("2025-01-04", "Sat", "SL", "Delhi", "Jhansi", None), [1234], "now") == BookResult(NoTrains, s)
  {
    assert !Serves(Express(seats), "Delhi", "Jhansi", "Sat");
    assert [Express(seats)][..0] == [];
    assert Matches("Delhi", "Jhansi", "Sat", [Express(seats)]) == [];
  }
}
