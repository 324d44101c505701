/** The records the reservation system keeps: trains with their routes, and bookings.
    Both collections are ordered lists; every lookup in the system takes the FIRST
    record that matches. */
module Records {

  datatype Option<T> = None | Some(value: T)

  /** One stop of a route. A stop record may lack its arrival or departure time. */
  datatype Stop = Stop(station: string, arrival: Option<string>, departure: Option<string>)

  /** A train record.
      `distances` maps a segment key "A-B" to its distance; a key stored with an explicit
      null maps to None. A class whose seat count or per-km rate is absent or null is
      simply not a key of `classes` or `farePerKm` (the record's `get` reads both the same).
      Missing list or table fields of a record read as empty. */
  datatype Train = Train(
    number: string,
    name: string,
    days: seq<string>,
    route: seq<Stop>,
    distances: map<string, Option<int>>,
    classes: map<string, int>,
    farePerKm: map<string, int>)

  /** A booking record; `status` is free text ("Booked" or "Cancelled" when the system wrote it). */
  datatype Booking = Booking(
    pnr: string,
    trainNumber: string,
    date: string,
    travelClass: string,
    source: string,
    destination: string,
    fare: int,
    status: string,
    bookingTime: string)

  /** The station names of a route, in travel order. */
  function Stations(route: seq<Stop>): (names: seq<string>)
    ensures |names| == |route|
    ensures forall i :: 0 <= i < |route| ==> names[i] == route[i].station
  {
    if route == [] then [] else [route[0].station] + Stations(route[1..])
  }

  /** Position of the first occurrence of `x` in `xs`, or |xs| when it does not occur. */
  function IndexOf(xs: seq<string>, x: string): (i: nat)
    ensures i <= |xs|
    ensures i < |xs| <==> x in xs
    ensures i < |xs| ==> xs[i] == x
    ensures forall j :: 0 <= j < i ==> xs[j] != x
  {
    if xs == [] then 0
    else if xs[0] == x then 0
    else 1 + IndexOf(xs[1..], x)
  }

  /** The train numbers of a list of trains, in order. */
  function Numbers(trains: seq<Train>): (keys: seq<string>)
    ensures |keys| == |trains|
    ensures forall i :: 0 <= i < |trains| ==> keys[i] == trains[i].number
  {
    seq(|trains|, i requires 0 <= i < |trains| => trains[i].number)
  }

  /** The PNRs of a list of bookings, in order. */
  function PnrList(bookings: seq<Booking>): (keys: seq<string>)
    ensures |keys| == |bookings|
    ensures forall i :: 0 <= i < |bookings| ==> keys[i] == bookings[i].pnr
  {
    seq(|bookings|, i requires 0 <= i < |bookings| => bookings[i].pnr)
  }

  /** Position of the first train with the given number, or |trains| when there is none. */
  function FirstTrain(number: string, trains: seq<Train>): (i: nat)
    ensures i <= |trains|
    ensures i < |trains| ==> trains[i].number == number
    ensures forall j :: 0 <= j < i ==> trains[j].number != number
  {
    IndexOf(Numbers(trains), number)
  }

  /** Position of the first booking with the given PNR, or |bookings| when there is none. */
  function FirstBooking(pnr: string, bookings: seq<Booking>): (i: nat)
    ensures i <= |bookings|
    ensures i < |bookings| ==> bookings[i].pnr == pnr
    ensures forall j :: 0 <= j < i ==> bookings[j].pnr != pnr
  {
    IndexOf(PnrList(bookings), pnr)
  }

  /** Past a first train with another number, the search goes on in the rest of the list. */
  lemma FirstTrainTail(number: string, trains: seq<Train>)
    requires trains != [] && trains[0].number != number
    ensures FirstTrain(number, trains) == 1 + FirstTrain(number, trains[1..])
  {
    assert Numbers(trains) == [trains[0].number] + Numbers(trains[1..]);
  }

  /** A first-match position depends only on the train numbers of the list. */
  lemma FirstTrainByNumbers(number: string, a: seq<Train>, b: seq<Train>)
    requires |a| == |b|
    requires forall j :: 0 <= j < |a| ==> a[j].number == b[j].number
    ensures FirstTrain(number, a) == FirstTrain(number, b)
  {
    assert Numbers(a) == Numbers(b);
  }
}
