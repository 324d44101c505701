/** Seat availability: a read of the seat count of one class of one train. */
module Seats {
  import opened Records

  /** The seat count of `travelClass` on the FIRST train with the given number; None when no
      train has that number or when that first train has no such class (later trains with the
      same number are not consulted). */
  function SeatsOf(number: string, travelClass: string, trains: seq<Train>): (seats: Option<int>)
    ensures var i := FirstTrain(number, trains);
            seats.Some? <==> i < |trains| && travelClass in trains[i].classes
    ensures var i := FirstTrain(number, trains);
            seats.Some? ==> seats.value == trains[i].classes[travelClass]
  {
    if trains == [] then None
    else if trains[0].number == number then
      if travelClass in trains[0].classes then Some(trains[0].classes[travelClass]) else None
    else
      FirstTrainTail(number, trains);
      SeatsOf(number, travelClass, trains[1..])
  }

  /** The answer is decided by the first train with the number: whatever follows it is ignored. */
  lemma {:induction false} SeatsOfIgnoresLater(number: string, travelClass: string, trains: seq<Train>, rest: seq<Train>)
    requires FirstTrain(number, trains) < |trains|
    ensures SeatsOf(number, travelClass, trains + rest) == SeatsOf(number, travelClass, trains)
  {
    if trains[0].number != number {
      FirstTrainTail(number, trains);
      assert (trains + rest)[1..] == trains[1..] + rest;
      SeatsOfIgnoresLater(number, travelClass, trains[1..], rest);
    }
  }
}
