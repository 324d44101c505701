/** Fare calculation: distance between two stations of a train's route times the class's per-km rate.
    Distances are integer km and rates integers in the smallest currency unit per km, so fares
    are integers in that unit and rounding to two decimals leaves every fare unchanged. */
module Fare {
  import opened Records
  import opened Search

  /** The key of the segment between two consecutive stops in a distance table. */
  function SegmentKey(a: string, b: string): string
  {
    a + "-" + b
  }

  /** The table's reading for segment `i`: a key that is absent reads as distance 0, a key
      stored with null reads as None. */
  function SegmentDistance(table: map<string, Option<int>>, stations: seq<string>, i: nat): Option<int>
    requires i + 1 < |stations|
  {
    var key := SegmentKey(stations[i], stations[i + 1]);
    if key in table then table[key] else Some(0)
  }

  /** The summation loop: None as soon as a segment in [lo, hi) is null, else the total. */
  function SegmentTotal(table: map<string, Option<int>>, stations: seq<string>, lo: nat, hi: nat): Option<int>
    requires lo <= hi < |stations|
    decreases hi
  {
    if lo == hi then Some(0)
    else match SegmentTotal(table, stations, lo, hi - 1)
      case None => None
      case Some(total) =>
        match SegmentDistance(table, stations, hi - 1)
        case None => None
        case Some(d) => Some(total + d)
  }

  /** Reference definitions: a segment stored as null, and the plain sum with absent keys as 0. */
  predicate NullSegment(table: map<string, Option<int>>, stations: seq<string>, i: nat)
    requires i + 1 < |stations|
  {
    SegmentDistance(table, stations, i).None?
  }

  function SegmentValue(table: map<string, Option<int>>, stations: seq<string>, i: nat): int
    requires i + 1 < |stations|
  {
    var key := SegmentKey(stations[i], stations[i + 1]);
    if key in table && table[key].Some? then table[key].value else 0
  }

  function DistanceSum(table: map<string, Option<int>>, stations: seq<string>, lo: nat, hi: nat): int
    requires lo <= hi < |stations|
    decreases hi
  {
    if lo == hi then 0 else DistanceSum(table, stations, lo, hi - 1) + SegmentValue(table, stations, hi - 1)
  }

  /** The summation fails exactly when some segment in range is stored as null; otherwise it is
      the sum of the segment distances, an absent segment counting as 0. */
  lemma {:induction false} SegmentTotalMeaning(table: map<string, Option<int>>, stations: seq<string>, lo: nat, hi: nat)
    requires lo <= hi < |stations|
    ensures SegmentTotal(table, stations, lo, hi)
         == if exists i :: lo <= i < hi && NullSegment(table, stations, i) then None
            else Some(DistanceSum(table, stations, lo, hi))
    decreases hi
  {
    if lo < hi {
      SegmentTotalMeaning(table, stations, lo, hi - 1);
      if exists i :: lo <= i < hi - 1 && NullSegment(table, stations, i) {
        assert exists i :: lo <= i < hi && NullSegment(table, stations, i);
      } else if NullSegment(table, stations, hi - 1) {
        assert exists i :: lo <= i < hi && NullSegment(table, stations, i);
      } else {
        forall i | lo <= i < hi
          ensures !NullSegment(table, stations, i)
        {
        }
      }
    }
  }

  /** Once the summation has failed on a prefix of the range, it fails on the whole range. */
  lemma {:induction false} SegmentTotalNullPersists(table: map<string, Option<int>>, stations: seq<string>, lo: nat, mid: nat, hi: nat)
    requires lo <= mid <= hi < |stations|
    requires SegmentTotal(table, stations, lo, mid).None?
    ensures SegmentTotal(table, stations, lo, hi).None?
    decreases hi - mid
  {
    if mid < hi {
      SegmentTotalNullPersists(table, stations, lo, mid, hi - 1);
    }
  }

  /** The price computed against `stations` with the distances and rates of train `t`:
      None when a segment is null or when the class has no rate. */
  function PriceOn(t: Train, stations: seq<string>, travelClass: string, source: string, destination: string): Option<int>
    requires InOrder(stations, source, destination)
  {
    match SegmentTotal(t.distances, stations, IndexOf(stations, source), IndexOf(stations, destination))
    case None => None
    case Some(total) =>
      if travelClass in t.farePerKm then Some(total * t.farePerKm[travelClass]) else None
  }

  /** A price is the summed distance times the rate, and is missing exactly when a segment is
      stored as null or the class has no rate. */
  lemma PriceOnMeaning(t: Train, stations: seq<string>, travelClass: string, source: string, destination: string)
    requires InOrder(stations, source, destination)
    ensures
      var lo, hi := IndexOf(stations, source), IndexOf(stations, destination);
      PriceOn(t, stations, travelClass, source, destination)
      == if (exists i :: lo <= i < hi && NullSegment(t.distances, stations, i)) || travelClass !in t.farePerKm
         then None
         else Some(DistanceSum(t.distances, stations, lo, hi) * t.farePerKm[travelClass])
  {
    SegmentTotalMeaning(t.distances, stations, IndexOf(stations, source), IndexOf(stations, destination));
  }

  /** The outcome of the fare computation as the code is written: it can crash. */
  datatype FareResult = Crash | NoFare | Fare(amount: int)

  function Lift(r: Option<int>): FareResult
  {
    match r
    case None => NoFare
    case Some(f) => Fare(f)
  }

  /** The fare loop as written. `bound` is the local `stations` left by earlier iterations (None
      while it is still unbound): it is rebound only on a train with the requested number, but
      the route check and the summation run on EVERY train, with that train's distances and
      rates. Reading `stations` while unbound crashes. */
  function FareLoop(number: string, travelClass: string, trains: seq<Train>, source: string, destination: string,
                    bound: Option<seq<string>>): FareResult
    decreases |trains|
  {
    if trains == [] then NoFare
    else
      var t := trains[0];
      var stations := if t.number == number then Some(Stations(t.route)) else bound;
      if stations.None? then Crash
      else if InOrder(stations.value, source, destination) then
        Lift(PriceOn(t, stations.value, travelClass, source, destination))
      else FareLoop(number, travelClass, trains[1..], source, destination, stations)
  }

  function FareAsWritten(number: string, travelClass: string, trains: seq<Train>, source: string, destination: string): FareResult
  {
    FareLoop(number, travelClass, trains, source, destination, None)
  }

  /** A train the corrected calculator may price: it has the requested number and its own route
      has the source before the destination. */
  predicate OnRoute(t: Train, number: string, source: string, destination: string)
  {
    t.number == number && InOrder(Stations(t.route), source, destination)
  }

  /** The fare loop with the route check indented under the number match: only trains with the
      requested number are examined, each against its own route; the first one whose route is
      in order is priced. */
  function FareIndented(number: string, travelClass: string, trains: seq<Train>, source: string, destination: string): Option<int>
    decreases |trains|
  {
    if trains == [] then None
    else if OnRoute(trains[0], number, source, destination) then
      PriceOn(trains[0], Stations(trains[0].route), travelClass, source, destination)
    else FareIndented(number, travelClass, trains[1..], source, destination)
  }

  /** Position of the first train with the number whose route has source before destination. */
  function FirstServing(number: string, source: string, destination: string, trains: seq<Train>): (k: nat)
    ensures k <= |trains|
    ensures k < |trains| ==> OnRoute(trains[k], number, source, destination)
  {
    if trains == [] then 0
    else if OnRoute(trains[0], number, source, destination) then 0
    else 1 + FirstServing(number, source, destination, trains[1..])
  }

  /** No train before the position found is of that kind. */
  lemma {:induction false} FirstServingIsFirst(number: string, source: string, destination: string, trains: seq<Train>)
    ensures forall j :: 0 <= j < FirstServing(number, source, destination, trains) ==>
              !OnRoute(trains[j], number, source, destination)
  {
    if trains != [] && !OnRoute(trains[0], number, source, destination) {
      var rest := trains[1..];
      FirstServingIsFirst(number, source, destination, rest);
      forall j | 0 < j < FirstServing(number, source, destination, trains)
        ensures !OnRoute(trains[j], number, source, destination)
      {
        assert trains[j] == rest[j - 1];
      }
    }
  }

  /** The corrected calculator prices the first train with the number whose route is in order,
      with its own distances and rate, and nothing else; no train of that kind means no fare. */
  lemma {:induction false} FareIndentedFirstServing(number: string, travelClass: string, trains: seq<Train>, source: string, destination: string)
    ensures
      var k := FirstServing(number, source, destination, trains);
      FareIndented(number, travelClass, trains, source, destination)
      == if k == |trains| then None
         else PriceOn(trains[k], Stations(trains[k].route), travelClass, source, destination)
    decreases |trains|
  {
    if trains != [] && !OnRoute(trains[0], number, source, destination) {
      FareIndentedFirstServing(number, travelClass, trains[1..], source, destination);
    }
  }

  /** Once `stations` is bound to a route that is not in order, the loop as written behaves like
      the corrected one: the check fails again on every train without the number, since it
      only looks at the stale stations, and a train with the number rebinds them. */
  lemma {:induction false} FareLoopStale(number: string, travelClass: string, trains: seq<Train>, source: string, destination: string,
                                        stale: seq<string>)
    requires !InOrder(stale, source, destination)
    ensures FareLoop(number, travelClass, trains, source, destination, Some(stale))
         == Lift(FareIndented(number, travelClass, trains, source, destination))
    decreases |trains|
  {
    if trains != [] {
      var t := trains[0];
      if t.number == number {
        if !InOrder(Stations(t.route), source, destination) {
          FareLoopStale(number, travelClass, trains[1..], source, destination, Stations(t.route));
        }
      } else {
        FareLoopStale(number, travelClass, trains[1..], source, destination, stale);
      }
    }
  }

  /** The calculator as written crashes exactly when the first record is not the requested train;
      otherwise it agrees with the corrected calculator. In particular it never prices a route
      with another train's distances. */
  lemma FareAsWrittenMeaning(number: string, travelClass: string, trains: seq<Train>, source: string, destination: string)
    ensures FareAsWritten(number, travelClass, trains, source, destination)
         == if trains != [] && trains[0].number != number then Crash
            else Lift(FareIndented(number, travelClass, trains, source, destination))
  {
    if trains != [] && trains[0].number == number {
      var st := Stations(trains[0].route);
      if !InOrder(st, source, destination) {
        FareLoopStale(number, travelClass, trains[1..], source, destination, st);
      }
    }
  }

  /** A fare returned by the calculator as written: the first record is the requested train, and
      the fare is the summed segment distances between the stations of the first train with the
      number whose route is in order, times that train's rate for the class. */
  lemma FareAsWrittenValue(number: string, travelClass: string, trains: seq<Train>, source: string, destination: string, f: int)
    requires FareAsWritten(number, travelClass, trains, source, destination) == Fare(f)
    ensures trains != [] && trains[0].number == number
    ensures FirstServing(number, source, destination, trains) < |trains|
    ensures
      var k := FirstServing(number, source, destination, trains);
      var st := Stations(trains[k].route);
      var lo, hi := IndexOf(st, source), IndexOf(st, destination);
      (forall i :: lo <= i < hi ==> !NullSegment(trains[k].distances, st, i)) &&
      travelClass in trains[k].farePerKm &&
      f == DistanceSum(trains[k].distances, st, lo, hi) * trains[k].farePerKm[travelClass]
  {
    FareAsWrittenMeaning(number, travelClass, trains, source, destination);
    assert FareIndented(number, travelClass, trains, source, destination) == Some(f);
    FareIndentedFirstServing(number, travelClass, trains, source, destination);
    var k := FirstServing(number, source, destination, trains);
    var t := trains[k];
    var st := Stations(t.route);
    assert PriceOn(t, st, travelClass, source, destination) == Some(f);
    PriceOnMeaning(t, st, travelClass, source, destination);
  }

  /** The summation loop over segments [lo, hi): stops with None at the first null segment. */
  method SumSegments(table: map<string, Option<int>>, stations: seq<string>, lo: nat, hi: nat)
    returns (total: Option<int>)
    requires lo <= hi < |stations|
    ensures total == SegmentTotal(table, stations, lo, hi)
  {
    var sum := 0;
    var i := lo;
    while i < hi
      invariant lo <= i <= hi
      invariant SegmentTotal(table, stations, lo, i) == Some(sum)
    {
      var key := SegmentKey(stations[i], stations[i + 1]);
      var segment := if key in table then table[key] else Some(0);
      if segment.None? {
        SegmentTotalNullPersists(table, stations, lo, i + 1, hi);
        return None;
      }
      sum := sum + segment.value;
      i := i + 1;
    }
    return Some(sum);
  }

  /** The fare loop: for each train, rebind the stations on a number match, then check the route
      and sum the segments with the current train's table. */
  method CalculateFare(number: string, travelClass: string, trains: seq<Train>, source: string, destination: string)
    returns (r: FareResult)
    ensures r == FareAsWritten(number, travelClass, trains, source, destination)
  {
    var stations: Option<seq<string>> := None;
    for k := 0 to |trains|
      invariant FareLoop(number, travelClass, trains[k..], source, destination, stations)
             == FareAsWritten(number, travelClass, trains, source, destination)
    {
      assert trains[k..][1..] == trains[k + 1..];
      var train := trains[k];
      if train.number == number {
        stations := Some(Stations(train.route));
      }
      if stations.None? {
        return Crash;
      }
      var st := stations.value;
      if source in st && destination in st {
        var srcIdx := IndexOf(st, source);
        var dstIdx := IndexOf(st, destination);
        if srcIdx < dstIdx {
          var total := SumSegments(train.distances, st, srcIdx, dstIdx);
          if total.None? {
            return NoFare;
          }
          if travelClass !in train.farePerKm {
            return NoFare;
          }
          return Fare(total.value * train.farePerKm[travelClass]);
        }
      }
    }
    return NoFare;
  }
}
