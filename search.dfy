/** Route search: which trains run on a weekday and pass the source before the destination. */
module Search {
  import opened Records

  /** One search result: the train, the boarding and alighting stations with their times, and the weekday. */
  datatype Match = Match(
    number: string,
    name: string,
    source: string,
    departure: Option<string>,
    destination: string,
    arrival: Option<string>,
    day: string)

  /** Both stations are on the route and the first occurrence of the source comes strictly
      before the first occurrence of the destination. */
  predicate InOrder(stations: seq<string>, source: string, destination: string)
  {
    source in stations && destination in stations &&
    IndexOf(stations, source) < IndexOf(stations, destination)
  }

  /** A train qualifies for a search when it runs on the weekday and its route is in order. */
  predicate Serves(t: Train, source: string, destination: string, day: string)
  {
    day in t.days && InOrder(Stations(t.route), source, destination)
  }

  /** The result record of a qualifying train: departure from the source stop, arrival at the destination stop. */
  function MatchOf(t: Train, source: string, destination: string, day: string): Match
    requires Serves(t, source, destination, day)
  {
    var stations := Stations(t.route);
    Match(t.number, t.name,
          source, t.route[IndexOf(stations, source)].departure,
          destination, t.route[IndexOf(stations, destination)].arrival,
          day)
  }

  /** Train `t` qualifies and `m` is its result record. */
  predicate Produced(t: Train, source: string, destination: string, day: string, m: Match)
  {
    Serves(t, source, destination, day) && m == MatchOf(t, source, destination, day)
  }

  /** What a single train contributes to the results. */
  function Emitted(t: Train, source: string, destination: string, day: string): seq<Match>
  {
    if Serves(t, source, destination, day) then [MatchOf(t, source, destination, day)] else []
  }

  /** The search results as a filter over the trains, in their order. */
  function Matches(source: string, destination: string, day: string, trains: seq<Train>): seq<Match>
  {
    if trains == [] then []
    else Matches(source, destination, day, trains[..|trains| - 1]) + Emitted(trains[|trains| - 1], source, destination, day)
  }

  /** The search loop: one pass over the trains, appending a record per qualifying train. */
  method SearchTrains(source: string, destination: string, day: string, trains: seq<Train>)
    returns (results: seq<Match>)
    ensures results == Matches(source, destination, day, trains)
  {
    results := [];
    for i := 0 to |trains|
      invariant results == Matches(source, destination, day, trains[..i])
    {
      assert trains[..i + 1][..i] == trains[..i];
      var train := trains[i];
      if day !in train.days {
        continue;
      }
      var stations := Stations(train.route);
      if source in stations && destination in stations {
        var srcIdx := IndexOf(stations, source);
        var dstIdx := IndexOf(stations, destination);
        if srcIdx < dstIdx {
          var srcStop := train.route[srcIdx];
          var dstStop := train.route[dstIdx];
          results := results + [Match(train.number, train.name, source, srcStop.departure,
                                      destination, dstStop.arrival, day)];
        }
      }
    }
    assert trains[..|trains|] == trains;
  }

  /** Searching a concatenation is concatenating the searches: results keep the train order
      and every qualifying train contributes exactly its own record (no deduplication). */
  lemma {:induction false} MatchesAppend(source: string, destination: string, day: string, a: seq<Train>, b: seq<Train>)
    ensures Matches(source, destination, day, a + b)
         == Matches(source, destination, day, a) + Matches(source, destination, day, b)
  {
    if b == [] {
      assert a + b == a;
    } else {
      assert (a + b)[..|a + b| - 1] == a + b[..|b| - 1];
      MatchesAppend(source, destination, day, a, b[..|b| - 1]);
    }
  }

  /** Every record in the results was produced by a qualifying train of the list. */
  lemma {:induction false} MatchesSound(source: string, destination: string, day: string, trains: seq<Train>, m: Match)
    requires m in Matches(source, destination, day, trains)
    ensures exists i :: 0 <= i < |trains| && Produced(trains[i], source, destination, day, m)
  {
    var init := trains[..|trains| - 1];
    var last := trains[|trains| - 1];
    if m in Matches(source, destination, day, init) {
      MatchesSound(source, destination, day, init, m);
      var i :| 0 <= i < |init| && Produced(init[i], source, destination, day, m);
      assert trains[i] == init[i];
    } else {
      assert m in Emitted(last, source, destination, day);
      assert Produced(trains[|trains| - 1], source, destination, day, m);
    }
  }

  /** Every qualifying train of the list contributes its record to the results. */
  lemma {:induction false} MatchesComplete(source: string, destination: string, day: string, trains: seq<Train>, i: nat)
    requires i < |trains| && Serves(trains[i], source, destination, day)
    ensures MatchOf(trains[i], source, destination, day) in Matches(source, destination, day, trains)
  {
    var init := trains[..|trains| - 1];
    if i < |init| {
      assert trains[i] == init[i];
      MatchesComplete(source, destination, day, init, i);
    }
  }

  /** A record is in the results exactly when some train of the list qualifies and produced it. */
  lemma MatchesMembership(source: string, destination: string, day: string, trains: seq<Train>, m: Match)
    ensures m in Matches(source, destination, day, trains)
        <==> exists i :: 0 <= i < |trains| && Produced(trains[i], source, destination, day, m)
  {
    if m in Matches(source, destination, day, trains) {
      MatchesSound(source, destination, day, trains, m);
    }
    if exists i :: 0 <= i < |trains| && Produced(trains[i], source, destination, day, m) {
      var i :| 0 <= i < |trains| && Produced(trains[i], source, destination, day, m);
      MatchesComplete(source, destination, day, trains, i);
    }
  }

  /** Every record of the results was produced from the same source, destination and weekday. */
  lemma {:induction false} MatchesFields(source: string, destination: string, day: string, trains: seq<Train>, k: nat)
    requires k < |Matches(source, destination, day, trains)|
    ensures var m := Matches(source, destination, day, trains)[k];
            m.source == source && m.destination == destination && m.day == day
  {
    var m := Matches(source, destination, day, trains)[k];
    MatchesMembership(source, destination, day, trains, m);
  }
}
