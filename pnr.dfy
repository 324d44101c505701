/** PNR generation: "<train number>-<date>-<four digits>", retried until unused.
    The random four-digit suffixes are an input: the sequence of draws the random source
    would produce, each in 1000..9999. */
module Pnr {
  import opened Records

  predicate InSuffixRange(d: int)
  {
    1000 <= d <= 9999
  }

  predicate IsDigit(c: char)
  {
    '0' <= c <= '9'
  }

  function DigitChar(d: int): (c: char)
    requires 0 <= d <= 9
  {
    ('0' as int + d) as char
  }

  function DigitValue(c: char): int
    requires IsDigit(c)
  {
    c as int - '0' as int
  }

  /** The decimal text of a four-digit number. */
  function Suffix(d: int): (s: string)
    requires InSuffixRange(d)
    ensures |s| == 4 && forall i :: 0 <= i < 4 ==> IsDigit(s[i])
    ensures s[0] != '0'
  {
    [DigitChar(d / 10 / 10 / 10), DigitChar(d / 10 / 10 % 10), DigitChar(d / 10 % 10), DigitChar(d % 10)]
  }

  /** Reading four decimal digits back as a number. */
  function SuffixValue(s: string): int
    requires |s| == 4 && forall i :: 0 <= i < 4 ==> IsDigit(s[i])
  {
    DigitValue(s[0]) * 1000 + DigitValue(s[1]) * 100 + DigitValue(s[2]) * 10 + DigitValue(s[3])
  }

  /** The suffix text determines the draw. */
  lemma SuffixRoundTrip(d: int)
    requires InSuffixRange(d)
    ensures SuffixValue(Suffix(d)) == d
  {
    var q1 := d / 10;
    var q2 := q1 / 10;
    var q3 := q2 / 10;
    assert d == 10 * q1 + d % 10;
    assert q1 == 10 * q2 + q1 % 10;
    assert q2 == 10 * q3 + q2 % 10;
    assert q3 < 10;
  }

  function MakePnr(number: string, date: string, d: int): string
    requires InSuffixRange(d)
  {
    number + "-" + date + "-" + Suffix(d)
  }

  /** A PNR is the train number, the date and the suffix joined by dashes, ending in four digits;
      for one train and date, different draws give different PNRs. */
  lemma MakePnrShape(number: string, date: string, d: int, e: int)
    requires InSuffixRange(d) && InSuffixRange(e)
    ensures var p := MakePnr(number, date, d);
            |p| == |number| + |date| + 6 && p[..|number|] == number && p[|number|] == '-' &&
            p[|number| + 1..|number| + 1 + |date|] == date && p[|p| - 5] == '-' &&
            p[|p| - 4..] == Suffix(d)
    ensures MakePnr(number, date, d) == MakePnr(number, date, e) ==> d == e
  {
    var p, q := MakePnr(number, date, d), MakePnr(number, date, e);
    assert p[|p| - 4..] == Suffix(d);
    assert q[|q| - 4..] == Suffix(e);
    SuffixRoundTrip(d);
    SuffixRoundTrip(e);
  }

  /** The PNR the retry loop settles on: that of the first draw whose PNR is not in use (every
      earlier draw's PNR is taken); None when every draw is taken (the loop would keep drawing). */
  function FirstFreshPnr(number: string, date: string, existing: set<string>, draws: seq<int>): (r: Option<string>)
    requires forall i :: 0 <= i < |draws| ==> InSuffixRange(draws[i])
    ensures r.Some? ==> r.value !in existing
    ensures r.Some? ==> exists k :: 0 <= k < |draws| && r.value == MakePnr(number, date, draws[k]) &&
                                    forall j :: 0 <= j < k ==> MakePnr(number, date, draws[j]) in existing
    ensures r.None? <==> forall k :: 0 <= k < |draws| ==> MakePnr(number, date, draws[k]) in existing
  {
    if draws == [] then None
    else
      var candidate := MakePnr(number, date, draws[0]);
      if candidate !in existing then Some(candidate)
      else
        var r := FirstFreshPnr(number, date, existing, draws[1..]);
        assert forall k :: 1 <= k < |draws| ==> draws[k] == draws[1..][k - 1];
        r
  }

  /** The retry loop of PNR generation over the draws. */
  method GeneratePnr(number: string, date: string, existing: set<string>, draws: seq<int>)
    returns (pnr: Option<string>)
    requires forall i :: 0 <= i < |draws| ==> InSuffixRange(draws[i])
    ensures pnr == FirstFreshPnr(number, date, existing, draws)
    ensures pnr.Some? ==> pnr.value !in existing
  {
    for k := 0 to |draws|
      invariant FirstFreshPnr(number, date, existing, draws[k..]) == FirstFreshPnr(number, date, existing, draws)
    {
      assert draws[k..][1..] == draws[k + 1..];
      var candidate := number + "-" + date + "-" + Suffix(draws[k]);
      if candidate !in existing {
        return Some(candidate);
      }
    }
    return None;
  }
}
