/** data/celestrak.go, catalog part: the client that converts CelesTrak's records into
    two-line element sets, one goroutine per record, and publishes the list and its name
    map. The HTTP fetch is a parameter: what `getCelestrakData` returned. */
module Celestrak {
  import opened Wrappers
  import opened Satellites
  import opened TleEncoder

  /** Why `getCelestrakData` failed: a bad request, a transport or read error, a status of
      400 or more, or a body that is not the expected JSON. */
  datatype FetchError = FetchError(message: string)

  /** The indices 0 .. n - 1 in increasing order. */
  function Range(n: nat): (r: seq<nat>)
    ensures |r| == n && forall k :: 0 <= k < n ==> r[k] == k
  {
    seq(n, k => k)
  }

  /** The order in which the conversion goroutines of `update` deliver their satellites to
      the channel: a reordering of the record indices. */
  predicate IsArrivalOrder(arrival: seq<nat>, n: nat)
  {
    multiset(arrival) == multiset(Range(n))
  }

  predicate InRange(order: seq<nat>, n: nat) { forall k :: 0 <= k < |order| ==> order[k] < n }

  lemma ArrivalInRange(arrival: seq<nat>, n: nat)
    requires IsArrivalOrder(arrival, n)
    ensures |arrival| == n && InRange(arrival, n)
  {
    assert |arrival| == |multiset(arrival)| == |multiset(Range(n))| == n;
    forall k | 0 <= k < |arrival| ensures arrival[k] < n {
      assert arrival[k] in multiset(Range(n));
    }
  }

  /** Every record converted, in input order; a record that fails to convert gives the
      zero satellite. */
  function ConvertRecords(records: seq<CelestrakData>, fmt: FieldFormatters): (r: seq<Satellite>)
    ensures |r| == |records|
  {
    if records == [] then []
    else ConvertRecords(records[..|records| - 1], fmt) + [ConvertOrZero(records[|records| - 1], fmt)]
  }

  /** Entry k of the converted list is record k's conversion, or the zero satellite when
      that conversion fails. */
  lemma {:induction false} ConvertRecordsAt(records: seq<CelestrakData>, fmt: FieldFormatters, k: nat)
    requires k < |records|
    ensures ConvertToTLE(records[k], fmt).Success? ==> ConvertRecords(records, fmt)[k] == ConvertToTLE(records[k], fmt).value
    ensures ConvertToTLE(records[k], fmt).Failure? ==> ConvertRecords(records, fmt)[k] == ZeroSatellite
    decreases |records|
  {
    if k < |records| - 1 {
      ConvertRecordsAt(records[..|records| - 1], fmt, k);
    }
  }

  /** The elements of `xs` at the given indices, in that order. */
  function Pick(xs: seq<Satellite>, order: seq<nat>): (r: seq<Satellite>)
    requires InRange(order, |xs|)
    ensures |r| == |order| && forall k :: 0 <= k < |order| ==> r[k] == xs[order[k]]
  {
    seq(|order|, k requires 0 <= k < |order| => xs[order[k]])
  }

  lemma PickAppend(xs: seq<Satellite>, a: seq<nat>, b: seq<nat>)
    requires InRange(a, |xs|) && InRange(b, |xs|)
    ensures InRange(a + b, |xs|)
    ensures Pick(xs, a + b) == Pick(xs, a) + Pick(xs, b)
  {
    assert InRange(a + b, |xs|) by {
      forall k | 0 <= k < |a + b| ensures (a + b)[k] < |xs| {
        if k >= |a| { assert (a + b)[k] == b[k - |a|]; }
      }
    }
  }

  /** Removing the same index value from two reorderings of each other leaves two
      reorderings of each other. */
  lemma RemoveMatched(a: seq<nat>, b: seq<nat>, j: nat)
    requires multiset(a) == multiset(b) && a != [] && j < |b| && b[j] == a[0]
    ensures multiset(a[1..]) == multiset(b[..j] + b[j + 1..])
  {
    assert a == [a[0]] + a[1..];
    assert b == b[..j] + [b[j]] + b[j + 1..];
    assert multiset(a) == multiset{a[0]} + multiset(a[1..]);
    assert multiset(b) == multiset(b[..j]) + multiset{b[j]} + multiset(b[j + 1..]);
    assert multiset(b[..j] + b[j + 1..]) == multiset(b[..j]) + multiset(b[j + 1..]);
    assert multiset(a[1..]) == multiset(a) - multiset{a[0]};
  }

  /** Picking index `b[j]` out of a pick, as a multiset. */
  lemma PickRemove(xs: seq<Satellite>, b: seq<nat>, j: nat)
    requires InRange(b, |xs|) && j < |b|
    ensures InRange(b[..j] + b[j + 1..], |xs|)
    ensures multiset(Pick(xs, b)) == multiset{xs[b[j]]} + multiset(Pick(xs, b[..j] + b[j + 1..]))
  {
    var b1, b2 := b[..j], b[j + 1..];
    assert b == b1 + [b[j]] + b2;
    assert InRange(b1, |xs|) && InRange(b2, |xs|) by {
      forall k | 0 <= k < |b2| ensures b2[k] < |xs| { assert b2[k] == b[k + j + 1]; }
    }
    PickAppend(xs, b1, b2);
    PickAppend(xs, b1, [b[j]]);
    PickAppend(xs, b1 + [b[j]], b2);
  }

  /** Reordering the indices reorders the picked elements and nothing more. */
  lemma {:induction false} PickPermutes(xs: seq<Satellite>, a: seq<nat>, b: seq<nat>)
    requires InRange(a, |xs|) && InRange(b, |xs|)
    requires multiset(a) == multiset(b)
    ensures multiset(Pick(xs, a)) == multiset(Pick(xs, b))
    decreases |a|
  {
    if a == [] {
      assert |b| == |multiset(b)| == 0;
    } else {
      assert a[0] in multiset(b);
      var j :| 0 <= j < |b| && b[j] == a[0];
      RemoveMatched(a, b, j);
      PickRemove(xs, b, j);
      assert InRange(a[1..], |xs|) by {
        forall k | 0 <= k < |a[1..]| ensures a[1..][k] < |xs| { assert a[1..][k] == a[k + 1]; }
      }
      PickPermutes(xs, a[1..], b[..j] + b[j + 1..]);
      assert Pick(xs, a) == [xs[a[0]]] + Pick(xs, a[1..]);
    }
  }

  /** Whatever the arrival order, the list holds each record's conversion exactly as
      often as the input does. */
  lemma ArrivalOrderIsPermutation(xs: seq<Satellite>, arrival: seq<nat>)
    requires IsArrivalOrder(arrival, |xs|)
    ensures InRange(arrival, |xs|)
    ensures multiset(Pick(xs, arrival)) == multiset(xs)
  {
    ArrivalInRange(arrival, |xs|);
    PickPermutes(xs, arrival, Range(|xs|));
    assert Pick(xs, Range(|xs|)) == xs;
  }

  /** When a name determines the satellite (as for the zero satellites of failed
      conversions), the name map is the same for every arrival order. */
  lemma NameMapIgnoresArrivalOrder(xs: seq<Satellite>, arrival: seq<nat>)
    requires IsArrivalOrder(arrival, |xs|)
    requires NamesDetermineSatellites(xs)
    ensures InRange(arrival, |xs|)
    ensures NameIndex(Pick(xs, arrival)) == NameIndex(xs)
  {
    ArrivalOrderIsPermutation(xs, arrival);
    NameIndexOrderIndependent(xs, Pick(xs, arrival));
  }

  /** The conversion goroutines of `update`: one conversion per record, the error dropped. */
  method ConvertAll(satData: seq<CelestrakData>, fmt: FieldFormatters) returns (output: seq<Satellite>)
    ensures output == ConvertRecords(satData, fmt)
  {
    output := [];
    for i := 0 to |satData|
      invariant output == ConvertRecords(satData[..i], fmt)
    {
      var sat := ConvertOrZero(satData[i], fmt);
      assert satData[..i + 1][..i] == satData[..i];
      output := output + [sat];
    }
    assert satData[..|satData|] == satData;
  }

  /** The loop of `update` that drains the channel, in arrival order, into the list and
      the name map. */
  method Drain(output: seq<Satellite>, arrival: seq<nat>) returns (tleList: seq<Satellite>, tleMap: map<string, Satellite>)
    requires InRange(arrival, |output|)
    ensures tleList == Pick(output, arrival)
    ensures tleMap == NameIndex(tleList)
  {
    tleList := [];
    tleMap := map[];
    for k := 0 to |arrival|
      invariant InRange(arrival[..k], |output|)
      invariant tleList == Pick(output, arrival[..k])
      invariant tleMap == NameIndex(tleList)
    {
      var element := output[arrival[k]];
      assert arrival[..k + 1] == arrival[..k] + [arrival[k]];
      PickAppend(output, arrival[..k], [arrival[k]]);
      assert (tleList + [element])[..|tleList|] == tleList;
      tleList := tleList + [element];
      tleMap := tleMap[element.satelliteName := element];
    }
    assert arrival[..|arrival|] == arrival;
  }

  /** A catalog filled from CelesTrak. `lastCelestrakPull` counts nanoseconds since the Unix
      epoch; `orbitalData` is never written after construction. */
  class CelestrakClient {
    const allSatellitesUrl: string
    const geoSatellitesUrl: string
    const updatePeriod: int
    var orbitalData: seq<CelestrakData>
    var twoLineElements: seq<Satellite>
    var twoLineElementsMap: map<string, Satellite>
    var lastCelestrakPull: int

    ghost predicate Valid()
      reads this
    {
      twoLineElementsMap == NameIndex(twoLineElements)
    }

    /** `NewCelestrakClient`: no data yet, last pull one nanosecond after the epoch. */
    constructor (allSatellitesUrl: string, geoSatellitesUrl: string, refreshRateHours: int)
      ensures this.allSatellitesUrl == allSatellitesUrl && this.geoSatellitesUrl == geoSatellitesUrl
      ensures updatePeriod == refreshRateHours
      ensures orbitalData == [] && twoLineElements == [] && twoLineElementsMap == map[]
      ensures lastCelestrakPull == 1
      ensures Valid()
    {
      this.allSatellitesUrl := allSatellitesUrl;
      this.geoSatellitesUrl := geoSatellitesUrl;
      updatePeriod := refreshRateHours;
      orbitalData := [];
      twoLineElements := [];
      twoLineElementsMap := map[];
      lastCelestrakPull := 1;
    }

    /** `update`: a failed fetch changes nothing; otherwise every record is converted (a
        record that fails to convert gives the zero satellite), the satellites are listed
        in the order they come out of the channel, the name map is rebuilt and the pull
        time is `now`. */
    method Update(fetched: Result<seq<CelestrakData>, FetchError>, fmt: FieldFormatters, arrival: seq<nat>, now: int)
      returns (err: Option<FetchError>)
      requires Valid()
      requires fetched.Success? ==> IsArrivalOrder(arrival, |fetched.value|)
      modifies this
      ensures Valid()
      ensures fetched.Failure? ==> err == Some(fetched.error) && unchanged(this)
      ensures fetched.Success? ==>
        InRange(arrival, |fetched.value|) && err == None &&
        twoLineElements == Pick(ConvertRecords(fetched.value, fmt), arrival) &&
        twoLineElementsMap == NameIndex(twoLineElements) &&
        lastCelestrakPull == now && orbitalData == old(orbitalData)
    {
      if fetched.Failure? {
        return Some(fetched.error);
      }
      var satData := fetched.value;
      ArrivalInRange(arrival, |satData|);
      var output := ConvertAll(satData, fmt);
      var tleList, tleMap := Drain(output, arrival);
      twoLineElementsMap := tleMap;
      twoLineElements := tleList;
      lastCelestrakPull := now;
      err := None;
    }

    /** `GetData`: the whole list, or not found when it is empty. */
    method GetData() returns (r: Result<seq<Satellite>, LookupError>)
      ensures twoLineElements == [] ==> r == Failure(NotFound("No satellite found"))
      ensures twoLineElements != [] ==> r == Success(twoLineElements)
    {
      if |twoLineElements| == 0 {
        r := Failure(NotFound("No satellite found"));
      } else {
        r := Success(twoLineElements);
      }
    }

    /** `GetSatellite`: found exactly when some listed satellite has the name (a failed
        conversion's zero satellite is found under the empty name), and then it is the last
        one listed with that name. */
    method GetSatellite(satelliteName: string) returns (r: Result<Satellite, LookupError>)
      requires Valid()
      ensures r.Success? <==> satelliteName in Names(twoLineElements)
      ensures r.Success? ==> r.value.satelliteName == satelliteName && r.value in twoLineElements
      ensures r.Success? ==> forall k :: 0 <= k < |twoLineElements| && twoLineElements[k].satelliteName == satelliteName ==>
        (r.value == twoLineElements[k] || exists j :: k < j < |twoLineElements| && twoLineElements[j].satelliteName == satelliteName)
      ensures r.Failure? ==> r.error == NotFound("Satellite " + satelliteName + " not found")
    {
      if satelliteName !in twoLineElementsMap {
        r := Failure(NotFound("Satellite " + satelliteName + " not found"));
      } else {
        r := Success(twoLineElementsMap[satelliteName]);
        forall k | 0 <= k < |twoLineElements| && twoLineElements[k].satelliteName == satelliteName &&
          !exists j :: k < j < |twoLineElements| && twoLineElements[j].satelliteName == satelliteName
          ensures r.value == twoLineElements[k]
        {
          NameIndexHoldsLast(twoLineElements, k);
        }
      }
    }
  }
}
