/** `searchLocations`: the place-name lookup that feeds the search box. */
module LocationSearch {
  import opened Wrappers
  import opened Http
  import opened Js

  /** One record of the geocoding reply; `localNames` stands for the fields that are not copied. */
  datatype GeoRecord = GeoRecord(
    name: string,
    country: string,
    state: Option<string>,
    lat: real,
    lon: real,
    localNames: map<string, string>)

  /** `LocationResult`. */
  datatype LocationResult = LocationResult(
    name: string,
    country: string,
    state: Option<string>,
    lat: real,
    lon: real)

  /** Queries shorter than this (in UTF-16 code units) are answered without a lookup. */
  const MinQueryLength := 2

  /** Does `r` carry exactly the copied fields of `g`? */
  predicate CopiedFrom(r: LocationResult, g: GeoRecord)
  {
    r.name == g.name && r.country == g.country && r.state == g.state && r.lat == g.lat && r.lon == g.lon
  }

  /** `data.map(item => ({ name, country, state, lat, lon }))`. */
  function ToLocations(records: seq<GeoRecord>): (r: seq<LocationResult>)
    ensures |r| == |records|
    ensures forall i :: 0 <= i < |r| ==> CopiedFrom(r[i], records[i])
  {
    if records == [] then []
    else
      var g := records[0];
      [LocationResult(g.name, g.country, g.state, g.lat, g.lon)] + ToLocations(records[1..])
  }

  /** The query is long enough and the lookup came back with status 200-299 and a list of records. */
  predicate Answered(query: string, lookup: string -> Fetched<seq<GeoRecord>>)
  {
    && Utf16Length(query) >= MinQueryLength
    && lookup(query).Response?
    && IsOk(lookup(query).status)
    && lookup(query).body.Some?
  }

  /** `searchLocations(query)`, where `lookup` is the geocoding request for a query.
      Every failure (rejected fetch, status outside 200-299, a payload that is not a
      list of records) is absorbed into the empty list. */
  function SearchLocations(query: string, lookup: string -> Fetched<seq<GeoRecord>>): (r: seq<LocationResult>)
    ensures Utf16Length(query) < MinQueryLength ==> r == []
    ensures !Answered(query, lookup) ==> r == []
    ensures Answered(query, lookup) ==>
      var records := lookup(query).body.value;
      |r| == |records| && forall i :: 0 <= i < |r| ==> CopiedFrom(r[i], records[i])
  {
    if Utf16Length(query) < MinQueryLength then []
    else
      match lookup(query)
      case NetworkError => []
      case Response(status, body) =>
        if !IsOk(status) || body.None? then [] else ToLocations(body.value)
  }

  /** A short query never consults the lookup: the answer is the same whatever it would return. */
  lemma ShortQueryMakesNoLookup(query: string, lookup: string -> Fetched<seq<GeoRecord>>, other: string -> Fetched<seq<GeoRecord>>)
    requires Utf16Length(query) < MinQueryLength
    ensures SearchLocations(query, lookup) == SearchLocations(query, other) == []
  {
  }

  /** The empty query, and any single character of the Basic Multilingual Plane, is short;
      one character outside it (two UTF-16 code units) is not. */
  lemma {:induction false} ShortQueries(c: char)
    ensures Utf16Length("") < MinQueryLength
    ensures Utf16Length([c]) < MinQueryLength <==> c as int <= 0xFFFF
  {
    assert [c][1..] == "";
  }
}
