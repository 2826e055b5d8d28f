/** The map screen's marker logic (road-trip-app/app/screens/MapScreen.tsx):
    the room's locations are reduced to one marker per user, the latest by
    timestamp, and the region shown is computed from the markers' extent.
    Coordinates are reals; IEEE rounding is not modelled. */
module MapScreen {
  import opened Wrappers
  import opened Sequences
  import opened ClientTypes

  /** The store's locations for this room. */
  function RoomLocations(locations: seq<Location>, roomId: string): (r: seq<Location>)
    ensures forall i :: 0 <= i < |r| ==> r[i].roomId == Some(roomId) && r[i] in locations
    ensures forall i :: 0 <= i < |locations| && locations[i].roomId == Some(roomId) ==> locations[i] in r
  {
    Filter(locations, (l: Location) => l.roomId == Some(roomId))
  }

  /** `new Date(loc.timestamp) > new Date(existing.timestamp)`: a missing
      timestamp is an invalid date, and every comparison with it is false. */
  predicate Newer(l: Location, existing: Location) {
    l.timestamp.Some? && existing.timestamp.Some? && l.timestamp.value > existing.timestamp.value
  }

  /** `userLocationsMap.get(u)`: the position of `u`'s entry, or `|ms|`. */
  function FindUser(ms: seq<Location>, u: string): (i: nat)
    ensures i <= |ms|
    ensures i < |ms| ==> ms[i].userId == u
    ensures forall j :: 0 <= j < i ==> ms[j].userId != u
  {
    if ms == [] then 0 else if ms[0].userId == u then 0 else 1 + FindUser(ms[1..], u)
  }

  /** One iteration of the `forEach`: a new user is appended (a JavaScript
      `Map` keeps insertion order), a newer entry replaces in place. */
  function Place(ms: seq<Location>, l: Location): seq<Location> {
    var i := FindUser(ms, l.userId);
    if i == |ms| then ms + [l] else if Newer(l, ms[i]) then ms[i := l] else ms
  }

  /** `Array.from(userLocationsMap.values())` after the whole loop. */
  function Markers(locs: seq<Location>): seq<Location> {
    if locs == [] then [] else Place(Markers(locs[..|locs| - 1]), locs[|locs| - 1])
  }

  /** The reference definition, one user at a time: the first entry of `u`
      that no later entry of `u` beats. */
  function LatestOf(locs: seq<Location>, u: string): Option<Location> {
    if locs == [] then None
    else
      var prev := LatestOf(locs[..|locs| - 1], u);
      var l := locs[|locs| - 1];
      if l.userId != u then prev
      else if prev.None? || Newer(l, prev.value) then Some(l)
      else prev
  }

  predicate UniqueUsers(ms: seq<Location>) {
    forall i, j :: 0 <= i < j < |ms| ==> ms[i].userId != ms[j].userId
  }

  lemma {:induction false} LatestOfIsAnEntry(locs: seq<Location>, u: string)
    ensures LatestOf(locs, u).Some? ==> LatestOf(locs, u).value in locs && LatestOf(locs, u).value.userId == u
    ensures LatestOf(locs, u).None? ==> forall j :: 0 <= j < |locs| ==> locs[j].userId != u
  {
    if locs != [] {
      var init := locs[..|locs| - 1];
      LatestOfIsAnEntry(init, u);
      assert locs == init + [locs[|locs| - 1]];
    }
  }

  /** `ms` holds one entry per user seen in `locs`, and that entry is the
      reference definition's. */
  predicate Agrees(locs: seq<Location>, ms: seq<Location>) {
    UniqueUsers(ms)
    && (forall i :: 0 <= i < |ms| ==> LatestOf(locs, ms[i].userId) == Some(ms[i]))
    && (forall j :: 0 <= j < |locs| ==> FindUser(ms, locs[j].userId) < |ms|)
  }

  lemma CoveredUser(locs: seq<Location>, ms: seq<Location>, u: string)
    requires Agrees(locs, ms)
    ensures LatestOf(locs, u).Some? ==> FindUser(ms, u) < |ms| && LatestOf(locs, u) == Some(ms[FindUser(ms, u)])
  {
    LatestOfIsAnEntry(locs, u);
    if LatestOf(locs, u).Some? {
      var j :| 0 <= j < |locs| && locs[j] == LatestOf(locs, u).value;
      assert FindUser(ms, locs[j].userId) < |ms|;
    }
  }

  lemma PlaceUnique(ms: seq<Location>, l: Location)
    requires UniqueUsers(ms)
    ensures UniqueUsers(Place(ms, l))
  {
  }

  lemma PlaceLatest(init: seq<Location>, ms: seq<Location>, l: Location)
    requires Agrees(init, ms)
    ensures forall i :: 0 <= i < |Place(ms, l)| ==>
      LatestOf(init + [l], Place(ms, l)[i].userId) == Some(Place(ms, l)[i])
  {
    var locs := init + [l];
    assert locs[..|locs| - 1] == init;
    var ms' := Place(ms, l);
    var k := FindUser(ms, l.userId);
    CoveredUser(init, ms, l.userId);
    LatestOfIsAnEntry(init, l.userId);
    forall i | 0 <= i < |ms'| ensures LatestOf(locs, ms'[i].userId) == Some(ms'[i]) {
      if ms'[i].userId == l.userId {
        if k == |ms| {
          assert i == |ms|;
        } else {
          assert i == k;
        }
      } else {
        assert ms'[i] == ms[i];
      }
    }
  }

  lemma PlaceCovers(init: seq<Location>, ms: seq<Location>, l: Location)
    requires Agrees(init, ms)
    ensures forall j :: 0 <= j < |init + [l]| ==> FindUser(Place(ms, l), (init + [l])[j].userId) < |Place(ms, l)|
  {
    var locs := init + [l];
    var ms' := Place(ms, l);
    forall j | 0 <= j < |locs| ensures FindUser(ms', locs[j].userId) < |ms'| {
      if j < |init| {
        assert locs[j] == init[j];
        assert ms'[FindUser(ms, init[j].userId)].userId == init[j].userId;
      } else {
        assert ms'[FindUser(ms, l.userId)].userId == l.userId;
      }
    }
  }

  /** The in-place map built by the loop agrees with the reference
      definition: one marker per user present, and it is that user's latest. */
  lemma {:induction false} MarkersAreLatest(locs: seq<Location>)
    ensures Agrees(locs, Markers(locs))
  {
    if locs != [] {
      var init := locs[..|locs| - 1];
      var l := locs[|locs| - 1];
      assert locs == init + [l];
      MarkersAreLatest(init);
      PlaceUnique(Markers(init), l);
      PlaceLatest(init, Markers(init), l);
      PlaceCovers(init, Markers(init), l);
    }
  }

  predicate AllTimed(locs: seq<Location>) {
    forall j :: 0 <= j < |locs| ==> locs[j].timestamp.Some?
  }

  /** Under valid timestamps, each user's marker has the greatest timestamp
      among that user's entries. */
  lemma {:induction false} LatestIsMaximum(locs: seq<Location>, u: string)
    requires AllTimed(locs)
    ensures var m := LatestOf(locs, u);
      m.Some? ==>
        (m.value.timestamp.Some?
         && forall j :: 0 <= j < |locs| && locs[j].userId == u ==> locs[j].timestamp.value <= m.value.timestamp.value)
  {
    LatestOfIsAnEntry(locs, u);
    if locs != [] {
      var init := locs[..|locs| - 1];
      var l := locs[|locs| - 1];
      assert locs == init + [l];
      LatestIsMaximum(init, u);
      LatestOfIsAnEntry(init, u);
    }
  }

  /** Under valid timestamps, on a tie the earliest entry is kept: the
      marker occurs no later than any other entry of the user with the same
      timestamp. */
  lemma {:induction false} LatestIsFirstMaximum(locs: seq<Location>, u: string)
    requires AllTimed(locs)
    ensures var m := LatestOf(locs, u);
      m.Some? ==>
        forall j :: 0 <= j < |locs| && locs[j].userId == u && locs[j].timestamp == m.value.timestamp ==>
          exists i :: 0 <= i <= j && locs[i] == m.value
  {
    if locs != [] {
      var init := locs[..|locs| - 1];
      var l := locs[|locs| - 1];
      assert locs == init + [l];
      LatestOfIsAnEntry(init, u);
      var prev := LatestOf(init, u);
      assert locs[..|locs| - 1] == init;
      if l.userId == u && (prev.None? || Newer(l, prev.value)) {
        assert LatestOf(locs, u) == Some(l);
        LatestIsMaximum(init, u);
        assert forall j :: 0 <= j < |init| && init[j].userId == u ==> init[j].timestamp.value < l.timestamp.value;
        NewMarkerIsFirst(init, l, u);
      } else if prev.Some? {
        assert LatestOf(locs, u) == prev;
        LatestIsFirstMaximum(init, u);
        var i :| 0 <= i < |init| && init[i] == prev.value;
        KeptMarkerStaysFirst(init, l, u, prev.value, i);
      }
    }
  }

  /** A new marker is strictly newer than every earlier entry of its user, so
      it is the first entry with its timestamp. */
  lemma NewMarkerIsFirst(init: seq<Location>, l: Location, u: string)
    requires AllTimed(init) && l.timestamp.Some? && l.userId == u
    requires forall j :: 0 <= j < |init| && init[j].userId == u ==> init[j].timestamp.value < l.timestamp.value
    ensures forall j :: 0 <= j < |init + [l]| && (init + [l])[j].userId == u && (init + [l])[j].timestamp == l.timestamp ==>
      exists i :: 0 <= i <= j && (init + [l])[i] == l
  {
    var locs := init + [l];
    forall j | 0 <= j < |locs| && locs[j].userId == u && locs[j].timestamp == l.timestamp
      ensures exists i :: 0 <= i <= j && locs[i] == l
    {
      assert j == |init|;
    }
  }

  /** A kept marker, first among the earlier entries with its timestamp,
      stays first once another entry is appended. */
  lemma KeptMarkerStaysFirst(init: seq<Location>, l: Location, u: string, m: Location, k: int)
    requires 0 <= k < |init| && init[k] == m
    requires forall j :: 0 <= j < |init| && init[j].userId == u && init[j].timestamp == m.timestamp ==>
      exists i :: 0 <= i <= j && init[i] == m
    ensures forall j :: 0 <= j < |init + [l]| && (init + [l])[j].userId == u && (init + [l])[j].timestamp == m.timestamp ==>
      exists i :: 0 <= i <= j && (init + [l])[i] == m
  {
    var locs := init + [l];
    assert locs[k] == m;
    forall j | 0 <= j < |locs| && locs[j].userId == u && locs[j].timestamp == m.timestamp
      ensures exists i :: 0 <= i <= j && locs[i] == m
    {
      if j < |init| {
        assert init[j] == locs[j];
        var i' :| 0 <= i' <= j && init[i'] == m;
        assert locs[i'] == m;
      } else {
        assert k <= j;
      }
    }
  }

  /** The `forEach` over the room's locations, building the map in place. */
  method LatestPerUser(locations: seq<Location>) returns (markers: seq<Location>)
    ensures markers == Markers(locations)
  {
    markers := [];
    for k := 0 to |locations|
      invariant markers == Markers(locations[..k])
    {
      var l := locations[k];
      var i := FindUser(markers, l.userId);
      if i == |markers| {
        markers := markers + [l];
      } else if Newer(l, markers[i]) {
        markers := markers[i := l];
      }
      assert locations[..k + 1][..k] == locations[..k];
    }
    assert locations[..|locations|] == locations;
  }

  datatype Region = Region(latitude: real, longitude: real, latitudeDelta: real, longitudeDelta: real)

  /** Bangkok, shown when there is no marker. */
  const DefaultRegion: Region := Region(13.7563, 100.5018, 0.1, 0.1)
  const MinDelta: real := 0.01

  function MinOf(xs: seq<real>): (r: real)
    requires |xs| > 0
    ensures r in xs && forall i :: 0 <= i < |xs| ==> r <= xs[i]
  {
    if |xs| == 1 then xs[0] else
      var rest := MinOf(xs[1..]);
      assert rest in xs;
      if xs[0] <= rest then xs[0] else rest
  }

  function MaxOf(xs: seq<real>): (r: real)
    requires |xs| > 0
    ensures r in xs && forall i :: 0 <= i < |xs| ==> xs[i] <= r
  {
    if |xs| == 1 then xs[0] else
      var rest := MaxOf(xs[1..]);
      assert rest in xs;
      if xs[0] >= rest then xs[0] else rest
  }

  /** `Math.max(span * 1.5 || 0.1, 0.01)` */
  function Delta(span: real): (d: real)
    ensures d >= MinDelta
    ensures span != 0.0 ==> d == if span * 1.5 < MinDelta then MinDelta else span * 1.5
    ensures span == 0.0 ==> d == 0.1
  {
    var scaled := if span * 1.5 == 0.0 then 0.1 else span * 1.5;
    if scaled < MinDelta then MinDelta else scaled
  }

  function Latitudes(ms: seq<Location>): (r: seq<real>)
    ensures |r| == |ms| && forall i :: 0 <= i < |ms| ==> r[i] == ms[i].latitude
  {
    if ms == [] then [] else [ms[0].latitude] + Latitudes(ms[1..])
  }

  function Longitudes(ms: seq<Location>): (r: seq<real>)
    ensures |r| == |ms| && forall i :: 0 <= i < |ms| ==> r[i] == ms[i].longitude
  {
    if ms == [] then [] else [ms[0].longitude] + Longitudes(ms[1..])
  }

  /** `getRegion()`: centred on the midpoint of the markers' extent, with each
      delta 1.5 times the span (0.1 for a zero span) and at least 0.01. */
  function GetRegion(markers: seq<Location>): (r: Region)
    ensures markers == [] ==> r == DefaultRegion
    ensures r.latitudeDelta >= MinDelta && r.longitudeDelta >= MinDelta
  {
    if markers == [] then DefaultRegion
    else
      var lats := Latitudes(markers);
      var lngs := Longitudes(markers);
      Region((MinOf(lats) + MaxOf(lats)) / 2.0, (MinOf(lngs) + MaxOf(lngs)) / 2.0,
             Delta(MaxOf(lats) - MinOf(lats)), Delta(MaxOf(lngs) - MinOf(lngs)))
  }

  predicate Shows(r: Region, m: Location) {
    r.latitude - r.latitudeDelta / 2.0 <= m.latitude <= r.latitude + r.latitudeDelta / 2.0
    && r.longitude - r.longitudeDelta / 2.0 <= m.longitude <= r.longitude + r.longitudeDelta / 2.0
  }

  /** Every marker lies inside the region the map is given. */
  lemma RegionShowsEveryMarker(markers: seq<Location>)
    ensures forall i :: 0 <= i < |markers| ==> Shows(GetRegion(markers), markers[i])
  {
    if markers != [] {
      var lats := Latitudes(markers);
      var lngs := Longitudes(markers);
      forall i | 0 <= i < |markers| ensures Shows(GetRegion(markers), markers[i]) {
        assert MinOf(lats) <= lats[i] <= MaxOf(lats);
        assert MinOf(lngs) <= lngs[i] <= MaxOf(lngs);
      }
    }
  }

  /** Markers `lo` and `hi` hold the least and the greatest latitude. */
  predicate LatitudeBounds(markers: seq<Location>, lo: int, hi: int) {
    && 0 <= lo < |markers| && 0 <= hi < |markers|
    && forall k :: 0 <= k < |markers| ==> markers[lo].latitude <= markers[k].latitude <= markers[hi].latitude
  }

  /** Markers `lo` and `hi` are the extremes along the latitude, and the
      region's centre and delta come from them. */
  predicate FramesLatitude(markers: seq<Location>, lo: int, hi: int, r: Region) {
    && LatitudeBounds(markers, lo, hi)
    && r.latitude == (markers[lo].latitude + markers[hi].latitude) / 2.0
    && r.latitudeDelta == Delta(markers[hi].latitude - markers[lo].latitude)
  }

  /** The markers that `Math.min` and `Math.max` pick along the latitude. */
  lemma LatitudeExtremes(markers: seq<Location>) returns (lo: int, hi: int)
    requires markers != []
    ensures LatitudeBounds(markers, lo, hi)
    ensures markers[lo].latitude == MinOf(Latitudes(markers)) && markers[hi].latitude == MaxOf(Latitudes(markers))
  {
    var lats := Latitudes(markers);
    lo :| 0 <= lo < |lats| && lats[lo] == MinOf(lats);
    hi :| 0 <= hi < |lats| && lats[hi] == MaxOf(lats);
    assert lats[lo] == markers[lo].latitude && lats[hi] == markers[hi].latitude;
    forall k | 0 <= k < |markers| ensures markers[lo].latitude <= markers[k].latitude <= markers[hi].latitude {
      assert lats[k] == markers[k].latitude;
      assert MinOf(lats) <= lats[k] <= MaxOf(lats);
    }
  }

  /** Markers `lo` and `hi` hold the least and the greatest longitude. */
  predicate LongitudeBounds(markers: seq<Location>, lo: int, hi: int) {
    && 0 <= lo < |markers| && 0 <= hi < |markers|
    && forall k :: 0 <= k < |markers| ==> markers[lo].longitude <= markers[k].longitude <= markers[hi].longitude
  }

  /** Markers `lo` and `hi` are the extremes along the longitude, and the
      region's centre and delta come from them. */
  predicate FramesLongitude(markers: seq<Location>, lo: int, hi: int, r: Region) {
    && LongitudeBounds(markers, lo, hi)
    && r.longitude == (markers[lo].longitude + markers[hi].longitude) / 2.0
    && r.longitudeDelta == Delta(markers[hi].longitude - markers[lo].longitude)
  }

  /** The markers that `Math.min` and `Math.max` pick along the longitude. */
  lemma LongitudeExtremes(markers: seq<Location>) returns (lo: int, hi: int)
    requires markers != []
    ensures LongitudeBounds(markers, lo, hi)
    ensures markers[lo].longitude == MinOf(Longitudes(markers)) && markers[hi].longitude == MaxOf(Longitudes(markers))
  {
    var lngs := Longitudes(markers);
    lo :| 0 <= lo < |lngs| && lngs[lo] == MinOf(lngs);
    hi :| 0 <= hi < |lngs| && lngs[hi] == MaxOf(lngs);
    assert lngs[lo] == markers[lo].longitude && lngs[hi] == markers[hi].longitude;
    forall k | 0 <= k < |markers| ensures markers[lo].longitude <= markers[k].longitude <= markers[hi].longitude {
      assert lngs[k] == markers[k].longitude;
      assert MinOf(lngs) <= lngs[k] <= MaxOf(lngs);
    }
  }

  /** The centre is the midpoint between the southernmost and northernmost
      markers, and the latitude delta is computed from that extent. */
  lemma RegionLatitudeFromExtent(markers: seq<Location>)
    requires markers != []
    ensures exists lo, hi :: FramesLatitude(markers, lo, hi, GetRegion(markers))
  {
    var lo, hi := LatitudeExtremes(markers);
    var r := GetRegion(markers);
    var xs := Latitudes(markers);
    assert r.latitude == (MinOf(xs) + MaxOf(xs)) / 2.0 && r.latitudeDelta == Delta(MaxOf(xs) - MinOf(xs));
    assert r.latitudeDelta == Delta(markers[hi].latitude - markers[lo].latitude);
    assert FramesLatitude(markers, lo, hi, r);
  }

  /** The same along the other axis: the centre is the midpoint between the
      westernmost and easternmost markers. */
  lemma RegionLongitudeFromExtent(markers: seq<Location>)
    requires markers != []
    ensures exists lo, hi :: FramesLongitude(markers, lo, hi, GetRegion(markers))
  {
    var lo, hi := LongitudeExtremes(markers);
    var r := GetRegion(markers);
    var xs := Longitudes(markers);
    assert r.longitude == (MinOf(xs) + MaxOf(xs)) / 2.0 && r.longitudeDelta == Delta(MaxOf(xs) - MinOf(xs));
    assert r.longitudeDelta == Delta(markers[hi].longitude - markers[lo].longitude);
    assert FramesLongitude(markers, lo, hi, r);
  }

}
