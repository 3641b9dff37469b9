/** The cleanup batch job: loads the maritime boundary features, finds for
    each stored position the country whose waters (or boundary line) it lies
    in, and deletes the recent positions of every vessel that stayed within
    fewer than two countries, in batches of 100 MMSIs. The database and the
    GeoJSON file are outside the model; Shapely's `contains` and `distance`
    are supplied as function values. */
module CleanupVessels {
  import opened Wrappers
  import Seqs

  /** Distance in degrees below which a point counts as at a boundary line. */
  const ProximityThreshold: real := 0.2

  /** MMSIs per delete request. */
  const DeleteBatchSize: nat := 100

  /** The feature properties tried, in order, for the country name. */
  const CountryKeys: seq<string> := ["TERRITORY1", "Country", "NAME"]

  /** The geometry types kept as boundaries. */
  const BoundaryTypes: seq<string> := ["Polygon", "MultiPolygon", "LineString", "MultiLineString"]

  /** A Shapely point: x is the longitude, y the latitude. */
  datatype Point = Point(lon: real, lat: real)

  /** The two Shapely operations used on a geometry of type `G`. */
  datatype Shapely<-G> = Shapely(contains: (G, Point) -> bool, distance: (G, Point) -> real)

  /** A feature of the boundaries GeoJSON file; a property absent from the map
      reads as `None`. */
  datatype BoundaryFeature<G> = BoundaryFeature(geomType: string, geometry: G, properties: map<string, string>)

  /** A loaded boundary: its geometry, its country and its geometry type. */
  datatype Boundary<G> = Boundary(geometry: G, country: string, kind: string)

  /** A stored MMSI; `None` is a row whose `mmsi` column is null, which the
      grouping treats as one more key. */
  type Mmsi = Option<int>

  /** A row selected from the `vessel_positions` table. */
  datatype PositionRecord = PositionRecord(mmsi: Mmsi, longitude: real, latitude: real, timestamp: string)

  // ---------------------------------------------------------------------
  // Loading boundaries
  // ---------------------------------------------------------------------

  /** Python truthiness of `properties.get(key)` for a string property. */
  predicate Truthy(props: map<string, string>, key: string) {
    key in props && props[key] != ""
  }

  /** `props.get(keys[0]) or props.get(keys[1]) or ... or default`: the value
      of the first key whose value is truthy, else `default`. */
  function FirstTruthy(props: map<string, string>, keys: seq<string>, default: string): (r: string)
    ensures (forall i :: 0 <= i < |keys| ==> !Truthy(props, keys[i])) ==> r == default
    ensures forall i :: 0 <= i < |keys| && Truthy(props, keys[i]) && (forall j :: 0 <= j < i ==> !Truthy(props, keys[j]))
              ==> r == props[keys[i]]
    decreases |keys|
  {
    if |keys| == 0 then default
    else if Truthy(props, keys[0]) then props[keys[0]]
    else
      var r := FirstTruthy(props, keys[1..], default);
      assert forall i :: 1 <= i < |keys| ==> keys[i] == keys[1..][i - 1];
      r
  }

  /** The country of a boundary feature: TERRITORY1, else Country, else NAME,
      an empty or absent value falling through to the next, else "Unknown".
      It is never empty. */
  function CountryOf(props: map<string, string>): (r: string)
    ensures r != ""
    ensures Truthy(props, "TERRITORY1") ==> r == props["TERRITORY1"]
    ensures !Truthy(props, "TERRITORY1") && Truthy(props, "Country") ==> r == props["Country"]
    ensures !Truthy(props, "TERRITORY1") && !Truthy(props, "Country") && Truthy(props, "NAME") ==>
      r == props["NAME"]
    ensures !Truthy(props, "TERRITORY1") && !Truthy(props, "Country") && !Truthy(props, "NAME") ==>
      r == "Unknown"
  {
    var r := FirstTruthy(props, CountryKeys, "Unknown");
    assert CountryKeys[0] == "TERRITORY1" && CountryKeys[1] == "Country" && CountryKeys[2] == "NAME";
    r
  }

  predicate IsBoundaryType<G>(f: BoundaryFeature<G>) {
    f.geomType in BoundaryTypes
  }

  function ToBoundary<G>(f: BoundaryFeature<G>): Boundary<G> {
    Boundary(f.geometry, CountryOf(f.properties), f.geomType)
  }

  /** The boundaries loaded from a file, as one sequence. */
  function LoadedBoundaries<G>(file: Option<seq<BoundaryFeature<G>>>): seq<Boundary<G>> {
    if file.None? then []
    else
      var kept := Seqs.Filter(file.value, IsBoundaryType);
      seq(|kept|, k requires 0 <= k < |kept| => ToBoundary(kept[k]))
  }

  /** `load_territorial_waters`: no file gives no boundaries; otherwise each
      Polygon, MultiPolygon, LineString or MultiLineString feature, in file
      order, becomes one boundary, and every other feature is skipped. */
  method LoadTerritorialWaters<G>(file: Option<seq<BoundaryFeature<G>>>) returns (bs: seq<Boundary<G>>)
    ensures file.None? ==> bs == []
    ensures file.Some? ==>
      var kept := Seqs.Filter(file.value, IsBoundaryType);
      |bs| == |kept| && forall k :: 0 <= k < |bs| ==> bs[k] == ToBoundary(kept[k])
    ensures forall k :: 0 <= k < |bs| ==> bs[k].kind in BoundaryTypes && bs[k].country != ""
    ensures bs == LoadedBoundaries(file)
  {
    bs := [];
    if file.None? {
      return;
    }
    var fs := file.value;
    var i := 0;
    while i < |fs|
      invariant 0 <= i <= |fs|
      invariant |bs| == |Seqs.Filter(fs[..i], IsBoundaryType)|
      invariant forall k :: 0 <= k < |bs| ==> bs[k] == ToBoundary(Seqs.Filter(fs[..i], IsBoundaryType)[k])
    {
      var feature := fs[i];
      assert fs[..i + 1] == fs[..i] + [feature];
      Seqs.FilterSnoc(fs[..i], feature, IsBoundaryType);
      if feature.geomType in BoundaryTypes {
        bs := bs + [ToBoundary(feature)];
      }
      i := i + 1;
    }
    assert fs[..i] == fs;
  }

  // ---------------------------------------------------------------------
  // Country lookup
  // ---------------------------------------------------------------------

  predicate IsPolygonKind(kind: string) {
    kind == "Polygon" || kind == "MultiPolygon"
  }

  predicate IsLineKind(kind: string) {
    kind == "LineString" || kind == "MultiLineString"
  }

  /** A boundary claims the point: a polygon by containing it, a line by
      lying strictly closer than the proximity threshold; a boundary of any
      other type never does. */
  predicate Claims<G>(geo: Shapely<G>, b: Boundary<G>, p: Point) {
    if IsPolygonKind(b.kind) then geo.contains(b.geometry, p)
    else if IsLineKind(b.kind) then geo.distance(b.geometry, p) < ProximityThreshold
    else false
  }

  /** `get_vessel_country`: the country of the first boundary, in list order,
      that claims `Point(lon, lat)`, or `None` when none does. */
  function GetVesselCountry<G>(geo: Shapely<G>, lon: real, lat: real, bs: seq<Boundary<G>>): (r: Option<string>)
    ensures r.None? <==> forall i :: 0 <= i < |bs| ==> !Claims(geo, bs[i], Point(lon, lat))
    ensures r.Some? ==> exists i ::
      && 0 <= i < |bs|
      && Claims(geo, bs[i], Point(lon, lat))
      && r.value == bs[i].country
      && forall j :: 0 <= j < i ==> !Claims(geo, bs[j], Point(lon, lat))
    decreases |bs|
  {
    if |bs| == 0 then None
    else if Claims(geo, bs[0], Point(lon, lat)) then
      assert Claims(geo, bs[0], Point(lon, lat));
      Some(bs[0].country)
    else
      var r := GetVesselCountry(geo, lon, lat, bs[1..]);
      assert forall i :: 1 <= i < |bs| ==> bs[i] == bs[1..][i - 1];
      if r.Some? then
        var i :| && 0 <= i < |bs[1..]|
                 && Claims(geo, bs[1..][i], Point(lon, lat))
                 && r.value == bs[1..][i].country
                 && forall j :: 0 <= j < i ==> !Claims(geo, bs[1..][j], Point(lon, lat));
        assert Claims(geo, bs[i + 1], Point(lon, lat)) && r.value == bs[i + 1].country;
        r
      else r
  }

  /** A single boundary decides by its type alone: a polygon by containment,
      whatever the distance; a line by distance strictly below 0.2, whatever
      containment says; any other type never matches. */
  lemma SingleBoundaryRule<G>(geo: Shapely<G>, lon: real, lat: real, b: Boundary<G>)
    ensures IsPolygonKind(b.kind) ==>
      (GetVesselCountry(geo, lon, lat, [b]) == Some(b.country) <==> geo.contains(b.geometry, Point(lon, lat)))
    ensures IsLineKind(b.kind) ==>
      (GetVesselCountry(geo, lon, lat, [b]) == Some(b.country) <==> geo.distance(b.geometry, Point(lon, lat)) < 0.2)
    ensures !IsPolygonKind(b.kind) && !IsLineKind(b.kind) ==> GetVesselCountry(geo, lon, lat, [b]) == None
  {
  }

  /** First match wins: boundaries after a matching prefix are never
      consulted, and a prefix that matches nothing is skipped over. */
  lemma {:induction false} FirstMatchWins<G>(geo: Shapely<G>, lon: real, lat: real, bs: seq<Boundary<G>>, more: seq<Boundary<G>>)
    ensures GetVesselCountry(geo, lon, lat, bs + more) ==
      if GetVesselCountry(geo, lon, lat, bs).Some? then GetVesselCountry(geo, lon, lat, bs)
      else GetVesselCountry(geo, lon, lat, more)
    decreases |bs|
  {
    if |bs| == 0 {
      assert bs + more == more;
    } else {
      assert (bs + more)[0] == bs[0];
      assert (bs + more)[1..] == bs[1..] + more;
      FirstMatchWins(geo, lon, lat, bs[1..], more);
    }
  }

  // ---------------------------------------------------------------------
  // Movement analysis
  // ---------------------------------------------------------------------

  /** The set of MMSIs among the position rows. */
  function MmsisOf(ps: seq<PositionRecord>): set<Mmsi> {
    set p | p in ps :: p.mmsi
  }

  /** Selects the rows of one vessel. */
  function HasMmsi(k: Mmsi): PositionRecord -> bool {
    (p: PositionRecord) => p.mmsi == k
  }

  /** The rows of vessel `k`, in their original order. */
  function RowsOf(ps: seq<PositionRecord>, k: Mmsi): seq<PositionRecord> {
    Seqs.Filter(ps, HasMmsi(k))
  }

  /** One more row extends its own vessel's rows and no other's. */
  lemma RowsOfSnoc(ps: seq<PositionRecord>, x: PositionRecord, k: Mmsi)
    ensures RowsOf(ps + [x], k) == RowsOf(ps, k) + (if x.mmsi == k then [x] else [])
  {
    Seqs.FilterSnoc(ps, x, HasMmsi(k));
  }

  /** A vessel that never appears has no rows. */
  lemma RowsOfUnseen(ps: seq<PositionRecord>, k: Mmsi)
    requires k !in MmsisOf(ps)
    ensures RowsOf(ps, k) == []
  {
    Seqs.FilterCounts(ps, HasMmsi(k));
  }

  /** The grouping loop of `analyze_vessel_movements`: one group per MMSI
      seen, holding exactly that vessel's rows in input order. */
  method GroupByMmsi(ps: seq<PositionRecord>) returns (groups: map<Mmsi, seq<PositionRecord>>)
    ensures groups.Keys == MmsisOf(ps)
    ensures forall k :: k in groups ==> groups[k] == RowsOf(ps, k)
  {
    groups := map[];
    var i := 0;
    while i < |ps|
      invariant 0 <= i <= |ps|
      invariant groups.Keys == MmsisOf(ps[..i])
      invariant forall k :: k in groups ==> groups[k] == RowsOf(ps[..i], k)
    {
      var pos := ps[i];
      assert ps[..i + 1] == ps[..i] + [pos];
      if pos.mmsi !in groups {
        RowsOfUnseen(ps[..i], pos.mmsi);
        groups := groups[pos.mmsi := []];
      }
      groups := groups[pos.mmsi := groups[pos.mmsi] + [pos]];
      forall k | k in groups
        ensures groups[k] == RowsOf(ps[..i + 1], k)
      {
        RowsOfSnoc(ps[..i], pos, k);
      }
      i := i + 1;
    }
    assert ps[..i] == ps;
  }

  /** Every position row lies in exactly one group: the group of its own
      MMSI selects its position, and no other group does. */
  lemma GroupingPartitions(ps: seq<PositionRecord>, groups: map<Mmsi, seq<PositionRecord>>)
    requires groups.Keys == MmsisOf(ps)
    requires forall k :: k in groups ==> groups[k] == RowsOf(ps, k)
    ensures forall i :: 0 <= i < |ps| ==> ps[i].mmsi in groups
    ensures forall i, k :: 0 <= i < |ps| && k in groups ==>
      (i in Seqs.FilterIndices(ps, HasMmsi(k)) <==> k == ps[i].mmsi)
  {
    forall k | k in groups {
      Seqs.FilterIndicesCover(ps, HasMmsi(k));
    }
  }

  /** The non-empty names that `found` returns for some of the rows: the
      `if country:` loop that fills `countries_visited`, for any lookup. */
  function CountriesFound(found: PositionRecord -> Option<string>, rows: seq<PositionRecord>): set<string>
    decreases |rows|
  {
    if |rows| == 0 then {}
    else
      var n := |rows| - 1;
      var country := found(rows[n]);
      CountriesFound(found, rows[..n]) + (if country.Some? && country.value != "" then {country.value} else {})
  }

  lemma {:induction false} CountriesFoundExactly(found: PositionRecord -> Option<string>, rows: seq<PositionRecord>)
    ensures forall c :: c in CountriesFound(found, rows) <==>
      c != "" && exists i :: 0 <= i < |rows| && found(rows[i]) == Some(c)
    decreases |rows|
  {
    if |rows| > 0 {
      var n := |rows| - 1;
      CountriesFoundExactly(found, rows[..n]);
      forall c
        ensures c in CountriesFound(found, rows) <==> c != "" && exists i :: 0 <= i < |rows| && found(rows[i]) == Some(c)
      {
        if c != "" && (exists i :: 0 <= i < |rows| && found(rows[i]) == Some(c)) && found(rows[n]) != Some(c) {
          var i :| 0 <= i < |rows| && found(rows[i]) == Some(c);
          assert rows[..n][i] == rows[i];
        }
        if c in CountriesFound(found, rows[..n]) {
          var i :| 0 <= i < n && found(rows[..n][i]) == Some(c);
          assert rows[..n][i] == rows[i];
        }
      }
    }
  }

  /** The country lookup of one position row. */
  function LookupOf<G>(geo: Shapely<G>, bs: seq<Boundary<G>>): PositionRecord -> Option<string> {
    (p: PositionRecord) => GetVesselCountry(geo, p.longitude, p.latitude, bs)
  }

  /** The countries, other than `None` and the empty name, found for the
      rows of one vessel (`countries_visited`). */
  function CountriesVisited<G>(geo: Shapely<G>, bs: seq<Boundary<G>>, rows: seq<PositionRecord>): set<string> {
    CountriesFound(LookupOf(geo, bs), rows)
  }

  /** A country is collected exactly when it is not empty and the lookup
      returns it for one of the vessel's positions. */
  lemma CountriesVisitedExactly<G>(geo: Shapely<G>, bs: seq<Boundary<G>>, rows: seq<PositionRecord>)
    ensures forall c :: c in CountriesVisited(geo, bs, rows) <==> c != "" && exists i ::
      && 0 <= i < |rows|
      && GetVesselCountry(geo, rows[i].longitude, rows[i].latitude, bs) == Some(c)
  {
    CountriesFoundExactly(LookupOf(geo, bs), rows);
  }

  /** The job's verdict on one vessel: kept when it has fewer than two
      positions or visited at least two countries. */
  predicate KeepVessel<G>(geo: Shapely<G>, bs: seq<Boundary<G>>, rows: seq<PositionRecord>) {
    |rows| < 2 || |CountriesVisited(geo, bs, rows)| >= 2
  }

  /** The classification loop of `analyze_vessel_movements`, given the
      verdict on one vessel's rows: every group's MMSI lands in exactly one
      of the two sets, the keep set exactly when the verdict says so. */
  function ClassifyGroups(groups: map<Mmsi, seq<PositionRecord>>, verdict: seq<PositionRecord> -> bool)
    : (r: (set<Mmsi>, set<Mmsi>))
    ensures r.0 !! r.1
    ensures r.0 + r.1 == groups.Keys
    ensures forall k :: k in r.0 <==> k in groups && verdict(groups[k])
  {
    (set k | k in groups && verdict(groups[k]), set k | k in groups && !verdict(groups[k]))
  }

  /** `analyze_vessel_movements` on its success path: the MMSIs seen are
      split into a keep set and a delete set. A vessel with fewer than two
      positions is kept; one with two or more is kept exactly when its
      positions fall in at least two distinct countries. */
  method AnalyzeVesselMovements<G>(geo: Shapely<G>, bs: seq<Boundary<G>>, ps: seq<PositionRecord>)
    returns (keep: set<Mmsi>, delete: set<Mmsi>)
    ensures keep !! delete
    ensures keep + delete == MmsisOf(ps)
    ensures forall k :: k in MmsisOf(ps) && |RowsOf(ps, k)| < 2 ==> k in keep
    ensures forall k :: k in keep <==>
      k in MmsisOf(ps) && (|RowsOf(ps, k)| < 2 || |CountriesVisited(geo, bs, RowsOf(ps, k))| >= 2)
  {
    var groups := GroupByMmsi(ps);
    var verdicts := ClassifyGroups(groups, rows => KeepVessel(geo, bs, rows));
    keep, delete := verdicts.0, verdicts.1;
  }

  // ---------------------------------------------------------------------
  // Deletion
  // ---------------------------------------------------------------------

  /** `delete_vessels`: nothing is issued for an empty set; otherwise the
      MMSIs are listed and sent in batches of 100, the last possibly shorter,
      every MMSI of the set in exactly one batch, exactly once. */
  method DeleteVessels(mmsiSet: set<Mmsi>) returns (batches: seq<seq<Mmsi>>)
    ensures mmsiSet == {} <==> batches == []
    ensures forall b :: b in batches ==> 0 < |b| <= 100
    ensures forall k :: 0 <= k < |batches| - 1 ==> |batches[k]| == 100
    ensures multiset(Seqs.Flatten(batches)) == multiset(mmsiSet)
  {
    if mmsiSet == {} {
      return [];
    }
    var mmsiList := Seqs.SetToSeq(mmsiSet);
    assert |mmsiList| == |multiset(mmsiList)| == |multiset(mmsiSet)| > 0;
    batches := Seqs.Batches(mmsiList, DeleteBatchSize);
  }

  // ---------------------------------------------------------------------
  // The job as a whole
  // ---------------------------------------------------------------------

  /** What `analyze_vessel_movements` hands back as written: the pair of its
      success path, or the single empty `set()` its fetch-error path returns. */
  datatype AnalysisValue = Pair(keep: set<Mmsi>, delete: set<Mmsi>) | EmptySet

  /** Python's ValueError on `a, b = set()`. */
  datatype UnpackError = NotEnoughValues

  /** `vessels_to_keep, vessels_to_delete = analyze_vessel_movements(...)`:
      unpacking succeeds on a pair and fails on an empty set. */
  function Unpack(v: AnalysisValue): (r: Result<(set<Mmsi>, set<Mmsi>), UnpackError>)
    ensures r.Ok? <==> v.Pair?
    ensures r.Ok? ==> r.value.0 == v.keep && r.value.1 == v.delete
  {
    match v
    case Pair(keep, delete) => Ok((keep, delete))
    case EmptySet => Err(NotEnoughValues)
  }

  /** `analyze_vessel_movements` as written, `positions == None` standing for
      a failed query: that path returns the lone empty set, which the caller
      cannot unpack. */
  method AnalyzeAsWritten<G>(geo: Shapely<G>, bs: seq<Boundary<G>>, positions: Option<seq<PositionRecord>>)
    returns (v: AnalysisValue)
    ensures positions.None? <==> v.EmptySet?
    ensures positions.None? ==> Unpack(v) == Err(NotEnoughValues)
    ensures positions.Some? ==> v.keep + v.delete == MmsisOf(positions.value) && v.keep !! v.delete
  {
    if positions.None? {
      return EmptySet;
    }
    var keep, delete := AnalyzeVesselMovements(geo, bs, positions.value);
    v := Pair(keep, delete);
  }

  /** `analyze_vessel_movements` with the fetch-error path returning the
      evidently intended pair of empty sets: the result always unpacks, a
      failed query keeps and deletes nothing, and a successful one partitions
      the MMSIs seen as `AnalyzeVesselMovements` does. */
  method AnalyzeOrEmpty<G>(geo: Shapely<G>, bs: seq<Boundary<G>>, positions: Option<seq<PositionRecord>>)
    returns (keep: set<Mmsi>, delete: set<Mmsi>)
    ensures positions.None? ==> keep == {} && delete == {}
    ensures positions.Some? ==> keep !! delete && keep + delete == MmsisOf(positions.value)
    ensures positions.Some? ==> forall k :: k in delete <==>
      k in MmsisOf(positions.value) && !KeepVessel(geo, bs, RowsOf(positions.value, k))
  {
    if positions.None? {
      return {}, {};
    }
    keep, delete := AnalyzeVesselMovements(geo, bs, positions.value);
  }

  /** `main` of the cleanup job, with the corrected analysis: without a
      database client or without any boundary nothing is deleted, and a
      failed position query deletes nothing where the code as written raises
      ValueError (see `AnalyzeAsWritten`); otherwise the delete requests, in
      batches of 100 with the last possibly shorter, cover each exactly once
      the MMSIs whose vessel has two or more positions within fewer than two
      countries. */
  method CleanupRun<G>(geo: Shapely<G>, clientAvailable: bool, file: Option<seq<BoundaryFeature<G>>>,
                       positions: Option<seq<PositionRecord>>)
    returns (batches: seq<seq<Mmsi>>)
    ensures !clientAvailable || LoadedBoundaries(file) == [] || positions.None? ==> batches == []
    ensures forall b :: b in batches ==> 0 < |b| <= 100
    ensures forall k :: 0 <= k < |batches| - 1 ==> |batches[k]| == 100
    ensures clientAvailable && LoadedBoundaries(file) != [] && positions.Some? ==>
      var ps := positions.value;
      forall k :: k in multiset(Seqs.Flatten(batches)) <==>
        k in MmsisOf(ps) && !KeepVessel(geo, LoadedBoundaries(file), RowsOf(ps, k))
    ensures forall k :: multiset(Seqs.Flatten(batches))[k] <= 1
  {
    if !clientAvailable {
      return [];
    }
    var bs := LoadTerritorialWaters(file);
    if bs == [] {
      return [];
    }
    var keep, delete := AnalyzeOrEmpty(geo, bs, positions);
    if delete == {} {
      return [];
    }
    batches := DeleteVessels(delete);
  }
}
