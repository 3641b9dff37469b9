/** The AIS collector batch job: keeps the position reports that fall inside
    the Baltic Sea bounding box, looks up vessel metadata for them, shapes
    them into database rows inserted in batches of 1000, and exports a
    simplified "latest" record. HTTP, the database client and the JSON file
    are outside the model; what they would receive or return is a parameter
    or a result here. */
module CollectAis {
  import opened Wrappers
  import Seqs
  import Text

  /** The Baltic Sea bounding box, inclusive on every side. */
  const MinLon: real := 17.0
  const MaxLon: real := 30.3
  const MinLat: real := 58.5
  const MaxLat: real := 66.0

  /** Rows per insert request. */
  const InsertBatchSize: nat := 1000

  /** The `properties` object of a position feature. A missing key is `None`. */
  datatype Properties = Properties(
    mmsi: Option<int>,
    sog: Option<real>,
    cog: Option<real>,
    heading: Option<real>,
    navStat: Option<int>,
    posAcc: Option<bool>)

  /** A position feature; `coordinates` is GeoJSON's `[lon, lat, ...]`. */
  datatype Feature = Feature(properties: Properties, coordinates: seq<real>)

  /** The decoded feed response, a JSON object: its `features` member, if
      present, and the names of its other keys. */
  datatype FeedPayload = FeedPayload(features: Option<seq<Feature>>, otherKeys: set<string>)

  /** The exceptions the job raises on malformed input, with the position of
      the offending feature. */
  datatype FeedError =
    | MalformedCoordinates(index: nat)   // `coords[1]` raises IndexError
    | MissingMmsi(index: nat)            // `f['properties']['mmsi']` raises KeyError

  /** One element of the vessel metadata response. */
  datatype VesselInfo = VesselInfo(
    mmsi: Option<int>,
    name: Option<string>,
    shipType: Option<int>,
    destination: Option<string>,
    eta: Option<int>,
    draught: Option<int>)

  /** The metadata kept per MMSI. */
  datatype Metadata = Metadata(
    name: string,
    shipType: Option<int>,
    destination: string,
    eta: Option<int>,
    draught: Option<int>)

  type MetadataMap = map<Option<int>, Metadata>

  /** A row of the `vessel_positions` table. */
  datatype PositionRow = PositionRow(
    timestamp: string,
    mmsi: Option<int>,
    name: Option<string>,
    longitude: real,
    latitude: real,
    sog: Option<real>,
    cog: Option<real>,
    heading: Option<real>,
    navStat: Option<int>,
    shipType: Option<int>,
    destination: Option<string>,
    eta: Option<int>,
    draught: Option<int>,
    posAcc: Option<bool>)

  /** A row of the `collection_summary` table. */
  datatype CollectionSummary = CollectionSummary(timestamp: string, vesselCount: nat, collectionTimeMs: int)

  /** What `save_to_database` hands to the database: nothing when no client is
      available, otherwise the insert batches followed by the summary row. */
  datatype SaveOutcome =
    | Skipped
    | Saved(batches: seq<seq<PositionRow>>, summary: CollectionSummary)

  /** One vessel of the exported `latest.json`. */
  datatype ExportEntry = ExportEntry(
    mmsi: Option<int>,
    name: Option<string>,
    lon: real,
    lat: real,
    sog: Option<real>,
    cog: Option<real>,
    heading: Option<real>,
    shipType: Option<int>,
    destination: Option<string>)

  /** The exported `latest.json` document. */
  datatype LatestExport = LatestExport(timestamp: string, vesselCount: nat, vessels: seq<ExportEntry>)

  // ---------------------------------------------------------------------
  // Regional filter
  // ---------------------------------------------------------------------

  /** The feature has a longitude and a latitude to read. */
  predicate HasPosition(f: Feature) {
    |f.coordinates| >= 2
  }

  /** The feature lies inside the bounding box, reading `[lon, lat]`. */
  predicate InRegion(f: Feature) {
    && HasPosition(f)
    && MinLon <= f.coordinates[0] <= MaxLon
    && MinLat <= f.coordinates[1] <= MaxLat
  }

  /** The loop of `filter_vessels` over a `features` array: the first feature
      without two coordinates aborts the job; if there is none the result is
      the in-box features in feed order. */
  method FilterFeatures(fs: seq<Feature>) returns (r: Result<seq<Feature>, FeedError>)
    ensures r.Err? <==> exists i :: 0 <= i < |fs| && !HasPosition(fs[i])
    ensures r.Err? ==> && r.error.MalformedCoordinates?
                       && r.error.index < |fs|
                       && !HasPosition(fs[r.error.index])
                       && forall j :: 0 <= j < r.error.index ==> HasPosition(fs[j])
    ensures r.Ok? ==> r.value == Seqs.Filter(fs, InRegion)
  {
    r := Ok([]);
    var filtered := [];
    var i := 0;
    while i < |fs|
      invariant 0 <= i <= |fs|
      invariant forall j :: 0 <= j < i ==> HasPosition(fs[j])
      invariant filtered == Seqs.Filter(fs[..i], InRegion)
    {
      var feature := fs[i];
      if |feature.coordinates| < 2 {
        assert !HasPosition(fs[i]);
        return Err(MalformedCoordinates(i));
      }
      var lon, lat := feature.coordinates[0], feature.coordinates[1];
      assert fs[..i + 1] == fs[..i] + [feature];
      Seqs.FilterSnoc(fs[..i], feature, InRegion);
      if MinLon <= lon <= MaxLon && MinLat <= lat <= MaxLat {
        filtered := filtered + [feature];
      }
      i := i + 1;
    }
    assert fs[..i] == fs;
    return Ok(filtered);
  }

  /** `filter_vessels`: with no payload, or a payload without `features`, the
      result is empty; otherwise it is that of `FilterFeatures`. Every
      feature kept has `17.0 <= coordinates[0] <= 30.3` and
      `58.5 <= coordinates[1] <= 66.0`. */
  method FilterVessels(data: Option<FeedPayload>) returns (r: Result<seq<Feature>, FeedError>)
    ensures data.None? || data.value.features.None? ==> r == Ok([])
    ensures data.Some? && data.value.features.Some? ==>
      var fs := data.value.features.value;
      && (r.Err? <==> exists i :: 0 <= i < |fs| && !HasPosition(fs[i]))
      && (r.Err? ==>
            && r.error.MalformedCoordinates?
            && r.error.index < |fs|
            && !HasPosition(fs[r.error.index])
            && forall j :: 0 <= j < r.error.index ==> HasPosition(fs[j]))
      && (r.Ok? ==> r.value == Seqs.Filter(fs, InRegion))
    ensures r.Ok? ==> forall k :: 0 <= k < |r.value| ==>
      && |r.value[k].coordinates| >= 2
      && 17.0 <= r.value[k].coordinates[0] <= 30.3
      && 58.5 <= r.value[k].coordinates[1] <= 66.0
  {
    if data.None? || data.value.features.None? {
      return Ok([]);
    }
    r := FilterFeatures(data.value.features.value);
  }

  // ---------------------------------------------------------------------
  // Vessel metadata
  // ---------------------------------------------------------------------

  /** The metadata record built for one vessel: `name` and `destination` are
      whitespace-stripped, an absent one becomes the empty string, and the
      other fields are carried over unchanged. */
  function MetadataOf(v: VesselInfo): (m: Metadata)
    ensures Text.IsStripped(m.name) && Text.IsStripped(m.destination)
    ensures v.name.None? ==> m.name == ""
    ensures v.name.Some? ==> m.name == Text.Strip(v.name.value)
    ensures v.destination.None? ==> m.destination == ""
    ensures v.destination.Some? ==> m.destination == Text.Strip(v.destination.value)
    ensures m.shipType == v.shipType && m.eta == v.eta && m.draught == v.draught
  {
    Text.StripAllSpace("");
    Metadata(Text.Strip(v.name.GetOr("")), v.shipType, Text.Strip(v.destination.GetOr("")), v.eta, v.draught)
  }

  /** The position of the last vessel in `vs` carrying MMSI `k`, or -1. */
  function LastIndexOf(vs: seq<VesselInfo>, k: Option<int>): (r: int)
    ensures -1 <= r < |vs|
    ensures r >= 0 ==> vs[r].mmsi == k
    ensures forall j :: r < j < |vs| ==> vs[j].mmsi != k
    decreases |vs|
  {
    if |vs| == 0 then -1
    else if vs[|vs| - 1].mmsi == k then |vs| - 1
    else LastIndexOf(vs[..|vs| - 1], k)
  }

  /** The lookup dictionary after the loop of `fetch_vessel_metadata` has
      visited `vs`: each vessel whose MMSI is in `mmsiList` (over)writes the
      entry under its MMSI. */
  function MetadataAfter(vs: seq<VesselInfo>, mmsiList: seq<Option<int>>): MetadataMap
    decreases |vs|
  {
    if |vs| == 0 then map[]
    else
      var m := MetadataAfter(vs[..|vs| - 1], mmsiList);
      var v := vs[|vs| - 1];
      if v.mmsi in mmsiList then m[v.mmsi := MetadataOf(v)] else m
  }

  /** For one MMSI `k`: it is a key of the dictionary built from `vs` exactly
      when it is in `mmsiList` and some vessel carries it, and the value under
      it is the metadata of the LAST vessel carrying it. */
  lemma {:induction false} MetadataLastWins(vs: seq<VesselInfo>, mmsiList: seq<Option<int>>, k: Option<int>)
    ensures k in MetadataAfter(vs, mmsiList) <==> k in mmsiList && LastIndexOf(vs, k) >= 0
    ensures k in MetadataAfter(vs, mmsiList) ==>
      LastIndexOf(vs, k) >= 0 && MetadataAfter(vs, mmsiList)[k] == MetadataOf(vs[LastIndexOf(vs, k)])
    decreases |vs|
  {
    if |vs| > 0 {
      var n := |vs| - 1;
      var init := vs[..n];
      var m := MetadataAfter(init, mmsiList);
      assert MetadataAfter(vs, mmsiList) == if vs[n].mmsi in mmsiList then m[vs[n].mmsi := MetadataOf(vs[n])] else m;
      if vs[n].mmsi == k {
        assert LastIndexOf(vs, k) == n;
        if k !in mmsiList {
          MetadataLastWins(init, mmsiList, k);
        }
      } else {
        assert LastIndexOf(vs, k) == LastIndexOf(init, k);
        MetadataLastWins(init, mmsiList, k);
        if LastIndexOf(init, k) >= 0 {
          assert vs[LastIndexOf(init, k)] == init[LastIndexOf(init, k)];
        }
      }
    }
  }

  /** A vessel carrying `k` sits at or before the last one that does. */
  lemma LastIndexAtLeast(vs: seq<VesselInfo>, k: Option<int>, i: nat)
    requires i < |vs| && vs[i].mmsi == k
    ensures LastIndexOf(vs, k) >= i
  {
  }

  /** The dictionary-building part of `fetch_vessel_metadata`. A failed fetch
      (`response == None`) yields the empty map. Otherwise an MMSI is a key
      exactly when it is in `mmsiList` and some vessel carries it, and its
      value comes from the LAST such vessel, later entries overwriting
      earlier ones. */
  method FetchVesselMetadata(response: Option<seq<VesselInfo>>, mmsiList: seq<Option<int>>)
    returns (m: MetadataMap)
    ensures response.None? ==> m == map[]
    ensures forall k :: k in m ==> k in mmsiList
    ensures response.Some? ==> forall k ::
      k in m <==> k in mmsiList && exists i :: 0 <= i < |response.value| && response.value[i].mmsi == k
    ensures response.Some? ==> forall k :: k in m ==>
      0 <= LastIndexOf(response.value, k) && m[k] == MetadataOf(response.value[LastIndexOf(response.value, k)])
  {
    m := map[];
    if response.None? {
      return;
    }
    var vs := response.value;
    var n := 0;
    while n < |vs|
      invariant 0 <= n <= |vs|
      invariant m == MetadataAfter(vs[..n], mmsiList)
    {
      var vessel := vs[n];
      assert vs[..n + 1][..n] == vs[..n];
      if vessel.mmsi in mmsiList {
        m := m[vessel.mmsi := MetadataOf(vessel)];
      }
      n := n + 1;
    }
    assert vs[..n] == vs;
    forall k
      ensures k in m <==> k in mmsiList && LastIndexOf(vs, k) >= 0
      ensures k in m ==> LastIndexOf(vs, k) >= 0 && m[k] == MetadataOf(vs[LastIndexOf(vs, k)])
    {
      MetadataLastWins(vs, mmsiList, k);
    }
    forall k, i | 0 <= i < |vs| && vs[i].mmsi == k
      ensures LastIndexOf(vs, k) >= 0
    {
      LastIndexAtLeast(vs, k, i);
    }
  }

  // ---------------------------------------------------------------------
  // Rows, batches and export
  // ---------------------------------------------------------------------

  /** `vessel_metadata.get(mmsi, {})` followed by `meta.get(field)`: each
      metadata field read from a feature's entry, `None` without one. */
  function MetaName(md: MetadataMap, k: Option<int>): Option<string> {
    if k in md then Some(md[k].name) else None
  }

  function MetaShipType(md: MetadataMap, k: Option<int>): Option<int> {
    if k in md then md[k].shipType else None
  }

  function MetaDestination(md: MetadataMap, k: Option<int>): Option<string> {
    if k in md then Some(md[k].destination) else None
  }

  function MetaEta(md: MetadataMap, k: Option<int>): Option<int> {
    if k in md then md[k].eta else None
  }

  function MetaDraught(md: MetadataMap, k: Option<int>): Option<int> {
    if k in md then md[k].draught else None
  }

  /** The database row for one feature. */
  function RowOf(f: Feature, md: MetadataMap, timestamp: string): PositionRow
    requires HasPosition(f)
  {
    var p := f.properties;
    PositionRow(timestamp, p.mmsi, MetaName(md, p.mmsi), f.coordinates[0], f.coordinates[1],
                p.sog, p.cog, p.heading, p.navStat, MetaShipType(md, p.mmsi),
                MetaDestination(md, p.mmsi), MetaEta(md, p.mmsi), MetaDraught(md, p.mmsi), p.posAcc)
  }

  /** The row-building loop of `save_to_database`: one row per feature, in
      order, longitude from `coordinates[0]` and latitude from
      `coordinates[1]`, metadata fields present exactly when the feature's
      MMSI has metadata. */
  method BuildRows(vessels: seq<Feature>, md: MetadataMap, timestamp: string)
    returns (rows: seq<PositionRow>)
    requires forall i :: 0 <= i < |vessels| ==> |vessels[i].coordinates| >= 2
    ensures |rows| == |vessels|
    ensures forall i :: 0 <= i < |vessels| ==>
      && rows[i].timestamp == timestamp
      && rows[i].mmsi == vessels[i].properties.mmsi
      && rows[i].longitude == vessels[i].coordinates[0]
      && rows[i].latitude == vessels[i].coordinates[1]
      && rows[i].sog == vessels[i].properties.sog
      && rows[i].cog == vessels[i].properties.cog
      && rows[i].heading == vessels[i].properties.heading
      && rows[i].navStat == vessels[i].properties.navStat
      && rows[i].posAcc == vessels[i].properties.posAcc
    ensures forall i :: 0 <= i < |vessels| ==>
      (rows[i].name.Some? <==> vessels[i].properties.mmsi in md)
    ensures forall i :: 0 <= i < |vessels| && vessels[i].properties.mmsi in md ==>
      var meta := md[vessels[i].properties.mmsi];
      && rows[i].name == Some(meta.name)
      && rows[i].destination == Some(meta.destination)
      && rows[i].shipType == meta.shipType
      && rows[i].eta == meta.eta
      && rows[i].draught == meta.draught
    ensures forall i :: 0 <= i < |vessels| && vessels[i].properties.mmsi !in md ==>
      && rows[i].name.None? && rows[i].destination.None? && rows[i].shipType.None?
      && rows[i].eta.None? && rows[i].draught.None?
  {
    rows := [];
    var i := 0;
    while i < |vessels|
      invariant 0 <= i <= |vessels|
      invariant |rows| == i
      invariant forall j :: 0 <= j < i ==> rows[j] == RowOf(vessels[j], md, timestamp)
    {
      rows := rows + [RowOf(vessels[i], md, timestamp)];
      i := i + 1;
    }
  }

  /** `save_to_database` on its success path: with no database client nothing
      is sent; otherwise every feature's row is inserted, in order, in batches
      of at most 1000 rows, and the summary records the number of features. */
  method SaveToDatabase(clientAvailable: bool, vessels: seq<Feature>, md: MetadataMap,
                        timestamp: string, collectionTimeMs: int)
    returns (out: SaveOutcome)
    requires forall i :: 0 <= i < |vessels| ==> |vessels[i].coordinates| >= 2
    ensures out.Skipped? <==> !clientAvailable
    ensures out.Saved? ==>
      var rows := Seqs.Flatten(out.batches);
      && |rows| == |vessels|
      && (forall i :: 0 <= i < |vessels| ==> rows[i] == RowOf(vessels[i], md, timestamp))
      && (forall b :: b in out.batches ==> 0 < |b| <= 1000)
      && (forall k :: 0 <= k < |out.batches| - 1 ==> |out.batches[k]| == 1000)
      && out.summary == CollectionSummary(timestamp, |vessels|, collectionTimeMs)
  {
    if !clientAvailable {
      return Skipped;
    }
    var rows := BuildRows(vessels, md, timestamp);
    assert forall i :: 0 <= i < |vessels| ==> rows[i] == RowOf(vessels[i], md, timestamp);
    var batches := Seqs.Batches(rows, InsertBatchSize);
    return Saved(batches, CollectionSummary(timestamp, |vessels|, collectionTimeMs));
  }

  /** The `latest.json` entry for one feature. */
  function EntryOf(f: Feature, md: MetadataMap): ExportEntry
    requires HasPosition(f)
  {
    var p := f.properties;
    ExportEntry(p.mmsi, MetaName(md, p.mmsi), f.coordinates[0], f.coordinates[1],
                p.sog, p.cog, p.heading, MetaShipType(md, p.mmsi), MetaDestination(md, p.mmsi))
  }

  /** The document built by `export_latest_json`: one entry per feature in
      input order, `vessel_count` equal to the number of entries, and `None`
      for name, ship type and destination when a feature has no metadata. */
  method ExportLatestJson(vessels: seq<Feature>, md: MetadataMap, timestamp: string)
    returns (out: LatestExport)
    requires forall i :: 0 <= i < |vessels| ==> |vessels[i].coordinates| >= 2
    ensures out.timestamp == timestamp
    ensures out.vesselCount == |out.vessels| == |vessels|
    ensures forall i :: 0 <= i < |vessels| ==>
      && out.vessels[i].mmsi == vessels[i].properties.mmsi
      && out.vessels[i].lon == vessels[i].coordinates[0]
      && out.vessels[i].lat == vessels[i].coordinates[1]
      && out.vessels[i].sog == vessels[i].properties.sog
      && out.vessels[i].cog == vessels[i].properties.cog
      && out.vessels[i].heading == vessels[i].properties.heading
    ensures forall i :: 0 <= i < |vessels| && vessels[i].properties.mmsi !in md ==>
      out.vessels[i].name.None? && out.vessels[i].shipType.None? && out.vessels[i].destination.None?
    ensures forall i :: 0 <= i < |vessels| && vessels[i].properties.mmsi in md ==>
      var meta := md[vessels[i].properties.mmsi];
      && out.vessels[i].name == Some(meta.name)
      && out.vessels[i].shipType == meta.shipType
      && out.vessels[i].destination == Some(meta.destination)
  {
    var list := [];
    var i := 0;
    while i < |vessels|
      invariant 0 <= i <= |vessels|
      invariant |list| == i
      invariant forall j :: 0 <= j < i ==> list[j] == EntryOf(vessels[j], md)
    {
      list := list + [EntryOf(vessels[i], md)];
      i := i + 1;
    }
    out := LatestExport(timestamp, |list|, list);
  }

  /** The exported entry and the stored row of the same feature agree on
      every field they share. */
  lemma ExportMatchesRow(f: Feature, md: MetadataMap, timestamp: string)
    requires HasPosition(f)
    ensures var e, r := EntryOf(f, md), RowOf(f, md, timestamp);
      && e.mmsi == r.mmsi && e.name == r.name
      && e.lon == r.longitude && e.lat == r.latitude
      && e.sog == r.sog && e.cog == r.cog && e.heading == r.heading
      && e.shipType == r.shipType && e.destination == r.destination
  {
  }

  // ---------------------------------------------------------------------
  // The job as a whole
  // ---------------------------------------------------------------------

  /** Python truthiness of the decoded feed: a failed fetch (`None`) and an
      empty JSON object are falsy. */
  predicate FeedTruthy(data: Option<FeedPayload>) {
    data.Some? && (data.value.features.Some? || data.value.otherKeys != {})
  }

  /** `[f['properties']['mmsi'] for f in vessels]`: the MMSIs in feature
      order, or the KeyError of the first feature without one. */
  method MmsiList(vessels: seq<Feature>) returns (r: Result<seq<Option<int>>, FeedError>)
    ensures r.Err? <==> exists i :: 0 <= i < |vessels| && vessels[i].properties.mmsi.None?
    ensures r.Err? ==>
      && r.error.MissingMmsi?
      && r.error.index < |vessels|
      && vessels[r.error.index].properties.mmsi.None?
      && forall j :: 0 <= j < r.error.index ==> vessels[j].properties.mmsi.Some?
    ensures r.Ok? ==> |r.value| == |vessels|
    ensures r.Ok? ==> forall i :: 0 <= i < |vessels| ==> r.value[i] == vessels[i].properties.mmsi
  {
    var list := [];
    var i := 0;
    while i < |vessels|
      invariant 0 <= i <= |vessels|
      invariant |list| == i
      invariant forall j :: 0 <= j < i ==> vessels[j].properties.mmsi.Some? && list[j] == vessels[j].properties.mmsi
    {
      if vessels[i].properties.mmsi.None? {
        return Err(MissingMmsi(i));
      }
      list := list + [vessels[i].properties.mmsi];
      i := i + 1;
    }
    return Ok(list);
  }

  /** What one run of the job produces: nothing when the feed could not be
      fetched, otherwise what `save_to_database` sends, the metadata
      dictionary both steps read, and the exported document. */
  datatype RunOutcome =
    | FetchFailed
    | Collected(saved: SaveOutcome, metadata: MetadataMap, exported: LatestExport)

  /** The features `filter_vessels` returns for a feed it accepts. */
  function RegionFeatures(data: Option<FeedPayload>): (fs: seq<Feature>)
    ensures forall k :: 0 <= k < |fs| ==> InRegion(fs[k])
  {
    if data.None? || data.value.features.None? then [] else Seqs.Filter(data.value.features.value, InRegion)
  }

  /** The feed has a `features` array holding a feature without two
      coordinates, on which `filter_vessels` raises IndexError. */
  predicate HasShortFeature(data: Option<FeedPayload>) {
    && data.Some? && data.value.features.Some?
    && exists i :: 0 <= i < |data.value.features.value| && !HasPosition(data.value.features.value[i])
  }

  /** `main` of the collector, the feed and the metadata response given as
      parameters. A falsy feed stops the run; otherwise the in-box features
      are stored and exported, the stored summary and the exported document
      counting the same vessels, each exported vessel inside the box. Rows
      and entries read their metadata from the dictionary built from the
      response for the MMSIs of those features. */
  method CollectRun(data: Option<FeedPayload>, response: Option<seq<VesselInfo>>, clientAvailable: bool,
                    timestamp: string, collectionTimeMs: int)
    returns (r: Result<RunOutcome, FeedError>)
    ensures !FeedTruthy(data) ==> r == Ok(FetchFailed)
    ensures r.Ok? && r.value.Collected? ==>
      && FeedTruthy(data)
      && (r.value.saved.Skipped? <==> !clientAvailable)
      && (r.value.saved.Saved? ==> r.value.saved.summary.vesselCount == r.value.exported.vesselCount)
      && r.value.exported.vesselCount == |r.value.exported.vessels|
      && forall k :: 0 <= k < |r.value.exported.vessels| ==>
           && r.value.exported.vessels[k].mmsi.Some?
           && MinLon <= r.value.exported.vessels[k].lon <= MaxLon
           && MinLat <= r.value.exported.vessels[k].lat <= MaxLat
    ensures r.Ok? && r.value.Collected? ==> r.value.exported.vesselCount == |RegionFeatures(data)|
    ensures r.Err? && r.error.MalformedCoordinates? ==> data.Some? && data.value.features.Some?
    ensures FeedTruthy(data) && r.Ok? ==> r.value.Collected?
    ensures FeedTruthy(data) ==>
      (r.Err? <==> HasShortFeature(data) ||
                   exists k :: 0 <= k < |RegionFeatures(data)| && RegionFeatures(data)[k].properties.mmsi.None?)
    ensures r.Err? && HasShortFeature(data) ==>
      var fs := data.value.features.value;
      && r.error.MalformedCoordinates?
      && r.error.index < |fs|
      && !HasPosition(fs[r.error.index])
      && forall j :: 0 <= j < r.error.index ==> HasPosition(fs[j])
    ensures r.Err? && !HasShortFeature(data) ==>
      var kept := RegionFeatures(data);
      && r.error.MissingMmsi?
      && r.error.index < |kept|
      && kept[r.error.index].properties.mmsi.None?
      && forall j :: 0 <= j < r.error.index ==> kept[j].properties.mmsi.Some?
    ensures r.Ok? && r.value.Collected? ==>
      var kept := RegionFeatures(data);
      var md := r.value.metadata;
      && |r.value.exported.vessels| == |kept|
      && (forall k :: 0 <= k < |kept| ==> r.value.exported.vessels[k] == EntryOf(kept[k], md))
      && (r.value.saved.Saved? ==>
            && |Seqs.Flatten(r.value.saved.batches)| == |kept|
            && forall k :: 0 <= k < |kept| ==> Seqs.Flatten(r.value.saved.batches)[k] == RowOf(kept[k], md, timestamp))
      && (response.None? ==> md == map[])
      && (response.Some? ==> forall m :: m in md <==>
            && (exists k :: 0 <= k < |kept| && kept[k].properties.mmsi == m)
            && (exists i :: 0 <= i < |response.value| && response.value[i].mmsi == m))
      && (response.Some? ==> forall m :: m in md ==>
            && 0 <= LastIndexOf(response.value, m)
            && md[m] == MetadataOf(response.value[LastIndexOf(response.value, m)]))
    ensures r.Ok? && r.value.Collected? && r.value.saved.Saved? ==>
      && (forall b :: b in r.value.saved.batches ==> 0 < |b| <= 1000)
      && (forall k :: 0 <= k < |r.value.saved.batches| - 1 ==> |r.value.saved.batches[k]| == 1000)
      && r.value.saved.summary == CollectionSummary(timestamp, |RegionFeatures(data)|, collectionTimeMs)
    ensures r.Ok? && r.value.Collected? ==> r.value.exported.timestamp == timestamp
  {
    if !FeedTruthy(data) {
      return Ok(FetchFailed);
    }
    var filtered := FilterVessels(data);
    if filtered.Err? {
      return Err(filtered.error);
    }
    var vessels := filtered.value;
    assert vessels == RegionFeatures(data);
    var mmsis := MmsiList(vessels);
    if mmsis.Err? {
      assert vessels[mmsis.error.index].properties.mmsi.None?;
      return Err(mmsis.error);
    }
    var md := FetchVesselMetadata(response, mmsis.value);
    var saved := SaveToDatabase(clientAvailable, vessels, md, timestamp, collectionTimeMs);
    var exported := ExportLatestJson(vessels, md, timestamp);
    assert forall m :: m in mmsis.value <==> exists k :: 0 <= k < |vessels| && vessels[k].properties.mmsi == m;
    return Ok(Collected(saved, md, exported));
  }
}
