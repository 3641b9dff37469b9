# AIS collector and boundary-crossing cleanup, modelled in Dafny

The model covers two batch jobs from a map of vessel positions in the Baltic Sea.

**The collector (`collect_ais.py`)** does four things:

- It keeps the AIS position features that lie inside an inclusive bounding box, reading coordinates as `[lon, lat]`. The box is 17.0–30.3 in longitude and 58.5–66.0 in latitude.
- It builds a per-MMSI metadata dictionary from the vessel-metadata response. Names and destinations are whitespace-stripped.
- It shapes every kept feature into a database row. The rows are inserted in batches of 1000, followed by a summary row.
- It exports a simplified `latest.json` document.

**The cleanup job (`cleanup_vessels.py`)** does the following:

- It loads the polygon and line features of a boundaries file. Each boundary's country comes from a fallback chain of properties.
- It finds, for every stored position, the first boundary that claims it. A polygon claims a point by containing it; a line claims a point by lying closer than 0.2 degrees.
- It groups the positions by MMSI.
- It splits the vessels into a keep set and a delete set. A vessel is kept if it has fewer than two positions or visited at least two countries.
- It issues deletions for the delete set in batches of 100 MMSIs.

Modules:

- `Wrappers` (`wrappers.dfy`): `Option` and `Result`. A missing JSON key is `None`; a Python exception is an `Err`.
- `Seqs` (`seqs.dfy`):
  - `Filter` is the reference definition of an order-preserving selection. `FilterIndices` names the positions it takes.
  - `Flatten` and `Batches` model the slicing loop over `range(0, len(xs), size)`.
  - `SetToSeq` models `list(a_set)`.
- `Text` (`text.dfy`): Python's `str.isspace` and `str.strip()`.
- `CollectAis` (`collect.dfy`): the collector.
- `CleanupVessels` (`cleanup.dfy`): the cleanup job. Shapely's `contains` and `distance` are the two function values of a `Shapely<G>` record, where `G` is the geometry type. The model treats them as uninterpreted.

The Python collector does not skip a report that lacks an MMSI or usable coordinates: `coords[1]` raises IndexError (collect_ais.py:87), and `f['properties']['mmsi']` raises KeyError (collect_ais.py:214). The model follows the code: each of these is an `Err` carrying the index of the first offending feature. For IndexError the index counts all feed features. For KeyError it counts only the in-box features, because the MMSI list is read from the filtered list: an out-of-box feature without an MMSI raises nothing.

## Model

| member | source | states |
|---|---|---|
| CollectAis.FilterFeatures | collect_ais.py:84-94 | the first feature with fewer than two coordinates aborts the run with its index; otherwise the result is exactly the in-box features in feed order (`Seqs.Filter` with `InRegion`) |
| CollectAis.FilterVessels | collect_ais.py:79-94 | a missing payload or one without `features` gives the empty list; otherwise the run fails exactly when some feature has fewer than two coordinates, with MalformedCoordinates at the first such index, and succeeds with the in-box features in feed order; every kept feature has 17.0 <= coordinates[0] <= 30.3 and 58.5 <= coordinates[1] <= 66.0, bounds inclusive |
| Seqs.FilterTakesFromIndices | collect_ais.py:84-94 | the k-th kept element is the input element at the k-th selected position |
| Seqs.FilterIndicesIncrease | collect_ais.py:84-94 | the selected positions strictly increase, so the filter keeps feed order |
| Seqs.FilterIndicesCover | collect_ais.py:89-92 | a position is selected exactly when its element passes the test, so no in-box feature is dropped |
| Seqs.FilterCounts | collect_ais.py:89-92 | the filter invents nothing and keeps every occurrence of a kept value and none of a rejected one |
| Text.Strip | collect_ais.py:67-69 | the result is a contiguous slice of the input, everything cut off on either side is whitespace in Python's sense, and the result neither starts nor ends with whitespace |
| Text.StripKeepsStripped | collect_ais.py:67-69 | a string without leading or trailing whitespace is left unchanged |
| Text.StripIdempotent | collect_ais.py:67-69 | stripping twice equals stripping once |
| Text.StripAllSpace | collect_ais.py:67-69 | a string of whitespace only strips to the empty string |
| CollectAis.MetadataOf | collect_ais.py:66-72 | name and destination are `Text.Strip` of the vessel's own values, and an absent one becomes ""; ship type, eta and draught are carried over |
| CollectAis.MetadataLastWins | collect_ais.py:62-72 | an MMSI is a key exactly when it is in the list and some vessel carries it, and its value comes from the last such vessel |
| CollectAis.FetchVesselMetadata | collect_ais.py:52-77 | a failed fetch gives the empty map; keys are only MMSIs from the list that some vessel carries; each value is the metadata of the vessel at `LastIndexOf`, the last one carrying that MMSI |
| CollectAis.BuildRows | collect_ais.py:107-131 | one row per feature, in order, longitude from coordinates[0] and latitude from coordinates[1]; metadata fields come from the entry under the feature's MMSI and are all None without one |
| Seqs.Batches | collect_ais.py:134-138 | the batches concatenate back to the input, none is empty, none exceeds the size, all but the last are full, and there are none exactly when the input is empty |
| CollectAis.SaveToDatabase | collect_ais.py:96-145 | nothing is sent exactly when no client is available; otherwise the batches, concatenated, are the features' rows in order, at most 1000 per batch, and the summary's vessel_count is the number of features |
| CollectAis.ExportLatestJson | collect_ais.py:154-182 | one entry per feature in input order, vessel_count equal to the list length, lon/lat from coordinates[0]/[1], and None for name, ship_type and destination without metadata |
| CollectAis.ExportMatchesRow | collect_ais.py:116-131 | the exported entry and the stored row of a feature agree on every shared field |
| CollectAis.MmsiList | collect_ais.py:214 | the MMSIs in feature order, or a KeyError carrying the index of the first feature without one |
| CollectAis.CollectRun | collect_ais.py:189-229 | a falsy feed stops the run; a truthy one fails exactly when some feed feature has fewer than two coordinates (MalformedCoordinates at the first such feature) or some in-box feature has no MMSI (otherwise MissingMmsi at the first such in-box feature), and else yields `Collected`; there the rows are stored in batches of at most 1000, all full but the last, the summary is (the run's timestamp, the number of in-box features, the collection time), the export carries the run's timestamp, the stored summary and the exported document count the same in-box features, and every exported vessel has an MMSI and lies inside the box; the stored rows and the exported entries are those of the in-box features in order, read from one metadata dictionary whose keys are the MMSIs of those features that the response carries and whose values come from the last vessel carrying each |
| CleanupVessels.FirstTruthy | cleanup_vessels.py:51-54 | the value of the first key whose value is truthy, else the default |
| CleanupVessels.CountryOf | cleanup_vessels.py:51-54 | TERRITORY1, else Country, else NAME, with an empty or absent value falling through, else "Unknown"; never empty |
| CleanupVessels.LoadTerritorialWaters | cleanup_vessels.py:32-62 | no file gives no boundaries; otherwise exactly the Polygon, MultiPolygon, LineString and MultiLineString features, in file order, each with its country and type |
| CleanupVessels.GetVesselCountry | cleanup_vessels.py:64-87 | None exactly when no boundary claims the point; otherwise the country of the first claiming boundary in list order |
| CleanupVessels.SingleBoundaryRule | cleanup_vessels.py:71-85 | a polygon matches exactly by containment, a line exactly by distance strictly below 0.2, and any other type never matches |
| CleanupVessels.FirstMatchWins | cleanup_vessels.py:73-87 | looking up in `bs + more` gives the answer of `bs` when it has one and otherwise that of `more` |
| CleanupVessels.RowsOfSnoc | cleanup_vessels.py:119-123 | appending a position extends its own vessel's rows by it and leaves every other vessel's rows unchanged |
| CleanupVessels.RowsOfUnseen | cleanup_vessels.py:121-122 | a vessel that never appears has no rows |
| CleanupVessels.GroupByMmsi | cleanup_vessels.py:117-123 | one group per MMSI seen, holding exactly that vessel's rows in input order |
| CleanupVessels.GroupingPartitions | cleanup_vessels.py:117-123 | every position's MMSI has a group, and a position is selected by a group exactly when it is that position's own MMSI |
| CleanupVessels.CountriesFoundExactly | cleanup_vessels.py:138-142 | for any lookup, a country is collected exactly when it is non-empty and the lookup returns it for one of the rows |
| CleanupVessels.CountriesVisitedExactly | cleanup_vessels.py:138-142 | a country is collected exactly when it is non-empty and `GetVesselCountry` returns it for one of the vessel's positions |
| CleanupVessels.ClassifyGroups | cleanup_vessels.py:128-148 | every group's MMSI lands in exactly one of the two sets, the keep set exactly when the verdict holds |
| CleanupVessels.AnalyzeVesselMovements | cleanup_vessels.py:117-154 | keep and delete are disjoint and cover the MMSIs seen; fewer than two positions means keep; otherwise keep exactly when at least two distinct countries were visited |
| Seqs.SetToSeq | cleanup_vessels.py:173 | the list holds every element of the set exactly once |
| CleanupVessels.DeleteVessels | cleanup_vessels.py:156-181 | an empty set issues nothing; otherwise batches of 1 to 100 MMSIs, all but the last holding exactly 100, that together hold every MMSI of the set exactly once |
| CleanupVessels.Unpack | cleanup_vessels.py:220 | two-name unpacking succeeds on a pair, with its two sets, and fails on the empty set |
| CleanupVessels.AnalyzeAsWritten | cleanup_vessels.py:102-115 | a failed position query returns the lone empty set, which the caller cannot unpack |
| CleanupVessels.AnalyzeOrEmpty | cleanup_vessels.py:102-154 | a failed query keeps and deletes nothing; a successful one partitions the MMSIs seen and deletes exactly the vessels the verdict rejects |
| CleanupVessels.CleanupRun | cleanup_vessels.py:201-230 | without a client or boundaries nothing is deleted; a failed position query deletes nothing, because the run uses the corrected `AnalyzeOrEmpty` where the code as written raises ValueError (see Findings); otherwise the delete batches, of 100 except possibly the last, hold exactly the rejected vessels, each once |

## Left out

- The Supabase client, its queries, inserts and deletes: the model returns the data that would be handed to them (`SaveOutcome`, the batch lists) and takes query results as parameters.
- HTTP fetching and reading or writing JSON files are I/O. The decoded feed, the metadata response and the boundaries file are parameters, with `None` for a failed fetch or a missing file.
- `datetime.now`, the 24-hour threshold and the collection timing are clocks. Timestamps and `collection_time_ms` are parameters, and the time filter of the position query is not modelled.
- Shapely's `shape`, `contains` and `distance` are foreign code. The `shape()` conversion is folded into the geometry type `G`.
- Coordinates and distances are exact reals, not IEEE doubles.
- A JSON `null` for `name` or `destination` is not modelled: those fields are either a string or absent. In the source, `.strip()` on such a `null` raises AttributeError, which the `except Exception` at collect_ais.py:75-77 catches. The whole metadata dictionary then becomes `{}`, so one listed vessel with a null name wipes all metadata for the run, and the job goes on without crashing.
- A JSON `null` MMSI is treated as an absent one. As a result, the model's `CollectRun` fails with `MissingMmsi` on an in-box feature whose MMSI is `null`, where the source stores and exports that vessel with `mmsi` null. `CollectRun`'s promise that every exported vessel has an MMSI rests on this conflation. The cleanup model does express such stored rows: `PositionRecord.mmsi` is an `Option<int>`, and rows with a null MMSI form one more group under the `None` key, as at cleanup_vessels.py:120-123.
- A feature without a `geometry` key, on which collect_ais.py:86 raises KeyError, cannot be expressed: a `Feature` always has a coordinate list.
- A feed that decodes to something other than a JSON object is not modelled.
- CollectAis.SaveToDatabase: requires every feature to have two coordinates, which the filter's successful output guarantees. The source would raise on such a feature instead.
- CleanupVessels.CleanupRun: on a failed position query it returns no delete batches normally, where the source raises ValueError at cleanup_vessels.py:220. It runs the corrected `AnalyzeOrEmpty` of the Findings table, not `AnalyzeAsWritten`.
- CollectAis.ExportLatestJson: requires every feature to have two coordinates, for the same reason.
- Seqs.SetToSeq: the order of `list(a_set)` is Python's set iteration order. The model chooses it arbitrarily and states only that each element appears exactly once.
- CleanupVessels.DeleteVessels: the per-batch delete count is approximate, and the source only prints it. It is not modelled.
- `territory.py`, a lazily cached wrapper over the same Shapely lookup, is not part of this model.
- The browser-side position, speed-estimation and filter pipeline is not part of this model.
- Logging via `print` is not modelled.

## Findings

| source | as written | input that shows it | evidently intended | confidence | as-written member | corrected member |
|---|---|---|---|---|---|---|
| cleanup_vessels.py:113-115, 220 | the fetch-error path returns a single `set()`, and `main` unpacks the result into two names | the position query raises, so `vessels_to_keep, vessels_to_delete = set()` raises ValueError | return `set(), set()`, so that a failed query deletes nothing | high, not executed | CleanupVessels.AnalyzeAsWritten | CleanupVessels.AnalyzeOrEmpty |
