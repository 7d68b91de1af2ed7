# Polling-station geometry scraper — a Dafny model of its enrichment pipeline

The scraper reads the 2019 European Parliament election results workbook, which has one
worksheet per county. For every polling station it turns the row into a record. A record is a
lookup key plus a property dictionary of the row's cells. The key is made of the station number,
the settlement code and the county code. For each record the scraper asks the election office's
map service for the station's boundary polygon. It prints a GeoJSON feature collection with one
feature per station.

The model covers the four stages of `scraper.py`:

* `SettlementCodes` models the settlement-code resolver `get_settlement_code` and its
  process-wide cache `SETTLEMENT_CODE_CACHE`.
  - The resolver is a class. Its `cache` field holds that map.
  - A second field, `requests`, logs the names sent to the search service.
  - `Resolve` hits or misses the cache exactly as the source does.
  - The answer is chosen by the anchored pattern `^name(?: .+)?$`, which `Matches` models
    character by character. The first matching candidate wins.
* `StationSource` models the record source `polling_stations` and the `WorksheetColumns`
  enumeration.
  - The specification is a pure function, `StationsOf`. `Entries` lists the workbook's entries
    in walk order, and `BuildStation` builds one record per data row.
  - The generator object that `polling_stations()` returns is the class `StationStream`. It
    holds the position the generator is suspended at.
  - `StationStream.Next` is one pull. It runs the loops from that position to the next
    `yield`, the next raised error, or the end of the workbook.
  - Each pull's outcome is the outcome of the first entry still pending (`PullOf`). Each pull's
    effect on the resolver is that entry's lookup (`PullCache`, `PullLog`).
  - `PollingStations` drains a fresh generator and is proved to return `StationsOf`.
  - The resolver's invariant `Coherent` says that every cached code is what a fresh lookup
    would return. That invariant is why the memoised loop agrees with the pure specification.
* `Geometries` models the geometry fetcher `fetch_polling_station_geometries`.
  - It pulls from the record source and makes one map-data request per record, right after that
    record is yielded and before the next row is read.
  - It yields one feature per record.
  - With all the records built, the run fails exactly at the first record whose request cannot
    be made. That failure can come before the record source itself would fail.
* `Pipeline` models the assembler `run`. It proves that the interleaved run is
  `FeaturesOf`, which is the walk in which every data row's record is built and then fetched.

`Formatting` models `str(int)` and the county-code format `f"{n:02}"`. `Types` holds the shared
values and `Collect`, which gathers results until the first error.

The remote services are parameters of the model:
* `search: string -> SearchReply` stands for the settlement search;
* `mapData: LookupKey -> MapData` stands for the map-data request.

So the model assumes that both services give the same answer to the same question during a run.

The stated policy is that a failed geometry gives a null geometry while every other failure
ends the run. The model follows the code, and the code departs from that policy in two places:
* The map-data request `session.get` (scraper.py:162) sits outside the `try` (scraper.py:163).
  A request that cannot be made therefore ends the whole run instead of giving a null
  geometry. In the model this is `MapUnreachable`, which leads to `MapDataFailed`. It is listed
  under "## Findings".
* The settlement search request (scraper.py:98) sits outside its `try` (scraper.py:99).
  - A transport failure escapes as it is, without the wrapping message.
  - It is fatal either way, and nothing is cached.
  - The model keeps it apart as `SearchFailed`. Error messages are not modelled, so nothing else
    separates the two paths.

## Model

| member | source | states |
|---|---|---|
| Formatting.NatToDecimal | scraper.py:129 | the decimal form of a natural number is non-empty and all digits; it has no leading zero unless it is "0", and it is "0" exactly for zero |
| Formatting.NatToDecimalValue | scraper.py:129 | the decimal form reads back as the number |
| Formatting.IntToDecimal | scraper.py:129 | `str()` of an integer is non-empty and starts with a minus sign exactly for a negative number; every later character is a digit |
| Formatting.IntToDecimalRoundTrip | scraper.py:129 | `str(int(...))` has a minus sign exactly for negative numbers, has no leading zeros, and reads back as the integer |
| Formatting.ZeroPadLayout | scraper.py:130 | zero padding to a width keeps the text as it is at the end and puts only zeros before it, up to the width and no further |
| Formatting.CountyCode | scraper.py:130 | `f"{county_index + 1:02}"` is all digits and reads back as the sheet number counted from 1; it has at least two characters, has a leading zero below 10, and from 10 on is the plain decimal form |
| Formatting.CountyCodeExamples | scraper.py:130 | sheets 0, 2, 11 and 19 get "01", "03", "12" and "20" |
| SettlementCodes.MatchesSingleLine | scraper.py:103-105 | for a display name without line breaks, the pattern matches exactly two forms: the name itself, or the name followed by a space and a non-empty suffix |
| SettlementCodes.MatchIsAnchored | scraper.py:103-105 | a matching display name starts with the name; after it comes nothing, a space, or only a final line break |
| SettlementCodes.MatchExamples | scraper.py:103-105 | "Szeged" matches "Szeged", "Szeged X" and "Szeged\n"; it does not match "Szegedinum", "Nagy Szeged" or "Szeged " |
| SettlementCodes.SelectCodeIsFirstMatch | scraper.py:100-106 | `next(...)` gives a code exactly when it is the code of the first candidate whose display name matches, with every earlier candidate readable and not matching |
| SettlementCodes.SelectCodeSkipsNonMatching | scraper.py:100-106 | the code of the first matching candidate is the one chosen |
| SettlementCodes.FirstMatchFound | scraper.py:100-106 | `next(...)` gives a code exactly when some candidate is the first match and carries a code |
| SettlementCodes.Lookup | scraper.py:98-115 | a code comes out exactly when the answer is a list whose first matching candidate carries one, and it is that candidate's code; otherwise the error names the settlement: `SearchFailed` when the request failed, `NoSettlementCode` in every other case |
| SettlementCodes.Resolver.constructor | scraper.py:85 | the cache starts empty, and no search has been made |
| SettlementCodes.Resolver.Resolve | scraper.py:88-115 | a hit returns the cached code, makes no request and keeps the cache; a miss makes one request, for the name, and returns the lookup's outcome; it adds exactly name to code on success and keeps the cache on failure; a coherent cache stays coherent, and the answer is then the fresh lookup's; a search happens only for a name not cached before; a log of distinct, cached names stays distinct, and stays cached after a success |
| StationSource.ColumnsLayout | scraper.py:23-46 | the declared members are 19 columns, the k-th at position k + 1, with pairwise distinct names |
| StationSource.NameDeterminesColumn | scraper.py:23-46 | two columns with the same name are the same column |
| StationSource.PropertiesByColumn | scraper.py:141-143 | the property dictionary has 19 entries in declared order; each is the column's name with the cell at its position |
| StationSource.BuildStationMeaning | scraper.py:125-144 | a built record implies five things: the row reaches column 19; the station number is exactly `str(int(...))` of its cell, which reads back as that integer with no leading zeros after an optional sign; the county code is exactly `f"{sheet + 1:02}"`: two digits below 10, the plain decimal form from 10 on, reading back as the sheet number counted from 1; the settlement code is the first matching search candidate's; the properties are the row's cells by column |
| StationSource.BuildStationFailures | scraper.py:126-144 | a row gives no record in exactly these cases, checked in the order of the loop body: too short for the station number; station number refused; settlement cell empty; the lookup's own error; too short for the property dictionary |
| StationSource.StationForRow | scraper.py:126-144 | building one kept row through the resolver gives what the pure `BuildStation` gives; the cache and the request log end up exactly as the row's lookup leaves them, or unchanged when the row fails before the lookup; the cache stays coherent and only grows |
| StationSource.EntriesMembers | scraper.py:121-127 | an entry appears in the walk from a given place exactly when the workbook there has a sheet without any row, a row after the header that has no cells, or a row after the header whose first cell is not empty |
| StationSource.KeptRows | scraper.py:121-127 | a data row appears among the entries exactly when it comes after its sheet's header and its first cell is not empty |
| StationSource.EntriesOrdered | scraper.py:121-125 | the entries come sheet by sheet and, within a sheet, row by row, with nothing repeated |
| StationSource.RecordsSucceed | scraper.py:118-144 | the records exist exactly when every entry gives one; there is then one record per entry, in the entries' order |
| StationSource.RecordsFailAtFirstError | scraper.py:118-144 | when the walk fails, its error is the error of the first entry that gives no record |
| StationSource.ResumeCollects | scraper.py:118-144 | going on from any point of the walk with the records gathered so far gives the records of the whole walk |
| StationSource.SkipToEntry | scraper.py:121-127 | passing over unpacked headers, sheet ends and rows whose first cell is empty loses no entry, and stops at the end of the workbook, at a sheet without rows, or at a row that leaves an entry |
| StationSource.StationStream.constructor | scraper.py:118-119 | a generator that has not started still meets every entry of the workbook |
| StationSource.StationStream.Advance | scraper.py:121-127 | moving the suspended generator over what leaves no entry changes nothing it will still meet |
| StationSource.StationStream.Next | scraper.py:118-144 | one pull gives the outcome of the first pending entry, or the end; after a record the rest are still pending, and after an error or the end nothing is; the resolver ends up exactly as that entry's lookup leaves it, stays coherent, and searches only names not cached before |
| StationSource.StationStream.PullRow | scraper.py:125-144 | a pull at a row that has no cells or has a first cell gives that row's outcome, with the same state description as `Next` |
| StationSource.PollingStations | scraper.py:118-144 | draining the generator gives exactly `StationsOf`: the records in sheet and row order, or the first error, which ends the walk; the cache only grows and stays coherent; every search is for a name not cached before; a resolver with distinct, cached names searches no name twice |
| StationSource.SingleStationExample | scraper.py:118-144 | a one-sheet workbook with a header and one "Szeged" row gives the single record keyed ("1", "123", "01") |
| StationSource.ExampleRecord | scraper.py:125-144 | that row on its own becomes the record keyed ("1", "123", "01") |
| Geometries.LngLat | scraper.py:167 | one position per point, in order, each with the point's longitude and latitude |
| Geometries.PathOf | scraper.py:167 | reading a ring back gives one point per position, in order, with the same latitude and longitude |
| Geometries.LngLatRoundTrip | scraper.py:167 | swapping to longitude first loses nothing: reading the positions back gives the points |
| Geometries.GeometryOf | scraper.py:163-170 | the geometry is null exactly for a refused answer; an accepted answer's outline reads back as its point list |
| Geometries.FeatureOf | scraper.py:160-182 | the step fails exactly when the record's request cannot be made, with that record's key; otherwise the feature carries the record's properties, and its geometry is null exactly when the answer is refused |
| Geometries.ProcessFetched | scraper.py:156-182 | an entry's outcome in the fetcher is its record's error, or the outcome of fetching that record's feature |
| Geometries.FetchedRecords | scraper.py:154-182 | features exist exactly when the records do and every record's request can be made; there is then one feature per record, in order, with that record's properties and the geometry of its answer; with all records built, a failure is the first unreachable request |
| Geometries.FetchedFailsAtFirstStop | scraper.py:154-182 | a failed fetch stops at the first entry that either gives no record, with its error, or gives a record whose request cannot be made, with that record's key; every earlier entry built a record with a request that could be made |
| Geometries.FetchGeometries | scraper.py:154-182 | pulling records from the source and fetching each one before the next pull gives the fetched walk over the pending entries; the resolver stays coherent, only grows, and searches only names not cached before |
| Geometries.UnreachableRequestAborts | scraper.py:162-170 | one record whose request cannot be made leaves no features at all |
| Geometries.IsolatedFeatureOf | scraper.py:163-170 | with the failure policy as stated, the feature keeps the record's properties, and its geometry is null exactly when the answer holds no polygon, whether the request failed or was refused |
| Geometries.IsolatedFeaturesKeepEveryRecord | scraper.py:154-182 | with the failure policy as stated, features exist exactly when the records do, whatever the map service answers; there is one per record, with that record's properties, and a null geometry exactly where the answer holds no polygon |
| Pipeline.Run | scraper.py:185-194 | the result is `FeaturesOf`; a collection comes out exactly when every record is produced and every request can be made, and then has one feature per record, in order, with its properties and geometry; a failure is that of the first entry that gives no record or whose request cannot be made; with all records built, it is the first unreachable request |
| Pipeline.InterleavedFailureExample | scraper.py:154-194 | a record whose request cannot be made, followed by a row whose settlement has no code, gives the map-data failure, although the record source alone gives the settlement failure |
| Types.CollectSucceeds | scraper.py:189-191 | gathering the results succeeds exactly when each one is a value, and then gives those values in order |
| Types.CollectFailsAtFirstError | scraper.py:189-191 | a failed gathering gives the first error among the results, and every result before it is a value |
| Types.CollectErrorIsFinal | scraper.py:189-191 | once gathering has failed, results that come later do not change its error |

## Findings

| source | as written | input that shows it | evidently intended | confidence | as-written member | corrected member |
|---|---|---|---|---|---|---|
| scraper.py:162-170 | `session.get` is outside the `try`, so a map-data request that cannot be made raises out of the generator and ends the run | any workbook with at least one record whose map-data request fails at the transport level | every geometry failure gives a null geometry, and the run keeps every record | medium, not executed | Geometries.UnreachableRequestAborts | Geometries.IsolatedFeaturesKeepEveryRecord |

`Pipeline.Run` follows the code as written. The corrected step `Isolated` is modelled beside it
so that the intended policy and its outcome can be stated.

## Left out

- HTTP is not modelled: sessions, URLs, the query parameters (`API_*_PARAMS`) and the parameter names of the lookup key (scraper.py:49-83, 92-98, 155-162). The two services are function parameters, assumed to give the same answer to the same question during a run.
- Loading the workbook with openpyxl (scraper.py:119) is not modelled. A workbook is given as a sequence of sheets, each a sequence of rows of cells.
- Geometries.GeometryOf: the outline has one position per decoded point and omits the closing vertex that shapely's `Polygon` adds to an open ring (scraper.py:166-167); nor does it nest the ring inside `coordinates` as `mapping` does. Shapely's validity checks are folded into the reply: an answer the polygon constructor would refuse is `MapUnusable`. Decoding the JSON body and the `paths` string is folded in the same way.
- The event loop and `async`/`await` are not modelled. The generators are modelled as objects pulled one step at a time, in the order the source pulls them. Nothing else runs concurrently.
- Logging, including `get_polling_station_repr` (scraper.py:123, 147-151, 157-158, 171), is left out, since it only produces log text.
- Printing the collection (scraper.py:186) and the event loop (scraper.py:197-198) are left out.
- SettlementCodes.Matches: assumes that settlement names contain no regular-expression metacharacters. The source puts the name into the pattern unescaped; for such names the model matches the name literally.
- SettlementCodes.Candidate: a `telepulesKod` that is present but is not text is not modelled. The source would cache a number and send it as a request parameter, or cache null and fail later, at the map-data request.
- StationSource.StationNumber: text cells are accepted only as plain ASCII digits. Python's `int()` also accepts surrounding whitespace, a sign, underscores between digits and non-ASCII digits. Floating-point cells are not modelled, so a number cell is always an integer.
- StationSource.SettlementName: a number cell is turned into its decimal text for both the search and the cache key. The source would send the number as a request parameter and use the number itself as the cache key.
- Types.Failure: error messages and the request parameters they carry are reduced to the kind of failure and the name, line or key involved.
