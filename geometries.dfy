/**
 * The geometry fetcher (`fetch_polling_station_geometries`): it pulls the records from the record
 * source one at a time and, for each, makes one map-data request and yields one feature, whose
 * geometry is the station's boundary or null when the answer could not be turned into a polygon.
 */
module Geometries {
  import opened Types
  import opened SettlementCodes
  import opened StationSource

  /** A latitude or a longitude. The fetcher only moves these values around. */
  type Coordinate

  /** One point object of the `paths` payload: its `lat` and `lng` fields. */
  datatype PathPoint = PathPoint(lat: Coordinate, lng: Coordinate)

  /** A vertex of the output geometry, longitude first as GeoJSON orders it. */
  datatype Position = Position(lng: Coordinate, lat: Coordinate)

  /** The outcome of one map-data request. */
  datatype MapData =
    | MapUnreachable                 // the request itself failed
    | MapUnusable                    // the body, its `polygon.paths` string or the polygon built from it was refused
    | Paths(points: seq<PathPoint>)  // the decoded point list, accepted as a polygon

  /** A GeoJSON feature: an optional polygon outline and the record's properties. */
  datatype Feature = Feature(geometry: Option<seq<Position>>, properties: Properties)

  /** `((point["lng"], point["lat"]) for point in paths)`. */
  function LngLat(points: seq<PathPoint>): (ring: seq<Position>)
    ensures |ring| == |points|
    ensures forall k :: 0 <= k < |points| ==> ring[k].lng == points[k].lng && ring[k].lat == points[k].lat
  {
    seq(|points|, k requires 0 <= k < |points| => Position(points[k].lng, points[k].lat))
  }

  /** The inverse reading: a GeoJSON ring back as `{lat, lng}` points. */
  function PathOf(ring: seq<Position>): (points: seq<PathPoint>)
    ensures |points| == |ring|
    ensures forall k :: 0 <= k < |ring| ==> points[k].lat == ring[k].lat && points[k].lng == ring[k].lng
  {
    seq(|ring|, k requires 0 <= k < |ring| => PathPoint(ring[k].lat, ring[k].lng))
  }

  /** Swapping to longitude-first loses nothing and keeps the vertex order. */
  lemma LngLatRoundTrip(points: seq<PathPoint>)
    ensures PathOf(LngLat(points)) == points
  {
  }

  /**
   * The `try`/`except` around the decoding: the polygon's vertices, or null for an answer that was
   * refused. An accepted answer's outline reads back as its point list.
   */
  function GeometryOf(reply: MapData): (geometry: Option<seq<Position>>)
    requires !reply.MapUnreachable?
    ensures geometry.None? <==> reply.MapUnusable?
    ensures geometry.Some? ==> PathOf(geometry.value) == reply.points
  {
    match reply
    case MapUnusable => None
    case Paths(points) =>
      LngLatRoundTrip(points);
      Some(LngLat(points))
  }

  /**
   * The body of the fetcher's loop for one record: the request, which ends the run when it cannot
   * be made, then the feature with the record's properties and the geometry of the answer.
   */
  function FeatureOf(station: Station, mapData: LookupKey -> MapData): (r: Result<Feature>)
    ensures r.Err? <==> mapData(station.key).MapUnreachable?
    ensures r.Err? ==> r.error == MapDataFailed(station.key)
    ensures r.Ok? ==> r.value.properties == station.properties && (r.value.geometry.None? <==> mapData(station.key).MapUnusable?)
  {
    var reply := mapData(station.key);
    if reply.MapUnreachable? then Err(MapDataFailed(station.key))
    else Ok(Feature(GeometryOf(reply), station.properties))
  }

  /** Building a data row's record with `build` and then fetching its feature: one step of the fetcher's loop. */
  function Fetched(build: (nat, nat, Row) -> Result<Station>, mapData: LookupKey -> MapData): (nat, nat, Row) -> Result<Feature> {
    (sheet: nat, line: nat, row: Row) =>
      match build(sheet, line, row)
      case Err(e) => Err(e)
      case Ok(station) => FeatureOf(station, mapData)
  }

  /** An entry's outcome in the fetcher: its record's error, or the outcome of fetching its record's feature. */
  lemma ProcessFetched(e: Entry, build: (nat, nat, Row) -> Result<Station>, mapData: LookupKey -> MapData)
    ensures Process(e, Fetched(build, mapData)) ==
      match Process(e, build)
      case Err(x) => Err(x)
      case Ok(station) => FeatureOf(station, mapData)
  {
  }

  /** Record `k` is the first of `stations` whose map-data request cannot be made. */
  predicate FirstUnreachable(stations: seq<Station>, mapData: LookupKey -> MapData, k: int) {
    0 <= k < |stations| && mapData(stations[k].key).MapUnreachable?
    && forall j :: 0 <= j < k ==> !mapData(stations[j].key).MapUnreachable?
  }

  /**
   * The features of `entries` exist exactly when their records do and every record's request can
   * be made; there is then one feature per record, in order, with the record's properties and the
   * geometry of its answer. With all records built, a failure is the first unreachable request.
   */
  lemma FetchedRecords(entries: seq<Entry>, build: (nat, nat, Row) -> Result<Station>, mapData: LookupKey -> MapData)
    ensures var stations, features := Records(entries, build), Records(entries, Fetched(build, mapData));
      features.Ok? <==> stations.Ok? && forall k :: 0 <= k < |stations.value| ==> !mapData(stations.value[k].key).MapUnreachable?
    ensures var stations, features := Records(entries, build), Records(entries, Fetched(build, mapData));
      features.Ok? ==>
        |features.value| == |stations.value| &&
        forall k :: 0 <= k < |stations.value| ==>
          features.value[k] == Feature(GeometryOf(mapData(stations.value[k].key)), stations.value[k].properties)
    ensures var stations, features := Records(entries, build), Records(entries, Fetched(build, mapData));
      stations.Ok? && features.Err? ==>
        exists k :: FirstUnreachable(stations.value, mapData, k) && features.error == MapDataFailed(stations.value[k].key)
  {
    var fetched := Fetched(build, mapData);
    RecordsSucceed(entries, build);
    RecordsSucceed(entries, fetched);
    forall k | 0 <= k < |entries| {
      ProcessFetched(entries[k], build, mapData);
    }
    var stations, features := Records(entries, build), Records(entries, fetched);
    if stations.Ok? && features.Err? {
      RecordsFailAtFirstError(entries, fetched);
      var k :| FirstFailure(entries, fetched, k) && Process(entries[k], fetched) == Err(features.error);
      assert FirstUnreachable(stations.value, mapData, k);
    }
  }

  /**
   * The run stops at entry `k` with `error`: every earlier entry gave a record whose request could
   * be made, and entry `k` either gave no record, failing with its error, or gave a record whose
   * request could not be made.
   */
  predicate FirstStop(entries: seq<Entry>, build: (nat, nat, Row) -> Result<Station>, mapData: LookupKey -> MapData,
                      k: int, error: Failure) {
    0 <= k < |entries|
    && (forall j :: 0 <= j < k ==> Process(entries[j], build).Ok? && !mapData(Process(entries[j], build).value.key).MapUnreachable?)
    && match Process(entries[k], build)
       case Err(e) => error == e
       case Ok(station) => mapData(station.key).MapUnreachable? && error == MapDataFailed(station.key)
  }

  /** When the fetcher fails, it fails at the first entry whose record cannot be built or whose request cannot be made. */
  lemma FetchedFailsAtFirstStop(entries: seq<Entry>, build: (nat, nat, Row) -> Result<Station>, mapData: LookupKey -> MapData)
    requires Records(entries, Fetched(build, mapData)).Err?
    ensures exists k :: FirstStop(entries, build, mapData, k, Records(entries, Fetched(build, mapData)).error)
  {
    var fetched := Fetched(build, mapData);
    RecordsFailAtFirstError(entries, fetched);
    var k :| FirstFailure(entries, fetched, k) && Process(entries[k], fetched) == Err(Records(entries, fetched).error);
    forall j | 0 <= j <= k {
      ProcessFetched(entries[j], build, mapData);
    }
    assert FirstStop(entries, build, mapData, k, Records(entries, fetched).error);
  }

  /**
   * The loop of `fetch_polling_station_geometries()`: `async for` over the record source `stream`,
   * one map-data request per record, with the remote map-data service given as `mapData`. Pulls
   * and requests alternate, so the run ends at the first record that cannot be built or whose
   * request cannot be made, whichever comes first.
   */
  method FetchGeometries(stream: StationStream, resolver: Resolver, search: string -> SearchReply, mapData: LookupKey -> MapData)
    returns (r: Result<seq<Feature>>)
    requires stream.Valid() && resolver.Coherent(search)
    modifies stream, resolver
    ensures resolver.Coherent(search)
    ensures r == Records(old(stream.Pending()), Fetched(Builder(search), mapData))
    ensures Extends(old(resolver.cache), resolver.cache)
    ensures SearchedAnew(old(resolver.cache), old(resolver.requests), resolver.requests)
    ensures old(resolver.Memoised()) ==> Distinct(resolver.requests) && (r.Ok? ==> resolver.Memoised())
  {
    var fetched := Fetched(Builder(search), mapData);
    ResumeCollects([], stream.Pending(), fetched, []);
    assert [] + stream.Pending() == stream.Pending();
    var features: seq<Feature> := [];
    while true
      invariant stream.Valid() && resolver.Coherent(search)
      invariant Resume(stream.Pending(), fetched, features) == Records(old(stream.Pending()), fetched)
      invariant Extends(old(resolver.cache), resolver.cache)
      invariant SearchedAnew(old(resolver.cache), old(resolver.requests), resolver.requests)
      invariant old(resolver.Memoised()) ==> resolver.Memoised()
      decreases |stream.Pending()|
    {
      ghost var pending, cache, requests := stream.Pending(), resolver.cache, resolver.requests;
      var pulled := stream.Next(resolver, search);
      SearchedAnewTwice(old(resolver.cache), cache, old(resolver.requests), requests, resolver.requests);
      match pulled {
        case Exhausted =>
          return Ok(features);
        case Raised(e) =>
          ProcessFetched(pending[0], Builder(search), mapData);
          return Err(e);
        case Yielded(station) =>
          ProcessFetched(pending[0], Builder(search), mapData);
          var reply := mapData(station.key);
          if reply.MapUnreachable? {
            return Err(MapDataFailed(station.key));
          }
          features := features + [Feature(GeometryOf(reply), station.properties)];
      }
    }
  }

  /**
   * A single record whose map-data request cannot be made leaves no features at all, however many
   * other records there are: the request at scraper.py:162 is outside the `try`.
   */
  lemma UnreachableRequestAborts(entries: seq<Entry>, build: (nat, nat, Row) -> Result<Station>,
                                 mapData: LookupKey -> MapData, k: nat)
    requires Records(entries, build).Ok? && k < |Records(entries, build).value|
    requires mapData(Records(entries, build).value[k].key).MapUnreachable?
    ensures Records(entries, Fetched(build, mapData)).Err?
  {
    FetchedRecords(entries, build, mapData);
  }

  /** The fetcher step as the failure policy intends it: a request that cannot be made gives a null geometry too. */
  function IsolatedFeatureOf(station: Station, mapData: LookupKey -> MapData): (f: Feature)
    ensures f.properties == station.properties
    ensures f.geometry.None? <==> !mapData(station.key).Paths?
  {
    var reply := mapData(station.key);
    Feature(if reply.MapUnreachable? then None else GeometryOf(reply), station.properties)
  }

  /** Building a data row's record and then fetching its feature with the intended failure policy. */
  function Isolated(build: (nat, nat, Row) -> Result<Station>, mapData: LookupKey -> MapData): (nat, nat, Row) -> Result<Feature> {
    (sheet: nat, line: nat, row: Row) =>
      match build(sheet, line, row)
      case Err(e) => Err(e)
      case Ok(station) => Ok(IsolatedFeatureOf(station, mapData))
  }

  /**
   * With the intended policy no geometry failure ends the run: whatever the map-data service
   * answers, there are features exactly when there are records, one per record, in order, each
   * with its record's properties, and null geometry exactly where the answer gave no polygon.
   */
  lemma IsolatedFeaturesKeepEveryRecord(entries: seq<Entry>, build: (nat, nat, Row) -> Result<Station>,
                                        mapData: LookupKey -> MapData)
    ensures var stations, features := Records(entries, build), Records(entries, Isolated(build, mapData));
      features.Ok? <==> stations.Ok?
    ensures var stations, features := Records(entries, build), Records(entries, Isolated(build, mapData));
      features.Ok? ==>
        |features.value| == |stations.value| &&
        forall k :: 0 <= k < |stations.value| ==>
          features.value[k].properties == stations.value[k].properties &&
          (features.value[k].geometry.None? <==> !mapData(stations.value[k].key).Paths?)
  {
    var isolated := Isolated(build, mapData);
    RecordsSucceed(entries, build);
    RecordsSucceed(entries, isolated);
    forall k | 0 <= k < |entries|
      ensures Process(entries[k], isolated) ==
        match Process(entries[k], build)
        case Err(x) => Err(x)
        case Ok(station) => Ok(IsolatedFeatureOf(station, mapData))
    {
    }
  }
}
