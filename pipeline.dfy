/** The assembler (`run`): the whole enrichment pass, collected into one feature collection. */
module Pipeline {
  import opened Types
  import opened SettlementCodes
  import opened StationSource
  import opened Geometries

  datatype FeatureCollection = FeatureCollection(features: seq<Feature>)

  /**
   * The features of the whole run over `workbook`: the walk over its entries in which each data
   * row's record is built and its feature fetched before the next row is read.
   */
  function FeaturesOf(workbook: seq<Sheet>, search: string -> SearchReply, mapData: LookupKey -> MapData): Result<seq<Feature>> {
    Walk(workbook, Fetched(Builder(search), mapData))
  }

  /**
   * `run()` with the workbook and both remote services given. The cache starts empty, as it
   * does when the process starts, and the fetcher pulls the records from a fresh record source.
   * The run yields a collection exactly when every record is produced and every map-data request
   * can be made; the collection then has one feature per record, in record order, with that
   * record's properties and the geometry of its answer. A failure is that of the first entry
   * whose record cannot be built or whose request cannot be made, in the order the two stages
   * alternate; with all records built, it is the first unreachable request.
   */
  method Run(workbook: seq<Sheet>, search: string -> SearchReply, mapData: LookupKey -> MapData)
    returns (r: Result<FeatureCollection>)
    ensures r.Ok? <==> FeaturesOf(workbook, search, mapData).Ok?
    ensures r.Ok? ==> r.value.features == FeaturesOf(workbook, search, mapData).value
    ensures r.Err? ==> r.error == FeaturesOf(workbook, search, mapData).error
    ensures var stations := StationsOf(workbook, search);
      r.Ok? <==> stations.Ok? && forall k :: 0 <= k < |stations.value| ==> !mapData(stations.value[k].key).MapUnreachable?
    ensures var stations := StationsOf(workbook, search);
      r.Ok? ==>
        |r.value.features| == |stations.value| &&
        forall k :: 0 <= k < |stations.value| ==>
          r.value.features[k] == Feature(GeometryOf(mapData(stations.value[k].key)), stations.value[k].properties)
    ensures var stations := StationsOf(workbook, search);
      stations.Ok? && r.Err? ==>
        exists k :: FirstUnreachable(stations.value, mapData, k) && r.error == MapDataFailed(stations.value[k].key)
    ensures r.Err? ==> exists k :: FirstStop(Entries(workbook, 0, 0), Builder(search), mapData, k, r.error)
  {
    var resolver := new Resolver();
    var stream := new StationStream(workbook);
    var features := FetchGeometries(stream, resolver, search, mapData);
    FetchedRecords(Entries(workbook, 0, 0), Builder(search), mapData);
    if features.Err? {
      FetchedFailsAtFirstStop(Entries(workbook, 0, 0), Builder(search), mapData);
      return Err(features.error);
    }
    r := Ok(FeatureCollection(features.value));
  }

  /**
   * A record whose request cannot be made, followed by a row whose settlement has no code: the
   * run fails at the request, since the second row is read only after the first record's
   * feature, although the record source alone fails at the second row.
   */
  lemma InterleavedFailureExample(header: Row, first: Row, second: Row,
                                  search: string -> SearchReply, mapData: LookupKey -> MapData)
    requires |first| == 20 && first[0] == Text("1") && first[1] == Text("Pest") && first[2] == Text("Szeged")
    requires first[3] == Number(1)
    requires |second| == 20 && second[0] == Text("2") && second[2] == Text("Nowhere") && second[3] == Number(2)
    requires search("Szeged") == Listing([Candidate(Some("Szeged"), Some("123"))])
    requires search("Nowhere") == Listing([])
    requires mapData(LookupKey("1", "123", "01")) == MapUnreachable
    ensures FeaturesOf([[header, first, second]], search, mapData) == Err(MapDataFailed(LookupKey("1", "123", "01")))
    ensures StationsOf([[header, first, second]], search) == Err(NoSettlementCode("Nowhere"))
  {
    var build := Builder(search);
    var entries := [DataRow(0, 1, first), DataRow(0, 2, second)];
    TwoRowEntries(header, first, second);
    ExampleRecord(first, search);
    UnknownSettlementRow(second, search);
    ProcessFetched(entries[0], build, mapData);
    FailsAtFirst(entries, Fetched(build, mapData), 0);
    FailsAtFirst(entries, build, 1);
  }

  /** A sheet with a header and two rows whose first cells are filled has those two rows as its entries. */
  lemma TwoRowEntries(header: Row, first: Row, second: Row)
    requires |first| > 0 && first[0] != Empty && |second| > 0 && second[0] != Empty
    ensures Entries([[header, first, second]], 0, 0) == [DataRow(0, 1, first), DataRow(0, 2, second)]
  {
    var workbook := [[header, first, second]];
    assert Entries(workbook, 0, 3) == Entries(workbook, 1, 0) == [];
    assert Entries(workbook, 0, 2) == [DataRow(0, 2, second)] + Entries(workbook, 0, 3);
    assert Entries(workbook, 0, 1) == [DataRow(0, 1, first)] + Entries(workbook, 0, 2);
  }

  /** The second row of `InterleavedFailureExample` on its own: its settlement has no code. */
  lemma UnknownSettlementRow(second: Row, search: string -> SearchReply)
    requires |second| == 20 && second[0] == Text("2") && second[2] == Text("Nowhere") && second[3] == Number(2)
    requires search("Nowhere") == Listing([])
    ensures BuildStation(0, 2, second, search) == Err(NoSettlementCode("Nowhere"))
  {
    assert Lookup("Nowhere", search("Nowhere")) == Err(NoSettlementCode("Nowhere"));
  }

  /** When entry `k` is the first that gives no record, the records fail with its error. */
  lemma FailsAtFirst<T>(entries: seq<Entry>, build: (nat, nat, Row) -> Result<T>, k: nat)
    requires FirstFailure(entries, build, k)
    ensures Records(entries, build) == Err(Process(entries[k], build).error)
  {
    RecordsSucceed(entries, build);
    RecordsFailAtFirstError(entries, build);
    var i :| FirstFailure(entries, build, i) && Process(entries[i], build) == Err(Records(entries, build).error);
    assert !(i < k) && !(k < i);
  }
}
