/** Values shared by the stages of the enrichment pipeline. */
module Types {

  datatype Option<T> = None | Some(value: T)

  /** One worksheet cell as the spreadsheet reader hands it over: empty (`None`), a number or text. */
  datatype Cell = Empty | Number(n: int) | Text(s: string)

  /** A worksheet row: its cells by position. */
  type Row = seq<Cell>

  /** A worksheet: its rows in order; the first one is the header. */
  type Sheet = seq<Row>

  /** The three routing parameters that address one polling station at the remote service. */
  datatype LookupKey = LookupKey(stationNo: string, settlementCode: string, countyCode: string)

  /** The property dictionary of one station: column name to cell, in insertion order. */
  type Properties = seq<(string, Cell)>

  /** A record produced by the record source: the lookup key and the property dictionary. */
  datatype Station = Station(key: LookupKey, properties: Properties)

  /** The errors that escape and end the whole run. */
  datatype Failure =
    | HeaderMissing(sheet: nat)              // `_, *rows = worksheet.values` on a sheet without rows
    | CellMissing(sheet: nat, line: nat)     // a row indexed past its end
    | BadStationNumber(sheet: nat, line: nat) // `int(...)` refused the station-number cell
    | BadSettlement(sheet: nat, line: nat)   // an empty settlement cell, which the HTTP client refuses as a parameter
    | SearchFailed(name: string)             // the settlement search request could not be made
    | NoSettlementCode(name: string)         // the search answer did not yield a code for the name
    | MapDataFailed(key: LookupKey)          // the map-data request could not be made

  datatype Result<T> = Ok(value: T) | Err(error: Failure)

  /** The values of `results` in order, or the first error among them. */
  function Collect<T>(results: seq<Result<T>>): Result<seq<T>>
    decreases |results|
  {
    if results == [] then Ok([])
    else match Collect(results[..|results| - 1])
      case Err(e) => Err(e)
      case Ok(values) =>
        match results[|results| - 1]
        case Err(e) => Err(e)
        case Ok(v) => Ok(values + [v])
  }

  lemma CollectStep<T>(results: seq<Result<T>>, last: Result<T>)
    ensures Collect(results + [last]) ==
      match Collect(results)
      case Err(e) => Err(e)
      case Ok(values) =>
        match last
        case Err(e) => Err(e)
        case Ok(v) => Ok(values + [v])
  {
    assert (results + [last])[..|results|] == results;
  }

  /** Collecting succeeds exactly when every result is a value, and then gives those values, one per result, in order. */
  lemma {:induction false} CollectSucceeds<T>(results: seq<Result<T>>)
    ensures Collect(results).Ok? <==> forall k :: 0 <= k < |results| ==> results[k].Ok?
    ensures Collect(results).Ok? ==>
      |Collect(results).value| == |results| &&
      forall k :: 0 <= k < |results| ==> Collect(results).value[k] == results[k].value
    decreases |results|
  {
    if results != [] {
      var init := results[..|results| - 1];
      CollectSucceeds(init);
      assert forall k :: 0 <= k < |init| ==> init[k] == results[k];
    }
  }

  /** A failed collection fails with the first error among the results. */
  lemma {:induction false} CollectFailsAtFirstError<T>(results: seq<Result<T>>)
    requires Collect(results).Err?
    ensures exists k :: (0 <= k < |results| && results[k] == Err(Collect(results).error) &&
      forall j :: 0 <= j < k ==> results[j].Ok?)
    decreases |results|
  {
    var init := results[..|results| - 1];
    assert forall k :: 0 <= k < |init| ==> init[k] == results[k];
    if Collect(init).Err? {
      CollectFailsAtFirstError(init);
    } else {
      CollectSucceeds(init);
    }
  }

  /** Once collection has failed, the results after that point change nothing. */
  lemma {:induction false} CollectErrorIsFinal<T>(results: seq<Result<T>>, more: seq<Result<T>>)
    requires results <= more && Collect(results).Err?
    ensures Collect(more) == Collect(results)
    decreases |more|
  {
    if |more| > |results| {
      var init := more[..|more| - 1];
      assert results <= init;
      CollectErrorIsFinal(results, init);
    } else {
      assert more == results;
    }
  }
}
