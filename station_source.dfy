/**
 * The record source (`polling_stations`): walks the workbook's sheets and rows, drops each
 * sheet's header row and the rows whose first cell is empty, and turns every other row into a
 * station record with its lookup key and property dictionary.
 */
module StationSource {
  import opened Types
  import opened Formatting
  import opened SettlementCodes

  /** The worksheet columns (`WorksheetColumns`), in declared order. */
  datatype Column =
    | County | Settlement | StationNo
    | NominalVoterCount | ActualVoterCount
    | BallotsWithoutStamp | BallotsStamped | BallotToActualVotersDiff
    | InvalidBallots | ValidBallots
    | BallotCountMszpParbeszed | BallotCountMkkp | BallotCountJobbik | BallotCountFidesz
    | BallotCountMomentum | BallotCountDk | BallotCountMiHazank | BallotCountMunkaspart | BallotCountLmp

  /** The members' names, by value: the name of the member at position p is entry p - 1. */
  const ColumnNames: seq<string> := [
    "COUNTY", "SETTLEMENT", "STATION_NO",
    "NOMINAL_VOTER_COUNT", "ACTUAL_VOTER_COUNT",
    "BALLOTS_WITHOUT_STAMP", "BALLOTS_STAMPED", "BALLOT_TO_ACTUAL_VOTERS_DIFF",
    "INVALID_BALLOTS", "VALID_BALLOTS",
    "BALLOT_COUNT_MSZP_PARBESZED", "BALLOT_COUNT_MKKP", "BALLOT_COUNT_JOBBIK", "BALLOT_COUNT_FIDESZ",
    "BALLOT_COUNT_MOMENTUM", "BALLOT_COUNT_DK", "BALLOT_COUNT_MI_HAZANK", "BALLOT_COUNT_MUNKASPART",
    "BALLOT_COUNT_LMP"]

  /** The member's name, which becomes the property's key. */
  function Name(c: Column): string {
    ColumnNames[Position(c) - 1]
  }

  /** The member's value: the column's position in a row. */
  function Position(c: Column): (p: nat)
    ensures 1 <= p <= 19
  {
    match c
    case County => 1
    case Settlement => 2
    case StationNo => 3
    case NominalVoterCount => 4
    case ActualVoterCount => 5
    case BallotsWithoutStamp => 6
    case BallotsStamped => 7
    case BallotToActualVotersDiff => 8
    case InvalidBallots => 9
    case ValidBallots => 10
    case BallotCountMszpParbeszed => 11
    case BallotCountMkkp => 12
    case BallotCountJobbik => 13
    case BallotCountFidesz => 14
    case BallotCountMomentum => 15
    case BallotCountDk => 16
    case BallotCountMiHazank => 17
    case BallotCountMunkaspart => 18
    case BallotCountLmp => 19
  }

  /** `[*WorksheetColumns]`: the members in declared order. */
  const DeclaredOrder: seq<Column> := [
    County, Settlement, StationNo,
    NominalVoterCount, ActualVoterCount,
    BallotsWithoutStamp, BallotsStamped, BallotToActualVotersDiff,
    InvalidBallots, ValidBallots,
    BallotCountMszpParbeszed, BallotCountMkkp, BallotCountJobbik, BallotCountFidesz,
    BallotCountMomentum, BallotCountDk, BallotCountMiHazank, BallotCountMunkaspart, BallotCountLmp]

  /** The declared order lists every column once, the k-th at position k + 1, all under distinct names. */
  lemma ColumnsLayout()
    ensures |DeclaredOrder| == 19
    ensures forall k :: 0 <= k < 19 ==> Position(DeclaredOrder[k]) == k + 1
    ensures forall j, k :: 0 <= j < k < 19 ==> Name(DeclaredOrder[j]) != Name(DeclaredOrder[k])
  {
    forall j, k | 0 <= j < k < 19 ensures Name(DeclaredOrder[j]) != Name(DeclaredOrder[k]) {
      if Name(DeclaredOrder[j]) == Name(DeclaredOrder[k]) {
        NameDeterminesColumn(DeclaredOrder[j], DeclaredOrder[k]);
      }
    }
  }

  /**
   * Which entry of `ColumnNames` a name is, told apart by its length and, where lengths agree, one
   * letter. It is not part of the scraper: it exists only so that the lemmas below can show the
   * column names pairwise distinct, by giving each name back its position.
   */
  function NameIndex(s: string): int {
    match |s|
    case 6 => 0
    case 10 => if s[1] == 'E' then 1 else 2
    case 13 => 9
    case 15 => if s[0] == 'I' then 8 else if s[6] == 'S' then 6 else 15
    case 16 => 18
    case 17 => 11
    case 18 => 4
    case 19 => if s[0] == 'N' then 3 else if s[13] == 'J' then 12 else 13
    case 21 => if s[6] == 'S' then 5 else 14
    case 22 => 16
    case 23 => 17
    case 27 => 10
    case 28 => 7
    case _ => -1
  }

  /** `NameIndex` finds each of the first ten names. */
  lemma NameIndexLeading()
    ensures forall k :: 0 <= k < 10 ==> NameIndex(ColumnNames[k]) == k
  {
    assert NameIndex(ColumnNames[0]) == 0;
    assert NameIndex(ColumnNames[1]) == 1;
    assert NameIndex(ColumnNames[2]) == 2;
    assert NameIndex(ColumnNames[3]) == 3;
    assert NameIndex(ColumnNames[4]) == 4;
    assert NameIndex(ColumnNames[5]) == 5;
    assert NameIndex(ColumnNames[6]) == 6;
    assert NameIndex(ColumnNames[7]) == 7;
    assert NameIndex(ColumnNames[8]) == 8;
    assert NameIndex(ColumnNames[9]) == 9;
  }

  /** `NameIndex` finds each of the last nine names. */
  lemma NameIndexTrailing()
    ensures forall k :: 10 <= k < 19 ==> NameIndex(ColumnNames[k]) == k
  {
    assert NameIndex(ColumnNames[10]) == 10;
    assert NameIndex(ColumnNames[11]) == 11;
    assert NameIndex(ColumnNames[12]) == 12;
    assert NameIndex(ColumnNames[13]) == 13;
    assert NameIndex(ColumnNames[14]) == 14;
    assert NameIndex(ColumnNames[15]) == 15;
    assert NameIndex(ColumnNames[16]) == 16;
    assert NameIndex(ColumnNames[17]) == 17;
    assert NameIndex(ColumnNames[18]) == 18;
  }

  /** Distinct columns have distinct names. */
  lemma NameDeterminesColumn(c: Column, d: Column)
    requires Name(c) == Name(d)
    ensures c == d
  {
    NameIndexLeading();
    NameIndexTrailing();
  }

  /** `{field.name: row[field.value] for field in [*WorksheetColumns]}` for a row that reaches the last column. */
  function Properties(row: Row): Properties
    requires |row| > 19
  {
    seq(|DeclaredOrder|, k requires 0 <= k < |DeclaredOrder| =>
      (Name(DeclaredOrder[k]), row[Position(DeclaredOrder[k])]))
  }

  /** The dictionary has one entry per column, in declared order: the column's name and the cell at its position. */
  lemma PropertiesByColumn(row: Row)
    requires |row| > 19
    ensures |Properties(row)| == 19
    ensures forall k :: 0 <= k < 19 ==> Properties(row)[k] == (Name(DeclaredOrder[k]), row[k + 1])
  {
    ColumnsLayout();
  }

  /** `int(cell)`: an integer cell as it is, a text cell of ASCII digits read in base ten, anything else refused. */
  function StationNumber(cell: Cell): Option<int>
  {
    match cell
    case Empty => None
    case Number(n) => Some(n)
    case Text(s) => if |s| > 0 && IsDigits(s) then Some(DecimalValue(s)) else None
  }

  /** The settlement name as it reaches the search request and the pattern: text as it is, a number in decimal. */
  function SettlementName(cell: Cell): Option<string>
  {
    match cell
    case Empty => None
    case Number(n) => Some(IntToDecimal(n))
    case Text(s) => Some(s)
  }

  /**
   * One kept row (line `line` of sheet `sheet`) turned into a record, with every settlement
   * resolved by a fresh lookup at `search`. Its steps, and so its errors, come in the order of
   * the loop body: station number, county code, settlement code, property dictionary.
   */
  function BuildStation(sheet: nat, line: nat, row: Row, search: string -> SearchReply): Result<Station>
  {
    if |row| <= Position(StationNo) then Err(CellMissing(sheet, line))
    else match StationNumber(row[Position(StationNo)])
      case None => Err(BadStationNumber(sheet, line))
      case Some(number) =>
        var stationNo := IntToDecimal(number);
        var countyCode := CountyCode(sheet);
        match SettlementName(row[Position(Settlement)])
        case None => Err(BadSettlement(sheet, line))
        case Some(name) =>
          match Lookup(name, search(name))
          case Err(e) => Err(e)
          case Ok(code) =>
            if |row| <= 19 then Err(CellMissing(sheet, line))
            else Ok(Station(LookupKey(stationNo, code, countyCode), Properties(row)))
  }

  /** What a successful record holds: its key parts derived from its row and its sheet, and its properties. */
  lemma BuildStationMeaning(sheet: nat, line: nat, row: Row, search: string -> SearchReply, station: Station)
    requires BuildStation(sheet, line, row, search) == Ok(station)
    ensures |row| >= 20
    ensures StationNumber(row[3]).Some? && SignedValue(station.key.stationNo) == StationNumber(row[3]).value
    ensures station.key.stationNo[0] != '0' || station.key.stationNo == "0"
    ensures station.key.stationNo == IntToDecimal(StationNumber(row[3]).value)
    ensures IsDigits(station.key.countyCode) && DecimalValue(station.key.countyCode) == sheet + 1
    ensures |station.key.countyCode| >= 2
    ensures station.key.countyCode == CountyCode(sheet)
    ensures |station.key.countyCode| == if sheet + 1 < 10 then 2 else |NatToDecimal(sheet + 1)|
    ensures station.key.stationNo[0] == '-' ==> station.key.stationNo[1] != '0'
    ensures SettlementName(row[2]).Some?
    ensures var name := SettlementName(row[2]).value;
      search(name).Listing? &&
      exists i :: FirstMatch(name, search(name).candidates, i) && search(name).candidates[i].code == Some(station.key.settlementCode)
    ensures forall k :: 0 <= k < 19 ==> station.properties[k] == (Name(DeclaredOrder[k]), row[k + 1])
  {
    IntToDecimalRoundTrip(StationNumber(row[3]).value);
    var name := SettlementName(row[2]).value;
    SelectCodeIsFirstMatch(name, search(name).candidates, station.key.settlementCode);
    PropertiesByColumn(row);
  }

  /**
   * Why a row gives no record, checked in the order of the loop body: it is too short for the
   * station number; the station number is refused; the settlement cell is empty; the lookup of
   * the settlement fails, with the lookup's own error; or, with all of that passed, the row is
   * too short for the property dictionary.
   */
  lemma BuildStationFailures(sheet: nat, line: nat, row: Row, search: string -> SearchReply)
    ensures var r := BuildStation(sheet, line, row, search);
      |row| <= 3 ==> r == Err(CellMissing(sheet, line))
    ensures var r := BuildStation(sheet, line, row, search);
      |row| > 3 && StationNumber(row[3]).None? ==> r == Err(BadStationNumber(sheet, line))
    ensures var r := BuildStation(sheet, line, row, search);
      |row| > 3 && StationNumber(row[3]).Some? && SettlementName(row[2]).None? ==> r == Err(BadSettlement(sheet, line))
    ensures var r := BuildStation(sheet, line, row, search);
      |row| > 3 && StationNumber(row[3]).Some? && SettlementName(row[2]).Some? ==>
        var name := SettlementName(row[2]).value;
        (Lookup(name, search(name)).Err? ==> r == Err(Lookup(name, search(name)).error))
        && (Lookup(name, search(name)).Ok? ==> (r.Err? <==> |row| <= 19) && (r.Err? ==> r.error == CellMissing(sheet, line)))
  {
  }

  /**
   * What the walk over the workbook meets, in order: a sheet without any row (not even a
   * header), a row without cells, or a data row (line `line` of sheet `sheet`, counting the
   * header as line 0). Rows whose first cell is empty leave no entry.
   */
  datatype Entry =
    | NoHeader(sheet: nat)
    | NoCells(sheet: nat, line: nat)
    | DataRow(sheet: nat, line: nat, cells: Row)

  /** The entry a row leaves, if any. */
  function RowEntry(sheet: nat, line: nat, row: Row): seq<Entry> {
    if |row| == 0 then [NoCells(sheet, line)]
    else if row[0].Empty? then []
    else [DataRow(sheet, line, row)]
  }

  /**
   * The entries the walk meets from row `j` of sheet `i` on (`j == 0`: the sheet's header is
   * still to be unpacked), in order: sheet after sheet, and within a sheet the rows after its
   * header one by one.
   */
  function Entries(workbook: seq<Sheet>, i: nat, j: nat): seq<Entry>
    requires i <= |workbook| && (i < |workbook| ==> j <= |workbook[i]|)
    decreases |workbook| - i, if i < |workbook| then |workbook[i]| - j else 0
  {
    if i == |workbook| then []
    else if j == 0 then
      if |workbook[i]| == 0 then [NoHeader(i)] + Entries(workbook, i + 1, 0) else Entries(workbook, i, 1)
    else if j == |workbook[i]| then Entries(workbook, i + 1, 0)
    else RowEntry(i, j, workbook[i][j]) + Entries(workbook, i, j + 1)
  }

  /** What the generator yields or raises for one entry. */
  function Process<T>(e: Entry, build: (nat, nat, Row) -> Result<T>): Result<T> {
    match e
    case NoHeader(sheet) => Err(HeaderMissing(sheet))
    case NoCells(sheet, line) => Err(CellMissing(sheet, line))
    case DataRow(sheet, line, cells) => build(sheet, line, cells)
  }

  /** What the generator yields or raises for each of `entries`, in order. */
  function Outcomes<T>(entries: seq<Entry>, build: (nat, nat, Row) -> Result<T>): (rs: seq<Result<T>>)
    ensures |rs| == |entries|
    decreases |entries|
  {
    if entries == [] then []
    else Outcomes(entries[..|entries| - 1], build) + [Process(entries[|entries| - 1], build)]
  }

  lemma {:induction false} OutcomesAt<T>(entries: seq<Entry>, build: (nat, nat, Row) -> Result<T>, k: nat)
    requires k < |entries|
    ensures Outcomes(entries, build)[k] == Process(entries[k], build)
    decreases |entries|
  {
    var init := entries[..|entries| - 1];
    if k < |init| {
      OutcomesAt(init, build, k);
    }
  }

  lemma {:induction false} OutcomesPrefix<T>(entries: seq<Entry>, more: seq<Entry>, build: (nat, nat, Row) -> Result<T>)
    requires entries <= more
    ensures Outcomes(entries, build) <= Outcomes(more, build)
    decreases |more|
  {
    if |more| > |entries| {
      var init := more[..|more| - 1];
      assert entries <= init;
      OutcomesPrefix(entries, init, build);
    } else {
      assert more == entries;
    }
  }

  lemma OutcomesStep<T>(entries: seq<Entry>, e: Entry, build: (nat, nat, Row) -> Result<T>)
    ensures Outcomes(entries + [e], build) == Outcomes(entries, build) + [Process(e, build)]
  {
    assert (entries + [e])[..|entries|] == entries;
  }

  /** The records of `entries` built with `build`, in order, up to the first error. */
  function Records<T>(entries: seq<Entry>, build: (nat, nat, Row) -> Result<T>): Result<seq<T>> {
    Collect(Outcomes(entries, build))
  }

  /** The walk over `workbook` building each data row's record with `build`: the records of its entries. */
  function Walk<T>(workbook: seq<Sheet>, build: (nat, nat, Row) -> Result<T>): Result<seq<T>> {
    Records(Entries(workbook, 0, 0), build)
  }

  /** `BuildStation` with settlement codes from `search`. */
  function Builder(search: string -> SearchReply): (nat, nat, Row) -> Result<Station> {
    (sheet: nat, line: nat, row: Row) => BuildStation(sheet, line, row, search)
  }

  /** The whole run of `polling_stations` over `workbook`, with settlement codes from `search`. */
  function StationsOf(workbook: seq<Sheet>, search: string -> SearchReply): Result<seq<Station>> {
    Walk(workbook, Builder(search))
  }

  /** The records are there exactly when every entry gives one, and then they are those, one per entry, in order. */
  lemma RecordsSucceed<T>(entries: seq<Entry>, build: (nat, nat, Row) -> Result<T>)
    ensures Records(entries, build).Ok? <==> forall k :: 0 <= k < |entries| ==> Process(entries[k], build).Ok?
    ensures Records(entries, build).Ok? ==>
      |Records(entries, build).value| == |entries| &&
      forall k :: 0 <= k < |entries| ==> Records(entries, build).value[k] == Process(entries[k], build).value
  {
    var outcomes := Outcomes(entries, build);
    CollectSucceeds(outcomes);
    forall k | 0 <= k < |entries| ensures outcomes[k] == Process(entries[k], build) {
      OutcomesAt(entries, build, k);
    }
    if forall k :: 0 <= k < |entries| ==> Process(entries[k], build).Ok? {
      assert forall k :: 0 <= k < |outcomes| ==> outcomes[k].Ok?;
    }
  }

  /** Entry `k` is the first of `entries` that gives no record. */
  predicate FirstFailure<T>(entries: seq<Entry>, build: (nat, nat, Row) -> Result<T>, k: int) {
    0 <= k < |entries| && Process(entries[k], build).Err? && forall j :: 0 <= j < k ==> Process(entries[j], build).Ok?
  }

  /** Without the records, the error is that of the first entry that gives no record; nothing after it counts. */
  lemma RecordsFailAtFirstError<T>(entries: seq<Entry>, build: (nat, nat, Row) -> Result<T>)
    requires Records(entries, build).Err?
    ensures exists k :: FirstFailure(entries, build, k) && Process(entries[k], build) == Err(Records(entries, build).error)
  {
    var outcomes := Outcomes(entries, build);
    CollectFailsAtFirstError(outcomes);
    var k :| 0 <= k < |outcomes| && outcomes[k] == Err(Collect(outcomes).error) &&
      forall j :: 0 <= j < k ==> outcomes[j].Ok?;
    OutcomesAt(entries, build, k);
    forall j | 0 <= j < k ensures Process(entries[j], build).Ok? {
      OutcomesAt(entries, build, j);
    }
    assert FirstFailure(entries, build, k);
  }

  /** Where an entry comes from: its sheet and its line (the header line, 0, for a sheet without rows). */
  function Line(e: Entry): nat {
    match e
    case NoHeader(_) => 0
    case NoCells(_, line) => line
    case DataRow(_, line, _) => line
  }

  /** `a` is met strictly before `b`: an earlier sheet, or an earlier line of the same sheet. */
  predicate Before(a: Entry, b: Entry) {
    a.sheet < b.sheet || (a.sheet == b.sheet && Line(a) < Line(b))
  }

  /** The entries sheet `rows` can leave: a `NoHeader` if it has no rows, and each row after its header that has no cells or a non-empty first cell. */
  predicate InSheet(rows: Sheet, e: Entry) {
    match e
    case NoHeader(_) => |rows| == 0
    case NoCells(_, line) => 1 <= line < |rows| && |rows[line]| == 0
    case DataRow(_, line, cells) => 1 <= line < |rows| && cells == rows[line] && |cells| > 0 && !cells[0].Empty?
  }

  /** The entries a workbook can leave: those its sheets can leave. */
  predicate Belongs(workbook: seq<Sheet>, e: Entry) {
    e.sheet < |workbook| && InSheet(workbook[e.sheet], e)
  }

  /** `e` comes from row `j` of sheet `i` or later: a later sheet, or a line of sheet `i` from `j` on. */
  predicate From(e: Entry, i: nat, j: nat) {
    e.sheet > i || (e.sheet == i && Line(e) >= j)
  }

  /** `e` is among the entries from row `j` of sheet `i` on exactly when the workbook can leave it there. */
  predicate MembersAt(workbook: seq<Sheet>, i: nat, j: nat, e: Entry)
    requires i <= |workbook| && (i < |workbook| ==> j <= |workbook[i]|)
  {
    e in Entries(workbook, i, j) <==> Belongs(workbook, e) && From(e, i, j)
  }

  /** The entries from row `j` of sheet `i` on are exactly those the workbook can leave from there on. */
  lemma {:induction false} EntriesMembers(workbook: seq<Sheet>, i: nat, j: nat, e: Entry)
    requires i <= |workbook| && (i < |workbook| ==> j <= |workbook[i]|)
    ensures MembersAt(workbook, i, j, e)
    decreases |workbook| - i, if i < |workbook| then |workbook[i]| - j else 0
  {
    if i == |workbook| {
    } else if j == 0 {
      if |workbook[i]| == 0 {
        EntriesMembers(workbook, i + 1, 0, e);
        HeaderlessMembers(workbook, i, e);
      } else {
        EntriesMembers(workbook, i, 1, e);
        HeaderMembers(workbook, i, e);
      }
    } else if j == |workbook[i]| {
      EntriesMembers(workbook, i + 1, 0, e);
      SheetEndMembers(workbook, i, e);
    } else {
      EntriesMembers(workbook, i, j + 1, e);
      RowMembers(workbook, i, j, e);
    }
  }

  /** At a sheet without rows, the membership of `e` follows from that in the later sheets' entries. */
  lemma HeaderlessMembers(workbook: seq<Sheet>, i: nat, e: Entry)
    requires i < |workbook| && |workbook[i]| == 0
    requires MembersAt(workbook, i + 1, 0, e)
    ensures MembersAt(workbook, i, 0, e)
  {
    var later := Entries(workbook, i + 1, 0);
    assert Entries(workbook, i, 0) == [NoHeader(i)] + later;
    assert e in [NoHeader(i)] + later <==> e == NoHeader(i) || e in later;
  }

  /** At the header of a sheet with rows, the membership of `e` follows from that in the entries after the header. */
  lemma HeaderMembers(workbook: seq<Sheet>, i: nat, e: Entry)
    requires i < |workbook| && |workbook[i]| > 0
    requires MembersAt(workbook, i, 1, e)
    ensures MembersAt(workbook, i, 0, e)
  {
    assert Entries(workbook, i, 0) == Entries(workbook, i, 1);
  }

  /** After the last row of a sheet, the membership of `e` follows from that in the later sheets' entries. */
  lemma SheetEndMembers(workbook: seq<Sheet>, i: nat, e: Entry)
    requires i < |workbook| && |workbook[i]| > 0
    requires MembersAt(workbook, i + 1, 0, e)
    ensures MembersAt(workbook, i, |workbook[i]|, e)
  {
    assert Entries(workbook, i, |workbook[i]|) == Entries(workbook, i + 1, 0);
  }

  /** At a row after the header, the membership of `e` follows from that in the entries after the row. */
  lemma RowMembers(workbook: seq<Sheet>, i: nat, j: nat, e: Entry)
    requires i < |workbook| && 1 <= j < |workbook[i]|
    requires MembersAt(workbook, i, j + 1, e)
    ensures MembersAt(workbook, i, j, e)
  {
    var entry, later := RowEntry(i, j, workbook[i][j]), Entries(workbook, i, j + 1);
    assert Entries(workbook, i, j) == entry + later;
    assert e in entry + later <==> e in entry || e in later;
    assert e in entry <==> Belongs(workbook, e) && e.sheet == i && Line(e) == j;
  }

  /**
   * The records come from exactly the right rows: a data row appears among the entries if and
   * only if it lies after its sheet's header and its first cell is not empty.
   */
  lemma KeptRows(workbook: seq<Sheet>, sheet: nat, line: nat, cells: Row)
    ensures DataRow(sheet, line, cells) in Entries(workbook, 0, 0) <==>
      sheet < |workbook| && 1 <= line < |workbook[sheet]| && cells == workbook[sheet][line]
      && |cells| > 0 && !cells[0].Empty?
  {
    EntriesMembers(workbook, 0, 0, DataRow(sheet, line, cells));
  }

  predicate Ordered(entries: seq<Entry>) {
    forall p, q :: 0 <= p < q < |entries| ==> Before(entries[p], entries[q])
  }

  lemma OrderedConcat(a: seq<Entry>, b: seq<Entry>)
    requires Ordered(a) && Ordered(b)
    requires forall p, q :: 0 <= p < |a| && 0 <= q < |b| ==> Before(a[p], b[q])
    ensures Ordered(a + b)
  {
  }

  /** The entries from row `j` of sheet `i` on come in walk order, and none of them from an earlier place. */
  lemma {:induction false} EntriesOrderedFrom(workbook: seq<Sheet>, i: nat, j: nat)
    requires i <= |workbook| && (i < |workbook| ==> j <= |workbook[i]|)
    ensures Ordered(Entries(workbook, i, j))
    ensures forall p :: 0 <= p < |Entries(workbook, i, j)| ==> From(Entries(workbook, i, j)[p], i, j)
    decreases |workbook| - i, if i < |workbook| then |workbook[i]| - j else 0
  {
    if i == |workbook| {
    } else if j == 0 {
      if |workbook[i]| == 0 {
        EntriesOrderedFrom(workbook, i + 1, 0);
        OrderedConcat([NoHeader(i)], Entries(workbook, i + 1, 0));
      } else {
        EntriesOrderedFrom(workbook, i, 1);
      }
    } else if j == |workbook[i]| {
      EntriesOrderedFrom(workbook, i + 1, 0);
    } else {
      EntriesOrderedFrom(workbook, i, j + 1);
      OrderedConcat(RowEntry(i, j, workbook[i][j]), Entries(workbook, i, j + 1));
    }
  }

  /** The walk visits sheets in order and, within a sheet, rows in order: no entry is reordered or repeated. */
  lemma EntriesOrdered(workbook: seq<Sheet>)
    ensures Ordered(Entries(workbook, 0, 0))
  {
    EntriesOrderedFrom(workbook, 0, 0);
  }

  /**
   * The generator resumed before `entries` with the records `acc` already yielded: each entry in
   * turn, up to the first error.
   */
  function Resume<T>(entries: seq<Entry>, build: (nat, nat, Row) -> Result<T>, acc: seq<T>)
    : Result<seq<T>>
    decreases |entries|
  {
    if entries == [] then Ok(acc)
    else match Process(entries[0], build)
      case Err(e) => Err(e)
      case Ok(v) => Resume(entries[1..], build, acc + [v])
  }

  /** Resuming before `rest` with the records of `done` in hand gives the records of `done + rest`. */
  lemma {:induction false} ResumeCollects<T>(done: seq<Entry>, rest: seq<Entry>, build: (nat, nat, Row) -> Result<T>,
                                             acc: seq<T>)
    requires Records(done, build) == Ok(acc)
    ensures Resume(rest, build, acc) == Records(done + rest, build)
    decreases |rest|
  {
    if rest == [] {
      assert done + rest == done;
    } else {
      var e, next := rest[0], done + [rest[0]];
      assert done + rest == next + rest[1..];
      OutcomesStep(done, e, build);
      CollectStep(Outcomes(done, build), Process(e, build));
      if Process(e, build).Ok? {
        ResumeCollects(next, rest[1..], build, acc + [Process(e, build).value]);
      } else {
        OutcomesPrefix(next, done + rest, build);
        CollectErrorIsFinal(Outcomes(next, build), Outcomes(done + rest, build));
      }
    }
  }

  /** The settlement name a row is resolved by, when the row gets as far as the lookup. */
  function LookupName(row: Row): Option<string> {
    if |row| <= Position(StationNo) then None
    else match StationNumber(row[Position(StationNo)])
      case None => None
      case Some(_) => SettlementName(row[Position(Settlement)])
  }

  /** The cache after building the record of `row`: the row's lookup, if it gets that far. */
  function RowCache(cache: map<string, string>, row: Row, search: string -> SearchReply): map<string, string> {
    match LookupName(row)
    case None => cache
    case Some(name) => CacheAfter(cache, name, search)
  }

  /** The request log after building the record of `row`. */
  function RowLog(cache: map<string, string>, requests: seq<string>, row: Row): seq<string> {
    match LookupName(row)
    case None => requests
    case Some(name) => LogAfter(cache, requests, name)
  }

  /**
   * The record for one kept row (`row[0]` not empty), with settlement codes from `resolver`. The
   * resolver changes only when the row gets as far as the lookup, and then as
   * `get_settlement_code` changes it.
   */
  method StationForRow(sheet: nat, line: nat, row: Row, resolver: Resolver, search: string -> SearchReply)
    returns (r: Result<Station>)
    requires resolver.Coherent(search)
    modifies resolver
    ensures resolver.Coherent(search) && r == BuildStation(sheet, line, row, search) && r == Builder(search)(sheet, line, row)
    ensures resolver.cache == RowCache(old(resolver.cache), row, search)
    ensures resolver.requests == RowLog(old(resolver.cache), old(resolver.requests), row)
    ensures Extends(old(resolver.cache), resolver.cache)
    ensures SearchedAnew(old(resolver.cache), old(resolver.requests), resolver.requests)
    ensures old(resolver.Memoised()) ==> Distinct(resolver.requests) && (r.Ok? ==> resolver.Memoised())
  {
    if |row| <= Position(StationNo) {
      return Err(CellMissing(sheet, line));
    }
    var number := StationNumber(row[Position(StationNo)]);
    if number.None? {
      return Err(BadStationNumber(sheet, line));
    }
    var stationNo := IntToDecimal(number.value);
    var countyCode := CountyCode(sheet);
    var name := SettlementName(row[Position(Settlement)]);
    if name.None? {
      return Err(BadSettlement(sheet, line));
    }
    var code := resolver.Resolve(name.value, search);
    if code.Err? {
      return Err(code.error);
    }
    if |row| <= 19 {
      return Err(CellMissing(sheet, line));
    }
    r := Ok(Station(LookupKey(stationNo, code.value, countyCode), Properties(row)));
  }

  /** What one pull from the generator gives: the end of the walk, a raised error, or the next record. */
  datatype Pulled = Exhausted | Raised(error: Failure) | Yielded(station: Station)

  /** The pull from a generator that still meets `pending`: the outcome of the first entry, or the end. */
  function PullOf(pending: seq<Entry>, build: (nat, nat, Row) -> Result<Station>): Pulled {
    if pending == [] then Exhausted
    else match Process(pending[0], build)
      case Err(e) => Raised(e)
      case Ok(station) => Yielded(station)
  }

  /** The cache after a pull that meets the first of `pending`: only a data row resolves a name. */
  function PullCache(cache: map<string, string>, pending: seq<Entry>, search: string -> SearchReply): map<string, string> {
    if pending != [] && pending[0].DataRow? then RowCache(cache, pending[0].cells, search) else cache
  }

  /** The request log after a pull that meets the first of `pending`. */
  function PullLog(cache: map<string, string>, requests: seq<string>, pending: seq<Entry>): seq<string> {
    if pending != [] && pending[0].DataRow? then RowLog(cache, requests, pending[0].cells) else requests
  }

  /**
   * The generator object `polling_stations()` returns, over `workbook`. It is suspended before
   * row `line` of sheet `sheet` (`line == 0`: the sheet's header is still to be unpacked), or it
   * has finished, after its last record or after raising.
   */
  class StationStream {
    const workbook: seq<Sheet>
    var sheet: nat
    var line: nat
    var finished: bool

    ghost predicate Valid()
      reads this
    {
      sheet <= |workbook| && (sheet < |workbook| ==> line <= |workbook[sheet]|)
    }

    /** The entries the generator still meets. */
    ghost function Pending(): seq<Entry>
      reads this
      requires Valid()
    {
      if finished then [] else Entries(workbook, sheet, line)
    }

    /** A generator that has not started: it still meets every entry of `workbook`. */
    constructor (workbook: seq<Sheet>)
      ensures this.workbook == workbook && Valid() && Pending() == Entries(workbook, 0, 0)
    {
      this.workbook := workbook;
      sheet, line, finished := 0, 0, false;
    }

    /**
     * Goes over what leaves no entry (a header that unpacks, the end of a sheet's rows, a row whose
     * first cell is empty), up to the end of the workbook, a sheet without rows, or a row that
     * either has no cells or has a first cell.
     */
    method Advance()
      requires Valid() && !finished
      modifies this
      ensures Valid() && !finished && Pending() == old(Pending())
      ensures AtEntry(workbook, sheet, line)
    {
      sheet, line := SkipToEntry(workbook, sheet, line);
    }

    /**
     * One pull (`__anext__`): the loops of `polling_stations()` run from where they were suspended
     * to the next `yield`, a raised error, or the end of the workbook. The resolver changes only
     * by the lookup of the data row met, if one is.
     */
    method Next(resolver: Resolver, search: string -> SearchReply) returns (r: Pulled)
      requires Valid() && resolver.Coherent(search)
      modifies this, resolver
      ensures Valid() && resolver.Coherent(search)
      ensures r == PullOf(old(Pending()), Builder(search))
      ensures Pending() == if r.Yielded? then old(Pending())[1..] else []
      ensures resolver.cache == PullCache(old(resolver.cache), old(Pending()), search)
      ensures resolver.requests == PullLog(old(resolver.cache), old(resolver.requests), old(Pending()))
      ensures Extends(old(resolver.cache), resolver.cache)
      ensures SearchedAnew(old(resolver.cache), old(resolver.requests), resolver.requests)
      ensures old(resolver.Memoised()) ==> Distinct(resolver.requests) && (!r.Raised? ==> resolver.Memoised())
    {
      if finished {
        return Exhausted;
      }
      Advance();
      if sheet == |workbook| {
        finished := true;
        return Exhausted;
      }
      if line == 0 {
        // `_, *rows = worksheet.values` finds no header to unpack.
        PendingAtHeader();
        finished := true;
        return Raised(HeaderMissing(sheet));
      }
      r := PullRow(resolver, search);
    }

    /** The pull at a row that has no cells or has a first cell: the outcome of that row's entry. */
    method PullRow(resolver: Resolver, search: string -> SearchReply) returns (r: Pulled)
      requires Valid() && !finished && sheet < |workbook| && 1 <= line < |workbook[sheet]|
      requires |workbook[sheet][line]| == 0 || !workbook[sheet][line][0].Empty?
      requires resolver.Coherent(search)
      modifies this, resolver
      ensures Valid() && resolver.Coherent(search)
      ensures r == PullOf(old(Pending()), Builder(search))
      ensures Pending() == if r.Yielded? then old(Pending())[1..] else []
      ensures resolver.cache == PullCache(old(resolver.cache), old(Pending()), search)
      ensures resolver.requests == PullLog(old(resolver.cache), old(resolver.requests), old(Pending()))
      ensures Extends(old(resolver.cache), resolver.cache)
      ensures SearchedAnew(old(resolver.cache), old(resolver.requests), resolver.requests)
      ensures old(resolver.Memoised()) ==> Distinct(resolver.requests) && (!r.Raised? ==> resolver.Memoised())
    {
      var row, at := workbook[sheet][line], line;
      PendingAtRow();
      line := line + 1;
      if |row| == 0 {
        finished := true;
        return Raised(CellMissing(sheet, at));
      }
      var station := StationForRow(sheet, at, row, resolver, search);
      if station.Err? {
        finished := true;
        return Raised(station.error);
      }
      r := Yielded(station.value);
    }

    /** At a sheet without rows, the entries still met start with its missing header. */
    lemma PendingAtHeader()
      requires Valid() && !finished && sheet < |workbook| && line == 0 && |workbook[sheet]| == 0
      ensures Pending() != [] && Pending()[0] == NoHeader(sheet)
    {
    }

    /** At a row that has no cells or has a first cell, the entries still met start with that row's entry. */
    lemma PendingAtRow()
      requires Valid() && !finished && sheet < |workbook| && 1 <= line < |workbook[sheet]|
      requires |workbook[sheet][line]| == 0 || !workbook[sheet][line][0].Empty?
      ensures Pending() != [] && Pending()[1..] == Entries(workbook, sheet, line + 1)
      ensures Pending()[0] == if |workbook[sheet][line]| == 0 then NoCells(sheet, line) else DataRow(sheet, line, workbook[sheet][line])
    {
      var entry, later := RowEntry(sheet, line, workbook[sheet][line]), Entries(workbook, sheet, line + 1);
      assert Pending() == entry + later;
      assert (entry + later)[1..] == later;
    }
  }

  /**
   * Row `j` of sheet `i` is where the walk meets an entry or ends: the end of the workbook, a
   * sheet without rows, or a row after the header that has no cells or has a first cell.
   */
  predicate AtEntry(workbook: seq<Sheet>, i: nat, j: nat)
    requires i <= |workbook| && (i < |workbook| ==> j <= |workbook[i]|)
  {
    i == |workbook| || (j == 0 && |workbook[i]| == 0) ||
    (1 <= j < |workbook[i]| && (|workbook[i][j]| == 0 || !workbook[i][j][0].Empty?))
  }

  /**
   * From row `j` of sheet `i`, the next place that leaves an entry or ends the workbook: a header
   * that unpacks, the end of a sheet's rows and a row whose first cell is empty are passed over.
   */
  method SkipToEntry(workbook: seq<Sheet>, i0: nat, j0: nat) returns (i: nat, j: nat)
    requires i0 <= |workbook| && (i0 < |workbook| ==> j0 <= |workbook[i0]|)
    ensures i <= |workbook| && (i < |workbook| ==> j <= |workbook[i]|)
    ensures Entries(workbook, i, j) == Entries(workbook, i0, j0)
    ensures AtEntry(workbook, i, j)
  {
    ghost var pending := Entries(workbook, i0, j0);
    i, j := i0, j0;
    while !AtEntry(workbook, i, j)
      invariant i <= |workbook| && (i < |workbook| ==> j <= |workbook[i]|)
      invariant Entries(workbook, i, j) == pending
      decreases |workbook| - i, if i < |workbook| then |workbook[i]| - j else 0
    {
      i, j := SkipOne(workbook, i, j);
    }
  }

  /** One place further, past a header that unpacks, the end of a sheet's rows, or a row whose first cell is empty. */
  method SkipOne(workbook: seq<Sheet>, i0: nat, j0: nat) returns (i: nat, j: nat)
    requires i0 <= |workbook| && (i0 < |workbook| ==> j0 <= |workbook[i0]|)
    requires !AtEntry(workbook, i0, j0)
    ensures i <= |workbook| && (i < |workbook| ==> j <= |workbook[i]|)
    ensures Entries(workbook, i, j) == Entries(workbook, i0, j0)
    ensures i0 < i || (i == i0 && j0 < j)
  {
    if j0 == 0 {
      HeaderSkipped(workbook, i0);
      i, j := i0, 1;
    } else if j0 == |workbook[i0]| {
      SheetEndSkipped(workbook, i0);
      i, j := i0 + 1, 0;
    } else {
      BlankRowSkipped(workbook, i0, j0);
      i, j := i0, j0 + 1;
    }
  }

  /** A header that unpacks leaves no entry. */
  lemma HeaderSkipped(workbook: seq<Sheet>, i: nat)
    requires i < |workbook| && |workbook[i]| > 0
    ensures Entries(workbook, i, 0) == Entries(workbook, i, 1)
  {
  }

  /** The end of a sheet's rows leaves no entry: the walk goes on with the next sheet. */
  lemma SheetEndSkipped(workbook: seq<Sheet>, i: nat)
    requires i < |workbook| && |workbook[i]| > 0
    ensures Entries(workbook, i, |workbook[i]|) == Entries(workbook, i + 1, 0)
  {
  }

  /** A row whose first cell is empty leaves no entry. */
  lemma BlankRowSkipped(workbook: seq<Sheet>, i: nat, j: nat)
    requires i < |workbook| && 1 <= j < |workbook[i]| && |workbook[i][j]| > 0 && workbook[i][j][0].Empty?
    ensures Entries(workbook, i, j) == Entries(workbook, i, j + 1)
  {
    assert RowEntry(i, j, workbook[i][j]) == [];
    assert [] + Entries(workbook, i, j + 1) == Entries(workbook, i, j + 1);
  }

  /**
   * `polling_stations()` drained into a list: the records of `workbook` in sheet order and then row
   * order, or the first error, which ends the walk. The cache only grows; each search is for a name
   * not cached before the walk, and with a memoising resolver no name is searched twice.
   */
  method PollingStations(workbook: seq<Sheet>, resolver: Resolver, search: string -> SearchReply)
    returns (r: Result<seq<Station>>)
    requires resolver.Coherent(search)
    modifies resolver
    ensures resolver.Coherent(search) && r == StationsOf(workbook, search)
    ensures Extends(old(resolver.cache), resolver.cache)
    ensures SearchedAnew(old(resolver.cache), old(resolver.requests), resolver.requests)
    ensures old(resolver.Memoised()) ==> Distinct(resolver.requests) && (r.Ok? ==> resolver.Memoised())
  {
    var stream := new StationStream(workbook);
    ResumeCollects([], Entries(workbook, 0, 0), Builder(search), []);
    assert [] + Entries(workbook, 0, 0) == Entries(workbook, 0, 0);
    var stations: seq<Station> := [];
    while true
      invariant stream.Valid() && resolver.Coherent(search)
      invariant Resume(stream.Pending(), Builder(search), stations) == StationsOf(workbook, search)
      invariant Extends(old(resolver.cache), resolver.cache)
      invariant SearchedAnew(old(resolver.cache), old(resolver.requests), resolver.requests)
      invariant old(resolver.Memoised()) ==> resolver.Memoised()
      decreases |stream.Pending()|
    {
      ghost var cache, requests := resolver.cache, resolver.requests;
      var pulled := stream.Next(resolver, search);
      SearchedAnewTwice(old(resolver.cache), cache, old(resolver.requests), requests, resolver.requests);
      match pulled {
        case Exhausted =>
          return Ok(stations);
        case Raised(e) =>
          return Err(e);
        case Yielded(station) =>
          stations := stations + [station];
      }
    }
  }

  /**
   * One sheet with a header and one data row for "Szeged", station 1, whose search answer
   * names "Szeged" with code "123": one record keyed ("1", "123", "01") carrying the row's cells.
   */
  lemma SingleStationExample(header: Row, row: Row, search: string -> SearchReply)
    requires |row| == 20 && row[0] == Text("1") && row[1] == Text("Pest") && row[2] == Text("Szeged")
    requires row[3] == Number(1)
    requires search("Szeged") == Listing([Candidate(Some("Szeged"), Some("123"))])
    ensures StationsOf([[header, row]], search) == Ok([Station(LookupKey("1", "123", "01"), Properties(row))])
  {
    var workbook := [[header, row]];
    var build := Builder(search);
    var station := Station(LookupKey("1", "123", "01"), Properties(row));
    ExampleRecord(row, search);
    assert Entries(workbook, 0, 2) == Entries(workbook, 1, 0) == [];
    assert Entries(workbook, 0, 1) == [DataRow(0, 1, row)] + Entries(workbook, 0, 2);
    assert Entries(workbook, 0, 0) == [DataRow(0, 1, row)];
    OneEntryRecords(DataRow(0, 1, row), build);
  }

  /** The records of a single entry: its record, or its error. */
  lemma OneEntryRecords<T>(e: Entry, build: (nat, nat, Row) -> Result<T>)
    ensures Records([e], build) == match Process(e, build) case Err(x) => Err(x) case Ok(v) => Ok([v])
  {
    OutcomesStep([], e, build);
    assert [] + [e] == [e];
    assert Outcomes([e], build) == [] + [Process(e, build)];
    CollectStep([], Process(e, build));
    assert [] + [Process(e, build)] == [Process(e, build)];
    if Process(e, build).Ok? {
      var v := Process(e, build).value;
      assert [] + [v] == [v];
    }
  }

  /** The data row of `SingleStationExample`, on its own: line 1 of the first sheet. */
  lemma ExampleRecord(row: Row, search: string -> SearchReply)
    requires |row| == 20 && row[0] == Text("1") && row[1] == Text("Pest") && row[2] == Text("Szeged")
    requires row[3] == Number(1)
    requires search("Szeged") == Listing([Candidate(Some("Szeged"), Some("123"))])
    ensures BuildStation(0, 1, row, search) == Ok(Station(LookupKey("1", "123", "01"), Properties(row)))
  {
    assert Matches("Szeged", "Szeged");
    assert Lookup("Szeged", search("Szeged")) == Ok("123");
    assert IntToDecimal(1) == "1";
    CountyCodeExamples();
  }
}
