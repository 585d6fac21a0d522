/**
 * The grid service: where a tab's grid state is read from (Grid), how a
 * request is resolved to a grid (the first half of ListHeaders and
 * ListRows), and how the grid's columns and rows are projected into
 * response headers and rows.
 */
module GridService {
  import opened Wrappers
  import opened Codec
  import opened NameIndex

  /** The alert attached to a row; the service copies it without looking inside. */
  type AlertInfo(==)

  /** A column of the stored grid; its start time is not modelled. */
  datatype Column = Column(name: string, build: string, extra: seq<string>, hotlistIds: string)

  /** A row of the stored grid: its results run-length encoded, its cell data as parallel arrays. */
  datatype GridRow = GridRow(
    name: string,
    results: seq<int32>,
    cellIds: seq<string>,
    messages: seq<string>,
    icons: seq<string>,
    issues: seq<string>,
    alert: Option<AlertInfo>)

  datatype Grid = Grid(columns: seq<Column>, rows: seq<GridRow>)

  datatype Header = Header(name: string, build: string, extra: seq<string>, hotlistIds: string)

  datatype Cell = Cell(result: int32, cellId: string, message: string, icon: string)

  datatype Row = Row(name: string, issues: seq<string>, alert: Option<AlertInfo>, cells: seq<Cell>)

  /** The server's configured path prefixes; an empty tab prefix selects the older per-test-group layout. */
  datatype Server = Server(gridPathPrefix: string, tabPathPrefix: string)

  /** Where a grid is read from, before it is joined with the scope's configuration location. */
  datatype GridLocation =
    | GroupState(gridPathPrefix: string, testGroupName: string)
    | TabState(tabPathPrefix: string, dashboardName: string, tabName: string)

  /**
   * What the blob store answers for a location. Failures to locate the
   * configuration, to build the path and to download are all FetchFailed.
   */
  datatype Fetch = FetchFailed | FetchedNil | Fetched(grid: Grid)

  datatype ApiError =
    | LookupFailed(lookup: LookupError)
    | GridUnavailable(dashboard: string, tab: string)
    | GridNotFound

  /**
   * The choice of layout made by Grid. The group layout uses only the test
   * group name, the tab layout only the dashboard and tab names.
   */
  function LocationOf(s: Server, dashboardName: string, tabName: string, testGroupName: string): (loc: GridLocation)
    ensures loc.GroupState? <==> s.tabPathPrefix == ""
    ensures loc.GroupState? ==> loc.gridPathPrefix == s.gridPathPrefix && loc.testGroupName == testGroupName
    ensures loc.TabState? ==>
      loc.tabPathPrefix == s.tabPathPrefix && loc.dashboardName == dashboardName && loc.tabName == tabName
  {
    if s.tabPathPrefix == "" then GroupState(s.gridPathPrefix, testGroupName)
    else TabState(s.tabPathPrefix, dashboardName, tabName)
  }

  /**
   * The grid a request resolves to: look the names up, choose the layout,
   * fetch. A lookup failure is passed on as it is; a fetch failure is
   * reported against the request's own dashboard and tab; an absent grid is
   * its own error.
   */
  function LoadGrid(s: Server, cfg: Option<ConfigSnapshot>, normalize: string -> string,
                    fetch: GridLocation -> Fetch, dashboard: string, tab: string): (r: Result<Grid, ApiError>)
    requires LookupDerefs(cfg, normalize, dashboard, tab)
    ensures
      var id := FindDashboardTab(cfg, normalize, dashboard, tab);
      var got := fetch(LocationOf(s, id.dashboardName, id.tabName, id.testGroupName));
      && (id.err.Some? <==> r.Failure? && r.error.LookupFailed?)
      && (id.err.Some? ==> r == Failure(LookupFailed(id.err.value)))
      && (id.err.None? && got.FetchFailed? <==> r == Failure(GridUnavailable(dashboard, tab)))
      && (id.err.None? && got.FetchedNil? <==> r == Failure(GridNotFound))
      && (r.Success? <==> id.err.None? && got.Fetched?)
      && (r.Success? ==> r.value == got.grid)
  {
    var id := FindDashboardTab(cfg, normalize, dashboard, tab);
    if id.err.Some? then Failure(LookupFailed(id.err.value))
    else
      match fetch(LocationOf(s, id.dashboardName, id.tabName, id.testGroupName))
      case FetchFailed => Failure(GridUnavailable(dashboard, tab))
      case FetchedNil => Failure(GridNotFound)
      case Fetched(grid) => Success(grid)
  }

  /** The header a column becomes. */
  predicate HeaderOf(c: Column, h: Header)
  {
    h.name == c.name && h.build == c.build && h.extra == c.extra && h.hotlistIds == c.hotlistIds
  }

  /** The header loop of ListHeaders: one header per column, in order. */
  method ProjectHeaders(columns: seq<Column>) returns (headers: seq<Header>)
    ensures |headers| == |columns|
    ensures forall i :: 0 <= i < |columns| ==> HeaderOf(columns[i], headers[i])
  {
    headers := [];
    for i := 0 to |columns|
      invariant |headers| == i
      invariant forall k :: 0 <= k < i ==> HeaderOf(columns[k], headers[k])
    {
      var c := columns[i];
      headers := headers + [Header(c.name, c.build, c.extra, c.hotlistIds)];
    }
  }

  /**
   * What ListRows demands of a row: the decoded results, the messages and the
   * icons are each at least as long as the cell ids, since the source
   * indexes all four up to the number of cell ids without a check.
   */
  predicate RowFits(row: GridRow)
  {
    && |row.cellIds| <= |Decode(row.results)|
    && |row.cellIds| <= |row.messages|
    && |row.cellIds| <= |row.icons|
  }

  predicate RowsFit(rows: seq<GridRow>)
  {
    forall i :: 0 <= i < |rows| ==> RowFits(rows[i])
  }

  /** The response row a grid row becomes: cell j zips position j of the decoded results with the parallel arrays. */
  predicate RowOf(row: GridRow, out: Row)
    requires RowFits(row)
  {
    && out.name == row.name
    && out.issues == row.issues
    && out.alert == row.alert
    && |out.cells| == |row.cellIds|
    && forall j :: 0 <= j < |out.cells| ==>
         out.cells[j] == Cell(Decode(row.results)[j], row.cellIds[j], row.messages[j], row.icons[j])
  }

  /** The cell loop of ListRows for one row. */
  method ProjectRow(row: GridRow) returns (out: Row)
    requires RowFits(row)
    ensures RowOf(row, out)
  {
    var cellsCount := |row.cellIds|;
    var cells: seq<Cell> := [];
    var decoded := DecodeRLE(row.results);
    for cellIdx := 0 to cellsCount
      invariant |cells| == cellIdx
      invariant forall j :: 0 <= j < cellIdx ==>
        cells[j] == Cell(decoded[j], row.cellIds[j], row.messages[j], row.icons[j])
    {
      cells := cells + [Cell(decoded[cellIdx], row.cellIds[cellIdx], row.messages[cellIdx], row.icons[cellIdx])];
    }
    out := Row(row.name, row.issues, row.alert, cells);
  }

  /** The row loop of ListRows: one response row per grid row, in order. */
  method ProjectRows(rows: seq<GridRow>) returns (out: seq<Row>)
    requires RowsFit(rows)
    ensures |out| == |rows|
    ensures forall i :: 0 <= i < |rows| ==> RowOf(rows[i], out[i])
  {
    out := [];
    for i := 0 to |rows|
      invariant |out| == i
      invariant forall k :: 0 <= k < i ==> RowOf(rows[k], out[k])
    {
      var r := ProjectRow(rows[i]);
      out := out + [r];
    }
  }

  /** ListHeaders, after the configuration has been obtained. */
  method ListHeaders(s: Server, cfg: Option<ConfigSnapshot>, normalize: string -> string,
                     fetch: GridLocation -> Fetch, dashboard: string, tab: string)
    returns (r: Result<seq<Header>, ApiError>)
    requires LookupDerefs(cfg, normalize, dashboard, tab)
    ensures
      var g := LoadGrid(s, cfg, normalize, fetch, dashboard, tab);
      && (g.Failure? ==> r == Failure(g.error))
      && (g.Success? ==>
            && r.Success?
            && |r.value| == |g.value.columns|
            && forall i :: 0 <= i < |r.value| ==> HeaderOf(g.value.columns[i], r.value[i]))
  {
    var g := LoadGrid(s, cfg, normalize, fetch, dashboard, tab);
    if g.Failure? {
      return Failure(g.error);
    }
    var headers := ProjectHeaders(g.value.columns);
    r := Success(headers);
  }

  /** ListRows, after the configuration has been obtained. */
  method ListRows(s: Server, cfg: Option<ConfigSnapshot>, normalize: string -> string,
                  fetch: GridLocation -> Fetch, dashboard: string, tab: string)
    returns (r: Result<seq<Row>, ApiError>)
    requires LookupDerefs(cfg, normalize, dashboard, tab)
    requires LoadGrid(s, cfg, normalize, fetch, dashboard, tab).Success? ==>
      RowsFit(LoadGrid(s, cfg, normalize, fetch, dashboard, tab).value.rows)
    ensures
      var g := LoadGrid(s, cfg, normalize, fetch, dashboard, tab);
      && (g.Failure? ==> r == Failure(g.error))
      && (g.Success? ==>
            && r.Success?
            && |r.value| == |g.value.rows|
            && forall i :: 0 <= i < |r.value| ==> RowOf(g.value.rows[i], r.value[i]))
  {
    var g := LoadGrid(s, cfg, normalize, fetch, dashboard, tab);
    if g.Failure? {
      return Failure(g.error);
    }
    var rows := ProjectRows(g.value.rows);
    r := Success(rows);
  }

  /**
   * A row whose encoding has even length, whose counts add up to the number
   * of cell ids, and whose messages and icons have that same length, can be
   * projected.
   */
  lemma WellFormedRowFits(row: GridRow)
    requires |row.results| % 2 == 0
    requires TotalRun(row.results) == |row.cellIds| == |row.messages| == |row.icons|
    ensures RowFits(row)
  {
    DecodeLength(row.results);
  }

  /** A row whose encoding has odd length cannot be projected once it has a cell id: its decoding is empty. */
  lemma OddResultsNeverFit(row: GridRow)
    requires |row.results| % 2 == 1 && |row.cellIds| > 0
    ensures !RowFits(row)
  {
  }

  /** The example of a two-cell row: results [1, 2] decode to [1, 1]. */
  lemma TwoCellRowExample(alert: Option<AlertInfo>)
    ensures RowFits(GridRow("r", [1, 2], ["a", "b"], ["m1", "m2"], ["i1", "i2"], [], alert))
    ensures forall out :: RowOf(GridRow("r", [1, 2], ["a", "b"], ["m1", "m2"], ["i1", "i2"], [], alert), out) ==>
      out.cells == [Cell(1, "a", "m1", "i1"), Cell(1, "b", "m2", "i2")]
  {
  }
}
