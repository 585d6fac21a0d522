# TestGrid grid-state API core, modelled in Dafny

This project models the core of TestGrid's v1 grid-state API (`pkg/api/v1/state.go`):

- **Run-length decoding** (`decodeRLE`). A row's results are stored as a flat `[value, count, …]` list of
  int32s. `Codec.DecodeRLE` is the nested append loop. It is proved equal to `Codec.Decode`, a recursive
  definition. Lemmas about `Decode` give pair order, the output length and the round trip with a greedy
  run-length encoder.
- **Name resolution** (`findDashboardTab`). A requested dashboard and tab are normalized and looked up in the
  cached configuration's normalized indexes. The test group then comes from the dashboard's tab list. The
  three failure tiers return different amounts of the identity. `config.Normalize` is a parameter
  `normalize: string -> string`, so it is total and deterministic but otherwise unknown.
- **Grid location and loading** (`Grid`, and the common first half of `ListHeaders` and `ListRows`). An empty
  tab-path prefix selects the per-test-group layout. Fetching is an abstract function from a location to an
  answer: failed, nil grid, or a grid.
- **Projection.** The header loop of `ListHeaders` copies four fields per column. The row and cell loops of
  `ListRows` zip decoded result `i` with `CellIds[i]`, `Messages[i]` and `Icons[i]`.

Files: `wrappers.dfy` (Option, Result), `codec.dfy`, `name_index.dfy`, `grid_service.dfy`.

The code does not report malformed encodings or malformed rows; the model follows it:

- An odd-length encoding decodes to an empty list. No error is signalled.
- A row whose decoded results, messages or icons are shorter than its cell ids is not reported as malformed.
  The code indexes out of bounds there. The model therefore makes `GridService.RowFits` a precondition of
  the projection. `GridService.WellFormedRowFits` proves that rows whose counts sum to the number of cell ids, and whose
  messages and icons have that length, satisfy it.
  `GridService.OddResultsNeverFit` shows that an odd-length encoding fails it as soon as the row has a cell.
- Surplus decoded results, messages and icons beyond the number of cell ids are silently dropped: the cell
  loop runs only up to the number of cell ids, and `GridService.RowFits` asks only for "at least as long".
- A missing `Dashboards[dashboardName]` entry is dereferenced without a check. `NameIndex.LookupDerefs`
  is the matching precondition of the lookup. `NameIndex.ConsistentIndexesResolveGroups` shows that a
  snapshot with consistent indexes always meets it.

## Model

| member | source | states |
|---|---|---|
| `Codec.DecodeRLE` | pkg/api/v1/state.go:96-109 | the append loop yields exactly `Decode(encoded)`; an odd-length input yields the empty list |
| `Codec.Decode` | pkg/api/v1/state.go:100-108 | an odd-length input decodes to nothing; no partial decoding happens |
| `Codec.DecodeConcat` | pkg/api/v1/state.go:102-106 | decoding an even-length concatenation is the concatenation of the decodings, so pairs expand in order |
| `Codec.DecodeFirstPair` | pkg/api/v1/state.go:102-105 | the first pair `(value, count)` becomes a run of `max(count, 0)` copies of `value` in front of the rest's decoding |
| `Codec.DecodeLength` | pkg/api/v1/state.go:100-104 | the decoded length is the sum over pairs of `max(count, 0)`, and 0 for odd input; zero or negative counts add nothing |
| `Codec.DecodeExample` | pkg/api/v1/state.go:96-97 | `[0, 3, 5, 4]` decodes to `[0, 0, 0, 5, 5, 5, 5]` |
| `Codec.DecodeEncode` | pkg/api/v1/state.go:96-109 | every int32 sequence is the decoding of its greedy run-length encoding (counts positive and within int32) |
| `NameIndex.FirstTestGroup` | pkg/api/v1/state.go:57-61 | finds the test group of the first tab with the given name, and finds none exactly when no tab has that name |
| `NameIndex.FindDashboardTab` | pkg/api/v1/state.go:39-64 | each tier fails exactly when it should: no config or unknown dashboard gives three empty names; unknown tab gives only the canonical dashboard; on success the names are the canonical ones and the group is the first matching tab's; no matching tab gives an empty group |
| `NameIndex.ResolutionIsNormalized` | pkg/api/v1/state.go:45-52 | inputs with the same normalized keys resolve to the same result |
| `NameIndex.ConsistentIndexesResolveGroups` | pkg/api/v1/state.go:48-63 | when every indexed dashboard and tab exists, the lookup is defined and never fails with "test group not found" |
| `GridService.LocationOf` | pkg/api/v1/state.go:85-93 | an empty tab-path prefix selects the test-group layout (grid prefix and group name); otherwise the tab layout (tab prefix, dashboard, tab) |
| `GridService.LoadGrid` | pkg/api/v1/state.go:188-199 | a lookup error is passed through; otherwise a failed fetch gives "dashboard or tab not found" for the raw request names, a nil grid gives "grid not found", and success returns the fetched grid |
| `GridService.ProjectHeaders` | pkg/api/v1/state.go:136-153 | one header per column, in order, with name, build, extra and hotlist ids copied |
| `GridService.ProjectRow` | pkg/api/v1/state.go:205-222 | the row keeps name, issues and alert; it has one cell per cell id; cell `j` holds decoded result `j`, cell id `j`, message `j` and icon `j` |
| `GridService.ProjectRows` | pkg/api/v1/state.go:201-224 | one response row per grid row, in order, each projected as above |
| `GridService.ListHeaders` | pkg/api/v1/state.go:123-154 | loading errors are returned unchanged; otherwise the headers are the column projection of the loaded grid |
| `GridService.ListRows` | pkg/api/v1/state.go:188-225 | loading errors are returned unchanged; otherwise the rows are the row projection of the loaded grid |
| `GridService.WellFormedRowFits` | pkg/api/v1/state.go:205-220 | an even-length encoding whose counts sum to the number of cell ids, with messages and icons of that length, meets the projection's precondition |
| `GridService.OddResultsNeverFit` | pkg/api/v1/state.go:212-216 | a row with an odd-length encoding and at least one cell id cannot be projected |
| `GridService.TwoCellRowExample` | pkg/api/v1/state.go:212-221 | results `[1, 2]` with two cell ids, messages and icons give the cells `(1, a, m1, i1)` and `(1, b, m2, i2)` |

## Left out

- The `Started` timestamp conversion (float64 division and `math.Mod`) is floating-point numerics. Column and header carry no start time.
- `getConfig`, the configuration mutex and `context.WithTimeout` deal with concurrency and deadlines. The model starts from an already obtained snapshot, and a getConfig error is not modelled.
- `s.configPath`, `ResolveReference`, `path.Join`, `tabulator.TabStatePath` and `gcs.DownloadGrid` are foreign calls. They are folded into the abstract `fetch` function, and any of their errors is `FetchFailed`. Path strings are not built.
- `config.Normalize` internals are not part of this model; normalization is a parameter.
- The HTTP handlers `ListHeadersHTTP` and `ListRowsHTTP` are transport plumbing.
- Error messages are modelled as error kinds with the names they mention. The formatted text is not modelled.
- Go slices shared between the grid and the response (`Extra`, `Issues`) are modelled as values, so aliasing is not captured.
- `Codec.Encode` and `Codec.HeadRun` are not in the repository. They exist only as the partner of the round-trip lemma.
