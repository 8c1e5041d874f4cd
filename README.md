# Stage editor and connection bar of a document-database GUI client

This project models two front-end components of a desktop client for a
MongoDB-style document database, and proves properties of the model.

- **Aggregation tab** (`aggregate_tab.dfy`, module `AggregateTab`). The tab keeps
  two lists that share an index: the pipeline stages the user edits, each with
  a collapsed flag, an operation and a JSON body, and one result panel per
  stage, each with a loading flag and its documents. It also keeps a sample
  count. The class `AggregateTabState` holds this state and has one method per
  handler:
  - sample count
  - Refresh
  - Collapse/Expand
  - operation pick
  - body edit
  - Delete
  - "+"
  - Add stage

  Refresh does not run queries. It returns the calls it issues to the external
  aggregate function, one per stage. Call `idx` carries the stages `0..idx`.
- **Connection bar** (`mongodb_url_bar.dfy`, module `MongoDbUrlBar`). The
  connection parameters, the load status, the catalog and the selection form
  one record, `UrlBarState`. Each handler is a function from the old record to
  the new one. The code that connects is split at its `await`:
  `ConnectStarted` is the update made first, and `ConnectSucceeded` or
  `ConnectFailed` the update made when the external call answers (the answer is
  a supplied `ConnectOutcome`). `ConnectEffect` puts the two together.
  Selecting a collection also resets three other views: the documents view's
  status, the schema view's status, and every aggregate result panel. `Inv` is
  an invariant of the record. `RunKeepsInv` proves that `Inv` holds after any
  sequence of events, including connect answers that arrive between user edits.
- `array_ops.dfy` (module `ArrayOps`) models filtering a list with a
  predicate on each element's index. The tab uses that pattern to delete, split
  and take prefixes. `types.dfy` (module `Types`) holds the shared records.

A disabled control, or one that is not rendered, raises no event. The model
writes this as "no change": the Delete or Collapse button of a loading row,
Refresh and the sample count while any row is loading, the Connect button while
LOADING, the database select unless a non-empty catalog is loaded, the
collection select unless a database name is chosen, and the body editor of a
collapsed row.

Three behaviours of the code that are easy to misread, and one detail of its operation list:
- Picking a database does not clear the collection name (`SelectDatabase`
  keeps it).
- Refresh passes whole stage records, collapsed flag included, and not just
  the operation and body.
- The connect effect fires whenever url, port or status change and its guard
  holds (`ShouldConnect`). It is not tied to a transition into UNLOADED.
- The operation list is kept as written, including the entries `$replaceWidth`
  and `$unionWidth`.

## Model

| member | source | states |
|---|---|---|
| `ArrayOps.FilterByIndex` | src/components/AggregateTab.tsx:283 | filtering by index never lengthens the list |
| `ArrayOps.FilterKeepsPrefix` | src/components/AggregateTab.tsx:172 | keeping the indices up to k gives exactly the prefix ending at index k (the whole list when k is past the end) |
| `ArrayOps.FilterDropsPrefix` | src/components/AggregateTab.tsx:298-300 | keeping the indices after k gives exactly the suffix after index k (empty when k is past the end) |
| `ArrayOps.FilterDropsIndex` | src/components/AggregateTab.tsx:283 | keeping every index but r removes index r and keeps the order of the rest; an out-of-range r changes nothing |
| `AggregateTab.ClampSampleCount` | src/components/AggregateTab.tsx:159 | the stored count is `max(0, n)`: never negative, never below n, and either n or 0 |
| `AggregateTab.DeleteRow` | src/components/AggregateTab.tsx:282-287 | in range: one shorter, earlier entries kept, later entries shifted left by one; out of range: unchanged |
| `AggregateTab.InsertAfter` | src/components/AggregateTab.tsx:294-326 | result is `s[..rowIdx+1] + [x] + s[rowIdx+1..]`; one longer; x at rowIdx+1; earlier entries kept, later ones shifted right; past the end it appends |
| `AggregateTab.DeleteRowKeepsRowsPaired` | src/components/AggregateTab.tsx:282-287 | deleting the same index from two aligned lists keeps them aligned and removes exactly that row of input/output pairs |
| `AggregateTab.InsertAfterKeepsRowsPaired` | src/components/AggregateTab.tsx:294-326 | inserting after the same index in two aligned lists keeps them aligned and inserts exactly one new row of pairs |
| `AggregateTab.AppendKeepsRowsPaired` | src/components/AggregateTab.tsx:415-435 | appending to two aligned lists appends exactly one row of pairs |
| `AggregateTab.CanonicalBodyIdempotent` | src/components/AggregateTab.tsx:339-350 | if printing a value that parsing produced and parsing it again gives back that value, canonicalising a body twice equals canonicalising it once |
| `AggregateTab.AggregateTabState.constructor` | src/components/AggregateTab.tsx:51-64 | initial state: one default `$match` stage with body `{}`, expanded; one empty, non-loading result panel; sample count 2 |
| `AggregateTab.AggregateTabState.SetSampleCount` | src/components/AggregateTab.tsx:155-160 | while no row is loading, the count becomes `max(0, n)`; while one is loading, the count is unchanged; the lists are never changed |
| `AggregateTab.AggregateTabState.Refresh` | src/components/AggregateTab.tsx:166-181 | exactly one call per stage; call idx has that idx, the sample count, database and collection, and the first idx+1 stages in order; no calls while a row is loading |
| `AggregateTab.AggregateTabState.ToggleCollapsed` | src/components/AggregateTab.tsx:231-240 | flips only the collapsed flag of row rowIdx (no change while the row is loading); other rows, the outputs and the count are unchanged |
| `AggregateTab.AggregateTabState.PickOperation` | src/components/AggregateTab.tsx:255-263 | sets only the operation of row rowIdx to the picked name; everything else is unchanged |
| `AggregateTab.AggregateTabState.EditBody` | src/components/AggregateTab.tsx:338-350 | row rowIdx's body becomes the reprinted parse of the text when it parses, else the text verbatim; nothing else changes; no change on a collapsed row |
| `AggregateTab.AggregateTabState.DeleteStage` | src/components/AggregateTab.tsx:279-287 | both lists lose index rowIdx (out of range: unchanged); alignment is preserved and the rows stay paired; no change while the row loads |
| `AggregateTab.AggregateTabState.InsertStageAfter` | src/components/AggregateTab.tsx:292-326 | both lists get a default entry right after rowIdx; alignment is preserved and the new row is a default input paired with a default output |
| `AggregateTab.AggregateTabState.AddStage` | src/components/AggregateTab.tsx:413-435 | both lists grow by one, existing entries unchanged, the new entries are the defaults; alignment is preserved |
| `AggregateTab.AddStageThenRefresh` | src/components/AggregateTab.tsx:166-181 | from the initial tab, with count -3 stored as 0, then Add stage and count 5: Refresh issues exactly two calls, with one and then two default stages |
| `MongoDbUrlBar.InitialStateConnects` | src/components/MongoDbUrlBar.tsx:21-29 | the initial record satisfies the invariant and lets the connect effect fire on mount |
| `MongoDbUrlBar.ConnectStarted` | src/components/MongoDbUrlBar.tsx:68-76 | both statuses LOADING; catalog, database and collection cleared; url and port kept; the effect cannot fire again |
| `MongoDbUrlBar.ConnectSucceeded` | src/components/MongoDbUrlBar.tsx:82-87 | both statuses LOADED and the catalog is the returned one; url, port and selection keep their values |
| `MongoDbUrlBar.ConnectFailed` | src/components/MongoDbUrlBar.tsx:88-90 | the whole record is replaced by the initial record |
| `MongoDbUrlBar.ConnectEffect` | src/components/MongoDbUrlBar.tsx:64-95 | no change unless url is non-empty, port is non-zero and status is UNLOADED; otherwise the result is connected with the returned catalog and no selection, or the initial record on failure; keeps the invariant |
| `MongoDbUrlBar.ClickConnect` | src/components/MongoDbUrlBar.tsx:168-180 | no change while LOADING; otherwise only status becomes UNLOADED, which lets the effect fire again exactly when url and port are set |
| `MongoDbUrlBar.EditUrl` | src/components/MongoDbUrlBar.tsx:137-142 | only the url changes; the effect will fire exactly when the new url is non-empty, port non-zero and status UNLOADED |
| `MongoDbUrlBar.EditPort` | src/components/MongoDbUrlBar.tsx:152-157 | only the port changes; the effect will fire exactly when url is non-empty, the new port non-zero and status UNLOADED |
| `MongoDbUrlBar.SelectDatabase` | src/components/MongoDbUrlBar.tsx:235-243 | with a loaded non-empty catalog, only the database name changes; the collection name is never cleared |
| `MongoDbUrlBar.InvalidateStageOutputs` | src/components/MongoDbUrlBar.tsx:269-274 | every result panel gets status UNLOADED and keeps its loading flag and documents; same length and order |
| `MongoDbUrlBar.SelectCollection` | src/components/MongoDbUrlBar.tsx:256-279 | with a database chosen: sets the collection name only, and resets the documents view, the schema view and every result panel to UNLOADED |
| `MongoDbUrlBar.StepKeepsInv` | src/components/MongoDbUrlBar.tsx:64-279 | every event keeps the invariant and the number of aggregate result panels |
| `MongoDbUrlBar.RunKeepsInv` | src/components/MongoDbUrlBar.tsx:64-279 | any sequence of events, with connect answers arriving at any point, keeps the invariant and the number of result panels |
| `MongoDbUrlBar.EditsWhileLoadingAreInert` | src/components/MongoDbUrlBar.tsx:66 | while LOADING, url or port edits do not start another connect |
| `MongoDbUrlBar.FailedConnectDiscardsEdits` | src/components/MongoDbUrlBar.tsx:88-90 | a failed connect after a url edit restores url `localhost` and port 27017 |
| `MongoDbUrlBar.RefreshReconnects` | src/components/MongoDbUrlBar.tsx:175-179 | Refresh on a connected bar reconnects with the same url and port, replaces the catalog and clears the selection |

## Left out

- Rendering is not modelled: layout, styles, `useWindowDimensions`, the JSON tree viewer, spinners, and the "No documents found" and "No databases available" branches.
- `handleSubmit` form validation is not modelled, because it depends on the browser's `checkValidity`.
- The internals of the external aggregate and connect calls are not modelled. Refresh returns the calls it would issue, and the connect answer is a parameter. The loading-flag updates that the aggregate call performs are not modelled.
- Asynchronous interleaving is not modelled: per-stage queries completing out of order, and stale answers landing after a delete or insert. `RunKeepsInv` lets a connect answer arrive at any point, which over-approximates the single connect call in flight.
- `JSON.parse` and `JSON.stringify` are parameters of `EditBody` and `CanonicalBody`. Their semantics are not modelled, and idempotence is proved only under a stated round-trip hypothesis on the values that parsing returns. JSON numbers are integers: floating point is not modelled.
- `parseInt` returning NaN is not modelled: the sample count and the port arrive as integers.
- `cloneDeep` needs no model, because Dafny sequences and records are values.
- The Info and Metric buttons, and the `ServerInfo` and `ServerMetric` subcomponents, are not modelled. They only open other views.
- The extra key `collectionsState` that the connect start writes is not modelled. It is not a field of the declared record and no code shown reads it.
- `console.log` and `console.error` are not modelled.
- src/types.ts is not part of this model. `ValueState`, `StageInput`, `StageOutput` and `DatabaseSpecification` carry only the fields the two components use.
- `AggregateTab.AggregateTabState.ToggleCollapsed`, `PickOperation` and `EditBody` require `rowIdx < |stagesInput|`. The control exists only for a rendered row, and an index past the end would throw in the source (`copy[rowIdx]` is undefined).
