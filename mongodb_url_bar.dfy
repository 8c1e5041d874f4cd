/** The connection bar: the connection parameters, the load status, the
    catalog returned by the connect call and the database/collection
    selection. Every handler is a record update; the connect call itself is
    external and its outcome is supplied. */
module MongoDbUrlBar {
  import opened Types

  /** MongodbUrlBarProps. `None` stands for `undefined`. */
  datatype UrlBarState = UrlBarState(
    url: string,
    port: int,
    status: ValueState,
    databases: map<string, DatabaseSpecification>,
    databasesState: ValueState,
    databaseName: Option<string>,
    collectionName: Option<string>)

  /** MONGODB_URL_BAR_INITIAL_STATE. */
  const InitialState: UrlBarState :=
    UrlBarState("localhost", 27017, Unloaded, map[], Unloaded, None, None)

  /** What the external connect call does: resolve with a catalog, or reject. */
  datatype ConnectOutcome = Connected(catalog: map<string, DatabaseSpecification>) | Failed

  /** The cached states of the other views that a collection select resets. */
  datatype Dependents = Dependents(
    documentsStatus: ValueState,
    schemaStatus: ValueState,
    stagesOutput: seq<StageOutput>)

  /** The connect effect acts only with a non-empty url, a non-zero port, and status UNLOADED. */
  predicate ShouldConnect(s: UrlBarState)
  {
    s.url != "" && s.port != 0 && s.status == Unloaded
  }

  /** What every transition keeps: LOADING is shared by the two statuses and
      means the catalog and the selection are cleared; a LOADED status implies a
      loaded catalog; a non-empty catalog is a loaded one. */
  predicate Inv(s: UrlBarState)
  {
    && (s.status == Loading <==> s.databasesState == Loading)
    && (s.status == Loaded ==> s.databasesState == Loaded)
    && (s.status == Loading ==> s.databases == map[] && s.databaseName == None && s.collectionName == None)
    && (s.databases != map[] ==> s.databasesState == Loaded)
  }

  /** The initial state satisfies the invariant, and the connect effect fires on it at mount. */
  lemma InitialStateConnects()
    ensures Inv(InitialState)
    ensures ShouldConnect(InitialState)
  {
  }

  /** The update the effect makes before awaiting the connect call. */
  function ConnectStarted(s: UrlBarState): (r: UrlBarState)
    ensures r.status == Loading && r.databasesState == Loading
    ensures r.databases == map[] && r.databaseName == None && r.collectionName == None
    ensures r.url == s.url && r.port == s.port
    ensures Inv(r) && !ShouldConnect(r)
  {
    s.(status := Loading, databases := map[], databasesState := Loading,
       databaseName := None, collectionName := None)
  }

  /** The update made when the connect call resolves with `catalog`. */
  function ConnectSucceeded(s: UrlBarState, catalog: map<string, DatabaseSpecification>): (r: UrlBarState)
    ensures r.status == Loaded && r.databasesState == Loaded && r.databases == catalog
    ensures r.url == s.url && r.port == s.port
    ensures r.databaseName == s.databaseName && r.collectionName == s.collectionName
    ensures Inv(r) && !ShouldConnect(r)
  {
    s.(status := Loaded, databases := catalog, databasesState := Loaded)
  }

  /** The update made when the connect call rejects: the whole state is replaced. */
  function ConnectFailed(s: UrlBarState): (r: UrlBarState)
    ensures r == InitialState
  {
    InitialState
  }

  /** The connect effect run to completion with the call's answer `connect(url, port)`. */
  function ConnectEffect(s: UrlBarState, connect: (string, int) -> ConnectOutcome): (r: UrlBarState)
    ensures !ShouldConnect(s) ==> r == s
    ensures ShouldConnect(s) && connect(s.url, s.port).Connected? ==>
      && r.status == Loaded && r.databasesState == Loaded
      && r.databases == connect(s.url, s.port).catalog
      && r.url == s.url && r.port == s.port
      && r.databaseName == None && r.collectionName == None
    ensures ShouldConnect(s) && connect(s.url, s.port).Failed? ==> r == InitialState
    ensures Inv(s) ==> Inv(r)
  {
    if ShouldConnect(s) then
      var loading := ConnectStarted(s);
      match connect(s.url, s.port)
      case Connected(catalog) => ConnectSucceeded(loading, catalog)
      case Failed => ConnectFailed(loading)
    else
      s
  }

  /** The Connect / Refresh button, disabled while LOADING: forces status back
      to UNLOADED, which re-enters the connect effect when url and port are set. */
  function ClickConnect(s: UrlBarState): (r: UrlBarState)
    ensures s.status == Loading ==> r == s
    ensures s.status != Loading ==> r.status == Unloaded && r == s.(status := r.status)
    ensures s.status != Loading ==> (ShouldConnect(r) <==> s.url != "" && s.port != 0)
    ensures Inv(s) ==> Inv(r)
  {
    if s.status == Loading then s else s.(status := Unloaded)
  }

  /** The url input: changes only the url. */
  function EditUrl(s: UrlBarState, url: string): (r: UrlBarState)
    ensures r.url == url && r == s.(url := r.url)
    ensures ShouldConnect(r) <==> url != "" && s.port != 0 && s.status == Unloaded
    ensures Inv(s) ==> Inv(r)
  {
    s.(url := url)
  }

  /** The port input (its text already parsed to an integer): changes only the port. */
  function EditPort(s: UrlBarState, port: int): (r: UrlBarState)
    ensures r.port == port && r == s.(port := r.port)
    ensures ShouldConnect(r) <==> s.url != "" && port != 0 && s.status == Unloaded
    ensures Inv(s) ==> Inv(r)
  {
    s.(port := port)
  }

  /** The database select is rendered only for a loaded, non-empty catalog. */
  predicate DatabaseSelectShown(s: UrlBarState)
  {
    s.databasesState == Loaded && s.databases != map[]
  }

  /** Picking `name` in the database select: sets only the database name;
      the collection name is left as it was. */
  function SelectDatabase(s: UrlBarState, name: string): (r: UrlBarState)
    ensures !DatabaseSelectShown(s) ==> r == s
    ensures DatabaseSelectShown(s) ==> r.databaseName == Some(name) && r == s.(databaseName := r.databaseName)
    ensures r.collectionName == s.collectionName
    ensures Inv(s) ==> Inv(r)
  {
    if DatabaseSelectShown(s) then s.(databaseName := Some(name)) else s
  }

  /** The collection select is rendered only when a (non-empty) database name is chosen. */
  predicate CollectionSelectShown(s: UrlBarState)
  {
    s.databaseName.Some? && s.databaseName.value != ""
  }

  /** Every aggregate result panel gets `status: UNLOADED`, keeping its loading
      flag, its documents, and the order and number of panels. */
  function InvalidateStageOutputs(outputs: seq<StageOutput>): (r: seq<StageOutput>)
    ensures |r| == |outputs|
    ensures forall i :: 0 <= i < |r| ==>
      && r[i].status == Some(Unloaded)
      && r[i].loading == outputs[i].loading
      && r[i].documents == outputs[i].documents
  {
    seq(|outputs|, i requires 0 <= i < |outputs| => outputs[i].(status := Some(Unloaded)))
  }

  /** Picking `name` in the collection select: sets the collection name and
      resets the documents view, the schema view and every aggregate result panel to UNLOADED. */
  function SelectCollection(s: UrlBarState, d: Dependents, name: string): (r: (UrlBarState, Dependents))
    ensures !CollectionSelectShown(s) ==> r == (s, d)
    ensures CollectionSelectShown(s) ==>
      && r.0.collectionName == Some(name) && r.0 == s.(collectionName := r.0.collectionName)
      && r.1.documentsStatus == Unloaded && r.1.schemaStatus == Unloaded
      && r.1.stagesOutput == InvalidateStageOutputs(d.stagesOutput)
    ensures |r.1.stagesOutput| == |d.stagesOutput|
    ensures Inv(s) ==> Inv(r.0)
  {
    if CollectionSelectShown(s) then
      (s.(collectionName := Some(name)),
       Dependents(Unloaded, Unloaded, InvalidateStageOutputs(d.stagesOutput)))
    else
      (s, d)
  }

  /** The connection bar together with the view states it invalidates. */
  datatype Session = Session(bar: UrlBarState, dependents: Dependents)

  /** One thing that can happen to the connection bar. The connect effect is
      split at its await: `EffectRan` is the effect firing (after a change of
      url, port or status), `ConnectResolved` the answer arriving. */
  datatype Event =
    | EffectRan
    | ConnectResolved(outcome: ConnectOutcome)
    | ConnectClicked
    | UrlEdited(url: string)
    | PortEdited(port: int)
    | DatabaseSelected(database: string)
    | CollectionSelected(collection: string)

  function Step(s: Session, e: Event): Session
  {
    match e
    case EffectRan => if ShouldConnect(s.bar) then s.(bar := ConnectStarted(s.bar)) else s
    case ConnectResolved(outcome) =>
      (match outcome
       case Connected(catalog) => s.(bar := ConnectSucceeded(s.bar, catalog))
       case Failed => s.(bar := ConnectFailed(s.bar)))
    case ConnectClicked => s.(bar := ClickConnect(s.bar))
    case UrlEdited(url) => s.(bar := EditUrl(s.bar, url))
    case PortEdited(port) => s.(bar := EditPort(s.bar, port))
    case DatabaseSelected(database) => s.(bar := SelectDatabase(s.bar, database))
    case CollectionSelected(collection) =>
      var r := SelectCollection(s.bar, s.dependents, collection);
      Session(r.0, r.1)
  }

  function Run(s: Session, events: seq<Event>): Session
    decreases |events|
  {
    if events == [] then s else Run(Step(s, events[0]), events[1..])
  }

  /** Each event keeps the invariant and the number of aggregate result panels. */
  lemma StepKeepsInv(s: Session, e: Event)
    requires Inv(s.bar)
    ensures Inv(Step(s, e).bar)
    ensures |Step(s, e).dependents.stagesOutput| == |s.dependents.stagesOutput|
  {
  }

  /** Any sequence of events, including connect answers that arrive between
      user edits, keeps the invariant and the number of aggregate result panels. */
  lemma {:induction false} RunKeepsInv(s: Session, events: seq<Event>)
    requires Inv(s.bar)
    ensures Inv(Run(s, events).bar)
    ensures |Run(s, events).dependents.stagesOutput| == |s.dependents.stagesOutput|
    decreases |events|
  {
    if events != [] {
      StepKeepsInv(s, events[0]);
      RunKeepsInv(Step(s, events[0]), events[1..]);
    }
  }

  /** While LOADING, editing the url or the port does not start another connect. */
  lemma EditsWhileLoadingAreInert(s: UrlBarState, url: string, port: int, connect: (string, int) -> ConnectOutcome)
    requires s.status == Loading
    ensures ConnectEffect(EditUrl(s, url), connect) == EditUrl(s, url)
    ensures ConnectEffect(EditPort(s, port), connect) == EditPort(s, port)
  {
  }

  /** A failed connect throws away the url and port the user typed. */
  lemma FailedConnectDiscardsEdits(s: UrlBarState, url: string, connect: (string, int) -> ConnectOutcome)
    requires ShouldConnect(EditUrl(s, url)) && connect(url, s.port) == Failed
    ensures ConnectEffect(EditUrl(s, url), connect).url == "localhost"
    ensures ConnectEffect(EditUrl(s, url), connect).port == 27017
  {
  }

  /** Refresh after a successful connect reconnects with the same url and port,
      replaces the catalog and clears the selection. */
  lemma RefreshReconnects(s: UrlBarState, connect: (string, int) -> ConnectOutcome)
    requires Inv(s) && s.status == Loaded && s.url != "" && s.port != 0
    requires connect(s.url, s.port).Connected?
    ensures ConnectEffect(ClickConnect(s), connect)
         == s.(databases := connect(s.url, s.port).catalog, databaseName := None, collectionName := None)
  {
  }
}
