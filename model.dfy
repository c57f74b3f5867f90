/** The values the bootstrap of a Lealone server works on: the configuration
    and its engine descriptors, the engines, the four engine registries, the
    process-wide property store, and the trace of the calls the bootstrap makes
    into its collaborators (class loading, engine init, database and cluster
    initialisation, server start). */
module Model {
  import opened JavaString

  datatype Option<+T> = None | Some(value: T)

  /** Map.get: the value under a key, or None (Java's null) when the key is absent. */
  function Get<K, V>(m: map<K, V>, k: K): Option<V> {
    if k in m then Some(m[k]) else None
  }

  /** The four kinds of pluggable engine. */
  datatype Category = Storage | Transaction | Sql | ProtocolServer

  /** Position of a category in the fixed initialisation order
      storage -> transaction -> sql -> protocol_server. */
  function Rank(c: Category): nat {
    match c
    case Storage => 0
    case Transaction => 1
    case Sql => 2
    case ProtocolServer => 3
  }

  /** An engine instance: the name it reports through getName() and the engine
      interface (StorageEngine, TransactionEngine, ...) its class implements. */
  datatype Engine = Engine(name: string, kind: Category)

  type Parameters = map<string, string>

  /** A PluggableEngineDef: a name (None for a null name), the enabled flag and the
      parameter map that the bootstrap may extend. */
  datatype Descriptor = Descriptor(name: Option<string>, enabled: bool, parameters: Parameters)

  /** The loaded Config. A null descriptor list behaves as an empty one and is modelled as one. */
  datatype Config = Config(
    baseDir: Option<string>,
    listenAddress: Option<string>,
    storageEngines: seq<Descriptor>,
    transactionEngines: seq<Descriptor>,
    sqlEngines: seq<Descriptor>,
    protocolServerEngines: seq<Descriptor>)
  {
    /** The descriptor list of one category. */
    function Engines(cat: Category): seq<Descriptor> {
      match cat
      case Storage => storageEngines
      case Transaction => transactionEngines
      case Sql => sqlEngines
      case ProtocolServer => protocolServerEngines
    }

    /** The configuration with one category's descriptor list replaced. */
    function WithEngines(cat: Category, ds: seq<Descriptor>): (c: Config)
      ensures c.Engines(cat) == ds
      ensures forall other :: other != cat ==> c.Engines(other) == Engines(other)
      ensures c.baseDir == baseDir && c.listenAddress == listenAddress
    {
      match cat
      case Storage => this.(storageEngines := ds)
      case Transaction => this.(transactionEngines := ds)
      case Sql => this.(sqlEngines := ds)
      case ProtocolServer => this.(protocolServerEngines := ds)
    }
  }

  /** Replacing one category's list twice keeps only the second replacement. */
  lemma WithEnginesTwice(c: Config, cat: Category, first: seq<Descriptor>, second: seq<Descriptor>)
    ensures c.WithEngines(cat, first).WithEngines(cat, second) == c.WithEngines(cat, second)
  {
  }

  /** Replacing a category's list by itself changes nothing. */
  lemma WithEnginesSame(c: Config, cat: Category)
    ensures c.WithEngines(cat, c.Engines(cat)) == c
  {
  }

  /** Class loading by name followed by newInstance(): the engine a class name
      instantiates to. A name that is not a key stands for any exception. */
  type Loader = map<string, Engine>

  /** Utils.loadUserClass(name).newInstance() and the cast to the category's engine
      interface; None when any of the three throws. */
  function Instantiate(loader: Loader, cat: Category, name: string): Option<Engine> {
    if name in loader && loader[name].kind == cat then Some(loader[name]) else None
  }

  /** The four engine managers' name -> engine tables. */
  datatype Registries = Registries(
    storage: map<string, Engine>,
    transaction: map<string, Engine>,
    sql: map<string, Engine>,
    protocolServer: map<string, Engine>)
  {
    function Of(cat: Category): map<string, Engine> {
      match cat
      case Storage => storage
      case Transaction => transaction
      case Sql => sql
      case ProtocolServer => protocolServer
    }

    /** registerEngine: the engine is stored under its own declared name. */
    function Register(cat: Category, e: Engine): (r: Registries)
      ensures e.name in r.Of(cat) && r.Of(cat)[e.name] == e
      ensures forall n :: n != e.name ==> Get(r.Of(cat), n) == Get(Of(cat), n)
      ensures forall other :: other != cat ==> r.Of(other) == Of(other)
    {
      match cat
      case Storage => this.(storage := storage[e.name := e])
      case Transaction => this.(transaction := transaction[e.name := e])
      case Sql => this.(sql := sql[e.name := e])
      case ProtocolServer => this.(protocolServer := protocolServer[e.name := e])
    }
  }

  /** The calls the bootstrap makes into code outside the model, in the order made. */
  datatype Event =
    | SetBaseDir(dir: string)                                   // SysProperties.setBaseDir
    | Lookup(cat: Category, name: string)                       // <Category>EngineManager.getEngine during resolution
    | Load(cat: Category, name: string)                         // Utils.loadUserClass + newInstance
    | Register(cat: Category, engine: Engine)                   // <Category>EngineManager.registerEngine
    | InitEngine(cat: Category, engine: Engine, parameters: Parameters) // PluggableEngine.init
    | DatabaseInit                                              // LealoneDatabase.getInstance()
    | ClusterInit                                               // ClusterMetaData.init
    | StartServer(engine: Engine, parameters: Parameters)       // ProtocolServer.start

  /** The bootstrap stage an event belongs to. */
  function Phase(e: Event): nat {
    match e
    case SetBaseDir(_) => 0
    case Lookup(c, _) => 1 + Rank(c)
    case Load(c, _) => 1 + Rank(c)
    case Register(c, _) => 1 + Rank(c)
    case InitEngine(c, _, _) => 1 + Rank(c)
    case DatabaseInit => 5
    case ClusterInit => 6
    case StartServer(_, _) => 7
  }

  /** Every event of t from index n on belongs to a stage no earlier than the one before it. */
  ghost predicate OrderedFrom(t: seq<Event>, n: nat) {
    forall i, j :: n <= i < j < |t| ==> Phase(t[i]) <= Phase(t[j])
  }

  /** Every event of t from index n on belongs to a stage between lo and hi. */
  ghost predicate PhasesWithin(t: seq<Event>, n: nat, lo: nat, hi: nat) {
    forall i :: n <= i < |t| ==> lo <= Phase(t[i]) <= hi
  }

  /** The kinds of collaborator call whose number the bootstrap bounds. */
  datatype Kind = InitOf(cat: Category) | DatabaseCall | ClusterCall | StartCall

  predicate OfKind(e: Event, k: Kind) {
    match k
    case InitOf(c) => e.InitEngine? && e.cat == c
    case DatabaseCall => e.DatabaseInit?
    case ClusterCall => e.ClusterInit?
    case StartCall => e.StartServer?
  }

  /** The number of events of kind k in t. */
  function Count(t: seq<Event>, k: Kind): nat {
    if t == [] then 0 else Count(t[..|t| - 1], k) + (if OfKind(t[|t| - 1], k) then 1 else 0)
  }

  /** The declared name of the engine of the first InitEngine event of category cat in t. */
  function FirstInitName(t: seq<Event>, cat: Category): Option<string> {
    if t == [] then None
    else if t[0].InitEngine? && t[0].cat == cat then Some(t[0].engine.name)
    else FirstInitName(t[1..], cat)
  }

  /** Everything the bootstrap changes besides the configuration. */
  datatype World = World(registries: Registries, properties: map<string, string>, trace: seq<Event>)
  {
    function Log(e: Event): World {
      this.(trace := trace + [e])
    }

    function Register(cat: Category, e: Engine): World {
      this.(registries := registries.Register(cat, e), trace := trace + [Event.Register(cat, e)])
    }
  }

  /** The ConfigExceptions (and the NullPointerException at server start) the bootstrap raises. */
  datatype Error =
    | BaseDirMissing                              // the ConfigException of initBaseDir
    | NameMissing(cat: Category)                  // the ConfigException of checkName
    | EngineNotFound(cat: Category, name: string) // the ConfigException built by newConfigException
    | ServerEngineMissing(server: Option<string>) // getEngine(def.name) returned null at start

  const BASE_DIR_KEY: string := "base_dir"
  const HOST_KEY: string := "host"
  /** Constants.DEFAULT_TRANSACTION_ENGINE_NAME. */
  const DEFAULT_TRANSACTION_ENGINE_NAME: string := "AMTE"
  /** P2pServerEngine.NAME. */
  const P2P_ENGINE_NAME: string := "P2P"

  /** The property holding a category's default engine; protocol servers have none. */
  function DefaultEngineKey(cat: Category): Option<string> {
    match cat
    case Storage => Some("default.storage.engine")
    case Transaction => Some("default.transaction.engine")
    case Sql => Some("default.sql.engine")
    case ProtocolServer => None
  }

  /** initBaseDir's test: null and "" are refused; no trimming, so " " is accepted. */
  predicate ValidBaseDir(d: Option<string>) {
    d.Some? && d.value != ""
  }

  /** checkName: a null name or one that trims to "" is a configuration error. */
  function CheckName(cat: Category, d: Descriptor): (r: Option<Error>)
    ensures r.None? <==> d.name.Some? && exists i :: 0 <= i < |d.name.value| && d.name.value[i] > ' '
    ensures r.Some? ==> r == Some(NameMissing(cat))
  {
    if d.name.None? || Trim(d.name.value) == "" then Some(NameMissing(cat)) else None
  }

  /** `if (!m.containsKey(k)) m.put(k, v)`: an existing value is never overwritten. */
  function PutIfAbsent(m: Parameters, k: string, v: string): (r: Parameters)
    ensures k in r && r[k] == (if k in m then m[k] else v)
    ensures forall j :: j != k ==> Get(r, j) == Get(m, j)
    ensures k in m ==> r == m
  {
    if k in m then m else m[k := v]
  }

  /** The host injection of a protocol server descriptor: listen_address becomes `host`
      only when `host` is absent and listen_address is not null. */
  function InjectHost(m: Parameters, listenAddress: Option<string>): (r: Parameters)
    ensures HOST_KEY in r <==> HOST_KEY in m || listenAddress.Some?
    ensures HOST_KEY in m ==> r[HOST_KEY] == m[HOST_KEY]
    ensures HOST_KEY !in m && listenAddress.Some? ==> r[HOST_KEY] == listenAddress.value
    ensures forall j :: j != HOST_KEY ==> Get(r, j) == Get(m, j)
  {
    if HOST_KEY !in m && listenAddress.Some? then m[HOST_KEY := listenAddress.value] else m
  }

  /** The descriptor is the clustering protocol engine:
      `def.enabled && P2pServerEngine.NAME.equalsIgnoreCase(def.name)`. */
  predicate IsP2pEngine(d: Descriptor) {
    d.enabled && d.name.Some? && EqualsIgnoreCase(P2P_ENGINE_NAME, d.name.value)
  }

  /** The comparison with "P2P" ignoring case accepts exactly the four spellings of
      p, 2, p with either case of each letter (no other character has 'P' or 'p' as its
      upper- or lower-case form, and '2' has no case). */
  lemma P2pEngineSpellings(d: Descriptor)
    ensures IsP2pEngine(d) <==>
              && d.enabled && d.name.Some? && |d.name.value| == 3
              && (d.name.value[0] == 'p' || d.name.value[0] == 'P')
              && d.name.value[1] == '2'
              && (d.name.value[2] == 'p' || d.name.value[2] == 'P')
  {
    if d.enabled && d.name.Some? && |d.name.value| == 3 && EqualsIgnoreCase(P2P_ENGINE_NAME, d.name.value) {
      assert CharEqualsIgnoreCase('P', d.name.value[0]);
      assert CharEqualsIgnoreCase('2', d.name.value[1]);
      assert CharEqualsIgnoreCase('P', d.name.value[2]);
    }
  }

  /** Some descriptor of the list is an enabled clustering protocol engine. */
  predicate HasP2pEngine(ds: seq<Descriptor>) {
    exists j :: 0 <= j < |ds| && IsP2pEngine(ds[j])
  }

  /** The number of enabled descriptors in ds. */
  function EnabledCount(ds: seq<Descriptor>): nat {
    if ds == [] then 0 else (if ds[0].enabled then 1 else 0) + EnabledCount(ds[1..])
  }

  /** The enabled descriptors of ds, in order. */
  function EnabledOnly(ds: seq<Descriptor>): (r: seq<Descriptor>)
    ensures |r| == EnabledCount(ds)
    ensures forall d :: d in r <==> d in ds && d.enabled
    ensures forall d :: multiset(r)[d] == if d.enabled then multiset(ds)[d] else 0
  {
    if ds == [] then []
    else
      assert ds == [ds[0]] + ds[1..];
      (if ds[0].enabled then [ds[0]] else []) + EnabledOnly(ds[1..])
  }

  /** Filtering keeps the list order: the enabled descriptors of a + b are those of a
      followed by those of b. */
  lemma {:induction false} EnabledOnlyConcat(a: seq<Descriptor>, b: seq<Descriptor>)
    ensures EnabledOnly(a + b) == EnabledOnly(a) + EnabledOnly(b)
    decreases |a|
  {
    if a != [] {
      assert (a + b)[1..] == a[1..] + b;
      EnabledOnlyConcat(a[1..], b);
    } else {
      assert a + b == b;
    }
  }
}
