/** The bootstrap as the server runs it: one object holding the loaded
    configuration (whose descriptors' parameter maps are extended in place),
    the four engine managers' tables, the property store, and the trace of
    collaborator calls. Every method is proved to leave exactly the state the
    corresponding function of module Bootstrap describes. */
module LealoneMain {
  import opened JavaString
  import opened Model
  import opened Bootstrap

  class Lealone {
    /** The configuration produced by loadConfig. */
    var config: Config
    /** Class loading and instantiation by name. */
    const loader: Loader
    /** The registries of StorageEngineManager, TransactionEngineManager,
        SQLEngineManager and ProtocolServerEngineManager. */
    var storageEngines: map<string, Engine>
    var transactionEngines: map<string, Engine>
    var sqlEngines: map<string, Engine>
    var protocolServerEngines: map<string, Engine>
    /** The properties read and written through Config.getProperty / setProperty. */
    var properties: map<string, string>
    /** The collaborator calls made so far. */
    var trace: seq<Event>

    /** The state of this object other than the configuration. */
    function State(): World
      reads this
    {
      World(Registries(storageEngines, transactionEngines, sqlEngines, protocolServerEngines), properties, trace)
    }

    /** The process after loadConfig: pre-registered engines and properties are those of `start`. */
    constructor (config: Config, loader: Loader, start: World)
      ensures this.config == config && this.loader == loader && State() == start
    {
      this.config := config;
      this.loader := loader;
      storageEngines := start.registries.storage;
      transactionEngines := start.registries.transaction;
      sqlEngines := start.registries.sql;
      protocolServerEngines := start.registries.protocolServer;
      properties := start.properties;
      trace := start.trace;
    }

    /** <Category>EngineManager.getInstance().getEngine(name). */
    method GetEngine(cat: Category, name: string) returns (e: Option<Engine>)
      modifies this`trace
      ensures e == Get(old(State()).registries.Of(cat), name)
      ensures State() == old(State()).Log(Lookup(cat, name))
    {
      var table := match cat
        case Storage => storageEngines
        case Transaction => transactionEngines
        case Sql => sqlEngines
        case ProtocolServer => protocolServerEngines;
      e := if name in table then Some(table[name]) else None;
      trace := trace + [Lookup(cat, name)];
    }

    /** <Category>EngineManager.getInstance().registerEngine(e). */
    method RegisterEngine(cat: Category, e: Engine)
      modifies this`storageEngines, this`transactionEngines, this`sqlEngines, this`protocolServerEngines, this`trace
      ensures State() == old(State()).Register(cat, e)
    {
      match cat {
        case Storage => storageEngines := storageEngines[e.name := e];
        case Transaction => transactionEngines := transactionEngines[e.name := e];
        case Sql => sqlEngines := sqlEngines[e.name := e];
        case ProtocolServer => protocolServerEngines := protocolServerEngines[e.name := e];
      }
      trace := trace + [Event.Register(cat, e)];
    }

    /** initBaseDir: refuse a null or empty base_dir, otherwise publish it. */
    method InitBaseDir() returns (err: Option<Error>)
      modifies this`trace
      ensures err.Some? <==> !ValidBaseDir(config.baseDir)
      ensures err.Some? ==> err == Some(BaseDirMissing) && State() == old(State())
      ensures err.None? ==> State() == old(State()).Log(SetBaseDir(config.baseDir.value))
    {
      if config.baseDir.None? || config.baseDir.value == "" {
        return Some(BaseDirMissing);
      }
      trace := trace + [SetBaseDir(config.baseDir.value)];
      return None;
    }

    /** initPluggableEngine: inject base_dir when absent, then call init. */
    method InitPluggableEngine(cat: Category, e: Engine, i: nat)
      requires config.baseDir.Some? && i < |config.Engines(cat)|
      modifies this`config, this`trace
      ensures var d := old(config.Engines(cat)[i]);
              var p := PutIfAbsent(d.parameters, BASE_DIR_KEY, old(config.baseDir.value));
              && config == old(config).WithEngines(cat, old(config.Engines(cat))[i := d.(parameters := p)])
              && State() == old(State()).Log(InitEngine(cat, e, p))
    {
      var d := config.Engines(cat)[i];
      var parameters := d.parameters;
      if BASE_DIR_KEY !in parameters {
        parameters := parameters[BASE_DIR_KEY := config.baseDir.value];
      }
      config := config.WithEngines(cat, config.Engines(cat)[i := d.(parameters := parameters)]);
      trace := trace + [InitEngine(cat, e, parameters)];
    }

    /** The resolution in a category's loop: registry lookup, load-and-register on a miss,
        and for transaction engines the fallback to the default transaction engine. */
    method ResolveEngine(cat: Category, name: string) returns (engine: Option<Engine>)
      modifies this`storageEngines, this`transactionEngines, this`sqlEngines, this`protocolServerEngines, this`trace
      ensures var r := Resolve(old(State()), cat, name, loader);
              State() == r.world && engine == r.engine
    {
      engine := GetEngine(cat, name);
      if engine.None? {
        trace := trace + [Load(cat, name)];
        var loaded := Instantiate(loader, cat, name);
        if loaded.Some? {
          RegisterEngine(cat, loaded.value);
          engine := loaded;
        } else if cat == Transaction {
          engine := GetEngine(Transaction, DEFAULT_TRANSACTION_ENGINE_NAME);
        }
      }
    }

    /** Config.setProperty("default.<category>.engine", e.getName()) when the property is unset. */
    method SetDefaultEngine(cat: Category, e: Engine)
      modifies this`properties
      ensures State() == RecordDefault(old(State()), cat, e)
    {
      var key := DefaultEngineKey(cat);
      if key.Some? && key.value !in properties {
        properties := properties[key.value := e.name];
      }
    }

    /** The protocol server descriptor i takes listen_address as `host` when it has no host. */
    method InjectHostParameter(i: nat)
      requires i < |config.protocolServerEngines|
      modifies this`config
      ensures var d := old(config.protocolServerEngines[i]);
              config == old(config).WithEngines(ProtocolServer,
                old(config.protocolServerEngines)[i := d.(parameters := InjectHost(d.parameters, old(config.listenAddress)))])
    {
      var d := config.protocolServerEngines[i];
      if HOST_KEY !in d.parameters && config.listenAddress.Some? {
        var hosted := d.(parameters := d.parameters[HOST_KEY := config.listenAddress.value]);
        config := config.(protocolServerEngines := config.protocolServerEngines[i := hosted]);
      }
    }

    /** The part of a category's loop body after descriptor i resolved to e. */
    method ActivateEngine(cat: Category, e: Engine, i: nat)
      requires config.baseDir.Some? && i < |config.Engines(cat)|
      modifies this`properties, this`config, this`trace
      ensures var s := Activate(old(State()), cat, old(config).Engines(cat)[i], e, EnvOf(old(config), loader));
              && State() == s.world
              && config == old(config).WithEngines(cat, old(config).Engines(cat)[i := s.desc])
    {
      ghost var cfg0, env := config, EnvOf(config, loader);
      var d := config.Engines(cat)[i];
      SetDefaultEngine(cat, e);
      ghost var p1 := if cat == ProtocolServer then InjectHost(d.parameters, cfg0.listenAddress) else d.parameters;
      if cat == ProtocolServer {
        assert config == cfg0;
        InjectHostParameter(i);
        assert config == cfg0.WithEngines(cat, cfg0.Engines(cat)[i := d.(parameters := p1)]);
      } else {
        assert config == cfg0;
        assert d.(parameters := p1) == d;
        assert cfg0.Engines(cat)[i := d] == cfg0.Engines(cat);
        WithEnginesSame(cfg0, cat);
      }
      assert config == cfg0.WithEngines(cat, cfg0.Engines(cat)[i := d.(parameters := p1)]);
      InitPluggableEngine(cat, e, i);
      ghost var p2 := PutIfAbsent(p1, BASE_DIR_KEY, env.baseDir);
      WithEnginesTwice(cfg0, cat, cfg0.Engines(cat)[i := d.(parameters := p1)], cfg0.Engines(cat)[i := d.(parameters := p2)]);
      assert config == cfg0.WithEngines(cat, cfg0.Engines(cat)[i := d.(parameters := p2)]);
    }


    /** The body of a category's loop in initPluggableEngines, for descriptor i. */
    method InitEngineDef(cat: Category, i: nat) returns (err: Option<Error>)
      requires config.baseDir.Some? && i < |config.Engines(cat)|
      modifies this
      ensures var s := InitDef(old(State()), cat, old(config).Engines(cat)[i], EnvOf(old(config), loader));
              && State() == s.world && err == s.err
              && config == old(config).WithEngines(cat, old(config).Engines(cat)[i := s.desc])
    {
      ghost var w0, cfg0, env := State(), config, EnvOf(config, loader);
      var d := config.Engines(cat)[i];
      assert cfg0.Engines(cat)[i := d] == cfg0.Engines(cat);
      WithEnginesSame(cfg0, cat);
      if !d.enabled {
        return None;
      }
      err := CheckName(cat, d);
      if err.Some? {
        return;
      }
      var name := d.name.value;
      var engine := ResolveEngine(cat, name);
      assert config == cfg0;
      if engine.None? {
        return Some(EngineNotFound(cat, name));
      }
      ActivateEngine(cat, engine.value, i);
    }

    /** One category's loop of initPluggableEngines over its whole descriptor list. */
    method InitCategoryEngines(cat: Category) returns (err: Option<Error>)
      requires config.baseDir.Some?
      modifies this
      ensures var b := InitCategory(old(State()), old(config), cat, loader);
              State() == b.world && config == b.config && err == b.err
    {
      ghost var w0 := State();
      ghost var ds0 := config.Engines(cat);
      ghost var env := EnvOf(config, loader);
      ghost var cfg0 := config;
      var i := 0;
      while i < |config.Engines(cat)|
        invariant config.baseDir == cfg0.baseDir && config.listenAddress == cfg0.listenAddress
        invariant config == cfg0.WithEngines(cat, config.Engines(cat))
        invariant |config.Engines(cat)| == |ds0| && i <= |ds0|
        invariant InitFrom(State(), cat, config.Engines(cat), i, env) == InitFrom(w0, cat, ds0, 0, env)
        decreases |ds0| - i
      {
        ghost var before := config.Engines(cat);
        err := InitEngineDef(cat, i);
        if err.Some? {
          assert config.Engines(cat) == before;
          return;
        }
        i := i + 1;
      }
      return None;
    }

    /** initPluggableEngines: storage, then transaction, then sql, then protocol_server. */
    method InitPluggableEngines() returns (err: Option<Error>)
      requires config.baseDir.Some?
      modifies this
      ensures var b := InitEngines(old(State()), old(config), loader);
              State() == b.world && config == b.config && err == b.err
    {
      err := InitCategoryEngines(Storage);
      if err.Some? { return; }
      err := InitCategoryEngines(Transaction);
      if err.Some? { return; }
      err := InitCategoryEngines(Sql);
      if err.Some? { return; }
      err := InitCategoryEngines(ProtocolServer);
    }

    /** The search in init for an enabled protocol descriptor naming the P2P engine. */
    method FindP2pEngine() returns (found: bool)
      ensures found <==> HasP2pEngine(config.protocolServerEngines)
    {
      var ds := config.protocolServerEngines;
      var j := 0;
      while j < |ds|
        invariant j <= |ds|
        invariant forall k :: 0 <= k < j ==> !IsP2pEngine(ds[k])
      {
        if ds[j].enabled && ds[j].name.Some? && EqualsIgnoreCase(P2P_ENGINE_NAME, ds[j].name.value) {
          return true;
        }
        j := j + 1;
      }
      return false;
    }

    /** init: base directory, engines, database, then cluster metadata if clustering is enabled. */
    method Init() returns (err: Option<Error>)
      modifies this
      ensures var b := InitAll(old(State()), old(config), loader);
              State() == b.world && config == b.config && err == b.err
    {
      err := InitBaseDir();
      if err.Some? { return; }
      err := InitPluggableEngines();
      if err.Some? { return; }
      trace := trace + [DatabaseInit];
      var p2p := FindP2pEngine();
      if p2p {
        trace := trace + [ClusterInit];
      }
    }

    /** startProtocolServers: start the server of every enabled protocol descriptor. */
    method StartProtocolServers() returns (err: Option<Error>)
      modifies this`trace
      ensures var s := StartServers(old(State()), config.protocolServerEngines);
              State() == s.world && err == s.err
    {
      ghost var w0 := State();
      var ds := config.protocolServerEngines;
      var i := 0;
      while i < |ds|
        invariant i <= |ds|
        invariant StartServers(State(), ds[i..]) == StartServers(w0, ds)
        decreases |ds| - i
      {
        assert ds[i..][1..] == ds[i + 1..];
        var d := ds[i];
        if d.enabled {
          var engine := if d.name.Some? && d.name.value in protocolServerEngines
                        then Some(protocolServerEngines[d.name.value]) else None;
          if engine.None? {
            return Some(ServerEngineMissing(d.name));
          }
          trace := trace + [StartServer(engine.value, d.parameters)];
        }
        i := i + 1;
      }
      return None;
    }

    /** main after loadConfig: init, then start; an error means exit status 1. */
    method Boot() returns (err: Option<Error>)
      modifies this
      ensures var b := Launch(old(State()), old(config), loader);
              State() == b.world && config == b.config && err == b.err
    {
      err := Init();
      if err.Some? { return; }
      err := StartProtocolServers();
    }
  }
}
