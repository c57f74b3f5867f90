/** What the bootstrap does, as functions from the state before a stage to the
    state after it. The methods of class Lealone are proved to compute exactly
    these, and the lemmas of module Properties are stated about them. */
module Bootstrap {
  import opened JavaString
  import opened Model

  /** What an engine's initialisation reads from the configuration, plus class loading. */
  datatype Env = Env(baseDir: string, listenAddress: Option<string>, loader: Loader)

  function EnvOf(cfg: Config, loader: Loader): Env
    requires cfg.baseDir.Some?
  {
    Env(cfg.baseDir.value, cfg.listenAddress, loader)
  }

  /** The outcome of resolving a descriptor name to an engine. */
  datatype Resolution = Resolution(world: World, engine: Option<Engine>)

  /** The registry lookup, then on a miss the load-and-register, then (transaction
      engines only) the fallback to the registered default transaction engine. */
  function Resolve(w: World, cat: Category, name: string, loader: Loader): Resolution {
    var found := Get(w.registries.Of(cat), name);
    var w1 := w.Log(Lookup(cat, name));
    if found.Some? then Resolution(w1, found)
    else
      var w2 := w1.Log(Load(cat, name));
      match Instantiate(loader, cat, name)
      case Some(e) => Resolution(w2.Register(cat, e), Some(e))
      case None =>
        if cat == Transaction then
          Resolution(w2.Log(Lookup(Transaction, DEFAULT_TRANSACTION_ENGINE_NAME)),
                     Get(w.registries.Of(Transaction), DEFAULT_TRANSACTION_ENGINE_NAME))
        else
          Resolution(w2, None)
  }

  /** Config.setProperty("default.<category>.engine", ...) when the property is still unset. */
  function RecordDefault(w: World, cat: Category, e: Engine): World {
    match DefaultEngineKey(cat)
    case None => w
    case Some(k) => if k in w.properties then w else w.(properties := w.properties[k := e.name])
  }

  /** The outcome of one descriptor: the new world, the descriptor as rewritten, and the error raised. */
  datatype Step = Step(world: World, desc: Descriptor, err: Option<Error>)

  /** One iteration of a category's loop in initPluggableEngines. */
  function InitDef(w: World, cat: Category, d: Descriptor, env: Env): Step {
    if !d.enabled then Step(w, d, None)
    else match CheckName(cat, d)
      case Some(e) => Step(w, d, Some(e))
      case None =>
        var res := Resolve(w, cat, d.name.value, env.loader);
        match res.engine
        case None => Step(res.world, d, Some(EngineNotFound(cat, d.name.value)))
        case Some(e) => Activate(res.world, cat, d, e, env)
  }

  /** What follows a successful resolution to e: the default-engine property, the
      `host` (protocol servers only) and `base_dir` parameters, then init. */
  function Activate(w: World, cat: Category, d: Descriptor, e: Engine, env: Env): Step {
    var w1 := RecordDefault(w, cat, e);
    var p1 := if cat == ProtocolServer then InjectHost(d.parameters, env.listenAddress) else d.parameters;
    var p2 := PutIfAbsent(p1, BASE_DIR_KEY, env.baseDir);
    Step(w1.Log(InitEngine(cat, e, p2)), d.(parameters := p2), None)
  }

  /** The outcome of a category's loop: the new world, its descriptor list and the error raised. */
  datatype Run = Run(world: World, defs: seq<Descriptor>, err: Option<Error>)

  /** A category's loop from descriptor i on; the first error ends it. */
  function InitFrom(w: World, cat: Category, ds: seq<Descriptor>, i: nat, env: Env): Run
    requires i <= |ds|
    decreases |ds| - i
  {
    if i == |ds| then Run(w, ds, None)
    else
      var s := InitDef(w, cat, ds[i], env);
      if s.err.Some? then Run(s.world, ds, s.err)
      else InitFrom(s.world, cat, ds[i := s.desc], i + 1, env)
  }

  /** The outcome of a bootstrap stage: the new world, the configuration as rewritten, and the error raised. */
  datatype Boot = Boot(world: World, config: Config, err: Option<Error>)

  /** A category's loop over its whole descriptor list. */
  function InitCategory(w: World, cfg: Config, cat: Category, loader: Loader): (b: Boot)
    requires cfg.baseDir.Some?
    ensures b.config.baseDir == cfg.baseDir && b.config.listenAddress == cfg.listenAddress
  {
    var r := InitFrom(w, cat, cfg.Engines(cat), 0, EnvOf(cfg, loader));
    Boot(r.world, cfg.WithEngines(cat, r.defs), r.err)
  }

  /** initPluggableEngines: storage, then transaction, then sql, then protocol_server. */
  function InitEngines(w: World, cfg: Config, loader: Loader): (b: Boot)
    requires cfg.baseDir.Some?
    ensures b.config.baseDir == cfg.baseDir
  {
    var b1 := InitCategory(w, cfg, Storage, loader);
    if b1.err.Some? then b1 else
    var b2 := InitCategory(b1.world, b1.config, Transaction, loader);
    if b2.err.Some? then b2 else
    var b3 := InitCategory(b2.world, b2.config, Sql, loader);
    if b3.err.Some? then b3 else
    InitCategory(b3.world, b3.config, ProtocolServer, loader)
  }

  /** init: initBaseDir, initPluggableEngines, the database initialisation, and cluster
      metadata initialisation when an enabled protocol engine is the P2P engine. */
  function InitAll(w: World, cfg: Config, loader: Loader): Boot {
    if !ValidBaseDir(cfg.baseDir) then Boot(w, cfg, Some(BaseDirMissing))
    else
      var b := InitEngines(w.Log(SetBaseDir(cfg.baseDir.value)), cfg, loader);
      if b.err.Some? then b
      else
        var w1 := b.world.Log(DatabaseInit);
        var w2 := if HasP2pEngine(b.config.protocolServerEngines) then w1.Log(ClusterInit) else w1;
        Boot(w2, b.config, None)
  }

  /** The outcome of starting servers. */
  datatype Started = Started(world: World, err: Option<Error>)

  /** startProtocolServers over the list ds: each enabled descriptor's engine is looked up
      by the descriptor's name and its server started; a missing engine ends the loop. */
  function StartServers(w: World, ds: seq<Descriptor>): Started
    decreases ds
  {
    if ds == [] then Started(w, None)
    else if !ds[0].enabled then StartServers(w, ds[1..])
    else
      var found := if ds[0].name.Some? then Get(w.registries.protocolServer, ds[0].name.value) else None;
      match found
      case None => Started(w, Some(ServerEngineMissing(ds[0].name)))
      case Some(e) => StartServers(w.Log(StartServer(e, ds[0].parameters)), ds[1..])
  }

  /** main: init, then start; any error ends the bootstrap (the process exits with status 1). */
  function Launch(w: World, cfg: Config, loader: Loader): Boot {
    var b := InitAll(w, cfg, loader);
    if b.err.Some? then b
    else
      var s := StartServers(b.world, b.config.protocolServerEngines);
      Boot(s.world, b.config, s.err)
  }
}
