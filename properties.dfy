/** What the bootstrap guarantees, stated and proved about the functions of
    module Bootstrap: base_dir and name validation come first, disabled
    descriptors are skipped, only transaction engines fall back, default-engine
    properties are written once, parameters are injected without overwriting,
    every stage's calls come after the previous stage's, and each enabled
    descriptor is initialised and started exactly once. */
module Properties {
  import opened JavaString
  import opened Model
  import opened Bootstrap

  // ---------------------------------------------------------------------------
  // Facts about traces

  /** Every property of `before` is still there, with the same value. */
  ghost predicate Kept(before: map<string, string>, after: map<string, string>) {
    forall k :: k in before ==> k in after && after[k] == before[k]
  }

  /** The only property `after` adds to `before` is the default-engine key of cat. */
  ghost predicate AddsOnlyDefaultOf(before: map<string, string>, after: map<string, string>, cat: Category) {
    forall k :: k in after && k !in before ==> DefaultEngineKey(cat) == Some(k)
  }

  /** From `before` to `after` the trace only grows, no property is overwritten or removed,
      only cat's default-engine property may be added, and when it was unset it now names
      the first engine of cat initialised in between (or stays unset when none was). */
  ghost predicate DefaultOfRecorded(before: World, after: World, cat: Category) {
    && before.trace <= after.trace
    && Kept(before.properties, after.properties)
    && AddsOnlyDefaultOf(before.properties, after.properties, cat)
    && (DefaultEngineKey(cat).Some? && DefaultEngineKey(cat).value !in before.properties ==>
          Get(after.properties, DefaultEngineKey(cat).value) == FirstInitName(after.trace[|before.trace|..], cat))
  }

  /** The stage every event of kind k belongs to. */
  function KindPhase(k: Kind): nat {
    match k
    case InitOf(c) => 1 + Rank(c)
    case DatabaseCall => 5
    case ClusterCall => 6
    case StartCall => 7
  }

  lemma KindPhaseIsPhase(e: Event, k: Kind)
    requires OfKind(e, k)
    ensures Phase(e) == KindPhase(k)
  {
  }

  lemma {:induction false} CountConcat(a: seq<Event>, b: seq<Event>, k: Kind)
    ensures Count(a + b, k) == Count(a, k) + Count(b, k)
    decreases |b|
  {
    if b == [] {
      assert a + b == a;
    } else {
      assert (a + b)[..|a + b| - 1] == a + b[..|b| - 1];
      CountConcat(a, b[..|b| - 1], k);
    }
  }

  lemma {:induction false} CountNone(t: seq<Event>, k: Kind)
    requires forall i :: 0 <= i < |t| ==> !OfKind(t[i], k)
    ensures Count(t, k) == 0
    decreases |t|
  {
    if t != [] {
      CountNone(t[..|t| - 1], k);
    }
  }

  /** Appending events none of which is of kind k leaves k's count as it was. */
  lemma CountUnchangedWithout(t1: seq<Event>, t2: seq<Event>, k: Kind)
    requires t1 <= t2
    requires forall i :: |t1| <= i < |t2| ==> !OfKind(t2[i], k)
    ensures Count(t2, k) == Count(t1, k)
  {
    var added := t2[|t1|..];
    assert t2 == t1 + added;
    forall i | 0 <= i < |added| ensures !OfKind(added[i], k) {
      assert added[i] == t2[|t1| + i];
    }
    CountNone(added, k);
    CountConcat(t1, added, k);
  }

  /** Events appended in stages that do not include k's stage add nothing to k's count. */
  lemma CountUnchanged(t1: seq<Event>, t2: seq<Event>, lo: nat, hi: nat, k: Kind)
    requires t1 <= t2 && PhasesWithin(t2, |t1|, lo, hi)
    requires KindPhase(k) < lo || hi < KindPhase(k)
    ensures Count(t2, k) == Count(t1, k)
  {
    forall i | |t1| <= i < |t2| ensures !OfKind(t2[i], k) {
      if OfKind(t2[i], k) { KindPhaseIsPhase(t2[i], k); }
    }
    CountUnchangedWithout(t1, t2, k);
  }

  lemma {:induction false} FirstInitConcat(a: seq<Event>, b: seq<Event>, cat: Category)
    ensures FirstInitName(a + b, cat) == if FirstInitName(a, cat).Some? then FirstInitName(a, cat) else FirstInitName(b, cat)
    decreases |a|
  {
    if a == [] {
      assert a + b == b;
    } else {
      assert (a + b)[1..] == a[1..] + b;
      FirstInitConcat(a[1..], b, cat);
    }
  }

  lemma {:induction false} FirstInitNone(t: seq<Event>, cat: Category)
    requires forall i :: 0 <= i < |t| ==> Phase(t[i]) != 1 + Rank(cat)
    ensures FirstInitName(t, cat) == None
    decreases |t|
  {
    if t != [] {
      FirstInitNone(t[1..], cat);
    }
  }

  /** For t1 <= t2 <= t3, the events added since n split at the end of t2. */
  lemma SuffixSplit(t1: seq<Event>, t2: seq<Event>, t3: seq<Event>)
    requires t1 <= t2 <= t3
    ensures t3[|t1|..] == t2[|t1|..] + t3[|t2|..]
  {
  }

  /** Ordered stages in increasing phase compose into an ordered run. */
  lemma Chain(t1: seq<Event>, t2: seq<Event>, t3: seq<Event>, lo: nat, mid: nat, hi: nat)
    requires t1 <= t2 <= t3 && lo <= mid <= hi
    requires OrderedFrom(t2, |t1|) && PhasesWithin(t2, |t1|, lo, mid)
    requires OrderedFrom(t3, |t2|) && PhasesWithin(t3, |t2|, mid, hi)
    ensures OrderedFrom(t3, |t1|) && PhasesWithin(t3, |t1|, lo, hi)
  {
    forall i | |t1| <= i < |t2| ensures t3[i] == t2[i] { }
  }

  /** A stage whose events all share one phase is ordered. */
  lemma Flat(t1: seq<Event>, t2: seq<Event>, p: nat)
    requires t1 <= t2 && PhasesWithin(t2, |t1|, p, p)
    ensures OrderedFrom(t2, |t1|)
  {
  }

  // ---------------------------------------------------------------------------
  // One descriptor

  /** Resolution adds only registry and class-loading events of its own category and
      touches no property. */
  lemma ResolveShape(w: World, cat: Category, name: string, loader: Loader)
    ensures var r := Resolve(w, cat, name, loader);
            && w.trace <= r.world.trace
            && PhasesWithin(r.world.trace, |w.trace|, 1 + Rank(cat), 1 + Rank(cat))
            && (forall i :: |w.trace| <= i < |r.world.trace| ==> !r.world.trace[i].InitEngine?)
            && r.world.properties == w.properties
  {
  }

  /** What follows a successful resolution adds exactly one init event of the category,
      and sets the category's default property to the initialised engine's name when unset. */
  lemma ActivateShape(w: World, cat: Category, d: Descriptor, e: Engine, env: Env)
    ensures var s := Activate(w, cat, d, e, env);
            && s.err.None?
            && s.desc == d.(parameters := s.desc.parameters)
            && s.world.registries == w.registries
            && s.world.trace == w.trace + [InitEngine(cat, e, s.desc.parameters)]
            && Kept(w.properties, s.world.properties)
            && AddsOnlyDefaultOf(w.properties, s.world.properties, cat)
            && (DefaultEngineKey(cat).Some? && DefaultEngineKey(cat).value !in w.properties ==>
                  Get(s.world.properties, DefaultEngineKey(cat).value) == Some(e.name))
  {
  }

  /** The three ways a descriptor step ends. */
  lemma StepCases(w: World, cat: Category, d: Descriptor, env: Env)
    ensures var s := InitDef(w, cat, d, env);
            && (!d.enabled ==> s == Step(w, d, None))
            && (d.enabled && CheckName(cat, d).Some? ==> s == Step(w, d, Some(NameMissing(cat))))
            && (d.enabled && CheckName(cat, d).None? ==>
                  var res := Resolve(w, cat, d.name.value, env.loader);
                  s == if res.engine.None? then Step(res.world, d, Some(EngineNotFound(cat, d.name.value)))
                       else Activate(res.world, cat, d, res.engine.value, env))
  {
  }

  /** A descriptor step adds only events of its own stage. */
  lemma StepTrace(w: World, cat: Category, d: Descriptor, env: Env)
    ensures var s := InitDef(w, cat, d, env);
            && w.trace <= s.world.trace
            && PhasesWithin(s.world.trace, |w.trace|, 1 + Rank(cat), 1 + Rank(cat))
  {
    var s := InitDef(w, cat, d, env);
    StepCases(w, cat, d, env);
    if d.enabled && CheckName(cat, d).None? {
      var res := Resolve(w, cat, d.name.value, env.loader);
      ResolveShape(w, cat, d.name.value, env.loader);
      if res.engine.Some? {
        ActivateTrace(w, res.world, cat, d, res.engine.value, env);
      }
    }
  }

  /** The init event that ends a successful step belongs to the step's stage. */
  lemma ActivateTrace(w0: World, w: World, cat: Category, d: Descriptor, e: Engine, env: Env)
    requires w0.trace <= w.trace && PhasesWithin(w.trace, |w0.trace|, 1 + Rank(cat), 1 + Rank(cat))
    ensures var s := Activate(w, cat, d, e, env);
            w0.trace <= s.world.trace && PhasesWithin(s.world.trace, |w0.trace|, 1 + Rank(cat), 1 + Rank(cat))
  {
    var s := Activate(w, cat, d, e, env);
    ActivateShape(w, cat, d, e, env);
    forall i | |w0.trace| <= i < |s.world.trace| ensures Phase(s.world.trace[i]) == 1 + Rank(cat) {
      if i < |w.trace| {
        assert s.world.trace[i] == w.trace[i];
      }
    }
  }

  /** A descriptor step returns a descriptor with the same name and flag, changes it only
      on success, and fails only with the errors of its own category. */
  lemma StepDescriptor(w: World, cat: Category, d: Descriptor, env: Env)
    ensures var s := InitDef(w, cat, d, env);
            && s.desc.name == d.name && s.desc.enabled == d.enabled
            && (s.err.Some? || !d.enabled ==> s.desc == d)
            && (s.err.Some? ==> s.err.value == NameMissing(cat) || s.err.value == EngineNotFound(cat, d.name.value))
  {
    StepCases(w, cat, d, env);
    if d.enabled && CheckName(cat, d).None? {
      var res := Resolve(w, cat, d.name.value, env.loader);
      if res.engine.Some? {
        ActivateShape(res.world, cat, d, res.engine.value, env);
      }
    }
  }

  /** A descriptor step initialises one engine exactly when the descriptor is enabled and
      the step succeeds; the default property it may add is its own category's, only if
      unset, and names the engine of the step's init event. */
  lemma StepInitAndDefault(w: World, cat: Category, d: Descriptor, env: Env)
    ensures var s := InitDef(w, cat, d, env);
            && w.trace <= s.world.trace
            && Count(s.world.trace, InitOf(cat)) == Count(w.trace, InitOf(cat)) + (if d.enabled && s.err.None? then 1 else 0)
            && DefaultOfRecorded(w, s.world, cat)
  {
    var s := InitDef(w, cat, d, env);
    StepCases(w, cat, d, env);
    if d.enabled && CheckName(cat, d).None? {
      var res := Resolve(w, cat, d.name.value, env.loader);
      ResolveNoInit(w, cat, d.name.value, env.loader);
      if res.engine.Some? {
        ActivateInitAndDefault(w, res.world, cat, d, res.engine.value, env);
      }
    }
  }

  /** Resolution initialises nothing and touches no property. */
  lemma ResolveNoInit(w: World, cat: Category, name: string, loader: Loader)
    ensures var r := Resolve(w, cat, name, loader);
            && w.trace <= r.world.trace
            && Count(r.world.trace, InitOf(cat)) == Count(w.trace, InitOf(cat))
            && FirstInitName(r.world.trace[|w.trace|..], cat) == None
            && r.world.properties == w.properties
  {
    var r := Resolve(w, cat, name, loader);
    ResolveShape(w, cat, name, loader);
    CountUnchangedWithout(w.trace, r.world.trace, InitOf(cat));
    var added := r.world.trace[|w.trace|..];
    forall i | 0 <= i < |added| ensures !added[i].InitEngine? {
      assert added[i] == r.world.trace[|w.trace| + i];
    }
    NoInitNoFirst(added, cat);
  }

  /** The init event and default property that end a successful step. */
  lemma ActivateInitAndDefault(w0: World, w: World, cat: Category, d: Descriptor, e: Engine, env: Env)
    requires w0.trace <= w.trace && w.properties == w0.properties
    requires Count(w.trace, InitOf(cat)) == Count(w0.trace, InitOf(cat))
    requires FirstInitName(w.trace[|w0.trace|..], cat) == None
    ensures var s := Activate(w, cat, d, e, env);
            && w0.trace <= s.world.trace
            && Count(s.world.trace, InitOf(cat)) == Count(w0.trace, InitOf(cat)) + 1
            && DefaultOfRecorded(w0, s.world, cat)
  {
    var s := Activate(w, cat, d, e, env);
    ActivateShape(w, cat, d, e, env);
    var init := [InitEngine(cat, e, s.desc.parameters)];
    CountConcat(w.trace, init, InitOf(cat));
    assert s.world.trace[|w0.trace|..] == w.trace[|w0.trace|..] + init;
    FirstInitConcat(w.trace[|w0.trace|..], init, cat);
  }

  lemma {:induction false} NoInitNoFirst(t: seq<Event>, cat: Category)
    requires forall i :: 0 <= i < |t| ==> !t[i].InitEngine?
    ensures FirstInitName(t, cat) == None
    decreases |t|
  {
    if t != [] {
      NoInitNoFirst(t[1..], cat);
    }
  }

  /** A disabled descriptor is never looked up, loaded, registered or initialised,
      and is left as it was. */
  lemma DisabledDescriptorSkipped(w: World, cat: Category, d: Descriptor, env: Env)
    requires !d.enabled
    ensures InitDef(w, cat, d, env) == Step(w, d, None)
  {
  }

  /** checkName: an enabled descriptor whose name is null or made only of spaces and
      control characters is refused before any registry lookup; any other enabled
      descriptor is looked up first thing. */
  lemma NameCheckedBeforeLookup(w: World, cat: Category, d: Descriptor, env: Env)
    requires d.enabled
    ensures var s := InitDef(w, cat, d, env);
            && (s.err == Some(NameMissing(cat)) <==> d.name.None? || forall i :: 0 <= i < |d.name.value| ==> d.name.value[i] <= ' ')
            && (s.err == Some(NameMissing(cat)) ==> s.world == w && s.desc == d)
            && (s.err != Some(NameMissing(cat)) ==>
                  |s.world.trace| > |w.trace| && s.world.trace[|w.trace|] == Lookup(cat, d.name.value))
  {
    StepCases(w, cat, d, env);
    if CheckName(cat, d).None? {
      StepAfterCheck(w, cat, d, env);
    }
  }

  /** A step past the name check starts with the lookup and never reports a missing name. */
  lemma StepAfterCheck(w: World, cat: Category, d: Descriptor, env: Env)
    requires d.enabled && CheckName(cat, d).None?
    ensures var s := InitDef(w, cat, d, env);
            && s.err != Some(NameMissing(cat))
            && |s.world.trace| > |w.trace| && s.world.trace[|w.trace|] == Lookup(cat, d.name.value)
  {
    var res := Resolve(w, cat, d.name.value, env.loader);
    StepCases(w, cat, d, env);
    ResolveFirst(w, cat, d.name.value, env.loader);
    if res.engine.Some? {
      ActivateKeeps(res.world, cat, d, res.engine.value, env, |w.trace|);
    }
  }

  /** Resolution starts with the registry lookup of the name. */
  lemma ResolveFirst(w: World, cat: Category, name: string, loader: Loader)
    ensures var r := Resolve(w, cat, name, loader);
            |r.world.trace| > |w.trace| && r.world.trace[|w.trace|] == Lookup(cat, name)
  {
  }

  /** What follows a successful resolution succeeds and keeps the earlier calls. */
  lemma ActivateKeeps(w: World, cat: Category, d: Descriptor, e: Engine, env: Env, n: nat)
    requires n < |w.trace|
    ensures var s := Activate(w, cat, d, e, env);
            s.err.None? && n < |s.world.trace| && s.world.trace[n] == w.trace[n]
  {
    ActivateShape(w, cat, d, e, env);
  }

  /** A registry hit skips loading and registration; the registered engine is initialised. */
  lemma RegistryHitReused(w: World, cat: Category, d: Descriptor, env: Env)
    requires d.enabled && CheckName(cat, d).None? && d.name.value in w.registries.Of(cat)
    ensures var s := InitDef(w, cat, d, env);
            && s.err.None?
            && s.world.registries == w.registries
            && s.world.trace == w.trace + [Lookup(cat, d.name.value),
                                           InitEngine(cat, w.registries.Of(cat)[d.name.value], s.desc.parameters)]
  {
    var name := d.name.value;
    var e := w.registries.Of(cat)[name];
    StepCases(w, cat, d, env);
    assert Resolve(w, cat, name, env.loader) == Resolution(w.Log(Lookup(cat, name)), Some(e));
    ActivateAfter(w, [Lookup(cat, name)], w.Log(Lookup(cat, name)), cat, d, e, env);
  }

  /** A successful step's world, when resolution added `added` to w's trace and left the
      properties as they were. */
  lemma ActivateAfter(w: World, added: seq<Event>, w1: World, cat: Category, d: Descriptor, e: Engine, env: Env)
    requires w1.trace == w.trace + added
    ensures var s := Activate(w1, cat, d, e, env);
            && s.err.None?
            && s.world.registries == w1.registries
            && s.world.trace == w.trace + added + [InitEngine(cat, e, s.desc.parameters)]
  {
    ActivateShape(w1, cat, d, e, env);
  }

  /** A registry miss loads the class by name and registers the instance under its
      declared name before initialising it. */
  lemma LoadedEngineRegistered(w: World, cat: Category, d: Descriptor, env: Env, e: Engine)
    requires d.enabled && CheckName(cat, d).None? && d.name.value !in w.registries.Of(cat)
    requires Instantiate(env.loader, cat, d.name.value) == Some(e)
    ensures var s := InitDef(w, cat, d, env);
            && s.err.None?
            && s.world.registries == w.registries.Register(cat, e)
            && s.world.trace == w.trace + [Lookup(cat, d.name.value), Load(cat, d.name.value),
                                           Event.Register(cat, e), InitEngine(cat, e, s.desc.parameters)]
  {
    var name := d.name.value;
    var w1 := w.Log(Lookup(cat, name)).Log(Load(cat, name)).Register(cat, e);
    StepLoaded(w, cat, d, env, e);
    var s := Activate(w1, cat, d, e, env);
    ActivateShape(w1, cat, d, e, env);
    AppendFour(w.trace, Lookup(cat, name), Load(cat, name), Event.Register(cat, e), InitEngine(cat, e, s.desc.parameters));
  }

  lemma AppendFour(t: seq<Event>, a: Event, b: Event, c: Event, d: Event)
    ensures t + [a] + [b] + [c] + [d] == t + [a, b, c, d]
  {
  }

  lemma StepLoaded(w: World, cat: Category, d: Descriptor, env: Env, e: Engine)
    requires d.enabled && CheckName(cat, d).None? && d.name.value !in w.registries.Of(cat)
    requires Instantiate(env.loader, cat, d.name.value) == Some(e)
    ensures var name := d.name.value;
            InitDef(w, cat, d, env) == Activate(w.Log(Lookup(cat, name)).Log(Load(cat, name)).Register(cat, e), cat, d, e, env)
  {
    var name := d.name.value;
    StepCases(w, cat, d, env);
    assert Resolve(w, cat, name, env.loader) == Resolution(w.Log(Lookup(cat, name)).Log(Load(cat, name)).Register(cat, e), Some(e));
  }

  /** A failed load is fatal for storage, sql and protocol server engines, right after the
      lookup and the attempted load. */
  lemma LoadFailureFatal(w: World, cat: Category, d: Descriptor, env: Env)
    requires cat != Transaction
    requires d.enabled && CheckName(cat, d).None? && d.name.value !in w.registries.Of(cat)
    requires Instantiate(env.loader, cat, d.name.value).None?
    ensures var name := d.name.value;
            InitDef(w, cat, d, env) == Step(w.Log(Lookup(cat, name)).Log(Load(cat, name)), d, Some(EngineNotFound(cat, name)))
  {
    var name := d.name.value;
    StepCases(w, cat, d, env);
    assert Resolve(w, cat, name, env.loader) == Resolution(w.Log(Lookup(cat, name)).Log(Load(cat, name)), None);
  }

  /** A transaction engine whose load fails falls back to the registered default transaction
      engine, which is then initialised and recorded as default when no default is set;
      only when that engine is not registered either is the failure fatal. */
  lemma TransactionLoadFallback(w: World, d: Descriptor, env: Env)
    requires d.enabled && CheckName(Transaction, d).None? && d.name.value !in w.registries.transaction
    requires Instantiate(env.loader, Transaction, d.name.value).None?
    ensures var s := InitDef(w, Transaction, d, env);
            var name := d.name.value;
            var fallback := Get(w.registries.transaction, DEFAULT_TRANSACTION_ENGINE_NAME);
            var w1 := w.Log(Lookup(Transaction, name)).Log(Load(Transaction, name))
                       .Log(Lookup(Transaction, DEFAULT_TRANSACTION_ENGINE_NAME));
            && s.world.registries == w.registries
            && (s.err.None? <==> fallback.Some?)
            && (fallback.None? ==> s == Step(w1, d, Some(EngineNotFound(Transaction, name))))
            && (fallback.Some? ==>
                  && s.world.trace == w1.trace + [InitEngine(Transaction, fallback.value, s.desc.parameters)]
                  && s.world.properties["default.transaction.engine"] ==
                       if "default.transaction.engine" in w.properties
                       then w.properties["default.transaction.engine"] else fallback.value.name)
  {
    var name := d.name.value;
    var fallback := Get(w.registries.transaction, DEFAULT_TRANSACTION_ENGINE_NAME);
    var w1 := w.Log(Lookup(Transaction, name)).Log(Load(Transaction, name))
               .Log(Lookup(Transaction, DEFAULT_TRANSACTION_ENGINE_NAME));
    StepCases(w, Transaction, d, env);
    assert Resolve(w, Transaction, name, env.loader) == Resolution(w1, fallback);
    if fallback.Some? {
      ActivateShape(w1, Transaction, d, fallback.value, env);
    }
  }

  /** initPluggableEngine and the host injection: `base_dir` is added only when absent,
      `host` only for protocol servers, only when absent and listen_address is set;
      nothing else in the parameter map changes, and init receives the result. */
  lemma ParametersInjected(w: World, cat: Category, d: Descriptor, env: Env)
    requires d.enabled
    ensures var s := InitDef(w, cat, d, env);
            var p, q := d.parameters, s.desc.parameters;
            s.err.None? ==>
              && s.world.trace != [] && s.world.trace[|s.world.trace| - 1].InitEngine?
              && s.world.trace[|s.world.trace| - 1].cat == cat && s.world.trace[|s.world.trace| - 1].parameters == q
              && BASE_DIR_KEY in q
              && q[BASE_DIR_KEY] == (if BASE_DIR_KEY in p then p[BASE_DIR_KEY] else env.baseDir)
              && (HOST_KEY in q <==> HOST_KEY in p || (cat == ProtocolServer && env.listenAddress.Some?))
              && (HOST_KEY in p ==> q[HOST_KEY] == p[HOST_KEY])
              && (HOST_KEY !in p && cat == ProtocolServer && env.listenAddress.Some? ==> q[HOST_KEY] == env.listenAddress.value)
              && (forall k :: k != BASE_DIR_KEY && k != HOST_KEY ==> Get(q, k) == Get(p, k))
  {
    StepCases(w, cat, d, env);
    if CheckName(cat, d).None? {
      var res := Resolve(w, cat, d.name.value, env.loader);
      if res.engine.Some? {
        ActivateParameters(res.world, cat, d, res.engine.value, env);
      }
    }
  }

  /** The parameter map that init receives after a successful resolution. */
  lemma ActivateParameters(w: World, cat: Category, d: Descriptor, e: Engine, env: Env)
    ensures var s := Activate(w, cat, d, e, env);
            var p, q := d.parameters, s.desc.parameters;
            && s.world.trace[|s.world.trace| - 1] == InitEngine(cat, e, q)
            && BASE_DIR_KEY in q
            && q[BASE_DIR_KEY] == (if BASE_DIR_KEY in p then p[BASE_DIR_KEY] else env.baseDir)
            && (HOST_KEY in q <==> HOST_KEY in p || (cat == ProtocolServer && env.listenAddress.Some?))
            && (HOST_KEY in p ==> q[HOST_KEY] == p[HOST_KEY])
            && (HOST_KEY !in p && cat == ProtocolServer && env.listenAddress.Some? ==> q[HOST_KEY] == env.listenAddress.value)
            && (forall k :: k != BASE_DIR_KEY && k != HOST_KEY ==> Get(q, k) == Get(p, k))
  {
    var p1 := if cat == ProtocolServer then InjectHost(d.parameters, env.listenAddress) else d.parameters;
    assert Activate(w, cat, d, e, env).desc.parameters == PutIfAbsent(p1, BASE_DIR_KEY, env.baseDir);
    assert HOST_KEY != BASE_DIR_KEY;
  }

  // ---------------------------------------------------------------------------
  // One category's loop

  lemma EnabledCountStep(ds: seq<Descriptor>, i: nat)
    requires i < |ds|
    ensures EnabledCount(ds[i..]) == (if ds[i].enabled then 1 else 0) + EnabledCount(ds[i + 1..])
  {
    assert ds[i..][1..] == ds[i + 1..];
  }

  /** The loop from descriptor i on adds only events of its category's stage. */
  lemma {:induction false} InitFromTrace(w: World, cat: Category, ds: seq<Descriptor>, i: nat, env: Env)
    requires i <= |ds|
    ensures var r := InitFrom(w, cat, ds, i, env);
            w.trace <= r.world.trace && PhasesWithin(r.world.trace, |w.trace|, 1 + Rank(cat), 1 + Rank(cat))
    decreases |ds| - i
  {
    if i < |ds| {
      var s := InitDef(w, cat, ds[i], env);
      StepTrace(w, cat, ds[i], env);
      InitFromStep(w, cat, ds, i, env);
      if s.err.None? {
        var ds1 := ds[i := s.desc];
        var r := InitFrom(s.world, cat, ds1, i + 1, env);
        InitFromTrace(s.world, cat, ds1, i + 1, env);
        Chain(w.trace, s.world.trace, r.world.trace, 1 + Rank(cat), 1 + Rank(cat), 1 + Rank(cat));
      }
    }
  }

  /** defs is ds with only enabled descriptors from i on rewritten, and names and flags kept. */
  ghost predicate RewrittenFrom(ds: seq<Descriptor>, defs: seq<Descriptor>, i: nat) {
    && SameFlags(ds, defs)
    && (forall j :: 0 <= j < |ds| && (j < i || !ds[j].enabled) ==> defs[j] == ds[j])
  }

  /** The loop from descriptor i on keeps every descriptor's name and flag, and rewrites
      no descriptor before i and no disabled one. */
  lemma {:induction false} InitFromDefs(w: World, cat: Category, ds: seq<Descriptor>, i: nat, env: Env)
    requires i <= |ds|
    ensures RewrittenFrom(ds, InitFrom(w, cat, ds, i, env).defs, i)
    decreases |ds| - i
  {
    if i < |ds| {
      var s := InitDef(w, cat, ds[i], env);
      StepDescriptor(w, cat, ds[i], env);
      InitFromStep(w, cat, ds, i, env);
      if s.err.None? {
        var ds1 := ds[i := s.desc];
        InitFromDefs(s.world, cat, ds1, i + 1, env);
        DefsStep(ds, i, s.desc, InitFrom(s.world, cat, ds1, i + 1, env).defs);
      }
    }
  }

  /** Rewriting descriptor i without touching its name or flag, and nothing if it is disabled,
      composes with the rewriting of the later descriptors. */
  lemma DefsStep(ds: seq<Descriptor>, i: nat, d: Descriptor, defs: seq<Descriptor>)
    requires i < |ds| && d.name == ds[i].name && d.enabled == ds[i].enabled && (!ds[i].enabled ==> d == ds[i])
    requires RewrittenFrom(ds[i := d], defs, i + 1)
    ensures RewrittenFrom(ds, defs, i)
  {
    var ds1 := ds[i := d];
    forall j | 0 <= j < |ds| ensures defs[j].name == ds[j].name && defs[j].enabled == ds[j].enabled {
      assert defs[j].name == ds1[j].name && defs[j].enabled == ds1[j].enabled;
    }
  }

  /** The loop fails only with the errors of its own category. */
  lemma {:induction false} InitFromErr(w: World, cat: Category, ds: seq<Descriptor>, i: nat, env: Env)
    requires i <= |ds|
    ensures var r := InitFrom(w, cat, ds, i, env);
            r.err.Some? ==> r.err.value == NameMissing(cat) || (r.err.value.EngineNotFound? && r.err.value.cat == cat)
    decreases |ds| - i
  {
    if i < |ds| {
      var s := InitDef(w, cat, ds[i], env);
      StepDescriptor(w, cat, ds[i], env);
      InitFromStep(w, cat, ds, i, env);
      if s.err.None? {
        InitFromErr(s.world, cat, ds[i := s.desc], i + 1, env);
      }
    }
  }

  /** Without an error, the loop from descriptor i on initialises one engine per enabled
      descriptor from i on. */
  lemma {:induction false} InitFromCount(w: World, cat: Category, ds: seq<Descriptor>, i: nat, env: Env)
    requires i <= |ds|
    ensures var r := InitFrom(w, cat, ds, i, env);
            r.err.None? ==> Count(r.world.trace, InitOf(cat)) == Count(w.trace, InitOf(cat)) + EnabledCount(ds[i..])
    decreases |ds| - i
  {
    if i < |ds| {
      var s := InitDef(w, cat, ds[i], env);
      StepInitAndDefault(w, cat, ds[i], env);
      InitFromStep(w, cat, ds, i, env);
      if s.err.None? {
        var ds1 := ds[i := s.desc];
        InitFromCount(s.world, cat, ds1, i + 1, env);
        assert ds1[i + 1..] == ds[i + 1..];
        EnabledCountStep(ds, i);
      }
    }
  }

  /** The loop never overwrites a property and adds at most its category's default-engine
      property, which, when added, names the first engine the loop initialised. */
  lemma {:induction false} InitFromProperties(w: World, cat: Category, ds: seq<Descriptor>, i: nat, env: Env)
    requires i <= |ds|
    ensures DefaultOfRecorded(w, InitFrom(w, cat, ds, i, env).world, cat)
    decreases |ds| - i
  {
    if i < |ds| {
      var s := InitDef(w, cat, ds[i], env);
      StepInitAndDefault(w, cat, ds[i], env);
      InitFromStep(w, cat, ds, i, env);
      if s.err.None? {
        var ds1 := ds[i := s.desc];
        var r := InitFrom(s.world, cat, ds1, i + 1, env);
        InitFromProperties(s.world, cat, ds1, i + 1, env);
        ComposeProperties(w, s.world, r.world, cat);
      }
    }
  }

  /** One iteration of a category's loop. */
  lemma InitFromStep(w: World, cat: Category, ds: seq<Descriptor>, i: nat, env: Env)
    requires i < |ds|
    ensures var s := InitDef(w, cat, ds[i], env);
            InitFrom(w, cat, ds, i, env) == if s.err.Some? then Run(s.world, ds, s.err) else InitFrom(s.world, cat, ds[i := s.desc], i + 1, env)
  {
  }

  /** Two property-keeping steps of one category compose into one. */
  lemma ComposeProperties(w1: World, w2: World, w3: World, cat: Category)
    requires DefaultOfRecorded(w1, w2, cat) && DefaultOfRecorded(w2, w3, cat)
    ensures DefaultOfRecorded(w1, w3, cat)
  {
    if DefaultEngineKey(cat).Some? && DefaultEngineKey(cat).value !in w1.properties {
      SuffixSplit(w1.trace, w2.trace, w3.trace);
      FirstInitConcat(w2.trace[|w1.trace|..], w3.trace[|w2.trace|..], cat);
    }
  }

  // ---------------------------------------------------------------------------
  // Stages

  /** A property the bootstrap may add: some category's default-engine key. */
  ghost predicate IsDefaultEngineKey(k: string) {
    exists c :: DefaultEngineKey(c) == Some(k)
  }

  /** From `before` to `after`: the trace only grows, no property is overwritten or removed,
      the only properties added are default-engine keys, and each category's default
      property that was unset now names the first engine of that category initialised
      in between (and stays unset when none was). */
  ghost predicate DefaultsRecorded(before: World, after: World) {
    && before.trace <= after.trace
    && Kept(before.properties, after.properties)
    && (forall k :: k in after.properties && k !in before.properties ==> IsDefaultEngineKey(k))
    && (forall c :: DefaultEngineKey(c).Some? && DefaultEngineKey(c).value !in before.properties ==>
          Get(after.properties, DefaultEngineKey(c).value) == FirstInitName(after.trace[|before.trace|..], c))
  }

  lemma DefaultsRecordedTrans(w1: World, w2: World, w3: World)
    requires DefaultsRecorded(w1, w2) && DefaultsRecorded(w2, w3)
    ensures DefaultsRecorded(w1, w3)
  {
    SuffixSplit(w1.trace, w2.trace, w3.trace);
    forall c | DefaultEngineKey(c).Some? && DefaultEngineKey(c).value !in w1.properties
      ensures Get(w3.properties, DefaultEngineKey(c).value) == FirstInitName(w3.trace[|w1.trace|..], c)
    {
      FirstInitConcat(w2.trace[|w1.trace|..], w3.trace[|w2.trace|..], c);
    }
  }

  /** A stage that initialises no engine and touches no property records no default. */
  lemma DefaultsRecordedNoInit(w1: World, w2: World)
    requires w1.trace <= w2.trace && w2.properties == w1.properties
    requires forall i :: |w1.trace| <= i < |w2.trace| ==> !w2.trace[i].InitEngine?
    ensures DefaultsRecorded(w1, w2)
  {
    var added := w2.trace[|w1.trace|..];
    forall i | 0 <= i < |added| ensures !added[i].InitEngine? {
      assert added[i] == w2.trace[|w1.trace| + i];
    }
    forall c ensures FirstInitName(added, c) == None {
      NoInitNoFirst(added, c);
    }
  }

  /** Events of one stage p contain no init of a category of another stage. */
  lemma OtherStageNoFirst(t: seq<Event>, n: nat, p: nat, cat: Category)
    requires n <= |t| && PhasesWithin(t, n, p, p) && p != 1 + Rank(cat)
    ensures FirstInitName(t[n..], cat) == None
  {
    var added := t[n..];
    forall i | 0 <= i < |added| ensures Phase(added[i]) != 1 + Rank(cat) {
      assert added[i] == t[n + i];
    }
    FirstInitNone(added, cat);
  }

  /** The descriptor lists agree on every name and enabled flag. */
  ghost predicate SameFlags(a: seq<Descriptor>, b: seq<Descriptor>) {
    |a| == |b| && forall j :: 0 <= j < |a| ==> a[j].name == b[j].name && a[j].enabled == b[j].enabled
  }

  lemma {:induction false} SameFlagsEnabledCount(a: seq<Descriptor>, b: seq<Descriptor>)
    requires SameFlags(a, b)
    ensures EnabledCount(a) == EnabledCount(b)
    decreases |a|
  {
    if a != [] {
      assert SameFlags(a[1..], b[1..]) by {
        forall j | 0 <= j < |a| - 1 ensures a[1..][j].name == b[1..][j].name && a[1..][j].enabled == b[1..][j].enabled {
          assert a[1..][j] == a[j + 1] && b[1..][j] == b[j + 1];
        }
      }
      SameFlagsEnabledCount(a[1..], b[1..]);
    }
  }

  /** Whether a P2P engine is enabled depends only on names and flags. */
  lemma SameFlagsP2p(a: seq<Descriptor>, b: seq<Descriptor>)
    requires SameFlags(a, b)
    ensures HasP2pEngine(a) <==> HasP2pEngine(b)
  {
    if HasP2pEngine(a) {
      var j :| 0 <= j < |a| && IsP2pEngine(a[j]);
      assert IsP2pEngine(b[j]);
    }
    if HasP2pEngine(b) {
      var j :| 0 <= j < |b| && IsP2pEngine(b[j]);
      assert IsP2pEngine(a[j]);
    }
  }

  /** A category's loop over its configuration. */
  lemma CategoryTrace(w: World, cfg: Config, cat: Category, loader: Loader)
    requires cfg.baseDir.Some?
    ensures var b := InitCategory(w, cfg, cat, loader);
            w.trace <= b.world.trace && PhasesWithin(b.world.trace, |w.trace|, 1 + Rank(cat), 1 + Rank(cat))
  {
    InitFromTrace(w, cat, cfg.Engines(cat), 0, EnvOf(cfg, loader));
  }

  /** A category's loop rewrites only its own descriptor list, keeping names and flags, and
      fails only with the errors of its own category. */
  lemma CategoryConfig(w: World, cfg: Config, cat: Category, loader: Loader)
    requires cfg.baseDir.Some?
    ensures var b := InitCategory(w, cfg, cat, loader);
            && (forall c :: SameFlags(cfg.Engines(c), b.config.Engines(c)))
            && (forall c :: c != cat ==> b.config.Engines(c) == cfg.Engines(c))
            && (b.err.Some? ==> b.err.value == NameMissing(cat) || (b.err.value.EngineNotFound? && b.err.value.cat == cat))
  {
    var r := InitFrom(w, cat, cfg.Engines(cat), 0, EnvOf(cfg, loader));
    var b := InitCategory(w, cfg, cat, loader);
    assert b.config == cfg.WithEngines(cat, r.defs);
    InitFromDefs(w, cat, cfg.Engines(cat), 0, EnvOf(cfg, loader));
    CategoryErr(w, cfg, cat, loader);
    forall c ensures SameFlags(cfg.Engines(c), b.config.Engines(c)) {
      if c != cat {
        assert b.config.Engines(c) == cfg.Engines(c);
      }
    }
  }

  /** Without an error, a category's loop initialises one engine per enabled descriptor of
      its own category and none of any other. */
  lemma CategoryCount(w: World, cfg: Config, cat: Category, loader: Loader, k: Category)
    requires cfg.baseDir.Some?
    ensures var b := InitCategory(w, cfg, cat, loader);
            b.err.None? ==>
              Count(b.world.trace, InitOf(k)) == Count(w.trace, InitOf(k)) + (if k == cat then EnabledCount(cfg.Engines(cat)) else 0)
  {
    var b := InitCategory(w, cfg, cat, loader);
    CategoryTrace(w, cfg, cat, loader);
    if k == cat {
      InitFromCount(w, cat, cfg.Engines(cat), 0, EnvOf(cfg, loader));
      assert cfg.Engines(cat)[0..] == cfg.Engines(cat);
    } else {
      CountUnchanged(w.trace, b.world.trace, 1 + Rank(cat), 1 + Rank(cat), InitOf(k));
    }
  }

  /** A category's loop records its default engine as the first it initialised. */
  lemma CategoryDefaults(w: World, cfg: Config, cat: Category, loader: Loader)
    requires cfg.baseDir.Some?
    ensures DefaultsRecorded(w, InitCategory(w, cfg, cat, loader).world)
  {
    var b := InitCategory(w, cfg, cat, loader);
    InitFromProperties(w, cat, cfg.Engines(cat), 0, EnvOf(cfg, loader));
    CategoryTrace(w, cfg, cat, loader);
    forall k | k in b.world.properties && k !in w.properties ensures IsDefaultEngineKey(k) {
      assert DefaultEngineKey(cat) == Some(k);
    }
    forall c | c != cat ensures FirstInitName(b.world.trace[|w.trace|..], c) == None {
      OtherStageNoFirst(b.world.trace, |w.trace|, 1 + Rank(cat), c);
    }
  }

  /** initPluggableEngines stops at the first category whose loop fails. */
  lemma EnginesStages(w: World, cfg: Config, loader: Loader)
    requires cfg.baseDir.Some?
    ensures var b1 := InitCategory(w, cfg, Storage, loader);
            var b2 := InitCategory(b1.world, b1.config, Transaction, loader);
            var b3 := InitCategory(b2.world, b2.config, Sql, loader);
            var b4 := InitCategory(b3.world, b3.config, ProtocolServer, loader);
            InitEngines(w, cfg, loader) ==
              if b1.err.Some? then b1 else if b2.err.Some? then b2 else if b3.err.Some? then b3 else b4
  {
  }

  /** initPluggableEngines: storage calls, then transaction, sql and protocol server calls,
      in that order. */
  lemma EnginesTrace(w: World, cfg: Config, loader: Loader)
    requires cfg.baseDir.Some?
    ensures var b := InitEngines(w, cfg, loader);
            && w.trace <= b.world.trace
            && OrderedFrom(b.world.trace, |w.trace|) && PhasesWithin(b.world.trace, |w.trace|, 1, 4)
  {
    EnginesStages(w, cfg, loader);
    var b1 := InitCategory(w, cfg, Storage, loader);
    CategoryTrace(w, cfg, Storage, loader);
    Flat(w.trace, b1.world.trace, 1);
    if b1.err.None? {
      var b2 := InitCategory(b1.world, b1.config, Transaction, loader);
      CategoryTrace(b1.world, b1.config, Transaction, loader);
      Extend(w.trace, b1.world.trace, b2.world.trace, 1, 2);
      if b2.err.None? {
        var b3 := InitCategory(b2.world, b2.config, Sql, loader);
        CategoryTrace(b2.world, b2.config, Sql, loader);
        Extend(w.trace, b2.world.trace, b3.world.trace, 1, 3);
        if b3.err.None? {
          var b4 := InitCategory(b3.world, b3.config, ProtocolServer, loader);
          CategoryTrace(b3.world, b3.config, ProtocolServer, loader);
          Extend(w.trace, b3.world.trace, b4.world.trace, 1, 4);
        }
      }
    }
  }

  /** An ordered run of stages lo..p-1 followed by one stage p is an ordered run of lo..p. */
  lemma Extend(t1: seq<Event>, t2: seq<Event>, t3: seq<Event>, lo: nat, p: nat)
    requires t1 <= t2 <= t3 && lo <= p
    requires OrderedFrom(t2, |t1|) && PhasesWithin(t2, |t1|, lo, p)
    requires PhasesWithin(t3, |t2|, p, p)
    ensures OrderedFrom(t3, |t1|) && PhasesWithin(t3, |t1|, lo, p)
  {
    Flat(t2, t3, p);
    Chain(t1, t2, t3, lo, p, p);
  }

  /** initPluggableEngines keeps every descriptor's name and flag and fails only with a
      missing name or an engine it can not find. */
  lemma EnginesConfig(w: World, cfg: Config, loader: Loader)
    requires cfg.baseDir.Some?
    ensures var b := InitEngines(w, cfg, loader);
            && (forall c :: SameFlags(cfg.Engines(c), b.config.Engines(c)))
            && (b.err.Some? ==> b.err.value.NameMissing? || b.err.value.EngineNotFound?)
  {
    EnginesStages(w, cfg, loader);
    var b1 := InitCategory(w, cfg, Storage, loader);
    CategoryConfig(w, cfg, Storage, loader);
    if b1.err.None? {
      var b2 := InitCategory(b1.world, b1.config, Transaction, loader);
      CategoryConfig(b1.world, b1.config, Transaction, loader);
      if b2.err.None? {
        var b3 := InitCategory(b2.world, b2.config, Sql, loader);
        CategoryConfig(b2.world, b2.config, Sql, loader);
        if b3.err.None? {
          var b4 := InitCategory(b3.world, b3.config, ProtocolServer, loader);
          CategoryConfig(b3.world, b3.config, ProtocolServer, loader);
          forall c ensures SameFlags(cfg.Engines(c), b4.config.Engines(c)) {
            match c
            case Storage => assert b4.config.Engines(c) == b1.config.Engines(c);
            case Transaction => assert b4.config.Engines(c) == b2.config.Engines(c);
            case Sql => assert b4.config.Engines(c) == b3.config.Engines(c);
            case ProtocolServer => assert b3.config.Engines(c) == cfg.Engines(c);
          }
        }
      }
    }
  }

  /** Without an error, initPluggableEngines initialises one engine per enabled descriptor
      of each category. */
  lemma EnginesCount(w: World, cfg: Config, loader: Loader, k: Category)
    requires cfg.baseDir.Some?
    ensures var b := InitEngines(w, cfg, loader);
            b.err.None? ==> Count(b.world.trace, InitOf(k)) == Count(w.trace, InitOf(k)) + EnabledCount(cfg.Engines(k))
  {
    EnginesStages(w, cfg, loader);
    var b1 := InitCategory(w, cfg, Storage, loader);
    CategoryCount(w, cfg, Storage, loader, k);
    CategoryConfig(w, cfg, Storage, loader);
    if b1.err.None? {
      var b2 := InitCategory(b1.world, b1.config, Transaction, loader);
      CategoryCount(b1.world, b1.config, Transaction, loader, k);
      CategoryConfig(b1.world, b1.config, Transaction, loader);
      if b2.err.None? {
        var b3 := InitCategory(b2.world, b2.config, Sql, loader);
        CategoryCount(b2.world, b2.config, Sql, loader, k);
        CategoryConfig(b2.world, b2.config, Sql, loader);
        if b3.err.None? {
          CategoryCount(b3.world, b3.config, ProtocolServer, loader, k);
        }
      }
    }
  }

  /** initPluggableEngines records each category's default engine as the first it initialised. */
  lemma EnginesDefaults(w: World, cfg: Config, loader: Loader)
    requires cfg.baseDir.Some?
    ensures DefaultsRecorded(w, InitEngines(w, cfg, loader).world)
  {
    EnginesStages(w, cfg, loader);
    var b1 := InitCategory(w, cfg, Storage, loader);
    CategoryDefaults(w, cfg, Storage, loader);
    if b1.err.None? {
      var b2 := InitCategory(b1.world, b1.config, Transaction, loader);
      CategoryDefaults(b1.world, b1.config, Transaction, loader);
      DefaultsRecordedTrans(w, b1.world, b2.world);
      if b2.err.None? {
        var b3 := InitCategory(b2.world, b2.config, Sql, loader);
        CategoryDefaults(b2.world, b2.config, Sql, loader);
        DefaultsRecordedTrans(w, b2.world, b3.world);
        if b3.err.None? {
          var b4 := InitCategory(b3.world, b3.config, ProtocolServer, loader);
          CategoryDefaults(b3.world, b3.config, ProtocolServer, loader);
          DefaultsRecordedTrans(w, b3.world, b4.world);
        }
      }
    }
  }

  // ---------------------------------------------------------------------------
  // Server start

  /** The engine a protocol descriptor names is registered, so its server can start. */
  ghost predicate Startable(registry: map<string, Engine>, d: Descriptor) {
    d.name.Some? && d.name.value in registry
  }

  lemma CountLog(t: seq<Event>, e: Event, k: Kind)
    ensures Count(t + [e], k) == Count(t, k) + (if OfKind(e, k) then 1 else 0)
  {
    assert (t + [e])[..|t + [e]| - 1] == t;
  }

  /** startProtocolServers registers nothing and sets no property; it adds only start calls
      and fails only on a missing engine. */
  lemma {:induction false} StartShape(w: World, ds: seq<Descriptor>)
    ensures var s := StartServers(w, ds);
            && s.world.registries == w.registries && s.world.properties == w.properties
            && w.trace <= s.world.trace && PhasesWithin(s.world.trace, |w.trace|, 7, 7)
            && (s.err.Some? ==> s.err.value.ServerEngineMissing?)
    decreases |ds|
  {
    if ds != [] {
      if !ds[0].enabled {
        StartShape(w, ds[1..]);
      } else if Startable(w.registries.protocolServer, ds[0]) {
        var w1 := w.Log(StartServer(w.registries.protocolServer[ds[0].name.value], ds[0].parameters));
        StartShape(w1, ds[1..]);
        Chain(w.trace, w1.trace, StartServers(w1, ds[1..]).world.trace, 7, 7, 7);
      }
    }
  }

  /** Disabled descriptors play no part in startProtocolServers. */
  lemma {:induction false} StartSkipsDisabled(w: World, ds: seq<Descriptor>)
    ensures StartServers(w, ds) == StartServers(w, EnabledOnly(ds))
    decreases |ds|
  {
    if ds != [] {
      var rest := EnabledOnly(ds[1..]);
      if ds[0].enabled {
        assert EnabledOnly(ds) == [ds[0]] + rest;
        assert EnabledOnly(ds)[1..] == rest;
        if Startable(w.registries.protocolServer, ds[0]) {
          StartSkipsDisabled(w.Log(StartServer(w.registries.protocolServer[ds[0].name.value], ds[0].parameters)), ds[1..]);
        }
      } else {
        assert EnabledOnly(ds) == rest;
        StartSkipsDisabled(w, ds[1..]);
      }
    }
  }

  /** startProtocolServers succeeds exactly when every enabled descriptor names a registered
      engine; otherwise it reports the first enabled descriptor that does not. */
  lemma {:induction false} StartSucceedsIff(w: World, ds: seq<Descriptor>)
    ensures var s := StartServers(w, ds);
            && (s.err.None? <==> forall j :: 0 <= j < |ds| && ds[j].enabled ==> Startable(w.registries.protocolServer, ds[j]))
            && (s.err.Some? ==>
                  exists j :: 0 <= j < |ds| && ds[j].enabled && !Startable(w.registries.protocolServer, ds[j])
                    && (forall i :: 0 <= i < j && ds[i].enabled ==> Startable(w.registries.protocolServer, ds[i]))
                    && s.err.value == ServerEngineMissing(ds[j].name))
    decreases |ds|
  {
    var reg := w.registries.protocolServer;
    if ds != [] {
      var s := StartServers(w, ds);
      var w1 := if ds[0].enabled && Startable(reg, ds[0]) then w.Log(StartServer(reg[ds[0].name.value], ds[0].parameters)) else w;
      if !ds[0].enabled || Startable(reg, ds[0]) {
        assert s == StartServers(w1, ds[1..]);
        StartSucceedsIff(w1, ds[1..]);
        assert w1.registries == w.registries;
        forall j | 1 <= j < |ds| ensures ds[1..][j - 1] == ds[j] { }
        if s.err.Some? {
          var j :| 0 <= j < |ds[1..]| && ds[1..][j].enabled && !Startable(reg, ds[1..][j])
                   && (forall i :: 0 <= i < j && ds[1..][i].enabled ==> Startable(reg, ds[1..][i]))
                   && s.err.value == ServerEngineMissing(ds[1..][j].name);
          assert ds[j + 1] == ds[1..][j];
          forall i | 0 <= i < j + 1 && ds[i].enabled ensures Startable(reg, ds[i]) {
            if i > 0 { assert ds[i] == ds[1..][i - 1]; }
          }
        }
      }
    }
  }

  /** Without an error, startProtocolServers starts one server per enabled descriptor. */
  lemma {:induction false} StartCount(w: World, ds: seq<Descriptor>)
    ensures var s := StartServers(w, ds);
            s.err.None? ==> Count(s.world.trace, StartCall) == Count(w.trace, StartCall) + EnabledCount(ds)
    decreases |ds|
  {
    if ds != [] {
      if !ds[0].enabled {
        StartCount(w, ds[1..]);
      } else if Startable(w.registries.protocolServer, ds[0]) {
        var e := StartServer(w.registries.protocolServer[ds[0].name.value], ds[0].parameters);
        assert StartServers(w, ds) == StartServers(w.Log(e), ds[1..]);
        StartCount(w.Log(e), ds[1..]);
        CountLog(w.trace, e, StartCall);
      }
    }
  }

  // ---------------------------------------------------------------------------
  // init and main

  /** init past a valid base_dir: the engines, then (if they all initialised) the database
      and, when an enabled protocol descriptor is the P2P engine, the cluster metadata. */
  lemma InitAllAfterBaseDir(w: World, cfg: Config, loader: Loader)
    requires ValidBaseDir(cfg.baseDir)
    ensures var eb := InitEngines(w.Log(SetBaseDir(cfg.baseDir.value)), cfg, loader);
            var b := InitAll(w, cfg, loader);
            && (eb.err.Some? ==> b == eb)
            && (eb.err.None? ==>
                  && b.err.None? && b.config == eb.config
                  && b.world.registries == eb.world.registries && b.world.properties == eb.world.properties
                  && b.world.trace == if HasP2pEngine(eb.config.protocolServerEngines)
                                      then eb.world.trace + [DatabaseInit] + [ClusterInit]
                                      else eb.world.trace + [DatabaseInit])
  {
  }

  /** main past a successful init: the servers are started from the rewritten configuration. */
  lemma LaunchAfterInit(w: World, cfg: Config, loader: Loader)
    requires InitAll(w, cfg, loader).err.None?
    ensures var i := InitAll(w, cfg, loader);
            var s := StartServers(i.world, i.config.protocolServerEngines);
            Launch(w, cfg, loader) == Boot(s.world, i.config, s.err)
  {
  }

  /** init: set base_dir, then the engines in stage order, then the database, then the
      cluster metadata. */
  lemma InitAllTrace(w: World, cfg: Config, loader: Loader)
    ensures var b := InitAll(w, cfg, loader);
            && w.trace <= b.world.trace
            && OrderedFrom(b.world.trace, |w.trace|) && PhasesWithin(b.world.trace, |w.trace|, 0, 6)
            && (b.err.Some? ==> PhasesWithin(b.world.trace, |w.trace|, 0, 4))
  {
    if ValidBaseDir(cfg.baseDir) {
      var w0 := w.Log(SetBaseDir(cfg.baseDir.value));
      var eb := InitEngines(w0, cfg, loader);
      InitAllAfterBaseDir(w, cfg, loader);
      EnginesTrace(w0, cfg, loader);
      Chain(w.trace, w0.trace, eb.world.trace, 0, 1, 4);
      if eb.err.None? {
        TailOrdered(w.trace, eb.world.trace);
      }
    }
  }

  /** The database and cluster metadata calls come after the engines' calls. */
  lemma TailOrdered(t0: seq<Event>, t: seq<Event>)
    requires t0 <= t && OrderedFrom(t, |t0|) && PhasesWithin(t, |t0|, 0, 4)
    ensures OrderedFrom(t + [DatabaseInit], |t0|) && PhasesWithin(t + [DatabaseInit], |t0|, 0, 6)
    ensures OrderedFrom(t + [DatabaseInit] + [ClusterInit], |t0|) && PhasesWithin(t + [DatabaseInit] + [ClusterInit], |t0|, 0, 6)
  {
    var t1 := t + [DatabaseInit];
    Chain(t0, t, t1, 0, 5, 5);
    Chain(t0, t1, t1 + [ClusterInit], 0, 6, 6);
  }

  /** init publishes base_dir before anything else, and refuses a null or empty one
      without any call at all. */
  lemma InitAllBaseDirFirst(w: World, cfg: Config, loader: Loader)
    ensures var b := InitAll(w, cfg, loader);
            && (!ValidBaseDir(cfg.baseDir) ==> b == Boot(w, cfg, Some(BaseDirMissing)))
            && (ValidBaseDir(cfg.baseDir) ==>
                  |b.world.trace| > |w.trace| && b.world.trace[|w.trace|] == SetBaseDir(cfg.baseDir.value))
  {
    if ValidBaseDir(cfg.baseDir) {
      var w0 := w.Log(SetBaseDir(cfg.baseDir.value));
      var eb := InitEngines(w0, cfg, loader);
      InitAllAfterBaseDir(w, cfg, loader);
      EnginesTrace(w0, cfg, loader);
      assert eb.world.trace[|w.trace|] == w0.trace[|w.trace|];
    }
  }

  /** init keeps every descriptor's name and flag; it fails with BaseDirMissing exactly when
      base_dir is null or empty, and otherwise only with an engine configuration error. */
  lemma InitAllConfig(w: World, cfg: Config, loader: Loader)
    ensures var b := InitAll(w, cfg, loader);
            && (forall c :: SameFlags(cfg.Engines(c), b.config.Engines(c)))
            && (b.err == Some(BaseDirMissing) <==> !ValidBaseDir(cfg.baseDir))
            && (b.err.Some? ==> b.err.value.BaseDirMissing? || b.err.value.NameMissing? || b.err.value.EngineNotFound?)
  {
    if ValidBaseDir(cfg.baseDir) {
      InitAllAfterBaseDir(w, cfg, loader);
      EnginesConfig(w.Log(SetBaseDir(cfg.baseDir.value)), cfg, loader);
    }
  }

  /** init records each category's default engine as the first it initialised. */
  lemma InitAllDefaults(w: World, cfg: Config, loader: Loader)
    ensures DefaultsRecorded(w, InitAll(w, cfg, loader).world)
  {
    if ValidBaseDir(cfg.baseDir) {
      var w0 := w.Log(SetBaseDir(cfg.baseDir.value));
      var b := InitAll(w, cfg, loader);
      var eb := InitEngines(w0, cfg, loader);
      InitAllAfterBaseDir(w, cfg, loader);
      DefaultsRecordedNoInit(w, w0);
      EnginesDefaults(w0, cfg, loader);
      DefaultsRecordedTrans(w, w0, eb.world);
      if eb.err.None? {
        DefaultsRecordedNoInit(eb.world, b.world);
        DefaultsRecordedTrans(w, eb.world, b.world);
      }
    }
  }

  /** init calls the database initialisation once when it succeeds, the cluster metadata
      initialisation once exactly when it succeeds and an enabled protocol descriptor is
      the P2P engine, and starts no server. */
  lemma InitAllCalls(w: World, cfg: Config, loader: Loader)
    ensures var b := InitAll(w, cfg, loader);
            && Count(b.world.trace, DatabaseCall) == Count(w.trace, DatabaseCall) + (if b.err.None? then 1 else 0)
            && Count(b.world.trace, ClusterCall) == Count(w.trace, ClusterCall) +
                 (if b.err.None? && HasP2pEngine(cfg.protocolServerEngines) then 1 else 0)
            && Count(b.world.trace, StartCall) == Count(w.trace, StartCall)
  {
    InitAllCount(w, cfg, loader, DatabaseCall);
    InitAllCount(w, cfg, loader, ClusterCall);
    InitAllCount(w, cfg, loader, StartCall);
  }

  /** The count of one kind of call other than engine init across init. */
  lemma InitAllCount(w: World, cfg: Config, loader: Loader, k: Kind)
    requires !k.InitOf?
    ensures var b := InitAll(w, cfg, loader);
            Count(b.world.trace, k) == Count(w.trace, k) +
              (if b.err.None? && (k == DatabaseCall || (k == ClusterCall && HasP2pEngine(cfg.protocolServerEngines))) then 1 else 0)
  {
    if ValidBaseDir(cfg.baseDir) {
      var w0 := w.Log(SetBaseDir(cfg.baseDir.value));
      var eb := InitEngines(w0, cfg, loader);
      InitAllAfterBaseDir(w, cfg, loader);
      EnginesTrace(w0, cfg, loader);
      Chain(w.trace, w0.trace, eb.world.trace, 0, 1, 4);
      CountUnchanged(w.trace, eb.world.trace, 0, 4, k);
      if eb.err.None? {
        EnginesConfig(w0, cfg, loader);
        SameFlagsP2p(cfg.protocolServerEngines, eb.config.protocolServerEngines);
        TailCounts(eb.world.trace, k);
      }
    }
  }

  /** What the database and cluster metadata calls add to each count. */
  lemma TailCounts(t: seq<Event>, k: Kind)
    ensures Count(t + [DatabaseInit], k) == Count(t, k) + (if k == DatabaseCall then 1 else 0)
    ensures Count(t + [DatabaseInit] + [ClusterInit], k) == Count(t, k) + (if k == DatabaseCall || k == ClusterCall then 1 else 0)
  {
    CountLog(t, DatabaseInit, k);
    CountLog(t + [DatabaseInit], ClusterInit, k);
  }

  /** When init succeeds it has initialised one engine per enabled descriptor of each category. */
  lemma InitAllInits(w: World, cfg: Config, loader: Loader, k: Category)
    ensures var b := InitAll(w, cfg, loader);
            b.err.None? ==> Count(b.world.trace, InitOf(k)) == Count(w.trace, InitOf(k)) + EnabledCount(cfg.Engines(k))
  {
    if ValidBaseDir(cfg.baseDir) {
      var w0 := w.Log(SetBaseDir(cfg.baseDir.value));
      var eb := InitEngines(w0, cfg, loader);
      InitAllAfterBaseDir(w, cfg, loader);
      if eb.err.None? {
        CountLog(w.trace, SetBaseDir(cfg.baseDir.value), InitOf(k));
        EnginesCount(w0, cfg, loader, k);
        TailCounts(eb.world.trace, InitOf(k));
      }
    }
  }

  /** main: base_dir is checked before anything else happens; init and start fail only
      for their own reasons. */
  lemma BaseDirCheckedFirst(w: World, cfg: Config, loader: Loader)
    ensures var b := Launch(w, cfg, loader);
            && (b.err == Some(BaseDirMissing) <==> !ValidBaseDir(cfg.baseDir))
            && (!ValidBaseDir(cfg.baseDir) ==> b == Boot(w, cfg, Some(BaseDirMissing)))
            && (ValidBaseDir(cfg.baseDir) ==>
                  |b.world.trace| > |w.trace| && b.world.trace[|w.trace|] == SetBaseDir(cfg.baseDir.value))
  {
    var i := InitAll(w, cfg, loader);
    InitAllTrace(w, cfg, loader);
    InitAllBaseDirFirst(w, cfg, loader);
    InitAllConfig(w, cfg, loader);
    if i.err.None? {
      LaunchAfterInit(w, cfg, loader);
      StartShape(i.world, i.config.protocolServerEngines);
    }
  }

  /** main's calls come in stage order: base_dir, storage, transaction, sql and protocol
      engines, the database, the cluster metadata, then the servers. */
  lemma LaunchOrdered(w: World, cfg: Config, loader: Loader)
    ensures var b := Launch(w, cfg, loader);
            w.trace <= b.world.trace && OrderedFrom(b.world.trace, |w.trace|) && PhasesWithin(b.world.trace, |w.trace|, 0, 7)
  {
    var i := InitAll(w, cfg, loader);
    InitAllTrace(w, cfg, loader);
    if i.err.None? {
      var s := StartServers(i.world, i.config.protocolServerEngines);
      LaunchAfterInit(w, cfg, loader);
      StartShape(i.world, i.config.protocolServerEngines);
      Flat(i.world.trace, s.world.trace, 7);
      Chain(w.trace, i.world.trace, s.world.trace, 0, 6, 7);
    }
  }

  /** main never overwrites or removes a property; it adds only default-engine properties,
      each naming the first engine of its category that was initialised. */
  lemma LaunchDefaults(w: World, cfg: Config, loader: Loader)
    ensures DefaultsRecorded(w, Launch(w, cfg, loader).world)
  {
    var i := InitAll(w, cfg, loader);
    InitAllDefaults(w, cfg, loader);
    if i.err.None? {
      var s := StartServers(i.world, i.config.protocolServerEngines);
      LaunchAfterInit(w, cfg, loader);
      StartShape(i.world, i.config.protocolServerEngines);
      DefaultsRecordedNoInit(i.world, s.world);
      DefaultsRecordedTrans(w, i.world, s.world);
    }
  }

  /** The cluster metadata is initialised at most once, and exactly when init succeeds and an
      enabled protocol descriptor is the P2P engine, whatever happens at server start. */
  lemma ClusterInitAtMostOnce(w: World, cfg: Config, loader: Loader)
    ensures Count(Launch(w, cfg, loader).world.trace, ClusterCall) ==
              Count(w.trace, ClusterCall) + (if InitAll(w, cfg, loader).err.None? && HasP2pEngine(cfg.protocolServerEngines) then 1 else 0)
  {
    var i := InitAll(w, cfg, loader);
    InitAllCalls(w, cfg, loader);
    if i.err.None? {
      var s := StartServers(i.world, i.config.protocolServerEngines);
      LaunchAfterInit(w, cfg, loader);
      StartShape(i.world, i.config.protocolServerEngines);
      CountUnchanged(i.world.trace, s.world.trace, 7, 7, ClusterCall);
    }
  }

  /** A successful main initialises one engine per enabled descriptor of each category. */
  lemma LaunchInits(w: World, cfg: Config, loader: Loader, k: Category)
    ensures var b := Launch(w, cfg, loader);
            b.err.None? ==> Count(b.world.trace, InitOf(k)) == Count(w.trace, InitOf(k)) + EnabledCount(cfg.Engines(k))
  {
    var i := InitAll(w, cfg, loader);
    if i.err.None? {
      var s := StartServers(i.world, i.config.protocolServerEngines);
      LaunchAfterInit(w, cfg, loader);
      InitAllInits(w, cfg, loader, k);
      StartShape(i.world, i.config.protocolServerEngines);
      CountUnchanged(i.world.trace, s.world.trace, 7, 7, InitOf(k));
    }
  }

  /** A successful main initialises the database once and starts one server per enabled
      protocol descriptor. */
  lemma LaunchStarts(w: World, cfg: Config, loader: Loader)
    ensures var b := Launch(w, cfg, loader);
            b.err.None? ==>
              && Count(b.world.trace, DatabaseCall) == Count(w.trace, DatabaseCall) + 1
              && Count(b.world.trace, StartCall) == Count(w.trace, StartCall) + EnabledCount(cfg.protocolServerEngines)
  {
    var i := InitAll(w, cfg, loader);
    if i.err.None? {
      var s := StartServers(i.world, i.config.protocolServerEngines);
      LaunchAfterInit(w, cfg, loader);
      InitAllCalls(w, cfg, loader);
      InitAllConfig(w, cfg, loader);
      StartShape(i.world, i.config.protocolServerEngines);
      StartCount(i.world, i.config.protocolServerEngines);
      CountUnchanged(i.world.trace, s.world.trace, 7, 7, DatabaseCall);
      SameFlagsEnabledCount(cfg.protocolServerEngines, i.config.protocolServerEngines);
    }
  }

  /** After a successful init, main succeeds exactly when every enabled protocol descriptor
      names an engine registered by then. */
  lemma ServersStartIff(w: World, cfg: Config, loader: Loader)
    requires InitAll(w, cfg, loader).err.None?
    ensures var reg := InitAll(w, cfg, loader).world.registries.protocolServer;
            var ds := cfg.protocolServerEngines;
            Launch(w, cfg, loader).err.None? <==> forall j :: 0 <= j < |ds| && ds[j].enabled ==> Startable(reg, ds[j])
  {
    var i := InitAll(w, cfg, loader);
    InitAllConfig(w, cfg, loader);
    LaunchAfterInit(w, cfg, loader);
    StartSucceedsIff(i.world, i.config.protocolServerEngines);
    assert SameFlags(cfg.protocolServerEngines, i.config.protocolServerEngines);
  }

  /** The order of the calls main makes: engines are initialised category by category
      (storage, transaction, sql, protocol server), all of them before the database
      initialisation, which comes before the cluster metadata, which comes before any
      server start. */
  lemma CallsInStageOrder(w: World, cfg: Config, loader: Loader)
    ensures var t := Launch(w, cfg, loader).world.trace;
            && (forall i, j :: |w.trace| <= i < j < |t| && t[i].InitEngine? && t[j].InitEngine? ==> Rank(t[i].cat) <= Rank(t[j].cat))
            && (forall i, j :: |w.trace| <= i < j < |t| && t[j].InitEngine? ==>
                  !t[i].DatabaseInit? && !t[i].ClusterInit? && !t[i].StartServer?)
            && (forall i, j :: |w.trace| <= i < j < |t| && t[j].DatabaseInit? ==> !t[i].ClusterInit? && !t[i].StartServer?)
            && (forall i, j :: |w.trace| <= i < j < |t| && t[j].ClusterInit? ==> !t[i].StartServer?)
  {
    LaunchOrdered(w, cfg, loader);
  }

  /** base_dir is not trimmed: a base_dir of one space passes the check and is published. */
  lemma BlankBaseDirAccepted(w: World, cfg: Config, loader: Loader)
    requires cfg.baseDir == Some(" ")
    ensures var b := Launch(w, cfg, loader);
            b.err != Some(BaseDirMissing) && |b.world.trace| > |w.trace| && b.world.trace[|w.trace|] == SetBaseDir(" ")
  {
    BaseDirCheckedFirst(w, cfg, loader);
  }

  // ---------------------------------------------------------------------------
  // Fatal errors

  /** err is one of the configuration errors raised by category c's loop. */
  ghost predicate EngineErrorOf(err: Option<Error>, c: Category) {
    err == Some(NameMissing(c)) || (err.Some? && err.value.EngineNotFound? && err.value.cat == c)
  }

  /** The first failing descriptor ends its category's loop: no later descriptor is visited
      and the descriptor list is left as it was at that point. */
  lemma InitFromStopsAtError(w: World, cat: Category, ds: seq<Descriptor>, i: nat, env: Env)
    requires i < |ds|
    ensures var s := InitDef(w, cat, ds[i], env);
            s.err.Some? ==> InitFrom(w, cat, ds, i, env) == Run(s.world, ds, s.err)
  {
  }

  /** A category's loop fails only with its own category's errors. */
  lemma CategoryErr(w: World, cfg: Config, cat: Category, loader: Loader)
    requires cfg.baseDir.Some?
    ensures var b := InitCategory(w, cfg, cat, loader);
            b.err.Some? ==> EngineErrorOf(b.err, cat)
  {
    InitFromErr(w, cat, cfg.Engines(cat), 0, EnvOf(cfg, loader));
  }

  /** Two consecutive stages whose phases lie in lo..mid and mid2..hi together lie in lo..hi. */
  lemma Stack(t1: seq<Event>, t2: seq<Event>, t3: seq<Event>, lo: nat, mid: nat, mid2: nat, hi: nat)
    requires t1 <= t2 <= t3 && lo <= mid2 && mid <= hi
    requires PhasesWithin(t2, |t1|, lo, mid) && PhasesWithin(t3, |t2|, mid2, hi)
    ensures PhasesWithin(t3, |t1|, lo, hi)
  {
    forall i | |t1| <= i < |t2| ensures t3[i] == t2[i] { }
  }

  /** A configuration error of category c ends initPluggableEngines: the only calls made are
      those of the categories up to c, so no later category is touched. */
  lemma EnginesStopAtError(w: World, cfg: Config, loader: Loader, c: Category)
    requires cfg.baseDir.Some?
    ensures var b := InitEngines(w, cfg, loader);
            EngineErrorOf(b.err, c) ==> w.trace <= b.world.trace && PhasesWithin(b.world.trace, |w.trace|, 1, 1 + Rank(c))
  {
    var b := InitEngines(w, cfg, loader);
    if EngineErrorOf(b.err, c) {
      EnginesStages(w, cfg, loader);
      var b1 := InitCategory(w, cfg, Storage, loader);
      CategoryTrace(w, cfg, Storage, loader);
      CategoryErr(w, cfg, Storage, loader);
      if b1.err.None? {
        var b2 := InitCategory(b1.world, b1.config, Transaction, loader);
        CategoryTrace(b1.world, b1.config, Transaction, loader);
        CategoryErr(b1.world, b1.config, Transaction, loader);
        Stack(w.trace, b1.world.trace, b2.world.trace, 1, 1, 2, 2);
        if b2.err.None? {
          var b3 := InitCategory(b2.world, b2.config, Sql, loader);
          CategoryTrace(b2.world, b2.config, Sql, loader);
          CategoryErr(b2.world, b2.config, Sql, loader);
          Stack(w.trace, b2.world.trace, b3.world.trace, 1, 2, 3, 3);
          if b3.err.None? {
            var b4 := InitCategory(b3.world, b3.config, ProtocolServer, loader);
            CategoryTrace(b3.world, b3.config, ProtocolServer, loader);
            CategoryErr(b3.world, b3.config, ProtocolServer, loader);
            Stack(w.trace, b3.world.trace, b4.world.trace, 1, 3, 4, 4);
          }
        }
      }
    }
  }

  /** A failing init ends main: the bootstrap's result is init's, and no database, cluster
      metadata or server call is made. */
  lemma InitErrorEndsRun(w: World, cfg: Config, loader: Loader)
    ensures var i := InitAll(w, cfg, loader);
            i.err.Some? ==>
              && Launch(w, cfg, loader) == i
              && Count(i.world.trace, DatabaseCall) == Count(w.trace, DatabaseCall)
              && Count(i.world.trace, ClusterCall) == Count(w.trace, ClusterCall)
              && Count(i.world.trace, StartCall) == Count(w.trace, StartCall)
  {
    InitAllCalls(w, cfg, loader);
  }

  /** A missing name or an engine that can not be found in category c ends main: besides
      publishing base_dir, the only calls made are those of the categories up to c. */
  lemma EngineErrorEndsRun(w: World, cfg: Config, loader: Loader, c: Category)
    ensures var b := Launch(w, cfg, loader);
            EngineErrorOf(b.err, c) ==>
              && b == InitAll(w, cfg, loader)
              && w.trace <= b.world.trace && PhasesWithin(b.world.trace, |w.trace|, 0, 1 + Rank(c))
  {
    var b := Launch(w, cfg, loader);
    var i := InitAll(w, cfg, loader);
    if EngineErrorOf(b.err, c) {
      if i.err.None? {
        LaunchAfterInit(w, cfg, loader);
        StartShape(i.world, i.config.protocolServerEngines);
      } else if ValidBaseDir(cfg.baseDir) {
        var w0 := w.Log(SetBaseDir(cfg.baseDir.value));
        var eb := InitEngines(w0, cfg, loader);
        InitAllAfterBaseDir(w, cfg, loader);
        EnginesStopAtError(w0, cfg, loader, c);
        Stack(w.trace, w0.trace, eb.world.trace, 0, 0, 1, 1 + Rank(c));
      }
    }
  }

  /** startProtocolServers stops at the first enabled descriptor whose engine is not
      registered: it reports that descriptor and starts only the servers before it. */
  lemma {:induction false} StartStopsAtMissing(w: World, ds: seq<Descriptor>, j: nat)
    requires j < |ds| && ds[j].enabled && !Startable(w.registries.protocolServer, ds[j])
    requires forall i :: 0 <= i < j && ds[i].enabled ==> Startable(w.registries.protocolServer, ds[i])
    ensures var s := StartServers(w, ds);
            && s.err == Some(ServerEngineMissing(ds[j].name))
            && Count(s.world.trace, StartCall) == Count(w.trace, StartCall) + EnabledCount(ds[..j])
    decreases j
  {
    if j > 0 {
      assert ds[1..][..j - 1] == ds[..j][1..];
      if ds[0].enabled {
        var w1 := w.Log(StartServer(w.registries.protocolServer[ds[0].name.value], ds[0].parameters));
        CountLog(w.trace, StartServer(w.registries.protocolServer[ds[0].name.value], ds[0].parameters), StartCall);
        StartStopsAtMissing(w1, ds[1..], j - 1);
      } else {
        StartStopsAtMissing(w, ds[1..], j - 1);
      }
    }
  }
}
