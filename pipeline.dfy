/**
 * Pipeline assembly and execution.
 *
 * A configuration document lists stage identifiers.  Assembly resolves each
 * one to a stage class, links it to its predecessor by the first of the
 * predecessor's provider names (in table order) that the new class
 * consumes, configures it, and finally requires the last stage to provide
 * the sentinel name "None".  Execution threads one value through the chain
 * of consume/provide calls.
 *
 * The pure functions below (`NamesOf`, `Resolve`, `Initial`, `Successor`,
 * `Extend`, `ConfigureLast`, `Chain`, `Finish`, `Build`, `Turn`, `RunTo`,
 * `Run`) state what the
 * source computes; the classes `StageWrapper` and `Pipeline` do it step by
 * step, in place, and are proved to agree with them.
 */
module Pipelines {
  import opened Wrappers
  import opened Capabilities
  import opened Stages

  /** The one capability name used both for "no input" (first stage) and "no output" (last stage). */
  const Sentinel: string := "None"

  // ---------------------------------------------------------------------
  // Stage identifiers: `str.split('.')` and `'.'.join(...)`
  // ---------------------------------------------------------------------

  /** The number of dots in `s`. */
  function Dots(s: string): nat
  {
    if s == [] then 0 else (if s[0] == '.' then 1 else 0) + Dots(s[1..])
  }

  /** `s.split('.')`: the segments between the dots. */
  function Split(s: string): seq<string>
  {
    if s == [] then [""]
    else
      var rest := Split(s[1..]);
      if s[0] == '.' then [""] + rest
      else [[s[0]] + rest[0]] + rest[1..]
  }

  /** `split` yields one segment more than there are dots, and no segment contains a dot. */
  lemma {:induction false} SplitSegments(s: string)
    ensures |Split(s)| == Dots(s) + 1
    ensures forall i :: 0 <= i < |Split(s)| ==> '.' !in Split(s)[i]
  {
    if s != [] {
      SplitSegments(s[1..]);
      var rest := Split(s[1..]);
      if s[0] != '.' {
        assert '.' !in [s[0]] + rest[0];
        assert forall i :: 1 <= i < |Split(s)| ==> Split(s)[i] == rest[i];
      }
    }
  }

  /** `'.'.join(segs)`. */
  function Join(segs: seq<string>): string
  {
    if |segs| == 0 then ""
    else if |segs| == 1 then segs[0]
    else segs[0] + "." + Join(segs[1..])
  }

  /** The error conditions of assembly and execution, one per exception the source raises. */
  datatype Error =
    | MalformedIdentifier(id: string)               // IndexError: fewer than two segments
    | ModuleNotFound(path: string)                  // __import__ fails
    | NoSuchMember(path: string, cls: string)       // getattr fails
    | NotAClass(id: string)                         // 'Class named ... not found'
    | MissingConsumer(cls: string, consumer: string) // '... does not have a ... Consumer'
    | NotAStage(cls: string)                        // '... is not a Pipeline Stage'
    | NoConsumerForPrecedents(id: string)           // '... has no Consumer for precedents'
    | FinalNotSink                                  // 'Final stage does not implement "None" provider'
    | Dispatch(failure: DispatchError)              // a RuntimeError from consume or provide

  /** The parts `setNames` derives from an identifier `a.b.Script.Class`. */
  datatype Names = Names(moduleName: string, script: string, className: string, configName: string)

  /**
   * `setNames`: the class is the last segment, the script the one before it,
   * the module the remaining segments joined by dots; the configuration key
   * is the three joined by dots.  Fewer than two segments raise.
   */
  function NamesOf(id: string): Result<Names, Error>
  {
    var segs := Split(id);
    if |segs| < 2 then Err(MalformedIdentifier(id))
    else
      var moduleName := Join(segs[..|segs| - 2]);
      var script := segs[|segs| - 2];
      var className := segs[|segs| - 1];
      Ok(Names(moduleName, script, className, Join([moduleName, script, className])))
  }

  // ---------------------------------------------------------------------
  // Resolving an identifier: `loadModule`
  // ---------------------------------------------------------------------

  /** What `getattr(module, className)` finds: something that is not a class, or a class. */
  datatype Member = NonClass | ClassMember(kind: StageType)

  /** The importable modules by dotted path, each with its members by name. */
  type Registry = map<string, map<string, Member>>

  /** The path `loadModule` imports: module and script joined by a dot. */
  function ImportPath(n: Names): string
  {
    n.moduleName + "." + n.script
  }

  /** `loadModule`: split the identifier, import the script, fetch the class. */
  function Resolve(id: string, reg: Registry): Result<(Names, StageType), Error>
  {
    match NamesOf(id)
    case Err(e) => Err(e)
    case Ok(n) =>
      if ImportPath(n) !in reg then Err(ModuleNotFound(ImportPath(n)))
      else if n.className !in reg[ImportPath(n)] then Err(NoSuchMember(ImportPath(n), n.className))
      else
        match reg[ImportPath(n)][n.className]
        case NonClass => Err(NotAClass(id))
        case ClassMember(t) => Ok((n, t))
  }

  // ---------------------------------------------------------------------
  // Linking
  // ---------------------------------------------------------------------

  /**
   * The checks of `instantiateConsumerOf`: the class must have both tables
   * and consume the name, and its instances must be `Stage`s.
   */
  function InstantiateError(t: StageType, cls: string, consumer: string): Option<Error>
  {
    if t.consumers.None? || t.providers.None? || consumer !in Keys(t.consumers.value) then
      Some(MissingConsumer(cls, consumer))
    else if !t.isStage then Some(NotAStage(cls))
    else None
  }

  /** A stage class that can be instantiated as the consumer of `consumer`. */
  predicate CanConsume(t: StageType, consumer: string)
  {
    t.consumers.Some? && t.providers.Some? && consumer in Keys(t.consumers.value) && t.isStage
  }

  /** The provider names of a class, in table order. */
  function ProviderKeys(t: StageType): seq<string>
  {
    if t.providers.Some? then Keys(t.providers.value) else []
  }

  /**
   * The greedy choice of `loadAdditionalStage`: the first name of `ps`
   * that `t` can consume, or none when it consumes none of them.
   */
  function FirstLink(ps: seq<string>, t: StageType): Option<string>
  {
    if ps == [] then None
    else if CanConsume(t, ps[0]) then Some(ps[0])
    else FirstLink(ps[1..], t)
  }

  /** `FirstLink` finds nothing exactly when no name fits, and otherwise the first name that fits. */
  lemma {:induction false} FirstLinkSpec(ps: seq<string>, t: StageType)
    ensures FirstLink(ps, t).None? <==> forall j :: 0 <= j < |ps| ==> !CanConsume(t, ps[j])
    ensures FirstLink(ps, t).Some? ==>
      exists i :: 0 <= i < |ps| && ps[i] == FirstLink(ps, t).value && CanConsume(t, ps[i]) &&
                  forall j :: 0 <= j < i ==> !CanConsume(t, ps[j])
  {
    if ps != [] && !CanConsume(t, ps[0]) {
      FirstLinkSpec(ps[1..], t);
      assert forall j :: 1 <= j < |ps| ==> ps[j] == ps[1..][j - 1];
      var r := FirstLink(ps[1..], t);
      if r.Some? {
        var i :| 0 <= i < |ps[1..]| && ps[1..][i] == r.value && CanConsume(t, ps[1..][i]) &&
                 forall j :: 0 <= j < i ==> !CanConsume(t, ps[1..][j]);
        assert ps[i + 1] == r.value;
      }
    }
  }

  /** One element of the assembled pipeline: a stage, the names it consumes and provides, its configuration. */
  datatype Binding = Binding(names: Names, kind: StageType, consumer: string, provider: string, configuration: Value)

  /** The parsed configuration: the `'Pipeline'` list (absent, or a list) and the per-stage entries. */
  datatype Document = Document(pipeline: Option<seq<string>>, stages: map<string, Value>)

  /** A stage validates its configuration entry against a schema; the verdict is never used. */
  datatype Schema = Schema(validates: Value -> bool)

  /** `loadInitialStage`: the first stage must consume the sentinel; it provides nothing yet. */
  function Initial(id: string, reg: Registry): Result<Binding, Error>
  {
    match Resolve(id, reg)
    case Err(e) => Err(e)
    case Ok(r) =>
      match InstantiateError(r.1, r.0.className, Sentinel)
      case Some(e) => Err(e)
      case None => Ok(Binding(r.0, r.1, Sentinel, "", Dict(map[])))
  }

  /**
   * The search of `loadAdditionalStage` among the provider names `ps` of the
   * last stage: the new stage's names and class, and the first of `ps` that
   * the class can be instantiated as the consumer of.
   */
  function Successor(id: string, reg: Registry, ps: seq<string>): Result<(Names, StageType, string), Error>
  {
    match Resolve(id, reg)
    case Err(e) => Err(e)
    case Ok(r) =>
      match FirstLink(ps, r.1)
      case None => Err(NoConsumerForPrecedents(id))
      case Some(p) => Ok((r.0, r.1, p))
  }

  /**
   * `loadAdditionalStage`: link a further stage by the first provider name of
   * the last stage that it consumes, recording that name on both sides.
   */
  function Extend(acc: seq<Binding>, id: string, reg: Registry): Result<seq<Binding>, Error>
    requires |acc| > 0
  {
    var last := acc[|acc| - 1];
    match Successor(id, reg, ProviderKeys(last.kind))
    case Err(e) => Err(e)
    case Ok(s) => Ok(acc[..|acc| - 1] + [last.(provider := s.2)] + [Binding(s.0, s.1, s.2, "", Dict(map[]))])
  }

  /** `StageWrapper.configure` on the last stage: its entry, if the document has one. */
  function ConfigureLast(acc: seq<Binding>, doc: Document): seq<Binding>
    requires |acc| > 0
  {
    var last := acc[|acc| - 1];
    if last.names.configName in doc.stages then acc[..|acc| - 1] + [last.(configuration := doc.stages[last.names.configName])]
    else acc
  }

  /** The loop of `Pipeline.configure` over the remaining identifiers: link, then configure, each in turn. */
  function Chain(acc: seq<Binding>, ids: seq<string>, reg: Registry, doc: Document): (r: Result<seq<Binding>, Error>)
    requires |acc| > 0
    ensures r.Ok? ==> |r.value| == |acc| + |ids|
    decreases |ids|
  {
    if ids == [] then Ok(acc)
    else
      match Extend(acc, ids[0], reg)
      case Err(e) => Err(e)
      case Ok(next) => Chain(ConfigureLast(next, doc), ids[1..], reg, doc)
  }

  /** The last check of `Pipeline.configure`: the last stage must provide the sentinel, which it is then bound to. */
  function Finish(acc: seq<Binding>): Result<seq<Binding>, Error>
    requires |acc| > 0
  {
    var last := acc[|acc| - 1];
    if Sentinel in ProviderKeys(last.kind) then Ok(acc[..|acc| - 1] + [last.(provider := Sentinel)])
    else Err(FinalNotSink)
  }

  /** `Pipeline.configure`: the assembled pipeline, or the first error raised. */
  function Build(doc: Document, reg: Registry): Result<seq<Binding>, Error>
  {
    match doc.pipeline
    case None => Ok([])
    case Some(ids) =>
      if ids == [] then Ok([])
      else
        match Initial(ids[0], reg)
        case Err(e) => Err(e)
        case Ok(b) =>
          match Chain(ConfigureLast([b], doc), ids[1..], reg, doc)
          case Err(e) => Err(e)
          case Ok(bs) => Finish(bs)
  }

  // ---------------------------------------------------------------------
  // Execution
  // ---------------------------------------------------------------------

  /** A handler call made by `execute`: which stage, under which name, with what value. */
  datatype Event =
    | Consumed(stage: nat, capability: string, input: Value)
    | Provided(stage: nat, capability: string, output: Value)

  /**
   * The instance of a stage as `execute` reaches it: the configuration it
   * was given and no other attribute, since the instance was created by
   * `Stage.__init__` and only `configure` has touched it since.
   */
  function SelfOf(b: Binding): Instance
  {
    Instance(b.configuration, map[])
  }

  /**
   * One turn of the loop of `execute` on stage `i`: consume `input` under the
   * stage's consumer name, then provide under its provider name on the
   * instance as the consumer left it; the handler calls made and the value
   * provided, or the error raised.
   */
  function Turn(b: Binding, i: nat, input: Value, run: Behaviour): (seq<Event>, Result<Value, Error>)
  {
    match Consume(b.kind, b.consumer, SelfOf(b), [input], run)
    case Err(e) => ([], Err(Dispatch(e)))
    case Ok(c) =>
      match Provide(b.kind, b.provider, c.after, [], run)
      case Err(e) => ([Consumed(i, b.consumer, input)], Err(Dispatch(e)))
      case Ok(p) => ([Consumed(i, b.consumer, input), Provided(i, b.provider, p.result)], Ok(p.result))
  }

  /**
   * The first `n` turns of `execute`, starting from `None`: the handler calls
   * made, and the value last provided or the error that stopped the run.
   */
  function RunTo(bs: seq<Binding>, n: nat, run: Behaviour): (seq<Event>, Result<Value, Error>)
    requires n <= |bs|
  {
    if n == 0 then ([], Ok(PyNone))
    else
      var before := RunTo(bs, n - 1, run);
      if before.1.Err? then before
      else
        var t := Turn(bs[n - 1], n - 1, before.1.value, run);
        (before.0 + t.0, t.1)
  }

  /** `execute` on the whole pipeline: the handler calls made and the error raised, if any. */
  function Run(bs: seq<Binding>, run: Behaviour): (seq<Event>, Option<Error>)
  {
    var r := RunTo(bs, |bs|, run);
    (r.0, if r.1.Err? then Some(r.1.error) else None)
  }

  /** Once a turn has raised, the later turns do not run. */
  lemma {:induction false} RunToStops(bs: seq<Binding>, n: nat, m: nat, run: Behaviour)
    requires n <= m <= |bs| && RunTo(bs, n, run).1.Err?
    ensures RunTo(bs, m, run) == RunTo(bs, n, run)
    decreases m - n
  {
    if n < m {
      RunToStops(bs, n, m - 1, run);
      var before := RunTo(bs, m - 1, run);
      assert before.1.Err? && RunTo(bs, m, run) == before;
    }
  }

  // ---------------------------------------------------------------------
  // The objects
  // ---------------------------------------------------------------------

  /** One loaded stage: its names, its class, its instance and the names it was linked by. */
  class StageWrapper {
    var names: Names
    var cls: Option<StageType>
    var instance: Stage?
    var consumer: string
    var provider: string

    constructor ()
      ensures names == Names("", "", "", "") && cls == None && instance == null
      ensures consumer == "" && provider == ""
    {
      names := Names("", "", "", "");
      cls := None;
      instance := null;
      consumer := "";
      provider := "";
    }

    /** A wrapper with a class and an instance of that class. */
    ghost predicate Ready()
      reads this
    {
      cls.Some? && instance != null && instance.kind == cls.value
    }

    ghost function AsBinding(): Binding
      reads this, instance
      requires Ready()
    {
      Binding(names, cls.value, consumer, provider, instance.configuration)
    }

    /** `getProviders`: the class's `Providers` table, whose keys are the names a successor may be linked by. */
    function GetProviders(): (r: Table<Handler>)
      reads this
      requires cls.Some? && cls.value.providers.Some?
      ensures Keys(r) == ProviderKeys(cls.value)
    {
      cls.value.providers.value
    }

    /** `setNames`. */
    method SetNames(moduleName: string) returns (err: Option<Error>)
      modifies this
      ensures NamesOf(moduleName).Ok? ==> err == None && names == NamesOf(moduleName).value
      ensures NamesOf(moduleName).Err? ==> err == Some(NamesOf(moduleName).error) && names == old(names)
      ensures cls == old(cls) && instance == old(instance) && consumer == old(consumer) && provider == old(provider)
    {
      var segs := Split(moduleName);
      if |segs| < 2 {
        return Some(MalformedIdentifier(moduleName));
      }
      var moduleName := Join(segs[..|segs| - 2]);
      names := Names(moduleName, segs[|segs| - 2], segs[|segs| - 1], Join([moduleName, segs[|segs| - 2], segs[|segs| - 1]]));
      err := None;
    }

    /** `loadModule`, with the import and `getattr` as lookups in `reg`. */
    method LoadModule(moduleName: string, reg: Registry) returns (err: Option<Error>)
      modifies this
      ensures Resolve(moduleName, reg).Ok? ==>
        err == None && names == Resolve(moduleName, reg).value.0 && cls == Some(Resolve(moduleName, reg).value.1)
      ensures Resolve(moduleName, reg).Err? ==> err == Some(Resolve(moduleName, reg).error)
      ensures instance == old(instance) && consumer == old(consumer) && provider == old(provider)
    {
      err := SetNames(moduleName);
      if err.Some? {
        return;
      }
      var path := names.moduleName + "." + names.script;
      if path !in reg {
        return Some(ModuleNotFound(path));
      }
      var members := reg[path];
      if names.className !in members {
        return Some(NoSuchMember(path, names.className));
      }
      match members[names.className]
      case NonClass =>
        return Some(NotAClass(moduleName));
      case ClassMember(t) =>
        cls := Some(t);
    }

    /**
     * `instantiateConsumerOf`: check the class, create an instance and
     * record the consumer name.  An instance of a class that is not a
     * `Stage` is not represented (the field stays null).
     */
    method InstantiateConsumerOf(consumer: string) returns (err: Option<Error>)
      requires cls.Some?
      modifies this
      ensures names == old(names) && cls == old(cls) && provider == old(provider)
      ensures err == InstantiateError(cls.value, names.className, consumer)
      ensures err.None? ==> fresh(instance) && instance.kind == cls.value &&
                            instance.configuration == Dict(map[]) && this.consumer == consumer
      ensures err.Some? && err.value.MissingConsumer? ==> instance == old(instance) && this.consumer == old(this.consumer)
    {
      var t := cls.value;
      if t.consumers.None? || t.providers.None? || consumer !in Keys(t.consumers.value) {
        return Some(MissingConsumer(names.className, consumer));
      }
      if t.isStage {
        instance := new Stage(t);
      } else {
        instance := null;
      }
      this.consumer := consumer;
      if !t.isStage {
        return Some(NotAStage(names.className));
      }
      err := None;
    }

    /**
     * The loop of `loadAdditionalStage`: `instantiateConsumerOf` with each
     * name in turn until one succeeds; the index of that name, or `|names|`
     * when every attempt raised.
     */
    method InstantiateFirstConsumerOf(names: seq<string>) returns (i: nat)
      requires cls.Some?
      modifies this
      ensures this.names == old(this.names) && cls == old(cls) && provider == old(provider)
      ensures i <= |names| && forall j :: 0 <= j < i ==> !CanConsume(cls.value, names[j])
      ensures i < |names| ==> CanConsume(cls.value, names[i]) && fresh(instance) && instance.kind == cls.value &&
                              instance.configuration == Dict(map[]) && consumer == names[i]
    {
      i := 0;
      while i < |names|
        invariant i <= |names| && this.names == old(this.names) && cls == old(cls) && provider == old(provider)
        invariant forall j :: 0 <= j < i ==> !CanConsume(cls.value, names[j])
      {
        var err := InstantiateConsumerOf(names[i]);
        if err.None? {
          return;
        }
        i := i + 1;
      }
    }

    /**
     * `StageWrapper.configure`: no call when the document has no entry for
     * the stage; otherwise validate the entry when the module has a schema,
     * ignore the verdict, and hand the entry to the stage.
     */
    method Configure(configuration: Document, schemas: map<string, Schema>)
      requires instance != null
      modifies instance
      ensures names.configName in configuration.stages ==>
        instance.configuration == configuration.stages[names.configName]
      ensures names.configName !in configuration.stages ==>
        instance.configuration == old(instance.configuration)
    {
      if names.configName !in configuration.stages {
        return;
      }
      if names.moduleName in schemas {
        var verdict := schemas[names.moduleName].validates(configuration.stages[names.configName]);
      }
      instance.Configure(configuration.stages[names.configName]);
    }
  }

  /** `wrapper = StageWrapper(); wrapper.loadModule(moduleName)`. */
  method LoadedWrapper(moduleName: string, reg: Registry) returns (w: StageWrapper, err: Option<Error>)
    ensures fresh(w) && w.instance == null && w.provider == ""
    ensures Resolve(moduleName, reg).Ok? ==>
      err == None && w.names == Resolve(moduleName, reg).value.0 && w.cls == Some(Resolve(moduleName, reg).value.1)
    ensures Resolve(moduleName, reg).Err? ==> err == Some(Resolve(moduleName, reg).error)
  {
    w := new StageWrapper();
    err := w.LoadModule(moduleName, reg);
  }

  /**
   * The new wrapper of `loadAdditionalStage`, loaded and instantiated as the
   * consumer of the first of the previous stage's provider names `ps` that
   * its class accepts.
   */
  method ConsumerWrapper(id: string, reg: Registry, ps: seq<string>) returns (w: StageWrapper, err: Option<Error>)
    ensures Successor(id, reg, ps).Err? ==> err == Some(Successor(id, reg, ps).error)
    ensures Successor(id, reg, ps).Ok? ==>
      var s := Successor(id, reg, ps).value;
      err == None && fresh(w) && fresh(w.instance) && w.Ready() && CanConsume(w.cls.value, w.consumer) &&
      w.AsBinding() == Binding(s.0, s.1, s.2, "", Dict(map[]))
  {
    w, err := LoadedWrapper(id, reg);
    if err.Some? {
      return;
    }
    ghost var r := Resolve(id, reg).value;
    var i := w.InstantiateFirstConsumerOf(ps);
    if i == |ps| {
      FirstLinkSpec(ps, r.1);
      return w, Some(NoConsumerForPrecedents(id));
    }
    FirstLinkIs(ps, r.1, i);
  }

  /** The assembled pipeline: the list of wrappers, extended in place. */
  class Pipeline {
    var pipeline: seq<StageWrapper>
    /** The bindings the wrappers hold, one per wrapper. */
    ghost var Bindings: seq<Binding>
    ghost var Repr: set<object>

    ghost predicate Valid()
      reads this, Repr
    {
      this in Repr && |Bindings| == |pipeline| &&
      (forall i {:trigger pipeline[i]} :: 0 <= i < |pipeline| ==>
        pipeline[i] in Repr && pipeline[i].instance in Repr &&
        pipeline[i].Ready() && pipeline[i].AsBinding() == Bindings[i] &&
        // every stage was accepted by `instantiateConsumerOf` for the name it consumes
        CanConsume(Bindings[i].kind, Bindings[i].consumer)) &&
      (forall i, j :: 0 <= i < j < |pipeline| ==>
        pipeline[i] != pipeline[j] && pipeline[i].instance != pipeline[j].instance)
    }

    constructor ()
      ensures Valid() && fresh(Repr) && pipeline == [] && Bindings == []
    {
      pipeline := [];
      Bindings := [];
      Repr := {this};
    }

    /** `self.pipeline.append(w)` for a wrapper that has just been instantiated. */
    method Append(w: StageWrapper)
      requires Valid() && w.Ready() && CanConsume(w.cls.value, w.consumer) && w !in Repr && w.instance !in Repr
      modifies this
      ensures Valid() && pipeline == old(pipeline) + [w] && Repr == old(Repr) + {w, w.instance}
      ensures Bindings == old(Bindings) + [w.AsBinding()]
    {
      pipeline := pipeline + [w];
      Bindings := Bindings + [w.AsBinding()];
      Repr := Repr + {w, w.instance};
      AppendKeepsValid(this, w);
    }

    /** `self.pipeline[-1].provider = provider`. */
    method SetLastProvider(provider: string)
      requires Valid() && |pipeline| > 0
      modifies this, pipeline[|pipeline| - 1]
      ensures Valid() && pipeline == old(pipeline) && Repr == old(Repr)
      ensures Bindings == old(Bindings)[..|pipeline| - 1] + [old(Bindings)[|pipeline| - 1].(provider := provider)]
    {
      var last := pipeline[|pipeline| - 1];
      last.provider := provider;
      Bindings := Bindings[..|pipeline| - 1] + [Bindings[|pipeline| - 1].(provider := provider)];
      ProviderKeepsValid(this, last);
    }

    /** `self.pipeline[-1].provider = provider` and `self.pipeline.append(w)`. */
    method Link(w: StageWrapper, provider: string)
      requires Valid() && |pipeline| > 0 && w.Ready() && CanConsume(w.cls.value, w.consumer)
      requires w !in Repr && w.instance !in Repr
      modifies this, pipeline[|pipeline| - 1]
      ensures Valid() && pipeline == old(pipeline) + [w] && Repr == old(Repr) + {w, w.instance}
      ensures Bindings == old(Bindings)[..|old(Bindings)| - 1] + [old(Bindings)[|old(Bindings)| - 1].(provider := provider)] +
                          [w.AsBinding()]
    {
      SetLastProvider(provider);
      Append(w);
    }

    /** `.configure(config)` on the wrapper last appended. */
    method ConfigureNewest(config: Document, schemas: map<string, Schema>)
      requires Valid() && |pipeline| > 0
      modifies this, pipeline[|pipeline| - 1].instance
      ensures Valid() && pipeline == old(pipeline) && Repr == old(Repr)
      ensures Bindings == ConfigureLast(old(Bindings), config)
    {
      var w := pipeline[|pipeline| - 1];
      w.Configure(config, schemas);
      Bindings := Bindings[..|pipeline| - 1] + [Bindings[|pipeline| - 1].(configuration := w.instance.configuration)];
      ConfigureKeepsValid(this, w);
      if w.names.configName !in config.stages {
        assert Bindings == old(Bindings);
      }
    }

    /** `loadInitialStage`. */
    method LoadInitialStage(firstStage: string, reg: Registry) returns (w: StageWrapper, err: Option<Error>)
      requires Valid()
      modifies this
      ensures Valid()
      ensures Initial(firstStage, reg).Err? ==>
        err == Some(Initial(firstStage, reg).error) && pipeline == old(pipeline) && Repr == old(Repr) &&
        Bindings == old(Bindings)
      ensures Initial(firstStage, reg).Ok? ==>
        err == None && |pipeline| > 0 && w == pipeline[|pipeline| - 1] && fresh(w) && fresh(w.instance) &&
        Repr == old(Repr) + {w, w.instance} && Bindings == old(Bindings) + [Initial(firstStage, reg).value]
    {
      w, err := LoadedWrapper(firstStage, reg);
      if err.Some? {
        return;
      }
      err := w.InstantiateConsumerOf(Sentinel);
      if err.Some? {
        return;
      }
      Append(w);
    }

    /** `loadAdditionalStage`. */
    method LoadAdditionalStage(stage: string, reg: Registry) returns (w: StageWrapper, err: Option<Error>)
      requires Valid() && |pipeline| > 0
      modifies this, pipeline[|pipeline| - 1]
      ensures Valid()
      ensures Extend(old(Bindings), stage, reg).Err? ==>
        err == Some(Extend(old(Bindings), stage, reg).error) && pipeline == old(pipeline) && Repr == old(Repr) &&
        Bindings == old(Bindings)
      ensures Extend(old(Bindings), stage, reg).Ok? ==>
        err == None && |pipeline| > 0 && w == pipeline[|pipeline| - 1] && fresh(w) && fresh(w.instance) &&
        Repr == old(Repr) + {w, w.instance} && Bindings == Extend(old(Bindings), stage, reg).value
    {
      var last := pipeline[|pipeline| - 1];
      var providers := Keys(last.GetProviders());
      assert providers == ProviderKeys(Bindings[|Bindings| - 1].kind);
      w, err := ConsumerWrapper(stage, reg, providers);
      if err.Some? {
        return;
      }
      ghost var s := Successor(stage, reg, providers).value;
      ghost var added := Binding(s.0, s.1, s.2, "", Dict(map[]));
      assert Extend(Bindings, stage, reg).value == Bindings[..|Bindings| - 1] + [Bindings[|Bindings| - 1].(provider := s.2)] + [added];
      Link(w, w.consumer);
      assert w.AsBinding() == added;
    }

    /** `loadInitialStage(firstStage).configure(config)`. */
    method LoadFirst(firstStage: string, reg: Registry, config: Document, schemas: map<string, Schema>)
      returns (err: Option<Error>)
      requires Valid() && pipeline == []
      modifies this
      ensures Valid()
      ensures Initial(firstStage, reg).Err? ==> err == Some(Initial(firstStage, reg).error)
      ensures Initial(firstStage, reg).Ok? ==>
        err == None && |pipeline| > 0 && fresh(pipeline[|pipeline| - 1]) && fresh(pipeline[|pipeline| - 1].instance) &&
        Bindings == ConfigureLast([Initial(firstStage, reg).value], config)
    {
      var first;
      first, err := LoadInitialStage(firstStage, reg);
      if err.Some? {
        return;
      }
      ConfigureNewest(config, schemas);
    }

    /** `loadAdditionalStage(stage).configure(config)`. */
    method LoadNext(stage: string, reg: Registry, config: Document, schemas: map<string, Schema>)
      returns (err: Option<Error>)
      requires Valid() && |pipeline| > 0
      modifies this, pipeline[|pipeline| - 1]
      ensures Valid()
      ensures Extend(old(Bindings), stage, reg).Err? ==> err == Some(Extend(old(Bindings), stage, reg).error)
      ensures Extend(old(Bindings), stage, reg).Ok? ==>
        err == None && |pipeline| > 0 && fresh(pipeline[|pipeline| - 1]) && fresh(pipeline[|pipeline| - 1].instance) &&
        Bindings == ConfigureLast(Extend(old(Bindings), stage, reg).value, config)
    {
      ghost var extended := Extend(Bindings, stage, reg);
      var w;
      w, err := LoadAdditionalStage(stage, reg);
      if err.Some? {
        return;
      }
      assert extended.Ok? && Bindings == extended.value;
      ConfigureNewest(config, schemas);
    }

    /** `Pipeline.configure`, on a pipeline that is still empty (as `__init__` calls it). */
    method Configure(config: Document, reg: Registry, schemas: map<string, Schema>) returns (err: Option<Error>)
      requires Valid() && pipeline == []
      modifies this
      ensures Valid()
      ensures Build(config, reg).Ok? ==> err == None && Bindings == Build(config, reg).value
      ensures Build(config, reg).Err? ==> err == Some(Build(config, reg).error)
    {
      if config.pipeline.None? || config.pipeline.value == [] {
        return None;
      }
      var ids := config.pipeline.value;
      err := LoadFirst(ids[0], reg, config, schemas);
      if err.Some? {
        return;
      }
      ghost var start := ConfigureLast([Initial(ids[0], reg).value], config);
      for k := 1 to |ids|
        invariant Valid() && |pipeline| > 0
        invariant fresh(pipeline[|pipeline| - 1]) && fresh(pipeline[|pipeline| - 1].instance)
        invariant Chain(Bindings, ids[k..], reg, config) == Chain(start, ids[1..], reg, config)
      {
        assert ids[k..][0] == ids[k] && ids[k..][1..] == ids[k + 1..];
        ghost var pre := Bindings;
        err := LoadNext(ids[k], reg, config, schemas);
        if err.Some? {
          assert Chain(pre, ids[k..], reg, config) == Err(err.value);
          return;
        }
        assert Chain(pre, ids[k..], reg, config) == Chain(Bindings, ids[k + 1..], reg, config);
      }
      assert ids[|ids|..] == [];
      err := BindSink();
    }

    /** The end of `Pipeline.configure`: the last stage must provide the sentinel, and is bound to it. */
    method BindSink() returns (err: Option<Error>)
      requires Valid() && |pipeline| > 0
      modifies this, pipeline[|pipeline| - 1]
      ensures Valid() && Repr == old(Repr)
      ensures Finish(old(Bindings)).Err? ==> err == Some(Finish(old(Bindings)).error)
      ensures Finish(old(Bindings)).Ok? ==> err == None && Bindings == Finish(old(Bindings)).value
    {
      var last := pipeline[|pipeline| - 1];
      assert Keys(last.GetProviders()) == ProviderKeys(Bindings[|Bindings| - 1].kind);
      if Sentinel !in Keys(last.GetProviders()) {
        return Some(FinalNotSink);
      }
      SetLastProvider(Sentinel);
      err := None;
    }

    /**
     * `execute`: consume the value last produced, then produce the next,
     * stage by stage, each provider on the instance its consumer left.  The
     * changes handlers make to `self` are not written back to the objects.
     */
    method Execute(run: Behaviour) returns (trace: seq<Event>, err: Option<Error>)
      requires Valid()
      ensures (trace, err) == Run(Bindings, run)
    {
      var output := PyNone;
      trace := [];
      for i := 0 to |pipeline|
        invariant RunTo(Bindings, i, run) == (trace, Ok(output))
      {
        var stageWrapper := pipeline[i];
        var instance := stageWrapper.instance;
        assert stageWrapper.AsBinding() == Bindings[i];
        var consumed := Consume(instance.kind, stageWrapper.consumer, Instance(instance.configuration, map[]), [output], run);
        // a wrapper is only kept once its class consumes the name it was linked by
        assert consumed.Ok?;
        var provided := Provide(instance.kind, stageWrapper.provider, consumed.value.after, [], run);
        if provided.Err? {
          RunToStops(Bindings, i + 1, |Bindings|, run);
          return trace + [Consumed(i, stageWrapper.consumer, output)], Some(Dispatch(provided.error));
        }
        trace := trace + [Consumed(i, stageWrapper.consumer, output), Provided(i, stageWrapper.provider, provided.value.result)];
        output := provided.value.result;
      }
      err := None;
    }
  }

  /** The greedy link is the first name the class consumes; nothing else is tried. */
  lemma FirstLinkIs(ps: seq<string>, t: StageType, i: nat)
    requires i < |ps| && CanConsume(t, ps[i])
    requires forall j :: 0 <= j < i ==> !CanConsume(t, ps[j])
    ensures FirstLink(ps, t) == Some(ps[i])
  {
    FirstLinkSpec(ps, t);
  }

  /** Appending a new ready wrapper, and its binding, keeps the pipeline valid. */
  twostate lemma AppendKeepsValid(new p: Pipeline, new w: StageWrapper)
    requires old(allocated(p)) && old(p.Valid())
    requires w.Ready() && CanConsume(w.cls.value, w.consumer) && w !in old(p.Repr) && w.instance !in old(p.Repr)
    requires unchanged(old(p.Repr) - {p})
    requires p.pipeline == old(p.pipeline) + [w] && p.Repr == old(p.Repr) + {w, w.instance}
    requires p.Bindings == old(p.Bindings) + [w.AsBinding()]
    ensures p.Valid()
  {
    forall i | 0 <= i < |old(p.pipeline)|
      ensures p.pipeline[i].Ready() && p.pipeline[i].AsBinding() == p.Bindings[i]
    {
      assert old(p.pipeline[i]) in old(p.Repr) && old(p.pipeline[i].instance) in old(p.Repr);
    }
  }

  /** Setting the last wrapper's provider name, and its binding's, keeps the pipeline valid. */
  twostate lemma ProviderKeepsValid(new p: Pipeline, new last: StageWrapper)
    requires old(allocated(p)) && old(p.Valid())
    requires |old(p.pipeline)| > 0 && last == old(p.pipeline)[|old(p.pipeline)| - 1]
    requires unchanged(old(p.Repr) - {p, last})
    requires unchanged(last`names, last`cls, last`instance, last`consumer)
    requires p.pipeline == old(p.pipeline) && p.Repr == old(p.Repr)
    requires p.Bindings == old(p.Bindings)[..|p.pipeline| - 1] + [old(p.Bindings)[|p.pipeline| - 1].(provider := last.provider)]
    ensures p.Valid()
  {
    forall i | 0 <= i < |old(p.pipeline)| - 1
      ensures p.pipeline[i].Ready() && p.pipeline[i].AsBinding() == p.Bindings[i]
    {
      assert old(p.pipeline[i]) in old(p.Repr) && old(p.pipeline[i].instance) in old(p.Repr);
    }
    assert old(last.instance) in old(p.Repr);
  }

  /** Configuring the last wrapper's instance, and its binding, keeps the pipeline valid. */
  twostate lemma ConfigureKeepsValid(new p: Pipeline, new w: StageWrapper)
    requires old(allocated(p)) && old(p.Valid())
    requires |old(p.pipeline)| > 0 && w == old(p.pipeline)[|old(p.pipeline)| - 1]
    requires unchanged(old(p.Repr) - {p, old(w.instance)})
    requires p.pipeline == old(p.pipeline) && p.Repr == old(p.Repr)
    requires p.Bindings == old(p.Bindings)[..|p.pipeline| - 1] +
                           [old(p.Bindings)[|p.pipeline| - 1].(configuration := old(w.instance).configuration)]
    ensures p.Valid()
  {
    forall i | 0 <= i < |old(p.pipeline)| - 1
      ensures p.pipeline[i].Ready() && p.pipeline[i].AsBinding() == p.Bindings[i]
    {
      assert old(p.pipeline[i]) in old(p.Repr) && old(p.pipeline[i].instance) in old(p.Repr);
      assert old(p.pipeline[i].instance) != old(w.instance);
    }
    assert w in old(p.Repr);
  }

  /** `Pipeline(config)`: an empty pipeline, configured from the document. */
  method NewPipeline(config: Document, reg: Registry, schemas: map<string, Schema>) returns (p: Pipeline, err: Option<Error>)
    ensures fresh(p) && p.Valid()
    ensures Build(config, reg).Ok? ==> err == None && p.Bindings == Build(config, reg).value
    ensures Build(config, reg).Err? ==> err == Some(Build(config, reg).error)
  {
    p := new Pipeline();
    err := p.Configure(config, reg, schemas);
  }
}
