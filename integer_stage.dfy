/**
 * The example stage `IntegerStage`: one consumer and one provider, both
 * filed under `'None'`, so a pipeline of this stage alone is complete.
 */
module IntegerExample {
  import opened Wrappers
  import opened Capabilities
  import opened Decorators
  import opened Stages
  import opened Pipelines
  import NameProperties

  /** The name of the package, of the script in it and of the class. */
  const Name: string := "IntegerStage"

  /** The identifier a pipeline document uses for the stage, `IntegerStage.IntegerStage.IntegerStage`. */
  const IntegerId: string := Name + "." + Name + "." + Name

  /** The decorated class: it derives from `Stage`, consumes `'None'` with `setInteger` and provides `'None'` with `printInteger`. */
  function IntegerType(setInteger: Handler, printInteger: Handler): StageType
  {
    StageType(Name, true, Some([(Sentinel, setInteger)]), Some([(Sentinel, printInteger)]))
  }

  /** What `pipelineStage` reads from the class body: `__init__` untagged, then the two tagged handlers. */
  function IntegerTags(init: Handler, setInteger: Handler, printInteger: Handler): seq<Tag>
  {
    [Tag(init, "__init__", None, None),
     Tag(setInteger, "setInteger", Some(Sentinel), None),
     Tag(printInteger, "printInteger", None, Some(Sentinel))]
  }

  /** The registrations the body asks for: `setInteger` as consumer and `printInteger` as provider of `'None'`. */
  lemma IntegerEntries(init: Handler, setInteger: Handler, printInteger: Handler)
    ensures Entries(IntegerTags(init, setInteger, printInteger), Consumer) == [(Sentinel, setInteger)]
    ensures Entries(IntegerTags(init, setInteger, printInteger), Provider) == [(Sentinel, printInteger)]
  {
    var tags := IntegerTags(init, setInteger, printInteger);
    assert tags[..2][..1] == tags[..1] && tags[..1][..0] == [];
    assert Entries(tags[..1], Consumer) == [];
    assert Entries(tags[..1], Provider) == [];
    assert Entries(tags[..2], Consumer) == [(Sentinel, setInteger)];
    assert Entries(tags[..2], Provider) == [];
  }

  /** Scanning the body logs no warning: no capability name is tagged twice. */
  lemma IntegerLog(init: Handler, setInteger: Handler, printInteger: Handler)
    ensures Scan(Name, ScanState([], [], []), IntegerTags(init, setInteger, printInteger)).log == []
  {
    var tags := IntegerTags(init, setInteger, printInteger);
    var s0 := ScanState([], [], []);
    assert tags[..2][..1] == tags[..1] && tags[..1][..0] == [];
    assert Scan(Name, s0, tags[..1]) == s0;
    var s2 := Scan(Name, s0, tags[..2]);
    assert s2 == ScanState([(Sentinel, setInteger)], [], []);
    assert Keys(s2.providers) == [];
  }

  /** The scan of that body files one handler in each table and logs nothing. */
  lemma IntegerScan(init: Handler, setInteger: Handler, printInteger: Handler)
    ensures var tags := IntegerTags(init, setInteger, printInteger);
      Registered([], tags, Consumer) == [(Sentinel, setInteger)] &&
      Registered([], tags, Provider) == [(Sentinel, printInteger)] &&
      Scan(Name, ScanState([], [], []), tags).log == []
  {
    IntegerEntries(init, setInteger, printInteger);
    IntegerLog(init, setInteger, printInteger);
    assert PutAll([], [(Sentinel, setInteger)]) == [(Sentinel, setInteger)];
    assert PutAll([], [(Sentinel, printInteger)]) == [(Sentinel, printInteger)];
  }

  /**
   * The class statement: three function objects, two of them tagged by the
   * decorators, then `@pipelineStage` on the class.  No warning is logged
   * and each table holds the one tagged member.
   */
  method DefineIntegerStage() returns (cls: StageClass, setInteger: Handler, printInteger: Handler, log: seq<Warning>)
    ensures cls.Type() == IntegerType(setInteger, printInteger) && log == []
  {
    var init := new Handler("__init__");
    setInteger := new Handler("setInteger");
    setInteger := Consumes(Sentinel, setInteger);
    printInteger := new Handler("printInteger");
    printInteger := Provides(Sentinel, printInteger);
    cls := new StageClass(Name, true, [("__init__", init), ("setInteger", setInteger), ("printInteger", printInteger)], None, None);
    assert TagsOf(cls.members) == IntegerTags(init, setInteger, printInteger);
    IntegerScan(init, setInteger, printInteger);
    cls, log := PipelineStage(cls);
  }

  /** The registry in which `import IntegerStage.IntegerStage` finds the class. */
  function IntegerRegistry(t: StageType): Registry
  {
    map[Name + "." + Name := map[Name := ClassMember(t)]]
  }

  /** A pipeline document naming only this stage, with the given stage entries. */
  function IntegerDoc(stages: map<string, Value>): Document
  {
    Document(Some([IntegerId]), stages)
  }

  /** `setNames` on the identifier: module, script and class `IntegerStage`, key the identifier itself. */
  lemma IntegerNames()
    ensures NamesOf(IntegerId) == Ok(Names(Name, Name, Name, IntegerId))
  {
    var segs := [Name, Name, Name];
    assert Join(segs[2..]) == Name;
    assert Join(segs[1..]) == Name + "." + Name;
    assert Join(segs) == IntegerId;
    assert segs[..1] == [Name];
    assert Join([Join(segs[..1]), segs[1], segs[2]]) == Join(segs);
    NameProperties.NamesOfJoin(segs);
  }

  /** The configuration the stage gets: the document's entry for the identifier, if there is one. */
  function IntegerConfiguration(stages: map<string, Value>): Value
  {
    if IntegerId in stages then stages[IntegerId] else Dict(map[])
  }

  /** The binding the one-stage pipeline assembles to. */
  function IntegerBinding(setInteger: Handler, printInteger: Handler, stages: map<string, Value>): Binding
  {
    Binding(Names(Name, Name, Name, IntegerId),
            IntegerType(setInteger, printInteger), Sentinel, Sentinel, IntegerConfiguration(stages))
  }

  /**
   * The one-stage pipeline assembles to a single binding that consumes
   * `'None'` and provides `'None'`, configured by the document's entry for
   * the identifier when there is one.
   */
  lemma IntegerPipelineBuilds(setInteger: Handler, printInteger: Handler, stages: map<string, Value>)
    ensures Build(IntegerDoc(stages), IntegerRegistry(IntegerType(setInteger, printInteger))) ==
      Ok([IntegerBinding(setInteger, printInteger, stages)])
  {
    IntegerNames();
    var t := IntegerType(setInteger, printInteger);
    var reg := IntegerRegistry(t);
    var doc := IntegerDoc(stages);
    var n := Names(Name, Name, Name, IntegerId);
    assert ImportPath(n) == Name + "." + Name;
    assert Resolve(IntegerId, reg) == Ok((n, t));
    assert Keys(t.consumers.value) == [Sentinel] && Keys(t.providers.value) == [Sentinel];
    var b0 := Binding(n, t, Sentinel, "", Dict(map[]));
    assert Initial(IntegerId, reg) == Ok(b0);
    var c := ConfigureLast([b0], doc);
    assert c == [b0.(configuration := IntegerConfiguration(stages))];
    assert doc.pipeline.value[1..] == [];
    assert Chain(c, [], reg, doc) == Ok(c);
    assert Sentinel in ProviderKeys(c[0].kind);
    assert c[..0] + [c[0].(provider := Sentinel)] == [IntegerBinding(setInteger, printInteger, stages)];
  }

  /**
   * What `printInteger` returns on the instance `setInteger` left behind,
   * after `setInteger` was called with `None` on the freshly configured
   * instance.
   */
  function IntegerOutput(setInteger: Handler, printInteger: Handler, stages: map<string, Value>, run: Behaviour): Value
  {
    run(printInteger, run(setInteger, Instance(IntegerConfiguration(stages), map[]), [PyNone]).after, []).result
  }

  /** Running it calls `setInteger` with `None`, then `printInteger` on the same instance, and raises nothing. */
  lemma IntegerPipelineRuns(setInteger: Handler, printInteger: Handler, stages: map<string, Value>, run: Behaviour)
    ensures Run([IntegerBinding(setInteger, printInteger, stages)], run) ==
      ([Consumed(0, Sentinel, PyNone), Provided(0, Sentinel, IntegerOutput(setInteger, printInteger, stages, run))], None)
  {
    var b := IntegerBinding(setInteger, printInteger, stages);
    var self := Instance(IntegerConfiguration(stages), map[]);
    var after := run(setInteger, self, [PyNone]).after;
    var out := IntegerOutput(setInteger, printInteger, stages, run);
    assert Keys(b.kind.consumers.value) == [Sentinel] && Keys(b.kind.providers.value) == [Sentinel];
    assert SelfOf(b) == self;
    assert Consume(b.kind, Sentinel, self, [PyNone], run) == Ok(run(setInteger, self, [PyNone]));
    assert Provide(b.kind, Sentinel, after, [], run) == Ok(run(printInteger, after, []));
    assert RunTo([b], 0, run) == ([], Ok(PyNone));
    var events := [Consumed(0, Sentinel, PyNone), Provided(0, Sentinel, out)];
    assert Turn(b, 0, PyNone, run) == (events, Ok(out));
    assert RunTo([b], 1, run) == ([] + events, Ok(out));
    assert [] + events == events;
  }

  /**
   * The bodies of the two handlers: `setInteger` sets `self.theInteger = 1`
   * and `printInteger` leaves `self` alone; both return `None` (what
   * `printInteger` prints is output the model does not carry).
   */
  function IntegerBehaviour(setInteger: Handler): Behaviour
  {
    (h: Handler, self: Instance, args: seq<Value>) =>
      if h == setInteger then Outcome(PyNone, self.(attributes := self.attributes["theInteger" := Datum(1)]))
      else Outcome(PyNone, self)
  }

  /**
   * With those bodies, `printInteger` runs on an instance whose
   * `theInteger` is `1`, set by `setInteger` in the same `execute`, and
   * whose configuration is the document's entry; `None` is passed on.
   */
  lemma IntegerPrintSeesInteger(setInteger: Handler, printInteger: Handler, stages: map<string, Value>)
    ensures var run := IntegerBehaviour(setInteger);
      var seen := run(setInteger, Instance(IntegerConfiguration(stages), map[]), [PyNone]).after;
      seen == Instance(IntegerConfiguration(stages), map["theInteger" := Datum(1)]) &&
      IntegerOutput(setInteger, printInteger, stages, run) == PyNone
  {
  }

  /**
   * The whole example: define the stage, load a pipeline of it, execute it.
   * The provider's value is what `printInteger` returns on the instance
   * `setInteger` left behind.
   */
  method RunIntegerPipeline(stages: map<string, Value>, run: Behaviour)
    returns (setInteger: Handler, printInteger: Handler, trace: seq<Event>, err: Option<Error>)
    ensures err == None
    ensures trace == [Consumed(0, Sentinel, PyNone), Provided(0, Sentinel, IntegerOutput(setInteger, printInteger, stages, run))]
  {
    var cls: StageClass, log: seq<Warning>;
    cls, setInteger, printInteger, log := DefineIntegerStage();
    var t := cls.Type();
    var p, loadErr := NewPipeline(IntegerDoc(stages), IntegerRegistry(t), map[]);
    IntegerPipelineBuilds(setInteger, printInteger, stages);
    IntegerPipelineRuns(setInteger, printInteger, stages, run);
    trace, err := p.Execute(run);
  }
}
