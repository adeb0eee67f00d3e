/**
 * Properties of `Pipeline.execute` on an assembled pipeline: every stage's
 * handlers are found, no error is raised, and each stage consumes the value
 * the stage before it provided.
 */
module Execution {
  import opened Wrappers
  import opened Capabilities
  import opened Stages
  import opened Pipelines
  import opened Assembly

  /** A stage whose class consumes its consumer name and provides its provider name. */
  predicate Dispatchable(b: Binding)
  {
    CanConsume(b.kind, b.consumer) && b.provider in ProviderKeys(b.kind)
  }

  /**
   * The instance the provider of `b` is called with: `self` as the consumer
   * left it after consuming `input` (as `execute` found it, for a stage that
   * cannot consume, which `RunToAll` never consults).
   */
  function AfterConsume(b: Binding, input: Value, run: Behaviour): Instance
  {
    match Consume(b.kind, b.consumer, SelfOf(b), [input], run)
    case Ok(c) => c.after
    case Err(_) => SelfOf(b)
  }

  /**
   * What `provide` returns for a stage that has just consumed `input`
   * (provider handlers are called with no arguments); `None` stands in for
   * a stage that cannot provide, which `RunToAll` never consults.
   */
  function ProvidedBy(b: Binding, input: Value, run: Behaviour): Value
  {
    match Provide(b.kind, b.provider, AfterConsume(b, input, run), [], run)
    case Ok(p) => p.result
    case Err(_) => PyNone
  }

  /** The first `n` stages are all dispatchable. */
  ghost predicate AllDispatchable(bs: seq<Binding>, n: nat)
    requires n <= |bs|
  {
    n == 0 || (Dispatchable(bs[n - 1]) && AllDispatchable(bs, n - 1))
  }

  /**
   * The value `output` holds after the first `n` turns: `None` before the
   * first stage, then what each stage provided after consuming the value
   * before it.
   */
  function Carried(bs: seq<Binding>, n: nat, run: Behaviour): Value
    requires n <= |bs|
  {
    if n == 0 then PyNone else ProvidedBy(bs[n - 1], Carried(bs, n - 1, run), run)
  }

  /** The two handler calls stage `k` makes when the pipeline runs. */
  function TurnEvents(bs: seq<Binding>, k: nat, run: Behaviour): seq<Event>
    requires k < |bs|
  {
    [Consumed(k, bs[k].consumer, Carried(bs, k, run)), Provided(k, bs[k].provider, Carried(bs, k + 1, run))]
  }

  /** The handler calls of the first `n` stages, stage by stage. */
  ghost function Expected(bs: seq<Binding>, n: nat, run: Behaviour): seq<Event>
    requires n <= |bs|
  {
    if n == 0 then [] else Expected(bs, n - 1, run) + TurnEvents(bs, n - 1, run)
  }

  /**
   * The handlers one turn calls: the consumer filed under the stage's
   * consumer name, on its configured instance and the input, then the
   * provider filed under its provider name, on the instance the consumer
   * left behind.  What a stage provides may thus depend on its
   * configuration and on what it consumed.
   */
  lemma ProvidedByCalls(b: Binding, input: Value, run: Behaviour)
    requires Dispatchable(b)
    ensures Get(b.kind.consumers.value, b.consumer).Some? && Get(b.kind.providers.value, b.provider).Some?
    ensures AfterConsume(b, input, run) ==
      run(Get(b.kind.consumers.value, b.consumer).value, Instance(b.configuration, map[]), [input]).after
    ensures ProvidedBy(b, input, run) ==
      run(Get(b.kind.providers.value, b.provider).value, AfterConsume(b, input, run), []).result
  {
  }

  /** One turn on a dispatchable stage calls both handlers and passes on the provided value. */
  lemma TurnOk(b: Binding, i: nat, input: Value, run: Behaviour)
    requires Dispatchable(b)
    ensures Turn(b, i, input, run) ==
      ([Consumed(i, b.consumer, input), Provided(i, b.provider, ProvidedBy(b, input, run))], Ok(ProvidedBy(b, input, run)))
  {
    ConsumeSpec(b.kind, b.consumer, SelfOf(b), [input], run);
    ProvideSpec(b.kind, b.provider, AfterConsume(b, input, run), [], run);
  }

  /** A turn after turns that raised nothing appends that stage's two calls. */
  lemma RunToStep(bs: seq<Binding>, n: nat, run: Behaviour)
    requires 0 < n <= |bs| && Dispatchable(bs[n - 1]) && RunTo(bs, n - 1, run).1 == Ok(Carried(bs, n - 1, run))
    ensures RunTo(bs, n, run) == (RunTo(bs, n - 1, run).0 + TurnEvents(bs, n - 1, run), Ok(Carried(bs, n, run)))
  {
    TurnOk(bs[n - 1], n - 1, Carried(bs, n - 1, run), run);
  }

  /**
   * The first `n` turns over dispatchable stages raise nothing, pass on what
   * the last of them provided, and make exactly the expected handler calls.
   */
  lemma {:induction false} RunToAll(bs: seq<Binding>, n: nat, run: Behaviour, trace: seq<Event>, res: Result<Value, Error>)
    requires n <= |bs| && AllDispatchable(bs, n) && RunTo(bs, n, run) == (trace, res)
    ensures res == Ok(Carried(bs, n, run))
    ensures trace == Expected(bs, n, run)
  {
    if n > 0 {
      var before := RunTo(bs, n - 1, run);
      RunToAll(bs, n - 1, run, before.0, before.1);
      RunToStep(bs, n, run);
    }
  }

  /**
   * The expected calls number two per stage: stage `k` consumes what the
   * stage before it provided, then provides what its provider returns on
   * the instance its consumer left.
   */
  lemma {:induction false} ExpectedAt(bs: seq<Binding>, n: nat, run: Behaviour, k: nat)
    requires n <= |bs| && k < n
    ensures |Expected(bs, n, run)| == 2 * n
    ensures Expected(bs, n, run)[2 * k] == Consumed(k, bs[k].consumer, Carried(bs, k, run))
    ensures Expected(bs, n, run)[2 * k + 1] == Provided(k, bs[k].provider, ProvidedBy(bs[k], Carried(bs, k, run), run))
  {
    if k < n - 1 {
      ExpectedAt(bs, n - 1, run, k);
    } else if n > 1 {
      ExpectedAt(bs, n - 1, run, n - 2);
    }
  }

  /** Every stage of an assembled pipeline consumes its consumer name and provides its provider name. */
  lemma AssembledDispatchable(bs: seq<Binding>, ids: seq<string>, reg: Registry, doc: Document, k: nat)
    requires Assembled(bs, ids, reg, doc) && k < |bs|
    ensures Dispatchable(bs[k])
  {
    if k > 0 {
      assert LinkAt(bs[k - 1], bs[k]);
      FirstLinkSpec(ProviderKeys(bs[k - 1].kind), bs[k].kind);
    }
    if k < |bs| - 1 {
      assert LinkAt(bs[k], bs[k + 1]);
      FirstLinkSpec(ProviderKeys(bs[k].kind), bs[k + 1].kind);
    }
  }

  /** Stages dispatchable one by one are dispatchable as a prefix. */
  lemma {:induction false} DispatchablePrefix(bs: seq<Binding>, n: nat)
    requires n <= |bs| && forall k :: 0 <= k < n ==> Dispatchable(bs[k])
    ensures AllDispatchable(bs, n)
  {
    if n > 0 {
      DispatchablePrefix(bs, n - 1);
    }
  }

  /**
   * `execute` on an assembled pipeline raises nothing: it makes exactly the
   * expected calls, consume then provide on every stage in order, the first
   * stage consuming `None` and every later one what the stage before it
   * provided (`ExpectedAt` spells out each call).
   */
  lemma RunAssembled(bs: seq<Binding>, ids: seq<string>, reg: Registry, doc: Document, run: Behaviour,
                     trace: seq<Event>, err: Option<Error>)
    requires Assembled(bs, ids, reg, doc) && Run(bs, run) == (trace, err)
    ensures forall k :: 0 <= k < |bs| ==> Dispatchable(bs[k])
    ensures err == None && trace == Expected(bs, |bs|, run) && |trace| == 2 * |bs|
  {
    forall k | 0 <= k < |bs|
      ensures Dispatchable(bs[k])
    {
      AssembledDispatchable(bs, ids, reg, doc, k);
    }
    DispatchablePrefix(bs, |bs|);
    var r := RunTo(bs, |bs|, run);
    RunToAll(bs, |bs|, run, r.0, r.1);
    if |bs| > 0 {
      ExpectedAt(bs, |bs|, run, 0);
    }
  }

  /** What `Pipeline(config)` assembles runs to the end: `configure` then `execute` raise nothing. */
  lemma BuiltPipelineRuns(doc: Document, reg: Registry, run: Behaviour, bs: seq<Binding>)
    requires Build(doc, reg) == Ok(bs)
    ensures Run(bs, run).1 == None && |Run(bs, run).0| == 2 * |Ids(doc)|
  {
    BuildSound(doc, reg, bs);
    RunAssembled(bs, Ids(doc), reg, doc, run, Run(bs, run).0, Run(bs, run).1);
  }

  /** A document without stages gives an empty pipeline, and `execute` on it calls nothing. */
  lemma EmptyPipeline(doc: Document, reg: Registry, run: Behaviour)
    requires Ids(doc) == []
    ensures Build(doc, reg) == Ok([]) && Run([], run) == ([], None)
  {
  }
}
