/**
 * The `Stage` base class: it holds a configuration and dispatches
 * `consume` and `provide` calls through its class's capability tables.
 */
module Stages {
  import opened Wrappers
  import opened Capabilities

  /** A Python value that flows between stages or comes from the configuration document. */
  datatype Value = PyNone | Dict(entries: map<string, Value>) | Datum(id: int)

  /**
   * A stage instance as its handlers see it through `self`: the
   * configuration `Stage.__init__` and `configure` set, and the other
   * attributes the handlers themselves set (`self.theInteger`).
   */
  datatype Instance = Instance(configuration: Value, attributes: map<string, Value>)

  /** What one handler call does: the value it returns and `self` after the call. */
  datatype Outcome = Outcome(result: Value, after: Instance)

  /**
   * What handler bodies do, which the model does not see: `h(self, *args)`
   * for the handler `h`, the instance `self` and the positional arguments.
   */
  type Behaviour = (Handler, Instance, seq<Value>) -> Outcome

  /** The `RuntimeError`s that `consume` and `provide` raise. */
  datatype DispatchError =
    | NoConsumers                          // 'This class has no consumers'
    | DoesNotConsume(consumedType: string) // 'This class does not consume ...'
    | NoProviders                          // 'This class has no providers'
    | DoesNotProvide(providedType: string) // 'This class does not provide ...'

  /** An instance of a stage class. */
  class Stage {
    const kind: StageType
    var configuration: Value

    /** `Stage.__init__`: the configuration starts as an empty dictionary. */
    constructor (kind: StageType)
      ensures this.kind == kind && configuration == Dict(map[])
    {
      this.kind := kind;
      configuration := Dict(map[]);
    }

    /** `Stage.configure`: replaces the configuration and nothing else. */
    method Configure(configuration: Value)
      modifies this
      ensures this.configuration == configuration
    {
      this.configuration := configuration;
    }
  }

  /**
   * `self.consume(consumedType, *args)` on an instance `self` of class
   * `kind`: raises when the class has no `Consumers` table or no entry for
   * the name, and otherwise calls the handler filed under that name on
   * `self` and the arguments.
   */
  function Consume(kind: StageType, consumedType: string, self: Instance, args: seq<Value>, run: Behaviour): Result<Outcome, DispatchError>
  {
    if kind.consumers.None? then Err(NoConsumers)
    else match Get(kind.consumers.value, consumedType)
      case None => Err(DoesNotConsume(consumedType))
      case Some(h) => Ok(run(h, self, args))
  }

  /** `self.provide(providedType, *args)`: `Consume` mirrored on the `Providers` table. */
  function Provide(kind: StageType, providedType: string, self: Instance, args: seq<Value>, run: Behaviour): Result<Outcome, DispatchError>
  {
    if kind.providers.None? then Err(NoProviders)
    else match Get(kind.providers.value, providedType)
      case None => Err(DoesNotProvide(providedType))
      case Some(h) => Ok(run(h, self, args))
  }

  /**
   * The outcomes of `consume`: each of the two errors exactly when its
   * condition holds, and otherwise the result of the first handler filed
   * under the name.
   */
  lemma ConsumeSpec(kind: StageType, consumedType: string, self: Instance, args: seq<Value>, run: Behaviour)
    ensures kind.consumers.None? <==> Consume(kind, consumedType, self, args, run) == Err(NoConsumers)
    ensures kind.consumers.Some? && consumedType !in Keys(kind.consumers.value) <==>
            Consume(kind, consumedType, self, args, run) == Err(DoesNotConsume(consumedType))
    ensures kind.consumers.Some? && consumedType in Keys(kind.consumers.value) ==>
      exists i :: 0 <= i < |kind.consumers.value| && kind.consumers.value[i].0 == consumedType &&
                  (forall j :: 0 <= j < i ==> kind.consumers.value[j].0 != consumedType) &&
                  Consume(kind, consumedType, self, args, run) == Ok(run(kind.consumers.value[i].1, self, args))
  {
    if kind.consumers.Some? && consumedType in Keys(kind.consumers.value) {
      GetFirst(kind.consumers.value, consumedType);
    }
  }

  /** The outcomes of `provide`, as for `consume`. */
  lemma ProvideSpec(kind: StageType, providedType: string, self: Instance, args: seq<Value>, run: Behaviour)
    ensures kind.providers.None? <==> Provide(kind, providedType, self, args, run) == Err(NoProviders)
    ensures kind.providers.Some? && providedType !in Keys(kind.providers.value) <==>
            Provide(kind, providedType, self, args, run) == Err(DoesNotProvide(providedType))
    ensures kind.providers.Some? && providedType in Keys(kind.providers.value) ==>
      exists i :: 0 <= i < |kind.providers.value| && kind.providers.value[i].0 == providedType &&
                  (forall j :: 0 <= j < i ==> kind.providers.value[j].0 != providedType) &&
                  Provide(kind, providedType, self, args, run) == Ok(run(kind.providers.value[i].1, self, args))
  {
    if kind.providers.Some? && providedType in Keys(kind.providers.value) {
      GetFirst(kind.providers.value, providedType);
    }
  }

  /**
   * In a table with no key twice (every table `pipelineStage` builds), the
   * handler `consume` calls is the one entry filed under the name.
   */
  lemma ConsumeCallsFiledHandler(kind: StageType, i: nat, self: Instance, args: seq<Value>, run: Behaviour)
    requires kind.consumers.Some? && i < |kind.consumers.value| && Distinct(Keys(kind.consumers.value))
    ensures Consume(kind, kind.consumers.value[i].0, self, args, run) == Ok(run(kind.consumers.value[i].1, self, args))
  {
    GetDistinct(kind.consumers.value, i);
  }

  /** The same for `provide`. */
  lemma ProvideCallsFiledHandler(kind: StageType, i: nat, self: Instance, args: seq<Value>, run: Behaviour)
    requires kind.providers.Some? && i < |kind.providers.value| && Distinct(Keys(kind.providers.value))
    ensures Provide(kind, kind.providers.value[i].0, self, args, run) == Ok(run(kind.providers.value[i].1, self, args))
  {
    GetDistinct(kind.providers.value, i);
  }
}
