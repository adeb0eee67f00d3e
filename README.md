# PyPeline in Dafny

A model of the core of PyPeline, a small Python framework that chains
"stages" into a linear pipeline. The core covers four pieces:

- **Decorators.** `@consumes(C)` and `@provides(C)` tag a handler function with a capability name. `@pipelineStage` files every tagged member of a class into the class's `Consumers` and `Providers` dictionaries, in definition order. A repeated name logs a warning and overwrites the earlier handler in place.
- **Stage.** The `Stage` base class stores a configuration. `consume` and `provide` look a capability name up in the class's tables and call the handler found, or raise.
- **Assembly.** `Pipeline(config)` reads the `Pipeline` list of stage identifiers (`package.script.Class`) and loads each class. The first class must consume `'None'`. Each later class is linked to its predecessor by the first of the predecessor's provider names, in table order, that it consumes. Each stage gets the document's entry for its identifier, if there is one. The last stage must provide `'None'`.
- **Execution.** `execute` threads one value through the chain: each stage consumes what the previous stage provided, the first stage consumes `None`.

The assembly and execution code works by updating objects, and the model
keeps that form:

- `StageWrapper` and `Pipeline` are classes whose methods update their fields.
- `Stage.configure` and the decorators mutate their objects.
- `pipelineStage` and the provider search of `loadAdditionalStage` are loops with invariants.

Each method is proved against a pure specification: `Resolve`, `Initial`,
`Successor`, `Extend`, `Chain`, `Finish` and `Build` for assembly, and
`Turn`, `RunTo` and `Run` for execution. The properties of those functions
are proved as lemmas in the modules `Assembly`, `Execution` and
`NameProperties`.

Files:

| file | module | contents |
|---|---|---|
| wrappers.dfy | Wrappers | `Option`, `Result` |
| capabilities.dfy | Capabilities | handler objects, Python dictionaries as ordered key/value lists, `StageType` |
| decorators.dfy | Decorators | `consumes`, `provides`, `pipelineStage` |
| stage.dfy | Stages | `Stage`, `consume`, `provide` |
| pipeline.dfy | Pipelines | identifiers, errors, the assembly and execution specifications, `StageWrapper`, `Pipeline` |
| names.dfy | NameProperties | `setNames` and `split`/`join` |
| assembly.dfy | Assembly | soundness, completeness and failure behaviour of assembly |
| execution.dfy | Execution | the calls `execute` makes on an assembled pipeline |
| messages.dfy | Messages | exception classes and message texts |
| integer_stage.dfy | IntegerExample | the example stage `IntegerStage` end to end |

Modelling choices and places where the code decides:

- **One sentinel.** The code uses the single string `'None'` both as the first stage's input name and as the last stage's output name (`pypeline/Pipeline.py:95`, `pypeline/Pipeline.py:123-126`). The model does too (`Pipelines.Sentinel`). It does not have separate source and sink sentinels.
- **Validation verdict.** `StageWrapper.configure` validates a stage's entry against its module's schema and throws the verdict away, so a failed validation does not stop assembly, and the model keeps it that way. A missing `schema.yaml` (`FileNotFoundError`) is caught too. Every other exception raised while reading the schema file, parsing it or validating escapes `configure` and stops assembly; the model does not raise those (see "## Left out"). A module's schema is an entry of a `schemas` map; a module without `schema.yaml` has no entry.
- **Where stage entries live.** A stage's entry is a top-level key of the whole document, beside `Pipeline`. For an identifier with two dots or more, that key is the identifier itself. For `Script.Class` (one dot), `setNames` builds the key `".Script.Class"`, because the module part is empty (`NameProperties.ConfigKey`).
- **Tables with no entries.** `instantiateConsumerOf` asks only that the class *has* `Consumers` and `Providers` attributes. An empty `Providers` table is accepted for a stage, which can then have no successor.
- **Importing.** `__import__`, `getattr` and `inspect.isclass` are a lookup in a `Registry`: a map from import path to the class members found there. The lookup can fail as the code can: no module, no member, or a member that is not a class.
- **Handler bodies.** What a handler does is a parameter `run: Behaviour`. It is called with the handler, the instance `self` (its configuration and the other attributes handlers have set) and the arguments, and gives the value returned and `self` after the call. In one turn of `execute` the provider runs on the instance the consumer left behind, so what a stage provides can depend on its configuration and on what it consumed (`Execution.ProvidedByCalls`, `IntegerExample.IntegerPrintSeesInteger`).
- **Member names.** `pipelineStage` walks the class `__dict__`, and its warnings name the attribute a function is bound under. The model keeps the `__dict__` as a table from attribute name to function object, so each binding is scanned under its own attribute name: a function bound under two names is filed once per tag, and the second binding of a capability name is warned about under the later attribute name (`Decorators.WarnedIff`).

## Model

| member | source | states |
|---|---|---|
| Capabilities.Get | pypeline/Stage.py:24-26 | a lookup finds nothing exactly when the name is not a key of the table |
| Capabilities.GetFirst | pypeline/Stage.py:26 | a name that is a key is found at its position in the table, and no earlier item has it |
| Capabilities.GetDistinct | pypeline/Stage.py:26 | in a table with no key twice, looking up an item's key gives that item's value |
| Capabilities.Put | pypeline/Decorators.py:26 | `d[k] = v` keeps the key order when `k` is present, else appends `k` at the end |
| Capabilities.PutGet | pypeline/Decorators.py:26 | after `d[k] = v`, `k` maps to `v` and every other key keeps its value |
| Capabilities.FirstSeen | pypeline/Decorators.py:20-31 | the names added to a table are exactly the ones not already present |
| Capabilities.LastWith | pypeline/Decorators.py:20-31 | the last assignment to a name is found exactly when one exists, and no later item assigns that name |
| Capabilities.PutAllKeys | pypeline/Decorators.py:20-31 | after a run of assignments, the keys are the old keys, then each new name in order of first assignment |
| Capabilities.PutAllDistinct | pypeline/Decorators.py:20-31 | assignments never make a key appear twice |
| Capabilities.PutAllHas | pypeline/Decorators.py:20-31 | a name is a key afterwards exactly when it was a key before or was assigned |
| Capabilities.PutAllGet | pypeline/Decorators.py:20-31 | the value under a name is its last assignment, else its old value |
| Capabilities.PutAllKeepsPositions | pypeline/Decorators.py:20-31 | later assignments never move a key: the earlier key order is a prefix of the later one |
| Decorators.Consumes | pypeline/Decorators.py:34-38 | returns the same function with `consumerOf` set to the name, and its provider tag untouched |
| Decorators.Provides | pypeline/Decorators.py:40-44 | returns the same function with `providerOf` set to the name, and its consumer tag untouched |
| Decorators.PipelineStage | pypeline/Decorators.py:15-32 | the scan loop leaves both tables equal to the old table (or an empty one) with every tagged member registered in definition order, and logs exactly the warnings of the scan, which `Decorators.WarnedIff` characterises |
| Decorators.Register | pypeline/Decorators.py:22-31 | one member: each of its two tags is filed and warned about independently |
| Decorators.ScanTables | pypeline/Decorators.py:20-31 | the tables the scan builds are the registrations of each direction applied in order |
| Decorators.Step | pypeline/Decorators.py:21-31 | (a function without its own contract) one member of the scan: file each tag, warning when its name is already a key; its effect is stated by `Decorators.Register`, `Decorators.StepLog` and `Decorators.StepWarned` |
| Decorators.Scan | pypeline/Decorators.py:20-31 | (a function without its own contract) the scan in `__dict__` order; its tables are stated by `Decorators.ScanTables` and its log by `Decorators.WarnedIff` |
| Decorators.StepWarned | pypeline/Decorators.py:23-30 | one member logs a warning under its attribute name exactly when its tag names a capability already in the table |
| Decorators.WarnedIff | pypeline/Decorators.py:20-31 | `C has already defined m as a Consumer/Provider` is logged exactly when the member bound under `m` carries a tag whose name was in the table before decoration or is carried by an earlier member |
| Decorators.RepeatsLast | pypeline/Decorators.py:23-28 | the last member repeats its capability exactly when the members before it left that name in the table |
| Decorators.StepLog | pypeline/Decorators.py:23-30 | warnings are appended to the log, and do not affect the tables |
| Decorators.EntriesKeys | pypeline/Decorators.py:20-31 | a name is registered exactly when some member carries that tag |
| Decorators.RegisteredIff | pypeline/Decorators.py:16-26 | after decoration a table has name `C` exactly when it had `C` before or some member is tagged `C` |
| Decorators.EntriesLast | pypeline/Decorators.py:23-31 | the last registration of a name comes from the last member tagged with it |
| Decorators.LaterMemberWins | pypeline/Decorators.py:23-31 | on a repeated name, the table maps it to the last member tagged with it |
| Decorators.UntouchedKeepsEntry | pypeline/Decorators.py:16-19 | a name no member is tagged with keeps its entry in an existing table |
| Decorators.TableOrder | pypeline/Decorators.py:20-31 | table iteration order: the old keys, then the new names in order of first registration |
| Decorators.NoTagsNoEntries | pypeline/Decorators.py:16-19 | a class without tagged members gets no registrations, so the table it starts from, existing or a fresh `dict()`, is left as it was |
| Decorators.BothRoles | pypeline/Decorators.py:22-31 | a member tagged both ways is filed in both tables |
| Stages.Stage.constructor | pypeline/Stage.py:14-15 | a new stage's configuration is the empty dictionary |
| Stages.Stage.Configure | pypeline/Stage.py:17-18 | `configure` replaces the configuration and changes nothing else |
| Stages.Consume | pypeline/Stage.py:20-26 | (a function without its own contract) `self.consume`: the two `RuntimeError`s, else the filed handler called on the instance and the arguments; its outcomes are stated by `Stages.ConsumeSpec` |
| Stages.Provide | pypeline/Stage.py:28-34 | (a function without its own contract) `self.provide`, mirrored on `Providers`; its outcomes are stated by `Stages.ProvideSpec` |
| Stages.ConsumeSpec | pypeline/Stage.py:20-26 | `consume` raises "no consumers" exactly without a table, "does not consume" exactly for an unknown name, and otherwise returns the result of the handler filed first under the name |
| Stages.ProvideSpec | pypeline/Stage.py:28-34 | the same for `provide` and the `Providers` table |
| Stages.ConsumeCallsFiledHandler | pypeline/Stage.py:26 | in a table without repeated keys, `consume` calls the handler of the item with that name |
| Stages.ProvideCallsFiledHandler | pypeline/Stage.py:34 | the same for `provide` |
| Pipelines.NamesOf | pypeline/Pipeline.py:68-75 | (a function without its own contract) `setNames` as a value; its results are stated by `NameProperties.NamesOfFails`, `NameProperties.NamesOfParts` and `NameProperties.ConfigKey` |
| Pipelines.Resolve | pypeline/Pipeline.py:78-85 | (a function without its own contract) `loadModule` as a value: the name split, the import, the member and the class check, each failing as the code can; `Pipelines.StageWrapper.LoadModule` is proved to agree with it |
| Pipelines.InstantiateError | pypeline/Pipeline.py:56-66 | (a function without its own contract) the checks of `instantiateConsumerOf`; characterised by `Assembly.InstantiateErrorIff` |
| Pipelines.Build | pypeline/Pipeline.py:113-126 | (a function without its own contract) `Pipeline.configure` as a value; stated by `Assembly.BuildSound`, `Assembly.BuildComplete`, `Assembly.BuildStopsAtError`, and by `Assembly.BuildFirstFails`, `Assembly.BuildLinkFails` and `Assembly.BuildFinalFails` for the error each failure raises |
| Pipelines.SelfOf | pypeline/Stage.py:13-18 | (a function without its own contract) the instance as `execute` reaches it: the configuration it was given and no other attribute |
| Pipelines.Turn | pypeline/Pipeline.py:131-133 | (a function without its own contract) one turn: consume the value, then provide on the instance the consumer left; stated by `Execution.TurnOk` |
| Pipelines.RunTo | pypeline/Pipeline.py:129-133 | (a function without its own contract) the first `n` turns from `None`, stopping at the first error; stated by `Pipelines.RunToStops` and `Execution.RunToAll` |
| Pipelines.Run | pypeline/Pipeline.py:128-133 | (a function without its own contract) `execute` on all stages; stated by `Execution.RunAssembled` |
| Pipelines.FirstLink | pypeline/Pipeline.py:103-110 | (a function without its own contract) the provider search of `loadAdditionalStage`: the first provider name the class can be instantiated as the consumer of; stated by `Pipelines.FirstLinkSpec` and `Pipelines.FirstLinkIs` |
| Pipelines.Initial | pypeline/Pipeline.py:92-97 | (a function without its own contract) `loadInitialStage` as a value: resolve, then instantiate as the consumer of `'None'`; stated by `Assembly.InitialIs`, `Assembly.InitialSucceeds` and `Assembly.BuildFirstFails` |
| Pipelines.Successor | pypeline/Pipeline.py:101-111 | (a function without its own contract) the new stage of `loadAdditionalStage`: its resolved class and the provider name that links it, or `NoConsumerForPrecedents`; stated by `Assembly.SuccessorIs` and `Assembly.ChainNextFails` |
| Pipelines.Extend | pypeline/Pipeline.py:99-111 | (a function without its own contract) `loadAdditionalStage` on the stage list: the last stage records the link and the new stage is appended; stated by `Assembly.LinkedShape` and `Assembly.ChainCons` |
| Pipelines.ConfigureLast | pypeline/Pipeline.py:43-54 | (a function without its own contract) `configure` on the newest stage: it takes the document's entry if there is one; stated by `Assembly.InitialConfigured` and `Assembly.ChainStages` |
| Pipelines.Finish | pypeline/Pipeline.py:123-126 | (a function without its own contract) the final check: the last stage must provide `'None'` and is bound to it, else `FinalNotSink`; stated by `Assembly.FinishAt` and `Assembly.BuildFinalFails` |
| Pipelines.SplitSegments | pypeline/Pipeline.py:70-72 | `split('.')` gives one more segment than there are dots, and no segment contains a dot |
| Pipelines.FirstLinkSpec | pypeline/Pipeline.py:103-108 | the greedy search finds nothing exactly when no provider name is consumable; otherwise it finds the first consumable one |
| Pipelines.FirstLinkIs | pypeline/Pipeline.py:103-108 | the first consumable name is the one chosen, and no later name is tried |
| Pipelines.Chain | pypeline/Pipeline.py:121-122 | a successful loop adds exactly one stage per identifier |
| Pipelines.RunToStops | pypeline/Pipeline.py:128-133 | once a consume or provide raises, no later stage runs |
| Pipelines.StageWrapper.constructor | pypeline/Pipeline.py:29-38 | a new wrapper has no class, no instance and empty names |
| Pipelines.StageWrapper.GetProviders | pypeline/Pipeline.py:40-41 | the returned table's keys are the class's provider names, in table order |
| Pipelines.StageWrapper.SetNames | pypeline/Pipeline.py:68-75 | sets the names `NamesOf` derives, or fails on an identifier without a dot and leaves the wrapper as it was |
| Pipelines.StageWrapper.LoadModule | pypeline/Pipeline.py:78-85 | sets the names and the class the identifier resolves to, or returns the resolution error |
| Pipelines.StageWrapper.InstantiateConsumerOf | pypeline/Pipeline.py:56-66 | raises exactly the specified error; on success there is a fresh, unconfigured instance of the class and the consumer name is recorded; when the consumer check raises, the instance and the consumer name are left as they were |
| Pipelines.StageWrapper.InstantiateFirstConsumerOf | pypeline/Pipeline.py:103-110 | the loop stops at the first name the class can consume, with an instance for it; no earlier name was consumable |
| Pipelines.StageWrapper.Configure | pypeline/Pipeline.py:43-54 | with no entry for the stage the instance is untouched; otherwise the instance gets the entry, whatever validation says |
| Pipelines.LoadedWrapper | pypeline/Pipeline.py:101-102 | a fresh wrapper with the resolved names and class, or the resolution error |
| Pipelines.ConsumerWrapper | pypeline/Pipeline.py:101-111 | the new wrapper consumes the first consumable provider name, or "no consumer for precedents" when there is none |
| Pipelines.Pipeline.constructor | pypeline/Pipeline.py:89 | the pipeline starts empty and valid |
| Pipelines.Pipeline.Append | pypeline/Pipeline.py:96 | appending a ready wrapper keeps the pipeline valid and adds its binding at the end |
| Pipelines.Pipeline.SetLastProvider | pypeline/Pipeline.py:106 | only the last stage's provider name changes |
| Pipelines.Pipeline.Link | pypeline/Pipeline.py:106-107 | the last stage gets its provider name, then the new wrapper is appended |
| Pipelines.Pipeline.ConfigureNewest | pypeline/Pipeline.py:120-122 | configuring the newest stage changes only its configuration |
| Pipelines.Pipeline.LoadInitialStage | pypeline/Pipeline.py:92-97 | on success appends a stage consuming `'None'`; on failure raises `Initial`'s error and leaves the pipeline unchanged |
| Pipelines.Pipeline.LoadAdditionalStage | pypeline/Pipeline.py:99-111 | on success, links and appends as `Extend` specifies; on failure leaves the pipeline unchanged |
| Pipelines.Pipeline.LoadFirst | pypeline/Pipeline.py:120 | loads the first stage, then configures it |
| Pipelines.Pipeline.LoadNext | pypeline/Pipeline.py:121-122 | loads a later stage, links it, then configures it |
| Pipelines.Pipeline.Configure | pypeline/Pipeline.py:113-126 | the loop builds exactly `Build(config)`'s bindings, or raises `Build`'s error |
| Pipelines.Pipeline.BindSink | pypeline/Pipeline.py:123-126 | fails exactly when the last stage does not provide `'None'`; otherwise binds its provider to `'None'` |
| Pipelines.Pipeline.Execute | pypeline/Pipeline.py:128-133 | the loop makes exactly the calls `Run` specifies and raises what `Run` raises |
| Pipelines.NewPipeline | pypeline/Pipeline.py:88-90 | `Pipeline(config)` holds `Build`'s bindings, or raises `Build`'s error |
| Pipelines.AppendKeepsValid | pypeline/Pipeline.py:96 | appending a fresh ready wrapper preserves the pipeline invariant |
| Pipelines.ProviderKeepsValid | pypeline/Pipeline.py:106 | setting the last provider name preserves the pipeline invariant |
| Pipelines.ConfigureKeepsValid | pypeline/Pipeline.py:53 | configuring a stage's instance preserves the pipeline invariant |
| NameProperties.NoDots | pypeline/Pipeline.py:70-71 | an identifier has no dots to count exactly when it contains no dot |
| NameProperties.JoinCons | pypeline/Pipeline.py:72 | `'.'.join` of a list is its first element, then a dot and the join of the rest |
| NameProperties.JoinAppend | pypeline/Pipeline.py:72 | joining two non-empty lists is the two joins with a dot between |
| NameProperties.SplitPrefix | pypeline/Pipeline.py:70-71 | a dot-free prefix ends up in the first segment |
| NameProperties.SplitJoin | pypeline/Pipeline.py:70-75 | `split` undoes `join` on dot-free segments |
| NameProperties.JoinSplit | pypeline/Pipeline.py:70-75 | `join` undoes `split`: the segments put back together are the identifier |
| NameProperties.NamesOfFails | pypeline/Pipeline.py:68-75 | `setNames` fails exactly on an identifier without a dot |
| NameProperties.NamesOfParts | pypeline/Pipeline.py:68-75 | class and script are the last two segments and contain no dot; module, script and class joined by dots give back the identifier |
| NameProperties.ConfigKey | pypeline/Pipeline.py:74-75 | the configuration key is the identifier when it has two dots or more, and `"." + id` with one dot |
| NameProperties.NamesOfJoin | pypeline/Pipeline.py:68-75 | for dot-free segments, `setNames` returns the segments' module, script and class |
| Assembly.InstantiateErrorIff | pypeline/Pipeline.py:56-66 | `instantiateConsumerOf` raises nothing exactly when the class has both tables, consumes the name and is a `Stage`; the not-a-stage error exactly when only the last fails |
| Assembly.SuccessorIs | pypeline/Pipeline.py:103-108 | the successor is the resolved class, linked by the first provider name it consumes |
| Assembly.LinkedShape | pypeline/Pipeline.py:105-107 | linking keeps every earlier stage, gives the last one its provider name, and appends the configured new stage |
| Assembly.ChainCons | pypeline/Pipeline.py:121-122 | a successful loop linked its first identifier and continued from there |
| Assembly.ChainConsLinked | pypeline/Pipeline.py:121-122 | after a successful link, the loop continues from the linked stages |
| Assembly.ChainKeeps | pypeline/Pipeline.py:121-122 | the loop keeps the stages it started with, changing only the last one's provider name |
| Assembly.ChainStages | pypeline/Pipeline.py:121-122 | each stage the loop adds is the class its identifier names, configured from the document |
| Assembly.ChainLinks | pypeline/Pipeline.py:103-108 | every adjacent pair: the provider name is the first of the earlier class's names the later one consumes, and the later stage consumes that name |
| Assembly.ChainOpenEnd | pypeline/Pipeline.py:99-108 | after the loop, the last stage has no provider name yet |
| Assembly.StagesOfAt | pypeline/Pipeline.py:121-122 | stage `k` is the class `ids[k]` names |
| Assembly.LinksOfAt | pypeline/Pipeline.py:105-107 | stages `k` and `k+1` are linked |
| Assembly.InitialIs | pypeline/Pipeline.py:92-97 | the first stage is the resolved class, consumes `'None'`, and has no provider name yet |
| Assembly.InitialConfigured | pypeline/Pipeline.py:120 | the configured first stage is the resolved class with the document's entry and consumes `'None'` |
| Assembly.StartStages | pypeline/Pipeline.py:120-122 | every stage after the loop is the class its identifier names, and the first consumes `'None'` |
| Assembly.StartLinks | pypeline/Pipeline.py:120-122 | after the loop every adjacent pair is linked |
| Assembly.FinishAt | pypeline/Pipeline.py:123-126 | the final check changes only the last stage's provider name, to `'None'` |
| Assembly.FinishSound | pypeline/Pipeline.py:123-126 | binding the sink turns a linked chain starting at `'None'` into an assembled pipeline |
| Assembly.BuildSound | pypeline/Pipeline.py:113-126 | on success there is one stage per identifier, in order, each the class its identifier names and configured from the document; adjacent stages are linked greedily; the first consumes and the last provides `'None'` |
| Assembly.LinkableTail | pypeline/Pipeline.py:121 | the identifiers after the first of a linkable list are linkable |
| Assembly.ChainSucceeds | pypeline/Pipeline.py:121-122 | the loop raises nothing when every identifier resolves and consumes something its predecessor provides |
| Assembly.AssembledIsAssemblable | pypeline/Pipeline.py:113-126 | an assembled pipeline meets the conditions for assembly |
| Assembly.InitialSucceeds | pypeline/Pipeline.py:92-97 | the first stage loads when its class resolves and consumes `'None'` |
| Assembly.BuildIsFinish | pypeline/Pipeline.py:120-126 | after the loop succeeds, assembly ends with the final check |
| Assembly.BuildSucceeds | pypeline/Pipeline.py:113-126 | assembly raises nothing when all the conditions hold |
| Assembly.BuildComplete | pypeline/Pipeline.py:113-126 | assembly succeeds exactly when every identifier resolves, the first class consumes `'None'`, each later class consumes a provider name of the one before, and the last class provides `'None'` |
| Assembly.ChainStopsAtError | pypeline/Pipeline.py:121-122 | when the loop raises on a prefix of the identifiers, it raises the same error on the whole list: later identifiers are never loaded |
| Assembly.ChainReadsStages | pypeline/Pipeline.py:43-53 | assembly reads only the stage entries of the document |
| Assembly.BuildStopsAtError | pypeline/Pipeline.py:109-122 | the first failing identifier decides the error: a prefix that fails, other than at the final check, makes the whole document fail the same way |
| Assembly.ChainAppend | pypeline/Pipeline.py:121-122 | the loop over two lists in a row is the loop over the first, then, if it raised nothing, the loop over the second |
| Assembly.StartLinked | pypeline/Pipeline.py:120-122 | linkable identifiers whose first class consumes `'None'` load and link without a raise, and the last stage is the last identifier's class |
| Assembly.ChainRaisesAfter | pypeline/Pipeline.py:121-122 | when the loop over a first list raises nothing and the loop over a second list from there raises, the loop over both raises the same |
| Assembly.BuildIsChain | pypeline/Pipeline.py:120-126 | after `loadInitialStage`, a raise of the loop is the raise of `Pipeline.configure`, and every raise other than the last check's comes from the loop |
| Assembly.BuildFirstFails | pypeline/Pipeline.py:92-97 | a first identifier that does not resolve raises its resolution error; a first class that cannot be the consumer of `'None'` raises the error `instantiateConsumerOf` gives |
| Assembly.ChainNextFails | pypeline/Pipeline.py:101-111 | the loop raises at its next identifier the resolution error, or `NoConsumerForPrecedents` when that class consumes no provider name of the last stage |
| Assembly.BuildAfterPrefix | pypeline/Pipeline.py:120-122 | once `k + 1` identifiers have loaded and linked, the last stage is the class of the `k`-th and a raise of the rest of the loop is the raise of `Pipeline.configure` |
| Assembly.BuildLinkFails | pypeline/Pipeline.py:99-111 | after `k + 1` identifiers load and link, the next raises its resolution error, or `NoConsumerForPrecedents` when it consumes no provider name of the stage before it |
| Assembly.BuildFinalFails | pypeline/Pipeline.py:123-125 | linkable identifiers whose first class consumes `'None'` and whose last class does not provide it raise `FinalNotSink` |
| Execution.Carried | pypeline/Pipeline.py:129-133 | (a function without its own contract) the value `output` holds after `n` turns; tied to the loop by `Execution.RunToAll` |
| Execution.ProvidedByCalls | pypeline/Stage.py:20-34 | in one turn the consumer filed under the stage's consumer name runs on the configured instance and the input, and the provider filed under its provider name runs on the instance the consumer left; its result is what the stage provides |
| Execution.TurnOk | pypeline/Pipeline.py:131-133 | a stage that consumes and provides its names raises nothing, records the two calls and passes on what its provider returns after its consumer ran on the input |
| Execution.RunToStep | pypeline/Pipeline.py:130-133 | after turns that raised nothing, one more turn appends that stage's two calls |
| Execution.RunToAll | pypeline/Pipeline.py:128-133 | over stages that can all be dispatched, the loop raises nothing, makes exactly the expected calls, and ends with the last stage's output |
| Execution.ExpectedAt | pypeline/Pipeline.py:128-133 | two calls per stage, in order: stage `k` first consumes what stage `k-1` provided (`None` for the first), then provides what its provider returns on the instance its consumer left |
| Execution.AssembledDispatchable | pypeline/Pipeline.py:103-126 | every stage of an assembled pipeline consumes its consumer name and provides its provider name |
| Execution.DispatchablePrefix | pypeline/Pipeline.py:130 | stages dispatchable one by one are dispatchable as a prefix |
| Execution.RunAssembled | pypeline/Pipeline.py:128-133 | `execute` on an assembled pipeline raises nothing and makes exactly `2N` calls, alternating consume and provide |
| Execution.BuiltPipelineRuns | pypeline/Pipeline.py:128-133 | whatever `Pipeline(config)` assembles, `execute` raises nothing on it and makes two calls per identifier |
| Execution.EmptyPipeline | pypeline/Pipeline.py:115-116 | with no `Pipeline` list, or an empty one, there are no stages and `execute` makes no calls |
| Messages.InstantiateErrorsAreCaught | pypeline/Pipeline.py:104-110 | every error `instantiateConsumerOf` raises is an `AttributeError`, which the search loop catches |
| Messages.MissingConsumerAsWrittenLosesName | pypeline/Pipeline.py:60-61 | as written, classes missing different consumers get the same message |
| Messages.MissingConsumerNamesConsumer | pypeline/Pipeline.py:60-61 | the corrected message starts with the class name, and the consumer name can be read back from it |
| Messages.MissingConsumerMessageInjective | pypeline/Pipeline.py:60-61 | with the correction, two consumers get the same message only when they are the same name |
| Messages.ExceptionOf | pypeline/Pipeline.py:56-126 | (a function without its own contract) the Python exception class of each error; stated by `Messages.InstantiateErrorsAreCaught` |
| Messages.Message | pypeline/Pipeline.py:56-126 | (a function without its own contract) the message text of each error the core raises, as it is written, including the unfilled `{consumer}`; stated by `Messages.MessageIffRaisedByCore` and `Messages.MissingConsumerErrorMessage` |
| Messages.MessageIffRaisedByCore | pypeline/Pipeline.py:56-126 | the core writes its own message exactly for the errors it raises itself |
| Messages.MissingConsumerErrorMessage | pypeline/Pipeline.py:60-61 | the missing-consumer error's message, as raised, starts with the class name and is the same whichever consumer is missing |
| Messages.CorrectedMessage | pypeline/Pipeline.py:60-61 | (a function without its own contract) the messages with the missing-consumer text corrected to name the consumer |
| Messages.CorrectedMessageNamesConsumer | pypeline/Pipeline.py:60-61 | the corrected missing-consumer message starts with the class name, names the consumer, and differs for different consumers |
| IntegerExample.DefineIntegerStage | IntegerStage/IntegerStage.py:4-15 | decorating the class logs nothing; it consumes `'None'` with `setInteger` and provides `'None'` with `printInteger` |
| IntegerExample.IntegerNames | IntegerStage/IntegerStage.py:4-5 | the identifier `IntegerStage.IntegerStage.IntegerStage` names package, script and class `IntegerStage`; its configuration key is the identifier |
| IntegerExample.IntegerPipelineBuilds | IntegerStage/IntegerStage.py:9-14 | a one-stage document assembles to one stage that consumes `'None'` and provides `'None'` |
| IntegerExample.IntegerPipelineRuns | IntegerStage/IntegerStage.py:9-15 | running it calls `setInteger` with `None`, then `printInteger` on the instance `setInteger` left, and raises nothing |
| IntegerExample.IntegerPrintSeesInteger | IntegerStage/IntegerStage.py:9-15 | with the example's handler bodies, `printInteger` runs on an instance whose `theInteger` is `1` and whose configuration is the document's entry |
| IntegerExample.RunIntegerPipeline | IntegerStage/IntegerStage.py:4-15 | defining, loading and executing the example makes exactly those two calls and raises nothing; the provided value is what `printInteger` returns on the instance `setInteger` left |

## Left out

- Reading and parsing the YAML document, the top-level schema (`readConfig`, `yamlLoader`), and `main` with its argument parsing are left out. They are I/O and foreign libraries. The model starts from a parsed `Document`: the `Pipeline` list and the per-stage entries.
- Loading `schema.yaml` with `resources.read_text` and validating with cerberus become a `Schema` predicate per module. Its verdict is computed and dropped, as in the code, so the model does not depend on what it says.
- `__import__`, `getattr` and `inspect.isclass` are replaced by a `Registry` lookup. Python's own exception messages for these failures are not modelled; `Messages.Message` gives `None` for them.
- Handler bodies are the parameter `run: Behaviour`. Handlers see and change `self` (its configuration and other attributes). The model leaves out these parts:
  - A handler cannot raise, so `execute` only raises from `consume` or `provide` themselves.
  - `print` in `printInteger` is not represented.
- Pipelines.Pipeline.Execute: the changes handlers make to `self` are passed from a stage's consumer to its provider within one turn, but are not written back to the instance objects. Within one `execute` each instance is used for exactly one consume and one provide, so this is exact for one run. A second `execute` on the same pipeline, or a handler that changes `self.configuration` for later runs, is not modelled.
- Keyword arguments (`**kwargs`) are left out: the core never passes any.
- Instantiating a class that is not a `Stage` runs its own `__init__`. The model does not represent that instance (the wrapper's `instance` is left empty). Assembly rejects such a class either way.
- Pipelines.StageWrapper.InstantiateConsumerOf: `self._class()` (`pypeline/Pipeline.py:62`) runs the class's own `__init__`, which the model does not run. A new instance starts with only the configuration `Stage.__init__` sets, and instantiation never fails. In Python, an `__init__` that needs arguments raises `TypeError`, and one may raise anything else. Those exceptions stop assembly. An `AttributeError` raised there would be swallowed by the search loop of `loadAdditionalStage` (`pypeline/Pipeline.py:108-110`), and the next provider name tried. None of these paths is modelled.
- Pipelines.StageWrapper.Configure: only the `FileNotFoundError` of a missing `schema.yaml` is caught (`pypeline/Pipeline.py:51-52`). Any other exception from `resources.read_text`, the YAML loader or `cerberus` escapes and stops assembly. Examples are the `ValueError` raised for the empty module name of a one-dot identifier such as `Script.Class` with an entry under `.Script.Class`, a malformed `schema.yaml`, or an entry cerberus cannot validate. The model never raises from `configure`.
- A subclass of a decorated class sees the parent's `Consumers` and `Providers` through `hasattr` and shares them. This Python inheritance quirk is not modelled: each class has its own tables.
- `logging.warning` is a returned list of `Warning` values rather than output.
- Pipelines.Pipeline.Configure: requires a pipeline that is still empty. Its only caller, `__init__`, always gives it one, so a second `configure` on a loaded pipeline is not modelled.
- Execution.ProvidedBy: gives `None` for a stage that cannot provide. `execute` never consults it for such a stage in an assembled pipeline. Execution.AfterConsume likewise gives the unchanged instance for a stage that cannot consume.

## Findings

| source | as written | input that shows it | evidently intended | confidence | as-written member | corrected member |
|---|---|---|---|---|---|---|
| pypeline/Pipeline.py:60-61 | the message is `f'{cls} does not have a ' '"{consumer}" Consumer'`; only the first literal is an f-string, so the text contains `{consumer}` literally | a class `Foo` without a `'None'` consumer as the first stage: the message is `Foo does not have a "{consumer}" Consumer`, identical to the message for any other missing name | the consumer name is put into the message (`Foo does not have a "None" Consumer`) | not executed | Messages.MissingConsumerErrorMessage | Messages.CorrectedMessageNamesConsumer |

`Messages.Message` keeps the text as the code writes it. `Messages.CorrectedMessage` is the corrected version, and nothing else in the model depends on the message text.
