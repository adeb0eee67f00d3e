/**
 * Properties of pipeline assembly (`Pipeline.configure`): what a pipeline
 * that assembles looks like, when assembly succeeds, and how it fails.
 */
module Assembly {
  import opened Wrappers
  import opened Capabilities
  import opened Stages
  import opened Pipelines

  /** `instantiateConsumerOf` raises nothing exactly for a class that can consume the name, and says why otherwise. */
  lemma InstantiateErrorIff(t: StageType, cls: string, consumer: string)
    ensures InstantiateError(t, cls, consumer).None? <==> CanConsume(t, consumer)
    ensures InstantiateError(t, cls, consumer) == Some(NotAStage(cls)) <==>
      t.consumers.Some? && t.providers.Some? && consumer in Keys(t.consumers.value) && !t.isStage
  {
  }

  /** The configuration `StageWrapper.configure` leaves on a fresh instance of the stage named `n`. */
  function ConfigOf(n: Names, doc: Document): Value
  {
    if n.configName in doc.stages then doc.stages[n.configName] else Dict(map[])
  }

  /** The search of `loadAdditionalStage` picks the first provider name the resolved class consumes. */
  lemma SuccessorIs(id: string, reg: Registry, ps: seq<string>)
    requires Successor(id, reg, ps).Ok?
    ensures var s := Successor(id, reg, ps).value;
      Resolve(id, reg) == Ok((s.0, s.1)) && FirstLink(ps, s.1) == Some(s.2)
  {
  }

  /** The stages after linking a new stage `s` to the last of `acc` and configuring it. */
  function Linked(acc: seq<Binding>, s: (Names, StageType, string), doc: Document): seq<Binding>
    requires |acc| > 0
  {
    acc[..|acc| - 1] + [acc[|acc| - 1].(provider := s.2)] + [Binding(s.0, s.1, s.2, "", ConfigOf(s.0, doc))]
  }

  /** Linking keeps the stages before the last, names the link on the last, and appends the new stage. */
  lemma LinkedShape(acc: seq<Binding>, s: (Names, StageType, string), doc: Document)
    requires |acc| > 0
    ensures var c := Linked(acc, s, doc);
      |c| == |acc| + 1 && c[..|acc| - 1] == acc[..|acc| - 1] && c[|acc| - 1] == acc[|acc| - 1].(provider := s.2) &&
      c[|acc|] == Binding(s.0, s.1, s.2, "", ConfigOf(s.0, doc))
  {
    var c := Linked(acc, s, doc);
    assert c[..|acc| - 1] == acc[..|acc| - 1];
  }

  /** One step of the assembly loop, written out: link the next identifier, configure it, go on. */
  lemma ChainCons(acc: seq<Binding>, ids: seq<string>, reg: Registry, doc: Document, r: seq<Binding>)
    requires |acc| > 0 && ids != [] && Chain(acc, ids, reg, doc) == Ok(r)
    ensures Successor(ids[0], reg, ProviderKeys(acc[|acc| - 1].kind)).Ok?
    ensures Chain(Linked(acc, Successor(ids[0], reg, ProviderKeys(acc[|acc| - 1].kind)).value, doc), ids[1..], reg, doc) == Ok(r)
  {
    var e := Extend(acc, ids[0], reg).value;
    var s := Successor(ids[0], reg, ProviderKeys(acc[|acc| - 1].kind)).value;
    assert ConfigureLast(e, doc) == Linked(acc, s, doc);
  }

  /** The same step, from the other side: when the next identifier links, assembly goes on from the linked stages. */
  lemma ChainConsLinked(acc: seq<Binding>, ids: seq<string>, reg: Registry, doc: Document)
    requires |acc| > 0 && ids != [] && Successor(ids[0], reg, ProviderKeys(acc[|acc| - 1].kind)).Ok?
    ensures Chain(acc, ids, reg, doc) ==
      Chain(Linked(acc, Successor(ids[0], reg, ProviderKeys(acc[|acc| - 1].kind)).value, doc), ids[1..], reg, doc)
  {
    var e := Extend(acc, ids[0], reg).value;
    var s := Successor(ids[0], reg, ProviderKeys(acc[|acc| - 1].kind)).value;
    assert ConfigureLast(e, doc) == Linked(acc, s, doc);
  }

  /** The stage at some position is the class `id` names, configured from the document. */
  ghost predicate StageAt(b: Binding, id: string, reg: Registry, doc: Document)
  {
    Resolve(id, reg).Ok? && b.names == Resolve(id, reg).value.0 && b.kind == Resolve(id, reg).value.1 &&
    b.configuration == ConfigOf(b.names, doc)
  }

  /** Stage by stage, `bs` are the classes `ids` name, configured from the document. */
  ghost predicate StagesOf(bs: seq<Binding>, ids: seq<string>, reg: Registry, doc: Document)
    decreases |ids|
  {
    |bs| == |ids| && (ids != [] ==> StageAt(bs[0], ids[0], reg, doc) && StagesOf(bs[1..], ids[1..], reg, doc))
  }

  /** Two neighbours are linked by the first provider name of `prev` that `next` consumes. */
  ghost predicate LinkAt(prev: Binding, next: Binding)
  {
    FirstLink(ProviderKeys(prev.kind), next.kind) == Some(prev.provider) && next.consumer == prev.provider
  }

  /** Every pair of neighbours in `bs` is linked greedily. */
  ghost predicate LinksOf(bs: seq<Binding>)
    decreases |bs|
  {
    |bs| >= 2 ==> LinkAt(bs[0], bs[1]) && LinksOf(bs[1..])
  }

  /**
   * Assembly adds one stage per identifier and never changes the stages
   * already there, except for the provider name of the last one.
   */
  lemma {:induction false} ChainKeeps(acc: seq<Binding>, ids: seq<string>, reg: Registry, doc: Document, r: seq<Binding>)
    requires |acc| > 0 && Chain(acc, ids, reg, doc) == Ok(r)
    ensures |r| == |acc| + |ids| && r[..|acc| - 1] == acc[..|acc| - 1]
    ensures r[|acc| - 1] == acc[|acc| - 1].(provider := r[|acc| - 1].provider)
    decreases |ids|
  {
    if ids != [] {
      ChainCons(acc, ids, reg, doc, r);
      var s := Successor(ids[0], reg, ProviderKeys(acc[|acc| - 1].kind)).value;
      var c := Linked(acc, s, doc);
      LinkedShape(acc, s, doc);
      ChainKeeps(c, ids[1..], reg, doc, r);
      assert r[..|acc| - 1] == r[..|c| - 1][..|acc| - 1];
      assert r[|acc| - 1] == r[..|c| - 1][|acc| - 1];
    }
  }

  /** Each stage assembly adds is the class its identifier names, configured from the document. */
  lemma {:induction false} ChainStages(acc: seq<Binding>, ids: seq<string>, reg: Registry, doc: Document, r: seq<Binding>)
    requires |acc| > 0 && Chain(acc, ids, reg, doc) == Ok(r)
    ensures |acc| <= |r| && StagesOf(r[|acc|..], ids, reg, doc)
    decreases |ids|
  {
    ChainKeeps(acc, ids, reg, doc, r);
    if ids != [] {
      ChainCons(acc, ids, reg, doc, r);
      var s := Successor(ids[0], reg, ProviderKeys(acc[|acc| - 1].kind)).value;
      var c := Linked(acc, s, doc);
      LinkedShape(acc, s, doc);
      SuccessorIs(ids[0], reg, ProviderKeys(acc[|acc| - 1].kind));
      ChainStages(c, ids[1..], reg, doc, r);
      ChainKeeps(c, ids[1..], reg, doc, r);
      assert r[|acc|..][0] == r[|acc|] == c[|acc|].(provider := r[|acc|].provider);
      assert r[|acc|..][1..] == r[|c|..];
    } else {
      assert r[|acc|..] == [];
    }
  }

  /** Consecutive stages that assembly links are linked greedily. */
  lemma {:induction false} ChainLinks(acc: seq<Binding>, ids: seq<string>, reg: Registry, doc: Document, r: seq<Binding>)
    requires |acc| > 0 && Chain(acc, ids, reg, doc) == Ok(r)
    ensures |acc| <= |r| && LinksOf(r[|acc| - 1..])
    decreases |ids|
  {
    ChainKeeps(acc, ids, reg, doc, r);
    if ids != [] {
      ChainCons(acc, ids, reg, doc, r);
      var s := Successor(ids[0], reg, ProviderKeys(acc[|acc| - 1].kind)).value;
      var c := Linked(acc, s, doc);
      LinkedShape(acc, s, doc);
      SuccessorIs(ids[0], reg, ProviderKeys(acc[|acc| - 1].kind));
      ChainLinks(c, ids[1..], reg, doc, r);
      ChainKeeps(c, ids[1..], reg, doc, r);
      assert r[|acc| - 1] == r[..|c| - 1][|acc| - 1] == c[|acc| - 1];
      assert r[|acc|] == c[|acc|].(provider := r[|acc|].provider);
      assert r[|acc| - 1..][0] == r[|acc| - 1] && r[|acc| - 1..][1] == r[|acc|];
      assert r[|acc| - 1..][1..] == r[|c| - 1..];
    } else {
      assert |r[|acc| - 1..]| == 1;
    }
  }

  /** The last stage assembly adds provides nothing yet: `Pipeline.configure` binds it at the end. */
  lemma {:induction false} ChainOpenEnd(acc: seq<Binding>, ids: seq<string>, reg: Registry, doc: Document, r: seq<Binding>)
    requires |acc| > 0 && ids != [] && Chain(acc, ids, reg, doc) == Ok(r)
    ensures |r| > 0 && r[|r| - 1].provider == ""
    decreases |ids|
  {
    ChainCons(acc, ids, reg, doc, r);
    var s := Successor(ids[0], reg, ProviderKeys(acc[|acc| - 1].kind)).value;
    var c := Linked(acc, s, doc);
    if ids[1..] != [] {
      ChainOpenEnd(c, ids[1..], reg, doc, r);
    } else {
      LinkedShape(acc, s, doc);
    }
  }

  /** The `StagesOf` facts one position at a time. */
  lemma {:induction false} StagesOfAt(bs: seq<Binding>, ids: seq<string>, reg: Registry, doc: Document, k: nat)
    requires StagesOf(bs, ids, reg, doc) && k < |ids|
    ensures StageAt(bs[k], ids[k], reg, doc)
  {
    if k > 0 {
      StagesOfAt(bs[1..], ids[1..], reg, doc, k - 1);
    }
  }

  /** The `LinksOf` facts one pair at a time. */
  lemma {:induction false} LinksOfAt(bs: seq<Binding>, k: nat)
    requires LinksOf(bs) && k + 1 < |bs|
    ensures LinkAt(bs[k], bs[k + 1])
  {
    if k > 0 {
      LinksOfAt(bs[1..], k - 1);
    }
  }

  /** `loadInitialStage` succeeds with the class the identifier names, consuming the sentinel and providing nothing yet. */
  lemma InitialIs(id: string, reg: Registry, b: Binding)
    requires Initial(id, reg) == Ok(b)
    ensures Resolve(id, reg) == Ok((b.names, b.kind)) && CanConsume(b.kind, Sentinel)
    ensures b == Binding(b.names, b.kind, Sentinel, "", Dict(map[]))
  {
    var r := Resolve(id, reg).value;
    InstantiateErrorIff(r.1, r.0.className, Sentinel);
  }

  /** The stages `loadInitialStage` and its `configure` leave: the first class, configured from the document. */
  lemma InitialConfigured(id: string, reg: Registry, doc: Document, b: Binding)
    requires Initial(id, reg) == Ok(b)
    ensures ConfigureLast([b], doc) == [b.(configuration := ConfigOf(b.names, doc))]
    ensures StageAt(ConfigureLast([b], doc)[0], id, reg, doc)
    ensures ConfigureLast([b], doc)[0].consumer == Sentinel && CanConsume(b.kind, Sentinel)
  {
    InitialIs(id, reg, b);
  }

  /**
   * Before the last check: the stages of a successful assembly are the
   * classes the identifiers name, and the first consumes the sentinel.
   */
  lemma StartStages(ids: seq<string>, reg: Registry, doc: Document, b: Binding, r: seq<Binding>)
    requires ids != [] && Initial(ids[0], reg) == Ok(b)
    requires Chain(ConfigureLast([b], doc), ids[1..], reg, doc) == Ok(r)
    ensures StagesOf(r, ids, reg, doc) && r[0].consumer == Sentinel && CanConsume(r[0].kind, Sentinel)
  {
    var c0 := ConfigureLast([b], doc);
    InitialConfigured(ids[0], reg, doc, b);
    ChainKeeps(c0, ids[1..], reg, doc, r);
    ChainStages(c0, ids[1..], reg, doc, r);
    assert r[0] == c0[0].(provider := r[0].provider);
    assert r[|c0|..] == r[1..];
  }

  /** Before the last check, every neighbour is linked greedily to the one before it. */
  lemma StartLinks(ids: seq<string>, reg: Registry, doc: Document, b: Binding, r: seq<Binding>)
    requires ids != [] && Initial(ids[0], reg) == Ok(b)
    requires Chain(ConfigureLast([b], doc), ids[1..], reg, doc) == Ok(r)
    ensures LinksOf(r)
  {
    var c0 := ConfigureLast([b], doc);
    ChainLinks(c0, ids[1..], reg, doc, r);
    assert |c0| == 1 && r[|c0| - 1..] == r;
  }

  /** The identifiers the document lists; an absent list is an empty one. */
  function Ids(doc: Document): seq<string>
  {
    if doc.pipeline.Some? then doc.pipeline.value else []
  }

  /**
   * A pipeline assembled from `ids`: stage `k` is the class `ids[k]` names,
   * configured from the document; the first stage consumes the sentinel;
   * each later stage consumes the first provider name of the one before it
   * that it accepts; and the last stage provides the sentinel.
   */
  ghost predicate Assembled(bs: seq<Binding>, ids: seq<string>, reg: Registry, doc: Document)
  {
    |bs| == |ids| &&
    (forall k :: 0 <= k < |bs| ==> StageAt(bs[k], ids[k], reg, doc)) &&
    (forall k :: 0 <= k < |bs| - 1 ==> LinkAt(bs[k], bs[k + 1])) &&
    (|bs| > 0 ==> bs[0].consumer == Sentinel && CanConsume(bs[0].kind, Sentinel) &&
                  bs[|bs| - 1].provider == Sentinel && Sentinel in ProviderKeys(bs[|bs| - 1].kind))
  }

  /** The last check changes nothing but the provider name of the last stage, which becomes the sentinel. */
  lemma FinishAt(r: seq<Binding>, bs: seq<Binding>, k: nat)
    requires |r| > 0 && Finish(r) == Ok(bs) && k < |r|
    ensures |bs| == |r| && Sentinel in ProviderKeys(r[|r| - 1].kind)
    ensures bs[k] == if k < |r| - 1 then r[k] else r[k].(provider := Sentinel)
  {
  }

  /** Binding the last stage to the sentinel turns a correctly started chain into an assembled pipeline. */
  lemma FinishSound(r: seq<Binding>, ids: seq<string>, reg: Registry, doc: Document, bs: seq<Binding>)
    requires |r| > 0 && StagesOf(r, ids, reg, doc) && LinksOf(r)
    requires r[0].consumer == Sentinel && CanConsume(r[0].kind, Sentinel) && Finish(r) == Ok(bs)
    ensures Assembled(bs, ids, reg, doc)
  {
    FinishAt(r, bs, 0);
    FinishAt(r, bs, |r| - 1);
    forall k | 0 <= k < |bs|
      ensures StageAt(bs[k], ids[k], reg, doc)
    {
      StagesOfAt(r, ids, reg, doc, k);
      FinishAt(r, bs, k);
    }
    forall k | 0 <= k < |bs| - 1
      ensures LinkAt(bs[k], bs[k + 1])
    {
      LinksOfAt(r, k);
      FinishAt(r, bs, k);
      FinishAt(r, bs, k + 1);
    }
  }

  /** What `Pipeline.configure` assembles, when it raises nothing, is a pipeline assembled from the listed identifiers. */
  lemma BuildSound(doc: Document, reg: Registry, bs: seq<Binding>)
    requires Build(doc, reg) == Ok(bs)
    ensures Assembled(bs, Ids(doc), reg, doc)
  {
    var ids := Ids(doc);
    if ids != [] {
      var b := Initial(ids[0], reg).value;
      var r := Chain(ConfigureLast([b], doc), ids[1..], reg, doc).value;
      BuildIsFinish(doc, reg, b, r);
      StartStages(ids, reg, doc, b, r);
      StartLinks(ids, reg, doc, b, r);
      FinishSound(r, ids, reg, doc, bs);
    }
  }

  /** The class an identifier that resolves names. */
  function KindOf(id: string, reg: Registry): StageType
    requires Resolve(id, reg).Ok?
  {
    Resolve(id, reg).value.1
  }

  /** Every identifier resolves, and each class consumes some provider name of the class before it. */
  ghost predicate Linkable(ids: seq<string>, reg: Registry)
  {
    (forall k :: 0 <= k < |ids| ==> Resolve(ids[k], reg).Ok?) &&
    (forall k :: 0 <= k < |ids| - 1 ==> FirstLink(ProviderKeys(KindOf(ids[k], reg)), KindOf(ids[k + 1], reg)).Some?)
  }

  /** Linkable identifiers, with a first class that consumes the sentinel and a last class that provides it. */
  ghost predicate Assemblable(ids: seq<string>, reg: Registry)
  {
    Linkable(ids, reg) &&
    (ids != [] ==> CanConsume(KindOf(ids[0], reg), Sentinel) && Sentinel in ProviderKeys(KindOf(ids[|ids| - 1], reg)))
  }

  /** The identifiers after the first of linkable identifiers are linkable. */
  lemma LinkableTail(ids: seq<string>, reg: Registry)
    requires ids != [] && Linkable(ids, reg)
    ensures Linkable(ids[1..], reg)
  {
    assert forall k :: 0 <= k < |ids| - 1 ==> ids[1..][k] == ids[k + 1];
  }

  /** Assembly links every identifier when each one links to the class before it. */
  lemma {:induction false} ChainSucceeds(acc: seq<Binding>, ids: seq<string>, reg: Registry, doc: Document)
    requires |acc| > 0 && Linkable(ids, reg)
    requires ids != [] ==> FirstLink(ProviderKeys(acc[|acc| - 1].kind), KindOf(ids[0], reg)).Some?
    ensures Chain(acc, ids, reg, doc).Ok?
    decreases |ids|
  {
    if ids != [] {
      var s := Successor(ids[0], reg, ProviderKeys(acc[|acc| - 1].kind));
      assert s.Ok? && s.value.1 == KindOf(ids[0], reg);
      ChainConsLinked(acc, ids, reg, doc);
      var c := Linked(acc, s.value, doc);
      LinkedShape(acc, s.value, doc);
      LinkableTail(ids, reg);
      if |ids| > 1 {
        assert ids[1..][0] == ids[1];
      }
      ChainSucceeds(c, ids[1..], reg, doc);
    }
  }

  /** An assembled pipeline witnesses that its identifiers are assemblable. */
  lemma AssembledIsAssemblable(bs: seq<Binding>, ids: seq<string>, reg: Registry, doc: Document)
    requires Assembled(bs, ids, reg, doc)
    ensures Assemblable(ids, reg)
  {
    assert forall k :: 0 <= k < |ids| ==> StageAt(bs[k], ids[k], reg, doc);
    forall k | 0 <= k < |ids| - 1
      ensures FirstLink(ProviderKeys(KindOf(ids[k], reg)), KindOf(ids[k + 1], reg)).Some?
    {
      assert LinkAt(bs[k], bs[k + 1]);
      assert StageAt(bs[k], ids[k], reg, doc) && StageAt(bs[k + 1], ids[k + 1], reg, doc);
    }
    if ids != [] {
      assert StageAt(bs[0], ids[0], reg, doc) && StageAt(bs[|bs| - 1], ids[|ids| - 1], reg, doc);
    }
  }

  /** A first class that resolves and consumes the sentinel is loaded by `loadInitialStage`. */
  lemma InitialSucceeds(id: string, reg: Registry)
    requires Resolve(id, reg).Ok? && CanConsume(KindOf(id, reg), Sentinel)
    ensures Initial(id, reg).Ok? && Initial(id, reg).value.kind == KindOf(id, reg)
  {
    InstantiateErrorIff(KindOf(id, reg), Resolve(id, reg).value.0.className, Sentinel);
  }

  /** Once the first stage is loaded and the others are linked, what is left is the last check. */
  lemma BuildIsFinish(doc: Document, reg: Registry, b: Binding, r: seq<Binding>)
    requires Ids(doc) != [] && Initial(Ids(doc)[0], reg) == Ok(b)
    requires Chain(ConfigureLast([b], doc), Ids(doc)[1..], reg, doc) == Ok(r)
    ensures |r| > 0 && Build(doc, reg) == Finish(r)
  {
    InitialConfigured(Ids(doc)[0], reg, doc, b);
    ChainKeeps(ConfigureLast([b], doc), Ids(doc)[1..], reg, doc, r);
  }

  /** Assembly of assemblable identifiers raises nothing. */
  lemma BuildSucceeds(doc: Document, reg: Registry)
    requires Assemblable(Ids(doc), reg)
    ensures Build(doc, reg).Ok?
  {
    var ids := Ids(doc);
    if ids != [] {
      InitialSucceeds(ids[0], reg);
      var b := Initial(ids[0], reg).value;
      InitialConfigured(ids[0], reg, doc, b);
      var c0 := ConfigureLast([b], doc);
      LinkableTail(ids, reg);
      if |ids| > 1 {
        assert ids[1..][0] == ids[1];
      }
      ChainSucceeds(c0, ids[1..], reg, doc);
      var r := Chain(c0, ids[1..], reg, doc).value;
      StartStages(ids, reg, doc, b, r);
      StagesOfAt(r, ids, reg, doc, |ids| - 1);
      BuildIsFinish(doc, reg, b, r);
    }
  }

  /**
   * `Pipeline.configure` raises nothing exactly when the listed identifiers
   * are assemblable: each resolves to a class, the first consumes the
   * sentinel, each consumes a provider name of the one before it, and the
   * last provides the sentinel.
   */
  lemma BuildComplete(doc: Document, reg: Registry)
    ensures Build(doc, reg).Ok? <==> Assemblable(Ids(doc), reg)
  {
    if Assemblable(Ids(doc), reg) {
      BuildSucceeds(doc, reg);
    }
    if Build(doc, reg).Ok? {
      BuildSound(doc, reg, Build(doc, reg).value);
      AssembledIsAssemblable(Build(doc, reg).value, Ids(doc), reg, doc);
    }
  }

  /** A raise ends the assembly loop: identifiers after the one that failed are never loaded. */
  lemma {:induction false} ChainStopsAtError(acc: seq<Binding>, ids: seq<string>, k: nat, reg: Registry, doc: Document, e: Error)
    requires |acc| > 0 && k <= |ids| && Chain(acc, ids[..k], reg, doc) == Err(e)
    ensures Chain(acc, ids, reg, doc) == Err(e)
    decreases k
  {
    var pre := ids[..k];
    assert pre != [] && pre[0] == ids[0];
    var x := Extend(acc, ids[0], reg);
    if x.Ok? {
      var c := ConfigureLast(x.value, doc);
      assert Chain(acc, pre, reg, doc) == Chain(c, pre[1..], reg, doc);
      assert pre[1..] == ids[1..][..k - 1];
      ChainStopsAtError(c, ids[1..], k - 1, reg, doc, e);
    }
  }

  /** Assembly reads only the per-stage entries of the document, not its list. */
  lemma {:induction false} ChainReadsStages(acc: seq<Binding>, ids: seq<string>, reg: Registry, doc: Document, doc': Document)
    requires |acc| > 0 && doc.stages == doc'.stages
    ensures Chain(acc, ids, reg, doc) == Chain(acc, ids, reg, doc')
    decreases |ids|
  {
    if ids != [] {
      match Extend(acc, ids[0], reg)
      case Err(_) =>
      case Ok(next) =>
        assert ConfigureLast(next, doc) == ConfigureLast(next, doc');
        ChainReadsStages(ConfigureLast(next, doc), ids[1..], reg, doc, doc');
    }
  }

  /**
   * `Pipeline.configure` raises the first error of the listed identifiers:
   * when the first `k` of them already fail other than at the last check,
   * the whole list fails with the same error.
   */
  lemma BuildStopsAtError(doc: Document, reg: Registry, k: nat)
    requires doc.pipeline.Some? && 0 < k <= |doc.pipeline.value|
    requires Build(doc.(pipeline := Some(doc.pipeline.value[..k])), reg).Err?
    requires Build(doc.(pipeline := Some(doc.pipeline.value[..k])), reg) != Err(FinalNotSink)
    ensures Build(doc, reg) == Build(doc.(pipeline := Some(doc.pipeline.value[..k])), reg)
  {
    var ids := doc.pipeline.value;
    var pre := doc.(pipeline := Some(ids[..k]));
    assert ids[..k][0] == ids[0];
    match Initial(ids[0], reg)
    case Err(_) =>
    case Ok(b) =>
      BuildIsChain(pre, reg, b);
      BuildIsChain(doc, reg, b);
      var c0 := ConfigureLast([b], doc);
      assert ConfigureLast([b], pre) == c0;
      assert ids[..k][1..] == ids[1..][..k - 1];
      ChainReadsStages(c0, ids[1..][..k - 1], reg, pre, doc);
      ChainStopsAtError(c0, ids[1..], k - 1, reg, doc, Build(pre, reg).error);
  }

  /** The assembly loop over `a + b` is the loop over `a`, then, if that raises nothing, the loop over `b` from there. */
  lemma {:induction false} ChainAppend(acc: seq<Binding>, a: seq<string>, b: seq<string>, reg: Registry, doc: Document)
    requires |acc| > 0
    ensures Chain(acc, a + b, reg, doc) ==
      if Chain(acc, a, reg, doc).Err? then Chain(acc, a, reg, doc) else Chain(Chain(acc, a, reg, doc).value, b, reg, doc)
    decreases |a|
  {
    if a == [] {
      assert a + b == b;
    } else {
      assert (a + b)[0] == a[0] && (a + b)[1..] == a[1..] + b;
      match Extend(acc, a[0], reg)
      case Err(_) =>
      case Ok(next) =>
        ChainAppend(ConfigureLast(next, doc), a[1..], b, reg, doc);
    }
  }

  /**
   * Linkable identifiers whose first class consumes the sentinel are
   * loaded and linked without a raise, and the last stage is the class the
   * last identifier names.
   */
  lemma StartLinked(ids: seq<string>, reg: Registry, doc: Document) returns (b: Binding, r: seq<Binding>)
    requires ids != [] && Linkable(ids, reg) && CanConsume(KindOf(ids[0], reg), Sentinel)
    ensures Initial(ids[0], reg) == Ok(b) && Chain(ConfigureLast([b], doc), ids[1..], reg, doc) == Ok(r)
    ensures |r| == |ids| && r[|ids| - 1].kind == KindOf(ids[|ids| - 1], reg)
  {
    InitialSucceeds(ids[0], reg);
    b := Initial(ids[0], reg).value;
    InitialConfigured(ids[0], reg, doc, b);
    var c0 := ConfigureLast([b], doc);
    LinkableTail(ids, reg);
    if |ids| > 1 {
      assert ids[1..][0] == ids[1];
    }
    ChainSucceeds(c0, ids[1..], reg, doc);
    r := Chain(c0, ids[1..], reg, doc).value;
    StartStages(ids, reg, doc, b, r);
    StagesOfAt(r, ids, reg, doc, |ids| - 1);
  }

  /** When the loop over `a` raises nothing and the loop over `b` from there raises, the loop over `a + b` raises the same. */
  lemma ChainRaisesAfter(acc: seq<Binding>, a: seq<string>, b: seq<string>, reg: Registry, doc: Document, r: seq<Binding>)
    requires |acc| > 0 && Chain(acc, a, reg, doc) == Ok(r) && Chain(r, b, reg, doc).Err?
    ensures Chain(acc, a + b, reg, doc) == Chain(r, b, reg, doc)
  {
    ChainAppend(acc, a, b, reg, doc);
  }

  /**
   * The errors of `loadInitialStage` are those of `Pipeline.configure`: an
   * identifier that does not resolve raises its resolution error, and a
   * class that resolves but cannot be instantiated as the consumer of the
   * sentinel raises the error `instantiateConsumerOf` gives.
   */
  lemma BuildFirstFails(doc: Document, reg: Registry)
    requires Ids(doc) != []
    ensures Resolve(Ids(doc)[0], reg).Err? ==> Build(doc, reg) == Err(Resolve(Ids(doc)[0], reg).error)
    ensures Resolve(Ids(doc)[0], reg).Ok? && !CanConsume(KindOf(Ids(doc)[0], reg), Sentinel) ==>
      Build(doc, reg) == Err(InstantiateError(KindOf(Ids(doc)[0], reg), Resolve(Ids(doc)[0], reg).value.0.className, Sentinel).value)
  {
    var id := Ids(doc)[0];
    if Resolve(id, reg).Ok? {
      InstantiateErrorIff(KindOf(id, reg), Resolve(id, reg).value.0.className, Sentinel);
    }
  }

  /** The loop raises at its next identifier when that one does not resolve or links to no provider name of the last stage. */
  lemma ChainNextFails(acc: seq<Binding>, ids: seq<string>, reg: Registry, doc: Document)
    requires |acc| > 0 && ids != []
    ensures Resolve(ids[0], reg).Err? ==> Chain(acc, ids, reg, doc) == Err(Resolve(ids[0], reg).error)
    ensures Resolve(ids[0], reg).Ok? && FirstLink(ProviderKeys(acc[|acc| - 1].kind), KindOf(ids[0], reg)).None? ==>
      Chain(acc, ids, reg, doc) == Err(NoConsumerForPrecedents(ids[0]))
  {
  }

  /**
   * After `loadInitialStage`, a raise of the assembly loop is the raise of
   * `Pipeline.configure`, and every raise other than the last check's comes
   * from the loop.
   */
  lemma BuildIsChain(doc: Document, reg: Registry, b: Binding)
    requires Ids(doc) != [] && Initial(Ids(doc)[0], reg) == Ok(b)
    ensures Chain(ConfigureLast([b], doc), Ids(doc)[1..], reg, doc).Err? ==>
      Build(doc, reg) == Chain(ConfigureLast([b], doc), Ids(doc)[1..], reg, doc)
    ensures Build(doc, reg).Err? && Build(doc, reg) != Err(FinalNotSink) ==>
      Chain(ConfigureLast([b], doc), Ids(doc)[1..], reg, doc).Err?
  {
  }

  /** A list cut after position `k`: the prefix starts the list, and its tail and the rest make up the list's tail. */
  lemma PrefixParts<T>(s: seq<T>, k: nat)
    requires k < |s|
    ensures |s[..k + 1]| == k + 1 && s[..k + 1][0] == s[0] && s[..k + 1][1..] + s[k + 1..] == s[1..]
  {
    assert s[..k + 1][1..] + s[k + 1..] == s[1..k + 1] + s[k + 1..];
  }

  /**
   * When the first `k + 1` identifiers load and link, `Pipeline.configure`
   * goes on from a stage list whose last stage is the class `ids[k]` names,
   * and a raise of the rest of the loop is its raise.
   */
  lemma BuildAfterPrefix(doc: Document, reg: Registry, k: nat) returns (r: seq<Binding>)
    requires k + 1 < |Ids(doc)|
    requires var pre := Ids(doc)[..k + 1]; Linkable(pre, reg) && CanConsume(KindOf(pre[0], reg), Sentinel)
    ensures var pre := Ids(doc)[..k + 1]; |r| == k + 1 && r[k].kind == KindOf(pre[k], reg)
    ensures Chain(r, Ids(doc)[k + 1..], reg, doc).Err? ==> Build(doc, reg) == Chain(r, Ids(doc)[k + 1..], reg, doc)
  {
    var ids := Ids(doc);
    var pre := ids[..k + 1];
    var rest := ids[k + 1..];
    PrefixParts(ids, k);
    var b;
    b, r := StartLinked(pre, reg, doc);
    if Chain(r, rest, reg, doc).Err? {
      ChainRaisesAfter(ConfigureLast([b], doc), pre[1..], rest, reg, doc, r);
      BuildIsChain(doc, reg, b);
    }
  }

  /**
   * When the first `k + 1` identifiers load and link, the next one decides
   * the error: an identifier that does not resolve raises its resolution
   * error, and a class that consumes no provider name of the stage before
   * it raises `NoConsumerForPrecedents`.
   */
  lemma BuildLinkFails(doc: Document, reg: Registry, k: nat)
    requires k + 1 < |Ids(doc)|
    requires var pre := Ids(doc)[..k + 1]; Linkable(pre, reg) && CanConsume(KindOf(pre[0], reg), Sentinel)
    ensures Resolve(Ids(doc)[k + 1], reg).Err? ==> Build(doc, reg) == Err(Resolve(Ids(doc)[k + 1], reg).error)
    ensures var pre := Ids(doc)[..k + 1];
      Resolve(Ids(doc)[k + 1], reg).Ok? && FirstLink(ProviderKeys(KindOf(pre[k], reg)), KindOf(Ids(doc)[k + 1], reg)).None? ==>
        Build(doc, reg) == Err(NoConsumerForPrecedents(Ids(doc)[k + 1]))
  {
    var r := BuildAfterPrefix(doc, reg, k);
    var rest := Ids(doc)[k + 1..];
    assert rest[0] == Ids(doc)[k + 1];
    ChainNextFails(r, rest, reg, doc);
  }

  /**
   * Linkable identifiers whose first class consumes the sentinel but whose
   * last class does not provide it fail at the last check of
   * `Pipeline.configure`.
   */
  lemma BuildFinalFails(doc: Document, reg: Registry)
    requires Ids(doc) != [] && Linkable(Ids(doc), reg) && CanConsume(KindOf(Ids(doc)[0], reg), Sentinel)
    requires Sentinel !in ProviderKeys(KindOf(Ids(doc)[|Ids(doc)| - 1], reg))
    ensures Build(doc, reg) == Err(FinalNotSink)
  {
    var b, r := StartLinked(Ids(doc), reg, doc);
    BuildIsFinish(doc, reg, b, r);
  }
}
