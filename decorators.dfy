/**
 * The decorators that declare a stage's capabilities: `consumes` and
 * `provides` tag a function object, and `pipelineStage` scans a class body
 * and files every tagged function into the class's `Consumers` or
 * `Providers` table.
 */
module Decorators {
  import opened Wrappers
  import opened Capabilities

  /** `consumes(consumerType)(func)`: tags `func` as the consumer of a capability and returns it. */
  method Consumes(consumerType: string, func: Handler) returns (r: Handler)
    modifies func
    ensures r == func
    ensures func.consumerOf == Some(consumerType) && func.providerOf == old(func.providerOf)
  {
    func.consumerOf := Some(consumerType);
    r := func;
  }

  /** `provides(providerType)(func)`: tags `func` as the provider of a capability and returns it. */
  method Provides(providerType: string, func: Handler) returns (r: Handler)
    modifies func
    ensures r == func
    ensures func.providerOf == Some(providerType) && func.consumerOf == old(func.consumerOf)
  {
    func.providerOf := Some(providerType);
    r := func;
  }

  /**
   * A class object.  `members` is its `__dict__`: each attribute name with
   * the object bound to it, in definition order; `consumers` and `providers` are its `Consumers` and
   * `Providers` attributes, `None` while it has none.
   */
  class StageClass {
    const name: string
    const isStage: bool
    const members: Table<Handler>
    var consumers: Option<Table<Handler>>
    var providers: Option<Table<Handler>>

    constructor (name: string, isStage: bool, members: Table<Handler>,
                 consumers: Option<Table<Handler>>, providers: Option<Table<Handler>>)
      ensures this.name == name && this.isStage == isStage && this.members == members
      ensures this.consumers == consumers && this.providers == providers
    {
      this.name := name;
      this.isStage := isStage;
      this.members := members;
      this.consumers := consumers;
      this.providers := providers;
    }

    /** The class as the pipeline loader finds it. */
    function Type(): StageType
      reads this
    {
      StageType(name, isStage, consumers, providers)
    }
  }

  /** The two tables a tag can go into. */
  datatype Direction = Consumer | Provider

  /** One class member as `pipelineStage` reads it: the function object, the attribute name it is bound under and its two tags. */
  datatype Tag = Tag(handler: Handler, member: string, consumerOf: Option<string>, providerOf: Option<string>)
  {
    function Of(d: Direction): Option<string>
    {
      if d == Consumer then consumerOf else providerOf
    }
  }

  /** The members as the scan reads them: each attribute name with the tags of the object bound to it. */
  function TagsOf(members: Table<Handler>): seq<Tag>
    reads set m | m in members :: m.1
  {
    seq(|members|, i requires 0 <= i < |members| reads set m | m in members :: m.1 =>
      Tag(members[i].1, members[i].0, members[i].1.consumerOf, members[i].1.providerOf))
  }

  /** The (capability, handler) registrations that the tags of one direction ask for, in definition order. */
  function Entries(tags: seq<Tag>, d: Direction): seq<(string, Handler)>
    decreases |tags|
  {
    if tags == [] then []
    else
      var g := tags[|tags| - 1];
      var pre := Entries(tags[..|tags| - 1], d);
      if g.Of(d).Some? then pre + [(g.Of(d).value, g.handler)] else pre
  }

  /** The table an attribute starts from: the existing one, or a fresh `dict()`. */
  function Existing(t: Option<Table<Handler>>): Table<Handler>
  {
    if t.Some? then t.value else []
  }

  /** The table of one direction after all registrations of `tags`. */
  function Registered(t0: Table<Handler>, tags: seq<Tag>, d: Direction): Table<Handler>
  {
    PutAll(t0, Entries(tags, d))
  }

  /** A `logging.warning` for a capability name that is already in the table. */
  datatype Warning = AlreadyConsumer(cls: string, member: string) | AlreadyProvider(cls: string, member: string)

  /** What the scan has built so far: the two tables and the warnings logged. */
  datatype ScanState = ScanState(consumers: Table<Handler>, providers: Table<Handler>, log: seq<Warning>)

  /**
   * The scan of one member: if it is tagged as a consumer, warn when its
   * capability is already a key, then store it; the same for a provider tag.
   */
  function Step(cls: string, s: ScanState, g: Tag): ScanState
  {
    var w1 := if g.consumerOf.Some? && g.consumerOf.value in Keys(s.consumers)
              then [AlreadyConsumer(cls, g.member)] else [];
    var w2 := if g.providerOf.Some? && g.providerOf.value in Keys(s.providers)
              then [AlreadyProvider(cls, g.member)] else [];
    ScanState(
      if g.consumerOf.Some? then Put(s.consumers, g.consumerOf.value, g.handler) else s.consumers,
      if g.providerOf.Some? then Put(s.providers, g.providerOf.value, g.handler) else s.providers,
      s.log + w1 + w2)
  }

  /** The scan of the members in definition order. */
  function Scan(cls: string, s0: ScanState, tags: seq<Tag>): ScanState
    decreases |tags|
  {
    if tags == [] then s0 else Step(cls, Scan(cls, s0, tags[..|tags| - 1]), tags[|tags| - 1])
  }

  /**
   * `@pipelineStage`: gives the class empty tables where it has none, then
   * files each tagged member under its capability name, a later member
   * overwriting an earlier one with a warning.
   */
  method PipelineStage(c: StageClass) returns (r: StageClass, log: seq<Warning>)
    modifies c
    ensures r == c
    ensures c.consumers == Some(Registered(Existing(old(c.consumers)), old(TagsOf(c.members)), Consumer))
    ensures c.providers == Some(Registered(Existing(old(c.providers)), old(TagsOf(c.members)), Provider))
    ensures log == Scan(c.name, ScanState(Existing(old(c.consumers)), Existing(old(c.providers)), []), old(TagsOf(c.members))).log
  {
    var tags := TagsOf(c.members);
    if c.consumers.None? {
      c.consumers := Some([]);
    }
    if c.providers.None? {
      c.providers := Some([]);
    }
    ghost var s0 := ScanState(c.consumers.value, c.providers.value, []);
    log := [];
    var i := 0;
    while i < |tags|
      invariant 0 <= i <= |tags|
      invariant c.consumers.Some? && c.providers.Some?
      invariant ScanState(c.consumers.value, c.providers.value, log) == Scan(c.name, s0, tags[..i])
    {
      ghost var before := ScanState(c.consumers.value, c.providers.value, log);
      ScanSnoc(c.name, s0, tags, i);
      var logged := Register(c, tags[i]);
      StepLog(c.name, before, tags[i]);
      log := log + logged;
      assert ScanState(c.consumers.value, c.providers.value, log) == Step(c.name, before, tags[i]);
      i := i + 1;
    }
    assert tags[..i] == tags;
    ScanTables(c.name, s0, tags);
    r := c;
  }

  /** The body of the scan for one member. */
  method Register(c: StageClass, g: Tag) returns (logged: seq<Warning>)
    requires c.consumers.Some? && c.providers.Some?
    modifies c
    ensures c.consumers.Some? && c.providers.Some?
    ensures ScanState(c.consumers.value, c.providers.value, logged) ==
            Step(c.name, ScanState(old(c.consumers.value), old(c.providers.value), []), g)
  {
    logged := [];
    if g.consumerOf.Some? {
      if g.consumerOf.value in Keys(c.consumers.value) {
        logged := logged + [AlreadyConsumer(c.name, g.member)];
      }
      c.consumers := Some(Put(c.consumers.value, g.consumerOf.value, g.handler));
    }
    if g.providerOf.Some? {
      if g.providerOf.value in Keys(c.providers.value) {
        logged := logged + [AlreadyProvider(c.name, g.member)];
      }
      c.providers := Some(Put(c.providers.value, g.providerOf.value, g.handler));
    }
  }

  /** Scanning one more member is one more step. */
  lemma ScanSnoc(cls: string, s0: ScanState, tags: seq<Tag>, i: nat)
    requires i < |tags|
    ensures Scan(cls, s0, tags[..i + 1]) == Step(cls, Scan(cls, s0, tags[..i]), tags[i])
  {
    assert tags[..i + 1][..i] == tags[..i];
  }

  /** A step appends its warnings to those already logged and does not depend on them otherwise. */
  lemma StepLog(cls: string, s: ScanState, g: Tag)
    ensures Step(cls, s, g) ==
      var t := Step(cls, s.(log := []), g);
      ScanState(t.consumers, t.providers, s.log + t.log)
  {
    var t := Step(cls, s.(log := []), g);
    assert s.log + t.log == s.log + ([] + t.log);
  }

  /** The tables the scan builds are the registrations of each direction applied in order. */
  lemma {:induction false} ScanTables(cls: string, s0: ScanState, tags: seq<Tag>)
    ensures Scan(cls, s0, tags).consumers == Registered(s0.consumers, tags, Consumer)
    ensures Scan(cls, s0, tags).providers == Registered(s0.providers, tags, Provider)
    decreases |tags|
  {
    if tags != [] {
      ScanTables(cls, s0, tags[..|tags| - 1]);
    }
  }

  /** The warning the scan logs for a member whose capability of direction `d` is already a key. */
  function WarningFor(d: Direction, cls: string, member: string): Warning
  {
    if d == Consumer then AlreadyConsumer(cls, member) else AlreadyProvider(cls, member)
  }

  /** The table of direction `d` in a scan state. */
  function TableOf(s: ScanState, d: Direction): Table<Handler>
  {
    if d == Consumer then s.consumers else s.providers
  }

  /**
   * Member `i` carries a tag of direction `d` whose capability is already a
   * key when the scan reaches it: the table held it before decoration, or
   * an earlier member carries the same tag.
   */
  ghost predicate Repeats(t0: Table<Handler>, tags: seq<Tag>, d: Direction, i: nat)
    requires i < |tags|
  {
    tags[i].Of(d).Some? &&
    (tags[i].Of(d).value in Keys(t0) || exists j :: 0 <= j < i && tags[j].Of(d) == tags[i].Of(d))
  }

  /** One step logs the warning for `m` exactly when member `m` is tagged with a capability already in the table. */
  lemma StepWarned(cls: string, s: ScanState, g: Tag, d: Direction, m: string)
    ensures WarningFor(d, cls, m) in Step(cls, s, g).log <==>
      WarningFor(d, cls, m) in s.log || (g.member == m && g.Of(d).Some? && g.Of(d).value in Keys(TableOf(s, d)))
  {
  }

  /**
   * `pipelineStage` logs that class `cls` "has already defined" member `m`
   * in direction `d` exactly when some member bound under the name `m`
   * repeats a capability of that direction.
   */
  lemma {:induction false} WarnedIff(cls: string, s0: ScanState, tags: seq<Tag>, d: Direction, m: string)
    ensures WarningFor(d, cls, m) in Scan(cls, s0, tags).log <==>
      WarningFor(d, cls, m) in s0.log ||
      exists i :: 0 <= i < |tags| && tags[i].member == m && Repeats(TableOf(s0, d), tags, d, i)
    decreases |tags|
  {
    if tags != [] {
      var n := |tags| - 1;
      var pre := tags[..n];
      var g := tags[n];
      var t0 := TableOf(s0, d);
      var s := Scan(cls, s0, pre);
      assert Scan(cls, s0, tags) == Step(cls, s, g);
      WarnedIff(cls, s0, pre, d, m);
      StepWarned(cls, s, g, d, m);
      RepeatsPrefix(t0, tags, d, n);
      var here := g.member == m && g.Of(d).Some? && g.Of(d).value in Keys(TableOf(s, d));
      assert here <==> g.member == m && Repeats(t0, tags, d, n) by {
        if g.Of(d).Some? {
          ScanTables(cls, s0, pre);
          assert TableOf(s, d) == Registered(t0, pre, d);
          RepeatsLast(t0, tags, d);
        }
      }
    }
  }

  /** Whether a member repeats a capability does not depend on the members after it. */
  lemma RepeatsPrefix(t0: Table<Handler>, tags: seq<Tag>, d: Direction, n: nat)
    requires n <= |tags|
    ensures forall i :: 0 <= i < n ==> (Repeats(t0, tags[..n], d, i) <==> Repeats(t0, tags, d, i))
  {
    forall i | 0 <= i < n
      ensures Repeats(t0, tags[..n], d, i) <==> Repeats(t0, tags, d, i)
    {
      assert forall j :: 0 <= j <= i ==> tags[..n][j] == tags[j];
    }
  }

  /** The last member repeats its capability exactly when the members before it left that capability in the table. */
  lemma RepeatsLast(t0: Table<Handler>, tags: seq<Tag>, d: Direction)
    requires tags != [] && tags[|tags| - 1].Of(d).Some?
    ensures var n := |tags| - 1;
      tags[n].Of(d).value in Keys(Registered(t0, tags[..n], d)) <==> Repeats(t0, tags, d, n)
  {
    var n := |tags| - 1;
    var pre := tags[..n];
    var k := tags[n].Of(d).value;
    RegisteredIff(t0, pre, d, k);
    if exists j :: 0 <= j < |pre| && pre[j].Of(d) == Some(k) {
      var j :| 0 <= j < |pre| && pre[j].Of(d) == Some(k);
      assert tags[j].Of(d) == tags[n].Of(d);
    }
    if exists j :: 0 <= j < n && tags[j].Of(d) == tags[n].Of(d) {
      var j :| 0 <= j < n && tags[j].Of(d) == tags[n].Of(d);
      assert pre[j].Of(d) == Some(k);
    }
  }

  /** The capability names registered by `tags`, in definition order, are exactly the tagged ones. */
  lemma {:induction false} EntriesKeys(tags: seq<Tag>, d: Direction, k: string)
    ensures k in Keys(Entries(tags, d)) <==> exists i :: 0 <= i < |tags| && tags[i].Of(d) == Some(k)
    decreases |tags|
  {
    if tags != [] {
      var pre := tags[..|tags| - 1];
      EntriesKeys(pre, d, k);
      var e := Entries(pre, d);
      var g := tags[|tags| - 1];
      if g.Of(d).Some? {
        assert Keys(e + [(g.Of(d).value, g.handler)]) == Keys(e) + [g.Of(d).value];
      }
      if exists i :: 0 <= i < |tags| && tags[i].Of(d) == Some(k) {
        var i :| 0 <= i < |tags| && tags[i].Of(d) == Some(k);
        if i < |pre| {
          assert pre[i].Of(d) == Some(k);
        }
      }
    }
  }

  /**
   * After decoration a table holds capability `k` exactly when the table
   * already held it or some member of the class is tagged with it.
   */
  lemma RegisteredIff(t0: Table<Handler>, tags: seq<Tag>, d: Direction, k: string)
    ensures k in Keys(Registered(t0, tags, d)) <==>
            k in Keys(t0) || exists i :: 0 <= i < |tags| && tags[i].Of(d) == Some(k)
  {
    PutAllHas(t0, Entries(tags, d), k);
    EntriesKeys(tags, d, k);
  }

  /** The last registration of `k` among the tags is the last tag of `k` in definition order. */
  lemma {:induction false} EntriesLast(tags: seq<Tag>, d: Direction, j: nat, k: string)
    requires j < |tags| && tags[j].Of(d) == Some(k)
    requires forall j' :: j < j' < |tags| ==> tags[j'].Of(d) != Some(k)
    ensures LastWith(Entries(tags, d), k) == Some(tags[j].handler)
    decreases |tags|
  {
    var pre := tags[..|tags| - 1];
    var e := Entries(pre, d);
    var g := tags[|tags| - 1];
    if j < |tags| - 1 {
      EntriesLast(pre, d, j, k);
      if g.Of(d).Some? {
        assert (e + [(g.Of(d).value, g.handler)])[..|e|] == e;
      }
    }
  }

  /**
   * On a duplicate capability name the later member wins: the table maps
   * `k` to the last member tagged with it.
   */
  lemma LaterMemberWins(t0: Table<Handler>, tags: seq<Tag>, d: Direction, j: nat, k: string)
    requires j < |tags| && tags[j].Of(d) == Some(k)
    requires forall j' :: j < j' < |tags| ==> tags[j'].Of(d) != Some(k)
    ensures Get(Registered(t0, tags, d), k) == Some(tags[j].handler)
  {
    EntriesLast(tags, d, j, k);
    PutAllGet(t0, Entries(tags, d), k);
  }

  /** A capability no member is tagged with keeps its old entry, whatever it was. */
  lemma UntouchedKeepsEntry(t0: Table<Handler>, tags: seq<Tag>, d: Direction, k: string)
    requires forall j :: 0 <= j < |tags| ==> tags[j].Of(d) != Some(k)
    ensures Get(Registered(t0, tags, d), k) == Get(t0, k)
  {
    var e := Entries(tags, d);
    EntriesKeys(tags, d, k);
    forall j | 0 <= j < |e|
      ensures e[j].0 != k
    {
      assert Keys(e)[j] == e[j].0;
    }
    PutAllGet(t0, e, k);
  }

  /**
   * The iteration order of a decorated table: the keys it had, then each
   * new capability name at the place of its first registration.
   */
  lemma TableOrder(t0: Table<Handler>, tags: seq<Tag>, d: Direction)
    ensures Keys(Registered(t0, tags, d)) == Keys(t0) + FirstSeen(Keys(t0), Keys(Entries(tags, d)))
  {
    PutAllKeys(t0, Entries(tags, d));
  }

  /** A class with no tagged members keeps the tables it had; one with none gets empty tables. */
  lemma {:induction false} NoTagsNoEntries(t0: Table<Handler>, tags: seq<Tag>, d: Direction)
    requires forall i :: 0 <= i < |tags| ==> tags[i].Of(d).None?
    ensures Entries(tags, d) == []
    ensures Registered(t0, tags, d) == t0
    decreases |tags|
  {
    if tags != [] {
      NoTagsNoEntries(t0, tags[..|tags| - 1], d);
    }
  }

  /** A member tagged both ways is filed in both tables: the two checks are independent. */
  lemma BothRoles(c0: Table<Handler>, p0: Table<Handler>, tags: seq<Tag>, i: nat)
    requires i < |tags| && tags[i].consumerOf.Some? && tags[i].providerOf.Some?
    ensures tags[i].consumerOf.value in Keys(Registered(c0, tags, Consumer))
    ensures tags[i].providerOf.value in Keys(Registered(p0, tags, Provider))
  {
    RegisteredIff(c0, tags, Consumer, tags[i].consumerOf.value);
    RegisteredIff(p0, tags, Provider, tags[i].providerOf.value);
  }
}
