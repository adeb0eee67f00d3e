/**
 * The capability tables of a stage class.
 *
 * A stage class keeps two Python dictionaries, `Consumers` and `Providers`,
 * from capability name to handler function.  A dictionary is modelled as the
 * sequence of its (key, value) pairs in iteration order, which for Python is
 * the order in which each key was first inserted; `Put` is `d[k] = v`.
 */
module Capabilities {
  import opened Wrappers

  /**
   * A function object defined in a class body.  `consumes` and `provides`
   * set its `consumerOf` / `providerOf` attribute; `None` means the
   * attribute is absent (`hasattr` is false).  `name` is its `__name__`,
   * which need not be the attribute name the class binds it under.
   */
  class Handler {
    const name: string
    var consumerOf: Option<string>
    var providerOf: Option<string>

    constructor (name: string)
      ensures this.name == name && consumerOf == None && providerOf == None
    {
      this.name := name;
      consumerOf := None;
      providerOf := None;
    }
  }

  /** A dictionary with string keys, as its items in iteration order. */
  type Table<V> = seq<(string, V)>

  /** The keys in iteration order: what `for k in d` visits. */
  function Keys<V>(t: Table<V>): seq<string>
  {
    seq(|t|, i requires 0 <= i < |t| => t[i].0)
  }

  ghost predicate Distinct(ks: seq<string>)
  {
    forall i, j :: 0 <= i < j < |ks| ==> ks[i] != ks[j]
  }

  /** `d.get(k)`: the value stored under the first occurrence of `k`. */
  function Get<V>(t: Table<V>, k: string): (r: Option<V>)
    ensures r.None? <==> k !in Keys(t)
  {
    if t == [] then None
    else if t[0].0 == k then
      assert Keys(t)[0] == k;
      Some(t[0].1)
    else
      var r := Get(t[1..], k);
      assert Keys(t) == [t[0].0] + Keys(t[1..]);
      r
  }

  /** A key that is present is found at its first occurrence. */
  lemma {:induction false} GetFirst<V>(t: Table<V>, k: string)
    requires k in Keys(t)
    ensures exists i :: 0 <= i < |t| && t[i] == (k, Get(t, k).value) &&
                        forall j :: 0 <= j < i ==> t[j].0 != k
  {
    assert Keys(t) == [t[0].0] + Keys(t[1..]);
    if t[0].0 != k {
      GetFirst(t[1..], k);
      var i :| 0 <= i < |t[1..]| && t[1..][i] == (k, Get(t[1..], k).value) &&
               forall j :: 0 <= j < i ==> t[1..][j].0 != k;
      assert t[i + 1] == (k, Get(t, k).value);
    }
  }

  /** In a table with no key twice, looking up the key of an item finds that item's value. */
  lemma {:induction false} GetDistinct<V>(t: Table<V>, i: nat)
    requires i < |t| && Distinct(Keys(t))
    ensures Get(t, t[i].0) == Some(t[i].1)
  {
    if i > 0 {
      assert Keys(t)[0] != Keys(t)[i];
      assert Keys(t[1..]) == Keys(t)[1..];
      GetDistinct(t[1..], i - 1);
    }
  }

  /** The keys of a table with one more item in front. */
  lemma KeysCons<V>(x: (string, V), t: Table<V>)
    ensures Keys([x] + t) == [x.0] + Keys(t)
  {
  }

  /**
   * `d[k] = v`: an existing key keeps its position and gets the new value;
   * a new key is appended at the end.
   */
  function Put<V>(t: Table<V>, k: string, v: V): (r: Table<V>)
    ensures Keys(r) == if k in Keys(t) then Keys(t) else Keys(t) + [k]
  {
    if t == [] then [(k, v)]
    else
      assert t == [t[0]] + t[1..];
      KeysCons(t[0], t[1..]);
      if t[0].0 == k then
        KeysCons((k, v), t[1..]);
        [(k, v)] + t[1..]
      else
        var rest := Put(t[1..], k, v);
        KeysCons(t[0], rest);
        [t[0]] + rest
  }

  /** After `d[k] = v`, `d[k]` is `v` and every other key reads as before. */
  lemma {:induction false} PutGet<V>(t: Table<V>, k: string, v: V, k': string)
    ensures Get(Put(t, k, v), k') == if k' == k then Some(v) else Get(t, k')
  {
    if t != [] && t[0].0 != k {
      PutGet(t[1..], k, v, k');
      assert ([t[0]] + Put(t[1..], k, v))[1..] == Put(t[1..], k, v);
    }
  }

  /** Successive `d[k] = v` for the items of `kvs`, first to last. */
  function PutAll<V>(t: Table<V>, kvs: seq<(string, V)>): Table<V>
    decreases |kvs|
  {
    if kvs == [] then t
    else Put(PutAll(t, kvs[..|kvs| - 1]), kvs[|kvs| - 1].0, kvs[|kvs| - 1].1)
  }

  /**
   * The keys of `ks` that are not in `seen`, each once, in the order of
   * their first occurrence in `ks`.
   */
  function FirstSeen(seen: seq<string>, ks: seq<string>): (r: seq<string>)
    ensures forall x :: x in r <==> x in ks && x !in seen
    decreases |ks|
  {
    if ks == [] then []
    else
      var f := FirstSeen(seen, ks[..|ks| - 1]);
      var x := ks[|ks| - 1];
      assert forall y :: y in ks <==> y in ks[..|ks| - 1] || y == x;
      if x in seen || x in f then f else f + [x]
  }

  /**
   * The value stored with the LAST occurrence of key `k` in `kvs`: the one
   * a run of assignments leaves behind.
   */
  function LastWith<V>(kvs: seq<(string, V)>, k: string): (r: Option<V>)
    ensures r.None? <==> forall j :: 0 <= j < |kvs| ==> kvs[j].0 != k
    ensures r.Some? ==> exists j :: 0 <= j < |kvs| && kvs[j] == (k, r.value) &&
                                    forall j' :: j < j' < |kvs| ==> kvs[j'].0 != k
    decreases |kvs|
  {
    if kvs == [] then None
    else if kvs[|kvs| - 1].0 == k then Some(kvs[|kvs| - 1].1)
    else
      var pre := kvs[..|kvs| - 1];
      var r := LastWith(pre, k);
      if r.Some? then
        ghost var j :| 0 <= j < |pre| && pre[j] == (k, r.value) &&
                       forall j' :: j < j' < |pre| ==> pre[j'].0 != k;
        assert kvs[j] == (k, r.value);
        r
      else r
  }

  /** A run of assignments keeps every key's position and appends the new keys in first-seen order. */
  lemma {:induction false} PutAllKeys<V>(t: Table<V>, kvs: seq<(string, V)>)
    ensures Keys(PutAll(t, kvs)) == Keys(t) + FirstSeen(Keys(t), Keys(kvs))
    decreases |kvs|
  {
    if kvs != [] {
      var pre := kvs[..|kvs| - 1];
      var (k, v) := kvs[|kvs| - 1];
      PutAllKeys(t, pre);
      assert Keys(pre) == Keys(kvs)[..|kvs| - 1];
      assert Keys(kvs)[|kvs| - 1] == k;
      var f := FirstSeen(Keys(t), Keys(pre));
      assert FirstSeen(Keys(t), Keys(kvs)) == if k in Keys(t) || k in f then f else f + [k];
      assert k in Keys(PutAll(t, pre)) <==> k in Keys(t) || k in f;
      if k !in Keys(t) && k !in f {
        assert Keys(t) + f + [k] == Keys(t) + (f + [k]);
      }
    }
  }

  /** The table after a run of assignments has no key twice when the table before had none. */
  lemma {:induction false} PutAllDistinct<V>(t: Table<V>, kvs: seq<(string, V)>)
    requires Distinct(Keys(t))
    ensures Distinct(Keys(PutAll(t, kvs)))
    decreases |kvs|
  {
    if kvs != [] {
      PutAllDistinct(t, kvs[..|kvs| - 1]);
    }
  }

  /** Key membership after a run of assignments: present before, or assigned by the run. */
  lemma PutAllHas<V>(t: Table<V>, kvs: seq<(string, V)>, k: string)
    ensures k in Keys(PutAll(t, kvs)) <==> k in Keys(t) || k in Keys(kvs)
  {
    PutAllKeys(t, kvs);
  }

  /** The value under `k` after a run of assignments is the last one assigned to `k`, else the old one. */
  lemma {:induction false} PutAllGet<V>(t: Table<V>, kvs: seq<(string, V)>, k: string)
    ensures Get(PutAll(t, kvs), k) == if LastWith(kvs, k).Some? then LastWith(kvs, k) else Get(t, k)
    decreases |kvs|
  {
    if kvs != [] {
      var pre := kvs[..|kvs| - 1];
      PutAllGet(t, pre, k);
      PutGet(PutAll(t, pre), kvs[|kvs| - 1].0, kvs[|kvs| - 1].1, k);
    }
  }

  /** Once a key is in the table, later assignments never move it: the earlier key order is a prefix. */
  lemma {:induction false} PutAllKeepsPositions<V>(t: Table<V>, kvs: seq<(string, V)>, m: nat)
    requires m <= |kvs|
    ensures Keys(PutAll(t, kvs[..m])) <= Keys(PutAll(t, kvs))
    decreases |kvs|
  {
    if m < |kvs| {
      var pre := kvs[..|kvs| - 1];
      assert pre[..m] == kvs[..m];
      PutAllKeepsPositions(t, pre, m);
    } else {
      assert kvs[..m] == kvs;
    }
  }

  /**
   * A stage class as the pipeline sees it after decoration: its name,
   * whether it derives from `Stage`, and its `Consumers` and `Providers`
   * tables (`None` when the class has no such attribute).
   */
  datatype StageType = StageType(
    name: string,
    isStage: bool,
    consumers: Option<Table<Handler>>,
    providers: Option<Table<Handler>>)
}
