/**
 * Properties of `setNames`: how a dotted stage identifier splits into its
 * module, script, class and configuration key.
 */
module NameProperties {
  import opened Wrappers
  import opened Pipelines

  /** An identifier has no dot exactly when it has no dots to count. */
  lemma {:induction false} NoDots(s: string)
    ensures Dots(s) == 0 <==> '.' !in s
  {
    if s != [] {
      NoDots(s[1..]);
      assert s == [s[0]] + s[1..];
    }
  }

  /** `'.'.join` of a list with a first element. */
  lemma JoinCons(x: string, r: seq<string>)
    ensures Join([x] + r) == if r == [] then x else x + "." + Join(r)
  {
    if r != [] {
      assert ([x] + r)[1..] == r;
    }
  }

  /** Joining two non-empty lists is joining each and putting a dot between. */
  lemma {:induction false} JoinAppend(a: seq<string>, b: seq<string>)
    requires |a| > 0 && |b| > 0
    ensures Join(a + b) == Join(a) + "." + Join(b)
    decreases |a|
  {
    if |a| == 1 {
      JoinCons(a[0], b);
      assert a + b == [a[0]] + b;
    } else {
      JoinAppend(a[1..], b);
      assert a + b == [a[0]] + (a[1..] + b);
      JoinCons(a[0], a[1..] + b);
    }
  }

  /** Splitting a dot-free prefix followed by `s`: the prefix joins the first segment of `s`. */
  lemma {:induction false} SplitPrefix(a: string, s: string)
    requires '.' !in a
    ensures Split(a + s) == [a + Split(s)[0]] + Split(s)[1..]
    decreases |a|
  {
    if a != [] {
      SplitPrefix(a[1..], s);
      assert (a + s)[1..] == a[1..] + s;
      assert (a + s)[0] == a[0];
      assert [a[0]] + (a[1..] + Split(s)[0]) == a + Split(s)[0];
    } else {
      SplitSegments(s);
      assert a + s == s;
      assert a + Split(s)[0] == Split(s)[0];
      assert Split(s) == [Split(s)[0]] + Split(s)[1..];
    }
  }

  /** `split` undoes `join` on segments that contain no dot. */
  lemma {:induction false} SplitJoin(segs: seq<string>)
    requires |segs| > 0 && forall i :: 0 <= i < |segs| ==> '.' !in segs[i]
    ensures Split(Join(segs)) == segs
    decreases |segs|
  {
    if |segs| == 1 {
      SplitPrefix(segs[0], "");
      assert segs[0] + "" == segs[0];
    } else {
      var rest := segs[1..];
      SplitJoin(rest);
      JoinCons(segs[0], rest);
      assert Join(segs) == segs[0] + ("." + Join(rest));
      SplitPrefix(segs[0], "." + Join(rest));
      assert ("." + Join(rest))[1..] == Join(rest);
      assert segs[0] + "" == segs[0];
    }
  }

  /** `join` undoes `split`: the segments put back together are the identifier. */
  lemma {:induction false} JoinSplit(s: string)
    ensures Join(Split(s)) == s
  {
    if s != [] {
      JoinSplit(s[1..]);
      var rest := Split(s[1..]);
      SplitSegments(s[1..]);
      if s[0] == '.' {
        JoinCons("", rest);
        assert s == "." + s[1..];
      } else {
        JoinCons([s[0]] + rest[0], rest[1..]);
        JoinCons(rest[0], rest[1..]);
        assert rest == [rest[0]] + rest[1..];
        assert s == [s[0]] + s[1..];
      }
    }
  }

  /**
   * `setNames` raises exactly on an identifier without a dot, since
   * `split('.')[-2]` needs two segments.
   */
  lemma NamesOfFails(id: string)
    ensures NamesOf(id).Err? <==> '.' !in id
    ensures NamesOf(id).Err? ==> NamesOf(id).error == MalformedIdentifier(id)
  {
    SplitSegments(id);
    NoDots(id);
  }

  /**
   * On success, class and script are the last two segments (no dot in
   * either), and module, script and class put back together with dots give
   * the identifier again; the module is empty when the identifier has one dot.
   */
  lemma NamesOfParts(id: string)
    requires NamesOf(id).Ok?
    ensures var n := NamesOf(id).value;
      '.' !in n.script && '.' !in n.className &&
      (if Dots(id) == 1 then n.moduleName == "" && n.script + "." + n.className == id
       else n.moduleName + "." + n.script + "." + n.className == id)
  {
    var segs := Split(id);
    SplitSegments(id);
    JoinSplit(id);
    var k := |segs|;
    assert segs == segs[..k - 2] + [segs[k - 2], segs[k - 1]];
    if k == 2 {
      JoinCons(segs[0], [segs[1]]);
    } else {
      JoinAppend(segs[..k - 2], [segs[k - 2], segs[k - 1]]);
      JoinCons(segs[k - 2], [segs[k - 1]]);
    }
  }

  /**
   * The configuration key is the identifier itself when it has at least two
   * dots, and the identifier with a leading dot when it has exactly one
   * (the module part is then empty).
   */
  lemma ConfigKey(id: string)
    requires NamesOf(id).Ok?
    ensures Dots(id) >= 2 ==> NamesOf(id).value.configName == id
    ensures Dots(id) == 1 ==> NamesOf(id).value.configName == "." + id
  {
    var n := NamesOf(id).value;
    NamesOfParts(id);
    JoinCons(n.moduleName, [n.script, n.className]);
    JoinCons(n.script, [n.className]);
  }

  /** Joining dot-free segments and deriving the names gives back the segments' parts. */
  lemma NamesOfJoin(segs: seq<string>)
    requires |segs| >= 2 && forall i :: 0 <= i < |segs| ==> '.' !in segs[i]
    ensures NamesOf(Join(segs)) ==
      Ok(Names(Join(segs[..|segs| - 2]), segs[|segs| - 2], segs[|segs| - 1],
               Join([Join(segs[..|segs| - 2]), segs[|segs| - 2], segs[|segs| - 1]])))
  {
    SplitJoin(segs);
  }
}
