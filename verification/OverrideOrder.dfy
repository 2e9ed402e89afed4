/** When the order of environment overrides matters: exactly when some of them are incompatible, unless one
    of them fails in every order. */
module OverrideOrder {
  import opened Prelude
  import opened Configuration

  // ---------- What a set does to the way to other keys ----------

  /** Whatever is on the way to the last part of the path is a dict: the path can be set. */
  ghost predicate Clear(t: Json, path: seq<string>) {
    forall i :: 0 <= i < |path| && At(t, path[..i]).Some? ==> At(t, path[..i]).value.Obj?
  }

  lemma ClearMeansOk(t: Json, path: seq<string>, value: Json)
    requires path != []
    ensures Put(t, path, value).Ok? <==> Clear(t, path)
    ensures Put(t, path, value).Err? ==> Put(t, path, value) == Err(TYPE_ERROR)
  {
    PutFails(t, path, value);
  }

  lemma EmptyIsClear(path: seq<string>)
    ensures Clear(Obj(map[]), path)
  {
    EmptyHasNothing(path);
  }

  /** What is at a path after a set: a dict above the set key, the value or its parts from there down, and
      what was there before everywhere else. */
  lemma {:induction false} AtAfterPut(t: Json, p: seq<string>, v: Json, r: seq<string>)
    requires p != [] && Put(t, p, v).Ok?
    ensures var t' := Put(t, p, v).value;
            && (r < p ==> At(t', r).Some? && At(t', r).value.Obj?)
            && (p <= r ==> At(t', r) == At(v, r[|p|..]))
            && (!(r <= p) && !(p <= r) ==> At(t', r) == At(t, r))
    decreases |p|
  {
    if r != [] && r[0] == p[0] {
      assert p == [p[0]] + p[1..] && r == [r[0]] + r[1..];
      assert r <= p <==> r[1..] <= p[1..];
      assert p <= r <==> p[1..] <= r[1..];
      if |p| > 1 {
        AtAfterPut(ChildOf(t, p[0]), p[1..], v, r[1..]);
        NothingBelowEmpty(r[1..]);
        assert p <= r ==> r[1..][|p| - 1..] == r[|p|..];
      }
    }
  }

  lemma NothingBelowEmpty(r: seq<string>)
    ensures r != [] ==> At(Obj(map[]), r) == None
  {
  }

  /** A set blocks the way to no key that is not below its own. */
  lemma PutKeepsClear(t: Json, p: seq<string>, v: Json, q: seq<string>)
    requires p != [] && Put(t, p, v).Ok? && Clear(t, q) && !(p < q)
    ensures Clear(Put(t, p, v).value, q)
  {
    var t' := Put(t, p, v).value;
    forall i | 0 <= i < |q| && At(t', q[..i]).Some?
      ensures At(t', q[..i]).value.Obj?
    {
      AtAfterPut(t, p, v, q[..i]);
      assert p <= q[..i] ==> p <= q && |p| < |q|;
    }
  }

  lemma AboveIsDict(t: Json, p: seq<string>, v: Json, r: seq<string>)
    requires p != [] && Put(t, p, v).Ok? && r < p && At(t, r).Some?
    ensures At(t, r).value.Obj?
  {
    ClearMeansOk(t, p, v);
    assert p[..|r|] == r;
  }

  /** A set to something else than a dict does not clear a way. */
  lemma PutKeepsBlocked(t: Json, p: seq<string>, v: Json, q: seq<string>)
    requires p != [] && Put(t, p, v).Ok? && !v.Obj? && !Clear(t, q)
    ensures !Clear(Put(t, p, v).value, q)
  {
    var t' := Put(t, p, v).value;
    var i :| 0 <= i < |q| && At(t, q[..i]).Some? && !At(t, q[..i]).value.Obj?;
    var r := q[..i];
    if r < p {
      AboveIsDict(t, p, v, r);
    } else if p <= r {
      AtAfterPut(t, p, v, p);
      assert At(v, p[|p|..]) == Some(v);
      assert q[..|p|] == p;
    } else {
      AtAfterPut(t, p, v, r);
    }
  }

  // ---------- Sequences of overrides ----------

  ghost predicate AllClear(t: Json, overrides: seq<Override>) {
    forall o :: o in overrides ==> Clear(t, o.path)
  }

  /** Overrides from an environment are strings, not dicts. */
  predicate Leaves(overrides: seq<Override>) {
    ProperPaths(overrides) && forall o :: o in overrides ==> !o.value.Obj?
  }

  /** No override comes before one below it. */
  ghost predicate Orderly(overrides: seq<Override>) {
    forall i, j :: 0 <= i < j < |overrides| ==> !(overrides[i].path < overrides[j].path)
  }

  lemma {:induction false} OrderlySucceeds(t: Json, overrides: seq<Override>)
    requires ProperPaths(overrides) && AllClear(t, overrides) && Orderly(overrides)
    ensures SetAll(Ok(t), overrides).Ok?
    decreases |overrides|
  {
    if overrides != [] {
      var o, rest := overrides[0], overrides[1..];
      ClearMeansOk(t, o.path, o.value);
      var t' := Put(t, o.path, o.value).value;
      forall x | x in rest
        ensures Clear(t', x.path)
      {
        var j :| 0 <= j < |rest| && rest[j] == x;
        assert overrides[j + 1] == x;
        PutKeepsClear(t, o.path, o.value, x.path);
      }
      assert forall i :: 0 <= i < |rest| ==> rest[i] == overrides[i + 1];
      OrderlySucceeds(t', rest);
    }
  }

  /** An override that cannot be set at the start cannot be set at all. */
  lemma {:induction false} BlockedFails(t: Json, overrides: seq<Override>, o: Override)
    requires Leaves(overrides) && o in overrides && !Clear(t, o.path)
    ensures SetAll(Ok(t), overrides) == Err(TYPE_ERROR)
    decreases |overrides|
  {
    var first, rest := overrides[0], overrides[1..];
    ClearMeansOk(t, first.path, first.value);
    if Clear(t, first.path) {
      assert overrides == [first] + rest && o in rest;
      PutKeepsBlocked(t, first.path, first.value, o.path);
      BlockedFails(Put(t, first.path, first.value).value, rest, o);
    } else {
      ErrorStays(TYPE_ERROR, rest);
    }
  }

  lemma {:induction false} SetAllConcat(r: Result<Json, string>, xs: seq<Override>, ys: seq<Override>)
    requires ProperPaths(xs) && ProperPaths(ys) && ProperPaths(xs + ys)
    ensures SetAll(r, xs + ys) == SetAll(SetAll(r, xs), ys)
    decreases |xs|
  {
    if xs == [] {
      assert xs + ys == ys;
    } else {
      assert (xs + ys)[1..] == xs[1..] + ys && (xs + ys)[0] == xs[0];
      SetAllConcat(Then(r, xs[0].path, xs[0].value), xs[1..], ys);
    }
  }

  // ---------- The order that succeeds ----------

  ghost predicate Descending(overrides: seq<Override>) {
    forall i, j :: 0 <= i < j < |overrides| ==> |overrides[j].path| <= |overrides[i].path|
  }

  function InsertByLength(o: Override, overrides: seq<Override>): (r: seq<Override>)
    ensures multiset(r) == multiset(overrides) + multiset{o}
  {
    if overrides == [] || |overrides[0].path| <= |o.path| then [o] + overrides
    else
      assert overrides == [overrides[0]] + overrides[1..];
      [overrides[0]] + InsertByLength(o, overrides[1..])
  }

  /** Innermost keys first. */
  function LongestFirst(overrides: seq<Override>): (r: seq<Override>)
    ensures multiset(r) == multiset(overrides)
  {
    if overrides == [] then []
    else
      assert overrides == [overrides[0]] + overrides[1..];
      InsertByLength(overrides[0], LongestFirst(overrides[1..]))
  }

  lemma {:induction false} InsertDescending(o: Override, overrides: seq<Override>)
    requires Descending(overrides)
    ensures Descending(InsertByLength(o, overrides))
  {
    if overrides == [] || |overrides[0].path| <= |o.path| {
    } else {
      var rest := overrides[1..];
      assert forall i :: 0 <= i < |rest| ==> rest[i] == overrides[i + 1];
      InsertDescending(o, rest);
      var inserted := InsertByLength(o, rest);
      forall j | 0 <= j < |inserted|
        ensures |inserted[j].path| <= |overrides[0].path|
      {
        assert inserted[j] in multiset(inserted);
        assert inserted[j] == o || inserted[j] in rest;
      }
    }
  }

  lemma {:induction false} LongestFirstDescends(overrides: seq<Override>)
    ensures Descending(LongestFirst(overrides))
  {
    if overrides != [] {
      LongestFirstDescends(overrides[1..]);
      InsertDescending(overrides[0], LongestFirst(overrides[1..]));
    }
  }

  lemma LongestFirstSucceeds(t: Json, overrides: seq<Override>)
    requires ProperPaths(overrides) && AllClear(t, overrides)
    ensures ProperPaths(LongestFirst(overrides)) && SetAll(Ok(t), LongestFirst(overrides)).Ok?
  {
    SameMembers(overrides, LongestFirst(overrides));
    LongestFirstDescends(overrides);
    OrderlySucceeds(t, LongestFirst(overrides));
  }

  // ---------- The orders that tell incompatible overrides apart ----------

  lemma PullOne(xs: seq<Override>, a: Override) returns (rest: seq<Override>)
    requires a in xs
    ensures multiset(rest) + multiset{a} == multiset(xs)
  {
    var i :| 0 <= i < |xs| && xs[i] == a;
    rest := xs[..i] + xs[i + 1..];
    assert xs == xs[..i] + [xs[i]] + xs[i + 1..];
  }

  /** Two different members, moved out of a sequence. */
  lemma PullTwo(xs: seq<Override>, a: Override, b: Override) returns (rest: seq<Override>)
    requires a in xs && b in xs && a != b
    ensures multiset(rest) + multiset{a} + multiset{b} == multiset(xs)
  {
    var ys := PullOne(xs, a);
    assert b in multiset(xs);
    assert b in multiset(ys);
    rest := PullOne(ys, b);
  }

  /** Set before an override below it, a leaf is in the way. */
  lemma OuterFirstFails(t: Json, outer: Override, inner: Override, rest: seq<Override>)
    requires Leaves([outer] + ([inner] + rest)) && outer.path < inner.path
    ensures SetAll(Ok(t), [outer] + ([inner] + rest)) == Err(TYPE_ERROR)
  {
    var all := [outer] + ([inner] + rest);
    assert outer in all && inner in all && all[1..] == [inner] + rest;
    ClearMeansOk(t, outer.path, outer.value);
    if Clear(t, outer.path) {
      var t' := Put(t, outer.path, outer.value).value;
      AtAfterPut(t, outer.path, outer.value, outer.path);
      assert inner.path[..|outer.path|] == outer.path
          && At(outer.value, outer.path[|outer.path|..]) == Some(outer.value);
      assert !Clear(t', inner.path);
      BlockedFails(t', [inner] + rest, inner);
    } else {
      BlockedFails(t, all, outer);
    }
  }

  /** The last of two sets of the same key decides. */
  lemma LastOneStays(t: Json, rest: seq<Override>, a: Override, b: Override)
    requires ProperPaths(rest + [a, b]) && SetAll(Ok(t), rest + [a, b]).Ok?
    ensures At(SetAll(Ok(t), rest + [a, b]).value, b.path) == Some(b.value)
  {
    assert forall o :: o in rest ==> o in rest + [a, b];
    assert a in rest + [a, b] && b in rest + [a, b];
    SetAllConcat(Ok(t), rest, [a, b]);
    SetTwo(SetAll(Ok(t), rest), a, b);
    var r1 := Then(SetAll(Ok(t), rest), a.path, a.value);
    AtAfterPut(r1.value, b.path, b.value, b.path);
    assert b.path[|b.path|..] == [];
  }

  lemma OrderlyWhenFlat(xs: seq<Override>, ys: seq<Override>)
    requires forall a, b :: a in xs && b in xs ==> !(a.path < b.path)
    requires forall o :: o in ys ==> o in xs
    ensures Orderly(ys)
  {
  }

  // ---------- Exactly when the order matters ----------

  /** Whatever order the overrides come in, they give the same tree, or an error. */
  ghost predicate SameInEveryOrder(t: Json, overrides: seq<Override>)
    requires ProperPaths(overrides)
  {
    forall ys | multiset(ys) == multiset(overrides) && ProperPaths(ys) :: SetAll(Ok(t), ys) == SetAll(Ok(t), overrides)
  }

  lemma CompatibleIsSame(t: Json, overrides: seq<Override>)
    requires Compatible(overrides)
    ensures SameInEveryOrder(t, overrides)
  {
    forall ys | multiset(ys) == multiset(overrides) && ProperPaths(ys)
      ensures SetAll(Ok(t), ys) == SetAll(Ok(t), overrides)
    {
      SameMembers(overrides, ys);
      CompatibleSubset(overrides, ys);
      SameSetAll(Ok(t), overrides, ys);
    }
  }

  lemma BlockedIsSame(t: Json, overrides: seq<Override>, o: Override)
    requires Leaves(overrides) && o in overrides && !Clear(t, o.path)
    ensures SameInEveryOrder(t, overrides)
  {
    BlockedFails(t, overrides, o);
    forall ys | multiset(ys) == multiset(overrides) && ProperPaths(ys)
      ensures SetAll(Ok(t), ys) == SetAll(Ok(t), overrides)
    {
      SameMembers(overrides, ys);
      BlockedFails(t, ys, o);
    }
  }

  lemma NestedDiffers(t: Json, overrides: seq<Override>, a: Override, b: Override)
    requires Leaves(overrides) && AllClear(t, overrides)
    requires a in overrides && b in overrides && a.path < b.path
    ensures !SameInEveryOrder(t, overrides)
  {
    LongestFirstSucceeds(t, overrides);
    var ys := OuterFirst(t, overrides, a, b);
    assert SetAll(Ok(t), ys) != SetAll(Ok(t), LongestFirst(overrides));
  }

  lemma OuterFirst(t: Json, overrides: seq<Override>, a: Override, b: Override) returns (ys: seq<Override>)
    requires Leaves(overrides) && a in overrides && b in overrides && a.path < b.path
    ensures multiset(ys) == multiset(overrides) && ProperPaths(ys) && SetAll(Ok(t), ys) == Err(TYPE_ERROR)
  {
    var rest := PullTwo(overrides, a, b);
    ys := [a] + ([b] + rest);
    assert multiset(ys) == multiset{a} + (multiset{b} + multiset(rest));
    SameMembers(overrides, ys);
    OuterFirstFails(t, a, b, rest);
  }

  /** Where no key is below another, every order succeeds, and of two sets of one key the last stays. */
  lemma FlatOrder(t: Json, overrides: seq<Override>, rest: seq<Override>, a: Override, b: Override)
    requires Leaves(overrides) && AllClear(t, overrides)
    requires forall x, y :: x in overrides && y in overrides ==> !(x.path < y.path)
    requires multiset(rest + [a, b]) == multiset(overrides)
    ensures ProperPaths(rest + [a, b])
    ensures var r := SetAll(Ok(t), rest + [a, b]); r.Ok? && At(r.value, b.path) == Some(b.value)
  {
    var ys := rest + [a, b];
    SameMembers(overrides, ys);
    OrderlyWhenFlat(overrides, ys);
    OrderlySucceeds(t, ys);
    LastOneStays(t, rest, a, b);
  }

  lemma UnequalDiffers(t: Json, overrides: seq<Override>, a: Override, b: Override)
    requires Leaves(overrides) && AllClear(t, overrides)
    requires forall x, y :: x in overrides && y in overrides ==> !(x.path < y.path)
    requires a in overrides && b in overrides && a.path == b.path && a.value != b.value
    ensures !SameInEveryOrder(t, overrides)
  {
    var rest := PullTwo(overrides, a, b);
    var ys, zs := rest + [a, b], rest + [b, a];
    assert multiset(ys) == multiset(rest) + multiset{a} + multiset{b} == multiset(zs);
    FlatOrder(t, overrides, rest, a, b);
    FlatOrder(t, overrides, rest, b, a);
    assert SetAll(Ok(t), ys) != SetAll(Ok(t), zs);
  }

  /** The exact condition: the order of overrides does not matter if and only if they are compatible, or one
      of them cannot be set on its own, which is then an error in every order. */
  lemma OrderMattersIff(t: Json, overrides: seq<Override>)
    requires Leaves(overrides)
    ensures SameInEveryOrder(t, overrides)
       <==> Compatible(overrides) || exists o :: o in overrides && Put(t, o.path, o.value).Err?
  {
    forall o | o in overrides
      ensures Put(t, o.path, o.value).Ok? <==> Clear(t, o.path)
    {
      ClearMeansOk(t, o.path, o.value);
    }
    if Compatible(overrides) {
      CompatibleIsSame(t, overrides);
    } else if o :| o in overrides && !Clear(t, o.path) {
      BlockedIsSame(t, overrides, o);
    } else if a, b :| a in overrides && b in overrides && a.path < b.path {
      NestedDiffers(t, overrides, a, b);
    } else {
      var a, b :| a in overrides && b in overrides && a.path == b.path && a.value != b.value;
      UnequalDiffers(t, overrides, a, b);
    }
  }

  // ---------- Environments ----------

  /** However the environment is ordered, its overrides give the same tree, or an error. */
  ghost predicate SameForEveryEnvironment(t: Json, environ: seq<(string, string)>) {
    forall shuffled | multiset(shuffled) == multiset(environ) ::
      SetAll(Ok(t), Overrides(shuffled)) == SetAll(Ok(t), Overrides(environ))
  }

  lemma {:induction false} OverridesAreLeaves(environ: seq<(string, string)>)
    ensures Leaves(Overrides(environ))
  {
    if environ != [] {
      OverridesAreLeaves(environ[1..]);
    }
  }

  /** Where the overrides of an environment can be cut, the environment can. */
  lemma {:induction false} CutEnvironment(environ: seq<(string, string)>, j: nat) returns (k: nat)
    requires j <= |Overrides(environ)|
    ensures k <= |environ|
    ensures Overrides(environ[..k]) == Overrides(environ)[..j] && Overrides(environ[k..]) == Overrides(environ)[j..]
  {
    k := 0;
    if j > 0 {
      var (name, _) := environ[0];
      var rest := environ[1..];
      k := CutEnvironment(rest, if PREFIX <= name then j - 1 else j);
      assert environ[..k + 1] == [environ[0]] + rest[..k] && environ[k + 1..] == rest[k..];
      OverridesConcat([environ[0]], rest[..k]);
      OverridesConcat([environ[0]], rest);
      assert environ == [environ[0]] + rest;
      k := k + 1;
    }
  }

  /** Every order of the overrides comes from some order of the environment. */
  lemma {:induction false} OrderIsRealized(environ: seq<(string, string)>, ys: seq<Override>)
    returns (shuffled: seq<(string, string)>)
    requires multiset(ys) == multiset(Overrides(environ))
    ensures multiset(shuffled) == multiset(environ) && Overrides(shuffled) == ys
    decreases |environ|
  {
    shuffled := environ;
    if environ == [] {
      assert |multiset(ys)| == 0;
    } else {
      var first, rest := environ[0], environ[1..];
      assert environ == [first] + rest;
      OverridesConcat([first], rest);
      if PREFIX <= first.0 {
        var j := RemoveSame(Overrides(environ), ys);
        assert Overrides(environ)[1..] == Overrides(rest);
        var others := OrderIsRealized(rest, ys[..j] + ys[j + 1..]);
        shuffled := InsertEntry(others, first, ys, j);
        assert multiset(environ) == multiset(rest) + multiset{first};
      } else {
        assert Overrides(environ) == Overrides(rest);
        var others := OrderIsRealized(rest, ys);
        shuffled := [first] + others;
        OverridesConcat([first], others);
      }
    }
  }

  lemma InsertEntry(others: seq<(string, string)>, first: (string, string), ys: seq<Override>, j: nat)
    returns (shuffled: seq<(string, string)>)
    requires j < |ys| && Overrides(others) == ys[..j] + ys[j + 1..]
    requires PREFIX <= first.0 && Overrides([first]) == [ys[j]]
    ensures multiset(shuffled) == multiset(others) + multiset{first} && Overrides(shuffled) == ys
  {
    var k := CutEnvironment(others, j);
    shuffled := others[..k] + ([first] + others[k..]);
    assert others == others[..k] + others[k..];
    OverridesConcat([first], others[k..]);
    OverridesConcat(others[..k], [first] + others[k..]);
    assert (ys[..j] + ys[j + 1..])[..j] == ys[..j] && (ys[..j] + ys[j + 1..])[j..] == ys[j + 1..];
    assert ys == ys[..j] + ([ys[j]] + ys[j + 1..]);
  }

  lemma EnvironmentsAreOrders(t: Json, environ: seq<(string, string)>)
    ensures SameForEveryEnvironment(t, environ) <==> SameInEveryOrder(t, Overrides(environ))
  {
    if SameInEveryOrder(t, Overrides(environ)) {
      forall shuffled | multiset(shuffled) == multiset(environ)
        ensures SetAll(Ok(t), Overrides(shuffled)) == SetAll(Ok(t), Overrides(environ))
      {
        OverridesMultiset(environ, shuffled);
      }
    }
    if SameForEveryEnvironment(t, environ) {
      forall ys | multiset(ys) == multiset(Overrides(environ)) && ProperPaths(ys)
        ensures SetAll(Ok(t), ys) == SetAll(Ok(t), Overrides(environ))
      {
        var shuffled := OrderIsRealized(environ, ys);
      }
    }
  }

  /** The order in which the environment is read does not matter if and only if its overrides are compatible,
      or one of them cannot be set on its own in the loaded tree. */
  lemma EnvironmentOrderMattersIff(t: Json, environ: seq<(string, string)>)
    ensures SameForEveryEnvironment(t, environ)
       <==> Compatible(Overrides(environ)) || exists o :: o in Overrides(environ) && Put(t, o.path, o.value).Err?
  {
    OverridesAreLeaves(environ);
    EnvironmentsAreOrders(t, environ);
    OrderMattersIff(t, Overrides(environ));
  }

  /** Without a configuration file compatibility alone decides. */
  lemma EmptyConfigOrder(environ: seq<(string, string)>)
    ensures SameForEveryEnvironment(Obj(map[]), environ) <==> Compatible(Overrides(environ))
  {
    EnvironmentOrderMattersIff(Obj(map[]), environ);
    forall o | o in Overrides(environ)
      ensures Put(Obj(map[]), o.path, o.value).Ok?
    {
      EmptyIsClear(o.path);
      ClearMeansOk(Obj(map[]), o.path, o.value);
    }
  }
}
