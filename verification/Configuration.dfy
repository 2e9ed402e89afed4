/** Nested configuration values behind dotted keys (src/common/config.py). */
module Configuration {
  import opened Prelude

  const TYPE_ERROR := "TypeError"

  // ---------- Dotted keys ----------

  function Split(key: string): (parts: seq<string>)
    ensures |parts| >= 1
  {
    if key == "" then [""]
    else
      var rest := Split(key[1..]);
      if key[0] == '.' then [""] + rest else [[key[0]] + rest[0]] + rest[1..]
  }

  function Join(parts: seq<string>): string
    requires |parts| >= 1
  {
    if |parts| == 1 then parts[0] else parts[0] + "." + Join(parts[1..])
  }

  lemma Associates(a: string, b: string, c: string)
    ensures a + b + c == a + (b + c)
  {
  }

  lemma JoinPrepend(c: char, parts: seq<string>)
    requires |parts| >= 1
    ensures Join([[c] + parts[0]] + parts[1..]) == [c] + Join(parts)
  {
    var longer := [[c] + parts[0]] + parts[1..];
    assert longer[1..] == parts[1..] && longer[0] == [c] + parts[0];
    if |parts| > 1 {
      Associates([c], parts[0], "." + Join(parts[1..]));
      Associates(parts[0], ".", Join(parts[1..]));
      Associates([c] + parts[0], ".", Join(parts[1..]));
    }
  }

  /** No part has a dot, and joined by dots the parts are the key again: different keys are different paths. */
  lemma {:induction false} SplitThenJoin(key: string)
    ensures Join(Split(key)) == key
    ensures forall part :: part in Split(key) ==> '.' !in part
  {
    if key != "" {
      SplitThenJoin(key[1..]);
      var rest := Split(key[1..]);
      if key[0] == '.' {
        assert ([""] + rest)[1..] == rest;
        assert key == "." + key[1..];
      } else {
        JoinPrepend(key[0], rest);
        assert key == [key[0]] + key[1..];
      }
    }
  }

  // ---------- Trees ----------

  /** The value at a path, whatever it is. */
  function At(t: Json, path: seq<string>): Option<Json> {
    if path == [] then Some(t)
    else if t.Obj? && path[0] in t.fields then At(t.fields[path[0]], path[1..])
    else None
  }

  /** `_set_nested`: missing dicts on the way are made, anything else on the way is an error. */
  function Put(t: Json, path: seq<string>, value: Json): (r: Result<Json, string>)
    requires path != []
    decreases |path|
  {
    if !t.Obj? then Err(TYPE_ERROR)
    else if |path| == 1 then Ok(Obj(t.fields[path[0] := value]))
    else
      var child := if path[0] in t.fields then t.fields[path[0]] else Obj(map[]);
      match Put(child, path[1..], value)
      case Err(e) => Err(e)
      case Ok(c) => Ok(Obj(t.fields[path[0] := c]))
  }

  /** `get`: a missing or null value, or a path through something that is no dict, gives the default. */
  function Lookup(t: Json, path: seq<string>, default: Json): Json {
    if path == [] then t
    else if !t.Obj? || path[0] !in t.fields || t.fields[path[0]].Null? then default
    else Lookup(t.fields[path[0]], path[1..], default)
  }

  /** Setting fails exactly when something on the way to the last part is there and is no dict. */
  lemma {:induction false} PutFails(t: Json, path: seq<string>, value: Json)
    requires path != []
    ensures Put(t, path, value).Err? <==>
              exists i :: 0 <= i < |path| && At(t, path[..i]).Some? && !At(t, path[..i]).value.Obj?
    ensures Put(t, path, value).Err? ==> Put(t, path, value).error == "TypeError"
    decreases |path|
  {
    if !t.Obj? {
      assert At(t, path[..0]) == Some(t);
    } else {
      var child := if path[0] in t.fields then t.fields[path[0]] else Obj(map[]);
      forall i | 0 < i < |path|
        ensures At(t, path[..i]) == if path[0] in t.fields then At(child, path[1..][..i - 1]) else None
      {
        assert path[..i][1..] == path[1..][..i - 1];
      }
      if |path| > 1 {
        PutFails(child, path[1..], value);
        if path[0] in t.fields {
          if i :| 0 <= i < |path| - 1 && At(child, path[1..][..i]).Some? && !At(child, path[1..][..i]).value.Obj? {
            assert At(t, path[..i + 1]) == At(child, path[1..][..i]);
          }
        } else {
          EmptyHasNothing(path[1..]);
        }
      }
    }
  }

  lemma EmptyHasNothing(path: seq<string>)
    ensures forall i :: 0 < i <= |path| ==> At(Obj(map[]), path[..i]) == None
    ensures At(Obj(map[]), []) == Some(Obj(map[]))
  {
  }

  /** Setting and getting back: a value that is not null comes back, a null gives the default. */
  lemma {:induction false} GetAfterSet(t: Json, path: seq<string>, value: Json, default: Json)
    requires path != [] && Put(t, path, value).Ok?
    ensures Lookup(Put(t, path, value).value, path, default) == if value.Null? then default else value
    decreases |path|
  {
    if |path| > 1 {
      var child := if path[0] in t.fields then t.fields[path[0]] else Obj(map[]);
      GetAfterSet(child, path[1..], value, default);
    }
  }

  /** Every part of the way is there and not null. */
  ghost predicate Reaches(t: Json, path: seq<string>) {
    forall i :: 0 < i <= |path| ==> At(t, path[..i]).Some? && !At(t, path[..i]).value.Null?
  }

  /** `get` gives the value at the path exactly when every part of the way is there and not null, else the
      default: also below a value that is no dict. */
  lemma {:induction false} LookupIs(t: Json, path: seq<string>, default: Json)
    ensures Lookup(t, path, default) ==
            if Reaches(t, path) && At(t, path).Some? then At(t, path).value else default
    ensures Reaches(t, path) ==> At(t, path).Some?
  {
    if path != [] {
      assert path[..1] == [path[0]] && path[..|path|] == path;
      if t.Obj? && path[0] in t.fields {
        var child := t.fields[path[0]];
        LookupIs(child, path[1..], default);
        assert At(child, []) == Some(child);
        forall i | 0 < i <= |path|
          ensures At(t, path[..i]) == At(child, path[1..][..i - 1])
        {
          assert path[..i][1..] == path[1..][..i - 1];
        }
        ReachesBelow(t, path);
      }
    }
  }

  lemma ReachesBelow(t: Json, path: seq<string>)
    requires path != [] && t.Obj? && path[0] in t.fields
    requires forall i :: 0 < i <= |path| ==> At(t, path[..i]) == At(t.fields[path[0]], path[1..][..i - 1])
    ensures Reaches(t, path) <==> !t.fields[path[0]].Null? && Reaches(t.fields[path[0]], path[1..])
  {
    var child := t.fields[path[0]];
    assert At(t, path[..1]) == Some(child);
    if Reaches(t, path) {
      forall i | 0 < i <= |path| - 1
        ensures At(child, path[1..][..i]).Some? && !At(child, path[1..][..i]).value.Null?
      {
        assert At(t, path[..i + 1]) == At(child, path[1..][..i]);
      }
    }
  }

  /** Neither key is above the other in the tree. */
  predicate Incomparable(p: seq<string>, q: seq<string>) {
    !(p <= q) && !(q <= p)
  }

  lemma IncomparableTails(p: seq<string>, q: seq<string>)
    requires Incomparable(p, q) && p[0] == q[0]
    ensures |p| > 1 && |q| > 1 && Incomparable(p[1..], q[1..])
  {
    assert p == [p[0]] + p[1..] && q == [q[0]] + q[1..];
  }

  lemma {:induction false} NothingInEmpty(path: seq<string>, default: Json)
    requires path != []
    ensures Lookup(Obj(map[]), path, default) == default
  {
  }

  /** Setting a key leaves every key alone that is neither above nor below it. */
  lemma {:induction false} SetKeepsOthers(t: Json, path: seq<string>, value: Json, other: seq<string>, default: Json)
    requires path != [] && Put(t, path, value).Ok? && Incomparable(path, other)
    ensures Lookup(Put(t, path, value).value, other, default) == Lookup(t, other, default)
    decreases |path|
  {
    if path[0] == other[0] {
      IncomparableTails(path, other);
      var child := if path[0] in t.fields then t.fields[path[0]] else Obj(map[]);
      SetKeepsOthers(child, path[1..], value, other[1..], default);
      NothingInEmpty(other[1..], default);
    }
  }

  /** A set that may follow a failed one. */
  function Then(r: Result<Json, string>, path: seq<string>, value: Json): Result<Json, string>
    requires path != []
  {
    match r
    case Err(e) => Err(e)
    case Ok(t) => Put(t, path, value)
  }

  /** Setting incomparable keys in either order gives the same tree, or fails either way. */
  lemma {:induction false} SetsCommute(t: Json, p: seq<string>, v: Json, q: seq<string>, w: Json)
    requires p != [] && q != [] && Incomparable(p, q)
    ensures Then(Put(t, p, v), q, w) == Then(Put(t, q, w), p, v)
    decreases |p|
  {
    PutError(t, p, v);
    PutError(t, q, w);
    if t.Obj? {
      if p[0] == q[0] {
        IncomparableTails(p, q);
        var child := if p[0] in t.fields then t.fields[p[0]] else Obj(map[]);
        SetsCommute(child, p[1..], v, q[1..], w);
        PutBelow(t, p, v, q, w);
        PutBelow(t, q, w, p, v);
      } else {
        PutBeside(t, p, v, q, w);
        PutBeside(t, q, w, p, v);
      }
    }
  }

  lemma {:induction false} PutError(t: Json, path: seq<string>, value: Json)
    requires path != []
    ensures Put(t, path, value).Err? ==> Put(t, path, value).error == TYPE_ERROR
    decreases |path|
  {
    if t.Obj? && |path| > 1 {
      PutError(if path[0] in t.fields then t.fields[path[0]] else Obj(map[]), path[1..], value);
    }
  }

  function ChildOf(t: Json, key: string): Json
    requires t.Obj?
  {
    if key in t.fields then t.fields[key] else Obj(map[])
  }

  function WithChild(t: Json, key: string, r: Result<Json, string>): Result<Json, string>
    requires t.Obj?
  {
    match r
    case Err(e) => Err(e)
    case Ok(c) => Ok(Obj(t.fields[key := c]))
  }

  /** Two sets below the same key. */
  lemma PutBelow(t: Json, p: seq<string>, v: Json, q: seq<string>, w: Json)
    requires t.Obj? && |p| > 1 && |q| > 1 && p[0] == q[0]
    ensures Then(Put(t, p, v), q, w) == WithChild(t, p[0], Then(Put(ChildOf(t, p[0]), p[1..], v), q[1..], w))
  {
    var r := Put(ChildOf(t, p[0]), p[1..], v);
    if r.Ok? {
      var r2 := Put(r.value, q[1..], w);
      if r2.Ok? {
        assert t.fields[p[0] := r.value][p[0] := r2.value] == t.fields[p[0] := r2.value];
      }
    }
  }

  /** The subtree that a set puts under its first part. */
  function NewChild(t: Json, path: seq<string>, value: Json): Result<Json, string>
    requires t.Obj? && path != []
  {
    if |path| == 1 then Ok(value) else Put(ChildOf(t, path[0]), path[1..], value)
  }

  /** Two sets below different keys. */
  lemma PutBeside(t: Json, p: seq<string>, v: Json, q: seq<string>, w: Json)
    requires t.Obj? && p != [] && q != [] && p[0] != q[0]
    ensures var (a, b) := (NewChild(t, p, v), NewChild(t, q, w));
            Then(Put(t, p, v), q, w) ==
            if a.Err? then Err(a.error) else if b.Err? then Err(b.error)
            else Ok(Obj(t.fields[p[0] := a.value][q[0] := b.value]))
    ensures var (a, b) := (NewChild(t, p, v), NewChild(t, q, w));
            a.Ok? && b.Ok? ==> t.fields[p[0] := a.value][q[0] := b.value] == t.fields[q[0] := b.value][p[0] := a.value]
    ensures NewChild(t, p, v).Err? ==> NewChild(t, p, v).error == TYPE_ERROR
  {
    if |p| > 1 {
      PutError(ChildOf(t, p[0]), p[1..], v);
    }
    PutByChild(t, p, v);
    var a := NewChild(t, p, v);
    if a.Ok? {
      var t' := Obj(t.fields[p[0] := a.value]);
      assert ChildOf(t', q[0]) == ChildOf(t, q[0]);
      PutByChild(t', q, w);
    }
  }

  lemma PutByChild(t: Json, p: seq<string>, v: Json)
    requires t.Obj? && p != []
    ensures Put(t, p, v) == WithChild(t, p[0], NewChild(t, p, v))
  {
  }

  // ---------- Environment overrides ----------

  datatype Override = Override(path: seq<string>, value: Json)

  function Lower(c: char): char {
    if 'A' <= c <= 'Z' then (c as int + 32) as char else c
  }

  /** Lower case, with dots for underscores. */
  function ConfigKey(name: string): (key: string)
    ensures |key| == |name| && '_' !in key
  {
    if name == "" then ""
    else [if name[0] == '_' then '.' else Lower(name[0])] + ConfigKey(name[1..])
  }

  /** Letter by letter: small letters for capital ones, dots for underscores, anything else as it is. */
  lemma {:induction false} KeyOfName(name: string, i: nat)
    requires i < |name|
    ensures ConfigKey(name)[i] ==
            if name[i] == '_' then '.'
            else if 'A' <= name[i] <= 'Z' then "abcdefghijklmnopqrstuvwxyz"[name[i] as int - 'A' as int]
            else name[i]
  {
    if i == 0 {
      LowerIs(name[0]);
    } else {
      KeyOfName(name[1..], i - 1);
    }
  }

  lemma LowerIs(c: char)
    ensures Lower(c) == if 'A' <= c <= 'Z' then "abcdefghijklmnopqrstuvwxyz"[c as int - 'A' as int] else c
  {
  }

  const PREFIX := "AO_"

  /** The overrides that an environment makes, in its order. */
  function Overrides(environ: seq<(string, string)>): (r: seq<Override>)
    ensures forall o :: o in r ==> o.path != []
  {
    if environ == [] then []
    else
      var (name, value) := environ[0];
      var rest := Overrides(environ[1..]);
      if PREFIX <= name then [Override(Split(ConfigKey(name[|PREFIX|..])), Str(value))] + rest else rest
  }

  function SetAll(r: Result<Json, string>, overrides: seq<Override>): Result<Json, string>
    requires forall o :: o in overrides ==> o.path != []
    decreases |overrides|
  {
    if overrides == [] then r else SetAll(Then(r, overrides[0].path, overrides[0].value), overrides[1..])
  }

  predicate ProperPaths(overrides: seq<Override>) {
    forall o :: o in overrides ==> o.path != []
  }

  /** No override's key lies below another's, and the same key is always given the same value. */
  ghost predicate Compatible(overrides: seq<Override>) {
    && ProperPaths(overrides)
    && forall a, b :: a in overrides && b in overrides ==>
         !(a.path < b.path) && (a.path == b.path ==> a.value == b.value)
  }

  lemma ThenCommute(r: Result<Json, string>, a: Override, b: Override)
    requires Compatible([a, b])
    ensures Then(Then(r, a.path, a.value), b.path, b.value) == Then(Then(r, b.path, b.value), a.path, a.value)
  {
    assert a in [a, b] && b in [a, b];
    if r.Ok? && a.path != b.path {
      SetsCommute(r.value, a.path, a.value, b.path, b.value);
    }
  }

  lemma CompatibleSubset(xs: seq<Override>, ys: seq<Override>)
    requires Compatible(xs) && forall o :: o in ys ==> o in xs
    ensures Compatible(ys)
  {
  }

  lemma {:induction false} MoveToFront(r: Result<Json, string>, overrides: seq<Override>, j: nat)
    requires Compatible(overrides) && j < |overrides|
    ensures Compatible(overrides[..j] + overrides[j + 1..])
    ensures SetAll(r, overrides)
         == SetAll(Then(r, overrides[j].path, overrides[j].value), overrides[..j] + overrides[j + 1..])
    decreases |overrides|
  {
    var rest := overrides[..j] + overrides[j + 1..];
    CompatibleSubset(overrides, rest);
    if j == 0 {
      assert rest == overrides[1..];
    } else {
      var a, b := overrides[0], overrides[j];
      CompatibleSubset(overrides, overrides[1..]);
      CompatibleSubset(overrides, [a, b]);
      MoveToFront(Then(r, a.path, a.value), overrides[1..], j - 1);
      assert overrides[1..][..j - 1] + overrides[1..][j..] == rest[1..];
      assert overrides[1..][j - 1] == b && rest[0] == a;
      ThenCommute(r, a, b);
    }
  }

  lemma RemoveSame<T>(xs: seq<T>, ys: seq<T>) returns (j: nat)
    requires xs != [] && multiset(xs) == multiset(ys)
    ensures j < |ys| && ys[j] == xs[0] && multiset(xs[1..]) == multiset(ys[..j] + ys[j + 1..])
  {
    assert xs[0] in multiset(ys);
    j :| 0 <= j < |ys| && ys[j] == xs[0];
    assert xs == [xs[0]] + xs[1..];
    assert ys == ys[..j] + [ys[j]] + ys[j + 1..];
    assert multiset(xs) == multiset{xs[0]} + multiset(xs[1..]);
    assert multiset(ys) == multiset(ys[..j]) + multiset{ys[j]} + multiset(ys[j + 1..]);
    assert multiset(ys[..j] + ys[j + 1..]) == multiset(ys[..j]) + multiset(ys[j + 1..]);
    assert multiset(xs[1..]) == multiset(xs) - multiset{xs[0]} == multiset(ys[..j]) + multiset(ys[j + 1..]);
  }

  lemma {:induction false} SameSetAll(r: Result<Json, string>, xs: seq<Override>, ys: seq<Override>)
    requires Compatible(xs) && Compatible(ys) && multiset(xs) == multiset(ys)
    ensures SetAll(r, xs) == SetAll(r, ys)
    decreases |xs|
  {
    if xs == [] {
      assert |multiset(ys)| == 0;
    } else {
      var j := RemoveSame(xs, ys);
      MoveToFront(r, ys, j);
      CompatibleSubset(xs, xs[1..]);
      SameSetAll(Then(r, xs[0].path, xs[0].value), xs[1..], ys[..j] + ys[j + 1..]);
    }
  }

  lemma {:induction false} OverridesMultiset(xs: seq<(string, string)>, ys: seq<(string, string)>)
    requires multiset(xs) == multiset(ys)
    ensures multiset(Overrides(xs)) == multiset(Overrides(ys))
    decreases |xs|
  {
    if xs == [] {
      assert |multiset(ys)| == 0;
    } else {
      var j := RemoveSame(xs, ys);
      OverridesMultiset(xs[1..], ys[..j] + ys[j + 1..]);
      assert ys == ys[..j] + ([ys[j]] + ys[j + 1..]);
      assert xs == [xs[0]] + xs[1..];
      OverridesConcat(ys[..j], [ys[j]] + ys[j + 1..]);
      OverridesConcat(ys[..j], ys[j + 1..]);
      OverridesConcat([ys[j]], ys[j + 1..]);
      OverridesConcat([xs[0]], xs[1..]);
    }
  }

  lemma {:induction false} OverridesConcat(xs: seq<(string, string)>, ys: seq<(string, string)>)
    ensures Overrides(xs + ys) == Overrides(xs) + Overrides(ys)
  {
    if xs == [] {
      assert xs + ys == ys;
    } else {
      assert (xs + ys)[1..] == xs[1..] + ys;
      OverridesConcat(xs[1..], ys);
    }
  }

  lemma SameMembers<T>(xs: seq<T>, ys: seq<T>)
    requires multiset(xs) == multiset(ys)
    ensures forall x :: x in ys <==> x in xs
  {
    assert forall x :: x in ys <==> x in multiset(ys);
    assert forall x :: x in xs <==> x in multiset(xs);
  }

  /** When the overrides are compatible, the order in which the environment lists them does not matter: the
      same tree, or an error either way. */
  lemma OverrideOrderDoesNotMatter(t: Json, environ: seq<(string, string)>, shuffled: seq<(string, string)>)
    requires multiset(environ) == multiset(shuffled) && Compatible(Overrides(environ))
    ensures SetAll(Ok(t), Overrides(environ)) == SetAll(Ok(t), Overrides(shuffled))
  {
    OverridesMultiset(environ, shuffled);
    SameMembers(Overrides(environ), Overrides(shuffled));
    CompatibleSubset(Overrides(environ), Overrides(shuffled));
    SameSetAll(Ok(t), Overrides(environ), Overrides(shuffled));
  }

  lemma SetTwo(r: Result<Json, string>, a: Override, b: Override)
    requires a.path != [] && b.path != []
    ensures SetAll(r, [a, b]) == Then(Then(r, a.path, a.value), b.path, b.value)
  {
    var r1 := Then(r, a.path, a.value);
    assert [a, b][1..] == [b];
    assert [b][1..] == [];
    assert SetAll(r1, [b]) == SetAll(Then(r1, b.path, b.value), []);
  }

  /** Which overrides there are: one for each variable whose name starts with "AO_", in the environment's order,
      with the variable's value. */
  lemma {:induction false} OverridesAre(environ: seq<(string, string)>, o: Override)
    ensures o in Overrides(environ) <==>
            exists i :: 0 <= i < |environ| && "AO_" <= environ[i].0
                        && o == Override(Split(ConfigKey(environ[i].0[3..])), Str(environ[i].1))
  {
    if environ != [] {
      OverridesAre(environ[1..], o);
      if i :| 0 <= i < |environ| - 1 && "AO_" <= environ[1..][i].0
              && o == Override(Split(ConfigKey(environ[1..][i].0[3..])), Str(environ[1..][i].1)) {
        assert environ[i + 1] == environ[1..][i];
      }
      if i :| 0 <= i < |environ| && "AO_" <= environ[i].0
              && o == Override(Split(ConfigKey(environ[i].0[3..])), Str(environ[i].1)) {
        assert i > 0 ==> environ[1..][i - 1] == environ[i];
      }
    }
  }

  lemma {:induction false} SetAllSnoc(r: Result<Json, string>, overrides: seq<Override>, o: Override)
    requires ProperPaths(overrides + [o])
    ensures ProperPaths(overrides) && o.path != []
    ensures SetAll(r, overrides + [o]) == Then(SetAll(r, overrides), o.path, o.value)
    decreases |overrides|
  {
    assert o in overrides + [o] && forall x :: x in overrides ==> x in overrides + [o];
    if overrides == [] {
      assert [] + [o] == [o] && [o][1..] == [];
    } else {
      assert (overrides + [o])[1..] == overrides[1..] + [o];
      SetAllSnoc(Then(r, overrides[0].path, overrides[0].value), overrides[1..], o);
    }
  }

  /** What an environment sets can be read back: the value of every variable "AO_...", under its key, whatever
      else is set. */
  lemma OverridesAreRead(t: Json, environ: seq<(string, string)>, i: nat, default: Json)
    requires i < |environ| && "AO_" <= environ[i].0 && Compatible(Overrides(environ))
    requires SetAll(Ok(t), Overrides(environ)).Ok?
    ensures Lookup(SetAll(Ok(t), Overrides(environ)).value, Split(ConfigKey(environ[i].0[3..])), default)
         == Str(environ[i].1)
  {
    var o := Override(Split(ConfigKey(environ[i].0[3..])), Str(environ[i].1));
    OverridesAre(environ, o);
    var others := MoveToEnd(Ok(t), Overrides(environ), o);
    SetAllSnoc(Ok(t), others, o);
    GetAfterSet(SetAll(Ok(t), others).value, o.path, o.value, default);
  }

  lemma MoveToEnd(r: Result<Json, string>, all: seq<Override>, o: Override) returns (others: seq<Override>)
    requires Compatible(all) && o in all
    ensures ProperPaths(others + [o]) && SetAll(r, all) == SetAll(r, others + [o])
  {
    var j :| 0 <= j < |all| && all[j] == o;
    others := all[..j] + all[j + 1..];
    assert all == all[..j] + [o] + all[j + 1..];
    assert multiset(others + [o]) == multiset(all);
    SameMembers(all, others + [o]);
    CompatibleSubset(all, others + [o]);
    SameSetAll(r, all, others + [o]);
  }

  /** With comparable keys it does matter: one order overwrites the nested value, the other fails. */
  lemma ComparableOverridesClash()
    ensures var outer, inner := Override(["x"], Str("1")), Override(["x", "y"], Str("2"));
            && SetAll(Ok(Obj(map[])), [inner, outer]) == Ok(Obj(map["x" := Str("1")]))
            && SetAll(Ok(Obj(map[])), [outer, inner]) == Err(TYPE_ERROR)
  {
    var outer, inner := Override(["x"], Str("1")), Override(["x", "y"], Str("2"));
    var empty := Obj(map[]);
    var nested := Obj(map["x" := Obj(map["y" := Str("2")])]);
    assert ["x", "y"][1..] == ["y"];
    assert Put(empty, ["y"], Str("2")) == Ok(Obj(map["y" := Str("2")]));
    assert Put(empty, inner.path, inner.value) == Ok(nested);
    assert Put(empty, outer.path, outer.value) == Ok(Obj(map["x" := Str("1")]));
    assert nested.fields["x" := Str("1")] == map["x" := Str("1")];
    assert Put(nested, outer.path, outer.value) == Ok(Obj(map["x" := Str("1")]));
    assert Put(Obj(map["x" := Str("1")]), inner.path, inner.value) == Err(TYPE_ERROR);
    SetTwo(Ok(empty), inner, outer);
    SetTwo(Ok(empty), outer, inner);
  }

  // ---------- The object ----------

  /** A dict made on the way does not change what a set comes to. */
  lemma {:induction false} PutThroughEmpty(t: Json, path: seq<string>, i: nat, value: Json)
    requires 0 < i < |path| && At(t, path[..i - 1]).Some? && At(t, path[..i - 1]).value.Obj? && At(t, path[..i]).None?
    ensures Put(t, path[..i], Obj(map[])).Ok?
    ensures var t' := Put(t, path[..i], Obj(map[])).value;
            At(t', path[..i]) == Some(Obj(map[])) && Put(t', path, value) == Put(t, path, value)
    decreases |path|
  {
    assert path[..i][1..] == path[1..][..i - 1];
    if i == 1 {
      assert path[..1] == [path[0]];
      var t' := Obj(t.fields[path[0] := Obj(map[])]);
      assert Put(t, path[..1], Obj(map[])) == Ok(t');
      SameAfterwards(t, Obj(map[]), path, value);
    } else {
      assert path[..i - 1][1..] == path[1..][..i - 2];
      assert t.Obj? && path[0] in t.fields;
      var child := t.fields[path[0]];
      PutThroughEmpty(child, path[1..], i - 1, value);
      var t' := Obj(t.fields[path[0] := Put(child, path[1..][..i - 1], Obj(map[])).value]);
      assert Put(t, path[..i], Obj(map[])) == Ok(t');
      SameAfterwards(t, Put(child, path[1..][..i - 1], Obj(map[])).value, path, value);
    }
  }

  lemma PutUnfolds(t: Json, path: seq<string>, value: Json)
    requires |path| > 1 && t.Obj?
    ensures Put(t, path, value) == WithChild(t, path[0], Put(ChildOf(t, path[0]), path[1..], value))
  {
  }

  lemma ChildTwice(t: Json, key: string, child: Json, r: Result<Json, string>)
    requires t.Obj?
    ensures WithChild(Obj(t.fields[key := child]), key, r) == WithChild(t, key, r)
    ensures ChildOf(Obj(t.fields[key := child]), key) == child
  {
    if r.Ok? {
      assert t.fields[key := child][key := r.value] == t.fields[key := r.value];
    }
  }

  lemma SameAfterwards(t: Json, child: Json, path: seq<string>, value: Json)
    requires |path| > 1 && t.Obj?
    requires Put(child, path[1..], value) == Put(ChildOf(t, path[0]), path[1..], value)
    ensures Put(Obj(t.fields[path[0] := child]), path, value) == Put(t, path, value)
  {
    PutUnfolds(t, path, value);
    PutUnfolds(Obj(t.fields[path[0] := child]), path, value);
    ChildTwice(t, path[0], child, Put(child, path[1..], value));
  }

  lemma {:induction false} AtSnoc(t: Json, path: seq<string>, part: string)
    ensures At(t, path + [part]) ==
            if At(t, path).Some? && At(t, path).value.Obj? && part in At(t, path).value.fields
            then Some(At(t, path).value.fields[part]) else None
  {
    if path == [] {
      assert [part][1..] == [];
    } else {
      assert (path + [part])[1..] == path[1..] + [part];
      if t.Obj? && path[0] in t.fields {
        AtSnoc(t.fields[path[0]], path[1..], part);
      }
    }
  }

  lemma {:induction false} PutAtTheEnd(t: Json, path: seq<string>, value: Json)
    requires path != [] && At(t, path[..|path| - 1]).Some? && !At(t, path[..|path| - 1]).value.Obj?
    ensures Put(t, path, value) == Err(TYPE_ERROR)
  {
    PutFails(t, path, value);
  }

  class Config {
    var data: Json

    constructor (file: Option<Json>)
      ensures data == if file.Some? then file.value else Obj(map[])
    {
      data := if file.Some? then file.value else Obj(map[]);
    }

    /** `_set_nested`: walks down, making missing dicts; a failed set leaves the tree as it was. */
    method SetNested(key: string, value: Json) returns (ok: bool)
      modifies this
      ensures match Put(old(data), Split(key), value)
              case Ok(t) => ok && data == t
              case Err(_) => !ok && data == old(data)
    {
      var parts := Split(key);
      var n := |parts| - 1;
      var i := 0;
      while i < n
        invariant 0 <= i <= n
        invariant At(data, parts[..i]).Some?
        invariant Put(data, parts, value) == Put(old(data), parts, value)
        invariant data == old(data) || At(data, parts[..i]) == Some(Obj(map[]))
      {
        var current := At(data, parts[..i]).value;
        assert parts[..i + 1] == parts[..i] + [parts[i]];
        AtSnoc(data, parts[..i], parts[i]);
        if !current.Obj? {
          PutFails(data, parts, value);
          return false;
        }
        if parts[i] !in current.fields {
          PutThroughEmpty(data, parts, i + 1, value);
          data := Put(data, parts[..i + 1], Obj(map[])).value;
        }
        i := i + 1;
      }
      if !At(data, parts[..n]).value.Obj? {
        PutAtTheEnd(data, parts, value);
        return false;
      }
      NothingInTheWay(data, parts, value);
      data := Put(data, parts, value).value;
      ok := true;
    }

    method Get(key: string, default: Json) returns (value: Json)
      ensures value == Lookup(data, Split(key), default)
    {
      var parts := Split(key);
      value := data;
      ghost var goal := Lookup(data, parts, default);
      var i := 0;
      assert parts[0..] == parts;
      while i < |parts|
        invariant 0 <= i <= |parts|
        invariant Lookup(value, parts[i..], default) == goal
      {
        assert parts[i..][1..] == parts[i + 1..];
        if !value.Obj? || parts[i] !in value.fields || value.fields[parts[i]].Null? {
          return default;
        }
        value := value.fields[parts[i]];
        i := i + 1;
      }
    }

    /** The overrides of the environment, in its order; the first that fails ends the construction. */
    method LoadEnvOverrides(environ: seq<(string, string)>) returns (ok: bool)
      modifies this
      ensures match SetAll(Ok(old(data)), Overrides(environ))
              case Ok(t) => ok && data == t
              case Err(_) => !ok
    {
      ghost var goal := SetAll(Ok(data), Overrides(environ));
      var i := 0;
      assert environ[0..] == environ;
      while i < |environ|
        invariant 0 <= i <= |environ|
        invariant SetAll(Ok(data), Overrides(environ[i..])) == goal
      {
        var (name, value) := environ[i];
        OverridesStep(environ, i, Ok(data));
        if PREFIX <= name {
          ok := SetNested(ConfigKey(name[|PREFIX|..]), Str(value));
          if !ok {
            return;
          }
        }
        i := i + 1;
      }
      ok := true;
    }
  }

  lemma OverridesStep(environ: seq<(string, string)>, i: nat, r: Result<Json, string>)
    requires i < |environ|
    ensures var (name, value) := environ[i];
            SetAll(r, Overrides(environ[i..])) ==
            SetAll(if PREFIX <= name then Then(r, Split(ConfigKey(name[|PREFIX|..])), Str(value)) else r,
                Overrides(environ[i + 1..]))
    ensures r.Err? ==> SetAll(r, Overrides(environ[i..])) == r
    ensures forall e: string :: SetAll(Err(e), Overrides(environ[i + 1..])) == Err(e)
  {
    assert environ[i..][1..] == environ[i + 1..];
    forall e: string, xs: seq<Override> | forall o :: o in xs ==> o.path != []
      ensures SetAll(Err(e), xs) == Err(e)
    {
      ErrorStays(e, xs);
    }
  }

  lemma {:induction false} ErrorStays(e: string, xs: seq<Override>)
    requires forall o :: o in xs ==> o.path != []
    ensures SetAll(Err(e), xs) == Err(e)
  {
    if xs != [] {
      ErrorStays(e, xs[1..]);
    }
  }

  /** Nothing fails when the way is made of dicts. */
  lemma NothingInTheWay(t: Json, path: seq<string>, value: Json)
    requires path != [] && At(t, path[..|path| - 1]).Some? && At(t, path[..|path| - 1]).value.Obj?
    ensures Put(t, path, value).Ok?
  {
    forall i | 0 <= i < |path| && At(t, path[..i]).Some?
      ensures At(t, path[..i]).value.Obj?
    {
      if i < |path| - 1 {
        PrefixesAreDicts(t, path, i);
      }
    }
    PutFails(t, path, value);
  }

  lemma {:induction false} PrefixesAreDicts(t: Json, path: seq<string>, i: nat)
    requires i < |path| - 1 && At(t, path[..|path| - 1]).Some?
    ensures At(t, path[..i]).Some? && At(t, path[..i]).value.Obj?
  {
    if i > 0 {
      assert path[..|path| - 1][1..] == path[1..][..|path| - 2];
      assert path[..i][1..] == path[1..][..i - 1];
      PrefixesAreDicts(t.fields[path[0]], path[1..], i - 1);
    }
  }
}
