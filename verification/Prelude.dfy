/** Types shared by every module: optional values, error results, identifiers and JSON values. */
module Prelude {

  datatype Option<+T> = None | Some(value: T)

  datatype Result<+T, +E> = Ok(value: T) | Err(error: E)

  type Id = string

  /** A task id is never empty: an empty one is replaced when the task is accepted. */
  type TaskId = s: string | s != "" witness "task"

  /** The values that payloads, results and configuration trees are made of. */
  datatype Json =
    | Null
    | Bool(b: bool)
    | Num(n: int)
    | Str(s: string)
    | Arr(items: seq<Json>)
    | Obj(fields: map<string, Json>)
  {
    predicate Truthy() {
      match this
      case Null => false
      case Bool(b) => b
      case Num(n) => n != 0
      case Str(s) => s != ""
      case Arr(items) => items != []
      case Obj(fields) => fields != map[]
    }

    /** Python's `value or {}`. */
    function OrEmpty(): Json {
      if Truthy() then this else Obj(map[])
    }
  }

  /** `order` lists every element of `s` once, in some order: what reading an unordered table returns. */
  ghost predicate Enumerates<T>(order: seq<T>, s: set<T>) {
    && (forall x :: x in order ==> x in s)
    && (forall x :: x in s ==> x in order)
    && NoDuplicates(order)
  }

  ghost predicate NoDuplicates<T>(xs: seq<T>) {
    forall i, j :: 0 <= i < j < |xs| ==> xs[i] != xs[j]
  }

  /** Those of the elements that are in the set, in order. */
  function Among<T(==,!new)>(order: seq<T>, s: set<T>): (r: seq<T>)
    ensures forall x :: x in r <==> x in order && x in s
  {
    if order == [] then []
    else
      var n := |order| - 1;
      assert order == order[..n] + [order[n]];
      Among(order[..n], s) + if order[n] in s then [order[n]] else []
  }

  lemma AmongStep<T(!new)>(order: seq<T>, i: nat, s: set<T>)
    requires i < |order|
    ensures Among(order[..i + 1], s) == Among(order[..i], s) + if order[i] in s then [order[i]] else []
  {
    assert order[..i + 1][..i] == order[..i];
  }

  function Dropped<T(==,!new)>(xs: seq<T>, y: T): (r: seq<T>)
    ensures forall x :: x in r <==> x in xs && x != y
  {
    if xs == [] then [] else if xs[0] == y then Dropped(xs[1..], y) else [xs[0]] + Dropped(xs[1..], y)
  }

  lemma {:induction false} DroppedKeepsDistinct<T(!new)>(xs: seq<T>, y: T)
    requires NoDuplicates(xs)
    ensures NoDuplicates(Dropped(xs, y))
  {
    if xs != [] {
      DroppedKeepsDistinct(xs[1..], y);
      assert xs[0] !in xs[1..];
      var rest := Dropped(xs[1..], y);
      forall i, j | 0 <= i < j < |[xs[0]] + rest|
        ensures ([xs[0]] + rest)[i] != ([xs[0]] + rest)[j]
      {
        assert ([xs[0]] + rest)[j] in rest;
      }
    }
  }

  /** Python's `value or {}`: empty values, and no value, become the empty dict. */
  function OrEmptyDict(value: Option<Json>): Json {
    if value in {None, Some(Null), Some(Bool(false)), Some(Num(0)), Some(Str("")), Some(Arr([]))} then Obj(map[])
    else value.value
  }

  lemma OrEmptyIs(value: Option<Json>)
    ensures OrEmptyDict(value) == if value.Some? then value.value.OrEmpty() else Obj(map[])
  {
  }
}
