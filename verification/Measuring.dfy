/**
  How large a value is, as src/callReport.ts counts it before a call report carries it. Values are what the
  source's are: arrays and objects are references into a heap, which may share and may lead back to
  themselves. `Tree` is what a value without cycles says, and `Size` the simple recursive count of it.
 */
module Measuring {
  import opened Utf16

  type Ref = nat

  // What String() makes of a number: a character at least, all of them ASCII.
  type Digits = t: Text | t != [] && forall i :: 0 <= i < |t| ==> t[i] < 0x80 witness [0x30]

  datatype Scalar =
    | Str(text: Text)
    | Number(digits: Digits, finite: bool)
    | BigInt(digits: Digits)
    | Boolean(b: bool)
    | Nothing            // null and undefined
    | Callable           // functions and symbols
    | Binary(byteLength: nat)
    | Instance(name: Text)  // of a class: not looked inside

  datatype Value = Plain(scalar: Scalar) | Arr(ref: Ref) | Obj(ref: Ref)

  // An object's own enumerable keys, in order, and what is at each.
  datatype Heap = Heap(arrays: map<Ref, seq<Value>>, keys: map<Ref, seq<Text>>, fields: map<Ref, seq<Value>>)

  ghost predicate Has(h: Heap, v: Value) {
    match v
    case Plain(_) => true
    case Arr(r) => r in h.arrays
    case Obj(r) => r in h.keys && r in h.fields
  }

  ghost predicate HasAll(h: Heap, vs: seq<Value>) {
    forall i :: 0 <= i < |vs| ==> Has(h, vs[i])
  }

  ghost predicate Closed(h: Heap) {
    && (forall r :: r in h.arrays ==> HasAll(h, h.arrays[r]))
    && (forall r :: r in h.fields ==> HasAll(h, h.fields[r]) && r in h.keys && |h.keys[r]| == |h.fields[r]|)
  }

  // ---------------------------------------------------------------- the simple form

  datatype Tree = Leaf(scalar: Scalar) | List(items: seq<Tree>) | Record(keys: seq<Text>, values: seq<Tree>)

  ghost predicate Says(h: Heap, v: Value, t: Tree)
    decreases t
  {
    match t
    case Leaf(x) => v == Plain(x)
    case List(items) => v.Arr? && v.ref in h.arrays && SayAll(h, h.arrays[v.ref], items)
    case Record(keys, values) =>
      && v.Obj? && v.ref in h.keys && v.ref in h.fields
      && h.keys[v.ref] == keys && |keys| == |values| && SayAll(h, h.fields[v.ref], values)
  }

  ghost predicate SayAll(h: Heap, vs: seq<Value>, ts: seq<Tree>)
    decreases ts
  {
    |vs| == |ts| && forall i :: 0 <= i < |vs| ==> Says(h, vs[i], ts[i])
  }

  const OPAQUE_SIZE: nat := 16

  function ScalarSize(x: Scalar): nat {
    match x
    case Str(text) => Bytes(text) + 2
    case Number(digits, _) => |digits|
    case BigInt(digits) => |digits|
    case Boolean(b) => if b then 4 else 5
    case Nothing => 4
    case Binary(n) => n
    case Callable => OPAQUE_SIZE
    case Instance(_) => OPAQUE_SIZE
  }

  // Quotes, colon and comma, for each key.
  function KeysSize(keys: seq<Text>): nat {
    if keys == [] then 0 else KeysSize(keys[..|keys| - 1]) + Bytes(keys[|keys| - 1]) + 4
  }

  function Brackets(items: nat): nat { 2 + if items > 0 then items - 1 else 0 }

  function Size(t: Tree): nat {
    match t
    case Leaf(x) => ScalarSize(x)
    case List(items) => Brackets(|items|) + Sizes(items)
    case Record(keys, values) => 2 + KeysSize(keys) + Sizes(values)
  }

  function Sizes(ts: seq<Tree>): nat {
    if ts == [] then 0 else Sizes(ts[..|ts| - 1]) + Size(ts[|ts| - 1])
  }

  lemma {:induction false} SizesAppend(a: seq<Tree>, b: seq<Tree>)
    ensures Sizes(a + b) == Sizes(a) + Sizes(b)
    decreases |b|
  {
    if b == [] {
      assert a + b == a;
    } else {
      SizesAppend(a, b[..|b| - 1]);
      assert (a + b)[..|a + b| - 1] == a + b[..|b| - 1];
    }
  }

  // ---------------------------------------------------------------- the worklist

  function TextUpTo(t: Text, budget: int): nat {
    if |t| > budget then |t| else Bytes(t)
  }

  // The keys of one object, until they pass the budget: what was counted, and how many were taken.
  function KeysUpTo(keys: seq<Text>, total: nat, budget: nat): (r: (nat, nat))
    ensures r.1 <= |keys| && r.0 >= total
    ensures r.0 <= budget ==> r.1 == |keys|
    decreases |keys|
  {
    if keys == [] then (total, 0)
    else
      var more := total + TextUpTo(keys[0], budget - total) + 4;
      if more > budget then (more, 0)
      else
        var rest := KeysUpTo(keys[1..], more, budget);
        (rest.0, rest.1 + 1)
  }

  ghost function Room(total: nat, budget: nat): nat {
    if total <= budget then budget - total + 1 else 0
  }

  // What one pending value counts for itself, and the values it puts in its place.
  function Counted(h: Heap, v: Value, total: nat, budget: nat): (r: (nat, seq<Value>))
    requires Closed(h) && Has(h, v) && total <= budget
    ensures r.0 >= total && HasAll(h, r.1)
    ensures r.1 != [] ==> r.0 > total
  {
    match v
    case Plain(Str(text)) => (total + TextUpTo(text, budget - total) + 2, [])
    case Plain(x) => (total + ScalarSize(x), [])
    case Arr(r) => (total + Brackets(|h.arrays[r]|), h.arrays[r])
    case Obj(r) =>
      var (sum, taken) := KeysUpTo(h.keys[r], total + 2, budget);
      (sum, h.fields[r][..taken])
  }

  // What the loop comes to: the last pending value first, and no further than the budget. It ends on any
  // heap, because a container counts its brackets before what is in it.
  ghost function Measure(h: Heap, pending: seq<Value>, total: nat, budget: nat): (m: nat)
    requires Closed(h) && HasAll(h, pending)
    ensures m >= total
    decreases Room(total, budget), |pending|
  {
    if pending == [] || total > budget then total
    else
      var (sum, more) := Counted(h, pending[|pending| - 1], total, budget);
      Measure(h, pending[..|pending| - 1] + more, sum, budget)
  }

  // ---------------------------------------------------------------- the two agree

  lemma {:induction false} KeysAgree(keys: seq<Text>, total: nat, budget: nat)
    ensures var r := KeysUpTo(keys, total, budget);
            && r.0 <= total + KeysSize(keys)
            && (total + KeysSize(keys) <= budget ==> r.0 == total + KeysSize(keys))
            && (r.0 <= budget ==> r.0 == total + KeysSize(keys))
    decreases |keys|
  {
    if keys != [] {
      KeysFront(keys);
      var more := total + TextUpTo(keys[0], budget - total) + 4;
      KeysAgree(keys[1..], more, budget);
    }
  }

  lemma {:induction false} KeysFront(keys: seq<Text>)
    requires keys != []
    ensures KeysSize(keys) == Bytes(keys[0]) + 4 + KeysSize(keys[1..])
  {
    if |keys| > 1 {
      KeysFront(keys[..|keys| - 1]);
      assert keys[..|keys| - 1][1..] == keys[1..][..|keys| - 2];
    }
  }

  // The parts of a tree, as the values of its root's container.
  function Parts(t: Tree): seq<Tree> {
    match t
    case Leaf(_) => []
    case List(items) => items
    case Record(_, values) => values
  }

  // What one value counts is its size without its parts, or past the budget and no more.
  lemma {:induction false} CountsOwn(h: Heap, v: Value, t: Tree, total: nat, budget: nat)
    requires Closed(h) && Has(h, v) && total <= budget && Says(h, v, t)
    ensures var (sum, more) := Counted(h, v, total, budget);
            && sum + Sizes(Parts(t)) <= total + Size(t)
            && (sum <= budget ==> sum + Sizes(Parts(t)) == total + Size(t) && SayAll(h, more, Parts(t)))
            && (sum > budget ==> total + Size(t) > budget)
  {
    match t {
      case Leaf(x) =>
      case List(items) =>
      case Record(keys, values) =>
        KeysAgree(keys, total + 2, budget);
        var (sum, taken) := KeysUpTo(keys, total + 2, budget);
        if sum <= budget {
          assert h.fields[v.ref][..taken] == h.fields[v.ref];
        }
    }
  }

  lemma {:induction false} SayAppend(h: Heap, a: seq<Value>, b: seq<Value>, s: seq<Tree>, t: seq<Tree>)
    requires SayAll(h, a, s) && SayAll(h, b, t)
    ensures SayAll(h, a + b, s + t)
  {
  }

  // Values that say trees: the count stops at their size, or is past the budget and no more than it.
  lemma {:induction false} MeasuresSize(h: Heap, pending: seq<Value>, trees: seq<Tree>, total: nat, budget: nat)
    requires Closed(h) && HasAll(h, pending) && SayAll(h, pending, trees)
    ensures var m := Measure(h, pending, total, budget);
            var size := total + Sizes(trees);
            if size <= budget then m == size else budget < m <= size
    decreases Room(total, budget), |pending|
  {
    if pending != [] && total <= budget {
      var rest, next := pending[..|pending| - 1], pending[|pending| - 1];
      var left, t := trees[..|trees| - 1], trees[|trees| - 1];
      assert Says(h, next, t);
      CountsOwn(h, next, t, total, budget);
      var (sum, more) := Counted(h, next, total, budget);
      if sum <= budget {
        SayAppend(h, rest, more, left, Parts(t));
        SizesAppend(left, Parts(t));
        MeasuresSize(h, rest + more, left + Parts(t), sum, budget);
      }
    }
  }

  // A value whose parts say trees says one.
  lemma {:induction false} SaysOne(h: Heap, v: Value, parts: seq<Tree>, total: nat, budget: nat) returns (t: Tree)
    requires Closed(h) && Has(h, v) && total <= budget
    requires var (sum, more) := Counted(h, v, total, budget); sum <= budget && SayAll(h, more, parts)
    ensures Says(h, v, t) && Counted(h, v, total, budget).0 + Sizes(parts) == total + Size(t)
  {
    match v {
      case Plain(x) => t := Leaf(x);
      case Arr(r) => t := List(parts);
      case Obj(r) =>
        KeysAgree(h.keys[r], total + 2, budget);
        var (sum, taken) := KeysUpTo(h.keys[r], total + 2, budget);
        assert h.fields[r][..taken] == h.fields[r];
        t := Record(h.keys[r], parts);
    }
  }

  // A count that ends within the budget counted everything: the values say trees, of that size.
  lemma {:induction false} MeasuredIsTree(h: Heap, pending: seq<Value>, total: nat, budget: nat) returns (trees: seq<Tree>)
    requires Closed(h) && HasAll(h, pending) && Measure(h, pending, total, budget) <= budget
    ensures SayAll(h, pending, trees) && Measure(h, pending, total, budget) == total + Sizes(trees)
    decreases Room(total, budget), |pending|
  {
    if pending == [] {
      trees := [];
    } else {
      var rest, next := pending[..|pending| - 1], pending[|pending| - 1];
      var (sum, more) := Counted(h, next, total, budget);
      var all := MeasuredIsTree(h, rest + more, sum, budget);
      trees := WithTheLast(h, rest, next, all, total, budget);
      assert pending == rest + [next];
    }
  }

  lemma {:induction false} WithTheLast(h: Heap, rest: seq<Value>, next: Value, all: seq<Tree>, total: nat, budget: nat) returns (trees: seq<Tree>)
    requires Closed(h) && Has(h, next) && total <= budget
    requires var (sum, more) := Counted(h, next, total, budget); sum <= budget && SayAll(h, rest + more, all)
    ensures SayAll(h, rest + [next], trees) && total + Sizes(trees) == Counted(h, next, total, budget).0 + Sizes(all)
  {
    Parted(h, rest, Counted(h, next, total, budget).1, all);
    var t := SaysOne(h, next, all[|rest|..], total, budget);
    trees := all[..|rest|] + [t];
    OneMoreSays(h, rest, next, all[..|rest|], t);
  }

  lemma OneMoreSays(h: Heap, rest: seq<Value>, next: Value, trees: seq<Tree>, t: Tree)
    requires SayAll(h, rest, trees) && Says(h, next, t)
    ensures SayAll(h, rest + [next], trees + [t]) && Sizes(trees + [t]) == Sizes(trees) + Size(t)
  {
    assert (trees + [t])[..|trees|] == trees;
  }

  lemma {:induction false} Parted(h: Heap, a: seq<Value>, b: seq<Value>, trees: seq<Tree>)
    requires SayAll(h, a + b, trees)
    ensures |trees| == |a| + |b| && SayAll(h, a, trees[..|a|]) && SayAll(h, b, trees[|a|..])
    ensures Sizes(trees) == Sizes(trees[..|a|]) + Sizes(trees[|a|..])
  {
    assert trees == trees[..|a|] + trees[|a|..];
    SizesAppend(trees[..|a|], trees[|a|..]);
    forall i | 0 <= i < |a| ensures Says(h, a[i], trees[i]) {
      assert (a + b)[i] == a[i];
    }
    forall i | 0 <= i < |b| ensures Says(h, b[i], trees[|a| + i]) {
      assert (a + b)[|a| + i] == b[i];
    }
  }

  ghost function MeasureOne(h: Heap, v: Value, budget: nat): nat
    requires Closed(h) && Has(h, v)
  {
    Measure(h, [v], 0, budget)
  }

  // Counted against a budget, a value is past it unless it says a tree no larger; within it, the count is
  // the size. A value that leads back to itself says no tree, and is past every budget.
  lemma {:induction false} WithinBudget(h: Heap, v: Value, budget: nat)
    requires Closed(h) && Has(h, v)
    ensures MeasureOne(h, v, budget) <= budget <==> exists t :: Says(h, v, t) && Size(t) <= budget
    ensures forall t :: Says(h, v, t) ==>
                          if Size(t) <= budget then MeasureOne(h, v, budget) == Size(t)
                          else budget < MeasureOne(h, v, budget) <= Size(t)
  {
    if MeasureOne(h, v, budget) <= budget {
      var trees := MeasuredIsTree(h, [v], 0, budget);
      assert Says(h, [v][0], trees[0]);
      assert trees == [trees[0]] && Sizes([]) == 0 && trees[..0] == [];
      assert Size(trees[0]) <= budget;
    }
    forall t | Says(h, v, t)
      ensures if Size(t) <= budget then MeasureOne(h, v, budget) == Size(t)
              else budget < MeasureOne(h, v, budget) <= Size(t)
    {
      MeasuresSize(h, [v], [t], 0, budget);
      assert [t][..0] == [];
    }
  }

  // A list in itself says no tree, and whatever the budget, counting it ends past it.
  lemma {:induction false} InItself(h: Heap, r: Ref, budget: nat)
    requires Closed(h) && r in h.arrays && Arr(r) in h.arrays[r]
    ensures MeasureOne(h, Arr(r), budget) > budget
  {
    forall t ensures !Says(h, Arr(r), t) {
      NoTree(h, r, t);
    }
    WithinBudget(h, Arr(r), budget);
  }

  lemma {:induction false} NoTree(h: Heap, r: Ref, t: Tree)
    requires r in h.arrays && Arr(r) in h.arrays[r]
    ensures !Says(h, Arr(r), t)
  {
    if Says(h, Arr(r), t) {
      assert t.List? && SayAll(h, h.arrays[r], t.items);
      var i :| 0 <= i < |h.arrays[r]| && h.arrays[r][i] == Arr(r);
      NoTree(h, r, t.items[i]);
    }
  }

  // ---------------------------------------------------------------- the loop itself

  method SizeUpTo(h: Heap, value: Value, budget: nat) returns (total: nat)
    requires Closed(h) && Has(h, value)
    ensures total == MeasureOne(h, value, budget)
    ensures total <= budget <==> exists t :: Says(h, value, t) && Size(t) <= budget
    ensures forall t :: Says(h, value, t) ==> if Size(t) <= budget then total == Size(t) else budget < total <= Size(t)
  {
    total := 0;
    var pending := [value];
    while |pending| > 0 && total <= budget
      invariant HasAll(h, pending)
      invariant Measure(h, pending, total, budget) == MeasureOne(h, value, budget)
      decreases Room(total, budget), |pending|
    {
      var next := pending[|pending| - 1];
      pending := pending[..|pending| - 1];
      total, pending := Count(h, next, pending, total, budget);
    }
    WithinBudget(h, value, budget);
  }

  method Count(h: Heap, next: Value, pending: seq<Value>, total: nat, budget: nat) returns (sum: nat, more: seq<Value>)
    requires Closed(h) && Has(h, next) && total <= budget
    ensures sum == Counted(h, next, total, budget).0
    ensures sum <= budget || next.Obj? ==> more == pending + Counted(h, next, total, budget).1
    ensures sum > budget && !next.Obj? ==> more == pending
  {
    sum, more := total, pending;
    match next {
      case Plain(Str(text)) =>
        var n := BytesUpTo(text, budget - sum);
        sum := sum + n + 2;
      case Plain(Number(digits, _)) => sum := sum + |digits|;
      case Plain(BigInt(digits)) => sum := sum + |digits|;
      case Plain(Boolean(b)) => sum := sum + if b then 4 else 5;
      case Plain(Nothing) => sum := sum + 4;
      case Plain(Binary(n)) => sum := sum + n;
      case Plain(_) => sum := sum + OPAQUE_SIZE;
      case Arr(r) =>
        sum := sum + 2 + if |h.arrays[r]| > 0 then |h.arrays[r]| - 1 else 0;
        if sum <= budget {
          more := more + h.arrays[r];
        }
      case Obj(r) => sum, more := TakeKeys(h, r, pending, total + 2, budget);
    }
  }

  method TakeKeys(h: Heap, r: Ref, pending: seq<Value>, total: nat, budget: nat) returns (sum: nat, more: seq<Value>)
    requires Closed(h) && r in h.fields
    ensures var (s, taken) := KeysUpTo(h.keys[r], total, budget); sum == s && more == pending + h.fields[r][..taken]
  {
    sum, more := total, pending;
    var keys := h.keys[r];
    var i := 0;
    while i < |keys|
      invariant i <= |keys| && more == pending + h.fields[r][..i]
      invariant var (s, taken) := KeysUpTo(keys[i..], sum, budget); KeysUpTo(keys, total, budget) == (s, taken + i)
    {
      assert keys[i..][0] == keys[i] && keys[i..][1..] == keys[i + 1..];
      var n := BytesUpTo(keys[i], budget - sum);
      sum := sum + n + 4;
      if sum > budget {
        break;
      }
      more := more + [h.fields[r][i]];
      i := i + 1;
    }
  }
}
