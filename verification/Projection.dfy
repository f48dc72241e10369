/**
  Projecting what a service says onto the paths a facade reads (`pick` of
  src/coordinator/facadeAccess.ts), over an explicit heap: the result shares objects with the payload, so
  writing into it can write into the payload.

  A path is the keys a dotted path is split into; the path "" is [""].
 */
module Projection {

  type Loc = nat
  type Path = seq<string>

  datatype Value = Undefined | Plain(text: string) | Ref(loc: Loc)
  datatype Object = Object(isArray: bool, own: map<string, Value>)
  datatype Heap = Heap(objects: map<Loc, Object>, next: Loc)

  const MACHINERY: set<string> := {"__proto__", "constructor", "prototype"}

  predicate IsPlainPath(path: Path) {
    forall i :: 0 <= i < |path| ==> path[i] !in MACHINERY
  }

  // Every object a value or a property names is there.
  predicate Has(h: Heap, v: Value) {
    v.Ref? ==> v.loc in h.objects
  }

  ghost predicate Closed(h: Heap) {
    && (forall l :: l in h.objects ==> l < h.next)
    && (forall l, k :: l in h.objects && k in h.objects[l].own ==> Has(h, h.objects[l].own[k]))
  }

  predicate IsRecord(h: Heap, v: Value) {
    v.Ref? && v.loc in h.objects && !h.objects[v.loc].isArray
  }

  predicate IsArray(h: Heap, v: Value) {
    v.Ref? && v.loc in h.objects && h.objects[v.loc].isArray
  }

  // ---------------------------------------------------------------- reading and writing

  function Read(h: Heap, v: Value, path: Path): Value
    decreases |path|
  {
    if path == [] then v
    else if !(IsRecord(h, v) || IsArray(h, v)) then Undefined
    else if path[0] in MACHINERY || path[0] !in h.objects[v.loc].own then Undefined
    else Read(h, h.objects[v.loc].own[path[0]], path[1..])
  }

  function Set(h: Heap, l: Loc, key: string, v: Value): Heap
    requires l in h.objects
  {
    h.(objects := h.objects[l := h.objects[l].(own := h.objects[l].own[key := v])])
  }

  // A new object without a prototype, and nothing in it.
  function Make(h: Heap): Heap {
    Heap(h.objects[h.next := Object(false, map[])], h.next + 1)
  }

  // Sets `path` below the object at `l`, making what leads to it where that is not a record.
  function Write(h: Heap, l: Loc, path: Path, v: Value): Heap
    requires l in h.objects && path != []
    decreases |path|
  {
    var key := path[0];
    if |path| == 1 then Set(h, l, key, v)
    else
      var own := h.objects[l].own;
      if key in own && IsRecord(h, own[key]) then Write(h, own[key].loc, path[1..], v)
      else Write(Set(Make(h), l, key, Ref(h.next)), h.next, path[1..], v)
  }

  function WritePath(h: Heap, l: Loc, path: Path, v: Value): Heap
    requires l in h.objects && path != []
  {
    if IsPlainPath(path) then Write(h, l, path, v) else h
  }

  lemma {:induction false} WriteExtends(h: Heap, l: Loc, path: Path, v: Value)
    requires l in h.objects && path != []
    ensures forall k :: k in h.objects ==> k in Write(h, l, path, v).objects
    ensures Write(h, l, path, v).next >= h.next
    decreases |path|
  {
    if |path| > 1 {
      var key, own := path[0], h.objects[l].own;
      if key in own && IsRecord(h, own[key]) {
        WriteExtends(h, own[key].loc, path[1..], v);
      } else {
        WriteExtends(Set(Make(h), l, key, Ref(h.next)), h.next, path[1..], v);
      }
    }
  }

  const NOWHERE: Path := [""]

  // One path of the loop of pick.
  function PickOne(h: Heap, root: Loc, v: Value, path: Path): Heap
    requires root in h.objects && path != []
  {
    if path == NOWHERE || Read(h, v, path).Undefined? then h else WritePath(h, root, path, Read(h, v, path))
  }

  // What pick makes of its paths, in the order it is given them; `root` is the object it returns.
  function PickAll(h: Heap, root: Loc, v: Value, paths: seq<Path>): (r: Heap)
    requires root in h.objects && forall p :: p in paths ==> p != []
    ensures root in r.objects
  {
    if paths == [] then h
    else
      var init, last := paths[..|paths| - 1], paths[|paths| - 1];
      assert last in paths && forall p :: p in init ==> p in paths;
      var before := PickAll(h, root, v, init);
      if last != NOWHERE && !Read(before, v, last).Undefined? && IsPlainPath(last) then
        WriteExtends(before, root, last, Read(before, v, last));
        PickOne(before, root, v, last)
      else PickOne(before, root, v, last)
  }

  function Pick(h: Heap, v: Value, paths: seq<Path>): Heap
    requires forall p :: p in paths ==> p != []
  {
    PickAll(Make(h), h.next, v, paths)
  }

  // ---------------------------------------------------------------- the promise

  // What was projected and is there to be read.
  ghost predicate Found(h: Heap, v: Value, path: Path) {
    path != NOWHERE && path != [] && !Read(h, v, path).Undefined?
  }

  // The payload is as it was, and each path reads in the projection as it did in the payload.
  ghost predicate Kept(h: Heap, v: Value, paths: seq<Path>)
    requires forall p :: p in paths ==> p != []
  {
    var r := Pick(h, v, paths);
    && Untouched(h, r)
    && (forall p :: p in paths && p != NOWHERE ==> Read(r, Ref(h.next), p) == Read(h, v, p))
  }

  // A path that goes on from another one goes on through records only, as far as both are found.
  ghost predicate ThroughRecords(h: Heap, v: Value, p: Path, q: Path) {
    Found(h, v, p) && Found(h, v, q) && p < q ==>
      forall i :: |p| <= i < |q| ==> IsRecord(h, Read(h, v, q[..i]))
  }

  ghost predicate NoArrayBetween(h: Heap, v: Value, among: iset<Path>) {
    forall p, q :: p in among && q in among ==> ThroughRecords(h, v, p, q)
  }

  // ---------------------------------------------------------------- reading

  lemma {:induction false} ReadSplit(h: Heap, v: Value, p: Path, q: Path)
    ensures Read(h, v, p + q) == if Read(h, v, p).Undefined? && p != [] then Undefined else Read(h, Read(h, v, p), q)
    decreases |p|
  {
    if p == [] {
      assert p + q == q;
    } else {
      assert (p + q)[1..] == p[1..] + q;
      if (IsRecord(h, v) || IsArray(h, v)) && p[0] !in MACHINERY && p[0] in h.objects[v.loc].own {
        ReadSplit(h, h.objects[v.loc].own[p[0]], p[1..], q);
      }
    }
  }

  // Reading goes only through objects that are there; in a larger heap it reads the same.
  lemma {:induction false} ReadSame(h: Heap, r: Heap, v: Value, path: Path)
    requires Closed(h) && Has(h, v)
    requires forall l :: l in h.objects ==> l in r.objects && r.objects[l] == h.objects[l]
    ensures Read(r, v, path) == Read(h, v, path) && Has(h, Read(h, v, path))
    decreases |path|
  {
    if path != [] && (IsRecord(h, v) || IsArray(h, v)) && path[0] !in MACHINERY && path[0] in h.objects[v.loc].own {
      ReadSame(h, r, h.objects[v.loc].own[path[0]], path[1..]);
    }
  }

  lemma {:induction false} ReadPlain(h: Heap, v: Value, path: Path)
    requires !Read(h, v, path).Undefined?
    ensures IsPlainPath(path)
    decreases |path|
  {
    if path != [] {
      ReadPlain(h, h.objects[v.loc].own[path[0]], path[1..]);
      assert path == [path[0]] + path[1..];
    }
  }

  // ---------------------------------------------------------------- what pick has built

  // The objects pick made, by where they are in the result, and the payload values it put into them.
  datatype Built = Built(nodes: map<Path, Loc>, put: map<Path, Value>)

  ghost predicate NodeOk(h: Heap, base: Loc, b: Built, p: Path) {
    p in b.nodes ==>
      && b.nodes[p] in h.objects && b.nodes[p] >= base && !h.objects[b.nodes[p]].isArray
      && (p != [] ==> p[..|p| - 1] in b.nodes)
      && p !in b.put
  }

  ghost predicate SlotOk(h: Heap, b: Built, p: Path, k: string) {
    p in b.nodes && b.nodes[p] in h.objects ==>
      && (k in h.objects[b.nodes[p]].own <==> p + [k] in b.nodes || p + [k] in b.put)
      && (p + [k] in b.nodes ==> k in h.objects[b.nodes[p]].own && h.objects[b.nodes[p]].own[k] == Ref(b.nodes[p + [k]]))
      && (p + [k] in b.put ==> k in h.objects[b.nodes[p]].own && h.objects[b.nodes[p]].own[k] == b.put[p + [k]])
  }

  ghost predicate PutOk(base: Loc, b: Built, p: Path) {
    p in b.put ==>
      p != [] && p[..|p| - 1] in b.nodes && !b.put[p].Undefined? && (b.put[p].Ref? ==> b.put[p].loc < base)
  }

  ghost predicate Apart(b: Built, p: Path, q: Path) {
    p in b.nodes && q in b.nodes && p != q ==> b.nodes[p] != b.nodes[q]
  }

  ghost predicate BuiltOk(h: Heap, base: Loc, b: Built) {
    && [] in b.nodes
    && (forall l :: l in h.objects ==> l < h.next)
    && (forall p: Path :: NodeOk(h, base, b, p))
    && (forall p: Path, k: string :: SlotOk(h, b, p, k))
    && (forall p: Path :: PutOk(base, b, p))
    && (forall p: Path, q: Path :: Apart(b, p, q))
  }

  // What a path reads below a place in what was built.
  ghost function Shown(h: Heap, b: Built, p: Path, rest: Path): Value
    requires p in b.nodes
    decreases |rest|
  {
    if rest == [] then Ref(b.nodes[p])
    else if rest[0] in MACHINERY then Undefined
    else if p + [rest[0]] in b.nodes then Shown(h, b, p + [rest[0]], rest[1..])
    else if p + [rest[0]] in b.put then Read(h, b.put[p + [rest[0]]], rest[1..])
    else Undefined
  }

  lemma {:induction false} ReadsShown(h: Heap, base: Loc, b: Built, p: Path, rest: Path)
    requires BuiltOk(h, base, b) && p in b.nodes
    ensures Read(h, Ref(b.nodes[p]), rest) == Shown(h, b, p, rest)
    decreases |rest|
  {
    assert NodeOk(h, base, b, p);
    if rest != [] {
      assert SlotOk(h, b, p, rest[0]);
      if rest[0] !in MACHINERY && p + [rest[0]] in b.nodes {
        ReadsShown(h, base, b, p + [rest[0]], rest[1..]);
      }
    }
  }

  // What is left of what was built when a value is put at `q`: nothing at or below it.
  ghost function Placed(b: Built, q: Path, v: Value): Built {
    Built(map x | x in b.nodes && !(q <= x) :: b.nodes[x],
          (map x | x in b.put && !(q <= x) :: b.put[x])[q := v])
  }

  lemma PrefixOfLonger(q: Path, x: Path, j: string)
    ensures q <= x + [j] <==> q <= x || q == x + [j]
  {
    if q <= x + [j] && |q| <= |x| {
      assert (x + [j])[..|q|] == x[..|q|];
    }
  }

  lemma {:induction false} SetBuilds(h: Heap, base: Loc, b: Built, p: Path, k: string, v: Value)
    requires BuiltOk(h, base, b) && p in b.nodes
    requires !v.Undefined? && (v.Ref? ==> v.loc < base)
    ensures b.nodes[p] in h.objects && b.nodes[p] >= base
    ensures BuiltOk(Set(h, b.nodes[p], k, v), base, Placed(b, p + [k], v))
  {
    assert NodeOk(h, base, b, p);
    var r, q, c := Set(h, b.nodes[p], k, v), p + [k], Placed(b, p + [k], v);
    assert q[..|q| - 1] == p;
    forall x: Path ensures NodeOk(r, base, c, x) {
      assert NodeOk(h, base, b, x);
      if x in c.nodes && x != [] {
        PrefixOfLonger(q, x[..|x| - 1], x[|x| - 1]);
        assert x == x[..|x| - 1] + [x[|x| - 1]];
      }
    }
    forall x: Path ensures PutOk(base, c, x) {
      assert PutOk(base, b, x);
      if x in c.put && x != [] && x != q {
        PrefixOfLonger(q, x[..|x| - 1], x[|x| - 1]);
        assert x == x[..|x| - 1] + [x[|x| - 1]];
      }
    }
    forall x: Path, j: string ensures SlotOk(r, c, x, j) {
      assert SlotOk(h, b, x, j) && Apart(b, x, p);
      PrefixOfLonger(q, x, j);
      if x + [j] == q {
        assert x == (x + [j])[..|x|] == p && j == (x + [j])[|x|] == k;
      }
    }
    forall x: Path, y: Path ensures Apart(c, x, y) { assert Apart(b, x, y); }
  }

  lemma {:induction false} MakeSlot(h: Heap, base: Loc, b: Built, p: Path, k: string, x: Path, j: string)
    requires BuiltOk(h, base, b) && p in b.nodes && base <= h.next && b.nodes[p] in h.objects
    requires p + [k] !in b.nodes && p + [k] !in b.put
    ensures SlotOk(Set(Make(h), b.nodes[p], k, Ref(h.next)), Built(b.nodes[p + [k] := h.next], b.put), x, j)
  {
    assert SlotOk(h, b, x, j) && Apart(b, x, p) && NodeOk(h, base, b, x);
    if x == p + [k] {
      assert (x + [j])[..|x + [j]| - 1] == x;
      assert NodeOk(h, base, b, x + [j]) && PutOk(base, b, x + [j]);
    } else if x + [j] == p + [k] {
      assert x == (x + [j])[..|x|] == p && j == (x + [j])[|x|] == k;
    }
  }

  lemma {:induction false} MakeApart(h: Heap, base: Loc, b: Built, q: Path, x: Path, y: Path)
    requires BuiltOk(h, base, b)
    ensures Apart(Built(b.nodes[q := h.next], b.put), x, y)
  {
    assert Apart(b, x, y) && NodeOk(h, base, b, x) && NodeOk(h, base, b, y);
  }

  lemma {:induction false} MakeNode(h: Heap, base: Loc, b: Built, p: Path, k: string, x: Path)
    requires BuiltOk(h, base, b) && p in b.nodes && base <= h.next && b.nodes[p] in h.objects
    requires p + [k] !in b.nodes && p + [k] !in b.put
    ensures NodeOk(Set(Make(h), b.nodes[p], k, Ref(h.next)), base, Built(b.nodes[p + [k] := h.next], b.put), x)
    ensures PutOk(base, Built(b.nodes[p + [k] := h.next], b.put), x)
  {
    assert (p + [k])[..|p + [k]| - 1] == p;
    assert NodeOk(h, base, b, x) && PutOk(base, b, x) && NodeOk(h, base, b, p);
  }

  // A new object at `p + [k]`, where there was nothing.
  lemma {:induction false} MakeBuilds(h: Heap, base: Loc, b: Built, p: Path, k: string)
    requires BuiltOk(h, base, b) && p in b.nodes && base <= h.next
    requires p + [k] !in b.nodes && p + [k] !in b.put
    ensures b.nodes[p] in h.objects
    ensures BuiltOk(Set(Make(h), b.nodes[p], k, Ref(h.next)), base, Built(b.nodes[p + [k] := h.next], b.put))
  {
    assert NodeOk(h, base, b, p);
    var r, c := Set(Make(h), b.nodes[p], k, Ref(h.next)), Built(b.nodes[p + [k] := h.next], b.put);
    forall x: Path ensures NodeOk(r, base, c, x) && PutOk(base, c, x) { MakeNode(h, base, b, p, k, x); }
    forall x: Path, j: string ensures SlotOk(r, c, x, j) { MakeSlot(h, base, b, p, k, x, j); }
    forall x: Path, y: Path ensures Apart(c, x, y) { MakeApart(h, base, b, p + [k], x, y); }
  }

  ghost predicate Same(h: Heap, r: Heap, base: Loc) {
    forall l :: l in h.objects && l < base ==> l in r.objects && r.objects[l] == h.objects[l]
  }

  // Writing where nothing of the payload was put on the way changes only what pick built.
  lemma {:induction false} WriteBuilds(h: Heap, base: Loc, b: Built, p: Path, rest: Path, v: Value) returns (c: Built)
    requires BuiltOk(h, base, b) && p in b.nodes && base <= h.next && rest != []
    requires !v.Undefined? && (v.Ref? ==> v.loc < base)
    requires forall i :: 0 < i < |rest| ==> p + rest[..i] !in b.put
    ensures b.nodes[p] in h.objects
    ensures BuiltOk(Write(h, b.nodes[p], rest, v), base, c) && Same(h, Write(h, b.nodes[p], rest, v), base)
    ensures base <= Write(h, b.nodes[p], rest, v).next
    ensures p + rest in c.put && c.put[p + rest] == v
    ensures forall x :: x in c.put && x != p + rest ==> x in b.put && c.put[x] == b.put[x]
    ensures forall x :: x in b.put && !(p + rest <= x) ==> x in c.put
    ensures forall x :: x in c.nodes ==> x in b.nodes || x < p + rest
    ensures [] in c.nodes && (b.nodes[[]] == c.nodes[[]])
    decreases |rest|
  {
    assert NodeOk(h, base, b, p);
    var k, l := rest[0], b.nodes[p];
    if |rest| == 1 {
      assert rest == [k];
      SetBuilds(h, base, b, p, k, v);
      c := Placed(b, p + [k], v);
    } else {
      assert rest[..1] == [k];
      var q := p + [k];
      assert q + rest[1..] == p + rest;
      assert q !in b.put;
      assert SlotOk(h, b, p, k);
      forall i | 0 < i < |rest[1..]| ensures q + rest[1..][..i] !in b.put {
        assert q + rest[1..][..i] == p + rest[..i + 1];
      }
      if q in b.nodes {
        assert NodeOk(h, base, b, q);
        c := WriteBuilds(h, base, b, q, rest[1..], v);
      } else {
        MakeBuilds(h, base, b, p, k);
        var h1, b1 := Set(Make(h), l, k, Ref(h.next)), Built(b.nodes[q := h.next], b.put);
        c := WriteBuilds(h1, base, b1, q, rest[1..], v);
        assert q < p + rest;
        assert Same(h, h1, base);
      }
    }
  }

  // ---------------------------------------------------------------- the promise kept

  lemma {:induction false} NodesAbove(h: Heap, base: Loc, b: Built, x: Path, i: nat)
    requires BuiltOk(h, base, b) && (x in b.nodes || x in b.put) && i < |x|
    ensures x[..i] in b.nodes
    decreases |x|
  {
    assert NodeOk(h, base, b, x) && PutOk(base, b, x);
    if i < |x| - 1 {
      NodesAbove(h, base, b, x[..|x| - 1], i);
      assert x[..|x| - 1][..i] == x[..i];
    }
  }

  lemma {:induction false} ShownBelow(h: Heap, base: Loc, b: Built, p: Path, x: Path, rest: Path)
    requires BuiltOk(h, base, b) && p in b.nodes && IsPlainPath(x)
    requires p + x in b.nodes || (p + x in b.put && x != [])
    ensures p + x in b.nodes ==> Shown(h, b, p, x + rest) == Shown(h, b, p + x, rest)
    ensures p + x in b.put ==> Shown(h, b, p, x + rest) == Read(h, b.put[p + x], rest)
    decreases |x|
  {
    assert NodeOk(h, base, b, p + x);
    if x == [] {
      assert p + x == p && x + rest == rest;
    } else {
      assert (x + rest)[0] == x[0] && (x + rest)[1..] == x[1..] + rest;
      assert p + [x[0]] + x[1..] == p + x;
      if |x| == 1 {
        assert p + [x[0]] == p + x && x[1..] + rest == rest;
      } else {
        NodesAbove(h, base, b, p + x, |p| + 1);
        assert (p + x)[..|p| + 1] == p + [x[0]];
        assert NodeOk(h, base, b, p + [x[0]]);
        ShownBelow(h, base, b, p + [x[0]], x[1..], rest);
      }
    }
  }

  lemma {:induction false} ShownOnlyBuilt(h: Heap, b: Built, p: Path, rest: Path) returns (x: Path)
    requires p in b.nodes && !Shown(h, b, p, rest).Undefined?
    ensures (x in b.put && x <= p + rest) || (x in b.nodes && x == p + rest)
    decreases |rest|
  {
    if rest == [] {
      x := p;
      assert p + rest == p;
    } else {
      var q := p + [rest[0]];
      assert q + rest[1..] == p + rest;
      if q in b.nodes {
        x := ShownOnlyBuilt(h, b, q, rest[1..]);
      } else {
        x := q;
        assert q <= q + rest[1..];
      }
    }
  }

  lemma {:induction false} ReadOne(h: Heap, l: Loc, path: Path)
    requires path != [] && IsRecord(h, Read(h, Ref(l), path[..1]))
    ensures l in h.objects && path[0] in h.objects[l].own && path[0] !in MACHINERY
    ensures Read(h, Ref(l), path[..1]) == h.objects[l].own[path[0]]
  {
    assert path[..1] == [path[0]] && [path[0]][1..] == [];
    if l in h.objects && path[0] !in MACHINERY && path[0] in h.objects[l].own {
      assert Read(h, h.objects[l].own[path[0]], []) == h.objects[l].own[path[0]];
    }
  }

  // Writing what is there already, through records, changes nothing.
  lemma {:induction false} WriteSame(h: Heap, l: Loc, path: Path, v: Value)
    requires l in h.objects && !h.objects[l].isArray && path != [] && !v.Undefined? && Read(h, Ref(l), path) == v
    requires forall i :: 0 < i < |path| ==> IsRecord(h, Read(h, Ref(l), path[..i]))
    ensures Write(h, l, path, v) == h
    decreases |path|
  {
    var k := path[0];
    if |path| == 1 {
      assert path[1..] == [] && h.objects[l].own[k] == v;
      assert h.objects[l].own[k := v] == h.objects[l].own;
    } else {
      assert IsRecord(h, Read(h, Ref(l), path[..1]));
      ReadOne(h, l, path);
      var n := h.objects[l].own[k];
      assert n == Ref(n.loc) && Read(h, n, path[1..]) == v;
      forall i | 0 < i < |path[1..]| ensures IsRecord(h, Read(h, n, path[1..][..i])) {
        assert path[..i + 1][1..] == path[1..][..i] && IsRecord(h, Read(h, Ref(l), path[..i + 1]));
      }
      WriteSame(h, n.loc, path[1..], v);
    }
  }

  ghost function Members(paths: seq<Path>): iset<Path> {
    iset p | p in paths
  }

  ghost predicate Untouched(h: Heap, r: Heap) {
    forall l :: l in h.objects ==> l in r.objects && r.objects[l] == h.objects[l]
  }

  // A value put came from the payload, at one of the paths.
  ghost predicate PutFrom(h: Heap, v: Value, paths: seq<Path>, b: Built, x: Path) {
    x in b.put ==> x in paths && Found(h, v, x) && b.put[x] == Read(h, v, x)
  }

  ghost predicate Covered(h: Heap, v: Value, b: Built, p: Path) {
    Found(h, v, p) ==> exists x :: x in b.put && x <= p
  }

  ghost predicate LeadsTo(h: Heap, v: Value, paths: seq<Path>, b: Built, x: Path) {
    x in b.nodes && x != [] ==> exists p :: p in paths && Found(h, v, p) && x < p
  }

  // What pick builds of paths that go through records only.
  ghost predicate Projects(h: Heap, v: Value, paths: seq<Path>, r: Heap, b: Built) {
    && BuiltOk(r, h.next, b) && h.next <= r.next && b.nodes[[]] == h.next
    && Untouched(h, r)
    && (forall x: Path :: PutFrom(h, v, paths, b, x))
    && (forall p: Path :: p in paths ==> Covered(h, v, b, p))
    && (forall x: Path :: LeadsTo(h, v, paths, b, x))
  }

  lemma {:induction false} PickEmpty(h: Heap, v: Value)
    requires Closed(h)
    ensures Projects(h, v, [], Make(h), Built(map[[] := h.next], map[]))
  {
    var r, b := Make(h), Built(map[[] := h.next], map[]);
    forall p: Path ensures NodeOk(r, h.next, b, p) && PutOk(h.next, b, p) {}
    forall p: Path, k: string ensures SlotOk(r, b, p, k) {}
    forall p: Path, q: Path ensures Apart(b, p, q) {}
  }

  // A path nothing is found at leaves what was built as it was.
  lemma {:induction false} PickNothing(h: Heap, v: Value, paths: seq<Path>, r: Heap, b: Built, q: Path)
    requires Projects(h, v, paths, r, b) && !Found(h, v, q)
    ensures Projects(h, v, paths + [q], r, b)
  {
    forall x: Path ensures PutFrom(h, v, paths + [q], b, x) && LeadsTo(h, v, paths + [q], b, x) {
      assert PutFrom(h, v, paths, b, x) && LeadsTo(h, v, paths, b, x);
      if x in b.nodes && x != [] {
        var p :| p in paths && Found(h, v, p) && x < p;
        assert p in paths + [q];
      }
    }
    forall p: Path | p in paths + [q] ensures Covered(h, v, b, p) {
      if p in paths { assert Covered(h, v, b, p); }
    }
  }

  lemma {:induction false} PickBuilds(h: Heap, v: Value, paths: seq<Path>) returns (b: Built)
    requires Closed(h) && Has(h, v) && (forall p :: p in paths ==> p != [])
    requires NoArrayBetween(h, v, Members(paths))
    ensures Projects(h, v, paths, Pick(h, v, paths), b)
    decreases |paths|
  {
    if paths == [] {
      PickEmpty(h, v);
      b := Built(map[[] := h.next], map[]);
    } else {
      var init, q := paths[..|paths| - 1], paths[|paths| - 1];
      assert q in paths && forall p :: p in init ==> p in paths;
      assert paths == init + [q];
      assert forall p, u :: p in Members(init) && u in Members(init) ==> p in Members(paths) && u in Members(paths);
      var so := PickBuilds(h, v, init);
      var before := Pick(h, v, init);
      ReadSame(h, before, v, q);
      assert Pick(h, v, paths) == PickOne(before, h.next, v, q);
      if Found(h, v, q) {
        ReadPlain(before, v, q);
        forall p | p in init ensures ThroughRecords(h, v, p, q) {
          assert p in Members(paths) && q in Members(paths);
        }
        b := PickFound(h, v, init, before, so, q);
      } else {
        PickNothing(h, v, init, before, so, q);
        b := so;
      }
    }
  }

  lemma {:induction false} PickFound(h: Heap, v: Value, paths: seq<Path>, r: Heap, b: Built, q: Path) returns (c: Built)
    requires Closed(h) && Has(h, v) && Projects(h, v, paths, r, b)
    requires Found(h, v, q) && IsPlainPath(q)
    requires forall p :: p in paths ==> ThroughRecords(h, v, p, q)
    ensures h.next in r.objects && Projects(h, v, paths + [q], Write(r, h.next, q, Read(h, v, q)), c)
  {
    assert NodeOk(r, h.next, b, []);
    ReadSame(h, r, v, q);
    if x :| x in b.put && x < q {
      assert PutFrom(h, v, paths, b, x);
      WriteOnAlias(h, v, paths, r, b, x, q);
      c := b;
      PickCovered(h, v, paths, r, b, q);
    } else {
      assert [] + q == q;
      forall i | 0 < i < |q| ensures [] + q[..i] !in b.put {
        assert [] + q[..i] == q[..i] && q[..i] < q;
      }
      c := WriteBuilds(r, h.next, b, [], q, Read(h, v, q));
      PickPut(h, v, paths, r, b, q, Write(r, h.next, q, Read(h, v, q)), c);
    }
  }

  // A path that is there already, below a value that was put.
  lemma {:induction false} PickCovered(h: Heap, v: Value, paths: seq<Path>, r: Heap, b: Built, q: Path)
    requires Projects(h, v, paths, r, b) && exists x :: x in b.put && x < q
    ensures Projects(h, v, paths + [q], r, b)
  {
    var x :| x in b.put && x < q;
    assert x <= q;
    forall y: Path ensures PutFrom(h, v, paths + [q], b, y) && LeadsTo(h, v, paths + [q], b, y) {
      assert PutFrom(h, v, paths, b, y) && LeadsTo(h, v, paths, b, y);
      if y in b.nodes && y != [] {
        var p :| p in paths && Found(h, v, p) && y < p;
        assert p in paths + [q];
      }
    }
    forall p: Path | p in paths + [q] ensures Covered(h, v, b, p) {
      if p in paths { assert Covered(h, v, b, p); }
    }
  }

  // A path that was put where nothing of the payload was on the way.
  lemma {:induction false} PickPut(h: Heap, v: Value, paths: seq<Path>, r: Heap, b: Built, q: Path, n: Heap, c: Built)
    requires Closed(h) && Projects(h, v, paths, r, b) && Found(h, v, q)
    requires BuiltOk(n, h.next, c) && h.next <= n.next && c.nodes[[]] == h.next && Same(r, n, h.next)
    requires q in c.put && c.put[q] == Read(h, v, q)
    requires forall x :: x in c.put && x != q ==> x in b.put && c.put[x] == b.put[x]
    requires forall x :: x in b.put && !(q <= x) ==> x in c.put
    requires forall x :: x in c.nodes ==> x in b.nodes || x < q
    ensures Projects(h, v, paths + [q], n, c)
  {
    assert q in paths + [q];
    forall x: Path ensures PutFrom(h, v, paths + [q], c, x) && LeadsTo(h, v, paths + [q], c, x) {
      assert PutFrom(h, v, paths, b, x) && LeadsTo(h, v, paths, b, x);
      if x in b.nodes && x != [] {
        var p :| p in paths && Found(h, v, p) && x < p;
        assert p in paths + [q];
      }
    }
    forall p: Path | p in paths + [q] ensures Covered(h, v, c, p) {
      if p in paths && Found(h, v, p) {
        assert Covered(h, v, b, p);
        var x :| x in b.put && x <= p;
        assert if q <= x then q <= p else x in c.put;
      } else {
        assert q <= q;
      }
    }
  }

  lemma {:induction false} WriteOnAlias(h: Heap, v: Value, paths: seq<Path>, r: Heap, b: Built, x: Path, q: Path)
    requires Closed(h) && Has(h, v) && Projects(h, v, paths, r, b)
    requires Found(h, v, q) && IsPlainPath(q) && x in b.put && x < q && ThroughRecords(h, v, x, q)
    ensures h.next in r.objects && Write(r, h.next, q, Read(h, v, q)) == r
  {
    assert NodeOk(r, h.next, b, []) && PutOk(h.next, b, x) && PutFrom(h, v, paths, b, x);
    assert q == x + q[|x|..] && [] + x == x;
    forall i | 0 <= i <= |q| ensures i >= |x| ==> Read(r, Ref(h.next), q[..i]) == Read(h, v, q[..i])
                             ensures i < |x| ==> IsRecord(r, Read(r, Ref(h.next), q[..i]))
    {
      ReadsShown(r, h.next, b, [], q[..i]);
      if i >= |x| {
        var rest := q[|x|..i];
        assert q[..i] == x + rest;
        ShownBelow(r, h.next, b, [], x, rest);
        ReadSplit(h, v, x, rest);
        ReadSame(h, h, v, x);
        ReadSame(h, r, Read(h, v, x), rest);
      } else {
        NodesAbove(r, h.next, b, x, i);
        assert x[..i] == q[..i] && q[..i] + [] == q[..i] && [] + q[..i] == q[..i];
        ShownBelow(r, h.next, b, [], q[..i], []);
        assert NodeOk(r, h.next, b, q[..i]);
      }
    }
    assert q[..|q|] == q;
    forall i | 0 < i < |q| ensures IsRecord(r, Read(r, Ref(h.next), q[..i])) {
      if i >= |x| {
        assert IsRecord(h, Read(h, v, q[..i]));
      }
    }
    WriteSame(r, h.next, q, Read(h, v, q));
  }

  // How a path reads in a projection, told from the payload and the paths alone.
  datatype Sight = Exactly(value: Value) | Container | Nothing

  ghost function Sees(h: Heap, v: Value, paths: iset<Path>, x: Path): Sight {
    if exists p :: p in paths && Found(h, v, p) && p <= x then Exactly(Read(h, v, x))
    else if x == [] || exists p :: p in paths && Found(h, v, p) && x < p then Container
    else Nothing
  }

  // A container is an object pick made: none of the payload's.
  ghost predicate Matches(h: Heap, r: Heap, got: Value, sight: Sight) {
    match sight
    case Exactly(value) => got == value
    case Container => IsRecord(r, got) && got.loc !in h.objects
    case Nothing => got == Undefined
  }

  lemma PrefixesOfOne(c: Path, x: Path, p: Path)
    requires c <= p && x < p
    ensures c <= x || x < c
  {
    if |c| <= |x| {
      assert c == p[..|c|] == x[..|c|];
    } else {
      assert x == p[..|x|] == c[..|x|];
    }
  }

  lemma {:induction false} BuiltIsSeen(h: Heap, v: Value, paths: seq<Path>, r: Heap, b: Built, y: Path, x: Path)
    requires Projects(h, v, paths, r, b) && ((y in b.put && y <= x) || (y in b.nodes && y == x))
    ensures !Sees(h, v, Members(paths), x).Nothing?
  {
    assert PutFrom(h, v, paths, b, y) && LeadsTo(h, v, paths, b, y);
  }

  // How any path reads in a projection: `r` is one, and `b` is what was built of it.
  lemma {:induction false} PickShows(h: Heap, v: Value, paths: seq<Path>, r: Heap, b: Built, x: Path)
    requires Closed(h) && Has(h, v) && Projects(h, v, paths, r, b)
    ensures Matches(h, r, Read(r, Ref(h.next), x), Sees(h, v, Members(paths), x))
  {
    var among := Members(paths);
    ReadsShown(r, h.next, b, [], x);
    assert [] + x == x;
    if p :| p in among && Found(h, v, p) && p <= x {
      assert Covered(h, v, b, p);
      var c :| c in b.put && c <= p;
      assert PutFrom(h, v, paths, b, c);
      var rest := x[|c|..];
      assert x == c + rest && [] + c == c;
      ReadPlain(h, v, c);
      ShownBelow(r, h.next, b, [], c, rest);
      ReadSplit(h, v, c, rest);
      ReadSame(h, h, v, c);
      ReadSame(h, r, Read(h, v, c), rest);
    } else if p :| p in among && Found(h, v, p) && x < p {
      assert Covered(h, v, b, p);
      var c :| c in b.put && c <= p;
      assert PutFrom(h, v, paths, b, c);
      PrefixesOfOne(c, x, p);
      NodesAbove(r, h.next, b, c, |x|);
      assert c[..|x|] == x;
      ReadPlain(h, v, c);
      assert IsPlainPath(x) && x + [] == x;
      ShownBelow(r, h.next, b, [], x, []);
      assert NodeOk(r, h.next, b, x);
    } else if x == [] {
      assert NodeOk(r, h.next, b, []);
    } else if !Shown(r, b, [], x).Undefined? {
      var y := ShownOnlyBuilt(r, b, [], x);
      BuiltIsSeen(h, v, paths, r, b, y, x);
    }
  }

  // Where no path goes on from another through an array, the payload is left as it was and every path
  // reads in the projection as in the payload.
  lemma {:induction false} KeptThroughRecords(h: Heap, v: Value, paths: seq<Path>)
    requires Closed(h) && Has(h, v) && (forall p :: p in paths ==> p != [])
    requires NoArrayBetween(h, v, Members(paths))
    ensures Kept(h, v, paths)
  {
    var r := Pick(h, v, paths);
    var b := PickBuilds(h, v, paths);
    forall p | p in paths && p != NOWHERE ensures Read(r, Ref(h.next), p) == Read(h, v, p) {
      PickShows(h, v, paths, r, b, p);
      if !Found(h, v, p) {
        forall q | q in paths && Found(h, v, q) ensures !(p < q) {
          if p < q {
            assert q == p + q[|p|..];
            ReadSplit(h, v, p, q[|p|..]);
          }
        }
      }
    }
  }

  // The order the paths come in does not show.
  lemma {:induction false} OrderDoesNotShow(h: Heap, v: Value, paths: seq<Path>, others: seq<Path>, x: Path)
    requires Closed(h) && Has(h, v) && (forall p :: p in paths ==> p != []) && (forall p :: p in paths <==> p in others)
    requires NoArrayBetween(h, v, Members(paths))
    ensures var a, b := Pick(h, v, paths), Pick(h, v, others);
            var s, t := Read(a, Ref(h.next), x), Read(b, Ref(h.next), x);
            s == t || (IsRecord(a, s) && IsRecord(b, t) && s.loc !in h.objects && t.loc !in h.objects)
  {
    assert Members(paths) == Members(others);
    var b := PickBuilds(h, v, paths);
    var c := PickBuilds(h, v, others);
    PickShows(h, v, paths, Pick(h, v, paths), b, x);
    PickShows(h, v, others, Pick(h, v, others), c, x);
  }

  ghost predicate PrefixFree(paths: seq<Path>) {
    forall p, q :: p in paths && q in paths ==> !(p < q)
  }

  // The case the documentation has in mind: no path goes on from another.
  lemma {:induction false} KeptWhenPrefixFree(h: Heap, v: Value, paths: seq<Path>)
    requires Closed(h) && Has(h, v) && (forall p :: p in paths ==> p != []) && PrefixFree(paths)
    ensures Kept(h, v, paths)
    ensures forall x :: var r := Pick(h, v, paths);
                        Matches(h, r, Read(r, Ref(h.next), x), Sees(h, v, Members(paths), x))
  {
    KeptThroughRecords(h, v, paths);
    var b := PickBuilds(h, v, paths);
    forall x { PickShows(h, v, paths, Pick(h, v, paths), b, x); }
  }

  // A notification is passed on exactly when it holds something at one of the paths.
  lemma {:induction false} ProjectsSomething(h: Heap, v: Value, paths: seq<Path>)
    requires Closed(h) && Has(h, v) && (forall p :: p in paths ==> p != [])
    requires NoArrayBetween(h, v, Members(paths))
    ensures h.next in Pick(h, v, paths).objects
    ensures Pick(h, v, paths).objects[h.next].own != map[] <==> exists p :: p in paths && Found(h, v, p)
  {
    var r := Pick(h, v, paths);
    var b := PickBuilds(h, v, paths);
    assert NodeOk(r, h.next, b, []);
    if p :| p in paths && Found(h, v, p) {
      assert Covered(h, v, b, p);
      var c :| c in b.put && c <= p;
      assert PutOk(h.next, b, c);
      var k := c[0];
      assert PutOk(h.next, b, c);
      assert SlotOk(r, b, [], k) && [] + [k] == [k];
      if |c| > 1 {
        NodesAbove(r, h.next, b, c, 1);
        assert c[..1] == [k];
      } else {
        assert c == [k];
      }
    } else {
      forall k ensures k !in r.objects[h.next].own {
        assert SlotOk(r, b, [], k) && [] + [k] == [k];
        assert PutFrom(h, v, paths, b, [k]) && LeadsTo(h, v, paths, b, [k]);
      }
    }
  }

  // ---------------------------------------------------------------- the promise broken

  // Below a new object, only new objects are written.
  lemma {:induction false} WriteBelowNew(h: Heap, n: Loc, path: Path, v: Value)
    requires n in h.objects && h.objects[n].own == map[] && path != [] && (forall l :: l in h.objects ==> l < h.next)
    ensures forall l :: l in h.objects && l != n ==>
              l in Write(h, n, path, v).objects && Write(h, n, path, v).objects[l] == h.objects[l]
    decreases |path|
  {
    if |path| > 1 {
      WriteBelowNew(Set(Make(h), n, path[0], Ref(h.next)), h.next, path[1..], v);
    }
  }

  // Where a path comes to something that is no record, that is replaced in the object before it, and
  // nothing else that was there changes.
  lemma {:induction false} WriteReplaces(h: Heap, l: Loc, path: Path, v: Value, i: nat)
    requires l in h.objects && !h.objects[l].isArray && (forall o :: o in h.objects ==> o < h.next)
    requires 0 < i < |path| && IsPlainPath(path)
    requires forall j :: 0 < j < i ==> IsRecord(h, Read(h, Ref(l), path[..j]))
    requires !IsRecord(h, Read(h, Ref(l), path[..i]))
    ensures var c, w := Read(h, Ref(l), path[..i - 1]), Write(h, l, path, v);
            && IsRecord(h, c) && c.loc in w.objects
            && path[i - 1] in w.objects[c.loc].own && w.objects[c.loc].own[path[i - 1]] == Ref(h.next)
            && !w.objects[c.loc].isArray
            && forall o :: o in h.objects && o != c.loc ==> o in w.objects && w.objects[o] == h.objects[o]
    decreases |path|
  {
    var k := path[0];
    if i == 1 {
      assert path[..1] == [k] && [k][1..] == [];
      WriteBelowNew(Set(Make(h), l, k, Ref(h.next)), h.next, path[1..], v);
    } else {
      assert IsRecord(h, Read(h, Ref(l), path[..1]));
      ReadOne(h, l, path);
      var n := h.objects[l].own[k];
      forall j | 0 < j <= i ensures path[..j][1..] == path[1..][..j - 1] && path[..j][0] == k {}
      forall j | 0 < j < i - 1 ensures IsRecord(h, Read(h, n, path[1..][..j])) {
        assert IsRecord(h, Read(h, Ref(l), path[..j + 1]));
      }
      assert Read(h, Ref(l), path[..i]) == Read(h, n, path[1..][..i - 1]);
      assert Read(h, Ref(l), path[..i - 1]) == Read(h, n, path[1..][..i - 2]);
      assert IsRecord(h, n);
      WriteReplaces(h, n.loc, path[1..], v, i - 1);
    }
  }

  // A path that does not pass through the object that changed reads the same.
  lemma {:induction false} ReadPast(h: Heap, r: Heap, v: Value, path: Path, c: Loc)
    requires forall o :: o in h.objects && o != c ==> o in r.objects && r.objects[o] == h.objects[o]
    requires forall j :: 0 <= j < |path| ==> IsRecord(h, Read(h, v, path[..j])) && Read(h, v, path[..j]) != Ref(c)
    ensures Read(r, v, path) == Read(h, v, path)
    decreases |path|
  {
    if path != [] {
      assert path[..0] == [] && Read(h, v, path[..0]) == v;
      if path[0] !in MACHINERY && path[0] in h.objects[v.loc].own {
        forall j | 0 <= j < |path[1..]|
          ensures Read(h, h.objects[v.loc].own[path[0]], path[1..][..j]) == Read(h, v, path[..j + 1])
        {
          assert path[..j + 1][1..] == path[1..][..j];
        }
        ReadPast(h, r, h.objects[v.loc].own[path[0]], path[1..], c);
      }
    }
  }

  // One path going on from another through an array, and asked for after it, breaks the promise: the
  // first one reads as something else, or the payload itself is written into.
  lemma {:induction false} BrokenByArray(h: Heap, v: Value, p: Path, q: Path)
    requires Closed(h) && Has(h, v) && p != [] && q != [] && !ThroughRecords(h, v, p, q)
    ensures !Kept(h, v, [p, q])
  {
    var i := |p|;
    while IsRecord(h, Read(h, v, q[..i]))
      invariant |p| <= i < |q| && forall n :: |p| <= n < i ==> IsRecord(h, Read(h, v, q[..n]))
      decreases |q| - i
    {
      i := i + 1;
    }
    FirstArrayBreaks(h, v, p, q, i);
  }

  // Before the path comes to `i` it is on records: first those pick made, then the payload's.
  lemma {:induction false} RecordsBefore(h: Heap, v: Value, p: Path, q: Path, r: Heap, b: Built, j: nat)
    requires Closed(h) && Has(h, v) && Projects(h, v, [p], r, b)
    requires Found(h, v, p) && Found(h, v, q) && p < q && j <= |q|
    ensures j < |p| ==> q[..j] in b.nodes && Read(r, Ref(h.next), q[..j]) == Ref(b.nodes[q[..j]])
    ensures j >= |p| ==> Read(r, Ref(h.next), q[..j]) == Read(h, v, q[..j]) && Has(h, Read(h, v, q[..j]))
  {
    assert p in [p] && Covered(h, v, b, p);
    var c :| c in b.put && c <= p;
    assert PutFrom(h, v, [p], b, c);
    assert c == p;
    ReadsShown(r, h.next, b, [], q[..j]);
    ReadPlain(h, v, q);
    if j < |p| {
      NodesAbove(r, h.next, b, p, j);
      assert p[..j] == q[..j] && q[..j] + [] == q[..j] && [] + q[..j] == q[..j];
      ShownBelow(r, h.next, b, [], q[..j], []);
    } else {
      var rest := q[|p|..j];
      assert q[..j] == p + rest && [] + p == p;
      ShownBelow(r, h.next, b, [], p, rest);
      ReadSplit(h, v, p, rest);
      ReadSame(h, h, v, p);
      ReadSame(h, r, Read(h, v, p), rest);
    }
  }

  lemma {:induction false} RecordsUntil(h: Heap, v: Value, p: Path, q: Path, r: Heap, b: Built, i: nat)
    requires Closed(h) && Has(h, v) && p != [] && Found(h, v, p) && Found(h, v, q) && p < q
    requires Projects(h, v, [p], r, b)
    requires |p| <= i < |q| && !IsRecord(h, Read(h, v, q[..i]))
    requires forall n :: |p| <= n < i ==> IsRecord(h, Read(h, v, q[..n]))
    ensures forall j :: 0 <= j < i ==> IsRecord(r, Read(r, Ref(h.next), q[..j]))
    ensures !IsRecord(r, Read(r, Ref(h.next), q[..i]))
  {
    forall j | 0 <= j < i ensures IsRecord(r, Read(r, Ref(h.next), q[..j])) {
      RecordsBefore(h, v, p, q, r, b, j);
      if j < |p| { assert NodeOk(r, h.next, b, q[..j]); }
    }
    RecordsBefore(h, v, p, q, r, b, i);
  }

  lemma {:induction false} FirstArrayBreaks(h: Heap, v: Value, p: Path, q: Path, i: nat)
    requires Closed(h) && Has(h, v) && p != [] && Found(h, v, p) && Found(h, v, q) && p < q
    requires |p| <= i < |q| && !IsRecord(h, Read(h, v, q[..i]))
    requires forall n :: |p| <= n < i ==> IsRecord(h, Read(h, v, q[..n]))
    ensures !Kept(h, v, [p, q])
  {
    assert forall x :: x in [p] ==> x == p;
    var b := PickBuilds(h, v, [p]);
    var after := Pick(h, v, [p, q]);
    SecondIsWritten(h, v, p, q, b, i);
    if i > |p| {
      RecordsBefore(h, v, p, q, Pick(h, v, [p]), b, i - 1);
    } else {
      assert q[..i] == p;
      ReplacedAt(h, v, p, q, Pick(h, v, [p]), b, after);
      ArrayNotNew(h, v, p);
      assert p in [p, q] && Read(after, Ref(h.next), p) != Read(h, v, p);
    }
  }

  lemma ArrayNotNew(h: Heap, v: Value, p: Path)
    requires Closed(h) && Has(h, v) && p != []
    ensures Read(h, v, p) != Ref(Pick(h, v, [p]).next)
  {
    assert forall x :: x in [p] ==> x == p;
    ReadSame(h, h, v, p);
    var b := PickBuilds(h, v, [p]);
  }

  // Writing the second path puts a new object in the place of the array, in the record before it.
  lemma {:induction false} SecondIsWritten(h: Heap, v: Value, p: Path, q: Path, b: Built, i: nat)
    requires Closed(h) && Has(h, v) && p != [] && Found(h, v, p) && Found(h, v, q) && p < q
    requires |p| <= i < |q| && !IsRecord(h, Read(h, v, q[..i]))
    requires forall n :: |p| <= n < i ==> IsRecord(h, Read(h, v, q[..n]))
    requires Projects(h, v, [p], Pick(h, v, [p]), b)
    ensures var r, after, last := Pick(h, v, [p]), Pick(h, v, [p, q]), q[i - 1];
            var c := Read(r, Ref(h.next), q[..i - 1]);
            && IsRecord(r, c) && c.loc in after.objects && last in after.objects[c.loc].own
            && after.objects[c.loc].own[last] == Ref(r.next) && !after.objects[c.loc].isArray
            && (forall o :: o in r.objects && o != c.loc ==> o in after.objects && after.objects[o] == r.objects[o])
            && (c.loc in h.objects ==> after.objects[c.loc] != h.objects[c.loc])
  {
    assert forall x :: x in [p] ==> x == p;
    var r, w := Pick(h, v, [p]), Read(h, v, q);
    assert NodeOk(r, h.next, b, []);
    assert [p, q][..1] == [p];
    ReadPlain(h, v, q);
    ReadSame(h, r, v, q);
    assert Pick(h, v, [p, q]) == Write(r, h.next, q, w);
    RecordsUntil(h, v, p, q, r, b, i);
    WriteReplaces(r, h.next, q, w, i);
    RecordsBefore(h, v, p, q, r, b, i);
    assert q[..i] == q[..i - 1] + [q[i - 1]];
    ReadSplit(h, v, q[..i - 1], [q[i - 1]]);
    if i > |p| {
      RecordsBefore(h, v, p, q, r, b, i - 1);
    }
  }

  // The array was put at `p` itself: `p` reads what replaced it, where all else is as it was.
  lemma {:induction false} ReplacedAt(h: Heap, v: Value, p: Path, q: Path, r: Heap, b: Built, after: Heap)
    requires Closed(h) && Has(h, v) && Projects(h, v, [p], r, b)
    requires p != [] && Found(h, v, p) && Found(h, v, q) && p < q
    requires var c := Read(r, Ref(h.next), q[..|p| - 1]);
             && IsRecord(r, c) && c.loc in after.objects
             && q[|p| - 1] in after.objects[c.loc].own && after.objects[c.loc].own[q[|p| - 1]] == Ref(r.next)
             && !after.objects[c.loc].isArray
             && forall o :: o in r.objects && o != c.loc ==> o in after.objects && after.objects[o] == r.objects[o]
    ensures Read(after, Ref(h.next), p) == Ref(r.next)
  {
    var i, root := |p|, Ref(h.next);
    var short, c := q[..i - 1], Read(r, root, q[..i - 1]).loc;
    RecordsBefore(h, v, p, q, r, b, i - 1);
    forall j | 0 <= j < |short| ensures IsRecord(r, Read(r, root, short[..j])) && Read(r, root, short[..j]) != Ref(c) {
      assert short[..j] == q[..j];
      RecordsBefore(h, v, p, q, r, b, j);
      assert Apart(b, q[..j], q[..i - 1]) && NodeOk(r, h.next, b, q[..j]);
    }
    ReadPast(r, after, root, short, c);
    assert p == short + [q[i - 1]];
    ReadSplit(after, root, short, [q[i - 1]]);
    ReadPlain(h, v, q);
    assert q[i - 1] !in MACHINERY;
  }

  ghost predicate Drawn(paths: seq<Path>, among: iset<Path>) {
    forall p :: p in paths ==> p in among
  }

  // Exactly then: every list of paths drawn from a set is projected as promised if and only if no path
  // of the set goes on from another through an array.
  lemma {:induction false} KeptExactly(h: Heap, v: Value, among: iset<Path>)
    requires Closed(h) && Has(h, v) && [] !in among
    ensures (forall paths: seq<Path> :: Drawn(paths, among) ==> Kept(h, v, paths))
            <==> NoArrayBetween(h, v, among)
  {
    if NoArrayBetween(h, v, among) {
      forall paths: seq<Path> | Drawn(paths, among) ensures Kept(h, v, paths) {
        assert forall p, q :: p in Members(paths) && q in Members(paths) ==> p in among && q in among;
        KeptThroughRecords(h, v, paths);
      }
    } else {
      var p, q :| p in among && q in among && !ThroughRecords(h, v, p, q);
      BrokenByArray(h, v, p, q);
      assert Drawn([p, q], among);
    }
  }

  // A list of items read whole, and the title of its first item: with `items` before `items.0.title`
  // the items are gone from the projection.
  lemma {:induction false} ItemsThenTitle()
    ensures var h := Heap(map[0 := Object(false, map["items" := Ref(1)]),
                              1 := Object(true, map["0" := Ref(2)]),
                              2 := Object(false, map["title" := Plain("A")])], 3);
            Closed(h) && !Kept(h, Ref(0), [["items"], ["items", "0", "title"]])
  {
    var h := Heap(map[0 := Object(false, map["items" := Ref(1)]),
                      1 := Object(true, map["0" := Ref(2)]),
                      2 := Object(false, map["title" := Plain("A")])], 3);
    var p: Path, q: Path := ["items"], ["items", "0", "title"];
    assert p[1..] == [] && q[1..] == ["0", "title"] && q[1..][1..] == ["title"] && q[1..][1..][1..] == [];
    assert Read(h, Ref(0), p) == Ref(1);
    assert Read(h, Ref(2), ["title"]) == Plain("A") && Read(h, Ref(1), ["0", "title"]) == Plain("A");
    assert q[..1] == p && !IsRecord(h, Read(h, Ref(0), q[..1]));
    BrokenByArray(h, Ref(0), p, q);
  }
}
