/**
  readPath, writePath, pick, projectState and projectNotification of src/coordinator/facadeAccess.ts:
  loops over the keys of a path, filling objects in place in one heap.
 */
module FacadeAccess {
  import opened Projection

  class Objects {
    var heap: Heap

    constructor (h: Heap)
      ensures heap == h
    {
      heap := h;
    }

    // Through own properties only, and not through machinery.
    method ReadPath(value: Value, path: Path) returns (found: Value)
      ensures found == Read(heap, value, path)
    {
      found := value;
      var i := 0;
      while i < |path|
        invariant i <= |path| && Read(heap, value, path) == Read(heap, found, path[i..])
      {
        if !(IsRecord(heap, found) || IsArray(heap, found)) {
          return Undefined;
        }
        if path[i] in MACHINERY || path[i] !in heap.objects[found.loc].own {
          return Undefined;
        }
        assert path[i..][1..] == path[i + 1..];
        found := heap.objects[found.loc].own[path[i]];
        i := i + 1;
      }
    }

    method SetOwn(l: Loc, key: string, value: Value)
      requires l in heap.objects
      modifies this
      ensures heap == Set(old(heap), l, key, value)
    {
      heap := heap.(objects := heap.objects[l := heap.objects[l].(own := heap.objects[l].own[key := value])]);
    }

    method NewObject() returns (l: Loc)
      modifies this
      ensures l == old(heap).next && heap == Make(old(heap))
    {
      l := heap.next;
      heap := Heap(heap.objects[l := Object(false, map[])], l + 1);
    }

    method WritePath(target: Loc, path: Path, value: Value)
      requires target in heap.objects && path != []
      modifies this
      ensures heap == Projection.WritePath(old(heap), target, path, value)
    {
      if !(forall i :: 0 <= i < |path| ==> path[i] !in MACHINERY) {
        return;
      }
      var current := target;
      var i := 0;
      while i < |path| - 1
        invariant 0 <= i < |path| && current in heap.objects
        invariant Write(old(heap), target, path, value) == Write(heap, current, path[i..], value)
      {
        var key := path[i];
        assert path[i..][0] == key && path[i..][1..] == path[i + 1..];
        var own := heap.objects[current].own;
        if !(key in own && IsRecord(heap, own[key])) {
          var made := NewObject();
          SetOwn(current, key, Ref(made));
          current := made;
        } else {
          current := own[key].loc;
        }
        i := i + 1;
      }
      SetOwn(current, path[i], value);
    }

    // Where no path goes on from another through an array, nothing that was there is changed, every
    // path reads in what is returned as it did in the value, and nothing beside the paths is there.
    method Pick(value: Value, paths: seq<Path>) returns (picked: Loc)
      requires forall p :: p in paths ==> p != []
      modifies this
      ensures picked == old(heap).next && heap == Projection.Pick(old(heap), value, paths)
      ensures Closed(old(heap)) && Has(old(heap), value) && NoArrayBetween(old(heap), value, Members(paths)) ==>
                && Untouched(old(heap), heap)
                && (forall p :: p in paths && p != NOWHERE ==>
                      Read(heap, Ref(picked), p) == Read(old(heap), value, p))
                && (forall x :: Matches(old(heap), heap, Read(heap, Ref(picked), x),
                                        Sees(old(heap), value, Members(paths), x)))
    {
      picked := NewObject();
      for n := 0 to |paths|
        invariant picked in heap.objects && (forall p :: p in paths[..n] ==> p in paths)
        invariant heap == PickAll(Make(old(heap)), picked, value, paths[..n])
      {
        var path := paths[n];
        assert paths[..n + 1][..n] == paths[..n] && path in paths;
        if path != NOWHERE {
          var found := ReadPath(value, path);
          if found != Undefined {
            WriteExtends(heap, picked, path, found);
            WritePath(picked, path, found);
          }
        }
      }
      assert paths[..|paths|] == paths;
      if Closed(old(heap)) && Has(old(heap), value) && NoArrayBetween(old(heap), value, Members(paths)) {
        KeptThroughRecords(old(heap), value, paths);
        ghost var b := PickBuilds(old(heap), value, paths);
        forall x { PickShows(old(heap), value, paths, heap, b, x); }
      }
    }

    // The payload itself when the empty path is among those asked; else a new object reading at each path as
    // the payload does, or nothing if the payload has a value at none.
    method ProjectNotification(paths: seq<Path>, payload: Value) returns (projected: Value)
      requires forall p :: p in paths ==> p != []
      requires Closed(heap) && Has(heap, payload)
      modifies this
      ensures NOWHERE in paths ==> projected == payload && heap == old(heap)
      ensures NOWHERE !in paths && NoArrayBetween(old(heap), payload, Members(paths)) ==>
                && Untouched(old(heap), heap)
                && (projected == Undefined <==> forall p :: p in paths ==> Read(old(heap), payload, p) == Undefined)
                && (projected != Undefined ==>
                      forall p :: p in paths ==> Read(heap, projected, p) == Read(old(heap), payload, p))
    {
      if NOWHERE in paths {
        return payload;
      }
      var picked := Pick(payload, paths);
      if NoArrayBetween(old(heap), payload, Members(paths)) {
        ProjectsSomething(old(heap), payload, paths);
        assert forall p :: p in paths ==> (Found(old(heap), payload, p) <==> Read(old(heap), payload, p) != Undefined);
      }
      if picked in heap.objects && heap.objects[picked].own != map[] {
        return Ref(picked);
      }
      return Undefined;
    }
  }
}
