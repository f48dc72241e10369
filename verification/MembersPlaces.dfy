/**
  Where a facade grants something (walk of src/coordinator/facadeAccess.ts): a grant is one a record or a text makes
  somewhere in it, however deep, outside what is only a payload; and the paths a source may have.
 */
module MembersPlaces {
  import opened MembersFacade
  import opened MembersReach

  // One step into a value: to an entry of a list, or of a record.
  datatype Step = At(index: nat) | In(name: string)

  // What is at the end of the steps, and the name of the field it is found under; lists have no names of their own,
  // and no step leads into a payload.
  function Reached(v: Json, under: string, steps: seq<Step>): Option<(Json, string)>
    decreases |steps|
  {
    if steps == [] then Some((v, under))
    else match (v, steps[0])
      case (Arr(items), At(i)) => if i < |items| then Reached(items[i], under, steps[1..]) else None
      case (Obj(fields, _), In(name)) =>
        if name in fields && name !in {"configure", "payload"} then Reached(fields[name], name, steps[1..]) else None
      case _ => None
  }

  // What a value grants by itself: a record by what it says, a text that is a field's by the field's name.
  ghost predicate GrantsHere(v: Json, under: string, last: Option<Step>, through: bool, g: Grant) {
    || (v.Obj? && g in Own(As(v, through), under))
    || (last.Some? && last.value.In? && g in ByName(last.value.name, v))
  }

  function LastOf(steps: seq<Step>): Option<Step> {
    if steps == [] then None else Some(steps[|steps| - 1])
  }

  ghost predicate GrantedAt(v: Json, under: string, steps: seq<Step>, through: bool, g: Grant) {
    var r := Reached(v, under, steps);
    r.Some? && GrantsHere(r.value.0, r.value.1, LastOf(steps), through, g)
  }

  // One step further from the root.
  lemma Deeper(v: Json, under: string, step: Step, rest: seq<Step>, through: bool, g: Grant)
    requires Reached(v, under, [step]).Some?
    ensures var (w, name) := Reached(v, under, [step]).value;
            GrantedAt(v, under, [step] + rest, through, g) <==>
              GrantedAt(w, name, rest, through, g) || (rest == [] && step.In? && g in ByName(step.name, w))
  {
    assert ([step] + rest)[1..] == rest && [step][1..] == [];
  }

  // Exactly what is granted somewhere in it is granted.
  lemma {:induction false} GrantedSomewhere(v: Json, under: string, through: bool, g: Grant)
    ensures g in Walk(v, under, through) <==> exists steps :: GrantedAt(v, under, steps, through, g)
    decreases v
  {
    if g in Walk(v, under, through) {
      var steps := Place(v, under, through, g);
    }
    if steps :| GrantedAt(v, under, steps, through, g) {
      PlaceGrants(v, under, steps, through, g);
    }
  }

  lemma {:induction false} Place(v: Json, under: string, through: bool, g: Grant) returns (steps: seq<Step>)
    requires g in Walk(v, under, through)
    ensures GrantedAt(v, under, steps, through, g)
    decreases v
  {
    steps := [];
    match v {
      case Arr(items) =>
        var i := WhichItem(items, under, through, g);
        var rest := Place(items[i], under, through, g);
        Deeper(v, under, At(i), rest, through, g);
        steps := [At(i)] + rest;
      case Obj(fields, _) =>
        if g !in Own(As(v, through), under) {
          var k :| k in fields && k !in PAYLOADS && g in Entry(k, fields[k], through);
          var rest: seq<Step> := [];
          if g in Walk(fields[k], k, through) {
            rest := Place(fields[k], k, through, g);
          }
          Deeper(v, under, In(k), rest, through, g);
          steps := [In(k)] + rest;
        }
      case _ =>
    }
  }

  lemma {:induction false} WhichItem(items: seq<Json>, under: string, through: bool, g: Grant) returns (i: nat)
    requires g in WalkAll(items, under, through)
    ensures i < |items| && g in Walk(items[i], under, through)
    decreases |items|
  {
    if g in Walk(items[0], under, through) {
      i := 0;
    } else {
      var j := WhichItem(items[1..], under, through, g);
      i := j + 1;
    }
  }

  lemma {:induction false} PlaceGrants(v: Json, under: string, steps: seq<Step>, through: bool, g: Grant)
    requires GrantedAt(v, under, steps, through, g)
    ensures g in Walk(v, under, through)
    decreases |steps|
  {
    if steps != [] {
      var step, rest := steps[0], steps[1..];
      assert steps == [step] + rest;
      assert [step][1..] == [];
      Deeper(v, under, step, rest, through, g);
      var (w, name) := Reached(v, under, [step]).value;
      if GrantedAt(w, name, rest, through, g) {
        PlaceGrants(w, name, rest, through, g);
      }
      if v.Arr? {
        ItemGrants(v.items, step.index, under, through, g);
      } else {
        assert g in Entry(name, w, through);
      }
    }
  }

  lemma {:induction false} ItemGrants(items: seq<Json>, i: nat, under: string, through: bool, g: Grant)
    requires i < |items| && g in Walk(items[i], under, through)
    ensures g in WalkAll(items, under, through)
    decreases |items|
  {
    if i > 0 {
      ItemGrants(items[1..], i - 1, under, through, g);
    }
  }

  // ---------------------------------------------------------------- what a record says

  // A record that names a service by an address grants asking it to process, if it is of that type; else, where a
  // source belongs, reading its path, which is refused if it leads into machinery. Any other says nothing.
  lemma SaysExactly(v: Json, under: string, g: Grant)
    ensures g in Own(v, under) <==>
            match Get(v, "serviceUuid")
            case Some(Str(uuid)) =>
              && IsLiteral(uuid)
              && var path := match Get(v, "path") case Some(Str(p)) => p case _ => "";
                 if Get(v, "type") == Some(Str("process")) then g == Process(uuid)
                 else under in {"source", "summary"} && g == if IsPlainPath(path) then Source(uuid, path) else Refused(path)
            case _ => false
  {
  }

  // ---------------------------------------------------------------- paths

  // A name between dots, or at either end.
  ghost predicate HasSegment(path: string, name: string) {
    exists before, after :: path == before + name + after && StopsBefore(before) && StopsAfter(after)
  }

  predicate StopsBefore(before: string) { before == "" || before[|before| - 1] == '.' }
  predicate StopsAfter(after: string) { after == "" || after[0] == '.' }

  // A path is plain exactly when none of its segments is one that leads into what every object inherits.
  lemma {:induction false} PlainPathExactly(path: string)
    ensures IsPlainPath(path) <==> forall name :: name in {"__proto__", "constructor", "prototype"} ==> !HasSegment(path, name)
  {
    forall name | name in MACHINERY ensures HasSegment(path, name) <==> SegmentIs(path, name) {
      SegmentsAre(path, name);
    }
    PlainSegments(path);
  }

  // Going through the segments one after another.
  predicate SegmentIs(path: string, name: string)
    decreases |path|
  {
    var n := Segment(path);
    path[..n] == name || (n < |path| && SegmentIs(path[n + 1..], name))
  }

  lemma {:induction false} PlainSegments(path: string)
    ensures IsPlainPath(path) <==> forall name :: name in MACHINERY ==> !SegmentIs(path, name)
    decreases |path|
  {
    var n := Segment(path);
    if n < |path| {
      PlainSegments(path[n + 1..]);
    }
  }

  lemma SegmentsAre(path: string, name: string)
    requires name in MACHINERY
    ensures HasSegment(path, name) <==> SegmentIs(path, name)
  {
    if SegmentIs(path, name) {
      var before, after := SegmentAt(path, name);
    }
    if HasSegment(path, name) {
      var before, after :| path == before + name + after && StopsBefore(before) && StopsAfter(after);
      SegmentFound(path, name, before, after);
    }
  }

  lemma PutBefore(path: string, n: nat, before: string, name: string, after: string)
    requires n <= |path| && path[n..] == before + name + after
    ensures path == path[..n] + before + name + after
  {
    assert path == path[..n] + path[n..];
  }

  lemma {:induction false} SegmentAt(path: string, name: string) returns (before: string, after: string)
    requires SegmentIs(path, name)
    ensures path == before + name + after && StopsBefore(before) && StopsAfter(after)
    decreases |path|
  {
    var n := Segment(path);
    if path[..n] == name {
      before, after := "", path[n..];
    } else {
      var b;
      b, after := SegmentAt(path[n + 1..], name);
      before := path[..n + 1] + b;
      PutBefore(path, n + 1, b, name, after);
    }
  }

  // No dot in it, a name is a whole segment where it stands between two.
  lemma {:induction false} SegmentFound(path: string, name: string, before: string, after: string)
    requires name in MACHINERY && path == before + name + after && StopsBefore(before) && StopsAfter(after)
    ensures SegmentIs(path, name)
    decreases |path|
  {
    var n := Segment(path);
    SegmentStops(path);
    if before == "" {
      assert path == name + after;
      NameStops(path, name, after);
    } else {
      assert path[|before| - 1] == '.' && n < |before|;
      OneSegmentLess(path, before, name, after, n);
      SegmentFound(path[n + 1..], name, before[n + 1..], after);
    }
  }

  lemma OneSegmentLess(path: string, before: string, name: string, after: string, n: nat)
    requires path == before + name + after && n < |before| && StopsBefore(before)
    ensures path[n + 1..] == before[n + 1..] + name + after && StopsBefore(before[n + 1..])
  {
  }

  lemma {:induction false} SegmentStops(path: string)
    ensures forall i :: 0 <= i < Segment(path) ==> path[i] != '.'
  {
    if path != "" && path[0] != '.' {
      SegmentStops(path[1..]);
    }
  }

  lemma NameStops(path: string, name: string, after: string)
    requires name in MACHINERY && path == name + after && StopsAfter(after)
    ensures Segment(path) == |name| && path[..|name|] == name
  {
    SegmentStops(path);
    assert forall i :: 0 <= i < |name| ==> path[i] == name[i] && name[i] != '.';
    assert after != "" ==> path[|name|] == '.';
  }
}
