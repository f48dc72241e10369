/**
  What src/assets.ts keeps of an asset, told from the descriptions, loads and uses of a run: an entry is what the last
  load for the asset's current descriptor brought back, until the asset is described anew, loaded again, or its place
  is needed for what was used since. So a resolve is served exactly that.
 */
module AssetHistory {
  import opened AssetCache
  import opened Marks

  // A load ends with content that passes, of the descriptor the asset still has.
  predicate Lands(s: State, limits: Limits, step: Step, id: Id)
    requires Enabled(s, step)
  {
    && step.End? && s.loads[step.load].id == id
    && step.loaded.Some? && Passes(s.loads[step.load].version, step.loaded.value, limits)
    && Look(s.descriptors, id) == Some(s.loads[step.load].version)
  }

  // It brings back just this.
  predicate Brings(s: State, limits: Limits, step: Step, e: Entry)
    requires Enabled(s, step)
  {
    Lands(s, limits, step, e.id) && e == Entry(e.id, s.loads[step.load].version, step.loaded.value, step.etag)
  }

  predicate Redescribed(s: State, step: Step, id: Id) {
    match step
    case Merge(j, d) => j == id && Look(s.descriptors, id) != d
    case Replace(ds) => Look(s.descriptors, id) != Look(ds, id)
    case _ => false
  }

  // Another asset's content lands and is kept, and together with what was used since this one it does not fit.
  ghost predicate PushesOut(s: State, limits: Limits, step: Step, e: Entry)
    requires Enabled(s, step)
  {
    && step.End? && s.loads[step.load].id != e.id && Lands(s, limits, step, s.loads[step.load].id)
    && step.loaded.value.length <= limits.maxCacheBytes
    && UsedSince(Forget(s.cache, s.loads[step.load].id), e) + step.loaded.value.length > limits.maxCacheBytes
  }

  // The lengths of an entry and of those used after it.
  function UsedSince(cache: seq<Entry>, e: Entry): nat {
    if cache == [] then 0 else if cache[0] == e then Sum(cache) else UsedSince(cache[1..], e)
  }

  predicate Comes(s: State, limits: Limits, step: Step, e: Entry)
    requires Enabled(s, step)
  {
    Brings(s, limits, step, e) && e.content.length <= limits.maxCacheBytes
  }

  ghost predicate Goes(s: State, limits: Limits, step: Step, e: Entry)
    requires Enabled(s, step)
  {
    Lands(s, limits, step, e.id) || Redescribed(s, step, e.id) || PushesOut(s, limits, step, e)
  }

  lemma {:induction false} EntryStep(s: State, limits: Limits, step: Step, e: Entry)
    requires Inv(s, limits) && Enabled(s, step)
    ensures e in Next(s, limits, step).cache <==> Comes(s, limits, step, e) || (e in s.cache && !Goes(s, limits, step, e))
  {
    match step
    case Merge(id, d) => ForgetLists(s.cache, id);
    case Replace(ds) =>
      ForgetAllKeeps(s.cache, Differing(s.descriptors, ds), s.lastUse);
      if e in s.cache {
        SameDiffering(s, limits, ds, e);
      }
    case Begin(load, id) => if Hit(s, id) { UsedStays(s, limits, id, e); }
    case End(load, loaded, etag) =>
      var Load(id, version) := s.loads[load];
      if Lands(s, limits, step, id) {
        LandedStays(s, limits, Entry(id, version, loaded.value, etag), e);
      }
  }

  // What differs of an asset that is cached, it has in one of the two.
  lemma SameDiffering(s: State, limits: Limits, ds: map<Id, Descriptor>, e: Entry)
    requires Inv(s, limits) && e in s.cache
    ensures e.id in Differing(s.descriptors, ds) <==> Look(s.descriptors, e.id) != Look(ds, e.id)
  {
    assert EntryOk(s, limits, e);
  }

  lemma UsedStays(s: State, limits: Limits, id: Id, e: Entry)
    requires Inv(s, limits) && Hit(s, id)
    ensures e in Forget(s.cache, id) + [Find(s.cache, id).value] <==> e in s.cache
  {
    ForgetLists(s.cache, id);
    ByUseDistinct(s.cache, s.lastUse);
    var f := Find(s.cache, id).value;
    var i :| 0 <= i < |s.cache| && s.cache[i] == f;
    assert forall j :: 0 <= j < |s.cache| && s.cache[j].id == id ==> j == i;
  }

  // What stays of the others is what fits beside the new entry, counted from the last used.
  lemma {:induction false} LandedStays(s: State, limits: Limits, f: Entry, e: Entry)
    requires Inv(s, limits)
    ensures e in Remember(s.cache, f, limits.maxCacheBytes) <==>
              || (e == f && f.content.length <= limits.maxCacheBytes)
              || (e in s.cache && e.id != f.id
                  && (f.content.length <= limits.maxCacheBytes ==>
                        UsedSince(Forget(s.cache, f.id), e) + f.content.length <= limits.maxCacheBytes))
  {
    ForgetIsForgetAll(s.cache, f.id);
    ForgetAllKeeps(s.cache, {f.id}, s.lastUse);
    var others := Forget(s.cache, f.id);
    if f.content.length <= limits.maxCacheBytes {
      ByUseDistinct(others, s.lastUse);
      StaysExactly(others, limits.maxCacheBytes - f.content.length, e);
    }
  }

  lemma {:induction false} StaysExactly(others: seq<Entry>, room: nat, e: Entry)
    requires Distinct(others)
    ensures e in Evict(others, room) <==> e in others && UsedSince(others, e) <= room
  {
    if Sum(others) <= room {
      SinceIsPart(others, e);
    } else {
      StaysExactly(others[1..], room, e);
    }
  }

  lemma {:induction false} SinceIsPart(cache: seq<Entry>, e: Entry)
    ensures UsedSince(cache, e) <= Sum(cache)
  {
    if cache != [] && cache[0] != e {
      SinceIsPart(cache[1..], e);
    }
  }

  // ---------------------------------------------------------------- descriptors, loads and uses

  // Content of the asset as it is described is held, and need not be asked for again.
  predicate Served(s: State, id: Id) {
    && id in s.descriptors && !(s.descriptors[id].source.Url? && s.descriptors[id].sha256.None?)
    && exists e :: e in s.cache && e.id == id
  }

  lemma ServedIsHit(s: State, limits: Limits, id: Id)
    requires Inv(s, limits)
    ensures Served(s, id) <==> Hit(s, id)
  {
    if Find(s.cache, id).Some? {
      assert EntryOk(s, limits, Find(s.cache, id).value);
    }
  }

  // An asset is described as it was last merged or replaced; a load in flight was begun for what its asset was
  // described as then, there being nothing to serve; and an asset is used when it is served and when a load lands.
  lemma {:induction false} DescribedLoadedUsed(s: State, limits: Limits, step: Step, id: Id, load: LoadId, l: Load)
    requires Inv(s, limits) && Enabled(s, step)
    ensures var n := Next(s, limits, step);
            && Look(n.descriptors, id) == (match step
                                           case Merge(j, d) => if j == id then d else Look(s.descriptors, id)
                                           case Replace(ds) => Look(ds, id)
                                           case _ => Look(s.descriptors, id))
            && (load in n.loads && n.loads[load] == l <==>
                  || (step == Begin(load, l.id) && Look(s.descriptors, l.id) == Some(l.version) && !Served(s, l.id))
                  || (load in s.loads && s.loads[load] == l && !(step.End? && step.load == load)))
    ensures var n := Next(s, limits, step);
            if (step.Begin? && Served(s, step.id)) || (step.End? && Lands(s, limits, step, s.loads[step.load].id))
            then n.clock == s.clock + 1 && n.lastUse == s.lastUse[(if step.Begin? then step.id else s.loads[step.load].id) := s.clock]
            else n.clock == s.clock && n.lastUse == s.lastUse
  {
    if step.Begin? {
      ServedIsHit(s, limits, step.id);
    }
  }

  // ---------------------------------------------------------------- runs

  ghost function Told(s: State, limits: Limits, steps: seq<Step>, e: Entry): seq<Mark>
    requires IsRun(s, limits, steps)
    decreases |steps|
  {
    if steps == [] then []
    else [Mark(Comes(s, limits, steps[0], e), Goes(s, limits, steps[0], e))] + Told(Next(s, limits, steps[0]), limits, steps[1..], e)
  }

  // After any run an entry is held exactly when a load brought it for the descriptor the asset then had, and since
  // then no other landed for that asset, it was not described anew, and nothing kept since needed its room.
  lemma {:induction false} HeldExactly(s: State, limits: Limits, steps: seq<Step>, e: Entry)
    requires Inv(s, limits) && IsRun(s, limits, steps)
    ensures e in After(s, limits, steps).cache <==> Stands(Told(s, limits, steps, e), e in s.cache)
    decreases |steps|
  {
    if steps != [] {
      var n := Next(s, limits, steps[0]);
      EntryStep(s, limits, steps[0], e);
      StepKeeps(s, limits, steps[0]);
      HeldExactly(n, limits, steps[1..], e);
      StandsAfter(Mark(Comes(s, limits, steps[0], e), Goes(s, limits, steps[0], e)), Told(n, limits, steps[1..], e), e in s.cache);
    }
  }

  // So what a resolve is served from the cache, in any run, is what the last load brought back that landed for the
  // asset as it is described now; and it is served whenever such content is held that need not be asked for again.
  lemma {:induction false} ServesTheLastLoad(limits: Limits, steps: seq<Step>, id: Id)
    requires IsRun(State(map[], [], map[], 0, map[]), limits, steps)
    ensures var s := State(map[], [], map[], 0, map[]);
            var n := After(s, limits, steps);
            && (Served(n, id) <==>
                  && id in n.descriptors && !(n.descriptors[id].source.Url? && n.descriptors[id].sha256.None?)
                  && exists e: Entry :: e.id == id && Stayed(Told(s, limits, steps, e)))
            && (Served(n, id) ==>
                  Find(n.cache, id).Some? &&
                  var e := Find(n.cache, id).value;
                  e.id == id && e.version == n.descriptors[id] && Stayed(Told(s, limits, steps, e)))
  {
    var s := State(map[], [], map[], 0, map[]);
    var n := After(s, limits, steps);
    RunKeeps(s, limits, steps);
    forall e: Entry ensures e in n.cache <==> Stayed(Told(s, limits, steps, e)) {
      HeldExactly(s, limits, steps, e);
    }
    if e: Entry :| e.id == id && Stayed(Told(s, limits, steps, e)) {
      assert e in n.cache && EntryOk(n, limits, e);
      assert EntryOk(n, limits, Find(n.cache, id).value);
    }
  }
}
