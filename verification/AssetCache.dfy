/**
  The cache of src/assets.ts as a list, oldest use first: what a Map that `touch` re-inserts into holds.
  Descriptors change and go away while loads begun for them are in flight; content is identified by its
  length and its digest, and a descriptor is its own version, since its print is.
 */
module AssetCache {

  type Id = string
  type LoadId = nat

  datatype Option<+T> = None | Some(value: T)

  datatype Source = Text(text: string) | Base64(base64: string) | Url(url: string)
  datatype Descriptor = Descriptor(source: Source, mediaType: string, sha256: Option<string>)
  datatype Content = Content(length: nat, digest: string)
  datatype Entry = Entry(id: Id, version: Descriptor, content: Content, etag: Option<string>)

  datatype Limits = Limits(maxBytes: nat, maxCacheBytes: nat)

  // A load in flight: for which asset, and which version of it.
  datatype Load = Load(id: Id, version: Descriptor)

  datatype State = State(
    descriptors: map<Id, Descriptor>,
    cache: seq<Entry>,
    loads: map<LoadId, Load>,
    // When each asset's content was last handed out from the cache or put into it.
    clock: nat,
    lastUse: map<Id, nat>)

  // ---------------------------------------------------------------- the list

  function Sum(cache: seq<Entry>): nat {
    if cache == [] then 0 else cache[0].content.length + Sum(cache[1..])
  }

  function Find(cache: seq<Entry>, id: Id): (r: Option<Entry>)
    ensures r.Some? <==> exists e :: e in cache && e.id == id
    ensures r.Some? ==> r.value in cache && r.value.id == id
  {
    if cache == [] then None else if cache[0].id == id then Some(cache[0]) else Find(cache[1..], id)
  }

  function Forget(cache: seq<Entry>, id: Id): seq<Entry> {
    if cache == [] then []
    else if cache[0].id == id then Forget(cache[1..], id)
    else [cache[0]] + Forget(cache[1..], id)
  }

  // The oldest go until what is left fits into `room`.
  function Evict(cache: seq<Entry>, room: nat): seq<Entry> {
    if Sum(cache) <= room then cache else Evict(cache[1..], room)
  }

  function Remember(cache: seq<Entry>, e: Entry, limit: nat): seq<Entry> {
    var others := Forget(cache, e.id);
    if e.content.length > limit then others else Evict(others, limit - e.content.length) + [e]
  }

  ghost predicate Distinct(cache: seq<Entry>) {
    forall i, j :: 0 <= i < j < |cache| ==> cache[i].id != cache[j].id
  }

  lemma {:induction false} SumAppend(a: seq<Entry>, b: seq<Entry>)
    ensures Sum(a + b) == Sum(a) + Sum(b)
  {
    if a == [] {
      assert a + b == b;
    } else {
      SumAppend(a[1..], b);
      assert (a + b)[1..] == a[1..] + b;
    }
  }

  lemma {:induction false} ForgetLists(cache: seq<Entry>, id: Id)
    ensures forall e :: e in Forget(cache, id) <==> e in cache && e.id != id
    ensures Sum(Forget(cache, id)) <= Sum(cache)
  {
    if cache != [] {
      ForgetLists(cache[1..], id);
      assert cache == [cache[0]] + cache[1..];
    }
  }

  lemma {:induction false} ForgetSum(cache: seq<Entry>, id: Id)
    requires Distinct(cache)
    ensures Sum(cache) == Sum(Forget(cache, id)) + match Find(cache, id) case Some(e) => e.content.length case None => 0
  {
    if cache != [] {
      if cache[0].id == id {
        ForgetAbsent(cache[1..], id);
      } else {
        ForgetSum(cache[1..], id);
      }
    }
  }

  lemma {:induction false} ForgetAbsent(cache: seq<Entry>, id: Id)
    requires forall e :: e in cache ==> e.id != id
    ensures Forget(cache, id) == cache
  {
    if cache != [] {
      ForgetAbsent(cache[1..], id);
    }
  }

  // What is evicted is the oldest, and no more of them than has to be: one fewer would not fit.
  lemma {:induction false} EvictsFewestOldest(cache: seq<Entry>, room: nat) returns (gone: nat)
    ensures gone <= |cache| && Evict(cache, room) == cache[gone..]
    ensures Sum(Evict(cache, room)) <= room
    ensures gone > 0 ==> Sum(cache[gone - 1..]) > room
  {
    if Sum(cache) <= room {
      gone := 0;
    } else {
      var g := EvictsFewestOldest(cache[1..], room);
      gone := g + 1;
      assert cache[1..][g..] == cache[gone..];
      if g > 0 {
        assert cache[1..][g - 1..] == cache[gone - 1..];
      }
    }
  }

  // ---------------------------------------------------------------- steps

  // Content told by its hash need not be compared with its origin again.
  predicate NeedsRevalidation(d: Descriptor) {
    d.source.Url? && d.sha256.None?
  }

  predicate Passes(d: Descriptor, c: Content, limits: Limits) {
    c.length <= limits.maxBytes && (d.sha256.Some? ==> c.digest == d.sha256.value)
  }

  function Uses(s: State, id: Id, cache: seq<Entry>): State {
    s.(cache := cache, clock := s.clock + 1, lastUse := s.lastUse[id := s.clock])
  }

  function Look(m: map<Id, Descriptor>, id: Id): Option<Descriptor> {
    if id in m then Some(m[id]) else None
  }

  // What a descriptor change leaves cached: nothing of the asset it is of.
  function Changed(s: State, id: Id, d: Option<Descriptor>): State {
    var changed := s.(descriptors := if d.Some? then s.descriptors[id := d.value] else s.descriptors - {id});
    if Look(s.descriptors, id) == d then changed else changed.(cache := Forget(s.cache, id))
  }

  datatype Step =
    | Merge(id: Id, descriptor: Option<Descriptor>)
    | Replace(descriptors: map<Id, Descriptor>)
    | Begin(load: LoadId, id: Id)
    | End(load: LoadId, loaded: Option<Content>, etag: Option<string>)

  function ForgetAll(cache: seq<Entry>, ids: set<Id>): seq<Entry> {
    if cache == [] then []
    else if cache[0].id in ids then ForgetAll(cache[1..], ids)
    else [cache[0]] + ForgetAll(cache[1..], ids)
  }

  function Differing(a: map<Id, Descriptor>, b: map<Id, Descriptor>): set<Id> {
    set id | id in a.Keys + b.Keys && Look(a, id) != Look(b, id)
  }

  predicate Hit(s: State, id: Id) {
    && id in s.descriptors && Find(s.cache, id).Some?
    && Find(s.cache, id).value.version == s.descriptors[id]
    && !NeedsRevalidation(s.descriptors[id])
  }

  predicate Enabled(s: State, step: Step) {
    match step
    case Begin(load, _) => load !in s.loads
    case End(load, _, _) => load in s.loads
    case _ => true
  }

  function Next(s: State, limits: Limits, step: Step): State
    requires Enabled(s, step)
  {
    match step
    case Merge(id, d) => Changed(s, id, d)
    case Replace(ds) => s.(descriptors := ds, cache := ForgetAll(s.cache, Differing(s.descriptors, ds)))
    case Begin(load, id) =>
      if id !in s.descriptors then s
      else if Hit(s, id) then Uses(s, id, Forget(s.cache, id) + [Find(s.cache, id).value])
      else s.(loads := s.loads[load := Load(id, s.descriptors[id])])
    case End(load, loaded, etag) =>
      var Load(id, version) := s.loads[load];
      var ended := s.(loads := s.loads - {load});
      if loaded.None? || !Passes(version, loaded.value, limits) || Look(s.descriptors, id) != Some(version) then ended
      else Uses(ended, id, Remember(s.cache, Entry(id, version, loaded.value, etag), limits.maxCacheBytes))
  }

  // The entries of a merge, one after the other.
  function MergeAll(s: State, entries: seq<(Id, Option<Descriptor>)>): State {
    if entries == [] then s
    else
      var last := entries[|entries| - 1];
      Changed(MergeAll(s, entries[..|entries| - 1]), last.0, last.1)
  }

  ghost predicate IsRun(s: State, limits: Limits, steps: seq<Step>)
    decreases |steps|
  {
    steps == [] || (Enabled(s, steps[0]) && IsRun(Next(s, limits, steps[0]), limits, steps[1..]))
  }

  ghost function After(s: State, limits: Limits, steps: seq<Step>): State
    requires IsRun(s, limits, steps)
    decreases |steps|
  {
    if steps == [] then s else After(Next(s, limits, steps[0]), limits, steps[1..])
  }

  // ---------------------------------------------------------------- what every state keeps

  // Every entry is of a descriptor the store holds now, and was checked against it.
  ghost predicate EntryOk(s: State, limits: Limits, e: Entry) {
    && e.id in s.descriptors && e.version == s.descriptors[e.id]
    && Passes(e.version, e.content, limits)
    && e.id in s.lastUse && s.lastUse[e.id] < s.clock
  }

  // Listed in the order they were last used in.
  ghost predicate ByUse(cache: seq<Entry>, lastUse: map<Id, nat>) {
    cache == [] ||
      (&& cache[0].id in lastUse
       && (forall e :: e in cache[1..] ==> e.id in lastUse && lastUse[cache[0].id] < lastUse[e.id])
       && ByUse(cache[1..], lastUse))
  }

  ghost predicate Inv(s: State, limits: Limits) {
    && (forall e :: e in s.cache ==> EntryOk(s, limits, e))
    && ByUse(s.cache, s.lastUse)
    && Sum(s.cache) <= limits.maxCacheBytes
  }

  lemma {:induction false} ByUseAt(cache: seq<Entry>, lastUse: map<Id, nat>, i: nat, j: nat)
    requires ByUse(cache, lastUse) && i < j < |cache|
    ensures cache[i].id in lastUse && cache[j].id in lastUse && lastUse[cache[i].id] < lastUse[cache[j].id]
    ensures cache[i].id != cache[j].id
  {
    if i == 0 {
      assert cache[1..][j - 1] == cache[j];
    } else {
      ByUseAt(cache[1..], lastUse, i - 1, j - 1);
    }
  }

  lemma {:induction false} ByUseDistinct(cache: seq<Entry>, lastUse: map<Id, nat>)
    requires ByUse(cache, lastUse)
    ensures Distinct(cache)
  {
    forall i, j | 0 <= i < j < |cache| ensures cache[i].id != cache[j].id {
      ByUseAt(cache, lastUse, i, j);
    }
  }

  lemma {:induction false} ByUseFrom(cache: seq<Entry>, lastUse: map<Id, nat>, from: nat)
    requires ByUse(cache, lastUse) && from <= |cache|
    ensures ByUse(cache[from..], lastUse)
  {
    if from > 0 {
      ByUseFrom(cache[1..], lastUse, from - 1);
      assert cache[1..][from - 1..] == cache[from..];
    }
  }

  // A list that keeps some of the entries, in their order.
  lemma {:induction false} ForgetAllKeeps(cache: seq<Entry>, ids: set<Id>, lastUse: map<Id, nat>)
    requires ByUse(cache, lastUse)
    ensures forall e :: e in ForgetAll(cache, ids) <==> e in cache && e.id !in ids
    ensures ByUse(ForgetAll(cache, ids), lastUse)
    ensures Sum(ForgetAll(cache, ids)) <= Sum(cache)
  {
    if cache != [] {
      ForgetAllKeeps(cache[1..], ids, lastUse);
      assert cache == [cache[0]] + cache[1..];
      if cache[0].id !in ids {
        assert ForgetAll(cache, ids)[1..] == ForgetAll(cache[1..], ids);
      }
    }
  }

  lemma {:induction false} ForgetIsForgetAll(cache: seq<Entry>, id: Id)
    ensures Forget(cache, id) == ForgetAll(cache, {id})
  {
    if cache != [] {
      ForgetIsForgetAll(cache[1..], id);
    }
  }

  // What was used before now keeps its order when another asset is used, and that one comes last.
  lemma {:induction false} ByUseThen(kept: seq<Entry>, lastUse: map<Id, nat>, e: Entry, now: nat)
    requires ByUse(kept, lastUse)
    requires forall k :: k in kept ==> k.id != e.id && k.id in lastUse && lastUse[k.id] < now
    ensures ByUse(kept, lastUse[e.id := now]) && ByUse(kept + [e], lastUse[e.id := now])
  {
    if kept == [] {
      assert kept + [e] == [e];
    } else {
      assert kept[0] in kept && forall k :: k in kept[1..] ==> k in kept;
      ByUseThen(kept[1..], lastUse, e, now);
      assert (kept + [e])[1..] == kept[1..] + [e];
    }
  }

  // Some of the entries, with one just used put behind them.
  lemma {:induction false} AppendUsed(s: State, limits: Limits, kept: seq<Entry>, e: Entry)
    requires ByUse(kept, s.lastUse)
    requires forall k :: k in kept ==> k.id != e.id && EntryOk(s, limits, k)
    requires e.id in s.descriptors && e.version == s.descriptors[e.id] && Passes(e.version, e.content, limits)
    requires Sum(kept) + e.content.length <= limits.maxCacheBytes
    ensures Inv(Uses(s, e.id, kept + [e]), limits)
    ensures Inv(Uses(s, e.id, kept), limits)
  {
    SumAppend(kept, [e]);
    ByUseThen(kept, s.lastUse, e, s.clock);
    forall k | k in kept ensures EntryOk(Uses(s, e.id, kept + [e]), limits, k) && EntryOk(Uses(s, e.id, kept), limits, k) {
      assert EntryOk(s, limits, k);
    }
  }

  lemma {:induction false} HitKeeps(s: State, limits: Limits, id: Id)
    requires Inv(s, limits) && Hit(s, id)
    ensures Inv(Uses(s, id, Forget(s.cache, id) + [Find(s.cache, id).value]), limits)
  {
    var e := Find(s.cache, id).value;
    ForgetIsForgetAll(s.cache, id);
    ForgetAllKeeps(s.cache, {id}, s.lastUse);
    ByUseDistinct(s.cache, s.lastUse);
    ForgetSum(s.cache, id);
    assert EntryOk(s, limits, e);
    AppendUsed(s, limits, Forget(s.cache, id), e);
  }

  lemma {:induction false} RememberKeeps(s: State, limits: Limits, e: Entry)
    requires Inv(s, limits)
    requires e.id in s.descriptors && e.version == s.descriptors[e.id] && Passes(e.version, e.content, limits)
    ensures Inv(Uses(s, e.id, Remember(s.cache, e, limits.maxCacheBytes)), limits)
  {
    ForgetIsForgetAll(s.cache, e.id);
    ForgetAllKeeps(s.cache, {e.id}, s.lastUse);
    var others := Forget(s.cache, e.id);
    assert forall k :: k in others ==> k.id != e.id && EntryOk(s, limits, k);
    if e.content.length <= limits.maxCacheBytes {
      MadeRoomKeeps(s, limits, others, e);
    } else {
      OnlyUsed(s, limits, others, e.id);
    }
  }

  lemma {:induction false} MadeRoomKeeps(s: State, limits: Limits, others: seq<Entry>, e: Entry)
    requires ByUse(others, s.lastUse) && forall k :: k in others ==> k.id != e.id && EntryOk(s, limits, k)
    requires e.id in s.descriptors && e.version == s.descriptors[e.id] && Passes(e.version, e.content, limits)
    requires e.content.length <= limits.maxCacheBytes
    ensures Inv(Uses(s, e.id, Evict(others, limits.maxCacheBytes - e.content.length) + [e]), limits)
  {
    var gone := EvictsFewestOldest(others, limits.maxCacheBytes - e.content.length);
    ByUseFrom(others, s.lastUse, gone);
    AppendUsed(s, limits, others[gone..], e);
  }

  // Too large to be kept: only what there was of it goes.
  lemma {:induction false} OnlyUsed(s: State, limits: Limits, kept: seq<Entry>, id: Id)
    requires ByUse(kept, s.lastUse) && Sum(kept) <= limits.maxCacheBytes
    requires forall k :: k in kept ==> k.id != id && EntryOk(s, limits, k)
    ensures Inv(Uses(s, id, kept), limits)
  {
    forall k | k in kept ensures EntryOk(Uses(s, id, kept), limits, k) {
      assert EntryOk(s, limits, k);
    }
    ByUseThen(kept, s.lastUse, Entry(id, Descriptor(Text(""), "", None), Content(0, ""), None), s.clock);
  }

  lemma {:induction false} StepKeeps(s: State, limits: Limits, step: Step)
    requires Inv(s, limits) && Enabled(s, step)
    ensures Inv(Next(s, limits, step), limits)
  {
    match step
    case Merge(id, d) =>
      ForgetIsForgetAll(s.cache, id);
      ForgetAllKeeps(s.cache, {id}, s.lastUse);
      assert forall e :: e in Next(s, limits, step).cache ==> EntryOk(s, limits, e);
    case Replace(ds) =>
      ForgetAllKeeps(s.cache, Differing(s.descriptors, ds), s.lastUse);
      forall e | e in Next(s, limits, step).cache ensures EntryOk(Next(s, limits, step), limits, e) {
        assert EntryOk(s, limits, e) && Look(s.descriptors, e.id) == Look(ds, e.id);
      }
    case Begin(load, id) => if Hit(s, id) { HitKeeps(s, limits, id); }
    case End(load, loaded, etag) =>
      var Load(id, version) := s.loads[load];
      var ended := s.(loads := s.loads - {load});
      assert Inv(ended, limits);
      if loaded.Some? && Passes(version, loaded.value, limits) && Look(s.descriptors, id) == Some(version) {
        RememberKeeps(ended, limits, Entry(id, version, loaded.value, etag));
      }
  }

  lemma {:induction false} RunKeeps(s: State, limits: Limits, steps: seq<Step>)
    requires Inv(s, limits) && IsRun(s, limits, steps)
    ensures Inv(After(s, limits, steps), limits)
    decreases |steps|
  {
    if steps != [] {
      StepKeeps(s, limits, steps[0]);
      RunKeeps(Next(s, limits, steps[0]), limits, steps[1..]);
    }
  }

  // Over any interleaving of merges, replacements and loads, from an empty store: each entry is of its
  // asset's descriptor as it is now and passed the check against it, at most one per asset, the content
  // held fits the budget, and the list is in order of last use.
  lemma {:induction false} CacheCoherent(limits: Limits, steps: seq<Step>)
    requires IsRun(State(map[], [], map[], 0, map[]), limits, steps)
    ensures var s := After(State(map[], [], map[], 0, map[]), limits, steps);
            && Distinct(s.cache) && Sum(s.cache) <= limits.maxCacheBytes
            && (forall i, j :: 0 <= i < j < |s.cache| ==>
                  && s.cache[i].id in s.lastUse && s.cache[j].id in s.lastUse
                  && s.lastUse[s.cache[i].id] < s.lastUse[s.cache[j].id])
            && (forall e :: e in s.cache ==>
                  e.id in s.descriptors && s.descriptors[e.id] == e.version && Passes(e.version, e.content, limits))
  {
    var s := State(map[], [], map[], 0, map[]);
    RunKeeps(s, limits, steps);
    var n := After(s, limits, steps);
    assert forall e :: e in n.cache ==> EntryOk(n, limits, e);
    forall i, j | 0 <= i < j < |n.cache|
      ensures n.cache[i].id in n.lastUse && n.cache[j].id in n.lastUse
      ensures n.lastUse[n.cache[i].id] < n.lastUse[n.cache[j].id]
    {
      ByUseAt(n.cache, n.lastUse, i, j);
    }
    ByUseDistinct(n.cache, n.lastUse);
  }

  // Whatever a load brings back changes nothing but itself when the descriptor it was begun for is no
  // longer the asset's: it is never cached, and evicts nothing.
  lemma {:induction false} StaleLoadNeverCached(s: State, limits: Limits, load: LoadId, loaded: Option<Content>, etag: Option<string>)
    requires load in s.loads && Look(s.descriptors, s.loads[load].id) != Some(s.loads[load].version)
    ensures Next(s, limits, End(load, loaded, etag)) == s.(loads := s.loads - {load})
  {
  }

  // An entry evicted to make room was used before every entry that stayed.
  lemma {:induction false} EvictsLeastRecentlyUsed(s: State, limits: Limits, e: Entry, out: Entry, kept: Entry)
    requires Inv(s, limits) && e.content.length <= limits.maxCacheBytes
    requires var after := Remember(s.cache, e, limits.maxCacheBytes);
             && out in s.cache && out.id != e.id && out !in after
             && kept in after && kept.id != e.id
    ensures kept in s.cache && out.id in s.lastUse && kept.id in s.lastUse && s.lastUse[out.id] < s.lastUse[kept.id]
  {
    ForgetIsForgetAll(s.cache, e.id);
    ForgetAllKeeps(s.cache, {e.id}, s.lastUse);
    EvictedEarlier(Forget(s.cache, e.id), s.lastUse, limits.maxCacheBytes - e.content.length, out, kept);
  }

  lemma {:induction false} EvictedEarlier(others: seq<Entry>, lastUse: map<Id, nat>, room: nat, out: Entry, kept: Entry)
    requires ByUse(others, lastUse) && out in others && out !in Evict(others, room) && kept in Evict(others, room)
    ensures kept in others && out.id in lastUse && kept.id in lastUse && lastUse[out.id] < lastUse[kept.id]
  {
    var gone := EvictsFewestOldest(others, room);
    EarlierUsedEarlier(others, lastUse, gone, out, kept);
  }

  lemma {:induction false} EarlierUsedEarlier(cache: seq<Entry>, lastUse: map<Id, nat>, from: nat, out: Entry, kept: Entry)
    requires ByUse(cache, lastUse) && from <= |cache|
    requires out in cache && out !in cache[from..] && kept in cache[from..]
    ensures kept in cache && out.id in lastUse && kept.id in lastUse && lastUse[out.id] < lastUse[kept.id]
  {
    assert cache == cache[..from] + cache[from..];
    var i :| 0 <= i < from && cache[..from][i] == out;
    var j :| 0 <= j < |cache[from..]| && cache[from..][j] == kept;
    ByUseAt(cache, lastUse, i, from + j);
  }
}
