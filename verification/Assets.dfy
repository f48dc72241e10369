/**
  AssetStore of src/assets.ts: the descriptors, the cache and the running count of its bytes, updated in
  place. `cache` is the insertion-ordered map the source keeps, oldest first.
 */
module Assets {
  import opened AssetCache

  datatype Resolution = Unknown | Served(content: Content) | Loading

  class AssetStore {
    const limits: Limits
    var descriptors: map<Id, Descriptor>
    var cache: seq<Entry>
    var cachedBytes: int
    // The resolves under way, each past its await.
    var loads: map<LoadId, Load>
    ghost var clock: nat
    ghost var lastUse: map<Id, nat>
    // The assets whose listeners were called.
    ghost var announced: seq<Id>

    ghost function View(): State
      reads this
    {
      State(descriptors, cache, loads, clock, lastUse)
    }

    ghost predicate Valid()
      reads this
    {
      Inv(View(), limits) && cachedBytes == Sum(cache)
    }

    constructor (limits: Limits)
      ensures Valid() && this.limits == limits && View() == State(map[], [], map[], 0, map[])
    {
      this.limits := limits;
      descriptors, cache, cachedBytes, loads := map[], [], 0, map[];
      clock, lastUse, announced := 0, map[], [];
    }

    method ForgetEntry(id: Id)
      requires Distinct(cache) && cachedBytes == Sum(cache)
      modifies this`cache, this`cachedBytes
      ensures cache == Forget(old(cache), id) && cachedBytes == Sum(cache)
    {
      ForgetSum(cache, id);
      var entry := Find(cache, id);
      if entry.Some? {
        cachedBytes := cachedBytes - entry.value.content.length;
        cache := Forget(cache, id);
      } else {
        ForgetAbsent(cache, id);
      }
    }

    method Touch(entry: Entry)
      modifies this`cache
      ensures cache == Forget(old(cache), entry.id) + [entry]
    {
      cache := Forget(cache, entry.id);
      cache := cache + [entry];
    }

    method RememberEntry(entry: Entry)
      requires Distinct(cache) && cachedBytes == Sum(cache)
      modifies this`cache, this`cachedBytes
      ensures cache == Remember(old(cache), entry, limits.maxCacheBytes) && cachedBytes == Sum(cache)
    {
      ForgetDistinct(cache, entry.id);
      ForgetEntry(entry.id);
      var limit := limits.maxCacheBytes;
      if entry.content.length > limit {
        return;
      }
      ghost var others := cache;
      while cachedBytes + entry.content.length > limit
        invariant Distinct(cache) && cachedBytes == Sum(cache)
        invariant Evict(cache, limit - entry.content.length) == Evict(others, limit - entry.content.length)
        decreases |cache|
      {
        var oldest := cache[0].id;
        ForgetFirst(cache);
        ForgetEntry(oldest);
      }
      SumAppend(cache, [entry]);
      cache := cache + [entry];
      cachedBytes := cachedBytes + entry.content.length;
    }

    // Nothing cached of the asset is of its descriptor any more, and whoever loaded it is told.
    method Changed(id: Id)
      requires Distinct(cache) && cachedBytes == Sum(cache)
      modifies this`cache, this`cachedBytes, this`announced
      ensures cache == Forget(old(cache), id) && cachedBytes == Sum(cache)
      ensures announced == old(announced) + [id]
    {
      ForgetEntry(id);
      announced := announced + [id];
    }

    // Listeners hear of exactly the assets whose descriptor differs, each once.
    method ReplaceAll(entries: map<Id, Descriptor>)
      requires Valid()
      modifies this
      ensures View() == Next(old(View()), limits, Replace(entries))
      ensures Valid()
      ensures exists news :: announced == old(announced) + news && OnceEach(news, Differing(old(descriptors), entries))
    {
      StepKeeps(View(), limits, Replace(entries));
      ByUseDistinct(cache, lastUse);
      var previous := descriptors;
      descriptors := entries;
      ghost var news := AnnounceDiffering(previous, entries);
    }

    // Whatever is cached of those whose descriptor differs is forgotten, and their listeners hear of it.
    method AnnounceDiffering(previous: map<Id, Descriptor>, entries: map<Id, Descriptor>) returns (ghost news: seq<Id>)
      requires Distinct(cache) && cachedBytes == Sum(cache)
      modifies this`cache, this`cachedBytes, this`announced
      ensures cache == ForgetAll(old(cache), Differing(previous, entries)) && cachedBytes == Sum(cache)
      ensures announced == old(announced) + news && OnceEach(news, Differing(previous, entries))
    {
      var remaining := previous.Keys + entries.Keys;
      ghost var done: set<Id> := {};
      news := [];
      ForgetNone(cache);
      assert Differing(previous, entries) * done == {};
      while remaining != {}
        invariant done !! remaining && done + remaining == previous.Keys + entries.Keys
        invariant cache == ForgetAll(old(cache), Differing(previous, entries) * done)
        invariant Distinct(cache) && cachedBytes == Sum(cache)
        invariant announced == old(announced) + news && OnceEach(news, Differing(previous, entries) * done)
        decreases remaining
      {
        var id :| id in remaining;
        OneMoreDone(previous, entries, done, id);
        if Look(previous, id) != Look(entries, id) {
          ForgetTogether(old(cache), Differing(previous, entries) * done, id);
          ForgetDistinct(cache, id);
          Changed(id);
          news := news + [id];
        }
        remaining, done := remaining - {id}, done + {id};
      }
      assert Differing(previous, entries) * done == Differing(previous, entries);
    }

    // None removes an asset.
    method MergeEntries(entries: seq<(Id, Option<Descriptor>)>)
      requires Valid()
      modifies this
      ensures View() == MergeAll(old(View()), entries)
      ensures Valid()
    {
      for i := 0 to |entries|
        invariant View() == MergeAll(old(View()), entries[..i]) && Valid()
      {
        assert entries[..i + 1][..i] == entries[..i];
        MergeOne(entries[i].0, entries[i].1);
      }
      assert entries[..|entries|] == entries;
    }

    method MergeOne(id: Id, entry: Option<Descriptor>)
      requires Valid()
      modifies this
      ensures View() == Next(old(View()), limits, Merge(id, entry))
      ensures Valid()
      ensures announced == old(announced) + (if Look(old(descriptors), id) != entry then [id] else [])
    {
      StepKeeps(View(), limits, Merge(id, entry));
      ByUseDistinct(cache, lastUse);
      var previous := Look(descriptors, id);
      if entry.None? {
        descriptors := descriptors - {id};
      } else {
        descriptors := descriptors[id := entry.value];
      }
      if previous != entry {
        Changed(id);
      }
    }

    // Up to the await: served from the cache, or a load is begun for the descriptor as it is now.
    method Resolve(load: LoadId, id: Id) returns (r: Resolution)
      requires Valid() && load !in loads
      modifies this
      ensures View() == Next(old(View()), limits, Begin(load, id))
      ensures Valid() && announced == old(announced)
      ensures r.Unknown? <==> id !in old(descriptors)
      ensures r.Served? <==>
                && id in old(descriptors) && !(old(descriptors)[id].source.Url? && old(descriptors)[id].sha256.None?)
                && exists e :: e in old(cache) && e.id == id
      ensures r.Served? ==>
                && (exists e :: e in old(cache) && e.id == id && e.content == r.content)
                && Passes(descriptors[id], r.content, limits) && loads == old(loads)
      ensures r.Loading? ==> loads == old(loads)[load := Load(id, old(descriptors)[id])] && cache == old(cache)
    {
      StepKeeps(View(), limits, Begin(load, id));
      if id !in descriptors {
        return Unknown;
      }
      var version := descriptors[id];
      var cached := Find(cache, id);
      assert forall e :: e in cache ==> EntryOk(View(), limits, e);
      if cached.Some? && cached.value.version == version && !NeedsRevalidation(version) {
        assert EntryOk(View(), limits, cached.value);
        ByUseDistinct(cache, lastUse);
        ForgetSum(cache, id);
        SumAppend(Forget(cache, id), [cached.value]);
        Touch(cached.value);
        lastUse := lastUse[id := clock];
        clock := clock + 1;
        return Served(cached.value.content);
      }
      loads := loads[load := Load(id, version)];
      return Loading;
    }

    // The load answered, with content or with a problem. Content goes into the cache when the asset has not been
    // described anew meanwhile.
    method Loaded(load: LoadId, loaded: Option<Content>, etag: Option<string>) returns (served: Option<Content>)
      requires Valid() && load in loads
      modifies this
      ensures View() == Next(old(View()), limits, End(load, loaded, etag))
      ensures Valid() && announced == old(announced)
      ensures served == if loaded.Some? && Passes(old(loads[load].version), loaded.value, limits) then loaded else None
    {
      StepKeeps(View(), limits, End(load, loaded, etag));
      var Load(id, version) := loads[load];
      loads := loads - {load};
      if loaded.None? || !Passes(version, loaded.value, limits) {
        return None;
      }
      if Look(descriptors, id) == Some(version) {
        ByUseDistinct(cache, lastUse);
        RememberEntry(Entry(id, version, loaded.value, etag));
        lastUse := lastUse[id := clock];
        clock := clock + 1;
      }
      return loaded;
    }
  }

  // ---------------------------------------------------------------- helpers

  ghost predicate OnceEach(news: seq<Id>, ids: set<Id>) {
    && (forall id :: id in news <==> id in ids)
    && (forall i, j :: 0 <= i < j < |news| ==> news[i] != news[j])
  }

  lemma {:induction false} ForgetDistinct(cache: seq<Entry>, id: Id)
    requires Distinct(cache)
    ensures Distinct(Forget(cache, id))
  {
    if cache != [] {
      ForgetDistinct(cache[1..], id);
      ForgetLists(cache[1..], id);
      var f := Forget(cache[1..], id);
      forall j | 0 <= j < |f| ensures f[j].id != cache[0].id {
        assert f[j] in f;
      }
    }
  }

  lemma {:induction false} ForgetFirst(cache: seq<Entry>)
    requires cache != [] && Distinct(cache)
    ensures Forget(cache, cache[0].id) == cache[1..] && Distinct(cache[1..])
  {
    ForgetAbsent(cache[1..], cache[0].id);
  }

  lemma {:induction false} ForgetNone(cache: seq<Entry>)
    ensures ForgetAll(cache, {}) == cache
  {
    if cache != [] {
      ForgetNone(cache[1..]);
    }
  }

  lemma {:induction false} ForgetTogether(cache: seq<Entry>, ids: set<Id>, id: Id)
    ensures Forget(ForgetAll(cache, ids), id) == ForgetAll(cache, ids + {id})
  {
    if cache != [] {
      ForgetTogether(cache[1..], ids, id);
    }
  }

  lemma OneMoreDone(previous: map<Id, Descriptor>, entries: map<Id, Descriptor>, done: set<Id>, id: Id)
    requires id !in done && id in previous.Keys + entries.Keys
    ensures var before, after := Differing(previous, entries) * done, Differing(previous, entries) * (done + {id});
            && id !in before && after == if Look(previous, id) != Look(entries, id) then before + {id} else before
  {
  }
}
