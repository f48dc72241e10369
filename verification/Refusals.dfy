/**
  What one value does to the groups being gathered (src/services/gather.ts), told from what is held and remembered when
  it arrives, and which refusals are remembered after a run.
 */
module Refusals {
  import opened Marks
  import opened Reassembly

  // ---------------------------------------------------------------- one value

  // A value is passed on as it is exactly when it is no part of anything.
  lemma {:induction false} PassedOnExactly(s: State, c: Config, now: nat, x: Input)
    requires Inv(s, c) && Sound(s)
    ensures Process(s, c, now, x).1 == PassedThrough <==>
            !(&& x.hasItem
              && x.group.Some? && 1 <= |x.group.value| <= 256
              && x.total.Some? && x.index.Some? && 0 <= x.index.value < x.total.value)
    ensures Process(s, c, now, x).1 == PassedThrough ==> Process(s, c, now, x).0 == s
  {
  }

  // What is left when a part arrives: whatever began no longer ago than the timeout, in order.
  ghost predicate LeftOf(s: State, c: Config, now: nat, t: State) {
    && (forall g :: g in t.collecting <==> g in s.collecting && now - s.collecting[g].startedAt <= c.timeoutMs)
    && (forall g :: g in t.collecting ==> t.collecting[g] == s.collecting[g])
    && t.refused == Lately(s.refused, now, c.timeoutMs)
  }

  function Lately(refused: seq<(Group, nat)>, now: nat, timeoutMs: nat): seq<(Group, nat)> {
    if refused == [] then []
    else
      var init, last := refused[..|refused| - 1], refused[|refused| - 1];
      Lately(init, now, timeoutMs) + Still(last, now, timeoutMs)
  }

  function Still(r: (Group, nat), now: nat, timeoutMs: nat): seq<(Group, nat)> {
    if now - r.1 <= timeoutMs then [r] else []
  }

  lemma {:induction false} LatelyHas(refused: seq<(Group, nat)>, now: nat, timeoutMs: nat)
    ensures forall x :: x in Lately(refused, now, timeoutMs) <==> x in refused && now - x.1 <= timeoutMs
  {
    if refused != [] {
      LatelyHas(refused[..|refused| - 1], now, timeoutMs);
      assert refused == refused[..|refused| - 1] + [refused[|refused| - 1]];
    }
  }

  lemma {:induction false} FreshIsLately(refused: seq<(Group, nat)>, now: nat, timeoutMs: nat)
    ensures Fresh(refused, now, timeoutMs) == Lately(refused, now, timeoutMs)
  {
    if refused != [] {
      FreshIsLately(refused[1..], now, timeoutMs);
      LatelyFront(refused, now, timeoutMs);
    }
  }

  lemma {:induction false} LatelyFront(refused: seq<(Group, nat)>, now: nat, timeoutMs: nat)
    requires refused != []
    ensures Lately(refused, now, timeoutMs)
         == Still(refused[0], now, timeoutMs) + Lately(refused[1..], now, timeoutMs)
  {
    if |refused| > 1 {
      var init, last := refused[..|refused| - 1], refused[|refused| - 1];
      LatelyFront(init, now, timeoutMs);
      assert init[1..] == refused[1..][..|refused| - 2];
      Together(Still(refused[0], now, timeoutMs), Lately(init[1..], now, timeoutMs), Still(last, now, timeoutMs));
    } else {
      assert refused[..0] == [] && refused[1..] == [];
    }
  }

  lemma Together(a: seq<(Group, nat)>, b: seq<(Group, nat)>, c: seq<(Group, nat)>)
    ensures a + b + c == a + (b + c)
  {
  }

  // A part of a group that is refused now: it names another number of parts than the ones before it, is one too many
  // for the bytes a group may have, or begins one group too many.
  predicate RefusesNow(t: State, c: Config, g: Group, index: nat, total: nat, item: Item) {
    if g !in t.collecting then |t.collecting| >= c.maxGroups || item.size > c.maxBytes
    else
      || t.collecting[g].total != total
      || (index !in t.collecting[g].items && t.collecting[g].bytes + item.size > c.maxBytes)
  }

  // It is the last part its group is missing.
  predicate CompletesNow(t: State, g: Group, index: nat, total: nat) {
    if g !in t.collecting then total == 1
    else index !in t.collecting[g].items && |t.collecting[g].items| + 1 == total
  }

  // At most the newest 1024 refusals.
  predicate NewestOf(r: seq<(Group, nat)>, all: seq<(Group, nat)>) {
    if |all| <= 1024 then r == all else r == all[|all| - 1024..]
  }

  // A group that comes out: each part at its place, this one at its own.
  ghost predicate ComesOut(t: State, g: Group, index: nat, total: nat, item: Item, answer: Outcome) {
    && answer.Whole? && answer.group == g && |answer.items| == total
    && forall i: nat :: i < total ==>
         if i == index then answer.items[i] == item
         else g in t.collecting && i in t.collecting[g].items && answer.items[i] == t.collecting[g].items[i]
  }

  // What is held of a group with one part more; it began when its first part came.
  function HeldWith(t: State, g: Group, index: nat, total: nat, item: Item, now: nat): Collecting {
    if g !in t.collecting then Collecting(map[index := item], total, item.size, now)
    else
      var held := t.collecting[g];
      Collecting(held.items[index := item], total, held.bytes + item.size, held.startedAt)
  }

  // A part does nothing while its group's refusal is remembered. Else it is refused as above, which forgets the group
  // and is remembered; or ignored when it came before; or it is held with what came before; and the last completes its
  // group, which comes out in order and is forgotten.
  ghost predicate Does(t: State, c: Config, now: nat, g: Group, index: nat, total: nat, item: Item, n: State, answer: Outcome) {
    if exists r :: r in t.refused && r.0 == g then n == t && answer == Nothing
    else if RefusesNow(t, c, g, index, total, item) then
      answer == Refused && n.collecting == t.collecting - {g} && NewestOf(n.refused, t.refused + [(g, now)])
    else if g in t.collecting && index in t.collecting[g].items then n == t && answer == Nothing
    else if CompletesNow(t, g, index, total) then
      n == State(t.collecting - {g}, t.refused) && ComesOut(t, g, index, total, item, answer)
    else
      n == State(t.collecting[g := HeldWith(t, g, index, total, item, now)], t.refused) && answer == Nothing
  }

  lemma {:induction false} PartExactly(s: State, c: Config, now: nat, x: Input)
    requires Inv(s, c) && Sound(s) && IsPart(x)
    ensures var (n, answer) := Process(s, c, now, x);
            exists t :: LeftOf(s, c, now, t) && Does(t, c, now, x.group.value, x.index.value, x.total.value, x.item, n, answer)
  {
    var t := LetGoOfStale(s, c, now);
    StaleKeeps(s, c, now);
    FreshIsLately(s.refused, now, c.timeoutMs);
    InvSound(t, c);
    PartDoes(t, c, now, x.group.value, x.index.value, x.total.value, x.item);
    assert LeftOf(s, c, now, t);
    var (n, answer) := Process(s, c, now, x);
    assert Does(t, c, now, x.group.value, x.index.value, x.total.value, x.item, n, answer);
  }

  lemma PartDoes(t: State, c: Config, now: nat, g: Group, index: nat, total: nat, item: Item)
    requires Inv(t, c) && Sound(t) && index < total
    ensures var (n, answer) := Collect(t, c, now, g, index, total, item); Does(t, c, now, g, index, total, item, n, answer)
  {
    assert GroupOk(t, c, g);
    if !IsRefused(t, g) && !RefusesNow(t, c, g, index, total, item) {
      var held := if g in t.collecting then t.collecting[g] else Collecting(map[], total, 0, now);
      AddDoes(t, c, now, g, held, index, item);
    }
  }

  lemma AddDoes(t: State, c: Config, now: nat, g: Group, held: Collecting, index: nat, item: Item)
    requires Inv(t, c) && !IsRefused(t, g) && Within(held.items, held.total) && index < held.total
    requires held == if g in t.collecting then t.collecting[g] else Collecting(map[], held.total, 0, now)
    requires !RefusesNow(t, c, g, index, held.total, item)
    ensures var (n, answer) := Add(t, c, now, g, held, index, item); Does(t, c, now, g, index, held.total, item, n, answer)
  {
    if index in held.items {
      assert t.collecting[g := held] == t.collecting;
    } else {
      NewItemDoes(t, c, now, g, held, index, item);
    }
  }

  lemma NewItemDoes(t: State, c: Config, now: nat, g: Group, held: Collecting, index: nat, item: Item)
    requires Inv(t, c) && !IsRefused(t, g) && Within(held.items, held.total) && index < held.total && index !in held.items
    requires held == if g in t.collecting then t.collecting[g] else Collecting(map[], held.total, 0, now)
    requires held.bytes + item.size <= c.maxBytes
    ensures var (n, answer) := Add(t, c, now, g, held, index, item);
            if CompletesNow(t, g, index, held.total) then
              n == State(t.collecting - {g}, t.refused) && ComesOut(t, g, index, held.total, item, answer)
            else
              n == State(t.collecting[g := HeldWith(t, g, index, held.total, item, now)], t.refused) && answer == Nothing
  {
    OneMoreItem(held.items, index, item);
    AllIndices(held.items[index := item], held.total);
    if |held.items| + 1 == held.total {
      CompletesIt(t, c, now, g, held, index, item);
    }
  }

  lemma CompletesIt(t: State, c: Config, now: nat, g: Group, held: Collecting, index: nat, item: Item)
    requires Inv(t, c) && Within(held.items, held.total) && index < held.total && index !in held.items
    requires held == if g in t.collecting then t.collecting[g] else Collecting(map[], held.total, 0, now)
    requires |held.items| + 1 == held.total == |held.items[index := item]| && held.bytes + item.size <= c.maxBytes
    ensures var (n, answer) := Add(t, c, now, g, held, index, item);
            n == State(t.collecting - {g}, t.refused) && ComesOut(t, g, index, held.total, item, answer)
  {
    var more := held.items[index := item];
    AllIndices(more, held.total);
    InOrderWith(held.items, index, item, more, held.total);
  }

  lemma InOrderWith(items: map<nat, Item>, index: nat, item: Item, more: map<nat, Item>, total: nat)
    requires more == items[index := item] && forall i :: 0 <= i < total ==> i in more
    ensures forall i: nat :: i < total ==>
              if i == index then InOrder(more, total)[i] == item else i in items && InOrder(more, total)[i] == items[i]
  {
    forall i: nat | i < total
      ensures if i == index then InOrder(more, total)[i] == item else i in items && InOrder(more, total)[i] == items[i]
    {
      assert i in more && InOrder(more, total)[i] == more[i];
    }
  }

  lemma OneMoreItem(items: map<nat, Item>, index: nat, item: Item)
    ensures index !in items ==> |items[index := item]| == |items| + 1
  {
    var more := items[index := item];
    assert more.Keys == items.Keys + {index} && |more.Keys| == |more| && |items.Keys| == |items|;
  }

  // ---------------------------------------------------------------- what is remembered

  ghost predicate RefusedAt(s: State, c: Config, a: Arrival, r: (Group, nat))
    requires Sound(s)
  {
    Process(s, c, a.now, a.input).1 == Refused && r == (a.input.group.value, a.now)
  }

  // A part came that found the refusal too old, or a refusal that found 1024 lately and this the oldest of them.
  ghost predicate Forgotten(s: State, c: Config, a: Arrival, r: (Group, nat))
    requires Sound(s)
  {
    IsPart(a.input) &&
    (|| a.now - r.1 > c.timeoutMs
     || (&& Process(s, c, a.now, a.input).1 == Refused
         && var lately := Lately(s.refused, a.now, c.timeoutMs);
            |lately| >= 1024 && lately[0] == r))
  }

  lemma {:induction false} RefusalStep(s: State, c: Config, a: Arrival, r: (Group, nat))
    requires Inv(s, c) && Sound(s)
    ensures r in Process(s, c, a.now, a.input).0.refused <==> RefusedAt(s, c, a, r) || (r in s.refused && !Forgotten(s, c, a, r))
  {
    if IsPart(a.input) {
      PartExactly(s, c, a.now, a.input);
      var (n, answer) := Process(s, c, a.now, a.input);
      var g := a.input.group.value;
      var t :| LeftOf(s, c, a.now, t) && Does(t, c, a.now, g, a.input.index.value, a.input.total.value, a.input.item, n, answer);
      StaleKeeps(s, c, a.now);
      FreshIsLately(s.refused, a.now, c.timeoutMs);
      LatelyHas(s.refused, a.now, c.timeoutMs);
      assert t.refused == LetGoOfStale(s, c, a.now).refused;
      if answer == Refused {
        NewestKeep(t.refused, (g, a.now), n.refused, r);
      }
    }
  }

  lemma NewestKeep(before: seq<(Group, nat)>, last: (Group, nat), kept: seq<(Group, nat)>, r: (Group, nat))
    requires |before| <= 1024 && NewestOf(kept, before + [last])
    requires forall i, j :: 0 <= i < j < |before| ==> before[i].0 != before[j].0
    ensures r in kept <==> r == last || (r in before && !(|before| >= 1024 && before[0] == r))
  {
    var all := before + [last];
    assert forall i :: 0 <= i < |before| ==> all[i] == before[i];
    if |before| == 1024 {
      assert kept == all[1..] == before[1..] + [last];
      assert before == [before[0]] + before[1..];
      assert forall i :: 0 <= i < |before[1..]| ==> before[1..][i] == before[i + 1];
    }
  }

  ghost function Told(c: Config, run: seq<Arrival>, r: (Group, nat)): seq<Mark> {
    if run == [] then []
    else
      var before := After(c, run[..|run| - 1]);
      InvSound(before, c);
      Told(c, run[..|run| - 1], r) + [Mark(RefusedAt(before, c, run[|run| - 1], r), Forgotten(before, c, run[|run| - 1], r))]
  }

  // In every run a refusal is remembered exactly when a part was refused then, and since then none came that found it
  // too old or needed its place.
  lemma {:induction false} RememberedExactly(c: Config, run: seq<Arrival>, r: (Group, nat))
    ensures r in After(c, run).refused <==> Stayed(Told(c, run, r))
  {
    if run != [] {
      var init, last := run[..|run| - 1], run[|run| - 1];
      RememberedExactly(c, init, r);
      InvSound(After(c, init), c);
      RefusalStep(After(c, init), c, last, r);
      StayedThen(Told(c, init, r), Mark(RefusedAt(After(c, init), c, last, r), Forgotten(After(c, init), c, last, r)));
    }
  }
}
