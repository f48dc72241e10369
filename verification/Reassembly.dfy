/**
  Gathering the parts of spread arrays (src/services/gather.ts), for a fixed configuration: what a part
  does to the groups being collected and to the refusals remembered, and what is passed on.
 */
module Reassembly {

  const MAX_REFUSED: nat := 1024
  const MAX_GROUP_LENGTH: nat := 256

  type Group = string

  datatype Option<+T> = None | Some(value: T)

  // A value, and what it costs to hold as near as it is measured.
  datatype Item = Item(value: string, size: nat)

  // A record that may be a part: the fields it has of the right kind.
  datatype Input = Input(hasItem: bool, item: Item, group: Option<string>, index: Option<int>, total: Option<int>)

  predicate IsPart(x: Input) {
    && x.hasItem
    && x.group.Some? && x.group.value != "" && |x.group.value| <= MAX_GROUP_LENGTH
    && x.total.Some? && x.total.value > 0
    && x.index.Some? && 0 <= x.index.value < x.total.value
  }

  datatype Config = Config(maxBytes: nat, maxGroups: nat, timeoutMs: nat)

  datatype Collecting = Collecting(items: map<nat, Item>, total: nat, bytes: nat, startedAt: nat)

  // Refusals are remembered oldest first.
  datatype State = State(collecting: map<Group, Collecting>, refused: seq<(Group, nat)>)

  datatype Outcome = PassedThrough | Nothing | Refused | Whole(group: Group, items: seq<Item>)

  // ---------------------------------------------------------------- one value

  predicate IsRefused(s: State, g: Group) {
    exists r :: r in s.refused && r.0 == g
  }

  function Fresh(refused: seq<(Group, nat)>, now: nat, timeoutMs: nat): seq<(Group, nat)> {
    if refused == [] then []
    else (if now - refused[0].1 > timeoutMs then [] else [refused[0]]) + Fresh(refused[1..], now, timeoutMs)
  }

  function LetGoOfStale(s: State, c: Config, now: nat): State {
    State(map g | g in s.collecting && now - s.collecting[g].startedAt <= c.timeoutMs :: s.collecting[g],
          Fresh(s.refused, now, c.timeoutMs))
  }

  function Newest(refused: seq<(Group, nat)>): seq<(Group, nat)> {
    if |refused| > MAX_REFUSED then refused[|refused| - MAX_REFUSED..] else refused
  }

  function Refuse(s: State, g: Group, now: nat): State {
    State(s.collecting - {g}, Newest(s.refused + [(g, now)]))
  }

  function InOrder(items: map<nat, Item>, total: nat): (r: seq<Item>)
    requires forall i :: 0 <= i < total ==> i in items
    ensures |r| == total && forall i :: 0 <= i < total ==> r[i] == items[i]
  {
    if total == 0 then [] else InOrder(items, total - 1) + [items[total - 1]]
  }

  function Process(s: State, c: Config, now: nat, x: Input): (State, Outcome)
    requires Sound(s)
  {
    if !IsPart(x) then (s, PassedThrough)
    else Collect(LetGoOfStale(s, c, now), c, now, x.group.value, x.index.value, x.total.value, x.item)
  }

  // What a part does once what is stale was let go of.
  function Collect(t: State, c: Config, now: nat, g: Group, index: nat, total: nat, item: Item): (State, Outcome)
    requires Sound(t) && index < total
  {
    if IsRefused(t, g) then (t, Nothing)
    else if g !in t.collecting && |t.collecting| >= c.maxGroups then (Refuse(t, g, now), Refused)
    else
      var held := if g in t.collecting then t.collecting[g] else Collecting(map[], total, 0, now);
      if held.total != total then (Refuse(t, g, now), Refused) else Add(t, c, now, g, held, index, item)
  }

  function Add(t: State, c: Config, now: nat, g: Group, held: Collecting, index: nat, item: Item): (State, Outcome)
    requires Within(held.items, held.total) && index < held.total
  {
    if index in held.items then (t.(collecting := t.collecting[g := held]), Nothing)
    else
      var more := held.(items := held.items[index := item], bytes := held.bytes + item.size);
      if more.bytes > c.maxBytes then (Refuse(t, g, now), Refused)
      else if |more.items| < held.total then (t.(collecting := t.collecting[g := more]), Nothing)
      else
        AllIndices(more.items, held.total);
        (t.(collecting := t.collecting - {g}), Whole(g, InOrder(more.items, held.total)))
  }

  // ---------------------------------------------------------------- counting indices

  predicate Within(items: map<nat, Item>, total: nat) {
    forall i :: i in items ==> i < total
  }

  ghost predicate Sound(s: State) {
    forall g :: g in s.collecting ==> Within(s.collecting[g].items, s.collecting[g].total)
  }

  function Indices(n: nat): (r: set<nat>)
    ensures |r| == n && forall i: nat :: i in r <==> i < n
  {
    if n == 0 then {} else Indices(n - 1) + {n - 1}
  }

  lemma SubsetSize<T>(a: set<T>, b: set<T>)
    requires a <= b
    ensures |a| <= |b| && (|a| == |b| ==> a == b)
  {
    assert b == a + (b - a);
    assert |b| == |a| + |b - a|;
  }

  // A group with as many parts as it has in all has every one of them.
  lemma AllIndices(items: map<nat, Item>, total: nat)
    requires Within(items, total)
    ensures |items| <= total
    ensures |items| >= total ==> forall i :: 0 <= i < total ==> i in items
  {
    assert items.Keys <= Indices(total);
    SubsetSize(items.Keys, Indices(total));
    assert |items.Keys| == |items|;
  }

  // ---------------------------------------------------------------- bounds

  // What the parts held cost together.
  ghost function Measured(items: map<nat, Item>, below: nat): nat {
    if below == 0 then 0
    else Measured(items, below - 1) + (if below - 1 in items then items[below - 1].size else 0)
  }

  lemma {:induction false} MeasuredAdd(items: map<nat, Item>, i: nat, item: Item, below: nat)
    requires i !in items
    ensures Measured(items[i := item], below) == Measured(items, below) + (if i < below then item.size else 0)
  {
    if below > 0 {
      MeasuredAdd(items, i, item, below - 1);
    }
  }

  // A group being collected is incomplete, holds at most the bytes allowed, and is not refused.
  ghost predicate GroupOk(s: State, c: Config, g: Group) {
    g in s.collecting ==>
      var held := s.collecting[g];
      && Within(held.items, held.total) && 0 < |held.items| < held.total
      && held.bytes == Measured(held.items, held.total) <= c.maxBytes
      && !IsRefused(s, g)
  }

  ghost predicate Inv(s: State, c: Config) {
    && (forall g: Group :: GroupOk(s, c, g))
    && |s.collecting| <= c.maxGroups
    && |s.refused| <= MAX_REFUSED
    && (forall i, j :: 0 <= i < j < |s.refused| ==> s.refused[i].0 != s.refused[j].0)
  }

  lemma {:induction false} FreshKeeps(refused: seq<(Group, nat)>, now: nat, timeoutMs: nat)
    requires forall i, j :: 0 <= i < j < |refused| ==> refused[i].0 != refused[j].0
    ensures var f := Fresh(refused, now, timeoutMs);
            && (forall r :: r in f <==> r in refused && now - r.1 <= timeoutMs)
            && |f| <= |refused|
            && (forall i, j :: 0 <= i < j < |f| ==> f[i].0 != f[j].0)
  {
    if refused != [] {
      FreshKeeps(refused[1..], now, timeoutMs);
      assert refused == [refused[0]] + refused[1..];
      var f := Fresh(refused[1..], now, timeoutMs);
      forall j | 0 <= j < |f| ensures f[j].0 != refused[0].0 {
        assert f[j] in refused[1..];
      }
    }
  }

  lemma {:induction false} StaleKeeps(s: State, c: Config, now: nat)
    requires Inv(s, c)
    ensures Inv(LetGoOfStale(s, c, now), c)
    ensures LetGoOfStale(s, c, now).collecting.Keys <= s.collecting.Keys
  {
    var t := LetGoOfStale(s, c, now);
    FreshKeeps(s.refused, now, c.timeoutMs);
    SubsetSize(t.collecting.Keys, s.collecting.Keys);
    assert |t.collecting.Keys| == |t.collecting| && |s.collecting.Keys| == |s.collecting|;
    forall g: Group ensures GroupOk(t, c, g) { assert GroupOk(s, c, g); }
  }

  lemma {:induction false} RefuseKeeps(s: State, c: Config, g: Group, now: nat)
    requires Inv(s, c) && !IsRefused(s, g)
    ensures Inv(Refuse(s, g, now), c) && IsRefused(Refuse(s, g, now), g)
  {
    var r := Refuse(s, g, now);
    SubsetSize(r.collecting.Keys, s.collecting.Keys);
    assert |r.collecting.Keys| == |r.collecting| && |s.collecting.Keys| == |s.collecting|;
    var all := s.refused + [(g, now)];
    assert forall i :: 0 <= i < |s.refused| ==> s.refused[i] in s.refused;
    assert r.refused[|r.refused| - 1] == (g, now);
    forall h: Group ensures GroupOk(r, c, h) {
      assert GroupOk(s, c, h);
      assert forall x :: x in r.refused ==> x in s.refused || x == (g, now);
    }
  }

  lemma {:induction false} HoldKeeps(s: State, c: Config, g: Group, held: Collecting)
    requires Inv(s, c) && !IsRefused(s, g)
    requires Within(held.items, held.total) && 0 < |held.items| < held.total
    requires held.bytes == Measured(held.items, held.total) <= c.maxBytes
    requires g in s.collecting || |s.collecting| < c.maxGroups
    ensures Inv(s.(collecting := s.collecting[g := held]), c)
  {
    var r := s.(collecting := s.collecting[g := held]);
    assert r.collecting.Keys == s.collecting.Keys + {g};
    assert |r.collecting.Keys| == |r.collecting| && |s.collecting.Keys| == |s.collecting|;
    forall h: Group ensures GroupOk(r, c, h) { assert GroupOk(s, c, h); }
  }

  lemma {:induction false} EmitKeeps(s: State, c: Config, g: Group)
    requires Inv(s, c)
    ensures Inv(s.(collecting := s.collecting - {g}), c)
  {
    var r := s.(collecting := s.collecting - {g});
    SubsetSize(r.collecting.Keys, s.collecting.Keys);
    assert |r.collecting.Keys| == |r.collecting| && |s.collecting.Keys| == |s.collecting|;
    forall h: Group ensures GroupOk(r, c, h) { assert GroupOk(s, c, h); }
  }

  lemma {:induction false} InvSound(s: State, c: Config)
    requires Inv(s, c)
    ensures Sound(s)
  {
    forall g | g in s.collecting ensures Within(s.collecting[g].items, s.collecting[g].total) {
      assert GroupOk(s, c, g);
    }
  }

  lemma {:induction false} ProcessKeeps(s: State, c: Config, now: nat, x: Input)
    requires Inv(s, c)
    ensures Sound(s) && Inv(Process(s, c, now, x).0, c)
  {
    InvSound(s, c);
    if IsPart(x) {
      StaleKeeps(s, c, now);
      InvSound(LetGoOfStale(s, c, now), c);
      CollectKeeps(LetGoOfStale(s, c, now), c, now, x.group.value, x.index.value, x.total.value, x.item);
    }
  }

  lemma {:induction false} CollectKeeps(t: State, c: Config, now: nat, g: Group, index: nat, total: nat, item: Item)
    requires Inv(t, c) && Sound(t) && index < total
    ensures Inv(Collect(t, c, now, g, index, total, item).0, c)
  {
    assert GroupOk(t, c, g);
    if !IsRefused(t, g) {
      RefuseKeeps(t, c, g, now);
      if g in t.collecting || |t.collecting| < c.maxGroups {
        var held := if g in t.collecting then t.collecting[g] else Collecting(map[], total, 0, now);
        if held.total == total {
          AddKeeps(t, c, now, g, held, index, item);
        }
      }
    }
  }

  lemma {:induction false} EmptyMeasures(below: nat)
    ensures Measured(map[], below) == 0
  {
    if below > 0 {
      EmptyMeasures(below - 1);
    }
  }

  lemma {:induction false} AddKeeps(t: State, c: Config, now: nat, g: Group, held: Collecting, index: nat, item: Item)
    requires Inv(t, c) && !IsRefused(t, g) && Within(held.items, held.total) && index < held.total
    requires if g in t.collecting then held == t.collecting[g]
             else held.items == map[] && held.bytes == 0 && |t.collecting| < c.maxGroups
    ensures Inv(Add(t, c, now, g, held, index, item).0, c)
  {
    assert GroupOk(t, c, g);
    if index in held.items {
      assert t.collecting[g := held] == t.collecting;
    } else {
      EmptyMeasures(held.total);
      NewPartKeeps(t, c, now, g, held, index, item);
    }
  }

  lemma {:induction false} NewPartKeeps(t: State, c: Config, now: nat, g: Group, held: Collecting, index: nat, item: Item)
    requires Inv(t, c) && !IsRefused(t, g) && Within(held.items, held.total) && index < held.total && index !in held.items
    requires held.bytes == Measured(held.items, held.total) && (g in t.collecting || |t.collecting| < c.maxGroups)
    ensures Inv(Add(t, c, now, g, held, index, item).0, c)
  {
    MeasuredAdd(held.items, index, item, held.total);
    var more := held.(items := held.items[index := item], bytes := held.bytes + item.size);
    if more.bytes > c.maxBytes {
      RefuseKeeps(t, c, g, now);
    } else if |more.items| < held.total {
      HoldKeeps(t, c, g, more);
    } else {
      EmitKeeps(t, c, g);
    }
  }

  // ---------------------------------------------------------------- every run

  datatype Arrival = Arrival(now: nat, input: Input)

  const EMPTY := State(map[], [])

  ghost function After(c: Config, run: seq<Arrival>): (s: State)
    ensures Inv(s, c)
  {
    if run == [] then EMPTY
    else
      var before := After(c, run[..|run| - 1]);
      ProcessKeeps(before, c, run[|run| - 1].now, run[|run| - 1].input);
      Process(before, c, run[|run| - 1].now, run[|run| - 1].input).0
  }

  ghost function Answer(c: Config, run: seq<Arrival>): Outcome
    requires run != []
  {
    var before := After(c, run[..|run| - 1]);
    InvSound(before, c);
    Process(before, c, run[|run| - 1].now, run[|run| - 1].input).1
  }

  // In every run: at most so many groups are incomplete, each holds at most so much as measured, at
  // most so many refusals are remembered, and none of what is remembered is being collected.
  lemma {:induction false} Bounded(c: Config, run: seq<Arrival>, g: Group)
    ensures var s := After(c, run);
            && |s.collecting| <= c.maxGroups && |s.refused| <= MAX_REFUSED
            && (g in s.collecting ==>
                  && Measured(s.collecting[g].items, s.collecting[g].total) <= c.maxBytes
                  && |s.collecting[g].items| < s.collecting[g].total
                  && !IsRefused(s, g))
  {
    assert GroupOk(After(c, run), c, g);
  }

  // A part of a group that was refused, while that is remembered, collects nothing.
  lemma {:induction false} RefusedCollectsNothing(c: Config, run: seq<Arrival>, now: nat, x: Input)
    requires IsPart(x) && IsRefused(LetGoOfStale(After(c, run), c, now), x.group.value)
    ensures Answer(c, run + [Arrival(now, x)]).Nothing?
    ensures After(c, run + [Arrival(now, x)]) == LetGoOfStale(After(c, run), c, now)
    ensures x.group.value !in After(c, run + [Arrival(now, x)]).collecting
  {
    assert (run + [Arrival(now, x)])[..|run|] == run;
    StaleKeeps(After(c, run), c, now);
    assert GroupOk(LetGoOfStale(After(c, run), c, now), c, x.group.value);
  }
}
