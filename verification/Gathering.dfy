/**
  What Gather is for (src/services/gather.ts): arrays spread into parts come out whole, in order, with their
  last missing part, whatever order their parts arrive in and however the groups are mixed. The conditions are
  on what arrives alone: nothing is assumed of what the service does with it.

  A part that comes after its group is complete begins the group again: what counts is what has arrived of a
  group since it last came out.
 */
module Gathering {
  import opened Reassembly

  // One part a Spread sent on, as it arrives: of which array, and which of its items.
  datatype Sent = Sent(now: nat, group: Group, index: nat)

  type Arrays = map<Group, seq<Item>>

  ghost predicate Known(arrays: Arrays, x: Sent) {
    && x.group in arrays && x.index < |arrays[x.group]|
    && x.group != "" && |x.group| <= MAX_GROUP_LENGTH
  }

  ghost function AsArrival(arrays: Arrays, x: Sent): Arrival
    requires Known(arrays, x)
  {
    Arrival(x.now, Input(true, arrays[x.group][x.index], Some(x.group), Some(x.index), Some(|arrays[x.group]|)))
  }

  ghost function AsArrivals(arrays: Arrays, run: seq<Sent>): (r: seq<Arrival>)
    requires forall x :: x in run ==> Known(arrays, x)
    ensures |r| == |run|
  {
    if run == [] then []
    else
      var init := run[..|run| - 1];
      assert run[|run| - 1] in run && forall x :: x in init ==> x in run;
      AsArrivals(arrays, init) + [AsArrival(arrays, run[|run| - 1])]
  }

  // ---------------------------------------------------------------- what has arrived

  ghost predicate Covers(arrays: Arrays, g: Group, indices: set<nat>) {
    g in arrays && forall i :: 0 <= i < |arrays[g]| ==> i in indices
  }

  // The indices that arrived of a group, in all.
  ghost function Seen(run: seq<Sent>, g: Group): set<nat> {
    if run == [] then {}
    else Seen(run[..|run| - 1], g) + (if run[|run| - 1].group == g then {run[|run| - 1].index} else {})
  }

  // Those since it last came out.
  ghost function Round(arrays: Arrays, run: seq<Sent>, g: Group): set<nat> {
    if run == [] then {}
    else
      var before, x := Round(arrays, run[..|run| - 1], g), run[|run| - 1];
      if x.group != g then before
      else if Covers(arrays, g, before + {x.index}) then {}
      else before + {x.index}
  }

  // When the first of those arrived.
  ghost function Since(arrays: Arrays, run: seq<Sent>, g: Group): nat {
    if run == [] then 0
    else
      var init, x := run[..|run| - 1], run[|run| - 1];
      if x.group == g && Round(arrays, init, g) == {} then x.now else Since(arrays, init, g)
  }

  // The last part is the last its group missed.
  ghost predicate Completes(arrays: Arrays, run: seq<Sent>, g: Group) {
    && run != [] && run[|run| - 1].group == g
    && Covers(arrays, g, Round(arrays, run[..|run| - 1], g) + {run[|run| - 1].index})
  }

  ghost predicate Comes(arrays: Arrays, run: seq<Sent>, m: nat, g: Group) {
    m < |run| && Completes(arrays, run[..m + 1], g)
  }

  ghost function Begun(run: seq<Sent>): set<Group> {
    set k | 0 <= k < |run| :: run[k].group
  }

  ghost function Incomplete(arrays: Arrays, run: seq<Sent>): set<Group> {
    set g | g in Begun(run) && Round(arrays, run, g) != {}
  }

  lemma RoundAppend(arrays: Arrays, run: seq<Sent>, x: Sent, g: Group)
    ensures var before := Round(arrays, run, g);
            && Round(arrays, run + [x], g) == (if x.group != g then before
                                               else if Covers(arrays, g, before + {x.index}) then {}
                                               else before + {x.index})
            && Since(arrays, run + [x], g) == (if x.group == g && before == {} then x.now else Since(arrays, run, g))
            && (Completes(arrays, run + [x], g) <==> x.group == g && Covers(arrays, g, before + {x.index}))
  {
    assert (run + [x])[..|run|] == run;
  }

  lemma {:induction false} RoundWithin(arrays: Arrays, run: seq<Sent>, g: Group)
    requires forall x :: x in run ==> Known(arrays, x)
    ensures g in arrays ==> forall i :: i in Round(arrays, run, g) ==> i < |arrays[g]|
    ensures g !in Begun(run) ==> Round(arrays, run, g) == {}
    ensures Round(arrays, run, g) != {} ==> g in arrays && arrays[g] != []
    ensures g in arrays && arrays[g] != [] ==> !Covers(arrays, g, Round(arrays, run, g))
  {
    NothingCovers(arrays, g);
    if run != [] {
      var init, x := run[..|run| - 1], run[|run| - 1];
      assert run == init + [x] && forall y :: y in init ==> y in run;
      assert Known(arrays, x);
      RoundWithin(arrays, init, g);
      BegunAppend(init, x);
    }
  }

  lemma NothingCovers(arrays: Arrays, g: Group)
    ensures g in arrays && arrays[g] != [] ==> !Covers(arrays, g, {})
  {
    if g in arrays && arrays[g] != [] {
      assert 0 < |arrays[g]|;
      var nothing: set<nat> := {};
      assert 0 !in nothing;
    }
  }

  lemma BegunAppend(run: seq<Sent>, x: Sent)
    ensures Begun(run + [x]) == Begun(run) + {x.group}
  {
    forall g | g in Begun(run) ensures g in Begun(run + [x]) {
      var k :| 0 <= k < |run| && run[k].group == g;
      assert (run + [x])[k].group == g;
    }
    assert (run + [x])[|run|].group == x.group;
  }

  // ---------------------------------------------------------------- the conditions

  // Before the last part arrives: nothing incomplete is older than the timeout, and there is room for the
  // group, if it begins.
  ghost predicate Gentle(arrays: Arrays, c: Config, before: seq<Sent>, x: Sent) {
    && Known(arrays, x)
    && (forall g :: g in Incomplete(arrays, before) ==> x.now - Since(arrays, before, g) <= c.timeoutMs)
    && (Round(arrays, before, x.group) == {} ==> |Incomplete(arrays, before)| < c.maxGroups)
  }

  ghost function Whole'(arrays: Arrays, g: Group): map<nat, Item>
    requires g in arrays
  {
    map i | 0 <= i < |arrays[g]| :: arrays[g][i]
  }

  ghost predicate Fits(arrays: Arrays, c: Config) {
    forall g :: g in arrays ==> Measured(Whole'(arrays, g), |arrays[g]|) <= c.maxBytes
  }

  ghost predicate GentleRun(arrays: Arrays, c: Config, run: seq<Sent>)
    decreases |run|
  {
    run == [] || (GentleRun(arrays, c, run[..|run| - 1]) && Gentle(arrays, c, run[..|run| - 1], run[|run| - 1]))
  }

  lemma {:induction false} GentleKnown(arrays: Arrays, c: Config, run: seq<Sent>)
    requires GentleRun(arrays, c, run)
    ensures forall x :: x in run ==> Known(arrays, x)
  {
    if run != [] {
      GentleKnown(arrays, c, run[..|run| - 1]);
      assert run == run[..|run| - 1] + [run[|run| - 1]];
    }
  }

  // ---------------------------------------------------------------- what is held

  ghost function Held(arrays: Arrays, g: Group, indices: set<nat>): map<nat, Item>
    requires g in arrays
  {
    map i | i in indices && i < |arrays[g]| :: arrays[g][i]
  }

  ghost predicate Holds(arrays: Arrays, run: seq<Sent>, s: State, g: Group) {
    if Round(arrays, run, g) != {} then
      && g in arrays && g in s.collecting
      && s.collecting[g].items == Held(arrays, g, Round(arrays, run, g))
      && s.collecting[g].total == |arrays[g]| && s.collecting[g].startedAt == Since(arrays, run, g)
    else g !in s.collecting
  }

  // As many as there are, is all of them.
  lemma {:induction false} FullWhenCovered(arrays: Arrays, g: Group, indices: set<nat>)
    requires g in arrays && forall i :: i in indices ==> i < |arrays[g]|
    ensures |Held(arrays, g, indices)| <= |arrays[g]|
    ensures Covers(arrays, g, indices) <==> |Held(arrays, g, indices)| >= |arrays[g]|
  {
    var h := Held(arrays, g, indices);
    AllIndices(h, |arrays[g]|);
    if Covers(arrays, g, indices) {
      assert h.Keys == Indices(|arrays[g]|);
      assert |h.Keys| == |h|;
    } else if |h| >= |arrays[g]| {
      forall i | 0 <= i < |arrays[g]| ensures i in indices { assert i in h; }
    }
  }

  lemma {:induction false} MeasuredLess(a: map<nat, Item>, b: map<nat, Item>, below: nat)
    requires forall i :: i in a ==> i in b && b[i] == a[i]
    ensures Measured(a, below) <= Measured(b, below)
  {
    if below > 0 {
      MeasuredLess(a, b, below - 1);
    }
  }

  // ---------------------------------------------------------------- the result

  // Nothing was refused, and exactly the incomplete groups are held, each with exactly what arrived of it
  // since it last came out.
  ghost predicate Gathered(arrays: Arrays, c: Config, run: seq<Sent>) {
    && (forall x :: x in run ==> Known(arrays, x))
    && var s := After(c, AsArrivals(arrays, run));
       s.refused == [] && forall g: Group :: Holds(arrays, run, s, g)
  }

  // The last part was answered with the whole array exactly when it completed it.
  ghost predicate Answered(arrays: Arrays, c: Config, run: seq<Sent>)
    requires run != [] && forall x :: x in run ==> Known(arrays, x)
  {
    var g := run[|run| - 1].group;
    Answer(c, AsArrivals(arrays, run)) == if Completes(arrays, run, g) then Whole(g, arrays[g]) else Nothing
  }

  lemma {:induction false} GathersWhatWasSpread(arrays: Arrays, c: Config, run: seq<Sent>)
    requires Fits(arrays, c) && GentleRun(arrays, c, run)
    ensures Gathered(arrays, c, run) && (run != [] ==> Answered(arrays, c, run))
    decreases |run|
  {
    if run == [] {
      NothingYet(arrays, c);
    } else {
      var init, x := run[..|run| - 1], run[|run| - 1];
      assert Gentle(arrays, c, init, x);
      assert run == init + [x];
      GathersWhatWasSpread(arrays, c, init);
      GentleKnown(arrays, c, run);
      NextPart(arrays, c, init, x, run);
    }
  }

  lemma NothingYet(arrays: Arrays, c: Config)
    ensures Gathered(arrays, c, [])
  {
    forall g: Group ensures Holds(arrays, [], EMPTY, g) {}
  }

  lemma {:induction false} NextPart(arrays: Arrays, c: Config, run: seq<Sent>, x: Sent, more: seq<Sent>)
    requires Fits(arrays, c) && Gentle(arrays, c, run, x) && more == run + [x]
    requires Gathered(arrays, c, run) && forall y :: y in more ==> Known(arrays, y)
    ensures Gathered(arrays, c, more) && Answered(arrays, c, more)
  {
    assert (run + [x])[..|run|] == run;
    var arrivals := AsArrivals(arrays, run);
    assert AsArrivals(arrays, run + [x]) == arrivals + [AsArrival(arrays, x)];
    assert (arrivals + [AsArrival(arrays, x)])[..|arrivals|] == arrivals;
    var s := After(c, arrivals);
    InvSound(s, c);
    NothingStale(arrays, c, run, x, s);
    OnePart(arrays, c, run, x, s);
  }

  lemma {:induction false} NothingStale(arrays: Arrays, c: Config, run: seq<Sent>, x: Sent, s: State)
    requires Gentle(arrays, c, run, x) && s.refused == [] && (forall g: Group :: Holds(arrays, run, s, g))
    requires forall y :: y in run ==> Known(arrays, y)
    ensures LetGoOfStale(s, c, x.now) == s
  {
    forall g | g in s.collecting ensures x.now - s.collecting[g].startedAt <= c.timeoutMs {
      assert Holds(arrays, run, s, g);
      RoundWithin(arrays, run, g);
      assert g in Incomplete(arrays, run);
    }
    assert LetGoOfStale(s, c, x.now).collecting == s.collecting;
  }

  // What is held of a part's group before it arrives.
  ghost function HeldBefore(arrays: Arrays, x: Sent, s: State): Collecting
    requires Known(arrays, x)
  {
    if x.group in s.collecting then s.collecting[x.group] else Collecting(map[], |arrays[x.group]|, 0, x.now)
  }

  lemma {:induction false} HeldBeforeIs(arrays: Arrays, c: Config, run: seq<Sent>, x: Sent, s: State)
    requires Gentle(arrays, c, run, x) && (forall y :: y in run ==> Known(arrays, y))
    requires Inv(s, c) && (forall g: Group :: Holds(arrays, run, s, g))
    ensures var held := HeldBefore(arrays, x, s);
            && held.items == Held(arrays, x.group, Round(arrays, run, x.group)) && held.total == |arrays[x.group]|
            && Within(held.items, held.total) && held.bytes == Measured(held.items, held.total)
            && (x.group in s.collecting || |s.collecting| < c.maxGroups)
            && held.startedAt == Since(arrays, run + [x], x.group)
  {
    var g := x.group;
    RoundAppend(arrays, run, x, g);
    RoundWithin(arrays, run, g);
    EmptyMeasures(|arrays[g]|);
    assert Holds(arrays, run, s, g) && GroupOk(s, c, g);
    if g !in s.collecting {
      HeldAreIncomplete(arrays, run, s);
    }
  }

  // What adding a part to what is held comes to.
  ghost predicate Adds(arrays: Arrays, s: State, held: Collecting, g: Group, r: set<nat>, n: State, answer: Outcome)
    requires g in arrays
  {
    && n.refused == s.refused
    && if Covers(arrays, g, r)
       then answer == Whole(g, arrays[g]) && n.collecting == s.collecting - {g}
       else answer == Nothing && g in n.collecting
            && n.collecting == s.collecting[g := n.collecting[g]]
            && n.collecting[g].items == Held(arrays, g, r)
            && n.collecting[g].total == held.total && n.collecting[g].startedAt == held.startedAt
  }

  lemma {:induction false} Added(arrays: Arrays, c: Config, r: set<nat>, x: Sent, s: State, held: Collecting)
    requires Fits(arrays, c) && Known(arrays, x) && !Covers(arrays, x.group, r)
    requires forall i :: i in r ==> i < |arrays[x.group]|
    requires held.items == Held(arrays, x.group, r) && held.total == |arrays[x.group]|
    requires Within(held.items, held.total) && held.bytes == Measured(held.items, held.total)
    ensures var (n, answer) := Add(s, c, x.now, x.group, held, x.index, arrays[x.group][x.index]);
            Adds(arrays, s, held, x.group, r + {x.index}, n, answer)
  {
    if x.index in held.items {
      assert r + {x.index} == r;
    } else {
      AddedNew(arrays, c, r, x, s, held);
    }
  }

  lemma {:induction false} AddedNew(arrays: Arrays, c: Config, r: set<nat>, x: Sent, s: State, held: Collecting)
    requires Fits(arrays, c) && Known(arrays, x)
    requires forall i :: i in r ==> i < |arrays[x.group]|
    requires held.items == Held(arrays, x.group, r) && held.total == |arrays[x.group]|
    requires Within(held.items, held.total) && held.bytes == Measured(held.items, held.total) && x.index !in held.items
    ensures var (n, answer) := Add(s, c, x.now, x.group, held, x.index, arrays[x.group][x.index]);
            Adds(arrays, s, held, x.group, r + {x.index}, n, answer)
  {
    FullWhenCovered(arrays, x.group, r + {x.index});
    NewItems(arrays, c, r, x, held);
    var more := held.items[x.index := arrays[x.group][x.index]];
    AllIndices(more, held.total);
  }

  lemma {:induction false} NewItems(arrays: Arrays, c: Config, r: set<nat>, x: Sent, held: Collecting)
    requires Fits(arrays, c) && Known(arrays, x)
    requires held.items == Held(arrays, x.group, r) && held.total == |arrays[x.group]|
    requires held.bytes == Measured(held.items, held.total) && x.index !in held.items
    ensures var item := arrays[x.group][x.index];
            var items := held.items[x.index := item];
            && items == Held(arrays, x.group, r + {x.index}) && held.bytes + item.size <= c.maxBytes
            && ((forall i :: 0 <= i < held.total ==> i in items) ==> InOrder(items, held.total) == arrays[x.group])
  {
    var g, item := x.group, arrays[x.group][x.index];
    var items := held.items[x.index := item];
    assert items == Held(arrays, g, r + {x.index});
    MeasuredAdd(held.items, x.index, item, held.total);
    MeasuredLess(items, Whole'(arrays, g), held.total);
    if forall i :: 0 <= i < held.total ==> i in items {
      assert InOrder(items, held.total) == arrays[g];
    }
  }

  lemma {:induction false} OnePart(arrays: Arrays, c: Config, run: seq<Sent>, x: Sent, s: State)
    requires Fits(arrays, c) && Gentle(arrays, c, run, x) && (forall y :: y in run + [x] ==> Known(arrays, y))
    requires Sound(s) && Inv(s, c) && s.refused == [] && (forall g: Group :: Holds(arrays, run, s, g))
    requires LetGoOfStale(s, c, x.now) == s
    ensures var (n, answer) := Process(s, c, x.now, AsArrival(arrays, x).input);
            && n.refused == [] && (forall g: Group :: Holds(arrays, run + [x], n, g))
            && answer == if Completes(arrays, run + [x], x.group) then Whole(x.group, arrays[x.group]) else Nothing
  {
    assert forall y :: y in run ==> y in run + [x];
    var held, item, r := HeldBefore(arrays, x, s), arrays[x.group][x.index], Round(arrays, run, x.group);
    HeldBeforeIs(arrays, c, run, x, s);
    RoundWithin(arrays, run, x.group);
    Added(arrays, c, r, x, s, held);
    assert !IsRefused(s, x.group);
    var (n, answer) := Add(s, c, x.now, x.group, held, x.index, item);
    assert (n, answer) == Process(s, c, x.now, AsArrival(arrays, x).input);
    AddedHolds(arrays, run, x, s, held, n, answer);
  }

  // Every group is held as it is to be once the part is added to its own.
  lemma {:induction false} AddedHolds(arrays: Arrays, run: seq<Sent>, x: Sent, s: State, held: Collecting, n: State, answer: Outcome)
    requires Known(arrays, x) && (forall g: Group :: Holds(arrays, run, s, g))
    requires held.total == |arrays[x.group]| && held.startedAt == Since(arrays, run + [x], x.group)
    requires Adds(arrays, s, held, x.group, Round(arrays, run, x.group) + {x.index}, n, answer)
    ensures forall g: Group :: Holds(arrays, run + [x], n, g)
    ensures answer == if Completes(arrays, run + [x], x.group) then Whole(x.group, arrays[x.group]) else Nothing
  {
    forall g: Group ensures Holds(arrays, run + [x], n, g) {
      assert Holds(arrays, run, s, g);
      RoundAppend(arrays, run, x, g);
    }
    RoundAppend(arrays, run, x, x.group);
  }

  lemma {:induction false} HeldAreIncomplete(arrays: Arrays, run: seq<Sent>, s: State)
    requires forall g: Group :: Holds(arrays, run, s, g)
    requires forall y :: y in run ==> Known(arrays, y)
    ensures |s.collecting| == |Incomplete(arrays, run)|
  {
    forall g: Group ensures g in s.collecting.Keys <==> g in Incomplete(arrays, run) {
      assert Holds(arrays, run, s, g);
      RoundWithin(arrays, run, g);
    }
    assert s.collecting.Keys == Incomplete(arrays, run);
    assert |s.collecting.Keys| == |s.collecting|;
  }

  // ---------------------------------------------------------------- what comes out, and when

  // What each part was answered with.
  ghost function Answers(c: Config, arrivals: seq<Arrival>): (r: seq<Outcome>)
    ensures |r| == |arrivals|
  {
    if arrivals == [] then [] else Answers(c, arrivals[..|arrivals| - 1]) + [Answer(c, arrivals)]
  }

  ghost predicate ComesOut(answers: seq<Outcome>, m: nat, g: Group) {
    m < |answers| && answers[m].Whole? && answers[m].group == g
  }

  lemma {:induction false} GentlePrefix(arrays: Arrays, c: Config, run: seq<Sent>, m: nat)
    requires GentleRun(arrays, c, run) && m <= |run|
    ensures GentleRun(arrays, c, run[..m])
    decreases |run|
  {
    if m < |run| {
      assert run[..|run| - 1][..m] == run[..m];
      GentlePrefix(arrays, c, run[..|run| - 1], m);
    } else {
      assert run[..m] == run;
    }
  }

  lemma {:induction false} AnsweredThen(arrays: Arrays, c: Config, run: seq<Sent>, m: nat)
    requires m < |run| && (forall x :: x in run ==> Known(arrays, x))
    ensures forall x :: x in run[..m + 1] ==> Known(arrays, x)
    ensures Answers(c, AsArrivals(arrays, run))[m] == Answer(c, AsArrivals(arrays, run[..m + 1]))
    decreases |run|
  {
    var init := run[..|run| - 1];
    var before, a := AsArrivals(arrays, init), AsArrival(arrays, run[|run| - 1]);
    assert AsArrivals(arrays, run) == before + [a];
    assert (before + [a])[..|before|] == before;
    if m < |init| {
      assert run[..m + 1] == init[..m + 1];
      AnsweredThen(arrays, c, init, m);
    } else {
      assert run[..m + 1] == run;
    }
  }

  // A group comes out, whole and in order, with exactly the parts that complete it.
  lemma {:induction false} AnswersAreDue(arrays: Arrays, c: Config, run: seq<Sent>)
    requires Fits(arrays, c) && GentleRun(arrays, c, run)
    ensures forall x :: x in run ==> Known(arrays, x)
    ensures forall m: nat, g :: ComesOut(Answers(c, AsArrivals(arrays, run)), m, g) <==> Comes(arrays, run, m, g)
    ensures forall m: nat, g :: ComesOut(Answers(c, AsArrivals(arrays, run)), m, g) ==>
              g in arrays && Answers(c, AsArrivals(arrays, run))[m] == Whole(g, arrays[g])
  {
    GentleKnown(arrays, c, run);
    forall m: nat, g
      ensures ComesOut(Answers(c, AsArrivals(arrays, run)), m, g) <==> Comes(arrays, run, m, g)
      ensures ComesOut(Answers(c, AsArrivals(arrays, run)), m, g) ==>
                g in arrays && Answers(c, AsArrivals(arrays, run))[m] == Whole(g, arrays[g])
    {
      if m < |run| {
        AnsweredThen(arrays, c, run, m);
        GentlePrefix(arrays, c, run, m + 1);
        GathersWhatWasSpread(arrays, c, run[..m + 1]);
      }
    }
  }

  // What arrived since a group last came out is what arrived after that.
  lemma {:induction false} RoundSince(arrays: Arrays, run: seq<Sent>, g: Group, n: nat)
    requires n <= |run| && (n > 0 ==> Comes(arrays, run, n - 1, g))
    requires forall m: nat :: n <= m < |run| ==> !Comes(arrays, run, m, g)
    ensures Round(arrays, run, g) == Seen(run[n..], g)
    decreases |run|
  {
    if n == |run| {
      if n > 0 {
        assert run[..n] == run;
      }
    } else {
      var init := run[..|run| - 1];
      forall m: nat | m < |init| ensures Comes(arrays, init, m, g) <==> Comes(arrays, run, m, g) {
        assert init[..m + 1] == run[..m + 1];
      }
      RoundSince(arrays, init, g, n);
      assert run[..|run| - 1 + 1] == run && !Comes(arrays, run, |run| - 1, g);
      assert run[n..][..|run[n..]| - 1] == init[n..];
    }
  }

  // A group comes out with a part exactly when what has arrived of it since it came out before, that part
  // with it, is every part it has.
  lemma {:induction false} ComesOutWhenCovered(arrays: Arrays, c: Config, run: seq<Sent>, g: Group, n: nat, m: nat)
    requires Fits(arrays, c) && GentleRun(arrays, c, run)
    requires n <= m < |run| && run[m].group == g
    requires n > 0 ==> Comes(arrays, run, n - 1, g)
    requires forall k: nat :: n <= k < m ==> !Comes(arrays, run, k, g)
    ensures forall x :: x in run ==> Known(arrays, x)
    ensures ComesOut(Answers(c, AsArrivals(arrays, run)), m, g) <==> Covers(arrays, g, Seen(run[n..m + 1], g))
  {
    AnswersAreDue(arrays, c, run);
    ComesWhenCovered(arrays, run, g, n, m);
  }

  lemma {:induction false} ComesWhenCovered(arrays: Arrays, run: seq<Sent>, g: Group, n: nat, m: nat)
    requires n <= m < |run| && run[m].group == g
    requires n > 0 ==> Comes(arrays, run, n - 1, g)
    requires forall k: nat :: n <= k < m ==> !Comes(arrays, run, k, g)
    ensures Comes(arrays, run, m, g) <==> Covers(arrays, g, Seen(run[n..m + 1], g))
  {
    var init := run[..m];
    forall k: nat | k < m ensures Comes(arrays, init, k, g) <==> Comes(arrays, run, k, g) {
      assert init[..k + 1] == run[..k + 1];
    }
    RoundSince(arrays, init, g, n);
    assert run[..m + 1][..m] == init;
    assert run[n..m + 1][..m - n] == init[n..] && run[n..m + 1][m - n] == run[m];
  }

  // The first time, from a place on, if there is one.
  lemma {:induction false} FirstOut(arrays: Arrays, run: seq<Sent>, g: Group, n: nat) returns (m: nat)
    requires n <= |run|
    ensures n <= m <= |run| && (m < |run| ==> Comes(arrays, run, m, g))
    ensures forall k: nat :: n <= k < m ==> !Comes(arrays, run, k, g)
    decreases |run| - n
  {
    if n == |run| || Comes(arrays, run, n, g) {
      m := n;
    } else {
      m := FirstOut(arrays, run, g, n + 1);
    }
  }

  lemma {:induction false} SeenMore(run: seq<Sent>, g: Group, m: nat)
    requires m <= |run|
    ensures Seen(run[..m], g) <= Seen(run, g)
    decreases |run|
  {
    if m < |run| {
      assert run[..|run| - 1][..m] == run[..m];
      SeenMore(run[..|run| - 1], g, m);
    } else {
      assert run[..m] == run;
    }
  }

  // It does come out after a place it came out at, or from the beginning, exactly when every part arrives
  // after that.
  lemma {:induction false} ComesAgain(arrays: Arrays, run: seq<Sent>, g: Group, n: nat) returns (m: nat)
    requires forall x :: x in run ==> Known(arrays, x)
    requires g in arrays && arrays[g] != [] && n <= |run| && (n > 0 ==> Comes(arrays, run, n - 1, g))
    ensures n <= m <= |run| && (m < |run| <==> Covers(arrays, g, Seen(run[n..], g)))
    ensures m < |run| ==> Comes(arrays, run, m, g) && run[m].group == g && Covers(arrays, g, Seen(run[n..m + 1], g))
    ensures forall k: nat :: n <= k < m ==> !Comes(arrays, run, k, g)
  {
    m := FirstOut(arrays, run, g, n);
    if m < |run| {
      assert run[..m + 1][m] == run[m];
      ComesWhenCovered(arrays, run, g, n, m);
      SeenMore(run[n..], g, m + 1 - n);
      assert run[n..][..m + 1 - n] == run[n..m + 1];
    } else {
      RoundSince(arrays, run, g, n);
      RoundWithin(arrays, run, g);
    }
  }

  // An array all of whose parts arrive comes out: whole and in order, first with the part that was the last of
  // it missing. And it comes out once, exactly unless every part of it arrives again after that.
  lemma {:induction false} EachOnce(arrays: Arrays, c: Config, run: seq<Sent>, g: Group) returns (n: nat)
    requires Fits(arrays, c) && GentleRun(arrays, c, run)
    requires g in arrays && arrays[g] != [] && Covers(arrays, g, Seen(run, g))
    ensures forall x :: x in run ==> Known(arrays, x)
    ensures n < |run| && Answers(c, AsArrivals(arrays, run))[n] == Whole(g, arrays[g])
    ensures run[n].group == g && Covers(arrays, g, Seen(run[..n + 1], g)) && !Covers(arrays, g, Seen(run[..n], g))
    ensures (forall m: nat :: ComesOut(Answers(c, AsArrivals(arrays, run)), m, g) <==> m == n)
            <==> !Covers(arrays, g, Seen(run[n + 1..], g))
  {
    AnswersAreDue(arrays, c, run);
    assert run[0..] == run;
    n := ComesAgain(arrays, run, g, 0);
    assert run[0..n + 1] == run[..n + 1];
    NotBefore(arrays, run, g, n);
    var m := ComesAgain(arrays, run, g, n + 1);
    if m < |run| {
      assert Comes(arrays, run, m, g) && m != n;
    }
  }

  lemma {:induction false} NotBefore(arrays: Arrays, run: seq<Sent>, g: Group, n: nat)
    requires (forall x :: x in run ==> Known(arrays, x)) && g in arrays && arrays[g] != [] && n <= |run|
    requires forall k: nat :: k < n ==> !Comes(arrays, run, k, g)
    ensures !Covers(arrays, g, Seen(run[..n], g))
  {
    var init := run[..n];
    forall k: nat | k < n ensures !Comes(arrays, init, k, g) {
      assert init[..k + 1] == run[..k + 1] && !Comes(arrays, run, k, g);
    }
    assert init[0..] == init;
    RoundSince(arrays, init, g, 0);
    RoundWithin(arrays, init, g);
  }

  // So a late duplicate starts its group again: after the one part of a group of one came out whole, the same
  // part comes out again.
  lemma {:induction false} LateDuplicateComesOutAgain(c: Config, now: nat, g: Group, item: Item)
    requires g != "" && |g| <= MAX_GROUP_LENGTH && c.maxGroups >= 1 && item.size <= c.maxBytes
    ensures var x := Arrival(now, Input(true, item, Some(g), Some(0), Some(1)));
            && Answer(c, [x]) == Whole(g, [item]) && Answer(c, [x, x]) == Whole(g, [item])
  {
    var x := Arrival(now, Input(true, item, Some(g), Some(0), Some(1)));
    assert [x][..0] == [] && [x, x][..1] == [x];
    assert LetGoOfStale(EMPTY, c, now) == EMPTY;
    assert EMPTY.collecting - {g} == map[];
    var items: map<nat, Item> := map[0 := item];
    assert map[][0 := item] == items && |items| == 1;
    assert InOrder(items, 1) == InOrder(items, 0) + [item] == [item];
    assert After(c, [x]) == EMPTY;
  }
}
