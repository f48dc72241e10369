/**
  GatherService of src/services/gather.ts: the groups being collected and the refusals remembered, updated
  in place. `refused` is the insertion-ordered map the source keeps, oldest first.
 */
module Gather {
  import opened Reassembly

  class GatherService {
    const config: Config
    var collecting: map<Group, Collecting>
    var refused: seq<(Group, nat)>

    ghost function View(): State
      reads this
    {
      State(collecting, refused)
    }

    ghost predicate Valid()
      reads this
    {
      Inv(View(), config)
    }

    constructor (config: Config)
      ensures Valid() && View() == EMPTY && this.config == config
    {
      this.config := config;
      collecting, refused := map[], [];
    }

    // Afterwards nothing is held or remembered that began longer ago than the timeout; the rest is untouched.
    method LetGoOfStale(now: nat)
      modifies this
      ensures View() == Reassembly.LetGoOfStale(old(View()), config, now)
    {
      ForgetTimedOut(now);
      assert collecting == Reassembly.LetGoOfStale(old(View()), config, now).collecting;
      ForgetOldRefusals(now);
    }

    method ForgetOldRefusals(now: nat)
      modifies this`refused
      ensures refused == Fresh(old(refused), now, config.timeoutMs)
    {
      var i := 0;
      while i < |refused|
        invariant i <= |refused|
        invariant refused[..i] + Fresh(refused[i..], now, config.timeoutMs) == Fresh(old(refused), now, config.timeoutMs)
        decreases |refused| - i
      {
        ghost var rest := refused[i + 1..];
        assert refused[i..][1..] == rest;
        if now - refused[i].1 > config.timeoutMs {
          refused := refused[..i] + refused[i + 1..];
          assert refused[i..] == rest;
        } else {
          assert refused[..i] + [refused[i]] == refused[..i + 1];
          i := i + 1;
        }
      }
      assert refused[i..] == [] && refused[..i] == refused;
    }

    method ForgetTimedOut(now: nat)
      modifies this`collecting
      ensures forall g :: g in collecting <==>
                            g in old(collecting) && now - old(collecting)[g].startedAt <= config.timeoutMs
      ensures forall g :: g in collecting ==> collecting[g] == old(collecting)[g]
    {
      var remaining := collecting.Keys;
      while remaining != {}
        modifies this`collecting
        invariant remaining <= collecting.Keys <= old(collecting).Keys
        invariant forall g :: g in old(collecting) ==>
                                (g in collecting <==>
                                   g in remaining || now - old(collecting)[g].startedAt <= config.timeoutMs)
        invariant forall g :: g in collecting ==> collecting[g] == old(collecting)[g]
        decreases remaining
      {
        var group :| group in remaining;
        remaining := remaining - {group};
        if now - collecting[group].startedAt > config.timeoutMs {
          collecting := collecting - {group};
        }
      }
    }

    method Refuse(group: Group, now: nat)
      requires !IsRefused(View(), group)
      modifies this
      ensures View() == Reassembly.Refuse(old(View()), group, now)
    {
      collecting := collecting - {group};
      refused := refused + [(group, now)];
      ghost var all := refused;
      while |refused| > MAX_REFUSED
        modifies this`refused
        invariant Newest(refused) == Newest(all)
        decreases |refused|
      {
        refused := refused[1..];
      }
    }

    method HasRefused(group: Group) returns (found: bool)
      ensures found == IsRefused(View(), group)
    {
      found := false;
      for i := 0 to |refused|
        invariant found == exists k :: 0 <= k < i && refused[k].0 == group
      {
        found := found || refused[i].0 == group;
      }
      if found {
        var k :| 0 <= k < |refused| && refused[k].0 == group;
        assert refused[k] in refused;
      }
    }

    method Process(now: nat, input: Input) returns (outcome: Outcome)
      requires Valid()
      modifies this
      ensures Sound(old(View()))
      ensures (View(), outcome) == Reassembly.Process(old(View()), config, now, input)
      ensures Valid()
    {
      InvSound(View(), config);
      ProcessKeeps(View(), config, now, input);
      if !IsPart(input) {
        return PassedThrough;
      }
      StaleKeeps(View(), config, now);
      InvSound(Reassembly.LetGoOfStale(View(), config, now), config);
      LetGoOfStale(now);
      outcome := Collect(now, input.group.value, input.index.value, input.total.value, input.item);
    }

    method Collect(now: nat, group: Group, index: nat, total: nat, item: Item) returns (outcome: Outcome)
      requires Sound(View()) && index < total
      modifies this
      ensures (View(), outcome) == Reassembly.Collect(old(View()), config, now, group, index, total, item)
    {
      var known := HasRefused(group);
      if known {
        return Nothing;
      }
      var held: Collecting;
      if group in collecting {
        held := collecting[group];
      } else {
        if |collecting| >= config.maxGroups {
          Refuse(group, now);
          return Refused;
        }
        held := Collecting(map[], total, 0, now);
        collecting := collecting[group := held];
        assert collecting - {group} == old(collecting) - {group};
      }
      if held.total != total {
        Refuse(group, now);
        return Refused;
      }
      assert collecting == old(collecting)[group := held];
      outcome := Add(now, group, held, index, item, old(View()));
    }

    // The group's entry was put in before its part is: `before` is what there was.
    method Add(now: nat, group: Group, held: Collecting, index: nat, item: Item, ghost before: State) returns (outcome: Outcome)
      requires Within(held.items, held.total) && index < held.total && !IsRefused(before, group)
      requires View() == State(before.collecting[group := held], before.refused)
      modifies this
      ensures (View(), outcome) == Reassembly.Add(before, config, now, group, held, index, item)
    {
      assert before.collecting[group := held] - {group} == before.collecting - {group};
      if index in held.items {
        return Nothing;
      }
      var bytes := held.bytes + item.size;
      if bytes > config.maxBytes {
        Refuse(group, now);
        assert View() == Reassembly.Refuse(before, group, now);
        return Refused;
      }
      outcome := Put(group, held, held.(items := held.items[index := item], bytes := bytes), before);
    }

    // What is held with the part: held on, or passed on whole.
    method Put(group: Group, ghost held: Collecting, more: Collecting, ghost before: State) returns (outcome: Outcome)
      requires Within(more.items, more.total)
      requires View() == State(before.collecting[group := held], before.refused)
      modifies this`collecting
      ensures View() == if |more.items| < more.total then before.(collecting := before.collecting[group := more])
                        else before.(collecting := before.collecting - {group})
      ensures |more.items| < more.total ==> outcome == Nothing
      ensures |more.items| >= more.total ==>
                (forall i :: 0 <= i < more.total ==> i in more.items) && outcome == Whole(group, InOrder(more.items, more.total))
    {
      collecting := collecting[group := more];
      AllIndices(more.items, more.total);
      OverAndGone(before.collecting, group, held, more);
      if |more.items| < more.total {
        return Nothing;
      }
      collecting := collecting - {group};
      outcome := Whole(group, InOrder(more.items, more.total));
    }
  }

  lemma OverAndGone(m: map<Group, Collecting>, group: Group, held: Collecting, more: Collecting)
    ensures m[group := held][group := more] == m[group := more] && m[group := more] - {group} == m - {group}
  {
  }
}
