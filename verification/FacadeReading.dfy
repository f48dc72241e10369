/**
  The sets and maps `walk` of src/coordinator/facadeAccess.ts fills in place as it goes through a facade.
 */
module FacadeReading {
  import opened MembersFacade
  import opened MembersReach

  class Access {
    var processTargets: set<string>
    var sources: map<string, set<string>>
    var named: set<string>
    var refused: set<string>

    ghost function View(): set<Grant>
      reads this
    {
      (set u | u in processTargets :: Process(u))
      + (set u, p | u in sources && p in sources[u] :: Source(u, p))
      + (set u | u in named :: Named(u))
      + (set p | p in refused :: Refused(p))
    }

    constructor ()
      ensures View() == {}
    {
      processTargets, sources, named, refused := {}, map[], {}, {};
    }

    method Add(g: Grant)
      modifies this
      ensures View() == old(View()) + {g}
    {
      match g {
        case Process(u) => processTargets := processTargets + {u};
        case Named(u) => named := named + {u};
        case Refused(p) => refused := refused + {p};
        case Source(u, p) =>
          var paths := if u in sources then sources[u] else {};
          sources := sources[u := paths + {p}];
      }
    }

    method Walk(value: Json, under: string)
      modifies this
      ensures View() == old(View()) + MembersReach.Walk(value, under)
      decreases value, 2
    {
      match value {
        case Arr(items) => WalkItems(items, under);
        case Obj(fields, _) =>
          AddOwn(value, under);
          WalkFields(value, fields);
          assert View() == old(View()) + Own(value, under)
            + (set k, g | k in fields && k !in PAYLOADS && g in Entry(k, fields[k]) :: g);
        case _ =>
      }
    }

    method AddOwn(value: Json, under: string)
      modifies this
      ensures View() == old(View()) + Own(value, under)
    {
      var uuid := Get(value, "serviceUuid");
      if uuid.Some? && uuid.value.Str? && IsLiteral(uuid.value.text) {
        if Get(value, "type") == Some(Str("process")) {
          Add(Process(uuid.value.text));
        } else if under in SOURCES {
          Add(Reads(uuid.value.text, PathOf(Get(value, "path"))));
        }
      }
    }

    method WalkItems(items: seq<Json>, under: string)
      modifies this
      ensures View() == old(View()) + WalkAll(items, under)
      decreases items
    {
      var i := 0;
      while i < |items|
        invariant i <= |items| && View() + WalkAll(items[i..], under) == old(View()) + WalkAll(items, under)
      {
        assert items[i..][1..] == items[i + 1..];
        Walk(items[i], under);
        i := i + 1;
      }
    }

    method WalkFields(value: Json, fields: map<string, Json>)
      requires value.Obj? && value.fields == fields
      modifies this
      ensures View() == old(View())
        + (set k, g | k in fields && k !in PAYLOADS && g in Entry(k, fields[k]) :: g)
      decreases value, 1
    {
      var remaining := fields.Keys - PAYLOADS;
      assert fields.Keys - PAYLOADS - remaining == {};
      while remaining != {}
        invariant remaining <= fields.Keys - PAYLOADS
        invariant View() == old(View()) + set k, g | k in fields.Keys - PAYLOADS - remaining && g in Entry(k, fields[k]) :: g
        decreases remaining
      {
        var name :| name in remaining;
        remaining := remaining - {name};
        assert fields.Keys - PAYLOADS - remaining == fields.Keys - PAYLOADS - (remaining + {name}) + {name};
        WalkEntry(name, fields[name]);
      }
      assert fields.Keys - PAYLOADS - {} == fields.Keys - PAYLOADS;
    }

    method WalkEntry(name: string, value: Json)
      modifies this
      ensures View() == old(View()) + Entry(name, value)
      decreases value, 3
    {
      if value.Str? {
        if IsReference(name) && IsLiteral(value.text) {
          Add(Named(value.text));
        }
      } else {
        Walk(value, name);
      }
    }
  }

}
