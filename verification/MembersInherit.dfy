/**
  Records of a facade that hold an object under `__proto__`, as JSON may: withoutOwners of
  src/coordinator/facadeAccess.ts assigns it, and the record it writes reads on through that object.
 */
module MembersInherit {
  import opened MembersFacade

  // A record that reads on through a prototype, and the name of the field it is found under.
  type Place = (Json, string)

  // What is found under each of several fields, together.
  ghost function Under(parts: map<string, set<Place>>): set<Place> {
    set k, x | k in parts && x in parts[k] :: x
  }

  // Those of a value, fields named in `skip` left aside.
  ghost function Borrowers(v: Json, under: string, skip: set<string>): set<Place>
    decreases v
  {
    match v
    case Arr(items) => BorrowersAll(items, under, skip)
    case Obj(fields, proto) =>
      (if proto.Some? then {(v, under)} else {})
      + Under(map k | k in fields && k !in skip :: Borrowers(fields[k], k, skip))
    case _ => {}
  }

  ghost function BorrowersAll(vs: seq<Json>, under: string, skip: set<string>): set<Place>
    decreases vs
  {
    if vs == [] then {} else Borrowers(vs[0], under, skip) + BorrowersAll(vs[1..], under, skip)
  }

  // The records of a facade that will, once they are written anew: those that are not the owner's and hold an
  // object under `__proto__` that is not the owner's.
  ghost function Carriers(v: Json, under: string, skip: set<string>): set<Place>
    decreases v
  {
    match v
    case Arr(items) => CarriersAll(items, under, skip)
    case Obj(fields, _) =>
      (if Held(fields).Some? then {(WithoutOwners(v), under)} else {})
      + Under(map k | k in fields && k != PROTO && k !in skip && !IsOwners(fields[k]) :: Carriers(fields[k], k, skip))
    case _ => {}
  }

  ghost function CarriersAll(vs: seq<Json>, under: string, skip: set<string>): set<Place>
    decreases vs
  {
    if vs == [] then {}
    else (if IsOwners(vs[0]) then {} else Carriers(vs[0], under, skip)) + CarriersAll(vs[1..], under, skip)
  }

  lemma {:induction false} BorrowersAreCarriers(v: Json, under: string, skip: set<string>)
    ensures Borrowers(WithoutOwners(v), under, skip) == Carriers(v, under, skip)
    decreases v
  {
    match v {
      case Arr(items) =>
        AllBorrowersAreCarriers(items, under, skip);
        assert WithoutOwners(v) == Arr(AllWithoutOwners(items));
      case Obj(fields, _) =>
        var r := WithoutOwners(v);
        forall k | k in r.fields ensures Borrowers(r.fields[k], k, skip) == Carriers(fields[k], k, skip) {
          BorrowersAreCarriers(fields[k], k, skip);
        }
        assert (map k | k in r.fields && k !in skip :: Borrowers(r.fields[k], k, skip))
            == map k | k in fields && k != PROTO && k !in skip && !IsOwners(fields[k]) :: Carriers(fields[k], k, skip);
      case _ =>
    }
  }

  lemma {:induction false} AllBorrowersAreCarriers(vs: seq<Json>, under: string, skip: set<string>)
    ensures BorrowersAll(AllWithoutOwners(vs), under, skip) == CarriersAll(vs, under, skip)
    decreases vs
  {
    if vs != [] {
      BorrowersAreCarriers(vs[0], under, skip);
      AllBorrowersAreCarriers(vs[1..], under, skip);
      if IsOwners(vs[0]) {
        assert AllWithoutOwners(vs) == AllWithoutOwners(vs[1..]);
      } else {
        var rest := AllWithoutOwners(vs[1..]);
        assert AllWithoutOwners(vs) == [WithoutOwners(vs[0])] + rest && ([WithoutOwners(vs[0])] + rest)[1..] == rest;
      }
    }
  }

  // ---------------------------------------------------------------- those a member is shown

  // The tabs and the facade itself, where it has tabs, are copied field by field: they read on through
  // nothing. The other records that are shown keep what they hold.
  ghost function ShownCarriers(facade: Json, skip: set<string>): set<Place> {
    var f := WithoutOwnersPanels(facade);
    if ThroughItems(f, "tabs").None? then Carriers(f, "", skip)
    else
      var shown := WithoutOwners(f);
      TabCarriers(PanelIds(Panels(shown)), ThroughItems(f, "tabs").value, skip)
      + FieldCarriers(f.fields, if Default(shown, Left(shown)) then {"tabs"} else {"tabs", "defaultTab"}, skip)
  }

  // Those under a record's fields that are shown, but for some.
  ghost function FieldCarriers(fields: map<string, Json>, but: set<string>, skip: set<string>): set<Place> {
    Under(map k | k in fields && k != PROTO && k !in skip && k !in but && !IsOwners(fields[k]) :: Carriers(fields[k], k, skip))
  }

  ghost function TabCarriers(ids: seq<string>, tabs: seq<Json>, skip: set<string>): set<Place> {
    if tabs == [] then {}
    else (if IsOwners(tabs[0]) then {} else OneTabCarriers(ids, tabs[0], skip)) + TabCarriers(ids, tabs[1..], skip)
  }

  ghost function OneTabCarriers(ids: seq<string>, tab: Json, skip: set<string>): set<Place> {
    if ThroughItems(tab, "panels").None? then Carriers(tab, "tabs", skip)
    else if TabLeft(ids, WithoutOwners(tab)) == [] then {}
    else FieldCarriers(tab.fields, {"panels"}, skip)
  }

  // A field written over, others left out: what is under the others is as it was.
  lemma {:induction false} OneFieldBorrowers(v: Json, r: map<string, Json>, but: set<string>, name: string, skip: set<string>)
    requires v.Obj? && name in but && name !in skip && name in r
    requires forall k :: k in r && k != name <==> k in WithoutOwners(v).fields && k !in but
    requires forall k :: k in r && k != name ==> r[k] == WithoutOwners(v).fields[k]
    ensures forall under :: Borrowers(Obj(r, None), under, skip)
                            == Borrowers(r[name], name, skip) + FieldCarriers(v.fields, but, skip)
  {
    var fields := v.fields;
    forall k | k in r && k != name ensures Borrowers(r[k], k, skip) == Carriers(fields[k], k, skip) {
      BorrowersAreCarriers(fields[k], k, skip);
    }
    var parts := map k | k in r && k !in skip :: Borrowers(r[k], k, skip);
    var others := map k | k in fields && k != PROTO && k !in skip && k !in but && !IsOwners(fields[k]) :: Carriers(fields[k], k, skip);
    assert parts == others[name := Borrowers(r[name], name, skip)];
    UnderOneMore(others, name, Borrowers(r[name], name, skip));
  }

  lemma UnderOneMore(parts: map<string, set<Place>>, name: string, more: set<Place>)
    requires name !in parts
    ensures Under(parts[name := more]) == more + Under(parts)
  {
    var all := parts[name := more];
    forall x | x in more + Under(parts) ensures x in Under(all) {
      if x in more {
        assert x in all[name];
      } else {
        var k :| k in parts && x in parts[k];
        assert x in all[k];
      }
    }
  }

  lemma {:induction false} NoBorrowersInTexts(vs: seq<Json>, under: string, skip: set<string>)
    requires forall v :: v in vs ==> v.Str?
    ensures BorrowersAll(vs, under, skip) == {}
  {
    if vs != [] {
      assert vs[0] in vs && forall v :: v in vs[1..] ==> v in vs;
      NoBorrowersInTexts(vs[1..], under, skip);
    }
  }

  lemma {:induction false} BorrowersAppend(a: seq<Json>, b: seq<Json>, under: string, skip: set<string>)
    ensures BorrowersAll(a + b, under, skip) == BorrowersAll(a, under, skip) + BorrowersAll(b, under, skip)
  {
    if a == [] {
      assert a + b == b;
    } else {
      assert (a + b)[1..] == a[1..] + b;
      BorrowersAppend(a[1..], b, under, skip);
    }
  }

  lemma {:induction false} OneTabBorrowers(ids: seq<string>, tab: Json, skip: set<string>)
    requires !("panels" in skip)
    ensures BorrowersAll(TabLeft(ids, WithoutOwners(tab)), "tabs", skip) == OneTabCarriers(ids, tab, skip)
  {
    var w := WithoutOwners(tab);
    ReadThrough(tab, "panels");
    if ThroughItems(tab, "panels").None? {
      BorrowersAreCarriers(tab, "tabs", skip);
      OneBorrows(w, "tabs", skip);
    } else if TabLeft(ids, w) != [] {
      var kept := Present(ids, GetItems(w, "panels").value);
      CopiedTabBorrowers(tab, kept, skip);
      OneBorrows(With(w, "panels", Arr(kept)), "tabs", skip);
    }
  }

  lemma OneBorrows(v: Json, under: string, skip: set<string>)
    ensures BorrowersAll([v], under, skip) == Borrowers(v, under, skip)
  {
    assert [v][1..] == [];
  }

  lemma {:induction false} CopiedTabBorrowers(tab: Json, kept: seq<Json>, skip: set<string>)
    requires tab.Obj? && !("panels" in skip) && forall v :: v in kept ==> v.Str?
    ensures Borrowers(With(WithoutOwners(tab), "panels", Arr(kept)), "tabs", skip) == FieldCarriers(tab.fields, {"panels"}, skip)
  {
    NoBorrowersInTexts(kept, "panels", skip);
    OneFieldBorrowers(tab, WithoutOwners(tab).fields["panels" := Arr(kept)], {"panels"}, "panels", skip);
  }

  lemma {:induction false} TabBorrowers(ids: seq<string>, tabs: seq<Json>, skip: set<string>)
    requires !("panels" in skip)
    ensures BorrowersAll(TabsLeft(ids, AllWithoutOwners(tabs)), "tabs", skip) == TabCarriers(ids, tabs, skip)
    decreases tabs
  {
    if tabs != [] {
      TabBorrowers(ids, tabs[1..], skip);
      OneTabBorrowers(ids, tabs[0], skip);
      if IsOwners(tabs[0]) {
        assert AllWithoutOwners(tabs) == AllWithoutOwners(tabs[1..]);
      } else {
        var first, rest := WithoutOwners(tabs[0]), AllWithoutOwners(tabs[1..]);
        assert AllWithoutOwners(tabs) == [first] + rest && ([first] + rest)[1..] == rest;
        BorrowersAppend(TabLeft(ids, first), TabsLeft(ids, rest), "tabs", skip);
      }
    }
  }

  lemma {:induction false} ShownBorrowers(facade: Json, skip: set<string>)
    requires !("panels" in skip) && !("tabs" in skip)
    ensures Borrowers(FacadeForMembers(facade), "", skip) == ShownCarriers(facade, skip)
  {
    var f := WithoutOwnersPanels(facade);
    var shown := WithoutOwners(f);
    ReadThrough(f, "tabs");
    if ThroughItems(f, "tabs").None? {
      BorrowersAreCarriers(f, "", skip);
    } else {
      var tabs, ids := ThroughItems(f, "tabs").value, PanelIds(Panels(shown));
      SettledFields(shown);
      TabBorrowers(ids, tabs, skip);
      var but := if Default(shown, Left(shown)) then {"tabs"} else {"tabs", "defaultTab"};
      OneFieldBorrowers(f, Settled(shown).fields, but, "tabs", skip);
    }
  }

  // ---------------------------------------------------------------- shown again

  lemma UnderNothing(parts: map<string, set<Place>>)
    ensures Under(parts) == {} <==> forall k :: k in parts ==> parts[k] == {}
  {
    if Under(parts) == {} {
      forall k | k in parts ensures parts[k] == {} {
        assert forall x :: x in parts[k] ==> x in Under(parts);
      }
    }
  }

  lemma PlainFields(fields: map<string, Json>, parts: map<string, set<Place>>)
    requires forall k :: k in parts <==> k in fields
    requires forall k :: k in fields ==> (Plain(fields[k]) <==> parts[k] == {})
    ensures (forall k :: k in fields ==> Plain(fields[k])) <==> (forall k :: k in parts ==> parts[k] == {})
  {
  }

  lemma BorrowersOf(v: Json, under: string, parts: map<string, set<Place>>)
    requires v.Obj? && parts == map k | k in v.fields && k !in {} :: Borrowers(v.fields[k], k, {})
    ensures Borrowers(v, under, {}) == (if v.proto.Some? then {(v, under)} else {}) + Under(parts)
  {
    match v {
      case Obj(fields, _) => assert parts == map k | k in fields && k !in {} :: Borrowers(fields[k], k, {});
    }
  }

  lemma {:induction false} PlainBorrowsNothing(v: Json, under: string)
    requires NoneNamed(v)
    ensures Plain(v) <==> Borrowers(v, under, {}) == {}
    decreases v
  {
    match v {
      case Arr(items) => AllPlainBorrowNothing(items, under);
      case Obj(fields, proto) =>
        forall k | k in fields ensures Plain(fields[k]) <==> Borrowers(fields[k], k, {}) == {} {
          PlainBorrowsNothing(fields[k], k);
        }
        var parts := map k | k in fields && k !in {} :: Borrowers(fields[k], k, {});
        UnderNothing(parts);
        PlainFields(fields, parts);
        BorrowersOf(v, under, parts);
      case _ =>
    }
  }

  lemma {:induction false} AllPlainBorrowNothing(vs: seq<Json>, under: string)
    requires NoneNamed(Arr(vs))
    ensures Plain(Arr(vs)) <==> BorrowersAll(vs, under, {}) == {}
    decreases vs
  {
    if vs != [] {
      assert NoneNamed(Arr(vs[1..]));
      PlainBorrowsNothing(vs[0], under);
      AllPlainBorrowNothing(vs[1..], under);
      assert vs == [vs[0]] + vs[1..];
      assert Plain(Arr(vs)) <==> Plain(vs[0]) && Plain(Arr(vs[1..]));
    }
  }

  // Showing again what a member is shown leaves out nothing more, exactly unless a record that is shown holds
  // an object under `__proto__`, or a tab names a panel the facade holds there.
  lemma {:induction false} Idempotent(facade: Json)
    requires Parsed(facade)
    ensures FacadeForMembers(FacadeForMembers(facade)) == FacadeForMembers(facade)
            <==> ShownCarriers(facade, {}) == {} && !NamesBorrowed(facade)
  {
    var g := FacadeForMembers(facade);
    NothingOfTheOwners(facade);
    ShownAnew(facade);
    TabsNameOnlyPanels(facade);
    DefaultNamesATab(facade);
    ShownAsItIsExactly(g);
    ShownBorrowers(facade, {});
    PlainBorrowsNothing(g, "");
  }

  // So always where nothing in the facade has a field named `__proto__`.
  lemma {:induction false} IdempotentWithout(facade: Json)
    requires Parsed(facade) && NoneNamed(facade)
    ensures FacadeForMembers(FacadeForMembers(facade)) == FacadeForMembers(facade)
    ensures TabsNamePanels(FacadeForMembers(facade))
  {
    var g := FacadeForMembers(facade);
    NothingOfTheOwners(facade);
    ShownAnew(facade);
    TabsNameOnlyPanels(facade);
    NothingHeld(facade);
    DefaultNamesATab(facade);
    ShownAsItIsExactly(g);
  }

  lemma {:induction false} NothingHeld(v: Json)
    requires NoneNamed(v)
    ensures !NamesBorrowed(v)
  {
  }

  // {"tabs":[{"panels":["p"]}],"__proto__":{"panels":[{"id":"p"}]}}: the tab that is shown names a panel that
  // is not, and is not shown again.
  lemma {:induction false} PanelsUnderProto(tab: Json, id: Json, p: Json, held: Json)
    requires id == Str("p") && p == Obj(map["id" := id], None)
    requires tab == Obj(map["panels" := Arr([id])], None) && held == Obj(map["panels" := Arr([p])], None)
    ensures var facade := Obj(map["tabs" := Arr([tab]), PROTO := held], None);
            && FacadeForMembers(facade) == Obj(map["tabs" := Arr([tab])], None)
            && FacadeForMembers(FacadeForMembers(facade)) == Obj(map["tabs" := Arr([])], None)
  {
    var facade := Obj(map["tabs" := Arr([tab]), PROTO := held], None);
    PlainOnes(id, p, tab, held);
    assert GetItems(facade, "panels").None?;
    HeldInstead(Arr([tab]), held);
    ShownWith(tab, id, p, held);
    ShownAgain(tab, id);
  }

  lemma ShownAgain(tab: Json, id: Json)
    requires id == Str("p") && tab == Obj(map["panels" := Arr([id])], None)
    requires Plain(Obj(map["tabs" := Arr([tab])], None)) && Clean(Obj(map["tabs" := Arr([tab])], None))
    ensures FacadeForMembers(Obj(map["tabs" := Arr([tab])], None)) == Obj(map["tabs" := Arr([])], None)
  {
    var again := Obj(map["tabs" := Arr([tab])], None);
    assert GetItems(again, "panels").None?;
    CleanStays(again);
    ShownWithout(tab, id);
  }

  lemma HeldInstead(tabs: Json, held: Json)
    requires Plain(tabs) && Clean(tabs) && Plain(held) && Clean(held) && !IsOwners(tabs) && !IsOwners(held) && held.Obj?
    ensures WithoutOwners(Obj(map["tabs" := tabs, PROTO := held], None)) == Obj(map["tabs" := tabs], Some(held))
  {
    CleanStays(tabs);
    CleanStays(held);
    var fields := map["tabs" := tabs, PROTO := held];
    assert Held(fields) == Some(held);
    assert WithoutOwners(Obj(fields, None)).fields == map["tabs" := tabs];
  }

  lemma ShownWith(tab: Json, id: Json, p: Json, held: Json)
    requires id == Str("p") && p == Obj(map["id" := id], None)
    requires tab == Obj(map["panels" := Arr([id])], None) && held == Obj(map["panels" := Arr([p])], None)
    ensures Settled(Obj(map["tabs" := Arr([tab])], Some(held))) == Obj(map["tabs" := Arr([tab])], None)
  {
    var shown := Obj(map["tabs" := Arr([tab])], Some(held));
    assert Get(shown, "panels") == Get(held, "panels") == Some(Arr([p]));
    assert [p][1..] == [] && PanelIds([p]) == ["p"] + PanelIds([]);
    assert [id][1..] == [] && Present(["p"], [id]) == [id] + Present(["p"], []);
    assert tab.fields["panels" := Arr([id])] == tab.fields && With(tab, "panels", Arr([id])) == tab;
    assert GetItems(tab, "panels") == Some([id]) && Present(["p"], []) == [];
    TabWith(["p"], tab, [id]);
    assert Panels(shown) == [p] && PanelIds([]) == [];
    assert PanelIds(Panels(shown)) == ["p"] && Tabs(shown) == [tab];
    OneTabLeft(["p"], tab);
    assert shown.fields["tabs" := Arr([tab])] == shown.fields && shown.fields - {"defaultTab"} == shown.fields;
  }

  lemma OneTabLeft(ids: seq<string>, tab: Json)
    ensures TabsLeft(ids, [tab]) == TabLeft(ids, tab)
  {
    assert [tab][1..] == [] && TabsLeft(ids, []) == [];
  }

  lemma TabWith(ids: seq<string>, tab: Json, named: seq<Json>)
    requires named != [] && GetItems(tab, "panels") == Some(named) && Present(ids, named) == named
    requires With(tab, "panels", Arr(named)) == tab
    ensures TabLeft(ids, tab) == [tab]
  {
  }

  lemma ShownWithout(tab: Json, id: Json)
    requires id == Str("p") && tab == Obj(map["panels" := Arr([id])], None)
    ensures Settled(Obj(map["tabs" := Arr([tab])], None)) == Obj(map["tabs" := Arr([])], None)
  {
    var shown := Obj(map["tabs" := Arr([tab])], None);
    assert Panels(shown) == [] && PanelIds([]) == [];
    assert [id][1..] == [] && Present([], [id]) == [] + Present([], []);
    assert TabLeft([], tab) == [];
    OneTabLeft([], tab);
    assert map["tabs" := Arr([tab])]["tabs" := Arr([])] == map["tabs" := Arr([])];
    assert map["tabs" := Arr([])] - {"defaultTab"} == map["tabs" := Arr([])];
  }

  lemma PlainOnes(id: Json, p: Json, tab: Json, held: Json)
    requires id == Str("p") && p == Obj(map["id" := id], None)
    requires tab == Obj(map["panels" := Arr([id])], None) && held == Obj(map["panels" := Arr([p])], None)
    ensures Plain(tab) && Clean(tab) && Plain(held) && Clean(held)
    ensures Plain(Obj(map["tabs" := Arr([tab])], None)) && Clean(Obj(map["tabs" := Arr([tab])], None))
  {
    assert Plain(Arr([id])) && Clean(Arr([id])) && Plain(Arr([p])) && Clean(Arr([p]));
    assert Plain(Arr([tab])) && Clean(Arr([tab]));
  }
}
