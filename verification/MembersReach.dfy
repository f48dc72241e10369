/**
  What a facade grants whoever is shown it (walk of src/coordinator/facadeAccess.ts): services they may ask to
  process, what they hear of which services, and every service it names.
 */
module MembersReach {
  import opened MembersFacade
  import opened MembersInherit

  datatype Grant = Process(uuid: string) | Source(uuid: string, path: string) | Named(uuid: string) | Refused(path: string)

  const PAYLOADS: set<string> := {"configure", "payload"}
  const SOURCES: set<string> := {"source", "summary"}
  const MACHINERY: set<string> := {"__proto__", "constructor", "prototype"}

  // ---------------------------------------------------------------- names

  predicate EndsWith(s: string, end: string) {
    |end| <= |s| && s[|s| - |end|..] == end
  }

  predicate IsReference(name: string) {
    name == "serviceUuid" || EndsWith(name, "ServiceUuid")
  }

  // A text that can be an address: not empty, and without two opening braces in a row.
  predicate IsLiteral(address: string) {
    address != "" && forall i :: 0 <= i < |address| - 1 ==> !(address[i] == '{' && address[i + 1] == '{')
  }

  function Segment(path: string): (n: nat)
    ensures n <= |path| && (n < |path| ==> path[n] == '.')
  {
    if path == "" || path[0] == '.' then 0 else 1 + Segment(path[1..])
  }

  predicate IsPlainPath(path: string)
    decreases |path|
  {
    var n := Segment(path);
    path[..n] !in MACHINERY && (n == |path| || IsPlainPath(path[n + 1..]))
  }

  // ---------------------------------------------------------------- what one entry grants

  function PathOf(path: Option<Json>): string {
    if path.Some? && path.value.Str? then path.value.text else ""
  }

  function Reads(uuid: string, path: string): Grant {
    if IsPlainPath(path) then Source(uuid, path) else Refused(path)
  }

  // What a record grants that says so much, under the name of the field it is found under.
  function Says(uuid: Option<Json>, kind: Option<Json>, path: Option<Json>, under: string): set<Grant> {
    match uuid
    case Some(Str(text)) =>
      if !IsLiteral(text) then {}
      else if kind == Some(Str("process")) then {Process(text)}
      else if under in SOURCES then {Reads(text, PathOf(path))}
      else {}
    case _ => {}
  }

  function Own(v: Json, under: string): set<Grant> {
    Says(Get(v, "serviceUuid"), Get(v, "type"), Get(v, "path"), under)
  }

  function ByName(name: string, v: Json): set<Grant> {
    if v.Str? && IsReference(name) && IsLiteral(v.text) then {Named(v.text)} else {}
  }

  // A record read through its prototype, as the program reads it, or by its own fields alone.
  function As(v: Json, through: bool): Json {
    if v.Obj? && !through then Obj(v.fields, None) else v
  }

  function Walk(v: Json, under: string, through: bool := true): set<Grant>
    decreases v, 0
  {
    match v
    case Arr(items) => WalkAll(items, under, through)
    case Obj(fields, _) =>
      Own(As(v, through), under) + set k, g | k in fields && k !in PAYLOADS && g in Entry(k, fields[k], through) :: g
    case _ => {}
  }

  // What an entry grants: by its name, when it is a text, and by what is in it.
  function Entry(name: string, v: Json, through: bool := true): set<Grant>
    decreases v, 1
  {
    ByName(name, v) + Walk(v, name, through)
  }

  function WalkAll(vs: seq<Json>, under: string, through: bool := true): set<Grant>
    decreases vs
  {
    if vs == [] then {} else Walk(vs[0], under, through) + WalkAll(vs[1..], under, through)
  }

  // What a facade grants past what is kept for the owner, told from the facade: a record says what it says in
  // its own fields and in those it holds under `__proto__`, which is not walked itself.
  function WalkShown(v: Json, under: string): set<Grant>
    decreases v, 0
  {
    match v
    case Arr(items) => WalkAllShown(items, under)
    case Obj(fields, _) =>
      Says(Through(v, "serviceUuid"), Through(v, "type"), Through(v, "path"), under)
      + set k, g | k in fields && k != PROTO && k !in PAYLOADS && !IsOwners(fields[k]) && g in EntryShown(k, fields[k]) :: g
    case _ => {}
  }

  function EntryShown(name: string, v: Json): set<Grant>
    decreases v, 1
  {
    ByName(name, v) + WalkShown(v, name)
  }

  function WalkAllShown(vs: seq<Json>, under: string): set<Grant>
    decreases vs
  {
    if vs == [] then {}
    else (if IsOwners(vs[0]) then {} else WalkShown(vs[0], under)) + WalkAllShown(vs[1..], under)
  }

  // ---------------------------------------------------------------- nothing kept for the owner grants

  lemma {:induction false} OwnThrough(v: Json, under: string)
    ensures Own(WithoutOwners(v), under) == Says(Through(v, "serviceUuid"), Through(v, "type"), Through(v, "path"), under)
  {
    ReadThrough(v, "serviceUuid");
    ReadThrough(v, "type");
    ReadThrough(v, "path");
    TextsAreTexts(Through(v, "serviceUuid"));
    TextsAreTexts(Through(v, "type"));
    TextsAreTexts(Through(v, "path"));
  }

  lemma TextsAreTexts(x: Option<Json>)
    ensures x.Some? ==> (x.value.Str? <==> WithoutOwners(x.value).Str?) && (x.value.Str? ==> WithoutOwners(x.value) == x.value)
  {
  }

  lemma {:induction false} GrantsOfWhatIsShown(v: Json, under: string)
    ensures Walk(WithoutOwners(v), under) == WalkShown(v, under)
    decreases v
  {
    match v {
      case Arr(items) =>
        GrantsOfAllShown(items, under);
        assert WithoutOwners(v) == Arr(AllWithoutOwners(items));
      case Obj(fields, _) =>
        var r := WithoutOwners(v).fields;
        forall k | k in r ensures Entry(k, r[k]) == EntryShown(k, fields[k]) {
          GrantsOfWhatIsShown(fields[k], k);
          assert ByName(k, WithoutOwners(fields[k])) == ByName(k, fields[k]);
        }
        OwnThrough(v, under);
        var a := set k, g | k in r && k !in PAYLOADS && g in Entry(k, r[k], true) :: g;
        var b := set k, g | k in fields && k != PROTO && k !in PAYLOADS && !IsOwners(fields[k]) && g in EntryShown(k, fields[k]) :: g;
        FieldsShown(fields, r, a, b);
        assert Walk(WithoutOwners(v), under) == Own(WithoutOwners(v), under) + a;
      case _ =>
    }
  }

  lemma {:induction false} FieldsShown(fields: map<string, Json>, r: map<string, Json>, a: set<Grant>, b: set<Grant>)
    requires forall k :: k in r <==> k in fields && k != PROTO && !IsOwners(fields[k])
    requires forall k :: k in r ==> Entry(k, r[k]) == EntryShown(k, fields[k])
    requires a == set k, g | k in r && k !in PAYLOADS && g in Entry(k, r[k], true) :: g
    requires b == set k, g | k in fields && k != PROTO && k !in PAYLOADS && !IsOwners(fields[k]) && g in EntryShown(k, fields[k]) :: g
    ensures a == b
  {
    forall g | g in a ensures g in b {
      var k :| k in r && k !in PAYLOADS && g in Entry(k, r[k]);
      assert g in EntryShown(k, fields[k]);
    }
    forall g | g in b ensures g in a {
      var k :| k in fields && k != PROTO && k !in PAYLOADS && !IsOwners(fields[k]) && g in EntryShown(k, fields[k]);
      assert g in Entry(k, r[k]);
    }
  }

  lemma {:induction false} GrantsOfAllShown(vs: seq<Json>, under: string)
    ensures WalkAll(AllWithoutOwners(vs), under) == WalkAllShown(vs, under)
    decreases vs
  {
    if vs != [] {
      GrantsOfWhatIsShown(vs[0], under);
      GrantsOfAllShown(vs[1..], under);
      if IsOwners(vs[0]) {
        assert AllWithoutOwners(vs) == AllWithoutOwners(vs[1..]);
      } else {
        assert AllWithoutOwners(vs) == [WithoutOwners(vs[0])] + AllWithoutOwners(vs[1..]);
        OneMoreGrants(WithoutOwners(vs[0]), AllWithoutOwners(vs[1..]), under, true);
      }
    }
  }

  lemma OneMoreGrants(v: Json, vs: seq<Json>, under: string, through: bool)
    ensures WalkAll([v] + vs, under, through) == Walk(v, under, through) + WalkAll(vs, under, through)
  {
    assert ([v] + vs)[1..] == vs;
  }

  // ---------------------------------------------------------------- settling grants nothing

  lemma {:induction false} FewerGrantLess(a: seq<Json>, b: seq<Json>, under: string, through: bool)
    requires forall v :: v in a ==> exists w :: w in b && Walk(v, under, through) <= Walk(w, under, through)
    ensures WalkAll(a, under, through) <= WalkAll(b, under, through)
    decreases |a|
  {
    if a != [] {
      assert a[0] in a;
      var w :| w in b && Walk(a[0], under, through) <= Walk(w, under, through);
      OneOfAll(b, w, under, through);
      FewerGrantLess(a[1..], b, under, through);
    }
  }

  lemma {:induction false} OneOfAll(vs: seq<Json>, w: Json, under: string, through: bool)
    requires w in vs
    ensures Walk(w, under, through) <= WalkAll(vs, under, through)
    decreases |vs|
  {
    if w != vs[0] {
      OneOfAll(vs[1..], w, under, through);
    }
  }

  lemma {:induction false} TextsGrantNothing(vs: seq<Json>, under: string, through: bool)
    requires forall v :: v in vs ==> v.Str?
    ensures WalkAll(vs, under, through) == {}
  {
    if vs != [] {
      assert vs[0] in vs && forall v :: v in vs[1..] ==> v in vs;
      TextsGrantNothing(vs[1..], under, through);
    }
  }

  // A record copied field by field, with one field another array and maybe some left out, grants no more
  // than it did and what is in that array; it stands where no source is looked for.
  lemma {:induction false} CopiedGrantsLess(v: Json, r: map<string, Json>, name: string, under: string, through: bool)
    requires v.Obj? && under !in SOURCES && name in r && r[name].Arr? && !IsReference(name) && name != "type"
    requires forall k :: k in r && k != name ==> k in v.fields && r[k] == v.fields[k]
    requires forall k :: k in {"serviceUuid", "type"} ==> (k in r <==> k in v.fields)
    ensures Walk(Obj(r, None), under, through) <= Walk(v, under, through) + WalkAll(r[name].items, name, through)
  {
    assert Own(Obj(r, None), under) <= Own(As(v, through), under);
    forall g | g in Walk(Obj(r, None), under, through)
      ensures g in Walk(v, under, through) + WalkAll(r[name].items, name, through)
    {
      if g !in Own(Obj(r, None), under) {
        var k :| k in r && k !in PAYLOADS && g in Entry(k, r[k], through);
        if k == name {
          assert g in Walk(r[name], name, through);
        } else {
          assert g in Entry(k, v.fields[k], through);
        }
      }
    }
  }

  lemma {:induction false} FewerPanelsGrantLess(facade: Json, through: bool)
    requires Parsed(facade)
    ensures Walk(WithoutOwnersPanels(facade), "", through) <= Walk(facade, "", through)
  {
    if GetItems(facade, "tabs").Some? && GetItems(facade, "panels").Some? {
      var panels := GetItems(facade, "panels").value;
      var fewer := PanelsBut(GetItems(facade, "tabs").value, panels);
      FewerGrantLess(fewer, panels, "panels", through);
      NoReference("panels");
      CopiedGrantsLess(facade, facade.fields["panels" := Arr(fewer)], "panels", "", through);
      assert facade.fields["panels"] == Arr(panels);
      forall g | g in WalkAll(panels, "panels", through) ensures g in Walk(facade, "", through) {
        assert g in Entry("panels", facade.fields["panels"], through);
      }
    }
  }

  lemma NoReference(name: string)
    requires name == "panels" || name == "tabs"
    ensures !IsReference(name)
  {
  }

  lemma {:induction false} TabLeftGrantsLess(ids: seq<string>, tab: Json, t: Json, through: bool)
    requires t in TabLeft(ids, tab)
    ensures Walk(t, "tabs", through) <= Walk(tab, "tabs", through)
  {
    match GetItems(tab, "panels") {
      case None =>
      case Some(named) =>
        var kept := Present(ids, named);
        TextsGrantNothing(kept, "panels", through);
        NoReference("panels");
        CopiedGrantsLess(tab, tab.fields["panels" := Arr(kept)], "panels", "tabs", through);
        assert t == With(tab, "panels", Arr(kept));
    }
  }

  lemma {:induction false} SettlingGrantsLess(shown: Json, through: bool)
    ensures Walk(Settled(shown), "", through) <= Walk(shown, "", through) + WalkAll(Tabs(shown), "tabs", through)
  {
    if GetItems(shown, "tabs").Some? {
      var ids, tabs := PanelIds(Panels(shown)), Tabs(shown);
      forall t | t in Left(shown) ensures exists tab :: tab in tabs && Walk(t, "tabs", through) <= Walk(tab, "tabs", through) {
        TabsLeftAre(ids, tabs, t);
        var tab :| tab in tabs && t in TabLeft(ids, tab);
        TabLeftGrantsLess(ids, tab, t, through);
      }
      FewerGrantLess(Left(shown), tabs, "tabs", through);
      SettledFields(shown);
      NoReference("tabs");
      CopiedGrantsLess(shown, Settled(shown).fields, "tabs", "", through);
    }
  }

  // ---------------------------------------------------------------- what a member is granted

  // What grants a member anything is not kept for the owner.
  lemma {:induction false} NothingKeptGrants(facade: Json)
    ensures var f := WithoutOwnersPanels(facade);
            Walk(FacadeForMembers(facade), "") <= WalkShown(f, "")
              + (if ThroughItems(f, "tabs").Some? then WalkAllShown(ThroughItems(f, "tabs").value, "tabs") else {})
  {
    var f := WithoutOwnersPanels(facade);
    GrantsOfWhatIsShown(f, "");
    SettlingGrantsLess(WithoutOwners(f), true);
    ReadThrough(f, "tabs");
    if ThroughItems(f, "tabs").Some? {
      GrantsOfAllShown(ThroughItems(f, "tabs").value, "tabs");
    }
  }

  // What records grant as they are read through their prototypes.
  ghost function Lent(places: set<Place>): set<Grant> {
    set x, g | x in places && g in Own(x.0, x.1) :: g
  }

  lemma {:induction false} LentIsGranted(v: Json, under: string)
    ensures Lent(Borrowers(v, under, PAYLOADS)) <= Walk(v, under) <= Walk(v, under, false) + Lent(Borrowers(v, under, PAYLOADS))
    decreases v
  {
    match v {
      case Arr(items) => AllLentGranted(items, under);
      case Obj(fields, proto) =>
        var parts := map k | k in fields && k !in PAYLOADS :: Borrowers(fields[k], k, PAYLOADS);
        forall k | k in parts
          ensures Lent(parts[k]) <= Walk(fields[k], k) <= Walk(fields[k], k, false) + Lent(parts[k])
        {
          LentIsGranted(fields[k], k);
        }
        assert Borrowers(v, under, PAYLOADS) == (if proto.Some? then {(v, under)} else {}) + Under(parts);
        LentUnder(v, under, parts);
        GrantedUnder(v, under, parts);
      case _ =>
    }
  }

  lemma {:induction false} LentUnder(v: Json, under: string, parts: map<string, set<Place>>)
    requires v.Obj? && (forall k :: k in parts <==> k in v.fields && k !in PAYLOADS)
    requires Borrowers(v, under, PAYLOADS) == (if v.proto.Some? then {(v, under)} else {}) + Under(parts)
    requires forall k :: k in parts ==> Lent(parts[k]) <= Walk(v.fields[k], k)
    ensures Lent(Borrowers(v, under, PAYLOADS)) <= Walk(v, under)
  {
    forall g | g in Lent(Borrowers(v, under, PAYLOADS)) ensures g in Walk(v, under) {
      var x :| x in Borrowers(v, under, PAYLOADS) && g in Own(x.0, x.1);
      if x in Under(parts) {
        var k :| k in parts && x in parts[k];
        assert g in Lent(parts[k]);
        assert g in Entry(k, v.fields[k]);
      }
    }
  }

  lemma {:induction false} GrantedUnder(v: Json, under: string, parts: map<string, set<Place>>)
    requires v.Obj? && (forall k :: k in parts <==> k in v.fields && k !in PAYLOADS)
    requires Borrowers(v, under, PAYLOADS) == (if v.proto.Some? then {(v, under)} else {}) + Under(parts)
    requires forall k :: k in parts ==> Walk(v.fields[k], k) <= Walk(v.fields[k], k, false) + Lent(parts[k])
    ensures Walk(v, under) <= Walk(v, under, false) + Lent(Borrowers(v, under, PAYLOADS))
  {
    forall g | g in Walk(v, under) && g !in Walk(v, under, false) ensures g in Lent(Borrowers(v, under, PAYLOADS)) {
      if g in Own(v, under) {
        assert v.proto.Some?;
        assert (v, under) in Borrowers(v, under, PAYLOADS);
      } else {
        var k :| k in v.fields && k !in PAYLOADS && g in Entry(k, v.fields[k]);
        assert g !in Entry(k, v.fields[k], false);
        assert g in Lent(parts[k]);
        var x :| x in parts[k] && g in Own(x.0, x.1);
        assert x in Under(parts);
      }
    }
  }

  lemma {:induction false} AllLentGranted(vs: seq<Json>, under: string)
    ensures Lent(BorrowersAll(vs, under, PAYLOADS)) <= WalkAll(vs, under)
            <= WalkAll(vs, under, false) + Lent(BorrowersAll(vs, under, PAYLOADS))
    decreases vs
  {
    if vs != [] {
      LentIsGranted(vs[0], under);
      AllLentGranted(vs[1..], under);
      var a, b := Borrowers(vs[0], under, PAYLOADS), BorrowersAll(vs[1..], under, PAYLOADS);
      assert Lent(a + b) == Lent(a) + Lent(b) by {
        LentBoth(a, b);
      }
    }
  }

  lemma LentBoth(a: set<Place>, b: set<Place>)
    ensures Lent(a + b) == Lent(a) + Lent(b)
  {
  }

  // By their own fields alone, the records that are shown grant what they did.
  lemma {:induction false} OwnGrantsLess(v: Json, under: string)
    ensures Walk(WithoutOwners(v), under, false) <= Walk(v, under, false)
    decreases v
  {
    match v {
      case Arr(items) =>
        AllOwnGrantLess(items, under);
        assert WithoutOwners(v) == Arr(AllWithoutOwners(items));
      case Obj(fields, _) =>
        var r := WithoutOwners(v).fields;
        forall k | k in r ensures Entry(k, r[k], false) <= Entry(k, fields[k], false) {
          OwnGrantsLess(fields[k], k);
        }
        OwnTexts(v, under);
        forall g | g in Walk(WithoutOwners(v), under, false) ensures g in Walk(v, under, false) {
          if g !in Own(Obj(r, None), under) {
            var k :| k in r && k !in PAYLOADS && g in Entry(k, r[k], false);
            assert g in Entry(k, fields[k], false);
          }
        }
      case _ =>
    }
  }

  lemma OwnTexts(v: Json, under: string)
    requires v.Obj?
    ensures Own(Obj(WithoutOwners(v).fields, None), under) == Own(Obj(v.fields, None), under)
  {
    var fields, r := v.fields, WithoutOwners(v).fields;
    forall name | name in {"serviceUuid", "type", "path"}
      ensures name in fields && fields[name].Str? <==> name in r && r[name].Str?
      ensures name in r && r[name].Str? ==> r[name] == fields[name]
    {
      if name in fields {
        TextsAreTexts(Some(fields[name]));
      }
    }
  }

  lemma {:induction false} AllOwnGrantLess(vs: seq<Json>, under: string)
    ensures WalkAll(AllWithoutOwners(vs), under, false) <= WalkAll(vs, under, false)
    decreases vs
  {
    if vs != [] {
      OwnGrantsLess(vs[0], under);
      AllOwnGrantLess(vs[1..], under);
      if IsOwners(vs[0]) {
        assert AllWithoutOwners(vs) == AllWithoutOwners(vs[1..]);
      } else {
        assert AllWithoutOwners(vs) == [WithoutOwners(vs[0])] + AllWithoutOwners(vs[1..]);
        OneMoreGrants(WithoutOwners(vs[0]), AllWithoutOwners(vs[1..]), under, false);
      }
    }
  }

  // What a facade is read to hold is somewhere in it.
  lemma {:induction false} ThroughIsWalked(v: Json, name: string, under: string)
    requires name !in PAYLOADS && Through(v, name).Some?
    ensures Walk(Through(v, name).value, name, false) <= Walk(v, under, false)
    decreases v
  {
    var fields := v.fields;
    var k := if name in fields && !IsOwners(fields[name]) then name else PROTO;
    if k == PROTO && !(name in fields && !IsOwners(fields[name])) {
      ThroughIsWalked(fields[PROTO], name, PROTO);
    }
    forall g | g in Walk(Through(v, name).value, name, false) ensures g in Walk(v, under, false) {
      assert g in Entry(k, fields[k], false);
    }
  }

  lemma {:induction false} ParsedReadsItsOwn(v: Json, under: string)
    requires Parsed(v)
    ensures Walk(v, under) == Walk(v, under, false)
    decreases v
  {
    match v {
      case Arr(items) => AllReadTheirOwn(items, under);
      case Obj(fields, _) =>
        forall k | k in fields ensures Entry(k, fields[k]) == Entry(k, fields[k], false) {
          ParsedReadsItsOwn(fields[k], k);
        }
      case _ =>
    }
  }

  lemma {:induction false} AllReadTheirOwn(vs: seq<Json>, under: string)
    requires Parsed(Arr(vs))
    ensures WalkAll(vs, under) == WalkAll(vs, under, false)
    decreases vs
  {
    if vs != [] {
      assert Parsed(Arr(vs[1..]));
      ParsedReadsItsOwn(vs[0], under);
      AllReadTheirOwn(vs[1..], under);
    }
  }

  lemma {:induction false} OwnOfTheShown(facade: Json)
    requires Parsed(facade)
    ensures Walk(FacadeForMembers(facade), "", false) <= Walk(facade, "")
  {
    var f := WithoutOwnersPanels(facade);
    var shown := WithoutOwners(f);
    FewerPanelsGrantLess(facade, false);
    ParsedReadsItsOwn(facade, "");
    OwnGrantsLess(f, "");
    SettlingGrantsLess(shown, false);
    ReadThrough(f, "tabs");
    if ThroughItems(f, "tabs").Some? {
      AllOwnGrantLess(ThroughItems(f, "tabs").value, "tabs");
      ThroughIsWalked(f, "tabs", "");
    }
  }

  // What a member may ask, hears and is named is of what the whole facade grants, exactly when that grants
  // whatever the records that are shown with an object under `__proto__` say through it.
  lemma {:induction false} MembersAreGrantedLess(facade: Json)
    requires Parsed(facade)
    ensures Walk(FacadeForMembers(facade), "") <= Walk(facade, "")
            <==> forall x :: x in ShownCarriers(facade, PAYLOADS) ==> Own(x.0, x.1) <= Walk(facade, "")
  {
    var g := FacadeForMembers(facade);
    ShownBorrowers(facade, PAYLOADS);
    LentIsGranted(g, "");
    OwnOfTheShown(facade);
    var places := ShownCarriers(facade, PAYLOADS);
    forall x | x in places && !(Own(x.0, x.1) <= Walk(facade, "")) ensures !(Lent(places) <= Walk(facade, "")) {
      var said :| said in Own(x.0, x.1) && said !in Walk(facade, "");
      assert said in Lent(places);
    }
  }

  // So always where nothing in the facade has a field named `__proto__`.
  lemma {:induction false} GrantedLessWithout(facade: Json)
    requires Parsed(facade) && NoneNamed(facade)
    ensures Walk(FacadeForMembers(facade), "") <= Walk(facade, "")
  {
    ShownAnew(facade);
    PlainIsParsed(FacadeForMembers(facade));
    ParsedReadsItsOwn(FacadeForMembers(facade), "");
    OwnOfTheShown(facade);
  }

  // {"widgets":[{"type":"process","__proto__":{"serviceUuid":"x"}}]}: the whole facade names a service and lets
  // nobody ask it to process; the one a member is shown does.
  lemma {:induction false} ServiceUnderProto(held: Json, widget: Json)
    requires held == Obj(map["serviceUuid" := Str("x")], None)
    requires widget == Obj(map["type" := Str("process"), PROTO := held], None)
    ensures var facade := Obj(map["widgets" := Arr([widget])], None);
            Walk(facade, "") == {Named("x")} && Walk(FacadeForMembers(facade), "") == {Process("x")}
  {
    var facade := Obj(map["widgets" := Arr([widget])], None);
    var shown := Obj(map["type" := Str("process")], Some(held));
    OnlyWidget(facade, widget);
    NamesIt(held, widget);
    WrittenWithHeld(held, widget);
    ShownWidget(widget, shown);
    OnlyWidget(Obj(map["widgets" := Arr([shown])], None), shown);
    ProcessesIt(held, shown);
  }

  lemma FieldsGrant(v: Json, a: string, b: string, under: string)
    requires v.Obj? && v.fields.Keys == {a, b} && a !in PAYLOADS && b !in PAYLOADS
    ensures Walk(v, under) == Own(v, under) + Entry(a, v.fields[a]) + Entry(b, v.fields[b])
  {
    var r := v.fields;
    assert (set k, g | k in r && k !in PAYLOADS && g in Entry(k, r[k], true) :: g) == Entry(a, r[a]) + Entry(b, r[b]) by {
      assert forall k :: k in r <==> k == a || k == b;
    }
    match v {
      case Obj(fields, _) =>
    }
  }

  lemma OnlyWidget(facade: Json, widget: Json)
    requires facade == Obj(map["widgets" := Arr([widget])], None)
    ensures Walk(facade, "") == Walk(widget, "widgets")
  {
    assert [widget][1..] == [] && WalkAll([], "widgets") == {};
    assert WalkAll([widget], "widgets") == Walk(widget, "widgets");
    assert !("widgets" in PAYLOADS) && !IsReference("widgets");
    assert Entry("widgets", Arr([widget])) == Walk(widget, "widgets");
    FieldsGrant(facade, "widgets", "widgets", "");
  }

  lemma NamesIt(held: Json, widget: Json)
    requires held == Obj(map["serviceUuid" := Str("x")], None)
    requires widget == Obj(map["type" := Str("process"), PROTO := held], None)
    ensures Walk(widget, "widgets") == {Named("x")}
  {
    assert IsReference("serviceUuid") && !IsReference("type") && IsLiteral("x");
    assert Entry("serviceUuid", Str("x")) == {Named("x")} && Own(held, PROTO) == {};
    assert Walk(held, PROTO) == {Named("x")};
    assert Entry("type", Str("process")) == {} && Own(widget, "widgets") == {};
    assert Entry(PROTO, held) == {Named("x")};
    FieldsGrant(widget, "type", PROTO, "widgets");
  }

  lemma ProcessesIt(held: Json, shown: Json)
    requires held == Obj(map["serviceUuid" := Str("x")], None) && shown == Obj(map["type" := Str("process")], Some(held))
    ensures Walk(shown, "widgets") == {Process("x")}
  {
    assert Get(shown, "serviceUuid") == Get(held, "serviceUuid") == Some(Str("x"));
    assert IsLiteral("x") && Own(shown, "widgets") == {Process("x")};
    assert !IsReference("type") && Entry("type", Str("process")) == {};
  }

  lemma WrittenWithHeld(held: Json, widget: Json)
    requires held == Obj(map["serviceUuid" := Str("x")], None)
    requires widget == Obj(map["type" := Str("process"), PROTO := held], None)
    ensures WithoutOwners(widget) == Obj(map["type" := Str("process")], Some(held)) && !IsOwners(widget)
  {
    assert !IsOwners(held) && !IsOwners(Str("x")) && !IsOwners(Str("process"));
    assert WithoutOwners(held).fields == held.fields;
    assert WithoutOwners(held) == held && Held(widget.fields) == Some(held);
    assert WithoutOwners(widget).fields == map["type" := Str("process")];
  }

  lemma ShownWidget(widget: Json, shown: Json)
    requires WithoutOwners(widget) == shown && !IsOwners(widget)
    ensures FacadeForMembers(Obj(map["widgets" := Arr([widget])], None)) == Obj(map["widgets" := Arr([shown])], None)
  {
    var facade := Obj(map["widgets" := Arr([widget])], None);
    OneWithoutOwners(widget);
    OneFieldShown(Arr([widget]), Arr([shown]));
    assert GetItems(facade, "tabs").None? && GetItems(WithoutOwners(facade), "tabs").None?;
  }

  lemma OneFieldShown(v: Json, shown: Json)
    requires WithoutOwners(v) == shown && !IsOwners(v)
    ensures WithoutOwners(Obj(map["widgets" := v], None)) == Obj(map["widgets" := shown], None)
  {
    var r := WithoutOwners(Obj(map["widgets" := v], None));
    assert Held(map["widgets" := v]).None?;
    assert r.fields == map["widgets" := shown];
  }

  lemma OneWithoutOwners(v: Json)
    requires !IsOwners(v)
    ensures WithoutOwners(Arr([v])) == Arr([WithoutOwners(v)]) && !IsOwners(Arr([v]))
  {
    assert [v][1..] == [] && AllWithoutOwners([]) == [];
    assert AllWithoutOwners([v]) == [WithoutOwners(v)];
  }

  // A source is read through data alone: a path through an object's machinery is refused.
  lemma {:induction false} SourcesArePlain(v: Json, under: string, g: Grant)
    requires g in Walk(v, under)
    ensures g.Source? ==> IsPlainPath(g.path)
    ensures g.Refused? ==> !IsPlainPath(g.path)
    decreases v
  {
    match v {
      case Arr(items) => SourcesOfAllPlain(items, under, g);
      case Obj(fields, _) =>
        if g !in Own(v, under) {
          var k :| k in fields && k !in PAYLOADS && g in Entry(k, fields[k]);
          if g in Walk(fields[k], k) {
            SourcesArePlain(fields[k], k, g);
          }
        }
    }
  }

  lemma {:induction false} SourcesOfAllPlain(vs: seq<Json>, under: string, g: Grant)
    requires g in WalkAll(vs, under)
    ensures g.Source? ==> IsPlainPath(g.path)
    ensures g.Refused? ==> !IsPlainPath(g.path)
    decreases vs
  {
    if g in Walk(vs[0], under) {
      SourcesArePlain(vs[0], under, g);
    } else {
      SourcesOfAllPlain(vs[1..], under, g);
    }
  }
}
