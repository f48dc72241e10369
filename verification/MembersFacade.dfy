/**
  The facade as a member of a board is shown it, and what it lets them do (walk, withoutOwners,
  withoutOwnersPanels and facadeForMembers of src/coordinator/facadeAccess.ts).
 */
module MembersFacade {

  datatype Option<+T> = None | Some(value: T)

  // A value as the program holds it. `Other` is a number, a boolean or null; a record has its own fields, and
  // reads what is not among them in `proto`, if an object was made its prototype.
  datatype Json =
    | Str(text: string)
    | Other(form: string)
    | Arr(items: seq<Json>)
    | Obj(fields: map<string, Json>, proto: Option<Json>)

  // JSON.parse makes an own field of this name; assigning to it makes what is assigned the prototype.
  const PROTO: string := "__proto__"

  // What JSON.parse makes: every record reads its own fields alone.
  ghost predicate Parsed(v: Json)
    decreases v
  {
    match v
    case Arr(items) => forall i :: 0 <= i < |items| ==> Parsed(items[i])
    case Obj(fields, proto) => proto.None? && forall k :: k in fields ==> Parsed(fields[k])
    case _ => true
  }

  // v.name, for a name that is not a field of every object or array.
  function Get(v: Json, name: string): Option<Json>
    decreases v
  {
    match v
    case Obj(fields, proto) =>
      if name in fields then Some(fields[name]) else if proto.Some? then Get(proto.value, name) else None
    case _ => None
  }

  function GetItems(v: Json, name: string): Option<seq<Json>> {
    match Get(v, name)
    case Some(Arr(items)) => Some(items)
    case _ => None
  }

  // { ...v, name: x }: a record of v's own fields.
  function With(v: Json, name: string, x: Json): Json
    requires v.Obj?
  {
    Obj(v.fields[name := x], None)
  }

  // === on what a field holds: arrays and objects are never the same as another.
  predicate Same(a: Option<Json>, b: Option<Json>) {
    a == b && (a.Some? ==> a.value.Str? || a.value.Other?)
  }

  // ---------------------------------------------------------------- without the owner's entries

  predicate IsOwners(v: Json) {
    Get(v, "visibleTo") == Some(Str("owner"))
  }

  function Everybodys(vs: seq<Json>): (r: seq<Json>)
    ensures forall v :: v in r <==> v in vs && !IsOwners(v)
    ensures |r| <= |vs|
  {
    if vs == [] then [] else (if IsOwners(vs[0]) then [] else [vs[0]]) + Everybodys(vs[1..])
  }

  // The object a record of these fields is given for its prototype as it is written anew, if any.
  function Held(fields: map<string, Json>): Option<Json> {
    if PROTO in fields && !IsOwners(fields[PROTO]) && (fields[PROTO].Obj? || fields[PROTO].Arr?)
    then Some(fields[PROTO]) else None
  }

  function WithoutOwners(v: Json): Json
    decreases v
  {
    match v
    case Arr(items) => Arr(AllWithoutOwners(items))
    case Obj(fields, _) =>
      Obj(map k | k in fields && k != PROTO && !IsOwners(fields[k]) :: WithoutOwners(fields[k]),
          if Held(fields).Some? then Some(WithoutOwners(fields[PROTO])) else None)
    case _ => v
  }

  // The entries that are not the owner's, each without what is.
  function AllWithoutOwners(vs: seq<Json>): seq<Json>
    decreases vs
  {
    if vs == [] then []
    else (if IsOwners(vs[0]) then [] else [WithoutOwners(vs[0])]) + AllWithoutOwners(vs[1..])
  }

  // What is read of a record once it is written anew, told from the record: its own fields that are not the
  // owner's, and those of what it holds under `__proto__`.
  function Through(v: Json, name: string): Option<Json>
    decreases v
  {
    match v
    case Obj(fields, _) =>
      if name in fields && !IsOwners(fields[name]) then Some(fields[name])
      else if Held(fields).Some? then Through(fields[PROTO], name)
      else None
    case _ => None
  }

  function ThroughItems(v: Json, name: string): Option<seq<Json>> {
    match Through(v, name)
    case Some(Arr(items)) => Some(items)
    case _ => None
  }

  lemma {:induction false} ReadThrough(v: Json, name: string)
    requires name != PROTO
    ensures Get(WithoutOwners(v), name)
            == (match Through(v, name) case Some(x) => Some(WithoutOwners(x)) case None => None)
    ensures GetItems(WithoutOwners(v), name)
            == (match ThroughItems(v, name) case Some(items) => Some(AllWithoutOwners(items)) case None => None)
    decreases v
  {
    match v {
      case Obj(fields, _) =>
        if !(name in fields && !IsOwners(fields[name])) && Held(fields).Some? {
          ReadThrough(fields[PROTO], name);
        }
      case _ =>
    }
    match Through(v, name) {
      case Some(Arr(items)) => assert WithoutOwners(Arr(items)) == Arr(AllWithoutOwners(items));
      case _ =>
    }
  }

  // ---------------------------------------------------------------- without the panels of the owner's tabs

  // The panels named by the tabs kept for the owner, or by the others.
  function NamedBy(tabs: seq<Json>, owners: bool): seq<Json> {
    if tabs == [] then []
    else
      (if tabs[0].Obj? && IsOwners(tabs[0]) == owners && GetItems(tabs[0], "panels").Some?
       then GetItems(tabs[0], "panels").value else [])
      + NamedBy(tabs[1..], owners)
  }

  predicate Names(ids: seq<Json>, id: Option<Json>) {
    id.Some? && (id.value.Str? || id.value.Other?) && id.value in ids
  }

  predicate OnlyOwners(tabs: seq<Json>, panel: Json) {
    panel.Obj? && Names(NamedBy(tabs, true), Get(panel, "id")) && !Names(NamedBy(tabs, false), Get(panel, "id"))
  }

  function PanelsBut(tabs: seq<Json>, panels: seq<Json>): (r: seq<Json>)
    ensures forall p :: p in r <==> p in panels && !OnlyOwners(tabs, p)
  {
    if panels == [] then []
    else (if OnlyOwners(tabs, panels[0]) then [] else [panels[0]]) + PanelsBut(tabs, panels[1..])
  }

  function WithoutOwnersPanels(facade: Json): Json {
    if GetItems(facade, "tabs").None? || GetItems(facade, "panels").None? then facade
    else With(facade, "panels", Arr(PanelsBut(GetItems(facade, "tabs").value, GetItems(facade, "panels").value)))
  }

  // ---------------------------------------------------------------- the members' facade

  function PanelIds(panels: seq<Json>): (ids: seq<string>)
    ensures forall s :: s in ids <==> exists p :: p in panels && Get(p, "id") == Some(Str(s))
  {
    if panels == [] then []
    else
      var rest := PanelIds(panels[1..]);
      assert panels == [panels[0]] + panels[1..];
      var id := Get(panels[0], "id");
      assert forall p :: p in panels <==> p == panels[0] || p in panels[1..];
      if id.Some? && id.value.Str? then [id.value.text] + rest else rest
  }

  function Panels(facade: Json): seq<Json> {
    if GetItems(facade, "panels").Some? then GetItems(facade, "panels").value else []
  }

  function Tabs(facade: Json): seq<Json> {
    if GetItems(facade, "tabs").Some? then GetItems(facade, "tabs").value else []
  }

  function Present(ids: seq<string>, named: seq<Json>): (r: seq<Json>)
    ensures forall v :: v in r <==> v in named && v.Str? && v.text in ids
    ensures |r| <= |named|
  {
    if named == [] then []
    else (if named[0].Str? && named[0].text in ids then [named[0]] else []) + Present(ids, named[1..])
  }

  // A tab with the panels that are there; none, for one left with none of those it had.
  function TabLeft(ids: seq<string>, tab: Json): seq<Json> {
    match GetItems(tab, "panels")
    case None => [tab]
    case Some(named) =>
      var kept := Present(ids, named);
      if kept == [] && named != [] then [] else [With(tab, "panels", Arr(kept))]
  }

  function TabsLeft(ids: seq<string>, tabs: seq<Json>): seq<Json> {
    if tabs == [] then [] else TabLeft(ids, tabs[0]) + TabsLeft(ids, tabs[1..])
  }

  predicate Default(facade: Json, tabs: seq<Json>) {
    exists i :: 0 <= i < |tabs| && tabs[i].Obj? && Same(Get(tabs[i], "id"), Get(facade, "defaultTab"))
  }

  function Left(shown: Json): seq<Json> {
    TabsLeft(PanelIds(Panels(shown)), Tabs(shown))
  }

  function Settled(shown: Json): Json {
    if GetItems(shown, "tabs").None? then shown
    else
      var result := With(shown, "tabs", Arr(Left(shown)));
      if Default(shown, Left(shown)) then result else Obj(result.fields - {"defaultTab"}, None)
  }

  function FacadeForMembers(facade: Json): Json {
    Settled(WithoutOwners(WithoutOwnersPanels(facade)))
  }

  // ---------------------------------------------------------------- nothing of the owner's

  // No entry below it is kept for the owner, as entries are read.
  ghost predicate Clean(v: Json)
    decreases v
  {
    match v
    case Arr(items) => forall i :: 0 <= i < |items| ==> !IsOwners(items[i]) && Clean(items[i])
    case Obj(fields, proto) =>
      && (forall k :: k in fields ==> !IsOwners(fields[k]) && Clean(fields[k]))
      && (proto.Some? ==> !IsOwners(proto.value) && Clean(proto.value))
    case _ => true
  }

  // Whose an entry is, is a text and stays; nothing comes to say it, not even what became a prototype.
  lemma {:induction false} WithoutOwnersIsClean(v: Json)
    ensures Clean(WithoutOwners(v))
    ensures IsOwners(WithoutOwners(v)) ==> IsOwners(v)
    decreases v
  {
    match v {
      case Arr(items) =>
        AllClean(items);
        assert WithoutOwners(v) == Arr(AllWithoutOwners(items));
      case Obj(fields, _) =>
        var r := WithoutOwners(v);
        forall k | k in r.fields ensures Clean(r.fields[k]) && !IsOwners(r.fields[k]) {
          WithoutOwnersIsClean(fields[k]);
        }
        if Held(fields).Some? {
          WithoutOwnersIsClean(fields[PROTO]);
        }
        SaysWho(v);
      case _ =>
    }
  }

  lemma {:induction false} SaysWho(v: Json)
    ensures IsOwners(WithoutOwners(v)) ==> IsOwners(v)
  {
    ReadThrough(v, "visibleTo");
    OwnersAreOwn(v);
    match Through(v, "visibleTo") {
      case Some(x) => assert WithoutOwners(x) == Str("owner") ==> x == Str("owner");
      case None =>
    }
  }

  lemma {:induction false} OwnersAreOwn(v: Json)
    ensures Through(v, "visibleTo") == Some(Str("owner")) ==> IsOwners(v)
    decreases v
  {
    match v {
      case Obj(fields, _) =>
        if Held(fields).Some? {
          OwnersAreOwn(fields[PROTO]);
        }
      case _ =>
    }
  }

  ghost predicate CleanItems(vs: seq<Json>) {
    forall i :: 0 <= i < |vs| ==> !IsOwners(vs[i]) && Clean(vs[i])
  }

  lemma {:induction false} AllClean(vs: seq<Json>)
    ensures CleanItems(AllWithoutOwners(vs))
    decreases vs
  {
    if vs != [] {
      AllClean(vs[1..]);
      if !IsOwners(vs[0]) {
        WithoutOwnersIsClean(vs[0]);
      }
    }
  }

  lemma {:induction false} CleanReads(v: Json, name: string)
    requires Clean(v) && Get(v, name).Some?
    ensures Clean(Get(v, name).value) && !IsOwners(Get(v, name).value)
    decreases v
  {
    if name !in v.fields {
      CleanReads(v.proto.value, name);
    }
  }

  // ---------------------------------------------------------------- prototypes

  // Nothing in it has a field of that name, and no record anything but the usual prototype.
  ghost predicate Plain(v: Json)
    decreases v
  {
    match v
    case Arr(items) => forall i :: 0 <= i < |items| ==> Plain(items[i])
    case Obj(fields, proto) => proto.None? && PROTO !in fields && forall k :: k in fields ==> Plain(fields[k])
    case _ => true
  }

  ghost predicate NoneNamed(v: Json)
    decreases v
  {
    match v
    case Arr(items) => forall i :: 0 <= i < |items| ==> NoneNamed(items[i])
    case Obj(fields, proto) =>
      && PROTO !in fields && (forall k :: k in fields ==> NoneNamed(fields[k]))
      && (proto.Some? ==> NoneNamed(proto.value))
    case _ => true
  }

  // Written anew, nothing has a field of that name, and what had none is plain.
  lemma {:induction false} WrittenAnew(v: Json)
    ensures NoneNamed(WithoutOwners(v))
    ensures NoneNamed(v) ==> Plain(WithoutOwners(v))
    decreases v
  {
    match v {
      case Arr(items) =>
        AllWrittenAnew(items);
        assert WithoutOwners(v) == Arr(AllWithoutOwners(items));
      case Obj(fields, _) =>
        var r := WithoutOwners(v);
        forall k | k in r.fields
          ensures NoneNamed(r.fields[k])
          ensures NoneNamed(fields[k]) ==> Plain(r.fields[k])
        {
          WrittenAnew(fields[k]);
        }
        if Held(fields).Some? {
          WrittenAnew(fields[PROTO]);
        }
      case _ =>
    }
  }

  lemma {:induction false} AllWrittenAnew(vs: seq<Json>)
    ensures NoneNamed(Arr(AllWithoutOwners(vs)))
    ensures NoneNamed(Arr(vs)) ==> Plain(Arr(AllWithoutOwners(vs)))
    decreases vs
  {
    if vs != [] {
      AllWrittenAnew(vs[1..]);
      WrittenAnew(vs[0]);
      assert NoneNamed(Arr(vs)) ==> NoneNamed(Arr(vs[1..]));
    }
  }

  lemma {:induction false} NoneNamedReads(v: Json, name: string)
    requires NoneNamed(v) && Get(v, name).Some?
    ensures NoneNamed(Get(v, name).value)
    decreases v
  {
    if name !in v.fields {
      NoneNamedReads(v.proto.value, name);
    }
  }

  // What is clean and plain loses nothing.
  lemma {:induction false} CleanStays(v: Json)
    requires Clean(v) && Plain(v)
    ensures WithoutOwners(v) == v
    decreases v
  {
    match v {
      case Arr(items) => AllStay(items);
      case Obj(fields, _) =>
        forall k | k in fields ensures WithoutOwners(fields[k]) == fields[k] {
          CleanStays(fields[k]);
        }
        var r := WithoutOwners(v).fields;
        assert r.Keys == fields.Keys;
        assert r == fields && WithoutOwners(v) == v;
      case _ =>
    }
  }

  lemma {:induction false} AllStay(vs: seq<Json>)
    requires forall i :: 0 <= i < |vs| ==> !IsOwners(vs[i]) && Clean(vs[i]) && Plain(vs[i])
    ensures AllWithoutOwners(vs) == vs
    decreases vs
  {
    if vs != [] {
      CleanStays(vs[0]);
      AllStay(vs[1..]);
    }
  }

  // ---------------------------------------------------------------- what the settled facade is

  lemma {:induction false} TabsLeftAre(ids: seq<string>, tabs: seq<Json>, t: Json)
    ensures t in TabsLeft(ids, tabs) <==> exists tab :: tab in tabs && t in TabLeft(ids, tab)
  {
    if tabs != [] {
      TabsLeftAre(ids, tabs[1..], t);
      assert tabs == [tabs[0]] + tabs[1..];
    }
  }

  // The settled facade is of own fields: all the facade had but `tabs`, and a default naming no tab.
  lemma SettledFields(shown: Json)
    requires GetItems(shown, "tabs").Some?
    ensures var r := Settled(shown);
            && r.Obj? && r.proto.None? && GetItems(r, "tabs") == Some(Left(shown))
            && (forall k :: k != "tabs" && k != "defaultTab" ==> (k in r.fields <==> k in shown.fields))
            && (forall k :: k in r.fields && k != "tabs" ==> k in shown.fields && r.fields[k] == shown.fields[k])
            && ("defaultTab" in r.fields <==> "defaultTab" in shown.fields && Default(shown, Left(shown)))
  {
  }

  // A tab that stays is the tab it was, with panels of those that are there.
  lemma {:induction false} TabLeftIsClean(ids: seq<string>, tab: Json, t: Json)
    requires Clean(tab) && !IsOwners(tab) && t in TabLeft(ids, tab)
    ensures Clean(t) && !IsOwners(t)
  {
    match GetItems(tab, "panels") {
      case None =>
      case Some(named) =>
        var kept := Present(ids, named);
        forall i | 0 <= i < |kept| ensures !IsOwners(kept[i]) && Clean(kept[i]) {
          assert kept[i] in kept;
        }
        assert Clean(Arr(kept)) && !IsOwners(Arr(kept));
        assert t == With(tab, "panels", Arr(kept));
    }
  }

  lemma {:induction false} TabLeftIsPlain(ids: seq<string>, tab: Json, t: Json)
    requires t in TabLeft(ids, tab)
    ensures NoneNamed(tab) ==> NoneNamed(t)
    ensures Plain(tab) ==> Plain(t)
  {
    match GetItems(tab, "panels") {
      case None =>
      case Some(named) =>
        var kept := Present(ids, named);
        forall i | 0 <= i < |kept| ensures NoneNamed(kept[i]) && Plain(kept[i]) {
          assert kept[i] in kept;
        }
        assert NoneNamed(Arr(kept)) && Plain(Arr(kept));
        assert t == With(tab, "panels", Arr(kept));
    }
  }

  // No entry kept for the owner is anywhere in what a member is shown, but perhaps the whole of it.
  lemma {:induction false} NothingOfTheOwners(facade: Json)
    ensures Clean(FacadeForMembers(facade))
  {
    var shown := WithoutOwners(WithoutOwnersPanels(facade));
    WithoutOwnersIsClean(WithoutOwnersPanels(facade));
    SettledIsClean(shown);
  }

  lemma {:induction false} SettledIsClean(shown: Json)
    requires Clean(shown)
    ensures Clean(Settled(shown))
  {
    if GetItems(shown, "tabs").Some? {
      CleanReads(shown, "tabs");
      var ids, left := PanelIds(Panels(shown)), Left(shown);
      forall i | 0 <= i < |left| ensures !IsOwners(left[i]) && Clean(left[i]) {
        TabsLeftAre(ids, Tabs(shown), left[i]);
        var tab :| tab in Tabs(shown) && left[i] in TabLeft(ids, tab);
        TabLeftIsClean(ids, tab, left[i]);
      }
      assert Clean(Arr(left)) && !IsOwners(Arr(left));
    }
  }

  // And nothing has a field named `__proto__`; it is plain if the facade had none.
  lemma {:induction false} ShownAnew(facade: Json)
    ensures NoneNamed(FacadeForMembers(facade))
    ensures NoneNamed(facade) ==> Plain(FacadeForMembers(facade))
  {
    var f := WithoutOwnersPanels(facade);
    if NoneNamed(facade) && GetItems(facade, "tabs").Some? && GetItems(facade, "panels").Some? {
      NoneNamedReads(facade, "panels");
      var panels := PanelsBut(GetItems(facade, "tabs").value, GetItems(facade, "panels").value);
      forall i | 0 <= i < |panels| ensures NoneNamed(panels[i]) {
        assert panels[i] in panels;
      }
      assert NoneNamed(Arr(panels));
    }
    WrittenAnew(f);
    SettledIsPlain(WithoutOwners(f));
  }

  lemma {:induction false} SettledIsPlain(shown: Json)
    requires NoneNamed(shown)
    ensures NoneNamed(Settled(shown))
    ensures Plain(shown) ==> Plain(Settled(shown))
  {
    if GetItems(shown, "tabs").Some? {
      NoneNamedReads(shown, "tabs");
      var ids, left := PanelIds(Panels(shown)), Left(shown);
      assert Plain(shown) ==> Plain(Arr(Tabs(shown)));
      forall i | 0 <= i < |left|
        ensures NoneNamed(left[i])
        ensures Plain(shown) ==> Plain(left[i])
      {
        TabsLeftAre(ids, Tabs(shown), left[i]);
        var tab :| tab in Tabs(shown) && left[i] in TabLeft(ids, tab);
        TabLeftIsPlain(ids, tab, left[i]);
      }
      assert NoneNamed(Arr(left)) && (Plain(shown) ==> Plain(Arr(left)));
    }
  }

  // Every panel a tab names is there: a panel of that id, to be shown.
  ghost predicate TabsNamePanels(facade: Json) {
    forall tab, id ::
      (tab in Tabs(facade) && GetItems(tab, "panels").Some? && id in GetItems(tab, "panels").value) ==> IsPanel(facade, id)
  }

  ghost predicate IsPanel(facade: Json, id: Json) {
    id.Str? && exists p :: p in Panels(facade) && Get(p, "id") == Some(id)
  }

  ghost predicate DefaultIsTab(facade: Json) {
    GetItems(facade, "tabs").Some? && Get(facade, "defaultTab").Some? ==> Default(facade, GetItems(facade, "tabs").value)
  }

  // The facade has no panels of its own, and a tab that is shown names one it holds under `__proto__`.
  ghost predicate NamesBorrowed(facade: Json) {
    && facade.Obj? && !("panels" in facade.fields && !IsOwners(facade.fields["panels"]))
    && exists tab, id :: NamedInTab(facade, tab, id) && BorrowedPanel(facade, id)
  }

  ghost predicate NamedInTab(facade: Json, tab: Json, id: Json) {
    && ThroughItems(facade, "tabs").Some? && tab in ThroughItems(facade, "tabs").value && !IsOwners(tab)
    && ThroughItems(tab, "panels").Some? && id in ThroughItems(tab, "panels").value
  }

  ghost predicate BorrowedPanel(facade: Json, id: Json) {
    && id.Str? && ThroughItems(facade, "panels").Some?
    && exists p :: p in ThroughItems(facade, "panels").value && !IsOwners(p) && Through(p, "id") == Some(id)
  }

  // A tab names nothing but panels that are shown, exactly unless it names one of those.
  lemma {:induction false} TabsNameOnlyPanels(facade: Json)
    requires Parsed(facade)
    ensures TabsNamePanels(FacadeForMembers(facade)) <==> !NamesBorrowed(facade)
  {
    var f := WithoutOwnersPanels(facade);
    ReadThrough(f, "tabs");
    if ThroughItems(f, "tabs").Some? {
      if "panels" in f.fields && !IsOwners(f.fields["panels"]) {
        PanelsOfItsOwn(WithoutOwners(f));
      } else {
        assert f == facade;
        NoPanelsOfItsOwn(facade);
      }
    }
  }

  lemma {:induction false} PanelsOfItsOwn(shown: Json)
    requires GetItems(shown, "tabs").Some? && shown.Obj? && "panels" in shown.fields
    ensures TabsNamePanels(Settled(shown))
  {
    SettledFields(shown);
    assert Panels(Settled(shown)) == Panels(shown);
    OwnPanelsNamed(shown);
  }

  lemma {:induction false} NoPanelsOfItsOwn(facade: Json)
    requires facade.Obj? && !("panels" in facade.fields && !IsOwners(facade.fields["panels"]))
    requires GetItems(WithoutOwners(facade), "tabs").Some?
    ensures TabsNamePanels(Settled(WithoutOwners(facade))) <==> !NamesBorrowed(facade)
  {
    SettledFields(WithoutOwners(facade));
    assert Panels(Settled(WithoutOwners(facade))) == [];
    NamedAreBorrowed(facade);
  }

  // An id a tab is left with.
  ghost predicate LeftNamed(shown: Json, t: Json, id: Json) {
    t in Left(shown) && GetItems(t, "panels").Some? && id in GetItems(t, "panels").value
  }

  lemma {:induction false} LeftNamedIs(shown: Json, t: Json, id: Json)
    requires LeftNamed(shown, t, id)
    ensures IsPanel(shown, id)
    ensures exists tab :: tab in Tabs(shown) && GetItems(tab, "panels").Some? && id in GetItems(tab, "panels").value
  {
    var ids := PanelIds(Panels(shown));
    TabsLeftAre(ids, Tabs(shown), t);
    var tab :| tab in Tabs(shown) && t in TabLeft(ids, tab);
    assert id.Str? && id.text in ids;
  }

  lemma {:induction false} NamedIsLeft(shown: Json, tab: Json, id: Json)
    requires tab in Tabs(shown) && GetItems(tab, "panels").Some? && id in GetItems(tab, "panels").value && IsPanel(shown, id)
    ensures exists t :: LeftNamed(shown, t, id)
  {
    var ids := PanelIds(Panels(shown));
    assert id.text in ids;
    var t := KeepsNamed(ids, tab, id);
    TabsLeftAre(ids, Tabs(shown), t);
    assert LeftNamed(shown, t, id);
  }

  lemma KeepsNamed(ids: seq<string>, tab: Json, id: Json) returns (t: Json)
    requires GetItems(tab, "panels").Some? && id in GetItems(tab, "panels").value && id.Str? && id.text in ids
    ensures t in TabLeft(ids, tab) && GetItems(t, "panels").Some? && id in GetItems(t, "panels").value
  {
    var kept := Present(ids, GetItems(tab, "panels").value);
    assert id in kept;
    t := With(tab, "panels", Arr(kept));
    assert TabLeft(ids, tab) == [t];
  }

  lemma {:induction false} OwnPanelsNamed(shown: Json)
    requires GetItems(shown, "tabs").Some? && Panels(Settled(shown)) == Panels(shown)
    ensures TabsNamePanels(Settled(shown))
  {
    SettledFields(shown);
    forall t, id | t in Tabs(Settled(shown)) && GetItems(t, "panels").Some? && id in GetItems(t, "panels").value
      ensures IsPanel(Settled(shown), id)
    {
      LeftNamedIs(shown, t, id);
    }
  }

  lemma {:induction false} NamedAreBorrowed(facade: Json)
    requires facade.Obj? && !("panels" in facade.fields && !IsOwners(facade.fields["panels"]))
    requires GetItems(WithoutOwners(facade), "tabs").Some?
    requires Panels(Settled(WithoutOwners(facade))) == []
    ensures TabsNamePanels(Settled(WithoutOwners(facade))) <==> !NamesBorrowed(facade)
  {
    var shown := WithoutOwners(facade);
    SettledFields(shown);
    if NamesBorrowed(facade) {
      var tab, id :| NamedInTab(facade, tab, id) && BorrowedPanel(facade, id);
      NamedIsShown(facade, tab, id);
      BorrowedIsPanel(facade, id);
      NamedIsLeft(shown, WithoutOwners(tab), id);
      var t :| LeftNamed(shown, t, id);
      assert !IsPanel(Settled(shown), id) && t in Tabs(Settled(shown));
    }
    forall t, id | t in Tabs(Settled(shown)) && GetItems(t, "panels").Some? && id in GetItems(t, "panels").value
      ensures NamesBorrowed(facade)
    {
      LeftNamedIs(shown, t, id);
      BorrowedIsPanel(facade, id);
      var w :| w in Tabs(shown) && GetItems(w, "panels").Some? && id in GetItems(w, "panels").value;
      ShownIsNamed(facade, w, id);
    }
  }

  lemma {:induction false} BorrowedIsPanel(facade: Json, id: Json)
    ensures BorrowedPanel(facade, id) <==> IsPanel(WithoutOwners(facade), id)
  {
    ReadThrough(facade, "panels");
    if id.Str? && ThroughItems(facade, "panels").Some? {
      PanelThrough(ThroughItems(facade, "panels").value, id);
    }
  }

  lemma {:induction false} PanelThrough(panels: seq<Json>, id: Json)
    requires id.Str?
    ensures (exists p :: p in panels && !IsOwners(p) && Through(p, "id") == Some(id))
            <==> exists p :: p in AllWithoutOwners(panels) && Get(p, "id") == Some(id)
    decreases panels
  {
    if panels != [] {
      PanelThrough(panels[1..], id);
      ReadThrough(panels[0], "id");
      var first := if IsOwners(panels[0]) then [] else [WithoutOwners(panels[0])];
      assert panels == [panels[0]] + panels[1..] && AllWithoutOwners(panels) == first + AllWithoutOwners(panels[1..]);
      match Through(panels[0], "id") {
        case Some(x) => assert WithoutOwners(x) == id <==> x == id;
        case None =>
      }
    }
  }

  lemma {:induction false} NamedIsShown(facade: Json, tab: Json, id: Json)
    requires NamedInTab(facade, tab, id) && id.Str?
    ensures var t := WithoutOwners(tab);
            t in Tabs(WithoutOwners(facade)) && GetItems(t, "panels").Some? && id in GetItems(t, "panels").value
  {
    ReadThrough(facade, "tabs");
    ReadThrough(tab, "panels");
    OutOfOwners(ThroughItems(facade, "tabs").value, WithoutOwners(tab));
    OutOfOwners(ThroughItems(tab, "panels").value, id);
    assert WithoutOwners(id) == id && !IsOwners(id);
  }

  lemma {:induction false} ShownIsNamed(facade: Json, t: Json, id: Json)
    requires t in Tabs(WithoutOwners(facade)) && GetItems(t, "panels").Some? && id in GetItems(t, "panels").value && id.Str?
    ensures exists tab :: NamedInTab(facade, tab, id)
  {
    ReadThrough(facade, "tabs");
    OutOfOwners(ThroughItems(facade, "tabs").value, t);
    var tab :| tab in ThroughItems(facade, "tabs").value && !IsOwners(tab) && t == WithoutOwners(tab);
    ReadThrough(tab, "panels");
    OutOfOwners(ThroughItems(tab, "panels").value, id);
    var x :| x in ThroughItems(tab, "panels").value && !IsOwners(x) && id == WithoutOwners(x);
    assert x == id;
    assert NamedInTab(facade, tab, id);
  }

  lemma {:induction false} DefaultNamesATab(facade: Json)
    ensures DefaultIsTab(FacadeForMembers(facade))
  {
    var shown := WithoutOwners(WithoutOwnersPanels(facade));
    if GetItems(shown, "tabs").Some? {
      SettledFields(shown);
      assert "defaultTab" in Settled(shown).fields ==>
          Get(Settled(shown), "defaultTab") == Get(shown, "defaultTab");
    }
  }

  // ---------------------------------------------------------------- nothing more to leave out

  lemma {:induction false} NoOwnersTabs(tabs: seq<Json>)
    requires forall t :: t in tabs ==> !IsOwners(t)
    ensures NamedBy(tabs, true) == []
  {
    if tabs != [] {
      NoOwnersTabs(tabs[1..]);
    }
  }

  lemma {:induction false} PanelsStay(tabs: seq<Json>, panels: seq<Json>)
    requires NamedBy(tabs, true) == []
    ensures PanelsBut(tabs, panels) == panels
  {
    if panels != [] {
      PanelsStay(tabs, panels[1..]);
    }
  }

  lemma {:induction false} AllPresent(ids: seq<string>, named: seq<Json>)
    requires forall id :: id in named ==> id.Str? && id.text in ids
    ensures Present(ids, named) == named
  {
    if named != [] {
      AllPresent(ids, named[1..]);
    }
  }

  ghost predicate NamesOnly(ids: seq<string>, tab: Json) {
    GetItems(tab, "panels").Some? ==> forall id :: id in GetItems(tab, "panels").value ==> id.Str? && id.text in ids
  }

  lemma {:induction false} TabStays(ids: seq<string>, tab: Json)
    requires Plain(tab) && NamesOnly(ids, tab)
    ensures TabLeft(ids, tab) == [tab]
  {
    if GetItems(tab, "panels").Some? {
      AllPresent(ids, GetItems(tab, "panels").value);
      assert tab.fields["panels" := Arr(GetItems(tab, "panels").value)] == tab.fields;
    }
  }

  lemma {:induction false} TabsStay(ids: seq<string>, tabs: seq<Json>)
    requires forall i :: 0 <= i < |tabs| ==> Plain(tabs[i]) && NamesOnly(ids, tabs[i])
    ensures TabsLeft(ids, tabs) == tabs
  {
    if tabs != [] {
      TabStays(ids, tabs[0]);
      TabsStay(ids, tabs[1..]);
    }
  }

  // A facade is shown as it is exactly when it keeps nothing for the owner, nothing in it has a field named
  // `__proto__` or an unusual prototype, its tabs name panels that are there, and its default, if it has tabs,
  // one of them.
  lemma {:induction false} ShownAsItIsExactly(facade: Json)
    ensures FacadeForMembers(facade) == facade <==>
            Clean(facade) && Plain(facade) && TabsNamePanels(facade) && DefaultIsTab(facade)
  {
    if FacadeForMembers(facade) == facade {
      NothingOfTheOwners(facade);
      ShownAnew(facade);
      DefaultNamesATab(facade);
      PlainIsParsed(facade);
      TabsNameOnlyPanels(facade);
      PlainHoldsNothing(facade);
    }
    if Clean(facade) && Plain(facade) && TabsNamePanels(facade) && DefaultIsTab(facade) {
      PanelsAsTheyAre(facade);
      CleanStays(facade);
      SettledAlready(facade);
    }
  }

  lemma {:induction false} PlainIsParsed(v: Json)
    requires Plain(v)
    ensures Parsed(v)
    decreases v
  {
    match v {
      case Arr(items) => forall i | 0 <= i < |items| { PlainIsParsed(items[i]); }
      case Obj(fields, _) => forall k | k in fields { PlainIsParsed(fields[k]); }
      case _ =>
    }
  }

  lemma PlainHoldsNothing(facade: Json)
    requires Plain(facade)
    ensures !NamesBorrowed(facade)
  {
  }

  lemma {:induction false} PanelsAsTheyAre(facade: Json)
    requires Clean(facade) && Plain(facade)
    ensures WithoutOwnersPanels(facade) == facade
  {
    if GetItems(facade, "tabs").Some? && GetItems(facade, "panels").Some? {
      var tabs, panels := GetItems(facade, "tabs").value, GetItems(facade, "panels").value;
      assert Clean(facade.fields["tabs"]);
      NoOwnersTabs(tabs);
      PanelsStay(tabs, panels);
      assert facade.fields["panels" := Arr(panels)] == facade.fields;
    }
  }

  lemma {:induction false} SettledAlready(facade: Json)
    requires Plain(facade) && TabsNamePanels(facade) && DefaultIsTab(facade)
    ensures Settled(facade) == facade
  {
    if GetItems(facade, "tabs").Some? {
      var tabs, ids := GetItems(facade, "tabs").value, PanelIds(Panels(facade));
      assert Plain(facade.fields["tabs"]);
      forall i | 0 <= i < |tabs| ensures NamesOnly(ids, tabs[i]) {
        forall id | GetItems(tabs[i], "panels").Some? && id in GetItems(tabs[i], "panels").value
          ensures id.Str? && id.text in ids
        {
          assert tabs[i] in tabs && IsPanel(facade, id);
        }
      }
      TabsStay(ids, tabs);
      assert facade.fields["tabs" := Arr(tabs)] == facade.fields;
      assert !Default(facade, tabs) ==> facade.fields - {"defaultTab"} == facade.fields;
    }
  }

  // ---------------------------------------------------------------- the owner's panels

  lemma {:induction false} OutOfOwners(vs: seq<Json>, v: Json)
    ensures v in AllWithoutOwners(vs) <==> exists x :: x in vs && !IsOwners(x) && v == WithoutOwners(x)
  {
    if vs != [] {
      OutOfOwners(vs[1..], v);
      assert vs == [vs[0]] + vs[1..];
    }
  }

  // No panel is shown that only tabs of the owner's name, and every other that is not the owner's itself is.
  lemma {:induction false} PanelsShownExactly(facade: Json, v: Json)
    requires Parsed(facade) && GetItems(facade, "tabs").Some? && GetItems(facade, "panels").Some?
    ensures v in Panels(FacadeForMembers(facade)) <==>
            exists p :: p in Panels(facade) && !OwnersAlone(GetItems(facade, "tabs").value, p) && !IsOwners(p) && v == WithoutOwners(p)
  {
    var panels := PanelsBut(GetItems(facade, "tabs").value, Panels(facade));
    PanelsOf(facade);
    OutOfOwners(panels, v);
    forall p ensures p in panels <==> p in Panels(facade) && !OwnersAlone(GetItems(facade, "tabs").value, p) {
      OnlyOwnersAre(GetItems(facade, "tabs").value, p);
    }
  }

  // A tab names a panel.
  ghost predicate NamesPanel(tab: Json, panel: Json) {
    && tab.Obj? && GetItems(tab, "panels").Some?
    && Get(panel, "id").Some? && (Get(panel, "id").value.Str? || Get(panel, "id").value.Other?)
    && Get(panel, "id").value in GetItems(tab, "panels").value
  }

  // Some tab of the owner's names it, and no other tab.
  ghost predicate OwnersAlone(tabs: seq<Json>, panel: Json) {
    && panel.Obj? && (exists tab :: tab in tabs && NamesPanel(tab, panel))
    && forall tab :: tab in tabs && NamesPanel(tab, panel) ==> IsOwners(tab)
  }

  lemma {:induction false} OnlyOwnersAre(tabs: seq<Json>, panel: Json)
    ensures OnlyOwners(tabs, panel) <==> OwnersAlone(tabs, panel)
  {
    NamedByAre(tabs, true, panel);
    NamedByAre(tabs, false, panel);
  }

  lemma {:induction false} NamedByAre(tabs: seq<Json>, owners: bool, panel: Json)
    ensures Names(NamedBy(tabs, owners), Get(panel, "id")) <==>
            exists tab :: tab in tabs && NamesPanel(tab, panel) && IsOwners(tab) == owners
  {
    if tabs != [] {
      NamedByAre(tabs[1..], owners, panel);
      assert tabs == [tabs[0]] + tabs[1..];
    }
  }

  // ---------------------------------------------------------------- entry by entry

  lemma Together(a: seq<Json>, b: seq<Json>, c: seq<Json>)
    ensures a + b + c == a + (b + c)
  {
  }

  // Lists are gone through entry by entry, and stay in order.
  lemma {:induction false} EntriesInOrder(a: seq<Json>, b: seq<Json>)
    ensures AllWithoutOwners(a + b) == AllWithoutOwners(a) + AllWithoutOwners(b)
  {
    if a == [] {
      assert a + b == b;
    } else {
      assert (a + b)[1..] == a[1..] + b;
      EntriesInOrder(a[1..], b);
      Together(if IsOwners(a[0]) then [] else [WithoutOwners(a[0])], AllWithoutOwners(a[1..]), AllWithoutOwners(b));
    }
  }

  lemma {:induction false} PanelsInOrder(tabs: seq<Json>, a: seq<Json>, b: seq<Json>)
    ensures PanelsBut(tabs, a + b) == PanelsBut(tabs, a) + PanelsBut(tabs, b)
  {
    if a == [] {
      assert a + b == b;
    } else {
      assert (a + b)[1..] == a[1..] + b;
      PanelsInOrder(tabs, a[1..], b);
      Together(if OnlyOwners(tabs, a[0]) then [] else [a[0]], PanelsBut(tabs, a[1..]), PanelsBut(tabs, b));
    }
  }

  lemma {:induction false} NamedInOrder(ids: seq<string>, a: seq<Json>, b: seq<Json>)
    ensures Present(ids, a + b) == Present(ids, a) + Present(ids, b)
  {
    if a == [] {
      assert a + b == b;
    } else {
      assert (a + b)[1..] == a[1..] + b;
      NamedInOrder(ids, a[1..], b);
      Together(if a[0].Str? && a[0].text in ids then [a[0]] else [], Present(ids, a[1..]), Present(ids, b));
    }
  }

  lemma {:induction false} TabsInOrder(ids: seq<string>, a: seq<Json>, b: seq<Json>)
    ensures TabsLeft(ids, a + b) == TabsLeft(ids, a) + TabsLeft(ids, b)
  {
    if a == [] {
      assert a + b == b;
    } else {
      assert (a + b)[1..] == a[1..] + b;
      TabsInOrder(ids, a[1..], b);
      Together(TabLeft(ids, a[0]), TabsLeft(ids, a[1..]), TabsLeft(ids, b));
    }
  }

  // Of one entry: what is the owner's is left out, a panel that only the owner's tabs name, and what a tab names that
  // is no panel shown.
  lemma OneEntryShown(v: Json, tabs: seq<Json>, panel: Json, ids: seq<string>, id: Json)
    ensures AllWithoutOwners([v]) == if Get(v, "visibleTo") == Some(Str("owner")) then [] else [WithoutOwners(v)]
    ensures PanelsBut(tabs, [panel]) == if OwnersAlone(tabs, panel) then [] else [panel]
    ensures Present(ids, [id]) == if id.Str? && id.text in ids then [id] else []
  {
    OnlyOwnersAre(tabs, panel);
    assert [v][1..] == [] && [panel][1..] == [] && [id][1..] == [];
  }

  // A tab that names no panels stays; one that does stays with those that are there, unless it named some and none is
  // left.
  lemma {:induction false} OneTabShown(ids: seq<string>, tab: Json)
    ensures GetItems(tab, "panels").None? ==> TabsLeft(ids, [tab]) == [tab]
    ensures GetItems(tab, "panels").Some? ==>
              var named := GetItems(tab, "panels").value;
              if named != [] && forall id :: id in named ==> !(id.Str? && id.text in ids) then TabsLeft(ids, [tab]) == []
              else TabsLeft(ids, [tab]) == [Obj(tab.fields["panels" := Arr(Present(ids, named))], None)]
  {
    assert [tab][1..] == [];
    assert TabsLeft(ids, [tab]) == TabLeft(ids, tab);
    if GetItems(tab, "panels").Some? && Present(ids, GetItems(tab, "panels").value) != [] {
      assert Present(ids, GetItems(tab, "panels").value)[0] in Present(ids, GetItems(tab, "panels").value);
    }
  }

  // A facade with tabs is shown with all its fields but the owner's, with those tabs, and with its default only where
  // that is one of them.
  lemma {:induction false} TabsShownExactly(facade: Json)
    requires GetItems(WithoutOwners(WithoutOwnersPanels(facade)), "tabs").Some?
    ensures var shown := WithoutOwners(WithoutOwnersPanels(facade));
            var ids := PanelIds(Panels(shown));
            var tabs := TabsLeft(ids, GetItems(shown, "tabs").value);
            var r := FacadeForMembers(facade);
            && r.Obj? && r.proto.None?
            && (forall k :: k in r.fields <==>
                  k == "tabs" || (k in shown.fields && (k == "defaultTab" ==> HasTab(tabs, Get(shown, "defaultTab")))))
            && (forall k :: k in r.fields ==> r.fields[k] == if k == "tabs" then Arr(tabs) else shown.fields[k])
  {
  }

  // A tab of that id; where there is none, one without an id.
  predicate HasTab(tabs: seq<Json>, id: Option<Json>) {
    exists i :: 0 <= i < |tabs| && tabs[i].Obj? && Get(tabs[i], "id") == id && (id.Some? ==> id.value.Str? || id.value.Other?)
  }

  lemma {:induction false} PanelsOf(facade: Json)
    requires Parsed(facade) && GetItems(facade, "tabs").Some? && GetItems(facade, "panels").Some?
    ensures Panels(FacadeForMembers(facade)) == AllWithoutOwners(PanelsBut(GetItems(facade, "tabs").value, Panels(facade)))
  {
    var f := WithoutOwnersPanels(facade);
    OwnItems(f, "panels", PanelsBut(GetItems(facade, "tabs").value, Panels(facade)));
    OwnItems(f, "tabs", GetItems(facade, "tabs").value);
    SettledFields(WithoutOwners(f));
  }

  lemma OwnItems(v: Json, name: string, items: seq<Json>)
    requires name != PROTO && v.Obj? && name in v.fields && v.fields[name] == Arr(items)
    ensures var r := WithoutOwners(v);
            r.Obj? && name in r.fields && r.fields[name] == Arr(AllWithoutOwners(items))
  {
    assert WithoutOwners(Arr(items)) == Arr(AllWithoutOwners(items));
  }
}
