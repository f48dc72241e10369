/**
  How src/callReport.ts shows the beginning of a value too large to carry: compact JSON, written no further
  than it is shown. Against `Print`, the whole of it.
 */
module Previewing {
  import opened Utf16
  import opened Measuring

  const PREVIEW_LENGTH: nat := 1024
  const ELLIPSIS: Unit := 0x2026

  const QUOTE: Unit := 0x22
  const BACKSLASH: Unit := 0x5C
  const COMMA: Text := [0x2C]
  const COLON: Text := [0x3A]
  const NULL: Text := [0x6E, 0x75, 0x6C, 0x6C]

  // ---------------------------------------------------------------- JSON.stringify of a text

  function Hex(n: nat): Unit
    requires n < 16
  {
    if n < 10 then 0x30 + n else 0x61 + n - 10
  }

  function Escaped(u: Unit): Text {
    [BACKSLASH, 0x75, Hex(u / 0x1000), Hex(u / 0x100 % 16), Hex(u / 0x10 % 16), Hex(u % 16)]
  }

  // A unit by itself: quotes, backslashes, controls and lone surrogates are escaped.
  function UnitPrint(u: Unit): (r: Text)
    ensures r != [] && !High(r[|r| - 1]) && !Low(r[0])
  {
    if u == QUOTE || u == BACKSLASH then [BACKSLASH, u]
    else if u == 8 then [BACKSLASH, 0x62]
    else if u == 9 then [BACKSLASH, 0x74]
    else if u == 10 then [BACKSLASH, 0x6E]
    else if u == 12 then [BACKSLASH, 0x66]
    else if u == 13 then [BACKSLASH, 0x72]
    else if u < 0x20 || High(u) || Low(u) then Escaped(u)
    else [u]
  }

  // The units a character at the front takes: two for a surrogate pair.
  function Front(t: Text): (n: nat)
    requires t != []
    ensures 0 < n <= |t|
  {
    if |t| > 1 && High(t[0]) && Low(t[1]) then 2 else 1
  }

  function TextPrint(t: Text): (r: Text)
    ensures |r| >= |t|
  {
    if t == [] then []
    else (if Front(t) == 2 then t[..2] else UnitPrint(t[0])) + TextPrint(t[Front(t)..])
  }

  function Quoted(t: Text): Text { [QUOTE] + TextPrint(t) + [QUOTE] }

  // Cut between characters, a text prints as the beginning of its print.
  lemma {:induction false} CutPrints(t: Text, k: nat)
    requires k <= |t| && !Splits(t, k)
    ensures TextPrint(t[..k]) <= TextPrint(t)
    decreases k
  {
    if k > 0 {
      var n := Front(t);
      assert n <= k;
      assert Front(t[..k]) == n;
      assert t[..k][n..] == t[n..][..k - n];
      CutPrints(t[n..], k - n);
    }
  }

  // ---------------------------------------------------------------- the whole print

  const AN_INSTANCE_OF: Text := [QUOTE, 0x3C]
  const BYTES_END: Text := [0x20, 0x62, 0x79, 0x74, 0x65, 0x73, 0x3E, QUOTE]

  function Decimal(n: nat): Text {
    (if n < 10 then [] else Decimal(n / 10)) + [0x30 + n % 10]
  }

  ghost predicate EndsWell(t: Text) { t == [] || !High(t[|t| - 1]) }

  function ScalarPrint(x: Scalar): (r: Text)
    ensures r != [] && EndsWell(r)
  {
    match x
    case Str(text) => Quoted(text)
    case Number(digits, finite) => if finite then digits else NULL
    case BigInt(digits) => digits
    case Boolean(b) => if b then [0x74, 0x72, 0x75, 0x65] else [0x66, 0x61, 0x6C, 0x73, 0x65]
    case Nothing => NULL
    case Callable => NULL
    case Binary(n) => AN_INSTANCE_OF + Decimal(n) + BYTES_END
    case Instance(name) => AN_INSTANCE_OF + name + [0x3E, QUOTE]
  }

  function Before(first: bool): Text { if first then [] else COMMA }

  function Named(key: Text): Text { Quoted(key) + COLON }

  function Print(t: Tree): Text
    decreases t
  {
    match t
    case Leaf(x) => ScalarPrint(x)
    case List(items) => [0x5B] + PrintItems(items, true) + [0x5D]
    case Record(keys, values) =>
      if |keys| == |values| then [0x7B] + PrintFields(keys, values, true) + [0x7D] else []
  }

  function PrintItems(items: seq<Tree>, first: bool): Text
    decreases items
  {
    if items == [] then [] else Before(first) + Print(items[0]) + PrintItems(items[1..], false)
  }

  function PrintFields(keys: seq<Text>, values: seq<Tree>, first: bool): Text
    requires |keys| == |values|
    decreases values
  {
    if values == [] then []
    else Before(first) + Named(keys[0]) + Print(values[0]) + PrintFields(keys[1..], values[1..], false)
  }

  // ---------------------------------------------------------------- as far as it is shown

  // What was written, and whether there is room for more; nothing once JSON.stringify threw, as it does at
  // a bigint.
  datatype Written = Threw | Wrote(out: Text, more: bool)

  ghost function Left(out: Text): nat { if |out| < PREVIEW_LENGTH then PREVIEW_LENGTH - |out| else 0 }

  ghost function Then(w: Written, close: Text): Written {
    if w.Wrote? && w.more then Wrote(w.out + close, |w.out + close| < PREVIEW_LENGTH) else w
  }

  ghost function ScalarWritten(x: Scalar, out: Text): Written
    requires |out| < PREVIEW_LENGTH
  {
    match x
    case BigInt(_) => Threw
    case Str(text) => Then(Wrote(out, true), Quoted(Head(text, PREVIEW_LENGTH - |out|)))
    case _ => Then(Wrote(out, true), ScalarPrint(x))
  }

  ghost function Write(h: Heap, v: Value, out: Text): (w: Written)
    requires Closed(h) && Has(h, v)
    ensures w.Wrote? ==> out <= w.out && (w.more ==> |w.out| < PREVIEW_LENGTH) && (EndsWell(out) ==> EndsWell(w.out))
    decreases Left(out), 0, 0
  {
    if |out| >= PREVIEW_LENGTH then Wrote(out, false)
    else match v
      case Plain(x) => ScalarWritten(x, out)
      case Arr(r) => Then(WriteItems(h, h.arrays[r], true, out + [0x5B]), [0x5D])
      case Obj(r) => Then(WriteFields(h, h.keys[r], h.fields[r], true, out + [0x7B]), [0x7D])
  }

  ghost function WriteItems(h: Heap, items: seq<Value>, first: bool, out: Text): (w: Written)
    requires Closed(h) && HasAll(h, items)
    ensures w.Wrote? ==> out <= w.out && (EndsWell(out) ==> EndsWell(w.out))
    decreases Left(out), 1, |items|
  {
    if items == [] then Wrote(out, true)
    else
      var w := Write(h, items[0], out + Before(first));
      if w.Wrote? && w.more then WriteItems(h, items[1..], false, w.out) else w
  }

  ghost function WriteFields(h: Heap, keys: seq<Text>, values: seq<Value>, first: bool, out: Text): (w: Written)
    requires Closed(h) && HasAll(h, values) && |keys| == |values|
    ensures w.Wrote? ==> out <= w.out && (EndsWell(out) ==> EndsWell(w.out))
    decreases Left(out), 1, |values|
  {
    if values == [] then Wrote(out, true)
    else
      var w := Write(h, values[0], out + Before(first) + Named(keys[0]));
      if w.Wrote? && w.more then WriteFields(h, keys[1..], values[1..], false, w.out) else w
  }

  // ---------------------------------------------------------------- up to the first bigint

  // What a print is up to where JSON.stringify throws: all of it, or what comes before the first bigint.
  datatype Printed = Printed(text: Text, stopped: bool)

  function Around(open: Text, p: Printed, close: Text): Printed {
    if p.stopped then Printed(open + p.text, true) else Printed(open + p.text + close, false)
  }

  function Follows(lead: Text, a: Printed, b: Printed): Printed {
    if a.stopped then Printed(lead + a.text, true) else Printed(lead + a.text + b.text, b.stopped)
  }

  function ScalarUpto(x: Scalar): Printed {
    if x.BigInt? then Printed([], true) else Printed(ScalarPrint(x), false)
  }

  function Upto(t: Tree): Printed
    decreases t
  {
    match t
    case Leaf(x) => ScalarUpto(x)
    case List(items) => Around([0x5B], UptoItems(items, true), [0x5D])
    case Record(keys, values) =>
      if |keys| == |values| then Around([0x7B], UptoFields(keys, values, true), [0x7D]) else Printed([], false)
  }

  function UptoItems(items: seq<Tree>, first: bool): Printed
    decreases items
  {
    if items == [] then Printed([], false) else Follows(Before(first), Upto(items[0]), UptoItems(items[1..], false))
  }

  function UptoFields(keys: seq<Text>, values: seq<Tree>, first: bool): Printed
    requires |keys| == |values|
    decreases values
  {
    if values == [] then Printed([], false)
    else Follows(Before(first) + Named(keys[0]), Upto(values[0]), UptoFields(keys[1..], values[1..], false))
  }

  ghost predicate HasBigInt(t: Tree)
    decreases t
  {
    match t
    case Leaf(x) => x.BigInt?
    case List(items) => exists i :: 0 <= i < |items| && HasBigInt(items[i])
    case Record(keys, values) => |keys| == |values| && exists i :: 0 <= i < |values| && HasBigInt(values[i])
  }

  // It stops short exactly where there is a bigint, and is the beginning of the print; without one, all of it.
  ghost predicate UptoOf(p: Printed, whole: Text, big: bool) {
    p.stopped == big && p.text <= whole && (!big ==> p.text == whole)
  }

  lemma {:induction false} UptoBigInt(t: Tree)
    ensures UptoOf(Upto(t), Print(t), HasBigInt(t))
    decreases t
  {
    match t {
      case Leaf(_) =>
      case List(items) => UptoBigIntItems(items, true);
      case Record(keys, values) =>
        if |keys| == |values| {
          UptoBigIntFields(keys, values, true);
        }
    }
  }

  lemma {:induction false} UptoBigIntItems(items: seq<Tree>, first: bool)
    ensures UptoOf(UptoItems(items, first), PrintItems(items, first), exists i :: 0 <= i < |items| && HasBigInt(items[i]))
    decreases items
  {
    if items != [] {
      UptoBigInt(items[0]);
      UptoBigIntItems(items[1..], false);
      FirstOrRest(items);
      FollowsOf(Before(first), Upto(items[0]), Print(items[0]), HasBigInt(items[0]),
                UptoItems(items[1..], false), PrintItems(items[1..], false), UptoItems(items[1..], false).stopped);
    }
  }

  lemma {:induction false} UptoBigIntFields(keys: seq<Text>, values: seq<Tree>, first: bool)
    requires |keys| == |values|
    ensures UptoOf(UptoFields(keys, values, first), PrintFields(keys, values, first), exists i :: 0 <= i < |values| && HasBigInt(values[i]))
    decreases values
  {
    if values != [] {
      UptoBigInt(values[0]);
      UptoBigIntFields(keys[1..], values[1..], false);
      FirstOrRest(values);
      FollowsOf(Before(first) + Named(keys[0]), Upto(values[0]), Print(values[0]), HasBigInt(values[0]),
                UptoFields(keys[1..], values[1..], false), PrintFields(keys[1..], values[1..], false),
                UptoFields(keys[1..], values[1..], false).stopped);
    }
  }

  lemma FirstOrRest(ts: seq<Tree>)
    requires ts != []
    ensures (exists i :: 0 <= i < |ts| && HasBigInt(ts[i]))
            <==> HasBigInt(ts[0]) || exists i :: 0 <= i < |ts[1..]| && HasBigInt(ts[1..][i])
  {
    if i :| 0 <= i < |ts| && HasBigInt(ts[i]) && i > 0 {
      assert ts[1..][i - 1] == ts[i];
    }
    if i :| 0 <= i < |ts[1..]| && HasBigInt(ts[1..][i]) {
      assert ts[i + 1] == ts[1..][i];
    }
  }

  lemma FollowsOf(lead: Text, a: Printed, x: Text, inA: bool, b: Printed, y: Text, inB: bool)
    requires UptoOf(a, x, inA) && UptoOf(b, y, inB)
    ensures UptoOf(Follows(lead, a, b), lead + x + y, inA || inB)
  {
    assert lead + x + y == lead + (x + y);
    assert lead + a.text <= lead + x;
    assert !inA ==> lead + x + b.text <= lead + x + y;
  }

  // ---------------------------------------------------------------- values that lead back to themselves

  // What a value says down to a depth; null stands for whatever is deeper.
  ghost function Unfolded(h: Heap, v: Value, d: nat): Tree
    requires Closed(h) && Has(h, v)
    decreases d, 0
  {
    match v
    case Plain(x) => Leaf(x)
    case Arr(r) => if d == 0 then Leaf(Nothing) else List(UnfoldedAll(h, h.arrays[r], d - 1))
    case Obj(r) => if d == 0 then Leaf(Nothing) else Record(h.keys[r], UnfoldedAll(h, h.fields[r], d - 1))
  }

  ghost function UnfoldedAll(h: Heap, vs: seq<Value>, d: nat): (ts: seq<Tree>)
    requires Closed(h) && HasAll(h, vs)
    ensures |ts| == |vs|
    decreases d, |vs| + 1
  {
    if vs == [] then [] else [Unfolded(h, vs[0], d)] + UnfoldedAll(h, vs[1..], d)
  }

  ghost function Depth(t: Tree): nat
    decreases t
  {
    match t
    case Leaf(_) => 0
    case List(items) => 1 + DepthAll(items)
    case Record(_, values) => 1 + DepthAll(values)
  }

  ghost function DepthAll(ts: seq<Tree>): nat
    decreases ts
  {
    if ts == [] then 0 else if Depth(ts[0]) > DepthAll(ts[1..]) then Depth(ts[0]) else DepthAll(ts[1..])
  }

  // A value that says a tree unfolds to it.
  lemma {:induction false} UnfoldsToItsTree(h: Heap, v: Value, t: Tree, d: nat)
    requires Closed(h) && Has(h, v) && Says(h, v, t) && Depth(t) <= d
    ensures Unfolded(h, v, d) == t
    decreases t
  {
    match t {
      case Leaf(_) =>
      case List(items) => AllUnfold(h, h.arrays[v.ref], items, d - 1);
      case Record(_, values) => AllUnfold(h, h.fields[v.ref], values, d - 1);
    }
  }

  lemma {:induction false} AllUnfold(h: Heap, vs: seq<Value>, ts: seq<Tree>, d: nat)
    requires Closed(h) && HasAll(h, vs) && SayAll(h, vs, ts) && DepthAll(ts) <= d
    ensures UnfoldedAll(h, vs, d) == ts
    decreases ts
  {
    if vs != [] {
      UnfoldsToItsTree(h, vs[0], ts[0], d);
      AllUnfold(h, vs[1..], ts[1..], d);
    }
  }

  // ---------------------------------------------------------------- the two agree

  // What was written after `out` against what there is to write: all of it while there is room; otherwise the
  // beginning of it, as far as is shown; and nothing where a bigint comes before that.
  ghost predicate Begins(w: Written, out: Text, p: Printed) {
    if w.Threw? then p.stopped && |out + p.text| < PREVIEW_LENGTH
    else if w.more then !p.stopped && w.out == out + p.text
    else |w.out| >= PREVIEW_LENGTH && |out + p.text| >= PREVIEW_LENGTH && w.out[..PREVIEW_LENGTH] == (out + p.text)[..PREVIEW_LENGTH]
  }

  lemma {:induction false} ScalarBegins(x: Scalar, out: Text)
    requires |out| < PREVIEW_LENGTH
    ensures Begins(ScalarWritten(x, out), out, ScalarUpto(x))
  {
    if x.Str? {
      CutTextBegins(x.text, out, Head(x.text, PREVIEW_LENGTH - |out|));
    }
  }

  // A text cut short runs past what is shown, its closing quote first of all.
  lemma {:induction false} CutTextBegins(text: Text, out: Text, h: Text)
    requires |out| < PREVIEW_LENGTH && h == Head(text, PREVIEW_LENGTH - |out|)
    ensures Begins(Then(Wrote(out, true), Quoted(h)), out, Printed(Quoted(text), false))
  {
    if h != text {
      assert h == text[..|h|];
      CutPrints(text, |h|);
      PastShown(out, [QUOTE] + TextPrint(h), [QUOTE], Quoted(text));
    }
  }

  lemma PastShown(out: Text, shown: Text, close: Text, whole: Text)
    requires shown <= whole && |out + shown| >= PREVIEW_LENGTH
    ensures Begins(Then(Wrote(out, true), shown + close), out, Printed(whole, false))
  {
    assert out + (shown + close) == (out + shown) + close;
    assert out + whole == (out + shown) + whole[|shown|..];
  }

  // Written with so much out already that no room is left for what is deeper than `d`.
  lemma {:induction false} WriteBegins(h: Heap, v: Value, d: nat, out: Text)
    requires Closed(h) && Has(h, v) && |out| + d >= PREVIEW_LENGTH
    ensures Begins(Write(h, v, out), out, Upto(Unfolded(h, v, d)))
    decreases d, 0
  {
    if |out| >= PREVIEW_LENGTH {
      FullBegins(out, Upto(Unfolded(h, v, d)));
    } else {
      match v {
        case Plain(x) => ScalarBegins(x, out);
        case Arr(r) =>
          ItemsBegin(h, h.arrays[r], d - 1, true, out + [0x5B]);
          Closes(WriteItems(h, h.arrays[r], true, out + [0x5B]), out, [0x5B], UptoItems(UnfoldedAll(h, h.arrays[r], d - 1), true), [0x5D]);
        case Obj(r) =>
          FieldsBegin(h, h.keys[r], h.fields[r], d - 1, true, out + [0x7B]);
          Closes(WriteFields(h, h.keys[r], h.fields[r], true, out + [0x7B]), out, [0x7B],
                 UptoFields(h.keys[r], UnfoldedAll(h, h.fields[r], d - 1), true), [0x7D]);
      }
    }
  }

  lemma FullBegins(out: Text, p: Printed)
    requires |out| >= PREVIEW_LENGTH
    ensures Begins(Wrote(out, false), out, p)
  {
    assert (out + p.text)[..PREVIEW_LENGTH] == out[..PREVIEW_LENGTH];
  }

  lemma {:induction false} Closes(w: Written, out: Text, open: Text, p: Printed, close: Text)
    requires Begins(w, out + open, p)
    ensures Begins(Then(w, close), out, Around(open, p, close))
  {
    assert out + open + p.text == out + (open + p.text);
    assert out + (open + p.text + close) == out + (open + p.text) + close;
  }

  // The first of several is written, and then the others.
  lemma {:induction false} Chains(first: Written, w: Written, out: Text, lead: Text, a: Printed, b: Printed)
    requires Begins(first, out + lead, a)
    requires if first.Wrote? && first.more then Begins(w, first.out, b) else w == first
    ensures Begins(w, out, Follows(lead, a, b))
  {
    assert out + (lead + a.text) == out + lead + a.text;
    assert out + (lead + a.text + b.text) == out + lead + a.text + b.text;
  }

  lemma {:induction false} ItemsBegin(h: Heap, items: seq<Value>, d: nat, first: bool, out: Text)
    requires Closed(h) && HasAll(h, items) && |out| + d >= PREVIEW_LENGTH
    ensures Begins(WriteItems(h, items, first, out), out, UptoItems(UnfoldedAll(h, items, d), first))
    decreases d, |items| + 1
  {
    if items != [] {
      var o, ts := out + Before(first), UnfoldedAll(h, items, d);
      var w := Write(h, items[0], o);
      WriteBegins(h, items[0], d, o);
      if w.Wrote? && w.more {
        ItemsBegin(h, items[1..], d, false, w.out);
      }
      Chains(w, WriteItems(h, items, first, out), out, Before(first), Upto(ts[0]), UptoItems(ts[1..], false));
    }
  }

  lemma {:induction false} FieldsBegin(h: Heap, keys: seq<Text>, values: seq<Value>, d: nat, first: bool, out: Text)
    requires Closed(h) && HasAll(h, values) && |keys| == |values| && |out| + d >= PREVIEW_LENGTH
    ensures Begins(WriteFields(h, keys, values, first, out), out, UptoFields(keys, UnfoldedAll(h, values, d), first))
    decreases d, |values| + 1
  {
    if values != [] {
      var lead, ts := Before(first) + Named(keys[0]), UnfoldedAll(h, values, d);
      var o := out + Before(first) + Named(keys[0]);
      assert o == out + lead;
      var w := Write(h, values[0], o);
      WriteBegins(h, values[0], d, o);
      if w.Wrote? && w.more {
        FieldsBegin(h, keys[1..], values[1..], d, false, w.out);
      }
      Chains(w, WriteFields(h, keys, values, first, out), out, lead, Upto(ts[0]), UptoFields(keys[1..], ts[1..], false));
    }
  }

  // ---------------------------------------------------------------- the preview

  datatype Preview = Failed | Shown(text: Text)

  ghost function PreviewOf(h: Heap, v: Value): Preview
    requires Closed(h) && Has(h, v)
  {
    match Write(h, v, [])
    case Threw => Failed
    case Wrote(out, more) => Shown(if more then out else Head(out, PREVIEW_LENGTH) + [ELLIPSIS])
  }

  // What is written so far is headed as the whole print is.
  lemma HeadBegins(out: Text, whole: Text)
    requires PREVIEW_LENGTH <= |out| && PREVIEW_LENGTH <= |whole| && out[..PREVIEW_LENGTH] == whole[..PREVIEW_LENGTH] && EndsWell(out)
    ensures var k := |Head(out, PREVIEW_LENGTH)|;
            PREVIEW_LENGTH - 1 <= k <= PREVIEW_LENGTH && !Splits(whole, k) && Head(out, PREVIEW_LENGTH) == whole[..k]
  {
    var k := |Head(out, PREVIEW_LENGTH)|;
    assert out[..PREVIEW_LENGTH][..k] == out[..k] == whole[..k];
    assert out[PREVIEW_LENGTH - 1] == whole[PREVIEW_LENGTH - 1];
    assert Head(out, PREVIEW_LENGTH) == out[..k];
  }

  // The first 1024 units, or one fewer where those would end inside a character, and an ellipsis.
  ghost predicate Cut(shown: Text, whole: Text) {
    |whole| >= PREVIEW_LENGTH
    && exists k :: PREVIEW_LENGTH - 1 <= k <= PREVIEW_LENGTH && !Splits(whole, k) && shown == whole[..k] + [ELLIPSIS]
  }

  // What a preview is, by the print up to the first bigint: it fails at a bigint it comes to; a print short
  // enough is shown whole, and any other cut. A print of exactly 1024 units is one of the others.
  ghost predicate Previews(r: Preview, p: Printed) {
    if |p.text| >= PREVIEW_LENGTH then r.Shown? && Cut(r.text, p.text)
    else if p.stopped then r.Failed?
    else r == Shown(p.text)
  }

  // Of any value, one that leads back to itself included, by what it says as deep as is shown.
  lemma {:induction false} ShowsTheBeginning(h: Heap, v: Value, d: nat)
    requires Closed(h) && Has(h, v) && d >= PREVIEW_LENGTH
    ensures Previews(PreviewOf(h, v), Upto(Unfolded(h, v, d)))
  {
    var w, p := Write(h, v, []), Upto(Unfolded(h, v, d));
    WriteBegins(h, v, d, []);
    assert [] + p.text == p.text;
    if w.Wrote? && !w.more {
      HeadBegins(w.out, p.text);
    }
  }

  // And of a value that says a tree, by that.
  lemma {:induction false} ShowsTree(h: Heap, v: Value, t: Tree)
    requires Closed(h) && Has(h, v) && Says(h, v, t)
    ensures Previews(PreviewOf(h, v), Upto(t))
  {
    var d := if Depth(t) > PREVIEW_LENGTH then Depth(t) else PREVIEW_LENGTH;
    UnfoldsToItsTree(h, v, t, d);
    ShowsTheBeginning(h, v, d);
  }

  // JSON.stringify throws at a bigint: a preview fails exactly where there is one with fewer than 1024 units
  // before it.
  lemma {:induction false} FailsExactly(h: Heap, v: Value, d: nat)
    requires Closed(h) && Has(h, v) && d >= PREVIEW_LENGTH
    ensures PreviewOf(h, v).Failed? <==> HasBigInt(Unfolded(h, v, d)) && |Upto(Unfolded(h, v, d)).text| < PREVIEW_LENGTH
  {
    ShowsTheBeginning(h, v, d);
    UptoBigInt(Unfolded(h, v, d));
  }

  // So it fails at nothing else; a value without one is shown by its print.
  lemma {:induction false} FailsOnlyAtBigInt(h: Heap, v: Value, d: nat)
    requires Closed(h) && Has(h, v) && d >= PREVIEW_LENGTH && !HasBigInt(Unfolded(h, v, d))
    ensures Previews(PreviewOf(h, v), Printed(Print(Unfolded(h, v, d)), false)) && PreviewOf(h, v).Shown?
  {
    ShowsTheBeginning(h, v, d);
    UptoBigInt(Unfolded(h, v, d));
  }

  // [1n, "x…"], however long the text: past the limit, and its preview fails.
  lemma {:induction false} BigIntFails(h: Heap, r: Ref, digits: Digits, text: Text, limit: nat)
    requires Closed(h) && r in h.arrays && h.arrays[r] == [Plain(BigInt(digits)), Plain(Str(text))] && |text| > limit
    ensures MeasureOne(h, Arr(r), limit) > limit && PreviewOf(h, Arr(r)).Failed?
  {
    var t := List([Leaf(BigInt(digits)), Leaf(Str(text))]);
    assert Says(h, Arr(r), t) by {
      assert Says(h, Plain(BigInt(digits)), Leaf(BigInt(digits))) && Says(h, Plain(Str(text)), Leaf(Str(text)));
    }
    WithinBudget(h, Arr(r), limit);
    TwoSizes(Leaf(BigInt(digits)), Leaf(Str(text)));
    ShowsTree(h, Arr(r), t);
    assert UptoItems(t.items, true) == Printed([], true);
  }

  lemma TwoSizes(a: Tree, b: Tree)
    ensures Size(List([a, b])) >= Size(a) + Size(b)
  {
    assert [a, b][..1] == [a] && [a][..0] == [];
    assert Sizes([a]) == Sizes([]) + Size(a) && Sizes([a, b]) == Sizes([a]) + Size(b);
  }
}
