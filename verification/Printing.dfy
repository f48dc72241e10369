/**
  The compact print src/callReport.ts shows the beginning of: its texts read back as what was printed (section 7 of
  RFC 8259), and what it takes in UTF-8 is what a value is measured at.
 */
module Printing {
  import opened Utf16
  import opened Measuring
  import opened Previewing

  // ---------------------------------------------------------------- reading a text back

  function HexValue(u: Unit): Option<nat> {
    if 0x30 <= u <= 0x39 then Some(u - 0x30)
    else if 0x41 <= u <= 0x46 then Some(u - 0x41 + 10)
    else if 0x61 <= u <= 0x66 then Some(u - 0x61 + 10)
    else None
  }

  datatype Option<+T> = None | Some(value: T)

  function FourHex(t: Text): (r: Option<nat>)
    requires |t| == 4
    ensures r.Some? ==> r.value < 0x1_0000
  {
    match (HexValue(t[0]), HexValue(t[1]), HexValue(t[2]), HexValue(t[3]))
    case (Some(a), Some(b), Some(c), Some(d)) => Some(a * 0x1000 + b * 0x100 + c * 0x10 + d)
    case _ => None
  }

  // What a reverse solidus and the letter after it stand for.
  function Short(letter: Unit): Option<Unit> {
    if letter == 0x22 || letter == 0x5C || letter == 0x2F then Some(letter)
    else if letter == 0x62 then Some(8)
    else if letter == 0x66 then Some(12)
    else if letter == 0x6E then Some(10)
    else if letter == 0x72 then Some(13)
    else if letter == 0x74 then Some(9)
    else None
  }

  // The unit a text in quotes begins with, and how much of it that takes: nothing that ends it, no control, and an
  // escape there is.
  function First(t: Text): (r: Option<(Unit, nat)>)
    requires t != []
    ensures r.Some? ==> 0 < r.value.1 <= |t|
  {
    if t[0] == 0x22 || t[0] < 0x20 then None
    else if t[0] != 0x5C then Some((t[0], 1))
    else if |t| >= 6 && t[1] == 0x75 then
      match FourHex(t[2..6]) case Some(u) => Some((u, 6)) case None => None
    else if |t| >= 2 && t[1] != 0x75 then
      match Short(t[1]) case Some(u) => Some((u, 2)) case None => None
    else None
  }

  function Decoded(t: Text): Option<Text> {
    if t == [] then Some([])
    else match First(t)
      case None => None
      case Some(r) => match Decoded(t[r.1..]) case None => None case Some(rest) => Some([r.0] + rest)
  }

  lemma DigitReads(n: nat)
    requires n < 16
    ensures HexValue(Hex(n)) == Some(n)
  {
  }

  lemma EscapedReads(u: Unit)
    ensures FourHex([Hex(u / 0x1000), Hex(u / 0x100 % 16), Hex(u / 0x10 % 16), Hex(u % 16)]) == Some(u)
  {
    var a, b, c, d := u / 0x1000, u / 0x100 % 16, u / 0x10 % 16, u % 16;
    DigitReads(a);
    DigitReads(b);
    DigitReads(c);
    DigitReads(d);
    ByDigits(u);
  }

  lemma ByDigits(u: Unit)
    ensures u == u / 0x1000 * 0x1000 + u / 0x100 % 16 * 0x100 + u / 0x10 % 16 * 0x10 + u % 16
  {
    var q := u / 0x10;
    var r := q / 0x10;
    assert u / 0x100 == r;
    assert u / 0x1000 == r / 0x10;
  }

  lemma {:induction false} OneUnitReads(u: Unit, rest: Text)
    ensures var p := UnitPrint(u);
            First(p + rest) == Some((u, |p|)) && (p + rest)[|p|..] == rest
  {
    var p := UnitPrint(u);
    if |p| == 6 {
      assert p == Escaped(u);
      assert (p + rest)[2..6] == [Hex(u / 0x1000), Hex(u / 0x100 % 16), Hex(u / 0x10 % 16), Hex(u % 16)];
      EscapedReads(u);
    }
  }

  // A printed text reads back as the text, whatever units it is of.
  lemma {:induction false} TextReadsBack(t: Text)
    ensures Decoded(TextPrint(t)) == Some(t)
    decreases |t|
  {
    if t != [] {
      if Front(t) == 2 {
        TextReadsBack(t[2..]);
        PairReads(t[0], t[1], TextPrint(t[2..]));
        assert t[..2] == [t[0], t[1]] && t == [t[0]] + ([t[1]] + t[2..]);
      } else {
        TextReadsBack(t[1..]);
        UnitReads(t[0], TextPrint(t[1..]), t[1..]);
        assert t == [t[0]] + t[1..];
      }
    }
  }

  lemma UnitReads(u: Unit, rest: Text, text: Text)
    requires Decoded(rest) == Some(text)
    ensures Decoded(UnitPrint(u) + rest) == Some([u] + text)
  {
    OneUnitReads(u, rest);
    assert UnitPrint(u) + rest != [];
  }

  lemma PairReads(high: Unit, low: Unit, rest: Text)
    requires High(high) && Low(low)
    ensures Decoded([high, low] + rest) == match Decoded(rest) case None => None case Some(r) => Some([high] + ([low] + r))
  {
    var t := [high, low] + rest;
    assert t[1..] == [low] + rest && ([low] + rest)[1..] == rest;
  }

  // ---------------------------------------------------------------- what it takes

  // A text that is printed as it is: without quotes, backslashes, controls, and surrogates that stand alone.
  predicate Unescaped(t: Text)
    decreases |t|
  {
    t == [] ||
    if Front(t) == 2 then Unescaped(t[2..])
    else t[0] >= 0x20 && t[0] != 0x22 && t[0] != 0x5C && !Surrogate(t[0]) && Unescaped(t[1..])
  }

  // What JSON has a form for, with texts that need no escapes.
  ghost predicate Plain(t: Tree)
    decreases t
  {
    match t
    case Leaf(Str(text)) => Unescaped(text)
    case Leaf(Number(_, finite)) => finite
    case Leaf(Boolean(_)) => true
    case Leaf(Nothing) => true
    case Leaf(_) => false
    case List(items) => forall i :: 0 <= i < |items| ==> Plain(items[i])
    case Record(keys, values) =>
      |keys| == |values| && forall i :: 0 <= i < |values| ==> Unescaped(keys[i]) && Plain(values[i])
  }

  // The records with a field: a comma is counted for each field, and the first is not printed.
  ghost function Commas(t: Tree): nat
    decreases t
  {
    match t
    case Leaf(_) => 0
    case List(items) => AllCommas(items)
    case Record(_, values) => AllCommas(values) + if values == [] then 0 else 1
  }

  ghost function AllCommas(ts: seq<Tree>): nat
    decreases ts
  {
    if ts == [] then 0 else Commas(ts[0]) + AllCommas(ts[1..])
  }

  lemma {:induction false} BytesAppend(a: Text, b: Text)
    requires Whole(a)
    ensures Bytes(a + b) == Bytes(a) + Bytes(b)
    decreases |a|
  {
    if a == [] {
      assert a + b == b;
    } else {
      var n := if High(a[0]) then 2 else 1;
      assert (a + b)[n..] == a[n..] + b;
      BytesShift(a + b, n, 0);
      BytesShift(a, n, 0);
      BytesAppend(a[n..], b);
    }
  }

  // No high surrogate is its last unit, counted as the source counts.
  predicate Whole(t: Text)
    decreases |t|
  {
    t == [] || if High(t[0]) then |t| > 1 && Whole(t[2..]) else Whole(t[1..])
  }

  lemma {:induction false} WholeAppend(a: Text, b: Text)
    requires Whole(a) && Whole(b)
    ensures Whole(a + b)
    decreases |a|
  {
    if a == [] {
      assert a + b == b;
    } else {
      var n := if High(a[0]) then 2 else 1;
      assert (a + b)[n..] == a[n..] + b;
      WholeAppend(a[n..], b);
    }
  }

  lemma {:induction false} UnescapedPrints(t: Text)
    requires Unescaped(t)
    ensures TextPrint(t) == t && Whole(t)
    decreases |t|
  {
    if t != [] {
      UnescapedPrints(t[Front(t)..]);
    }
  }

  lemma {:induction false} AsciiWhole(t: Text)
    requires forall i :: 0 <= i < |t| ==> t[i] < 0x80
    ensures Whole(t) && Bytes(t) == |t|
    decreases |t|
  {
    if t != [] {
      AsciiWhole(t[1..]);
      BytesShift(t, 1, 0);
    }
  }

  lemma QuotedTakes(t: Text)
    requires Unescaped(t)
    ensures Whole(Quoted(t)) && Bytes(Quoted(t)) == Bytes(t) + 2
  {
    UnescapedPrints(t);
    AsciiWhole([QUOTE]);
    BytesAppend([QUOTE], t);
    WholeAppend([QUOTE], t);
    BytesAppend([QUOTE] + t, [QUOTE]);
    WholeAppend([QUOTE] + t, [QUOTE]);
  }

  // What a value is measured at is what its print takes in UTF-8, and one more for each record that has a field.
  lemma {:induction false} MeasuredAsPrinted(t: Tree)
    requires Plain(t)
    ensures Whole(Print(t)) && Size(t) == Bytes(Print(t)) + Commas(t)
    decreases t
  {
    match t
    case Leaf(Str(text)) => QuotedTakes(text);
    case Leaf(x) => AsciiWhole(ScalarPrint(x));
    case List(items) =>
      ItemsMeasured(items, true);
      AsciiWhole([0x5B]);
      AsciiWhole([0x5D]);
      BytesAppend([0x5B], PrintItems(items, true));
      WholeAppend([0x5B], PrintItems(items, true));
      BytesAppend([0x5B] + PrintItems(items, true), [0x5D]);
      WholeAppend([0x5B] + PrintItems(items, true), [0x5D]);
    case Record(keys, values) =>
      FieldsMeasured(keys, values, true);
      AsciiWhole([0x7B]);
      AsciiWhole([0x7D]);
      BytesAppend([0x7B], PrintFields(keys, values, true));
      WholeAppend([0x7B], PrintFields(keys, values, true));
      BytesAppend([0x7B] + PrintFields(keys, values, true), [0x7D]);
      WholeAppend([0x7B] + PrintFields(keys, values, true), [0x7D]);
  }

  lemma {:induction false} ItemsMeasured(items: seq<Tree>, first: bool)
    requires forall i :: 0 <= i < |items| ==> Plain(items[i])
    ensures Whole(PrintItems(items, first))
    ensures Sizes(items) + (if items == [] then 0 else if first then |items| - 1 else |items|)
         == Bytes(PrintItems(items, first)) + AllCommas(items)
    decreases items
  {
    if items != [] {
      MeasuredAsPrinted(items[0]);
      ItemsMeasured(items[1..], false);
      SizesFront(items);
      AsciiWhole(Before(first));
      BytesAppend(Before(first), Print(items[0]));
      WholeAppend(Before(first), Print(items[0]));
      BytesAppend(Before(first) + Print(items[0]), PrintItems(items[1..], false));
      WholeAppend(Before(first) + Print(items[0]), PrintItems(items[1..], false));
    }
  }

  lemma SizesFront(ts: seq<Tree>)
    requires ts != []
    ensures Sizes(ts) == Size(ts[0]) + Sizes(ts[1..])
  {
    SizesAppend([ts[0]], ts[1..]);
    assert [ts[0]] + ts[1..] == ts;
    assert [ts[0]][..0] == [];
  }

  lemma {:induction false} FieldsMeasured(keys: seq<Text>, values: seq<Tree>, first: bool)
    requires |keys| == |values| && forall i :: 0 <= i < |values| ==> Unescaped(keys[i]) && Plain(values[i])
    ensures Whole(PrintFields(keys, values, first))
    ensures KeysSize(keys) + Sizes(values)
         == Bytes(PrintFields(keys, values, first)) + AllCommas(values) + if first && values != [] then 1 else 0
    decreases values
  {
    if values != [] {
      MeasuredAsPrinted(values[0]);
      FieldsMeasured(keys[1..], values[1..], false);
      SizesFront(values);
      KeysFront(keys);
      NamedTakes(keys[0], first);
      var lead := Before(first) + Named(keys[0]);
      BytesAppend(lead, Print(values[0]));
      WholeAppend(lead, Print(values[0]));
      BytesAppend(lead + Print(values[0]), PrintFields(keys[1..], values[1..], false));
      WholeAppend(lead + Print(values[0]), PrintFields(keys[1..], values[1..], false));
    }
  }

  lemma NamedTakes(key: Text, first: bool)
    requires Unescaped(key)
    ensures Whole(Before(first) + Named(key)) && Bytes(Before(first) + Named(key)) == Bytes(key) + if first then 3 else 4
  {
    QuotedTakes(key);
    AsciiWhole(COLON);
    BytesAppend(Quoted(key), COLON);
    WholeAppend(Quoted(key), COLON);
    AsciiWhole(Before(first));
    BytesAppend(Before(first), Named(key));
    WholeAppend(Before(first), Named(key));
  }
}
