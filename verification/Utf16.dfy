/**
  Text as the source has it: UTF-16 code units, well formed or not. What it takes in UTF-8, counted unit by
  unit as in src/callReport.ts, and against the encoding section 3 of RFC 3629 gives each character.
 */
module Utf16 {

  type Unit = u: nat | u < 0x1_0000
  type Text = seq<Unit>
  type Octet = b: nat | b < 0x100

  predicate High(u: Unit) { 0xD800 <= u <= 0xDBFF }
  predicate Low(u: Unit) { 0xDC00 <= u <= 0xDFFF }

  // A cut after k units falls inside a surrogate pair.
  predicate Splits(t: Text, k: nat) {
    0 < k < |t| && High(t[k - 1]) && Low(t[k])
  }

  // ---------------------------------------------------------------- counting

  function UnitBytes(u: Unit): nat {
    if u < 0x80 then 1 else if u < 0x800 then 2 else if High(u) then 4 else 3
  }

  // From a position on: the unit after a high surrogate is counted with it, whatever it is.
  function BytesFrom(t: Text, i: nat): (n: nat)
    ensures n >= |t| - i
    decreases |t| - i
  {
    if i >= |t| then 0
    else UnitBytes(t[i]) + BytesFrom(t, if High(t[i]) then i + 2 else i + 1)
  }

  function Bytes(t: Text): nat { BytesFrom(t, 0) }

  // No further than the budget: a text with more units is answered with their number.
  method BytesUpTo(t: Text, budget: int) returns (bytes: nat)
    ensures bytes == if |t| > budget then |t| else Bytes(t)
    ensures |t| <= bytes <= Bytes(t) && (Bytes(t) <= budget ==> bytes == Bytes(t)) && (Bytes(t) > budget ==> bytes > budget)
  {
    if |t| > budget {
      return |t|;
    }
    bytes := 0;
    var i := 0;
    while i < |t|
      invariant bytes + BytesFrom(t, i) == Bytes(t)
    {
      var code := t[i];
      if code < 0x80 {
        bytes := bytes + 1;
      } else if code < 0x800 {
        bytes := bytes + 2;
      } else if 0xD800 <= code <= 0xDBFF {
        bytes := bytes + 4;
        i := i + 1;
      } else {
        bytes := bytes + 3;
      }
      i := i + 1;
    }
  }

  // ---------------------------------------------------------------- characters

  type Character = c: nat | c < 0x11_0000 && !(0xD800 <= c <= 0xDFFF)

  function Units(c: Character): Text {
    if c < 0x1_0000 then [c] else [0xD800 + (c - 0x1_0000) / 0x400, 0xDC00 + (c - 0x1_0000) % 0x400]
  }

  // Section 3 of RFC 3629.
  function Octets(c: Character): seq<Octet> {
    if c < 0x80 then [c]
    else if c < 0x800 then [0xC0 + c / 0x40, 0x80 + c % 0x40]
    else if c < 0x1_0000 then [0xE0 + c / 0x1000, 0x80 + c / 0x40 % 0x40, 0x80 + c % 0x40]
    else [0xF0 + c / 0x4_0000, 0x80 + c / 0x1000 % 0x40, 0x80 + c / 0x40 % 0x40, 0x80 + c % 0x40]
  }

  function Utf16(cs: seq<Character>): Text {
    if cs == [] then [] else Units(cs[0]) + Utf16(cs[1..])
  }

  function Utf8(cs: seq<Character>): seq<Octet> {
    if cs == [] then [] else Octets(cs[0]) + Utf8(cs[1..])
  }

  lemma {:induction false} BytesShift(t: Text, k: nat, i: nat)
    requires k <= |t|
    ensures BytesFrom(t, k + i) == BytesFrom(t[k..], i)
    decreases |t| - i
  {
    if k + i < |t| {
      assert t[k + i] == t[k..][i];
      BytesShift(t, k, if High(t[k + i]) then i + 2 else i + 1);
    }
  }

  // Of well-formed text, exactly the bytes UTF-8 takes.
  lemma {:induction false} BytesAreUtf8(cs: seq<Character>)
    ensures Bytes(Utf16(cs)) == |Utf8(cs)|
  {
    if cs != [] {
      BytesAreUtf8(cs[1..]);
      var k := |Units(cs[0])|;
      assert Utf16(cs)[k..] == Utf16(cs[1..]);
      BytesShift(Utf16(cs), k, 0);
      assert Utf16(cs)[..k] == Units(cs[0]);
      assert Bytes(Utf16(cs)) == UnitBytes(Utf16(cs)[0]) + BytesFrom(Utf16(cs), k);
    }
  }

  // ---------------------------------------------------------------- text that is not well formed

  predicate Surrogate(u: Unit) { High(u) || Low(u) }

  function Joined(high: Unit, low: Unit): Character
    requires High(high) && Low(low)
  {
    0x1_0000 + (high - 0xD800) * 0x400 + (low - 0xDC00)
  }

  // A unit by itself: U+FFFD stands for a surrogate.
  function Alone(u: Unit): Character { if Surrogate(u) then 0xFFFD else u }

  // Any text in UTF-8, U+FFFD for each surrogate that is not half of a pair.
  function Encoded(t: Text): seq<Octet>
    decreases |t|
  {
    if t == [] then []
    else if Splits(t, 1) then Octets(Joined(t[0], t[1])) + Encoded(t[2..])
    else Octets(Alone(t[0])) + Encoded(t[1..])
  }

  // Of characters, that is their encoding.
  lemma {:induction false} EncodedIsUtf8(cs: seq<Character>)
    ensures Encoded(Utf16(cs)) == Utf8(cs)
  {
    if cs != [] {
      EncodedIsUtf8(cs[1..]);
      var c, t := cs[0], Utf16(cs);
      var k := |Units(c)|;
      assert t[k..] == Utf16(cs[1..]) && t[..k] == Units(c);
      if c >= 0x1_0000 {
        assert t[0] == Units(c)[0] && t[1] == Units(c)[1];
        assert Joined(t[0], t[1]) == c;
      } else {
        assert t[0] == c;
      }
    }
  }

  // By how much the count at a lone high surrogate, and at the unit it takes along, differs from the octets
  // of both: by what comes after it.
  function Slip(after: Text): int {
    if after == [] then 1
    else if Splits(after, 1) then 0
    else 1 - |Octets(Alone(after[0]))|
  }

  // The same, over the lone high surrogates the count comes to.
  function Slips(t: Text): int
    decreases |t|
  {
    if t == [] then 0
    else if Splits(t, 1) then Slips(t[2..])
    else if !High(t[0]) then Slips(t[1..])
    else if |t| == 1 then Slip([])
    else Slip(t[1..]) + Slips(t[if Splits(t[1..], 1) then 3 else 2..])
  }

  // The count of any text: its octets, U+FFFD for each lone surrogate, and what it slips by.
  lemma {:induction false} LoneSurrogateTakesTheNext(t: Text)
    ensures Bytes(t) == |Encoded(t)| + Slips(t)
    decreases |t|
  {
    if t != [] {
      CountOne(t);
      if Splits(t, 1) {
        LoneSurrogateTakesTheNext(t[2..]);
      } else if !High(t[0]) {
        LoneSurrogateTakesTheNext(t[1..]);
      } else if |t| > 1 {
        var after := t[1..];
        assert after[1..] == t[2..];
        if Splits(after, 1) {
          CountOne(t[2..]);
          assert t[2..][1..] == t[3..] == after[2..];
          LoneSurrogateTakesTheNext(t[3..]);
        } else {
          LoneSurrogateTakesTheNext(t[2..]);
        }
      }
    }
  }

  lemma CountOne(t: Text)
    requires t != []
    ensures Bytes(t) == UnitBytes(t[0]) + (if High(t[0]) then if |t| > 1 then Bytes(t[2..]) else 0 else Bytes(t[1..]))
  {
    var k := if High(t[0]) then 2 else 1;
    assert Bytes(t) == UnitBytes(t[0]) + BytesFrom(t, k);
    if k <= |t| {
      BytesShift(t, k, 0);
      assert BytesFrom(t, k) == Bytes(t[k..]);
    }
  }

  // Exact, so, where every high surrogate begins a pair, whatever low ones stand alone.
  lemma {:induction false} ExactWithoutLoneHighs(t: Text)
    requires forall i :: 0 <= i < |t| && High(t[i]) ==> Splits(t, i + 1)
    ensures Bytes(t) == |Encoded(t)|
  {
    LoneSurrogateTakesTheNext(t);
    NoneSlips(t);
  }

  lemma {:induction false} NoneSlips(t: Text)
    requires forall i :: 0 <= i < |t| && High(t[i]) ==> Splits(t, i + 1)
    ensures Slips(t) == 0
    decreases |t|
  {
    if t != [] {
      var k := if Splits(t, 1) then 2 else 1;
      var rest := t[k..];
      forall i | 0 <= i < |rest| && High(rest[i]) ensures Splits(rest, i + 1) {
        assert rest[i] == t[k + i] && Splits(t, k + i + 1);
      }
      NoneSlips(rest);
    }
  }

  // ---------------------------------------------------------------- beginnings

  function Head(t: Text, length: nat): (h: Text)
    requires length > 0
    ensures h <= t && |h| <= length && !Splits(t, |h|) && (|h| < length ==> |t| < length || |h| == length - 1)
    ensures |t| <= length ==> h == t
  {
    if |t| <= length then t
    else if High(t[length - 1]) then t[..length - 1] else t[..length]
  }
}
