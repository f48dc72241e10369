/**
  Reading an IP address (toBytes of src/egress.ts): text to 4 or 16 bytes. Which texts are addresses at all
  is the platform's to say; what it accepts is what section 2.2 of RFC 4291 lets one write, with at least
  one group left out by `::`, and four decimal numbers without leading zeros.
 */
module Addresses {

  datatype Option<+T> = None | Some(value: T)

  type Byte = b: nat | b < 0x100
  type Bytes = seq<Byte>

  // ---------------------------------------------------------------- text

  function IndexOf(s: string, c: char): (i: nat)
    ensures i <= |s| && (i < |s| ==> s[i] == c) && forall j :: 0 <= j < i ==> s[j] != c
  {
    if s == "" || s[0] == c then 0
    else
      assert s[..1 + IndexOf(s[1..], c)] == [s[0]] + s[1..][..IndexOf(s[1..], c)];
      1 + IndexOf(s[1..], c)
  }

  function Split(s: string, c: char): (parts: seq<string>)
    ensures parts != []
    decreases |s|
  {
    var i := IndexOf(s, c);
    if i == |s| then [s] else [s[..i]] + Split(s[i + 1..], c)
  }

  function Join(parts: seq<string>, c: char): string {
    if parts == [] then "" else if |parts| == 1 then parts[0] else parts[0] + [c] + Join(parts[1..], c)
  }

  lemma {:induction false} IndexAfter(a: string, c: char, b: string)
    requires c !in a
    ensures IndexOf(a + [c] + b, c) == |a|
  {
    if a != "" {
      assert (a + [c] + b)[1..] == a[1..] + [c] + b;
      IndexAfter(a[1..], c, b);
    }
  }

  lemma {:induction false} SplitJoin(parts: seq<string>, c: char)
    requires parts != [] && forall p :: p in parts ==> c !in p
    ensures Split(Join(parts, c), c) == parts
  {
    if |parts| == 1 {
      assert c !in parts[0];
    } else {
      var rest := Join(parts[1..], c);
      assert c !in parts[0];
      IndexAfter(parts[0], c, rest);
      SplitJoin(parts[1..], c);
      assert Join(parts, c)[..|parts[0]|] == parts[0] && Join(parts, c)[|parts[0]| + 1..] == rest;
    }
  }

  lemma {:induction false} JoinTwoMore(parts: seq<string>, c: char, x: string, y: string)
    requires parts != []
    ensures Join(parts + [x, y], c) == Join(parts, c) + [c] + x + [c] + y
  {
    var all := parts + [x, y];
    assert all[1..] == parts[1..] + [x, y];
    if |parts| == 1 {
      assert Join([x, y], c) == x + [c] + Join([y], c);
      assert parts[1..] + [x, y] == [x, y];
    } else {
      JoinTwoMore(parts[1..], c, x, y);
    }
  }

  // ---------------------------------------------------------------- numbers

  predicate IsHex(c: char) { '0' <= c <= '9' || 'a' <= c <= 'f' || 'A' <= c <= 'F' }

  function HexValue(c: char): nat
    requires IsHex(c)
  {
    if '0' <= c <= '9' then c as int - '0' as int
    else if 'a' <= c <= 'f' then c as int - 'a' as int + 10
    else c as int - 'A' as int + 10
  }

  predicate AllHex(s: string) { forall i :: 0 <= i < |s| ==> IsHex(s[i]) }

  // parseInt(s, 16).
  function ParseHex(s: string): nat {
    if s == "" || !IsHex(s[|s| - 1]) then 0 else 0x10 * ParseHex(s[..|s| - 1]) + HexValue(s[|s| - 1])
  }

  function HexDigit(n: nat): char
    requires n < 16
  {
    if n < 10 then '0' + n as char else 'a' + (n - 10) as char
  }

  // n.toString(16).
  function HexText(n: nat): (s: string)
    ensures s != ""
  {
    (if n < 16 then "" else HexText(n / 16)) + [HexDigit(n % 16)]
  }

  lemma {:induction false} HexRoundTrip(n: nat)
    ensures ParseHex(HexText(n)) == n && AllHex(HexText(n))
  {
    var s := HexText(n);
    if n >= 16 {
      HexRoundTrip(n / 16);
      assert s[..|s| - 1] == HexText(n / 16);
    } else {
      assert s[..|s| - 1] == "";
    }
  }

  function DecimalDigit(n: nat): (c: char)
    requires n < 10
    ensures '0' <= c <= '9' && c as int == '0' as int + n
  {
    '0' + n as char
  }

  function ParseDecimal(s: string): nat {
    if s == "" || !('0' <= s[|s| - 1] <= '9') then 0
    else 10 * ParseDecimal(s[..|s| - 1]) + (s[|s| - 1] as int - '0' as int)
  }

  predicate AllDigits(s: string) { forall c :: c in s ==> '0' <= c <= '9' }

  function DecimalText(n: nat): (s: string)
    ensures s != "" && AllDigits(s)
  {
    (if n < 10 then "" else DecimalText(n / 10)) + [DecimalDigit(n % 10)]
  }

  lemma OneDigitMore(s: string, n: nat)
    requires n < 10
    ensures ParseDecimal(s + [DecimalDigit(n)]) == 10 * ParseDecimal(s) + n
  {
    assert (s + [DecimalDigit(n)])[..|s|] == s;
  }

  lemma {:induction false} DecimalRoundTrip(n: nat)
    ensures ParseDecimal(DecimalText(n)) == n
  {
    var lead := if n < 10 then "" else DecimalText(n / 10);
    if n >= 10 {
      DecimalRoundTrip(n / 10);
    }
    assert ParseDecimal(lead) == n / 10;
    OneDigitMore(lead, n % 10);
    assert DecimalText(n) == lead + [DecimalDigit(n % 10)];
  }

  // ---------------------------------------------------------------- what one may write

  function Dotted(b: Bytes): string {
    Join(seq(|b|, i requires 0 <= i < |b| => DecimalText(b[i])), '.')
  }

  ghost predicate IsIPv4(text: string) {
    exists b: Bytes :: |b| == 4 && text == Dotted(b)
  }

  // Eight groups, some run of which `::` may stand for, the last two of which may be dotted.
  datatype Spelling = Spelling(left: seq<string>, gap: bool, right: seq<string>, tail: Option<Bytes>)

  predicate IsGroup(s: string) { 1 <= |s| <= 4 && AllHex(s) }

  function Length(sp: Spelling): nat {
    |sp.left| + |sp.right| + if sp.tail.Some? then 2 else 0
  }

  predicate Proper(sp: Spelling) {
    && (forall g :: g in sp.left ==> IsGroup(g))
    && (forall g :: g in sp.right ==> IsGroup(g))
    && (if sp.gap then Length(sp) <= 7 else Length(sp) == 8 && sp.right == [])
    && (sp.tail.Some? ==> |sp.tail.value| == 4)
  }

  // All of it but a dotted tail.
  function Lead(sp: Spelling): string {
    if !sp.gap then Join(sp.left, ':') + if sp.tail.Some? then ":" else ""
    else Join(sp.left, ':') + "::" + Join(sp.right, ':') + if sp.tail.Some? && sp.right != [] then ":" else ""
  }

  function Written(sp: Spelling): string {
    Lead(sp) + if sp.tail.Some? then Dotted(sp.tail.value) else ""
  }

  ghost predicate IsIPv6(text: string) {
    exists sp :: Proper(sp) && text == Written(sp)
  }

  function Zeros(n: int): (z: seq<nat>)
    ensures |z| == if n < 0 then 0 else n
  {
    if n <= 0 then [] else [0] + Zeros(n - 1)
  }

  function Values(groups: seq<string>): (v: seq<nat>)
    ensures |v| == |groups|
  {
    seq(|groups|, i requires 0 <= i < |groups| => ParseHex(groups[i]))
  }

  // What `::` leaves out between the groups before and after it.
  function Expanded(left: seq<nat>, right: seq<nat>): seq<nat> {
    left + Zeros(8 - |left| - |right|) + right
  }

  function Pair(high: nat, low: nat): nat { high * 0x100 + low }

  function TailValues(sp: Spelling): seq<nat>
    requires Proper(sp)
  {
    match sp.tail
    case None => []
    case Some(b) => [Pair(b[0], b[1]), Pair(b[2], b[3])]
  }

  // The eight groups a spelling means.
  function Meaning(sp: Spelling): seq<nat>
    requires Proper(sp)
  {
    if sp.gap then Expanded(Values(sp.left), Values(sp.right) + TailValues(sp)) else Values(sp.left) + TailValues(sp)
  }

  // ---------------------------------------------------------------- reading it

  function AfterLastColon(s: string): (k: nat)
    ensures k <= |s| && ':' !in s[k..] && (k > 0 ==> s[k - 1] == ':')
  {
    if s == "" then 0
    else if s[|s| - 1] == ':' then |s|
    else
      var k := AfterLastColon(s[..|s| - 1]);
      assert s[k..] == s[..|s| - 1][k..] + [s[|s| - 1]];
      k
  }

  // What is read of a text with dots after its last colon: the same, with two groups in their place.
  function WithoutTail(s: string): string {
    var k := AfterLastColon(s);
    if '.' !in s[k..] || |Split(s[k..], '.')| != 4 then s else s[..k] + TwoGroupsOf(Split(s[k..], '.'))
  }

  function TwoGroupsOf(octets: seq<string>): string
    requires |octets| == 4
  {
    HexText(Pair(ParseDecimal(octets[0]), ParseDecimal(octets[1]))) + ":"
    + HexText(Pair(ParseDecimal(octets[2]), ParseDecimal(octets[3])))
  }

  // Where "::" first is; the length where it is not.
  function DoubleColon(s: string): (i: nat)
    ensures i <= |s| && (i < |s| ==> i + 1 < |s| && s[i] == s[i + 1] == ':')
    ensures forall j :: 0 <= j < i && j + 1 < |s| ==> !(s[j] == s[j + 1] == ':')
  {
    if |s| < 2 then |s|
    else if s[0] == s[1] == ':' then 0
    else
      var i := DoubleColon(s[1..]);
      assert forall j :: 0 < j < 1 + i && j + 1 < |s| ==> s[1..][j - 1] == s[j];
      1 + i
  }

  function GroupsOf(part: string): seq<nat> {
    if part == "" then [] else Values(Split(part, ':'))
  }

  function ToGroups(plain: string): seq<nat> {
    var text := WithoutTail(plain);
    var i := DoubleColon(text);
    if i == |text| then GroupsOf(text)
    else
      Expanded(GroupsOf(text[..i]), GroupsOf(text[i + 2..]))
  }

  // [group >> 8, group & 0xff]
  function GroupBytes(groups: seq<nat>): (b: Bytes)
    ensures |b| == 2 * |groups|
  {
    if groups == [] then []
    else GroupBytes(groups[..|groups| - 1]) + [groups[|groups| - 1] / 0x100 % 0x100, groups[|groups| - 1] % 0x100]
  }

  function Octets(parts: seq<string>): (b: Bytes)
    ensures |b| == |parts|
  {
    seq(|parts|, i requires 0 <= i < |parts| => ParseDecimal(parts[i]) % 0x100)
  }

  function Plain(address: string): string {
    var a := if address != "" && address[0] == '[' then address[1..] else address;
    var b := if a != "" && a[|a| - 1] == ']' then a[..|a| - 1] else a;
    b[..IndexOf(b, '%')]
  }

  ghost function ToBytes(address: string): Option<Bytes> {
    var plain := Plain(address);
    if IsIPv4(plain) then Some(Octets(Split(plain, '.')))
    else if IsIPv6(plain) then Some(GroupBytes(ToGroups(plain)))
    else None
  }

  // ---------------------------------------------------------------- every spelling is read as it is meant

  lemma {:induction false} DottedSplits(b: Bytes)
    requires |b| == 4
    ensures |Split(Dotted(b), '.')| == 4 && forall i :: 0 <= i < 4 ==> ParseDecimal(Split(Dotted(b), '.')[i]) == b[i]
    ensures ':' !in Dotted(b) && '.' in Dotted(b) && '%' !in Dotted(b) && '[' !in Dotted(b) && ']' !in Dotted(b)
  {
    var parts := seq(|b|, i requires 0 <= i < |b| => DecimalText(b[i]));
    forall i | 0 <= i < 4 ensures ParseDecimal(parts[i]) == b[i] {
      DecimalRoundTrip(b[i]);
    }
    SplitJoin(parts, '.');
    DottedChars(parts);
  }

  lemma {:induction false} DottedChars(parts: seq<string>)
    requires forall i :: 0 <= i < |parts| ==> AllDigits(parts[i])
    ensures forall c :: c in Join(parts, '.') ==> c == '.' || '0' <= c <= '9'
    ensures |parts| > 1 ==> '.' in Join(parts, '.')
  {
    if |parts| > 1 {
      DottedChars(parts[1..]);
      assert Join(parts, '.')[|parts[0]|] == '.';
    }
  }

  lemma AlreadyPlain(s: string)
    requires '%' !in s && '[' !in s && ']' !in s
    ensures Plain(s) == s
  {
    assert s != "" ==> s[0] in s && s[|s| - 1] in s;
    assert IndexOf(s, '%') == |s|;
  }

  lemma OctetsAre(parts: seq<string>, b: Bytes)
    requires |parts| == |b| && forall i :: 0 <= i < |b| ==> ParseDecimal(parts[i]) == b[i]
    ensures Octets(parts) == b
  {
  }

  lemma {:induction false} ReadsDotted(b: Bytes)
    requires |b| == 4
    ensures ToBytes(Dotted(b)) == Some(b)
  {
    DottedSplits(b);
    var d := Dotted(b);
    assert IsIPv4(d);
    AlreadyPlain(d);
    OctetsAre(Split(d, '.'), b);
  }

  // Groups joined hold no "::", and neither begin nor end with a colon.
  lemma {:induction false} JoinedGroups(groups: seq<string>)
    requires forall g :: g in groups ==> g != "" && AllHex(g)
    ensures var j := Join(groups, ':');
            && (groups != [] ==> j != "" && j[0] != ':' && j[|j| - 1] != ':')
            && (forall i :: 0 <= i < |j| - 1 ==> !(j[i] == j[i + 1] == ':'))
            && (forall c :: c in j ==> IsHex(c) || c == ':')
  {
    if groups != [] {
      assert groups[0] in groups && forall g :: g in groups[1..] ==> g in groups;
      if |groups| > 1 {
        JoinedGroups(groups[1..]);
        JoinedTwo(groups[0], Join(groups[1..], ':'));
      }
    }
  }

  lemma JoinedTwo(a: string, b: string)
    requires a != "" && AllHex(a) && b != "" && b[0] != ':' && b[|b| - 1] != ':'
    requires forall i :: 0 <= i < |b| - 1 ==> !(b[i] == b[i + 1] == ':')
    requires forall c :: c in b ==> IsHex(c) || c == ':'
    ensures var j := a + [':'] + b;
            && j[0] != ':' && j[|j| - 1] != ':'
            && (forall i :: 0 <= i < |j| - 1 ==> !(j[i] == j[i + 1] == ':'))
            && (forall c :: c in j ==> IsHex(c) || c == ':')
  {
    var j := a + [':'] + b;
    forall i | 0 <= i < |j| - 1 ensures !(j[i] == j[i + 1] == ':') {
      if i < |a| {
        assert j[i] == a[i];
      } else if i == |a| {
        assert j[i + 1] == b[0];
      } else {
        assert j[i] == b[i - |a| - 1] && j[i + 1] == b[i - |a| - 1 + 1];
      }
    }
    assert j[0] == a[0] && j[|j| - 1] == b[|b| - 1];
  }

  lemma {:induction false} ReadsGroups(groups: seq<string>)
    requires forall g :: g in groups ==> g != "" && AllHex(g)
    ensures GroupsOf(Join(groups, ':')) == Values(groups)
  {
    JoinedGroups(groups);
    if groups != [] {
      forall g | g in groups ensures ':' !in g {}
      SplitJoin(groups, ':');
    }
  }

  lemma {:induction false} FirstDouble(a: string, b: string)
    requires a == "" || a[|a| - 1] != ':'
    requires forall i :: 0 <= i < |a| - 1 ==> !(a[i] == a[i + 1] == ':')
    ensures DoubleColon(a + "::" + b) == |a|
  {
    if a != "" {
      assert (a + "::" + b)[1..] == a[1..] + "::" + b;
      assert |a| > 1 ==> !(a[0] == a[0 + 1] == ':');
      forall i | 0 <= i < |a[1..]| - 1 ensures !(a[1..][i] == a[1..][i + 1] == ':') {
        assert !(a[i + 1] == a[(i + 1) + 1] == ':');
      }
      FirstDouble(a[1..], b);
    }
  }

  // Without a dotted tail.
  predicate Simple(sp: Spelling) {
    && sp.tail.None? && (!sp.gap ==> sp.right == [])
    && (forall g :: g in sp.left + sp.right ==> g != "" && AllHex(g))
  }

  lemma {:induction false} ReadsSimple(sp: Spelling)
    requires Simple(sp)
    ensures WithoutTail(Written(sp)) == Written(sp)
    ensures ToGroups(Written(sp)) == if sp.gap then Expanded(Values(sp.left), Values(sp.right)) else Values(sp.left)
  {
    AllGroups(sp);
    if sp.gap {
      assert Written(sp) == Join(sp.left, ':') + "::" + Join(sp.right, ':');
      ReadsGapped(sp.left, sp.right);
    } else {
      assert Written(sp) == Join(sp.left, ':');
      ReadsFull(sp.left);
    }
  }

  lemma {:induction false} ReadsGapped(left: seq<string>, right: seq<string>)
    requires forall g :: g in left ==> g != "" && AllHex(g)
    requires forall g :: g in right ==> g != "" && AllHex(g)
    ensures var w := Join(left, ':') + "::" + Join(right, ':');
            && WithoutTail(w) == w
            && ToGroups(w) == Expanded(Values(left), Values(right))
  {
    JoinedGroups(left);
    JoinedGroups(right);
    ReadsGroups(left);
    ReadsGroups(right);
    var w := Join(left, ':') + "::" + Join(right, ':');
    NoDot(w);
    Parts(Join(left, ':'), Join(right, ':'));
  }

  lemma {:induction false} ReadsFull(groups: seq<string>)
    requires forall g :: g in groups ==> g != "" && AllHex(g)
    ensures WithoutTail(Join(groups, ':')) == Join(groups, ':')
    ensures ToGroups(Join(groups, ':')) == Values(groups)
  {
    JoinedGroups(groups);
    ReadsGroups(groups);
    NoDot(Join(groups, ':'));
    assert DoubleColon(Join(groups, ':')) == |Join(groups, ':')|;
  }

  lemma AllGroups(sp: Spelling)
    requires Simple(sp)
    ensures forall g :: g in sp.left ==> g != "" && AllHex(g)
    ensures forall g :: g in sp.right ==> g != "" && AllHex(g)
  {
    forall g | g in sp.left ensures g != "" && AllHex(g) { assert g in sp.left + sp.right; }
    forall g | g in sp.right ensures g != "" && AllHex(g) { assert g in sp.left + sp.right; }
  }

  lemma Parts(a: string, b: string)
    requires a == "" || a[|a| - 1] != ':'
    requires forall i :: 0 <= i < |a| - 1 ==> !(a[i] == a[i + 1] == ':')
    ensures var w := a + "::" + b; DoubleColon(w) == |a| && w[..|a|] == a && w[|a| + 2..] == b
  {
    FirstDouble(a, b);
  }

  lemma NoDot(w: string)
    requires forall c :: c in w ==> IsHex(c) || c == ':'
    ensures WithoutTail(w) == w
  {
    var k := AfterLastColon(w);
    forall c | c in w[k..] ensures c in w {}
    assert !IsHex('.') && '.' !in w[k..];
  }

  // A dotted tail as two groups.
  function TailGroups(b: Bytes): seq<string>
    requires |b| == 4
  {
    [HexText(Pair(b[0], b[1])), HexText(Pair(b[2], b[3]))]
  }

  lemma TailGroupsAre(b: Bytes)
    requires |b| == 4
    ensures Values(TailGroups(b)) == [Pair(b[0], b[1]), Pair(b[2], b[3])]
    ensures forall g :: g in TailGroups(b) ==> g != "" && AllHex(g)
  {
    HexRoundTrip(Pair(b[0], b[1]));
    HexRoundTrip(Pair(b[2], b[3]));
    TwoValues(HexText(Pair(b[0], b[1])), HexText(Pair(b[2], b[3])));
  }

  lemma TwoValues(x: string, y: string)
    ensures Values([x, y]) == [ParseHex(x), ParseHex(y)]
    ensures forall g :: g in [x, y] <==> g == x || g == y
  {
    var two := [x, y];
    assert two[0] == x && two[1] == y;
  }

  lemma ValuesAppend(a: seq<string>, b: seq<string>)
    ensures Values(a + b) == Values(a) + Values(b)
  {
  }

  function Untailed(sp: Spelling): Spelling
    requires Proper(sp)
  {
    match sp.tail
    case None => sp
    case Some(b) =>
      var two := TailGroups(b);
      if sp.gap then Spelling(sp.left, true, sp.right + two, None) else Spelling(sp.left + two, false, [], None)
  }

  lemma {:induction false} LastColonAt(a: string, b: string)
    requires ':' !in b && a != "" && a[|a| - 1] == ':'
    ensures AfterLastColon(a + b) == |a|
  {
    if b == "" {
      assert a + b == a;
    } else {
      assert (a + b)[..|a + b| - 1] == a + b[..|b| - 1];
      LastColonAt(a, b[..|b| - 1]);
    }
  }

  lemma {:induction false} TailRead(sp: Spelling)
    requires Proper(sp) && sp.tail.Some?
    ensures WithoutTail(Written(sp)) == Written(Untailed(sp))
  {
    var b := sp.tail.value;
    DottedSplits(b);
    ReplacesTail(Lead(sp), Dotted(b));
    TwoGroupsAre(Lead(sp), Split(Dotted(b), '.'), b);
    TwoGroups(sp, HexText(Pair(b[0], b[1])), HexText(Pair(b[2], b[3])));
  }

  lemma TwoGroupsAre(lead: string, octets: seq<string>, b: Bytes)
    requires |octets| == |b| == 4 && forall i :: 0 <= i < 4 ==> ParseDecimal(octets[i]) == b[i]
    ensures lead + TwoGroupsOf(octets) == lead + HexText(Pair(b[0], b[1])) + ":" + HexText(Pair(b[2], b[3]))
  {
    var x, y := HexText(Pair(b[0], b[1])), HexText(Pair(b[2], b[3]));
    assert lead + (x + ":" + y) == lead + x + ":" + y;
  }

  lemma {:induction false} TwoGroups(sp: Spelling, x: string, y: string)
    requires Proper(sp) && sp.tail.Some?
    ensures !sp.gap ==> Written(Spelling(sp.left + [x, y], false, [], None)) == Lead(sp) + x + ":" + y
    ensures sp.gap ==> Written(Spelling(sp.left, true, sp.right + [x, y], None)) == Lead(sp) + x + ":" + y
  {
    if !sp.gap {
      JoinTwoMore(sp.left, ':', x, y);
      assert Written(Spelling(sp.left + [x, y], false, [], None)) == Join(sp.left + [x, y], ':');
    } else {
      if sp.right != [] {
        JoinTwoMore(sp.right, ':', x, y);
      } else {
        assert sp.right + [x, y] == [x, y] && [x, y][1..] == [y];
      }
      assert Written(Spelling(sp.left, true, sp.right + [x, y], None)) == Join(sp.left, ':') + "::" + Join(sp.right + [x, y], ':');
    }
  }

  // After the last colon, four numbers become two groups.
  lemma {:induction false} ReplacesTail(lead: string, d: string)
    requires ':' !in d && '.' in d && |Split(d, '.')| == 4 && lead != "" && lead[|lead| - 1] == ':'
    ensures WithoutTail(lead + d) == lead + TwoGroupsOf(Split(d, '.'))
  {
    LastColonAt(lead, d);
    assert (lead + d)[|lead|..] == d && (lead + d)[..|lead|] == lead;
  }

  lemma {:induction false} MeaningUntailed(sp: Spelling)
    requires Proper(sp) && sp.tail.Some?
    ensures var u := Untailed(sp);
            Meaning(sp) == if u.gap then Expanded(Values(u.left), Values(u.right)) else Values(u.left)
  {
    var two := TailGroups(sp.tail.value);
    TailGroupsAre(sp.tail.value);
    ValuesAppend(sp.right, two);
    ValuesAppend(sp.left, two);
    assert TailValues(sp) == Values(two);
  }

  lemma {:induction false} ReadsMeaning(sp: Spelling)
    requires Proper(sp)
    ensures ToGroups(Written(sp)) == Meaning(sp)
  {
    if sp.tail.Some? {
      TailRead(sp);
      UntailedSimple(sp);
      ReadsSimple(Untailed(sp));
      SameGroups(Written(sp), Written(Untailed(sp)));
      MeaningUntailed(sp);
    } else {
      ReadsSimple(sp);
      assert Values(sp.right) + [] == Values(sp.right) && Values(sp.left) + [] == Values(sp.left);
    }
  }

  lemma SameGroups(a: string, b: string)
    requires WithoutTail(a) == b == WithoutTail(b)
    ensures ToGroups(a) == ToGroups(b)
  {
  }

  lemma UntailedSimple(sp: Spelling)
    requires Proper(sp) && sp.tail.Some?
    ensures Simple(Untailed(sp))
  {
    var two := TailGroups(sp.tail.value);
    TailGroupsAre(sp.tail.value);
    var u := Untailed(sp);
    forall g | g in u.left + u.right ensures g != "" && AllHex(g) {
      assert g in sp.left || g in sp.right || g in two;
      assert g in sp.left || g in sp.right ==> IsGroup(g);
    }
  }

  // ---------------------------------------------------------------- the address, however it is written

  lemma {:induction false} LeadChars(sp: Spelling)
    requires Proper(sp)
    ensures ':' in Lead(sp) && forall c :: c in Lead(sp) ==> IsHex(c) || c == ':'
  {
    JoinedGroups(sp.left);
    JoinedGroups(sp.right);
    var l, r := Join(sp.left, ':'), Join(sp.right, ':');
    if sp.gap {
      assert Lead(sp)[|l|] == ':';
    } else {
      Joined(sp.left);
      assert forall c :: c in Lead(sp) ==> c in l || c == ':';
      assert forall c :: c in l ==> c in Lead(sp);
    }
  }

  lemma {:induction false} WrittenChars(sp: Spelling)
    requires Proper(sp)
    ensures ':' in Written(sp) && '%' !in Written(sp) && '[' !in Written(sp) && ']' !in Written(sp)
  {
    LeadChars(sp);
    if sp.tail.Some? {
      DottedSplits(sp.tail.value);
    }
  }

  lemma Joined(groups: seq<string>)
    ensures |groups| > 1 ==> ':' in Join(groups, ':')
  {
    if |groups| > 1 {
      assert Join(groups, ':')[|groups[0]|] == ':';
    }
  }

  // Every way to write an IPv6 address is read as the sixteen bytes of its eight groups.
  lemma {:induction false} EverySpellingIsRead(sp: Spelling)
    requires Proper(sp)
    ensures |Meaning(sp)| == 8 && ToBytes(Written(sp)) == Some(GroupBytes(Meaning(sp)))
  {
    var w := Written(sp);
    WrittenChars(sp);
    AlreadyPlain(w);
    ColonIsNotIPv4(w);
    assert IsIPv6(w);
    ReadsMeaning(sp);
  }

  lemma ColonIsNotIPv4(w: string)
    requires ':' in w
    ensures !IsIPv4(w)
  {
    forall b: Bytes | |b| == 4 ensures w != Dotted(b) {
      DottedSplits(b);
    }
  }

  // In brackets, with a zone after it, or both.
  predicate Decorates(d: string, w: string, zone: string) {
    d == "[" + w + "]" || d == w + "%" + zone || d == "[" + w + "%" + zone + "]"
  }

  // Brackets around it and a zone after it change nothing.
  lemma DecorationsChangeNothing(d: string, w: string, zone: string)
    requires '%' !in w && '[' !in w && ']' !in w && w != "" && Decorates(d, w, zone)
    ensures ToBytes(d) == ToBytes(w)
  {
    AlreadyPlain(w);
    Unzoned(w, zone);
    BracketedZone(w, zone);
    Bracketed(w, "[" + w + "]");
    SamePlain(d, w);
  }

  lemma BracketedZone(w: string, zone: string)
    requires '%' !in w
    ensures Plain("[" + w + "%" + zone + "]") == w
  {
    var a := w + "%" + zone;
    Bracketed(a, "[" + w + "%" + zone + "]");
    IndexAfter(w, '%', zone);
  }

  lemma SamePlain(a: string, b: string)
    requires Plain(a) == Plain(b)
    ensures ToBytes(a) == ToBytes(b)
  {
  }

  lemma Bracketed(a: string, d: string)
    requires d == "[" + a + "]"
    ensures Plain(d) == a[..IndexOf(a, '%')]
  {
    var inner := a + "]";
    assert d != "" && d[0] == '[' && d[1..] == inner;
    assert inner != "" && inner[|inner| - 1] == ']' && inner[..|inner| - 1] == a;
  }

  lemma Unzoned(w: string, zone: string)
    requires '%' !in w && '[' !in w && w != ""
    ensures Plain(w + "%" + zone) == w
  {
    assert w[0] in w;
    var a := w + "%" + zone;
    IndexAfter(w, '%', zone);
    if zone != "" && a[|a| - 1] == ']' {
      assert a[..|a| - 1] == w + ['%'] + zone[..|zone| - 1];
      IndexAfter(w, '%', zone[..|zone| - 1]);
    }
  }

  lemma {:induction false} HexBelow(s: string)
    requires AllHex(s) && |s| <= 4
    ensures ParseHex(s) < 0x1_0000
    ensures |s| == 0 ==> ParseHex(s) < 1
    ensures |s| == 1 ==> ParseHex(s) < 0x10
    ensures |s| == 2 ==> ParseHex(s) < 0x100
    ensures |s| == 3 ==> ParseHex(s) < 0x1000
  {
    if s != "" {
      HexBelow(s[..|s| - 1]);
    }
  }

  lemma {:induction false} MeaningBelow(sp: Spelling)
    requires Proper(sp)
    ensures forall i :: 0 <= i < |Meaning(sp)| ==> Meaning(sp)[i] < 0x1_0000
  {
    ValuesBelow(sp.left);
    ValuesBelow(sp.right);
    ZerosAreZero(8 - Length(sp));
  }

  lemma {:induction false} ValuesBelow(groups: seq<string>)
    requires forall g :: g in groups ==> IsGroup(g)
    ensures forall i :: 0 <= i < |groups| ==> Values(groups)[i] < 0x1_0000
  {
    forall i | 0 <= i < |groups| ensures Values(groups)[i] < 0x1_0000 {
      assert groups[i] in groups;
      HexBelow(groups[i]);
    }
  }

  lemma {:induction false} ZerosAreZero(n: int)
    ensures forall i :: 0 <= i < |Zeros(n)| ==> Zeros(n)[i] == 0
  {
    if n > 0 { ZerosAreZero(n - 1); }
  }

  lemma {:induction false} GroupBytesDiffer(a: seq<nat>, b: seq<nat>)
    requires |a| == |b| && (forall i :: 0 <= i < |a| ==> a[i] < 0x1_0000 && b[i] < 0x1_0000)
    requires GroupBytes(a) == GroupBytes(b)
    ensures a == b
  {
    if a != [] {
      var n := |a| - 1;
      assert GroupBytes(a)[2 * n..] == [a[n] / 0x100 % 0x100, a[n] % 0x100];
      assert GroupBytes(b)[2 * n..] == [b[n] / 0x100 % 0x100, b[n] % 0x100];
      assert GroupBytes(a)[..2 * n] == GroupBytes(a[..n]) && GroupBytes(b)[..2 * n] == GroupBytes(b[..n]);
      SameHalves(a[n], b[n]);
      GroupBytesDiffer(a[..n], b[..n]);
      assert a == a[..n] + [a[n]] && b == b[..n] + [b[n]];
    }
  }

  lemma SameHalves(x: nat, y: nat)
    requires x < 0x1_0000 && y < 0x1_0000
    requires [x / 0x100 % 0x100, x % 0x100] == [y / 0x100 % 0x100, y % 0x100]
    ensures x == y
  {
    assert [x / 0x100 % 0x100, x % 0x100][0] == [y / 0x100 % 0x100, y % 0x100][0];
    assert [x / 0x100 % 0x100, x % 0x100][1] == [y / 0x100 % 0x100, y % 0x100][1];
  }

  // Two spellings are read as the same bytes exactly when they mean the same address.
  lemma {:induction false} SameBytesSameAddress(a: Spelling, b: Spelling)
    requires Proper(a) && Proper(b)
    ensures ToBytes(Written(a)) == ToBytes(Written(b)) <==> Meaning(a) == Meaning(b)
  {
    EverySpellingIsRead(a);
    EverySpellingIsRead(b);
    MeaningBelow(a);
    MeaningBelow(b);
    if GroupBytes(Meaning(a)) == GroupBytes(Meaning(b)) {
      GroupBytesDiffer(Meaning(a), Meaning(b));
    }
  }
}
