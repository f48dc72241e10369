/**
  Where a board may make the server connect to (inRange, isPublicAddress and mayReach of src/egress.ts).
 */
module Egress {
  import opened Addresses

  datatype Range = Range(bytes: Bytes, bits: nat)

  // ---------------------------------------------------------------- bits

  function Pow2(n: nat): (p: nat)
    ensures p > 0
  {
    if n == 0 then 1 else 2 * Pow2(n - 1)
  }

  function Div(x: nat, p: nat): nat
    requires p > 0
  {
    x / p
  }

  function BitOf(b: Byte, k: nat): (bit: nat)
    requires k < 8
    ensures bit < 2
  {
    Div(b, Pow2(7 - k)) % 2
  }

  // byte & (0x80 >> k)
  function Masked(b: Byte, k: nat): nat
    requires k < 8
  {
    BitOf(b, k) * Pow2(7 - k)
  }

  function Bit(bytes: Bytes, k: nat): (bit: nat)
    ensures bit < 2
  {
    if k / 8 < |bytes| then BitOf(bytes[k / 8], k % 8) else 0
  }

  // The bytes as one number, and its leading bits as one.
  function Number(bytes: Bytes): nat {
    if bytes == [] then 0 else 0x100 * Number(bytes[..|bytes| - 1]) + bytes[|bytes| - 1]
  }

  function LeadingBits(bytes: Bytes, bits: nat): nat
    requires bits <= 8 * |bytes|
  {
    Div(Number(bytes), Pow2(8 * |bytes| - bits))
  }

  // An address of as many bytes, with the same leading bits; a range of more bits than there are has them all.
  function Covers(range: Range, bytes: Bytes): bool {
    && |bytes| == |range.bytes|
    && var bits := if range.bits <= 8 * |bytes| then range.bits else 8 * |bytes|;
       LeadingBits(bytes, bits) == LeadingBits(range.bytes, bits)
  }

  method InRange(bytes: Bytes, range: Range) returns (r: bool)
    ensures r == Covers(range, bytes)
  {
    if |bytes| != |range.bytes| {
      return false;
    }
    SameBitsSameNumber(bytes, range.bytes, range.bits);
    var bit := 0;
    while bit < range.bits
      invariant bit <= range.bits
      invariant forall k :: 0 <= k < bit ==> Bit(bytes, k) == Bit(range.bytes, k)
    {
      var byte := bit / 8;
      var mine := if byte < |bytes| then Masked(bytes[byte], bit % 8) else 0;
      var its := if byte < |bytes| then Masked(range.bytes[byte], bit % 8) else 0;
      if mine != its {
        assert Bit(bytes, bit) != Bit(range.bytes, bit);
        return false;
      }
      if byte < |bytes| {
        SameMasked(bytes[byte], range.bytes[byte], bit % 8);
      }
      bit := bit + 1;
    }
    return true;
  }

  lemma SameMasked(a: Byte, b: Byte, k: nat)
    requires k < 8 && Masked(a, k) == Masked(b, k)
    ensures BitOf(a, k) == BitOf(b, k)
  {
    var p := Pow2(7 - k);
    assert BitOf(a, k) * p == BitOf(b, k) * p;
  }

  // ---------------------------------------------------------------- bit by bit is number by number

  function Lead(bytes: Bytes, k: nat): nat {
    if k == 0 then 0 else 2 * Lead(bytes, k - 1) + Bit(bytes, k - 1)
  }

  lemma {:induction false} SameLead(a: Bytes, b: Bytes, k: nat)
    ensures Lead(a, k) == Lead(b, k) <==> forall i :: 0 <= i < k ==> Bit(a, i) == Bit(b, i)
  {
    if k > 0 {
      SameLead(a, b, k - 1);
    }
  }

  lemma HalfOf(x: nat, p: nat)
    requires p > 0
    ensures Div(x, 2 * p) == Div(x, p) / 2
  {
    var q, r := x / p, x % p;
    var h, m := q / 2, q % 2;
    assert p * q == p * (2 * h + m) == 2 * p * h + p * m;
    assert 0 <= p * m <= p;
    Quotient(x, 2 * p, h, p * m + r);
  }

  lemma Quotient(x: nat, d: nat, q: nat, r: nat)
    requires x == d * q + r && r < d
    ensures x / d == q
  {
    if x / d < q { Apart(d, x / d, q); }
    if x / d > q { Apart(d, q, x / d); }
  }

  lemma Apart(d: nat, a: nat, b: nat)
    requires a < b
    ensures d * a + d <= d * b
  {
    assert d * (a + 1) <= d * b;
  }

  // The first bits of one byte after whole bytes.
  lemma {:induction false} LeadInByte(bytes: Bytes, m: nat, j: nat)
    requires m < |bytes| && j <= 8
    ensures Lead(bytes, 8 * m + j) == Lead(bytes, 8 * m) * Pow2(j) + Div(bytes[m], Pow2(8 - j))
  {
    if j == 0 {
      Pow2Of8();
      assert Div(bytes[m], 0x100) == 0;
    } else {
      LeadInByte(bytes, m, j - 1);
      BitAt(bytes, m, j - 1);
      NextBit(Lead(bytes, 8 * m), bytes[m], j);
    }
  }

  lemma BitAt(bytes: Bytes, m: nat, i: nat)
    requires m < |bytes| && i < 8
    ensures Lead(bytes, 8 * m + (i + 1)) == 2 * Lead(bytes, 8 * m + i) + BitOf(bytes[m], i)
  {
    assert (8 * m + i) / 8 == m && (8 * m + i) % 8 == i;
  }

  lemma NextBit(l: nat, b: Byte, j: nat)
    requires 0 < j <= 8
    ensures 2 * (l * Pow2(j - 1) + Div(b, Pow2(8 - (j - 1)))) + BitOf(b, j - 1) == l * Pow2(j) + Div(b, Pow2(8 - j))
  {
    HalfOf(b, Pow2(8 - j));
    assert 2 * (l * Pow2(j - 1)) == l * Pow2(j);
  }

  lemma Pow2Of8()
    ensures Pow2(8) == 0x100 && Pow2(7) == 0x80 && Pow2(6) == 0x40 && Pow2(4) == 0x10 && Pow2(1) == 2 && Pow2(0) == 1
  {
    assert Pow2(4) == 0x10;
    assert Pow2(6) == 0x40;
  }

  lemma {:induction false} LeadIsNumber(bytes: Bytes, m: nat)
    requires m <= |bytes|
    ensures Lead(bytes, 8 * m) == Number(bytes[..m])
  {
    if m > 0 {
      LeadIsNumber(bytes, m - 1);
      LeadInByte(bytes, m - 1, 8);
      Pow2Of8();
      assert bytes[..m][..m - 1] == bytes[..m - 1];
    }
  }

  lemma {:induction false} LeadIsLeading(bytes: Bytes, k: nat)
    requires k <= 8 * |bytes|
    ensures Lead(bytes, k) == LeadingBits(bytes, k)
    decreases 8 * |bytes| - k
  {
    if k == 8 * |bytes| {
      LeadIsNumber(bytes, |bytes|);
      assert bytes[..|bytes|] == bytes;
    } else {
      LeadIsLeading(bytes, k + 1);
      HalfOf(Number(bytes), Pow2(8 * |bytes| - k - 1));
    }
  }

  // Comparing bit by bit is comparing the leading bits as numbers.
  lemma {:induction false} SameBitsSameNumber(a: Bytes, b: Bytes, bits: nat)
    requires |a| == |b|
    ensures Covers(Range(b, bits), a) <==> forall k :: 0 <= k < bits ==> Bit(a, k) == Bit(b, k)
  {
    var n := if bits <= 8 * |a| then bits else 8 * |a|;
    LeadIsLeading(a, n);
    LeadIsLeading(b, n);
    SameLead(a, b, n);
    assert forall k :: 8 * |a| <= k ==> Bit(a, k) == Bit(b, k) == 0;
  }

  lemma {:induction false} SameNumber(a: Bytes, b: Bytes)
    requires |a| == |b|
    ensures Number(a) == Number(b) <==> a == b
  {
    if a != [] {
      SameNumber(a[..|a| - 1], b[..|b| - 1]);
      assert a == a[..|a| - 1] + [a[|a| - 1]] && b == b[..|b| - 1] + [b[|b| - 1]];
    }
  }

  // A range is so many whole bytes, and the first bits of the next.
  lemma {:induction false} CoversPrefix(range: Range, bytes: Bytes, m: nat, j: nat)
    requires range.bits == 8 * m + j && j < 8 && |bytes| == |range.bytes| && (if j == 0 then m <= |bytes| else m < |bytes|)
    ensures Covers(range, bytes) <==>
            bytes[..m] == range.bytes[..m] && (j > 0 ==> Div(bytes[m], Pow2(8 - j)) == Div(range.bytes[m], Pow2(8 - j)))
  {
    LeadIsLeading(bytes, range.bits);
    LeadIsLeading(range.bytes, range.bits);
    assert Covers(range, bytes) <==> Lead(bytes, range.bits) == Lead(range.bytes, range.bits);
    SameWholeLead(bytes, range.bytes, m);
    if j > 0 {
      SameLeadInByte(bytes, range.bytes, m, j);
    }
  }

  lemma SameWholeLead(a: Bytes, b: Bytes, m: nat)
    requires m <= |a| == |b|
    ensures Lead(a, 8 * m) == Lead(b, 8 * m) <==> a[..m] == b[..m]
  {
    LeadIsNumber(a, m);
    LeadIsNumber(b, m);
    SameNumber(a[..m], b[..m]);
  }

  lemma {:induction false} SameLeadInByte(a: Bytes, b: Bytes, m: nat, j: nat)
    requires 0 < j < 8 && m < |a| == |b|
    ensures Lead(a, 8 * m + j) == Lead(b, 8 * m + j) <==>
            Lead(a, 8 * m) == Lead(b, 8 * m) && Div(a[m], Pow2(8 - j)) == Div(b[m], Pow2(8 - j))
  {
    LeadInByte(a, m, j);
    LeadInByte(b, m, j);
    FirstBits(a[m], j);
    FirstBits(b[m], j);
    SameDigits(Lead(a, 8 * m), Div(a[m], Pow2(8 - j)), Lead(b, 8 * m), Div(b[m], Pow2(8 - j)), Pow2(j));
  }

  lemma {:induction false} FirstBits(b: Byte, j: nat)
    requires j <= 8
    ensures Div(b, Pow2(8 - j)) < Pow2(j)
  {
    if j == 0 {
      Pow2Of8();
    } else {
      FirstBits(b, j - 1);
      HalfOf(b, Pow2(8 - j));
    }
  }

  lemma SameDigits(x: nat, y: nat, v: nat, w: nat, p: nat)
    requires y < p && w < p
    ensures x * p + y == v * p + w <==> x == v && y == w
  {
    if x < v { assert v * p >= (x + 1) * p == x * p + p; }
    if x > v { assert x * p >= (v + 1) * p == v * p + p; }
  }

  // ---------------------------------------------------------------- what is public

  function V6(lead: Bytes): (b: Bytes)
    requires |lead| <= 16
    ensures |b| == 16 && b[..|lead|] == lead && forall i :: |lead| <= i < 16 ==> b[i] == 0
  {
    lead + seq(16 - |lead|, _ => 0)
  }

  const NOT_PUBLIC_V4: seq<Range> := [
    Range([0, 0, 0, 0], 8), Range([127, 0, 0, 0], 8), Range([10, 0, 0, 0], 8), Range([172, 16, 0, 0], 12),
    Range([192, 168, 0, 0], 16), Range([100, 64, 0, 0], 10), Range([169, 254, 0, 0], 16), Range([192, 0, 0, 0], 24),
    Range([198, 18, 0, 0], 15), Range([224, 0, 0, 0], 4), Range([240, 0, 0, 0], 4)]

  const LOOPBACK: Bytes := [0, 0, 0, 0, 0, 0, 0, 0, 0, 0, 0, 0, 0, 0, 0, 1]

  const NOT_PUBLIC_V6: seq<Range> := [
    Range(V6([]), 96), Range(V6(LOOPBACK), 128), Range(V6([0xFE, 0x80]), 10),
    Range(V6([0xFC]), 7), Range(V6([0xFF]), 8), Range(V6([0, 0x64, 0xFF, 0x9B, 0, 1]), 48)]

  datatype Carrier = Carrier(range: Range, at: nat)

  // IPv4-mapped (section 2.5.5.2 of RFC 4291), the well-known prefix (section 2.1 of RFC 6052), 6to4
  // (section 2 of RFC 3056).
  const MAPPED := Carrier(Range(V6([0, 0, 0, 0, 0, 0, 0, 0, 0, 0, 0xFF, 0xFF]), 96), 12)
  const NAT64 := Carrier(Range(V6([0, 0x64, 0xFF, 0x9B]), 96), 12)
  const SIX_TO_FOUR := Carrier(Range(V6([0x20, 0x02]), 16), 2)

  const CARRY_IPV4: seq<Carrier> := [MAPPED, NAT64, SIX_TO_FOUR]

  function CarriedAt(bytes: Bytes, among: seq<Carrier>): (at: Option<nat>)
    ensures at.Some? ==> exists c :: c in among && at.value == c.at && Covers(c.range, bytes)
    ensures at.None? ==> forall c :: c in among ==> !Covers(c.range, bytes)
  {
    if among == [] then None
    else if Covers(among[0].range, bytes) then Some(among[0].at)
    else CarriedAt(bytes, among[1..])
  }

  ghost predicate Private(bytes: Bytes) {
    exists r :: r in NOT_PUBLIC_V4 + NOT_PUBLIC_V6 && Covers(r, bytes)
  }

  ghost function Width(address: string): nat {
    match ToBytes(address) case None => 0 case Some(b) => |b|
  }

  // Where an address carries an IPv4 address, if it does.
  function CarriesAt(bytes: Bytes): (at: Option<nat>)
    ensures at.Some? ==> |bytes| == 16 && at.value <= 12
  {
    CarriedFits(bytes);
    CarriedAt(bytes, CARRY_IPV4)
  }

  lemma CarriedFits(bytes: Bytes)
    ensures CarriedAt(bytes, CARRY_IPV4).Some? ==> |bytes| == 16 && CarriedAt(bytes, CARRY_IPV4).value <= 12
  {
    var t := CARRY_IPV4;
    assert t[0] == MAPPED && t[1] == NAT64 && t[2] == SIX_TO_FOUR && |t| == 3;
    assert |MAPPED.range.bytes| == 16 && |NAT64.range.bytes| == 16 && |SIX_TO_FOUR.range.bytes| == 16;
  }

  lemma FourWide(v: Bytes)
    requires |v| == 4
    ensures Width(Dotted(v)) == 4
  {
    ReadsDotted(v);
  }

  // An address carrying another is judged as that one, written out and read again.
  ghost predicate IsPublicAddress(address: string)
    decreases Width(address)
  {
    match ToBytes(address)
    case None => false
    case Some(bytes) =>
      match CarriesAt(bytes)
      case Some(at) =>
        FourWide(bytes[at..at + 4]);
        IsPublicAddress(Dotted(bytes[at..at + 4]))
      case None => !Private(bytes)
  }

  datatype Policy = Open | Public(allow: seq<Range>)

  ghost predicate MayReach(policy: Policy, address: string) {
    match policy
    case Open => true
    case Public(allow) =>
      (ToBytes(address).Some? && exists r :: r in allow && Covers(r, ToBytes(address).value)) || IsPublicAddress(address)
  }

  // ---------------------------------------------------------------- on the address alone

  // What is not the public internet, of IPv4.
  predicate PrivateV4(b: Bytes)
    requires |b| == 4
  {
    || b[0] == 0 || b[0] == 10 || b[0] == 127 || b[0] >= 224
    || (b[0] == 172 && 16 <= b[1] < 32)
    || (b[0] == 192 && (b[1] == 168 || (b[1] == 0 && b[2] == 0)))
    || (b[0] == 100 && 64 <= b[1] < 128)
    || (b[0] == 169 && b[1] == 254)
    || (b[0] == 198 && 18 <= b[1] < 20)
  }

  // And of IPv6, where no IPv4 address is carried.
  predicate PrivateV6(b: Bytes)
    requires |b| == 16
  {
    || (forall i :: 0 <= i < 12 ==> b[i] == 0)
    || (b[0] == 0xFE && 0x80 <= b[1] < 0xC0)
    || 0xFC <= b[0] < 0xFE
    || b[0] == 0xFF
    || b[..6] == [0, 0x64, 0xFF, 0x9B, 0, 1]
  }

  // Where an address carries an IPv4 address, that address.
  function Carried(b: Bytes): (v: Option<Bytes>)
    requires |b| == 16
    ensures v.Some? ==> |v.value| == 4
  {
    if (forall i :: 0 <= i < 10 ==> b[i] == 0) && b[10] == b[11] == 0xFF then Some(b[12..16])
    else if b[..4] == [0, 0x64, 0xFF, 0x9B] && forall i :: 4 <= i < 12 ==> b[i] == 0 then Some(b[12..16])
    else if b[0] == 0x20 && b[1] == 2 then Some(b[2..6])
    else None
  }

  predicate PublicV4(b: Bytes)
    requires |b| == 4
  {
    !PrivateV4(b)
  }

  predicate PublicBytes(b: Bytes)
    requires |b| == 4 || |b| == 16
  {
    if |b| == 4 then PublicV4(b)
    else match Carried(b) case Some(v) => PublicV4(v) case None => !PrivateV6(b)
  }

  lemma Eighths(b: Byte)
    ensures Div(b, Pow2(7)) == b / 0x80 && Div(b, Pow2(6)) == b / 0x40 && Div(b, Pow2(4)) == b / 0x10 && Div(b, Pow2(1)) == b / 2
  {
    Pow2Of8();
  }

  lemma {:induction false} CoversV4(r: Range, b: Bytes)
    requires |b| == |r.bytes| == 4 && r.bits <= 24
    ensures Covers(r, b) <==>
      (r.bits >= 8 ==> b[0] == r.bytes[0]) && (r.bits >= 16 ==> b[1] == r.bytes[1]) && (r.bits >= 24 ==> b[2] == r.bytes[2])
      && (r.bits % 8 > 0 ==> Div(b[r.bits / 8], Pow2(8 - r.bits % 8)) == Div(r.bytes[r.bits / 8], Pow2(8 - r.bits % 8)))
  {
    CoversPrefix(r, b, r.bits / 8, r.bits % 8);
  }

  lemma {:induction false} Ranges8(b: Bytes)
    requires |b| == 4
    ensures Covers(Range([0, 0, 0, 0], 8), b) <==> b[0] == 0
    ensures Covers(Range([127, 0, 0, 0], 8), b) <==> b[0] == 127
    ensures Covers(Range([10, 0, 0, 0], 8), b) <==> b[0] == 10
  {
    CoversV4(Range([0, 0, 0, 0], 8), b);
    CoversV4(Range([127, 0, 0, 0], 8), b);
    CoversV4(Range([10, 0, 0, 0], 8), b);
  }

  lemma {:induction false} Ranges16(b: Bytes)
    requires |b| == 4
    ensures Covers(Range([192, 168, 0, 0], 16), b) <==> b[0] == 192 && b[1] == 168
    ensures Covers(Range([169, 254, 0, 0], 16), b) <==> b[0] == 169 && b[1] == 254
    ensures Covers(Range([192, 0, 0, 0], 24), b) <==> b[0] == 192 && b[1] == 0 && b[2] == 0
  {
    CoversV4(Range([192, 168, 0, 0], 16), b);
    CoversV4(Range([169, 254, 0, 0], 16), b);
    CoversV4(Range([192, 0, 0, 0], 24), b);
  }

  lemma {:induction false} RangesBetween(b: Bytes)
    requires |b| == 4
    ensures Covers(Range([172, 16, 0, 0], 12), b) <==> b[0] == 172 && 16 <= b[1] < 32
    ensures Covers(Range([100, 64, 0, 0], 10), b) <==> b[0] == 100 && 64 <= b[1] < 128
    ensures Covers(Range([198, 18, 0, 0], 15), b) <==> b[0] == 198 && 18 <= b[1] < 20
  {
    Eighths(b[1]);
    Eighths(16);
    Eighths(64);
    Eighths(18);
    CoversV4(Range([172, 16, 0, 0], 12), b);
    CoversV4(Range([100, 64, 0, 0], 10), b);
    CoversV4(Range([198, 18, 0, 0], 15), b);
  }

  lemma {:induction false} RangesAbove(b: Bytes)
    requires |b| == 4
    ensures Covers(Range([224, 0, 0, 0], 4), b) <==> 224 <= b[0] < 240
    ensures Covers(Range([240, 0, 0, 0], 4), b) <==> 240 <= b[0]
  {
    Eighths(b[0]);
    Eighths(224);
    Eighths(240);
    CoversV4(Range([224, 0, 0, 0], 4), b);
    CoversV4(Range([240, 0, 0, 0], 4), b);
  }

  // The table's ranges of IPv4 are the ones meant.
  lemma {:induction false} PrivateIsPrivateV4(b: Bytes)
    requires |b| == 4
    ensures Private(b) <==> PrivateV4(b)
  {
    OneOf(NOT_PUBLIC_V4, NOT_PUBLIC_V6, b);
    InTable(b);
    Ranges8(b);
    Ranges16(b);
    RangesBetween(b);
    RangesAbove(b);
  }

  lemma InTable(b: Bytes)
    ensures (exists i :: 0 <= i < |NOT_PUBLIC_V4| && Covers(NOT_PUBLIC_V4[i], b)) <==>
            || Covers(Range([0, 0, 0, 0], 8), b) || Covers(Range([127, 0, 0, 0], 8), b) || Covers(Range([10, 0, 0, 0], 8), b)
            || Covers(Range([172, 16, 0, 0], 12), b) || Covers(Range([192, 168, 0, 0], 16), b)
            || Covers(Range([100, 64, 0, 0], 10), b) || Covers(Range([169, 254, 0, 0], 16), b)
            || Covers(Range([192, 0, 0, 0], 24), b) || Covers(Range([198, 18, 0, 0], 15), b)
            || Covers(Range([224, 0, 0, 0], 4), b) || Covers(Range([240, 0, 0, 0], 4), b)
  {
    var t := NOT_PUBLIC_V4;
    assert |t| == 11 && t[0] == Range([0, 0, 0, 0], 8) && t[1] == Range([127, 0, 0, 0], 8) && t[2] == Range([10, 0, 0, 0], 8);
    assert t[3] == Range([172, 16, 0, 0], 12) && t[4] == Range([192, 168, 0, 0], 16) && t[5] == Range([100, 64, 0, 0], 10);
    assert t[6] == Range([169, 254, 0, 0], 16) && t[7] == Range([192, 0, 0, 0], 24) && t[8] == Range([198, 18, 0, 0], 15);
    assert t[9] == Range([224, 0, 0, 0], 4) && t[10] == Range([240, 0, 0, 0], 4);
  }

  // Only ranges of the address's own length can cover it.
  lemma OneOf(mine: seq<Range>, others: seq<Range>, b: Bytes)
    requires forall r :: r in others ==> |r.bytes| != |b|
    ensures (exists r :: r in mine + others && Covers(r, b)) <==> exists i :: 0 <= i < |mine| && Covers(mine[i], b)
    ensures (exists r :: r in others + mine && Covers(r, b)) <==> exists i :: 0 <= i < |mine| && Covers(mine[i], b)
  {
    if i :| 0 <= i < |mine| && Covers(mine[i], b) {
      assert mine[i] in mine + others && mine[i] in others + mine;
    }
  }

  lemma {:induction false} CoversWhole(lead: Bytes, m: nat, b: Bytes)
    requires |b| == 16 && |lead| <= 16 && m <= 16
    ensures Covers(Range(V6(lead), 8 * m), b) <==> b[..m] == V6(lead)[..m]
  {
    CoversPrefix(Range(V6(lead), 8 * m), b, m, 0);
  }

  lemma {:induction false} PartsV6(b: Bytes)
    requires |b| == 16
    ensures Covers(Range(V6([0xFE, 0x80]), 10), b) <==> b[0] == 0xFE && 0x80 <= b[1] < 0xC0
    ensures Covers(Range(V6([0xFC]), 7), b) <==> 0xFC <= b[0] < 0xFE
  {
    Eighths(b[0]);
    Eighths(b[1]);
    Eighths(0x80);
    Eighths(0xFC);
    CoversPrefix(Range(V6([0xFE, 0x80]), 10), b, 1, 2);
    CoversPrefix(Range(V6([0xFC]), 7), b, 0, 7);
    assert b[..1] == [b[0]] && V6([0xFE, 0x80])[..1] == [0xFE];
  }

  lemma {:induction false} WholeV6(b: Bytes)
    requires |b| == 16
    ensures Covers(Range(V6([]), 96), b) <==> forall i :: 0 <= i < 12 ==> b[i] == 0
    ensures Covers(Range(V6(LOOPBACK), 128), b) ==> forall i :: 0 <= i < 12 ==> b[i] == 0
    ensures Covers(Range(V6([0xFF]), 8), b) <==> b[0] == 0xFF
    ensures Covers(Range(V6([0, 0x64, 0xFF, 0x9B, 0, 1]), 48), b) <==> b[..6] == [0, 0x64, 0xFF, 0x9B, 0, 1]
  {
    CoversZeros(b);
    CoversWhole([0xFF], 1, b);
    assert b[..1][0] == b[0];
    CoversWhole([0, 0x64, 0xFF, 0x9B, 0, 1], 6, b);
  }

  lemma {:induction false} CoversZeros(b: Bytes)
    requires |b| == 16
    ensures Covers(Range(V6([]), 96), b) <==> forall i :: 0 <= i < 12 ==> b[i] == 0
    ensures Covers(Range(V6(LOOPBACK), 128), b) ==> forall i :: 0 <= i < 12 ==> b[i] == 0
  {
    CoversWhole([], 12, b);
    CoversWhole(LOOPBACK, 16, b);
    assert forall i :: 0 <= i < 12 ==> b[..12][i] == b[i] && b[..16][i] == b[i];
  }

  lemma InTableV6(b: Bytes)
    ensures (exists i :: 0 <= i < |NOT_PUBLIC_V6| && Covers(NOT_PUBLIC_V6[i], b)) <==>
            || Covers(Range(V6([]), 96), b) || Covers(Range(V6(LOOPBACK), 128), b) || Covers(Range(V6([0xFE, 0x80]), 10), b)
            || Covers(Range(V6([0xFC]), 7), b) || Covers(Range(V6([0xFF]), 8), b)
            || Covers(Range(V6([0, 0x64, 0xFF, 0x9B, 0, 1]), 48), b)
  {
    var t := NOT_PUBLIC_V6;
    assert |t| == 6 && t[0] == Range(V6([]), 96) && t[1] == Range(V6(LOOPBACK), 128) && t[2] == Range(V6([0xFE, 0x80]), 10);
    assert t[3] == Range(V6([0xFC]), 7) && t[4] == Range(V6([0xFF]), 8) && t[5] == Range(V6([0, 0x64, 0xFF, 0x9B, 0, 1]), 48);
  }

  lemma {:induction false} PrivateIsPrivateV6(b: Bytes)
    requires |b| == 16
    ensures Private(b) <==> PrivateV6(b)
  {
    OneOf(NOT_PUBLIC_V6, NOT_PUBLIC_V4, b);
    InTableV6(b);
    WholeV6(b);
    PartsV6(b);
  }

  lemma {:induction false} CoversLead(lead: Bytes, m: nat, b: Bytes)
    requires |b| == 16 && |lead| <= m <= 16
    ensures Covers(Range(V6(lead), 8 * m), b) <==> b[..|lead|] == lead && forall i :: |lead| <= i < m ==> b[i] == 0
  {
    CoversWhole(lead, m, b);
    if b[..m] == V6(lead)[..m] {
      assert forall i :: 0 <= i < m ==> b[i] == b[..m][i] == V6(lead)[..m][i];
    }
    if b[..|lead|] == lead && forall i :: |lead| <= i < m ==> b[i] == 0 {
      assert forall i :: 0 <= i < |lead| ==> b[i] == b[..|lead|][i];
      assert b[..m] == V6(lead)[..m];
    }
  }

  lemma {:induction false} CarrierRanges(b: Bytes)
    requires |b| == 16
    ensures Covers(MAPPED.range, b) <==> (forall i :: 0 <= i < 10 ==> b[i] == 0) && b[10] == b[11] == 0xFF
    ensures Covers(NAT64.range, b) <==> b[..4] == [0, 0x64, 0xFF, 0x9B] && forall i :: 4 <= i < 12 ==> b[i] == 0
    ensures Covers(SIX_TO_FOUR.range, b) <==> b[0] == 0x20 && b[1] == 2
  {
    MappedRange(b);
    CoversLead([0, 0x64, 0xFF, 0x9B], 12, b);
    CoversLead([0x20, 0x02], 2, b);
    assert b[..2] == [b[0], b[1]];
  }

  lemma MappedRange(b: Bytes)
    requires |b| == 16
    ensures Covers(MAPPED.range, b) <==> (forall i :: 0 <= i < 10 ==> b[i] == 0) && b[10] == b[11] == 0xFF
  {
    CoversLead([0, 0, 0, 0, 0, 0, 0, 0, 0, 0, 0xFF, 0xFF], 12, b);
    assert forall i :: 0 <= i < 12 ==> b[..12][i] == b[i];
  }

  lemma CarrierTable(b: Bytes)
    ensures CarriedAt(b, CARRY_IPV4) ==
            if Covers(MAPPED.range, b) then Some(MAPPED.at)
            else if Covers(NAT64.range, b) then Some(NAT64.at)
            else if Covers(SIX_TO_FOUR.range, b) then Some(SIX_TO_FOUR.at)
            else None
  {
    var t := CARRY_IPV4;
    assert t[1..] == [NAT64, SIX_TO_FOUR] && t[1..][1..] == [SIX_TO_FOUR] && t[1..][1..][1..] == [];
  }

  lemma {:induction false} CarriedIsCarried(b: Bytes)
    requires |b| == 16
    ensures match CarriedAt(b, CARRY_IPV4)
            case None => Carried(b) == None
            case Some(at) => at <= 12 && Carried(b) == Some(b[at..at + 4])
  {
    CarrierTable(b);
    CarrierRanges(b);
    if Covers(MAPPED.range, b) {
      assert Carried(b) == Some(b[12..16]);
    } else if Covers(NAT64.range, b) {
      assert Carried(b) == Some(b[12..16]);
    }
  }

  lemma {:induction false} ReadAsFourOrSixteen(address: string)
    ensures ToBytes(address).Some? ==> |ToBytes(address).value| == 4 || |ToBytes(address).value| == 16
  {
    var plain := Plain(address);
    if IsIPv4(plain) {
      var b: Bytes :| |b| == 4 && plain == Dotted(b);
      DottedSplits(b);
    } else if IsIPv6(plain) {
      var sp :| Proper(sp) && plain == Written(sp);
      EverySpellingIsRead(sp);
      WrittenChars(sp);
      AlreadyPlain(plain);
    }
  }

  lemma {:induction false} FourArePublicOrPrivate(address: string, b: Bytes)
    requires ToBytes(address) == Some(b) && |b| == 4
    ensures IsPublicAddress(address) <==> PublicV4(b)
  {
    CarriedFits(b);
    PrivateIsPrivateV4(b);
  }

  // Whether an address is public depends on its bytes alone; one that carries an IPv4 address is public
  // exactly when that one is.
  lemma {:induction false} PublicIsOfTheBytes(address: string)
    ensures ToBytes(address).None? ==> !IsPublicAddress(address)
    ensures ToBytes(address).Some? ==>
              var b := ToBytes(address).value;
              (|b| == 4 || |b| == 16) && (IsPublicAddress(address) <==> PublicBytes(b))
  {
    ReadAsFourOrSixteen(address);
    if ToBytes(address).Some? {
      var b := ToBytes(address).value;
      if |b| == 4 {
        FourArePublicOrPrivate(address, b);
      } else {
        SixteenArePublicOrPrivate(address, b);
      }
    }
  }

  lemma {:induction false} SixteenArePublicOrPrivate(address: string, b: Bytes)
    requires ToBytes(address) == Some(b) && |b| == 16
    ensures IsPublicAddress(address) <==> PublicBytes(b)
  {
    PublicSixteen(b);
    Judged(address, b);
    match CarriesAt(b) {
      case None => PrivateIsPrivateV6(b);
      case Some(at) => InsideIsJudged(b[at..at + 4]);
    }
  }

  lemma PublicSixteen(b: Bytes)
    requires |b| == 16
    ensures PublicBytes(b) <==>
            match CarriesAt(b) case Some(at) => at <= 12 && PublicV4(b[at..at + 4]) case None => !PrivateV6(b)
  {
    CarriedIsCarried(b);
  }

  lemma Judged(address: string, b: Bytes)
    requires ToBytes(address) == Some(b)
    ensures IsPublicAddress(address) <==>
            match CarriesAt(b) case Some(at) => IsPublicAddress(Dotted(b[at..at + 4])) case None => !Private(b)
  {
  }

  lemma InsideIsJudged(v: Bytes)
    requires |v| == 4
    ensures IsPublicAddress(Dotted(v)) <==> PublicV4(v)
  {
    ReadsDotted(v);
    FourArePublicOrPrivate(Dotted(v), v);
  }

  // Two spellings of one address are public together, and may be reached together.
  lemma {:induction false} SpellingDoesNotMatter(policy: Policy, a: Spelling, b: Spelling)
    requires Proper(a) && Proper(b) && Meaning(a) == Meaning(b)
    ensures IsPublicAddress(Written(a)) <==> IsPublicAddress(Written(b))
    ensures MayReach(policy, Written(a)) <==> MayReach(policy, Written(b))
  {
    EverySpellingIsRead(a);
    EverySpellingIsRead(b);
    PublicIsOfTheBytes(Written(a));
    PublicIsOfTheBytes(Written(b));
  }

  // An IPv4 address, written as IPv6 with a dotted tail, is judged as written plainly.
  lemma {:induction false} MappedIsJudgedAsInside(v: Bytes)
    requires |v| == 4
    ensures IsPublicAddress(Written(Spelling([], true, ["ffff"], Some(v)))) <==> IsPublicAddress(Dotted(v))
  {
    var sp := Spelling([], true, ["ffff"], Some(v));
    EverySpellingIsRead(sp);
    var b := ToBytes(Written(sp)).value;
    MappedBytes(v);
    PublicIsOfTheBytes(Written(sp));
    ReadsDotted(v);
    PublicIsOfTheBytes(Dotted(v));
  }

  lemma {:induction false} MappedBytes(v: Bytes)
    requires |v| == 4
    ensures var sp := Spelling([], true, ["ffff"], Some(v));
            Proper(sp) && |GroupBytes(Meaning(sp))| == 16 && Carried(GroupBytes(Meaning(sp))) == Some(v)
  {
    var sp := Spelling([], true, ["ffff"], Some(v));
    MappedMeaning(sp, v);
    LastThree(Zeros(5), v);
    ZeroBytes(5);
    AfterZeros(GroupBytes(Zeros(5)), v);
  }

  lemma MappedMeaning(sp: Spelling, v: Bytes)
    requires |v| == 4 && sp == Spelling([], true, ["ffff"], Some(v))
    ensures Proper(sp) && Meaning(sp) == Zeros(5) + [0xFFFF] + [Pair(v[0], v[1])] + [Pair(v[2], v[3])]
  {
    FourFs();
    assert Values(sp.right) + TailValues(sp) == [0xFFFF, Pair(v[0], v[1]), Pair(v[2], v[3])];
  }

  lemma AfterZeros(zeros: Bytes, v: Bytes)
    requires |zeros| == 10 && |v| == 4 && forall i :: 0 <= i < 10 ==> zeros[i] == 0
    ensures Carried(zeros + [0xFF, 0xFF] + v) == Some(v)
  {
    var b := zeros + [0xFF, 0xFF] + v;
    assert b[12..16] == v && b[10] == b[11] == 0xFF;
    assert forall i :: 0 <= i < 10 ==> b[i] == zeros[i];
  }

  lemma FourFs()
    ensures ParseHex("ffff") == 0xFFFF
  {
    assert "ffff"[..3] == "fff" && "fff"[..2] == "ff" && "ff"[..1] == "f" && "f"[..0] == "";
    assert ParseHex("f") == 15 && ParseHex("ff") == 255 && ParseHex("fff") == 4095;
  }

  lemma LastThree(z: seq<nat>, v: Bytes)
    requires |v| == 4
    ensures GroupBytes(z + [0xFFFF] + [Pair(v[0], v[1])] + [Pair(v[2], v[3])]) == GroupBytes(z) + [0xFF, 0xFF] + v
  {
    OneGroupMore(z, 0xFFFF);
    OneGroupMore(z + [0xFFFF], Pair(v[0], v[1]));
    OneGroupMore(z + [0xFFFF] + [Pair(v[0], v[1])], Pair(v[2], v[3]));
    HalvesOf(v[0], v[1]);
    HalvesOf(v[2], v[3]);
    assert [v[0], v[1]] + [v[2], v[3]] == v;
    var a, b, c, d := GroupBytes(z), [0xFF, 0xFF], [v[0], v[1]], [v[2], v[3]];
    assert a + b + c + d == a + b + (c + d);
  }

  lemma HalvesOf(a: Byte, b: Byte)
    ensures Pair(a, b) / 0x100 % 0x100 == a && Pair(a, b) % 0x100 == b
  {
  }

  lemma OneGroupMore(groups: seq<nat>, x: nat)
    ensures GroupBytes(groups + [x]) == GroupBytes(groups) + [x / 0x100 % 0x100, x % 0x100]
  {
    assert (groups + [x])[..|groups|] == groups;
  }

  lemma {:induction false} ZeroBytes(n: nat)
    ensures forall i :: 0 <= i < 2 * n ==> GroupBytes(Zeros(n))[i] == 0
  {
    if n > 0 {
      ZeroBytes(n - 1);
      ZerosAreZero(n);
      ZerosAreZero(n - 1);
      assert Zeros(n)[..n - 1] == Zeros(n - 1);
    }
  }

  // What the operator allows is judged on the address as dialled, not on the IPv4 address it may carry: a
  // destination that carries one is reached exactly when a range allows it as it is, or what it carries is public.
  lemma {:induction false} AllowedAsDialled(allow: seq<Range>, address: string)
    requires ToBytes(address).Some? && |ToBytes(address).value| == 16 && Carried(ToBytes(address).value).Some?
    ensures MayReach(Public(allow), address) <==>
            || PublicV4(Carried(ToBytes(address).value).value)
            || exists r :: r in allow && Covers(r, ToBytes(address).value)
  {
    PublicIsOfTheBytes(address);
  }

  // So allowing a private IPv4 network does not allow its addresses written the other way.
  lemma {:induction false} AllowedOnlyPlainly(v: Bytes)
    requires |v| == 4 && v[0] == 10
    ensures MayReach(Public([Range([10, 0, 0, 0], 8)]), Dotted(v))
    ensures !MayReach(Public([Range([10, 0, 0, 0], 8)]), Written(Spelling([], true, ["ffff"], Some(v))))
  {
    ReadsDotted(v);
    Ranges8(v);
    InOne(Range([10, 0, 0, 0], 8), v);
    NotAllowedMapped(Range([10, 0, 0, 0], 8), v);
  }

  lemma {:induction false} NotAllowedMapped(range: Range, v: Bytes)
    requires |v| == 4 == |range.bytes| && PrivateV4(v)
    ensures !MayReach(Public([range]), Written(Spelling([], true, ["ffff"], Some(v))))
  {
    var w := Written(Spelling([], true, ["ffff"], Some(v)));
    EverySpellingIsRead(Spelling([], true, ["ffff"], Some(v)));
    MappedBytes(v);
    AllowedAsDialled([range], w);
    InOne(range, ToBytes(w).value);
  }

  lemma InOne(range: Range, b: Bytes)
    ensures (exists r :: r in [range] && Covers(r, b)) <==> Covers(range, b)
  {
    assert range in [range];
  }

  // ---------------------------------------------------------------- ranges as they are written

  // What a text says as a number; NaN for one that is none, and there is an infinite one.
  datatype Amount = NotANumber | Endless | Amount(value: real)

  // A range as it was read: an address, and how many of its bits count.
  datatype Parsed = Parsed(bytes: Bytes, bits: Amount)

  // `bit < bits`, which with NaN never holds.
  predicate Below(bit: nat, bits: Amount) {
    match bits
    case NotANumber => false
    case Endless => true
    case Amount(v) => bit as real < v
  }

  // `number` is what the platform reads a text as.
  ghost function ParseRange(text: string, number: string -> Amount): Option<Parsed> {
    var parts := Split(text, '/');
    match ToBytes(parts[0])
    case None => None
    case Some(bytes) => Some(Parsed(bytes, if |parts| == 1 then Amount((8 * |bytes|) as real) else number(parts[1])))
  }

  // The loop over bits, so many times around: it goes on where there is a bit to compare and those compared
  // are the same. Past the last byte there is nothing on either side.
  ghost predicate GoesAround(a: Bytes, range: Parsed, times: nat) {
    forall k :: 0 <= k < times ==> Below(k, range.bits) && Bit(a, k) == Bit(range.bytes, k)
  }

  // It ends after so many, at a bit that differs or with none left to compare: the address is in the range.
  ghost predicate Finds(a: Bytes, range: Parsed) {
    |a| == |range.bytes| && exists n: nat :: GoesAround(a, range, n) && !Below(n, range.bits)
  }

  // How many bits are compared where none differs, if that is a number at all.
  function Compared(bits: Amount): nat
    requires !bits.Endless?
  {
    match bits
    case NotANumber => 0
    case Amount(v) => if v <= 0.0 then 0 else if v == v.Floor as real then v.Floor else v.Floor + 1
  }

  lemma BelowCompared(bit: nat, bits: Amount)
    requires !bits.Endless?
    ensures Below(bit, bits) <==> bit < Compared(bits)
  {
  }

  // So it is the range of those bits.
  lemma {:induction false} FindsWhatItCovers(a: Bytes, range: Parsed)
    requires !range.bits.Endless?
    ensures Finds(a, range) <==> Covers(Range(range.bytes, Compared(range.bits)), a)
  {
    var n := Compared(range.bits);
    forall k: nat ensures Below(k, range.bits) <==> k < n {
      BelowCompared(k, range.bits);
    }
    if |a| == |range.bytes| {
      SameBitsSameNumber(a, range.bytes, n);
      if m: nat :| GoesAround(a, range, m) && !Below(m, range.bits) {
        assert n <= m;
      }
      assert !Below(n, range.bits);
    }
  }

  // The loop never ends exactly with infinitely many bits to compare and none that differs: on the very address
  // the range was written with.
  lemma {:induction false} NeverEndsExactly(a: Bytes, range: Parsed)
    requires |a| == |range.bytes|
    ensures (forall n: nat :: GoesAround(a, range, n)) <==> range.bits.Endless? && a == range.bytes
  {
    if range.bits.Endless? {
      if GoesAround(a, range, 8 * |a|) {
        SameBitsSameNumber(a, range.bytes, 8 * |a|);
        WholeNumber(a);
        WholeNumber(range.bytes);
        SameNumber(a, range.bytes);
      }
    } else {
      var n := Compared(range.bits);
      BelowCompared(n, range.bits);
      assert !GoesAround(a, range, n + 1);
    }
  }

  lemma WholeNumber(a: Bytes)
    ensures LeadingBits(a, 8 * |a|) == Number(a)
  {
    assert Pow2(0) == 1;
  }

  // Where it ends, a range finds every address of its kind exactly when what is written after its slash is no
  // number, or none above zero: a word there is not refused, and allows them all.
  lemma {:induction false} CoversEveryAddress(text: string, number: string -> Amount)
    requires ParseRange(text, number).Some?
    ensures var range, parts := ParseRange(text, number).value, Split(text, '/');
            (forall b: Bytes :: |b| == |range.bytes| ==> Finds(b, range))
            <==> |parts| > 1 && (number(parts[1]).NotANumber? || (number(parts[1]).Amount? && number(parts[1]).value <= 0.0))
  {
    var range, parts := ParseRange(text, number).value, Split(text, '/');
    ReadAsFourOrSixteen(parts[0]);
    if Below(0, range.bits) {
      var b := OtherFirstBit(range);
    } else {
      forall b: Bytes | |b| == |range.bytes| ensures Finds(b, range) {
        assert GoesAround(b, range, 0);
      }
    }
  }

  // An address whose first bit is another is not found where one is compared.
  lemma {:induction false} OtherFirstBit(range: Parsed) returns (b: Bytes)
    requires range.bytes != [] && Below(0, range.bits)
    ensures |b| == |range.bytes| && !Finds(b, range)
  {
    var first := range.bytes[0];
    b := [if first < 0x80 then first + 0x80 else first - 0x80] + range.bytes[1..];
    FirstBit(first, b[0]);
    assert Bit(b, 0) != Bit(range.bytes, 0);
    forall n: nat | GoesAround(b, range, n) ensures Below(n, range.bits) {}
  }

  lemma FirstBit(a: Byte, b: Byte)
    requires b == if a < 0x80 then a + 0x80 else a - 0x80
    ensures BitOf(a, 0) != BitOf(b, 0)
  {
    Pow2Of8();
  }
}
