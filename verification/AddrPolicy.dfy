// Address classification of internal/security/url_validator.go. Zoned IPv6
// addresses are not represented.
module AddrPolicy {
  import opened Models
  import opened Bits

  const W32: nat := 0x1_0000_0000
  const W96: nat := 0x1_0000_0000_0000_0000_0000_0000
  const W112: nat := 0x1_0000_0000_0000_0000_0000_0000_0000
  const W128: nat := 0x1_0000_0000_0000_0000_0000_0000_0000_0000

  type Nat32 = n: nat | n < 0x1_0000_0000
  type Nat128 = n: nat | n < 0x1_0000_0000_0000_0000_0000_0000_0000_0000
  type Octet = n: nat | n < 256
  type Hextet = n: nat | n < 0x10000

  // netip.Addr; the zero value is NoAddr.
  datatype Addr = NoAddr | V4(n: Nat32) | V6(m: Nat128)

  function IP4(a: Octet, b: Octet, c: Octet, d: Octet): Nat32 { a * 0x1000000 + b * 0x10000 + c * 0x100 + d }

  // The IPv6 address whose first two groups and last 16 bits are given.
  function IP6(g0: Hextet, g1: Hextet,
               last: Hextet): Nat128 { Top16(g0) + g1 * 0x1_0000_0000_0000_0000_0000_0000 + last }

  function Top16(g: nat): nat { g * 0x1_0000_0000_0000_0000_0000_0000_0000 }

  // An IPv4-mapped address has the form ::ffff:a.b.c.d (section 2.5.5.2 of RFC 4291).
  predicate Is4In6(a: Addr) { a.V6? && a.m / W32 == 0xFFFF }

  function Unmap(a: Addr): Addr {
    if Is4In6(a) then V4(a.m % W32) else a
  }

  // ---- Prefixes ------------------------------------------------------------------

  datatype PrefixData = Prefix4(base4: Nat32, len: nat) | Prefix6(base6: Nat128, len: nat)

  type Prefix = p: PrefixData | (if p.Prefix4? then p.len <= 32 else p.len <= 128) witness Prefix4(0, 0)

  // netip.Prefix.Contains: addresses of another family never match.
  predicate Contains(p: Prefix, a: Addr) {
    match a
    case NoAddr => false
    case V4(n) => p.Prefix4? && MaskMatch(ToBits(n, 32), ToBits(p.base4, 32), p.len)
    case V6(m) => p.Prefix6? && MaskMatch(ToBits(m, 128), ToBits(p.base6, 128), p.len)
  }

  // blockedPrefixes, group by group.
  function Loopback(): seq<Prefix> { [Prefix4(IP4(127, 0, 0, 0), 8), Prefix6(IP6(0, 0, 1), 128)] }

  function PrivateUse(): seq<Prefix> {
    [Prefix4(IP4(10, 0, 0, 0), 8), Prefix4(IP4(172, 16, 0, 0), 12),
     Prefix4(IP4(192, 168, 0, 0), 16), Prefix6(IP6(0xFC00, 0, 0), 7)]
  }

  function LinkLocal(): seq<Prefix> { [Prefix4(IP4(169, 254, 0, 0), 16), Prefix6(IP6(0xFE80, 0, 0), 10)] }

  function Unspecified(): seq<Prefix> { [Prefix4(0, 8), Prefix6(0, 128)] }

  function Multicast(): seq<Prefix> { [Prefix4(IP4(224, 0, 0, 0), 4), Prefix6(IP6(0xFF00, 0, 0), 8)] }

  function CarrierGradeNAT(): seq<Prefix> { [Prefix4(IP4(100, 64, 0, 0), 10)] }

  function Documentation(): seq<Prefix> {
    [Prefix4(IP4(192, 0, 2, 0), 24), Prefix4(IP4(198, 51, 100, 0), 24), Prefix4(IP4(203, 0, 113, 0), 24)]
  }

  function Reserved(): seq<Prefix> { [Prefix4(IP4(198, 18, 0, 0), 15), Prefix4(IP4(240, 0, 0, 0), 4)] }

  function Metadata(): seq<Prefix> { [Prefix6(IP6(0xFD00, 0xEC2, 0), 32)] }

  function BlockedPrefixes(): seq<Prefix> {
    Loopback() + (PrivateUse() + (LinkLocal() + (Unspecified() + (Multicast() +
      (CarrierGradeNAT() + (Documentation() + (Reserved() + Metadata())))))))
  }

  // ---- The ranges, as intervals ------------------------------------------------------

  // The addresses that policy rejects, read off the prefix list as intervals.
  // The metadata range fd00:ec2::/32 lies inside fc00::/7.
  predicate InListedRange(a: Addr) {
    match a
    case NoAddr => false
    case V4(n) =>
      || n <= IP4(0, 255, 255, 255)
      || IP4(10, 0, 0, 0) <= n <= IP4(10, 255, 255, 255)
      || IP4(100, 64, 0, 0) <= n <= IP4(100, 127, 255, 255)
      || IP4(127, 0, 0, 0) <= n <= IP4(127, 255, 255, 255)
      || IP4(169, 254, 0, 0) <= n <= IP4(169, 254, 255, 255)
      || IP4(172, 16, 0, 0) <= n <= IP4(172, 31, 255, 255)
      || IP4(192, 0, 2, 0) <= n <= IP4(192, 0, 2, 255)
      || IP4(192, 168, 0, 0) <= n <= IP4(192, 168, 255, 255)
      || IP4(198, 18, 0, 0) <= n <= IP4(198, 19, 255, 255)
      || IP4(198, 51, 100, 0) <= n <= IP4(198, 51, 100, 255)
      || IP4(203, 0, 113, 0) <= n <= IP4(203, 0, 113, 255)
      || IP4(224, 0, 0, 0) <= n
    case V6(m) =>
      || m <= 1
      || Top16(0xFC00) <= m < Top16(0xFE00)
      || Top16(0xFE80) <= m < Top16(0xFEC0)
      || Top16(0xFF00) <= m
  }

  lemma SmallPowers()
    ensures Pow2(1) == 2 && Pow2(2) == 4 && Pow2(4) == 16 && Pow2(8) == 256 && Pow2(16) == 0x10000
    ensures Pow2(17) == 0x20000 && Pow2(20) == 0x100000 && Pow2(22) == 0x400000
    ensures Pow2(24) == 0x1000000 && Pow2(28) == 0x10000000 && Pow2(32) == W32
  {
    assert Pow2(4) == 16;
    Pow2Sum(4, 4);
    Pow2Sum(8, 8);
    Pow2Sum(16, 1);
    Pow2Sum(16, 4);
    Pow2Sum(2, 20);
    Pow2Sum(8, 16);
    Pow2Sum(4, 24);
    Pow2Sum(16, 16);
  }

  lemma WidePowers()
    ensures Pow2(96) == W96 && Pow2(112) == W112 && Pow2(128) == W128
  {
    SmallPowers();
    Pow2Sum(32, 32);
    Pow2Sum(32, 64);
    Pow2Sum(16, 96);
    Pow2Sum(16, 112);
  }

  lemma BlockPowers()
    ensures Pow2(0) == 1 && Pow2(118) == Top16(0x40) && Pow2(120) == Top16(0x100) && Pow2(121) == Top16(0x200)
  {
    SmallPowers();
    WidePowers();
    Pow2Sum(2, 4);
    Pow2Sum(6, 112);
    Pow2Sum(8, 112);
    Pow2Sum(1, 120);
  }

  lemma ValueOf4(n: Nat32)
    ensures Value(ToBits(n, 32)) == n
  {
    SmallPowers();
    ValueOfBits(n, 32);
  }

  lemma ValueOf6(m: Nat128)
    ensures Value(ToBits(m, 128)) == m
  {
    WidePowers();
    ValueOfBits(m, 128);
  }

  lemma Contains4(base: Nat32, len: nat, n: Nat32, size: nat)
    requires len <= 32 && Pow2(32 - len) == size && base % size == 0
    ensures Contains(Prefix4(base, len), V4(n)) <==> base <= n < base + size
  {
    ValueOf4(n);
    ValueOf4(base);
    MaskMatchMeansInterval(ToBits(n, 32), ToBits(base, 32), len);
  }

  lemma Contains6(base: Nat128, len: nat, m: Nat128, size: nat)
    requires len <= 128 && Pow2(128 - len) == size && base % size == 0
    ensures Contains(Prefix6(base, len), V6(m)) <==> base <= m < base + size
  {
    ValueOf6(m);
    ValueOf6(base);
    MaskMatchMeansInterval(ToBits(m, 128), ToBits(base, 128), len);
  }

  // Some prefix of the list contains the address.
  predicate MatchesAny(ps: seq<Prefix>, a: Addr) { exists i :: 0 <= i < |ps| && Contains(ps[i], a) }

  lemma MatchesConcat(ps: seq<Prefix>, qs: seq<Prefix>, a: Addr)
    ensures MatchesAny(ps + qs, a) <==> MatchesAny(ps, a) || MatchesAny(qs, a)
  {
    if MatchesAny(ps, a) {
      var i :| 0 <= i < |ps| && Contains(ps[i], a);
      assert Contains((ps + qs)[i], a);
    }
    if MatchesAny(qs, a) {
      var i :| 0 <= i < |qs| && Contains(qs[i], a);
      assert Contains((ps + qs)[|ps| + i], a);
    }
  }

  lemma MatchesGroups(a: Addr)
    ensures MatchesAny(BlockedPrefixes(), a) <==>
      || MatchesAny(Loopback(), a) || MatchesAny(PrivateUse(), a) || MatchesAny(LinkLocal(), a)
        || MatchesAny(Unspecified(), a)
      || MatchesAny(Multicast(), a) || MatchesAny(CarrierGradeNAT(), a) || MatchesAny(Documentation(), a)
      || MatchesAny(Reserved(), a) || MatchesAny(Metadata(), a)
  {
    var r := Metadata();
    MatchesConcat(Reserved(), r, a);
    r := Reserved() + r;
    MatchesConcat(Documentation(), r, a);
    r := Documentation() + r;
    MatchesConcat(CarrierGradeNAT(), r, a);
    r := CarrierGradeNAT() + r;
    MatchesConcat(Multicast(), r, a);
    r := Multicast() + r;
    MatchesConcat(Unspecified(), r, a);
    r := Unspecified() + r;
    MatchesConcat(LinkLocal(), r, a);
    r := LinkLocal() + r;
    MatchesConcat(PrivateUse(), r, a);
    r := PrivateUse() + r;
    MatchesConcat(Loopback(), r, a);
  }

  lemma One(p: Prefix, a: Addr)
    ensures MatchesAny([p], a) <==> Contains(p, a)
  {
    assert [p][0] == p;
  }

  lemma Two(p: Prefix, q: Prefix, a: Addr)
    ensures MatchesAny([p, q], a) <==> Contains(p, a) || Contains(q, a)
  {
    assert [p, q][0] == p && [p, q][1] == q;
  }

  lemma Three(p: Prefix, q: Prefix, r: Prefix, a: Addr)
    ensures MatchesAny([p, q, r], a) <==> Contains(p, a) || Contains(q, a) || Contains(r, a)
  {
    assert [p, q, r][0] == p && [p, q, r][1] == q && [p, q, r][2] == r;
  }

  lemma Four(p: Prefix, q: Prefix, r: Prefix, t: Prefix, a: Addr)
    ensures MatchesAny([p, q, r, t], a) <==> Contains(p, a) || Contains(q, a) || Contains(r, a) || Contains(t, a)
  {
    assert [p, q, r, t] == [p, q] + [r, t];
    MatchesConcat([p, q], [r, t], a);
    Two(p, q, a);
    Two(r, t, a);
  }

  // An address of the first or of the second family in the given interval.
  predicate In4(a: Addr, lo: Nat32, hi: Nat32) { a.V4? && lo <= a.n <= hi }

  predicate In6(a: Addr, lo: Nat128, hi: nat) { a.V6? && lo <= a.m < hi }

  lemma Spans4(base: Nat32, len: nat, size: nat, hi: Nat32, a: Addr)
    requires len <= 32 && Pow2(32 - len) == size && base % size == 0 && hi == base + size - 1
    ensures Contains(Prefix4(base, len), a) <==> In4(a, base, hi)
  {
    if a.V4? { Contains4(base, len, a.n, size); }
  }

  lemma Spans6(base: Nat128, len: nat, size: nat, a: Addr)
    requires len <= 128 && Pow2(128 - len) == size && base % size == 0
    ensures Contains(Prefix6(base, len), a) <==> In6(a, base, base + size)
  {
    if a.V6? { Contains6(base, len, a.m, size); }
  }

  lemma LoopbackRanges(a: Addr)
    ensures MatchesAny(Loopback(), a) <==> In4(a, IP4(127, 0, 0, 0), IP4(127, 255, 255, 255)) || In6(a, 1, 2)
  {
    SmallPowers();
    Spans4(IP4(127, 0, 0, 0), 8, 0x1000000, IP4(127, 255, 255, 255), a);
    Spans6(IP6(0, 0, 1), 128, 1, a);
    Two(Prefix4(IP4(127, 0, 0, 0), 8), Prefix6(IP6(0, 0, 1), 128), a);
  }

  lemma PrivateUse4(a: Addr)
    ensures Contains(Prefix4(IP4(10, 0, 0, 0), 8), a) <==> In4(a, IP4(10, 0, 0, 0), IP4(10, 255, 255, 255))
    ensures Contains(Prefix4(IP4(172, 16, 0, 0), 12), a) <==> In4(a, IP4(172, 16, 0, 0), IP4(172, 31, 255, 255))
    ensures Contains(Prefix4(IP4(192, 168, 0, 0), 16), a) <==> In4(a, IP4(192, 168, 0, 0), IP4(192, 168, 255, 255))
  {
    SmallPowers();
    Spans4(IP4(10, 0, 0, 0), 8, 0x1000000, IP4(10, 255, 255, 255), a);
    Spans4(IP4(172, 16, 0, 0), 12, 0x100000, IP4(172, 31, 255, 255), a);
    Spans4(IP4(192, 168, 0, 0), 16, 0x10000, IP4(192, 168, 255, 255), a);
  }

  lemma PrivateUseRanges(a: Addr)
    ensures MatchesAny(PrivateUse(), a) <==>
      || In4(a, IP4(10, 0, 0, 0), IP4(10, 255, 255, 255)) || In4(a, IP4(172, 16, 0, 0), IP4(172, 31, 255, 255))
      || In4(a, IP4(192, 168, 0, 0), IP4(192, 168, 255, 255)) || In6(a, Top16(0xFC00), Top16(0xFE00))
  {
    PrivateUse4(a);
    assert Contains(Prefix6(IP6(0xFC00, 0, 0), 7), a) <==> In6(a, Top16(0xFC00), Top16(0xFE00)) by {
      BlockPowers();
      Spans6(IP6(0xFC00, 0, 0), 7, Top16(0x200), a);
    }
    Four(Prefix4(IP4(10, 0, 0, 0), 8), Prefix4(IP4(172, 16, 0, 0), 12),
         Prefix4(IP4(192, 168, 0, 0), 16), Prefix6(IP6(0xFC00, 0, 0), 7), a);
  }

  lemma LinkLocalRanges(a: Addr)
    ensures MatchesAny(LinkLocal(), a) <==>
      In4(a, IP4(169, 254, 0, 0), IP4(169, 254, 255, 255)) || In6(a, Top16(0xFE80), Top16(0xFEC0))
  {
    SmallPowers();
    BlockPowers();
    Spans4(IP4(169, 254, 0, 0), 16, 0x10000, IP4(169, 254, 255, 255), a);
    Spans6(IP6(0xFE80, 0, 0), 10, Top16(0x40), a);
    Two(Prefix4(IP4(169, 254, 0, 0), 16), Prefix6(IP6(0xFE80, 0, 0), 10), a);
  }

  lemma UnspecifiedRanges(a: Addr)
    ensures MatchesAny(Unspecified(), a) <==> In4(a, 0, IP4(0, 255, 255, 255)) || In6(a, 0, 1)
  {
    SmallPowers();
    Spans4(0, 8, 0x1000000, IP4(0, 255, 255, 255), a);
    Spans6(0, 128, 1, a);
    Two(Prefix4(0, 8), Prefix6(0, 128), a);
  }

  lemma MulticastRanges(a: Addr)
    ensures MatchesAny(Multicast(), a) <==>
      In4(a, IP4(224, 0, 0, 0), IP4(239, 255, 255, 255)) || In6(a, Top16(0xFF00), Top16(0x10000))
  {
    SmallPowers();
    BlockPowers();
    Spans4(IP4(224, 0, 0, 0), 4, 0x10000000, IP4(239, 255, 255, 255), a);
    Spans6(IP6(0xFF00, 0, 0), 8, Top16(0x100), a);
    Two(Prefix4(IP4(224, 0, 0, 0), 4), Prefix6(IP6(0xFF00, 0, 0), 8), a);
  }

  lemma CarrierRanges(a: Addr)
    ensures MatchesAny(CarrierGradeNAT(), a) <==> In4(a, IP4(100, 64, 0, 0), IP4(100, 127, 255, 255))
  {
    SmallPowers();
    Spans4(IP4(100, 64, 0, 0), 10, 0x400000, IP4(100, 127, 255, 255), a);
    One(Prefix4(IP4(100, 64, 0, 0), 10), a);
  }

  lemma DocumentationRanges(a: Addr)
    ensures MatchesAny(Documentation(), a) <==>
      || In4(a, IP4(192, 0, 2, 0), IP4(192, 0, 2, 255)) || In4(a, IP4(198, 51, 100, 0), IP4(198, 51, 100, 255))
      || In4(a, IP4(203, 0, 113, 0), IP4(203, 0, 113, 255))
  {
    SmallPowers();
    Spans4(IP4(192, 0, 2, 0), 24, 0x100, IP4(192, 0, 2, 255), a);
    Spans4(IP4(198, 51, 100, 0), 24, 0x100, IP4(198, 51, 100, 255), a);
    Spans4(IP4(203, 0, 113, 0), 24, 0x100, IP4(203, 0, 113, 255), a);
    Three(Prefix4(IP4(192, 0, 2, 0), 24), Prefix4(IP4(198, 51, 100, 0), 24), Prefix4(IP4(203, 0, 113, 0), 24), a);
  }

  lemma ReservedRanges(a: Addr)
    ensures MatchesAny(Reserved(), a) <==>
      In4(a, IP4(198, 18, 0, 0), IP4(198, 19, 255, 255)) || In4(a, IP4(240, 0, 0, 0), IP4(255, 255, 255, 255))
  {
    SmallPowers();
    Spans4(IP4(198, 18, 0, 0), 15, 0x20000, IP4(198, 19, 255, 255), a);
    Spans4(IP4(240, 0, 0, 0), 4, 0x10000000, IP4(255, 255, 255, 255), a);
    Two(Prefix4(IP4(198, 18, 0, 0), 15), Prefix4(IP4(240, 0, 0, 0), 4), a);
  }

  lemma MetadataRanges(a: Addr)
    ensures MatchesAny(Metadata(), a) ==> In6(a, Top16(0xFC00), Top16(0xFE00))
  {
    WidePowers();
    Spans6(IP6(0xFD00, 0xEC2, 0), 32, W96, a);
    One(Prefix6(IP6(0xFD00, 0xEC2, 0), 32), a);
  }

  // The ranges of all groups.
  predicate InGroups(a: Addr) {
    || In4(a, IP4(127, 0, 0, 0), IP4(127, 255, 255, 255)) || In6(a, 1, 2)
    || In4(a, IP4(10, 0, 0, 0), IP4(10, 255, 255, 255)) || In4(a, IP4(172, 16, 0, 0), IP4(172, 31, 255, 255))
    || In4(a, IP4(192, 168, 0, 0), IP4(192, 168, 255, 255)) || In6(a, Top16(0xFC00), Top16(0xFE00))
    || In4(a, IP4(169, 254, 0, 0), IP4(169, 254, 255, 255)) || In6(a, Top16(0xFE80), Top16(0xFEC0))
    || In4(a, 0, IP4(0, 255, 255, 255)) || In6(a, 0, 1)
    || In4(a, IP4(224, 0, 0, 0), IP4(239, 255, 255, 255)) || In6(a, Top16(0xFF00), Top16(0x10000))
    || In4(a, IP4(100, 64, 0, 0), IP4(100, 127, 255, 255))
    || In4(a, IP4(192, 0, 2, 0), IP4(192, 0, 2, 255)) || In4(a, IP4(198, 51, 100, 0), IP4(198, 51, 100, 255))
    || In4(a, IP4(203, 0, 113, 0), IP4(203, 0, 113, 255))
    || In4(a, IP4(198, 18, 0, 0), IP4(198, 19, 255, 255)) || In4(a, IP4(240, 0, 0, 0), IP4(255, 255, 255, 255))
  }

  lemma GroupsAreListed(a: Addr)
    ensures InGroups(a) <==> InListedRange(a)
  {
  }

  lemma FirstGroups(a: Addr)
    ensures
      (MatchesAny(Loopback(), a) || MatchesAny(PrivateUse(), a) || MatchesAny(LinkLocal(), a)
       || MatchesAny(Unspecified(), a) || MatchesAny(Metadata(), a)) <==>
      || In4(a, IP4(127, 0, 0, 0), IP4(127, 255, 255, 255)) || In6(a, 1, 2)
      || In4(a, IP4(10, 0, 0, 0), IP4(10, 255, 255, 255)) || In4(a, IP4(172, 16, 0, 0), IP4(172, 31, 255, 255))
      || In4(a, IP4(192, 168, 0, 0), IP4(192, 168, 255, 255)) || In6(a, Top16(0xFC00), Top16(0xFE00))
      || In4(a, IP4(169, 254, 0, 0), IP4(169, 254, 255, 255)) || In6(a, Top16(0xFE80), Top16(0xFEC0))
      || In4(a, 0, IP4(0, 255, 255, 255)) || In6(a, 0, 1)
  {
    LoopbackRanges(a);
    PrivateUseRanges(a);
    LinkLocalRanges(a);
    UnspecifiedRanges(a);
    MetadataRanges(a);
  }

  lemma OtherGroups(a: Addr)
    ensures
      (MatchesAny(Multicast(), a) || MatchesAny(CarrierGradeNAT(), a)
       || MatchesAny(Documentation(), a) || MatchesAny(Reserved(), a)) <==>
      || In4(a, IP4(224, 0, 0, 0), IP4(239, 255, 255, 255)) || In6(a, Top16(0xFF00), Top16(0x10000))
      || In4(a, IP4(100, 64, 0, 0), IP4(100, 127, 255, 255))
      || In4(a, IP4(192, 0, 2, 0), IP4(192, 0, 2, 255)) || In4(a, IP4(198, 51, 100, 0), IP4(198, 51, 100, 255))
      || In4(a, IP4(203, 0, 113, 0), IP4(203, 0, 113, 255))
      || In4(a, IP4(198, 18, 0, 0), IP4(198, 19, 255, 255)) || In4(a, IP4(240, 0, 0, 0), IP4(255, 255, 255, 255))
  {
    MulticastRanges(a);
    CarrierRanges(a);
    DocumentationRanges(a);
    ReservedRanges(a);
  }

  // The prefix list, matched by masking, is exactly the union of the listed ranges.
  lemma ListedPrefixesAreRanges(a: Addr)
    ensures MatchesAny(BlockedPrefixes(), a) <==> InListedRange(a)
  {
    MatchesGroups(a);
    FirstGroups(a);
    OtherGroups(a);
    GroupsAreListed(a);
  }

  // ---- The standard library's classifiers (lines 135-137) ------------------------------

  function Group0(m: Nat128): nat { m / W112 }

  predicate IsLoopback(a: Addr) { (a.V4? && a.n / 0x1000000 == 127) || a == V6(1) }

  predicate IsPrivate(a: Addr) {
    || (a.V4? && (|| a.n / 0x1000000 == 10
                  || (a.n / 0x1000000 == 172 && a.n / 0x10000 % 256 / 16 == 1)
                  || (a.n / 0x1000000 == 192 && a.n / 0x10000 % 256 == 168)))
    || (a.V6? && Group0(a.m) / 512 == 0x7E)
  }

  predicate IsLinkLocalUnicast(a: Addr) {
    || (a.V4? && a.n / 0x1000000 == 169 && a.n / 0x10000 % 256 == 254)
    || (a.V6? && Group0(a.m) / 64 == 0x3FA)
  }

  predicate IsLinkLocalMulticast(a: Addr) {
    || (a.V4? && a.n / 0x100 == 224 * 0x10000)
    || (a.V6? && Group0(a.m) / 256 == 0xFF && Group0(a.m) % 16 == 2)
  }

  predicate IsInterfaceLocalMulticast(a: Addr) { a.V6? && Group0(a.m) / 256 == 0xFF && Group0(a.m) % 16 == 1 }

  predicate IsMulticast(a: Addr) { (a.V4? && a.n / 0x10000000 == 14) || (a.V6? && Group0(a.m) / 256 == 0xFF) }

  predicate IsUnspecified(a: Addr) { a == V4(0) || a == V6(0) }

  predicate Classified(a: Addr) {
    || IsLoopback(a) || IsPrivate(a) || IsLinkLocalUnicast(a) || IsLinkLocalMulticast(a)
    || IsInterfaceLocalMulticast(a) || IsMulticast(a) || IsUnspecified(a)
  }

  lemma GroupBounds(m: Nat128)
    ensures Group0(m) * W112 <= m < (Group0(m) + 1) * W112
  {
  }

  // The belt-and-braces classifiers add nothing to the list.
  lemma ClassifiersAddNothing(a: Addr)
    requires Classified(a)
    ensures InListedRange(a)
  {
    if a.V6? {
      GroupBounds(a.m);
    }
  }

  // ---- Verdicts -----------------------------------------------------------------------

  // The loop of isBlockedAddr.
  method ScanPrefixes(ps: seq<Prefix>, a: Addr) returns (found: bool)
    ensures found <==> MatchesAny(ps, a)
  {
    for i := 0 to |ps|
      invariant forall j :: 0 <= j < i ==> !Contains(ps[j], a)
    {
      if Contains(ps[i], a) {
        return true;
      }
    }
    return false;
  }

  method ScanBlocked(a: Addr) returns (found: bool)
    ensures found <==> InListedRange(a)
  {
    found := ScanPrefixes(BlockedPrefixes(), a);
    ListedPrefixesAreRanges(a);
  }

  // isBlockedAddr; its caller has unmapped the address.
  method IsBlockedAddr(a: Addr) returns (blocked: bool)
    requires !Is4In6(a)
    ensures blocked <==> a.NoAddr? || InListedRange(a)
  {
    if a.NoAddr? {
      return true;
    }
    var listed := ScanBlocked(a);
    if listed {
      return true;
    }
    if Classified(a) {
      ClassifiersAddNothing(a);
      return true;
    }
    return false;
  }

  // The destination policy's verdict on an address: that of its own family, but
  // that of the IPv4 address for the addresses of ::ffff:0:0/96.
  predicate Permitted(a: Addr) {
    match a
    case NoAddr => false
    case V4(_) => !InListedRange(a)
    case V6(m) => if m / W32 == 0xFFFF then !InListedRange(V4(m % W32)) else !InListedRange(a)
  }

  const BLOCKED_NETWORK := BrowserError(BlockedDestination, DestinationNotPermitted)

  method ValidateAddr(a: Addr) returns (err: MaybeError)
    ensures err == if Permitted(a) then None else Some(BLOCKED_NETWORK)
  {
    var u := Unmap(a);
    UnmapOnce(a);
    if u.NoAddr? {
      return Some(BLOCKED_NETWORK);
    }
    var blocked := IsBlockedAddr(u);
    return if blocked then Some(BLOCKED_NETWORK) else None;
  }

  lemma UnmapOnce(a: Addr)
    ensures !Is4In6(Unmap(a)) && (Permitted(a) <==> !Unmap(a).NoAddr? && !InListedRange(Unmap(a)))
  {
  }

  // The IPv4 ranges by bytes: whole blocks of 2^24 addresses, and parts of them.
  predicate WholeBlock(p: Octet) { p == 0 || p == 10 || p == 127 || p >= 224 }

  predicate PartBlock(p: Octet, q: Octet, r: Octet) {
    || (p == 100 && 64 <= q < 128) || (p == 169 && q == 254) || (p == 172 && 16 <= q < 32)
    || (p == 192 && (q == 168 || (q == 0 && r == 2)))
    || (p == 198 && (q == 18 || q == 19 || (q == 51 && r == 100)))
    || (p == 203 && q == 0 && r == 113)
  }

  lemma WholeBlocks(p: Octet, rest: nat)
    requires rest < 0x1000000 && p != 100 && p != 169 && p != 172 && p != 192 && p != 198 && p != 203
    ensures InListedRange(V4(p * 0x1000000 + rest)) <==> WholeBlock(p)
  {
  }

  lemma PartBlocks(p: Octet, q: Octet, r: Octet, t: Octet)
    requires p == 100 || p == 169 || p == 172 || p == 192 || p == 198 || p == 203
    ensures InListedRange(V4(((p * 256 + q) * 256 + r) * 256 + t)) <==> PartBlock(p, q, r)
  {
  }

  // An IPv4 address is permitted exactly by its bytes.
  lemma IPv4Verdict(p: Octet, q: Octet, r: Octet, t: Octet)
    ensures Permitted(V4(((p * 256 + q) * 256 + r) * 256 + t)) <==> !WholeBlock(p) && !PartBlock(p, q, r)
  {
    if p == 100 || p == 169 || p == 172 || p == 192 || p == 198 || p == 203 {
      PartBlocks(p, q, r, t);
    } else {
      WholeBlocks(p, (q * 256 + r) * 256 + t);
    }
  }

  // An IPv6 address that is not IPv4-mapped keeps its own verdict, which its first
  // group decides, but for :: and ::1.
  lemma IPv6Verdict(m: Nat128)
    requires m / 0x1_0000_0000 != 0xFFFF
    ensures var g := m / 0x1_0000_0000_0000_0000_0000_0000_0000;
      Permitted(V6(m)) <==> m > 1 && !(0xFC00 <= g < 0xFE00) && !(0xFE80 <= g < 0xFEC0) && g < 0xFF00
  {
    GroupBounds(m);
  }

  // An IPv4-mapped address gets the verdict of the IPv4 address inside it.
  lemma MappedVerdict(n: Nat32)
    ensures Unmap(V6(0xFFFF * 0x1_0000_0000 + n)) == V4(n)
    ensures Permitted(V6(0xFFFF * 0x1_0000_0000 + n)) <==> Permitted(V4(n))
  {
    var m := 0xFFFF * W32 + n;
    assert m / W32 == 0xFFFF && m % W32 == n;
  }

  // ---- Hosts --------------------------------------------------------------------------

  const DNS_FAILURE := BrowserError(DNSFailure, DestinationNotValidated)

  // What is known about a host: whether its name is forbidden, the address it
  // spells out, and the resolver's answer, None if the lookup failed.
  datatype Host = Host(forbidden: bool, literal: Option<Addr>, answer: Option<seq<Addr>>)

  predicate AllPermitted(addrs: seq<Addr>) { forall i :: 0 <= i < |addrs| ==> Permitted(addrs[i]) }

  // A host is reachable exactly when its name is not forbidden and every address
  // a connection could use is permitted; only a resolver's failure is reported
  // as such.
  method ResolveAndValidateHost(h: Host) returns (err: MaybeError)
    ensures err.None? <==>
      && !h.forbidden
      && match h.literal
         case Some(a) => Permitted(a)
         case None => h.answer.Some? && h.answer.value != [] && AllPermitted(h.answer.value)
    ensures err == Some(DNS_FAILURE) <==> !h.forbidden && h.literal.None? && (h.answer.None? || h.answer.value == [])
    ensures err.Some? ==> err == Some(DNS_FAILURE) || err == Some(BLOCKED_NETWORK)
  {
    if h.forbidden {
      return Some(BLOCKED_NETWORK);
    }
    if h.literal.Some? {
      err := ValidateAddr(h.literal.value);
      return;
    }
    if h.answer.None? || h.answer.value == [] {
      return Some(DNS_FAILURE);
    }
    var addrs := h.answer.value;
    for i := 0 to |addrs|
      invariant AllPermitted(addrs[..i])
    {
      var e := ValidateAddr(addrs[i]);
      if e.Some? {
        assert !Permitted(addrs[i]);
        return e;
      }
      assert addrs[..i + 1] == addrs[..i] + [addrs[i]];
    }
    assert addrs[..|addrs|] == addrs;
    return None;
  }
}
