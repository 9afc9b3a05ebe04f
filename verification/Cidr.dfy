/**
 IPv4 allowlists (src/shared/ipAllowlist.js): addresses as 32-bit patterns, ranges matched
 by masks. Splitting an address at its dots and converting each part with Number() happen
 outside; a part is what Number() made of it.
 */
module Cidr {
  import opened Options
  import opened Words

  datatype Number = NotFinite | Finite(value: real)

  // The text of an address and the numbers between its dots.
  datatype Address = Address(text: string, parts: seq<Number>)

  // An allowlist entry: without a slash compared as text; with one, a range and parseInt of
  // what follows the slash.
  datatype Entry = Exact(address: Address) | Range(range: Address, bits: Option<int>)

  // ---------------------------------------------------------------------------
  // 32-bit operators
  // ---------------------------------------------------------------------------

  function Pow2(k: nat): (r: nat)
    ensures r > 0
  {
    if k == 0 then 1 else 2 * Pow2(k - 1)
  }

  function And(a: nat, b: nat): nat {
    if a == 0 || b == 0 then 0 else 2 * And(a / 2, b / 2) + (a % 2) * (b % 2)
  }

  function Or(a: nat, b: nat): nat
    decreases a + b
  {
    if a == 0 then b
    else if b == 0 then a
    else 2 * Or(a / 2, b / 2) + if a % 2 == 1 || b % 2 == 1 then 1 else 0
  }

  /** x without its low k bits, and x with k zero bits appended. */
  function Shr(x: nat, k: nat): nat {
    if k == 0 then x else Shr(x / 2, k - 1)
  }

  function Shl(x: nat, k: nat): nat {
    if k == 0 then x else 2 * Shl(x, k - 1)
  }

  /** The signed value of a 32-bit pattern. */
  function ToInt32(x: int): int {
    var u := ToUint32(x);
    if u >= 0x8000_0000 then u - TWO_32 else u
  }

  /** `x << k`: the shift count is taken modulo 32, the result is signed. */
  function ShiftLeft(x: int, k: nat): int {
    ToInt32(x * Pow2(k % 32))
  }

  /** `a & b`, on the patterns of a and b. */
  function BitAnd(a: int, b: int): int {
    ToInt32(And(ToUint32(a), ToUint32(b)))
  }

  /** `a | b`. */
  function BitOr(a: int, b: int): int {
    ToInt32(Or(ToUint32(a), ToUint32(b)))
  }

  // ---------------------------------------------------------------------------
  // Matching
  // ---------------------------------------------------------------------------

  predicate IsOctet(n: Number) {
    n.Finite? && 0.0 <= n.value <= 255.0
  }

  function IpToInt(ip: Address): Option<nat> {
    var p := ip.parts;
    if |p| != 4 || exists k :: 0 <= k < 4 && !IsOctet(p[k]) then None
    else
      var a, b, c, d := p[0].value.Floor, p[1].value.Floor, p[2].value.Floor, p[3].value.Floor;
      Some(ToUint32(BitOr(BitOr(BitOr(ShiftLeft(a, 24), ShiftLeft(b, 16)), ShiftLeft(c, 8)), d)))
  }

  function Mask(bits: nat): nat
    requires bits <= 32
  {
    if bits == 0 then 0 else ToUint32(ShiftLeft(-1, 32 - bits))
  }

  predicate MatchCidr(ip: Address, entry: Entry) {
    match entry
    case Exact(address) => ip.text == address.text
    case Range(range, bits) =>
      && bits.Some? && 0 <= bits.value <= 32
      && IpToInt(ip).Some? && IpToInt(range).Some?
      && BitAnd(IpToInt(ip).value, Mask(bits.value)) == BitAnd(IpToInt(range).value, Mask(bits.value))
  }

  predicate IsValidIpOrCidr(entry: Entry) {
    match entry
    case Exact(address) => IpToInt(address).Some?
    case Range(range, bits) => bits.Some? && 0 <= bits.value <= 32 && IpToInt(range).Some?
  }

  const MAPPED := "::ffff:"

  /** normalizeIp: an IPv4-mapped address loses its prefix. */
  function NormalizeIp(addr: string): string {
    if MAPPED <= addr then addr[|MAPPED|..] else addr
  }

  /** `remoteAddr` as reported; `parse` splits at the dots and converts. */
  predicate IsIpAllowed(remoteAddr: string, parse: string -> seq<Number>, allowlist: seq<Entry>) {
    var ip := NormalizeIp(remoteAddr);
    allowlist == [] || AnyMatches(Address(ip, parse(ip)), allowlist)
  }

  predicate AnyMatches(ip: Address, allowlist: seq<Entry>) {
    exists k :: 0 <= k < |allowlist| && MatchCidr(ip, allowlist[k])
  }

  // ---------------------------------------------------------------------------
  // Patterns
  // ---------------------------------------------------------------------------

  lemma ModUnique(x: int, q: int, r: nat)
    requires x == q * TWO_32 + r && r < TWO_32
    ensures ToUint32(x) == r
  {
  }

  /** A pattern survives being read as a signed number. */
  lemma SignedPattern(x: nat)
    requires x < TWO_32
    ensures ToUint32(x) == x && ToUint32(ToInt32(x)) == x
    ensures x < 0x8000_0000 ==> ToInt32(x) == x
  {
    ModUnique(x, 0, x);
    ModUnique(x - TWO_32, -1, x);
  }

  /** The signed reading of any integer: 32 bits, the same pattern. */
  lemma SignedIs(x: int)
    ensures -0x8000_0000 <= ToInt32(x) < 0x8000_0000
    ensures ToUint32(ToInt32(x)) == ToUint32(x) && ToUint32(x) == x % 0x1_0000_0000
  {
    SignedPattern(ToUint32(x));
  }

  lemma LowBits(a: nat, b: nat)
    ensures (a % 2) * (b % 2) == if a % 2 == 1 && b % 2 == 1 then 1 else 0
  {
  }

  lemma AndHalf(a: nat, b: nat)
    ensures And(a, b) / 2 == And(a / 2, b / 2)
    ensures And(a, b) % 2 == 1 <==> a % 2 == 1 && b % 2 == 1
  {
    if a == 0 || b == 0 {
      AndZero(a / 2, b / 2);
    } else {
      LowBits(a, b);
      Doubled(And(a, b), And(a / 2, b / 2), (a % 2) * (b % 2));
    }
  }

  lemma Doubled(x: nat, h: nat, bit: nat)
    requires x == 2 * h + bit && bit < 2
    ensures x / 2 == h && x % 2 == bit
  {
  }

  lemma OrHalf(a: nat, b: nat)
    ensures Or(a, b) / 2 == Or(a / 2, b / 2)
    ensures Or(a, b) % 2 == 1 <==> a % 2 == 1 || b % 2 == 1
  {
  }

  /** Each bit of `a & b` and of `a | b` is the and, or the or, of the two bits there. */
  lemma {:induction false} BitOf(a: nat, b: nat, k: nat)
    ensures Shr(And(a, b), k) % 2 == 1 <==> Shr(a, k) % 2 == 1 && Shr(b, k) % 2 == 1
    ensures Shr(Or(a, b), k) % 2 == 1 <==> Shr(a, k) % 2 == 1 || Shr(b, k) % 2 == 1
  {
    hide And, Or;
    AndHalf(a, b);
    OrHalf(a, b);
    if k != 0 {
      BitOf(a / 2, b / 2, k - 1);
    }
  }

  // ---------------------------------------------------------------------------
  // Masks are divisions
  // ---------------------------------------------------------------------------

  lemma {:induction false} Pow2Add(a: nat, b: nat)
    ensures Pow2(a + b) == Pow2(a) * Pow2(b)
  {
    if a != 0 {
      Pow2Add(a - 1, b);
    }
  }

  lemma {:induction false} Pow2Grows(a: nat, b: nat)
    requires a <= b
    ensures Pow2(a) <= Pow2(b)
  {
    if a < b {
      Pow2Grows(a, b - 1);
    }
  }

  lemma {:induction false} MulGap(a: int, b: int, p: nat)
    requires p > 0
    ensures a < b ==> a * p + p <= b * p
    decreases b - a
  {
    if a < b {
      assert b * p == (b - 1) * p + p;
      MulGap(a, b - 1, p);
    }
  }

  lemma DivUnique(x: nat, p: nat, q: nat, r: nat)
    requires p > 0 && x == q * p + r && r < p
    ensures x / p == q
  {
    assert x == (x / p) * p + x % p;
    MulGap(x / p, q, p);
    MulGap(q, x / p, p);
  }

  /** Dropping low bits is dividing by a power of two. */
  lemma {:induction false} ShrIsDivision(x: nat, k: nat)
    ensures Shr(x, k) == x / Pow2(k)
  {
    if k != 0 {
      var h, p := x / 2, Pow2(k - 1);
      ShrIsDivision(h, k - 1);
      var q, r := h / p, h % p;
      assert h == q * p + r;
      assert x == 2 * (q * p) + (2 * r + x % 2);
      assert 2 * (q * p) == q * (2 * p);
      DivUnique(x, 2 * p, q, 2 * r + x % 2);
    }
  }

  lemma {:induction false} ShrTwice(x: nat, j: nat, k: nat)
    ensures Shr(x, j + k) == Shr(Shr(x, j), k)
  {
    if j != 0 {
      ShrTwice(x / 2, j - 1, k);
    }
  }

  lemma {:induction false} ShrZero(x: nat, k: nat)
    requires x < Pow2(k)
    ensures Shr(x, k) == 0
  {
    if k != 0 {
      ShrZero(x / 2, k - 1);
    }
  }

  lemma {:induction false} ShlInjective(a: nat, b: nat, k: nat)
    ensures Shl(a, k) == Shl(b, k) <==> a == b
  {
    if k != 0 {
      ShlInjective(a, b, k - 1);
    }
  }

  lemma {:induction false} ShlShrBelow(x: nat, k: nat)
    ensures Shl(Shr(x, k), k) <= x
  {
    if k != 0 {
      ShlShrBelow(x / 2, k - 1);
    }
  }

  lemma {:induction false} AndOnes(x: nat, n: nat)
    requires x < Pow2(n)
    ensures And(x, Pow2(n) - 1) == x
  {
    if x != 0 {
      assert (Pow2(n) - 1) / 2 == Pow2(n - 1) - 1 && (Pow2(n) - 1) % 2 == 1;
      AndOnes(x / 2, n - 1);
    }
  }

  /** n ones with the low k of them cleared. */
  function HighOnes(n: nat, k: nat): nat
    requires k <= n
  {
    Pow2Grows(k, n);
    Pow2(n) - Pow2(k)
  }

  /** Masking clears the low k bits and nothing else. */
  lemma {:induction false} AndMask(x: nat, n: nat, k: nat)
    requires x < Pow2(n) && k <= n
    ensures And(x, HighOnes(n, k)) == Shl(Shr(x, k), k)
  {
    if k == 0 {
      AndOnes(x, n);
    } else {
      assert HighOnes(n, k) == 2 * HighOnes(n - 1, k - 1);
      AndMask(x / 2, n - 1, k - 1);
      if x == 0 || HighOnes(n, k) == 0 {
        AndZero(x / 2, HighOnes(n - 1, k - 1));
      }
    }
  }

  lemma AndZero(a: nat, b: nat)
    requires a == 0 || b == 0
    ensures And(a, b) == 0
  {
  }

  lemma Pow2At32()
    ensures Pow2(32) == TWO_32
  {
    assert Pow2(8) == 256;
    Pow2Add(8, 8);
    Pow2Add(16, 16);
  }

  /** The mask of the code, special case and all. */
  lemma MaskIs(bits: nat)
    requires bits <= 32
    ensures Mask(bits) == HighOnes(32, 32 - bits)
  {
    Pow2At32();
    Pow2Grows(32 - bits, 32);
    if bits != 0 {
      ShiftedOnes(32 - bits);
    }
  }

  lemma NegativePattern(p: int)
    requires 0 < p <= TWO_32
    ensures ToUint32(ToInt32(-p)) == TWO_32 - p
  {
    hide ToUint32;
    ModUnique(-p, -1, TWO_32 - p);
    SignedPattern(TWO_32 - p);
  }

  /** -1 << k, read as a pattern. */
  lemma ShiftedOnes(k: nat)
    requires k < 32
    ensures ToUint32(ShiftLeft(-1, k)) == TWO_32 - Pow2(k)
  {
    hide ToUint32, ToInt32, Pow2;
    Pow2Grows(k, 32);
    Pow2At32();
    assert k % 32 == k;
    NegativePattern(Pow2(k));
  }

  lemma Masked(x: nat, bits: nat)
    requires x < TWO_32 && bits <= 32
    ensures ToUint32(BitAnd(x, Mask(bits))) == Shl(Shr(x, 32 - bits), 32 - bits)
    ensures BitAnd(x, Mask(bits)) == ToInt32(Shl(Shr(x, 32 - bits), 32 - bits))
  {
    Pow2At32();
    MaskIs(bits);
    AndMask(x, 32, 32 - bits);
    ShlShrBelow(x, 32 - bits);
    SignedPattern(x);
    SignedPattern(Mask(bits));
    SignedPattern(Shl(Shr(x, 32 - bits), 32 - bits));
  }

  /** The signed results differ exactly when the patterns do. */
  lemma MaskedEqual(x: nat, y: nat, bits: nat)
    requires x < TWO_32 && y < TWO_32 && bits <= 32
    ensures BitAnd(x, Mask(bits)) == BitAnd(y, Mask(bits)) <==> Shr(x, 32 - bits) == Shr(y, 32 - bits)
  {
    hide BitAnd, Mask, ToInt32, ToUint32;
    var k := 32 - bits;
    Masked(x, bits);
    Masked(y, bits);
    ShlInjective(Shr(x, k), Shr(y, k), k);
  }

  /**
   A range matches exactly the addresses with the same quotient by 2^(32 - bits), for every
   prefix length from 0 to 32, and nothing for any other.
   */
  lemma MatchIsDivision(ip: Address, range: Address, bits: Option<int>)
    ensures MatchCidr(ip, Range(range, bits)) <==>
            && bits.Some? && 0 <= bits.value <= 32 && IpToInt(ip).Some? && IpToInt(range).Some?
            && IpToInt(ip).value / Pow2(32 - bits.value) == IpToInt(range).value / Pow2(32 - bits.value)
  {
    if bits.Some? && 0 <= bits.value <= 32 && IpToInt(ip).Some? && IpToInt(range).Some? {
      MaskedEqual(IpToInt(ip).value, IpToInt(range).value, bits.value);
      ShrIsDivision(IpToInt(ip).value, 32 - bits.value);
      ShrIsDivision(IpToInt(range).value, 32 - bits.value);
    }
  }

  /** A shorter prefix matches whatever a longer one does. */
  lemma ShorterMatchesMore(ip: Address, range: Address, longer: int, shorter: int)
    requires 0 <= shorter <= longer
    ensures MatchCidr(ip, Range(range, Some(longer))) ==> MatchCidr(ip, Range(range, Some(shorter)))
  {
    if MatchCidr(ip, Range(range, Some(longer))) {
      var x, y := IpToInt(ip).value, IpToInt(range).value;
      MaskedEqual(x, y, longer);
      MaskedEqual(x, y, shorter);
      ShrTwice(x, 32 - longer, longer - shorter);
      ShrTwice(y, 32 - longer, longer - shorter);
    }
  }

  /** /0 matches every address, /32 only the address itself. */
  lemma ExtremePrefixes(ip: Address, range: Address)
    ensures MatchCidr(ip, Range(range, Some(0))) <==> IpToInt(ip).Some? && IpToInt(range).Some?
    ensures MatchCidr(ip, Range(range, Some(32))) <==> IpToInt(ip).Some? && IpToInt(ip) == IpToInt(range)
  {
    if IpToInt(ip).Some? && IpToInt(range).Some? {
      var x, y := IpToInt(ip).value, IpToInt(range).value;
      Pow2At32();
      MaskedEqual(x, y, 0);
      MaskedEqual(x, y, 32);
      ShrZero(x, 32);
      ShrZero(y, 32);
    }
  }

  /** A range is valid exactly when some address matches it: then its own does. */
  lemma ValidIffMatchable(range: Address, bits: Option<int>)
    ensures IsValidIpOrCidr(Range(range, bits)) <==> MatchCidr(range, Range(range, bits))
    ensures !IsValidIpOrCidr(Range(range, bits)) ==> forall ip :: !MatchCidr(ip, Range(range, bits))
  {
  }

  lemma MatchesAdd(ip: Address, some: seq<Entry>, more: seq<Entry>)
    ensures AnyMatches(ip, some + more) <==> AnyMatches(ip, some) || AnyMatches(ip, more)
  {
    if AnyMatches(ip, some) {
      var k :| 0 <= k < |some| && MatchCidr(ip, some[k]);
      assert (some + more)[k] == some[k];
    }
    if AnyMatches(ip, more) {
      var k :| 0 <= k < |more| && MatchCidr(ip, more[k]);
      assert (some + more)[|some| + k] == more[k];
    }
  }

  /**
   An address is admitted by a list exactly if a part of it admits it, the empty list aside,
   which admits everything; and an IPv4-mapped address is admitted exactly if the plain one is.
   */
  lemma AllowlistIsUnion(addr: string, parse: string -> seq<Number>, some: seq<Entry>, more: seq<Entry>)
    ensures some != [] && more != [] ==>
      (IsIpAllowed(addr, parse, some + more) <==> IsIpAllowed(addr, parse, some) || IsIpAllowed(addr, parse, more))
    ensures IsIpAllowed(addr, parse, [])
    ensures forall entry :: IsIpAllowed(addr, parse, [entry]) <==>
              var plain := if "::ffff:" <= addr then addr[7..] else addr;
              MatchCidr(Address(plain, parse(plain)), entry)
    ensures !(MAPPED <= addr) ==> (IsIpAllowed(MAPPED + addr, parse, some) <==> IsIpAllowed(addr, parse, some))
  {
    var ip := NormalizeIp(addr);
    MatchesAdd(Address(ip, parse(ip)), some, more);
    assert (MAPPED + addr)[|MAPPED|..] == addr;
    forall entry
      ensures AnyMatches(Address(ip, parse(ip)), [entry]) <==> MatchCidr(Address(ip, parse(ip)), entry)
    {
      assert [entry][0] == entry;
    }
  }

  // ---------------------------------------------------------------------------
  // Addresses as integers
  // ---------------------------------------------------------------------------

  /** Or of a shifted number and a small one is their sum. */
  lemma {:induction false} OrIsSum(a: nat, b: nat, k: nat)
    requires b < Pow2(k)
    ensures Or(a * Pow2(k), b) == a * Pow2(k) + b
  {
    if b != 0 && a != 0 {
      var x := a * Pow2(k);
      assert x == 2 * (a * Pow2(k - 1));
      assert x > 0;
      OrIsSum(a, b / 2, k - 1);
    }
  }

  /** Signed or not, the operators work on the same patterns. */
  lemma Patterns(x: nat, y: nat)
    requires x < TWO_32 && y < TWO_32 && Or(x, y) < TWO_32
    ensures BitOr(ToInt32(x), ToInt32(y)) == ToInt32(Or(x, y))
  {
    SignedPattern(x);
    SignedPattern(y);
  }

  lemma JoinOctets(a: nat, b: nat, k: nat)
    requires b < Pow2(k) && a * Pow2(k) + b < TWO_32
    ensures BitOr(ToInt32(a * Pow2(k)), ToInt32(b)) == ToInt32(a * Pow2(k) + b)
  {
    OrIsSum(a, b, k);
    Patterns(a * Pow2(k), b);
  }

  lemma SmallPowers()
    ensures Pow2(8) == 0x100 && Pow2(16) == 0x1_0000 && Pow2(24) == 0x100_0000
  {
    assert Pow2(8) == 0x100;
    Pow2Add(8, 8);
    Pow2Add(16, 8);
  }

  lemma Octets(a: nat, b: nat, c: nat, d: nat)
    requires a < 256 && b < 256 && c < 256 && d < 256
    ensures ToUint32(BitOr(BitOr(BitOr(ShiftLeft(a, 24), ShiftLeft(b, 16)), ShiftLeft(c, 8)), d))
            == a * 0x100_0000 + b * 0x1_0000 + c * 0x100 + d
  {
    hide ToInt32, ToUint32, BitOr, Pow2;
    SmallPowers();
    JoinOctets(a, b * 0x1_0000, 24);
    JoinOctets(a * 0x100 + b, c * 0x100, 16);
    JoinOctets(a * 0x1_0000 + b * 0x100 + c, d, 8);
    SignedPattern(d);
    SignedPattern(a * 0x100_0000 + b * 0x1_0000 + c * 0x100 + d);
  }

  /** The integer of an address is its four octets, each rounded down, in base 256. */
  lemma IpToIntIs(ip: Address)
    ensures IpToInt(ip).Some? <==> |ip.parts| == 4 && forall k :: 0 <= k < 4 ==>
              ip.parts[k].Finite? && 0.0 <= ip.parts[k].value <= 255.0
    ensures IpToInt(ip).Some? ==>
      var p := ip.parts;
      IpToInt(ip).value == p[0].value.Floor * 0x100_0000 + p[1].value.Floor * 0x1_0000
                           + p[2].value.Floor * 0x100 + p[3].value.Floor
  {
    if IpToInt(ip).Some? {
      var p := ip.parts;
      Octets(p[0].value.Floor, p[1].value.Floor, p[2].value.Floor, p[3].value.Floor);
    }
  }
}
