/** IPv4 address arithmetic of src/mcstat/net.py: dotted-quad parsing, the
    `ip/bits` masks of `cidr_to_mask`, `matches_cidr` and `is_multicast`.

    Python's integers are unbounded, but every value these functions build
    fits in 32 bits (the parsed address is below 2^32 and the shifts only
    clear bits), so the masks are computed on `bv32` without loss. */
module Net {
  import opened Text
  import opened Bits

  /** The exceptions the functions of net.py can raise. `OSError` is what
      `socket.inet_aton` raises (`socket.error` is its alias). */
  datatype Error = ValueError | OSError | AssertionError

  datatype Result<T> = Ok(value: T) | Err(error: Error)

  const TwoTo32: nat := 0x1_0000_0000

  /** One decimal octet: one to three digits without a leading zero, at most
      255. */
  function ParseOctet(s: string): (r: Option<nat>)
    ensures r.Some? ==> r.value < 256
  {
    if s != [] && AllDigits(s) && (|s| == 1 || s[0] != '0') && DigitsValue(s) < 256 then
      Some(DigitsValue(s))
    else None
  }

  function ParseOctets(parts: seq<string>): (r: Option<seq<nat>>)
    ensures r.Some? ==> |r.value| == |parts| && forall k :: 0 <= k < |r.value| ==> r.value[k] < 256
  {
    if parts == [] then Some([])
    else match (ParseOctet(parts[0]), ParseOctets(parts[1..]))
      case (Some(b), Some(rest)) => Some([b] + rest)
      case _ => None
  }

  /** `socket.inet_aton(addr)`: the four bytes of a dotted quad, or None for
      OSError. */
  function InetAton(addr: string): (r: Option<seq<nat>>)
    ensures r.Some? ==> |r.value| == 4 && forall k :: 0 <= k < 4 ==> r.value[k] < 256
  {
    var parts := Split(addr, '.');
    if |parts| == 4 then ParseOctets(parts) else None
  }

  /** Text that `inet_aton` accepts holds only digits and dots. */
  lemma AddressChars(addr: string)
    requires InetAton(addr).Some?
    ensures forall k :: 0 <= k < |addr| ==> IsDigit(addr[k]) || addr[k] == '.'
  {
    var parts := Split(addr, '.');
    SplitJoin(addr, '.');
    OctetsDigits(parts);
    JoinDigits(parts, '.');
  }

  lemma {:induction false} OctetsDigits(parts: seq<string>)
    requires ParseOctets(parts).Some?
    ensures forall p :: p in parts ==> AllDigits(p)
    decreases |parts|
  {
    if parts != [] {
      OctetsDigits(parts[1..]);
      forall p | p in parts ensures AllDigits(p) {
        if p != parts[0] {
          assert p in parts[1..];
        }
      }
    }
  }

  /** `struct.unpack(">L", bytes)[0]` and its generalisation to any length:
      big-endian, most significant byte first. */
  function Unpack(b: seq<nat>): nat
    decreases |b|
  {
    if b == [] then 0 else 256 * Unpack(b[..|b| - 1]) + b[|b| - 1]
  }

  /** `struct.pack(">L", n)` for `len == 4`: the `len` low bytes of `n`,
      most significant first. */
  function Pack(n: nat, len: nat): (b: seq<nat>)
    ensures |b| == len && forall k :: 0 <= k < len ==> b[k] < 256
  {
    if len == 0 then [] else Pack(n / 256, len - 1) + [n % 256]
  }

  function Pow256(len: nat): nat {
    if len == 0 then 1 else 256 * Pow256(len - 1)
  }

  /** `dotted_ip_to_int(addr)`. */
  function DottedIpToInt(addr: string): (r: Result<nat>)
    ensures r.Ok? ==> r.value < TwoTo32
    ensures r.Err? <==> InetAton(addr).None?
    ensures r.Err? ==> r.error == OSError
  {
    match InetAton(addr)
    case None => Err(OSError)
    case Some(b) =>
      UnpackFour(b);
      Ok(Unpack(b))
  }

  /** Four bytes read big-endian are `a*2^24 + b*2^16 + c*2^8 + d`, below 2^32. */
  lemma UnpackFour(b: seq<nat>)
    requires |b| == 4 && forall k :: 0 <= k < 4 ==> b[k] < 256
    ensures Unpack(b) == b[0] * 0x100_0000 + b[1] * 0x1_0000 + b[2] * 0x100 + b[3]
    ensures Unpack(b) < TwoTo32
  {
    var b3, b2, b1 := b[..3], b[..2], b[..1];
    assert b3[..2] == b2 && b2[..1] == b1 && b1[..0] == [];
    assert Unpack(b1) == b[0];
    assert Unpack(b2) == 256 * b[0] + b[1];
    assert Unpack(b3) == 0x1_0000 * b[0] + 256 * b[1] + b[2];
  }

  /** Unpacking the bytes of a value that fits gives the value back. */
  lemma {:induction false} PackUnpack(n: nat, len: nat)
    requires n < Pow256(len)
    ensures Unpack(Pack(n, len)) == n
  {
    if len > 0 {
      PackUnpack(n / 256, len - 1);
      assert Pack(n, len)[..len - 1] == Pack(n / 256, len - 1);
    }
  }

  /** Packing the value of some bytes gives those bytes back, and that value
      fits in as many bytes. */
  lemma {:induction false} UnpackPack(b: seq<nat>)
    requires forall k :: 0 <= k < |b| ==> b[k] < 256
    ensures Unpack(b) < Pow256(|b|)
    ensures Pack(Unpack(b), |b|) == b
    decreases |b|
  {
    if b != [] {
      var init := b[..|b| - 1];
      UnpackPack(init);
      var n := Unpack(b);
      assert n / 256 == Unpack(init) && n % 256 == b[|b| - 1];
      assert init + [b[|b| - 1]] == b;
    }
  }

  /** `str(o)` for an octet reads back as that octet. */
  lemma OctetText(o: nat)
    requires o < 256
    ensures ParseOctet(NatText(o)) == Some(o)
  {
    NatTextValue(o);
  }

  /** The decimal texts of some numbers. */
  function Texts(ns: seq<nat>): (r: seq<string>)
    ensures |r| == |ns|
    ensures forall k :: 0 <= k < |ns| ==> r[k] == NatText(ns[k])
  {
    if ns == [] then [] else [NatText(ns[0])] + Texts(ns[1..])
  }

  /** The dotted-quad text of some bytes, as `socket.inet_ntoa` writes it. */
  function DottedQuad(b: seq<nat>): string {
    Join(Texts(b), '.')
  }

  /** Octet texts read back as their octets. */
  lemma {:induction false} OctetTexts(b: seq<nat>)
    requires forall k :: 0 <= k < |b| ==> b[k] < 256
    ensures ParseOctets(Texts(b)) == Some(b)
    decreases |b|
  {
    if b != [] {
      OctetText(b[0]);
      OctetTexts(b[1..]);
      assert Texts(b)[0] == NatText(b[0]) && Texts(b)[1..] == Texts(b[1..]);
      assert [b[0]] + b[1..] == b;
    }
  }

  lemma NumbersHaveNoDot(b: seq<nat>)
    ensures forall p :: p in Texts(b) ==> '.' !in p && '/' !in p
  {
    forall p | p in Texts(b) ensures '.' !in p && '/' !in p {
      assert AllDigits(p);
    }
  }

  /** `inet_aton("a.b.c.d")` gives back the bytes `a`, `b`, `c`, `d`. */
  lemma InetAtonQuad(b: seq<nat>)
    requires |b| == 4 && forall k :: 0 <= k < 4 ==> b[k] < 256
    ensures InetAton(DottedQuad(b)) == Some(b)
  {
    NumbersHaveNoDot(b);
    JoinSplit(Texts(b), '.');
    OctetTexts(b);
  }

  /** `dotted_ip_to_int("a.b.c.d") == a*2^24 + b*2^16 + c*2^8 + d`. */
  lemma DottedValue(a: nat, b: nat, c: nat, d: nat)
    requires a < 256 && b < 256 && c < 256 && d < 256
    ensures DottedIpToInt(DottedQuad([a, b, c, d])) == Ok(a * 0x100_0000 + b * 0x1_0000 + c * 0x100 + d)
  {
    InetAtonQuad([a, b, c, d]);
    UnpackFour([a, b, c, d]);
  }

  /** Every 32-bit value, written as a dotted quad, parses back to itself. */
  lemma DottedRoundTrip(n: nat)
    requires n < TwoTo32
    ensures DottedIpToInt(DottedQuad(Pack(n, 4))) == Ok(n)
  {
    InetAtonQuad(Pack(n, 4));
    assert Pow256(4) == TwoTo32;
    PackUnpack(n, 4);
  }

  /** `cidr_to_mask(cidr)`: the address with its low `bits` bits cleared and
      the mask that clears them. `bits` is the number of host bits, not the
      prefix length. The steps fail in order: a text that is not exactly
      one `/` (ValueError from unpacking the split), an address inet_aton
      rejects (OSError), a suffix int() rejects (ValueError), a count
      outside 0..32 (AssertionError). */
  function CidrToMask(cidr: string): (r: Result<(bv32, bv32)>)
    ensures |Split(cidr, '/')| != 2 ==> r == Err(ValueError)
  {
    var parts := Split(cidr, '/');
    if |parts| != 2 then Err(ValueError)
    else match DottedIpToInt(parts[0])
      case Err(e) => Err(e)
      case Ok(ip) =>
        match ParseInt(parts[1])
        case None => Err(ValueError)
        case Some(bits) => Masks(ip, bits)
  }

  /** The last two steps of `cidr_to_mask`, once both pieces parsed: the
      assertion on `bits` and the two shifts. */
  function Masks(ip: nat, bits: int): (r: Result<(bv32, bv32)>)
    requires ip < TwoTo32
    ensures r.Ok? <==> 0 <= bits <= 32
    ensures r.Err? ==> r.error == AssertionError
    ensures r.Ok? ==> r.value.0 & r.value.1 == r.value.0
  {
    if !(0 <= bits < 33) then Err(AssertionError)
    else
      var n := Word(bits);
      ClearLowMasked(Word(ip), n);
      Ok((ClearLow(Word(ip), n), ClearLow(0xffff_ffff, n)))
  }

  /** The pieces of a cidr text that parses: its address and its bit count. */
  predicate Parses(cidr: string, ip: nat, bits: int) {
    var parts := Split(cidr, '/');
    |parts| == 2 && DottedIpToInt(parts[0]) == Ok(ip) && ParseInt(parts[1]) == Some(bits)
  }

  /** `cidr_to_mask` fails in the order its steps run, and once both pieces
      parse it is the assertion and the shifts. */
  lemma CidrSteps(cidr: string)
    ensures var parts := Split(cidr, '/');
      |parts| == 2 ==>
        && (InetAton(parts[0]).None? ==> CidrToMask(cidr) == Err(OSError))
        && (InetAton(parts[0]).Some? && ParseInt(parts[1]).None? ==> CidrToMask(cidr) == Err(ValueError))
        && (InetAton(parts[0]).Some? && ParseInt(parts[1]).Some? ==>
              CidrToMask(cidr) == Masks(DottedIpToInt(parts[0]).value, ParseInt(parts[1]).value))
  {
  }

  /** `cidr_to_mask` succeeds on `address/bits` exactly when
      `0 <= bits <= 32`, and then its mask has the low `bits` bits clear
      and the high `32 - bits` set, and its value is the address with the
      low `bits` bits cleared. */
  lemma CidrMaskBits(cidr: string, ip: nat, bits: int)
    requires Parses(cidr, ip, bits)
    ensures CidrToMask(cidr).Ok? <==> 0 <= bits <= 32
    ensures !(0 <= bits <= 32) ==> CidrToMask(cidr) == Err(AssertionError)
    ensures CidrToMask(cidr).Ok? ==>
      var (value, mask) := CidrToMask(cidr).value;
      forall i: bv32 :: i < 32 ==>
        && (Bit(mask, i) <==> i as int >= bits)
        && (Bit(value, i) <==> i as int >= bits && Bit(Word(ip), i))
  {
    CidrSteps(cidr);
    if 0 <= bits <= 32 {
      MatchesParsed(cidr, ip, bits);
      MaskBits(ip, bits);
    }
  }

  lemma MaskBits(ip: nat, bits: nat)
    requires ip < TwoTo32 && bits <= 32
    ensures forall i: bv32 :: i < 32 ==>
      && (Bit(ClearLow(0xffff_ffff, Word(bits)), i) <==> i as int >= bits)
      && (Bit(ClearLow(Word(ip), Word(bits)), i) <==> i as int >= bits && Bit(Word(ip), i))
  {
    var n := Word(bits);
    forall i: bv32 | i < 32
      ensures Bit(ClearLow(0xffff_ffff, n), i) <==> i as int >= bits
      ensures Bit(ClearLow(Word(ip), n), i) <==> i as int >= bits && Bit(Word(ip), i)
    {
      ClearLowBits(Word(ip), n, i);
      WordCompare(i, bits);
    }
  }

  /** `matches_cidr(addr, cidr)`: a malformed `cidr` raises, an unparsable
      `addr` does not match. */
  function MatchesCidr(addr: string, cidr: string): (r: Result<bool>)
    ensures CidrToMask(cidr).Err? ==> r == Err(CidrToMask(cidr).error)
    ensures CidrToMask(cidr).Ok? && InetAton(addr).None? ==> r == Ok(false)
    ensures CidrToMask(cidr).Ok? && DottedIpToInt(addr).Ok? ==>
      var (value, mask) := CidrToMask(cidr).value;
      r == Ok(Masked(Word(DottedIpToInt(addr).value), mask, value))
  {
    match CidrToMask(cidr)
    case Err(e) => Err(e)
    case Ok((value, mask)) => Ok(InNetwork(addr, value, mask))
  }

  /** The `try` block of `matches_cidr` and its comparison: an address that
      does not parse is outside every network. */
  predicate InNetwork(addr: string, value: bv32, mask: bv32) {
    match DottedIpToInt(addr)
    case Err(_) => false
    case Ok(ip) => Masked(Word(ip), mask, value)
  }

  /** An address matches `ip/bits` exactly when it parses and agrees with
      `ip` on every bit but the low `bits`. */
  lemma MatchesHighBits(addr: string, cidr: string, ip: nat, bits: int)
    requires Parses(cidr, ip, bits) && 0 <= bits <= 32
    ensures MatchesCidr(addr, cidr) == Ok(true) <==>
      DottedIpToInt(addr).Ok? && High(Word(DottedIpToInt(addr).value), Word(bits)) == High(Word(ip), Word(bits))
  {
    MatchesParsed(cidr, ip, bits);
    if DottedIpToInt(addr).Ok? {
      SameHighBits(Word(DottedIpToInt(addr).value), Word(ip), Word(bits));
    }
  }

  lemma MatchesParsed(cidr: string, ip: nat, bits: int)
    requires Parses(cidr, ip, bits) && 0 <= bits <= 32
    ensures CidrToMask(cidr) == Ok((ClearLow(Word(ip), Word(bits)), ClearLow(0xffff_ffff, Word(bits))))
  {
    CidrSteps(cidr);
  }

  const MulticastCidr: string := "224.0.0.0/28"

  /** `is_multicast(addr)`. */
  function IsMulticast(addr: string): bool {
    MatchesCidr(addr, MulticastCidr) == Ok(true)
  }

  /** "224.0.0.0/28" parses to the mask 0xF0000000 and the value 0xE0000000,
      so `is_multicast` never raises. */
  lemma MulticastMask()
    ensures CidrToMask(MulticastCidr) == Ok((0xE000_0000, 0xF000_0000))
  {
    MulticastCidrText();
    MulticastUnpack();
    CidrOfBytes([224, 0, 0, 0], 28, 0xE000_0000);
    MulticastShifts();
  }

  lemma MulticastUnpack()
    ensures Unpack([224, 0, 0, 0]) == 0xE000_0000
  {
    UnpackFour([224, 0, 0, 0]);
  }

  /** `cidr_to_mask("a.b.c.d/bits")` for a count of at most 32, where
      `ip` is the value of the bytes. */
  lemma CidrOfBytes(b: seq<nat>, bits: nat, ip: nat)
    requires |b| == 4 && forall k :: 0 <= k < 4 ==> b[k] < 256
    requires bits <= 32 && ip == Unpack(b) < TwoTo32
    ensures CidrToMask(DottedQuad(b) + "/" + NatText(bits)) ==
      Ok((ClearLow(Word(ip), Word(bits)), ClearLow(0xffff_ffff, Word(bits))))
  {
    CidrParses(b, bits);
    MatchesParsed(DottedQuad(b) + "/" + NatText(bits), ip, bits);
  }

  /** "224.0.0.0/28" is the text of the bytes 224, 0, 0, 0 and the count 28. */
  lemma MulticastCidrText()
    ensures MulticastCidr == DottedQuad([224, 0, 0, 0]) + "/" + NatText(28)
  {
    MulticastText();
    assert NatText(28) == "28";
  }

  /** `a.b.c.d/bits` parses to the value of the bytes and the count. */
  lemma CidrParses(b: seq<nat>, bits: nat)
    requires |b| == 4 && forall k :: 0 <= k < 4 ==> b[k] < 256
    ensures Parses(DottedQuad(b) + "/" + NatText(bits), Unpack(b), bits)
  {
    var address := DottedQuad(b);
    var parts := [address, NatText(bits)];
    NumbersHaveNoDot(b);
    forall p | p in Texts(b) ensures AllDigits(p) {
    }
    JoinDigits(Texts(b), '.');
    assert '/' !in address;
    JoinSplit(parts, '/');
    assert Join(parts, '/') == address + "/" + NatText(bits);
    InetAtonQuad(b);
    IntTextRoundTrip(bits);
  }

  lemma MulticastText()
    ensures DottedQuad([224, 0, 0, 0]) == "224.0.0.0"
  {
    QuadText([224, 0, 0, 0]);
    ThreeDigits(224);
  }

  /** The dotted-quad text of four bytes: their decimal texts with dots
      between. */
  lemma QuadText(b: seq<nat>)
    requires |b| == 4
    ensures DottedQuad(b) == NatText(b[0]) + "." + NatText(b[1]) + "." + NatText(b[2]) + "." + NatText(b[3])
  {
    var t := Texts(b);
    assert t[3..][1..] == [] && t[2..][1..] == t[3..] && t[1..][1..] == t[2..];
    assert Join(t[3..], '.') == t[3];
    assert Join(t[2..], '.') == t[2] + "." + t[3];
    assert Join(t[1..], '.') == t[1] + "." + t[2] + "." + t[3];
  }

  /** The text of a three-digit number. */
  lemma ThreeDigits(n: nat)
    requires 100 <= n < 1000
    ensures NatText(n) == [DigitChar(n / 100), DigitChar(n / 10 % 10), DigitChar(n % 10)]
  {
    var m := n / 10;
    assert m / 10 == n / 100;
    assert NatText(m) == [DigitChar(m / 10), DigitChar(m % 10)];
  }

  /** `is_multicast` accepts exactly the addresses 224.0.0.0 to
      239.255.255.255: those whose top four bits are 1110, whose first
      octet is 224 to 239. */
  lemma MulticastRange(addr: string)
    ensures IsMulticast(addr) <==>
      DottedIpToInt(addr).Ok? && 0xE000_0000 <= DottedIpToInt(addr).value < 0xF000_0000
    ensures IsMulticast(addr) <==>
      InetAton(addr).Some? && 224 <= InetAton(addr).value[0] <= 239
  {
    MulticastNetwork(addr);
    match InetAton(addr)
    case None =>
    case Some(b) =>
      UnpackFour(b);
      TopNibble(Unpack(b));
  }

  lemma MulticastNetwork(addr: string)
    ensures IsMulticast(addr) == InNetwork(addr, 0xE000_0000, 0xF000_0000)
  {
    MulticastMask();
  }

  /** The examples of src/mcstat/tests/test_net.py. */
  lemma MulticastExamples()
    ensures IsMulticast("224.0.0.0")
    ensures IsMulticast("239.0.0.0")
    ensures !IsMulticast("240.0.0.0")
    ensures !IsMulticast("223.255.255.255")
  {
    Example224();
    Example239();
    Example240();
    Example223();
  }

  lemma Example224()
    ensures IsMulticast("224.0.0.0")
  {
    MulticastText();
    FirstOctet("224.0.0.0", [224, 0, 0, 0]);
  }

  lemma Example239()
    ensures IsMulticast("239.0.0.0")
  {
    QuadText([239, 0, 0, 0]);
    ThreeDigits(239);
    FirstOctet("239.0.0.0", [239, 0, 0, 0]);
  }

  lemma Example240()
    ensures !IsMulticast("240.0.0.0")
  {
    QuadText([240, 0, 0, 0]);
    ThreeDigits(240);
    FirstOctet("240.0.0.0", [240, 0, 0, 0]);
  }

  lemma Example223()
    ensures !IsMulticast("223.255.255.255")
  {
    Text223();
    FirstOctet("223.255.255.255", [223, 255, 255, 255]);
  }

  lemma Text223()
    ensures DottedQuad([223, 255, 255, 255]) == "223.255.255.255"
  {
    QuadText([223, 255, 255, 255]);
    ThreeDigits(223);
    ThreeDigits(255);
  }

  lemma FirstOctet(text: string, b: seq<nat>)
    requires |b| == 4 && forall k :: 0 <= k < 4 ==> b[k] < 256
    requires text == DottedQuad(b)
    ensures IsMulticast(text) <==> 224 <= b[0] <= 239
  {
    InetAtonQuad(b);
    MulticastRange(text);
  }
}
