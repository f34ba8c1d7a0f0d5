/** The part of Python's `ipaddress` module the network helpers rely on: `IPv4Address` from
    dotted-decimal text, `IPv4Network` from "address/mask" text (the mask a prefix length, a
    netmask or a hostmask), the network's text form, and containment of an address in a
    network. An address is its four octets, most significant first. */
module Ipv4 {
  import opened Wrappers
  import opened Bytes
  import opened Strings

  /** `str(b)` for each byte. */
  function Decimals(bs: seq<byte>): (r: seq<string>)
    ensures |r| == |bs|
    ensures forall k :: 0 <= k < |r| ==> r[k] == NatToString(bs[k])
  {
    if |bs| == 0 then [] else [NatToString(bs[0])] + Decimals(bs[1..])
  }

  /** The octets in decimal, joined by ".": the text `str(IPv4Address)` gives. */
  function DottedDecimal(bs: seq<byte>): string { Join(Decimals(bs), ".") }

  type Addr = bs: seq<byte> | |bs| == 4 witness [0, 0, 0, 0]

  /** One field of a dotted address: one to three ASCII digits, no leading zero unless the
      field is "0" alone, and a value of at most 255; anything else raises ValueError. */
  function ParseOctet(s: string): (r: Result<byte>)
    ensures r.Err? ==> r.error == ValueError
    ensures r.Ok? <==> IsDigits(s) && |s| <= 3 && (|s| > 1 ==> s[0] != '0') && DigitsValue(s) < 256
    ensures r.Ok? ==> r.value == DigitsValue(s)
  {
    if IsDigits(s) && |s| <= 3 && (|s| > 1 ==> s[0] != '0') && DigitsValue(s) < 256 then
      Ok(DigitsValue(s))
    else Err(ValueError)
  }

  /** Every field parsed in turn, up to the first one rejected. */
  function ParseOctets(parts: seq<string>): (r: Result<seq<byte>>)
    ensures r.Err? ==> r.error == ValueError
    ensures r.Ok? <==> forall k :: 0 <= k < |parts| ==> ParseOctet(parts[k]).Ok?
    ensures r.Ok? ==> |r.value| == |parts|
    ensures r.Ok? ==> forall k :: 0 <= k < |parts| ==> ParseOctet(parts[k]) == Ok(r.value[k])
  {
    if |parts| == 0 then Ok([])
    else
      match ParseOctet(parts[0])
      case Err(e) => Err(e)
      case Ok(first) =>
        assert forall k :: 1 <= k < |parts| ==> parts[k] == parts[1..][k - 1];
        match ParseOctets(parts[1..])
        case Err(e) => Err(e)
        case Ok(rest) => Ok([first] + rest)
  }

  /** `IPv4Address(s)`: exactly four "."-separated fields, each a valid octet; otherwise
      ValueError (its subclass AddressValueError). */
  function ParseAddr(s: string): (r: Result<Addr>)
    ensures r.Err? ==> r.error == ValueError
  {
    var parts := Split(s, '.');
    if |parts| != 4 then Err(ValueError)
    else
      match ParseOctets(parts)
      case Err(e) => Err(e)
      case Ok(octets) => Ok(octets)
  }

  /** The text of an octet is a field `IPv4Address` accepts, with that octet's value. */
  lemma OctetText(b: byte)
    ensures ParseOctet(NatToString(b)) == Ok(b)
  {
    NatToStringShort(b);
    NatToStringValue(b);
  }

  lemma {:induction false} ParseOctetsOf(bs: seq<byte>)
    ensures ParseOctets(Decimals(bs)) == Ok(bs)
    decreases |bs|
  {
    if |bs| > 0 {
      OctetText(bs[0]);
      assert Decimals(bs)[1..] == Decimals(bs[1..]);
      ParseOctetsOf(bs[1..]);
      assert [bs[0]] + bs[1..] == bs;
    }
  }

  /** No field of a dotted address holds a "." or a "/". */
  lemma DecimalsPlain(bs: seq<byte>, c: char)
    requires !IsDigitChar(c)
    ensures forall k :: 0 <= k < |Decimals(bs)| ==> c !in Decimals(bs)[k]
  {
    forall k | 0 <= k < |Decimals(bs)| ensures c !in Decimals(bs)[k] {
      NotInDigits(Decimals(bs)[k], c);
    }
  }

  /** `IPv4Address` accepts exactly the canonical dotted-decimal texts: a text parses to an
      address if and only if it is that address's `str()`. */
  lemma ParseAddrIff(s: string, a: Addr)
    ensures ParseAddr(s) == Ok(a) <==> s == DottedDecimal(a)
  {
    if s == DottedDecimal(a) {
      DecimalsPlain(a, '.');
      SplitJoin(Decimals(a), '.');
      ParseOctetsOf(a);
    }
    if ParseAddr(s) == Ok(a) {
      var parts := Split(s, '.');
      forall k | 0 <= k < 4 ensures parts[k] == Decimals(a)[k] {
        NatToStringOfDigits(parts[k]);
      }
      assert parts == Decimals(a);
      JoinSplit(s, '.');
    }
  }

  /** A parsed address text holds neither "/" nor any other non-digit but ".". */
  lemma ParsedPlain(s: string, c: char)
    requires ParseAddr(s).Ok? && !IsDigitChar(c) && c != '.'
    ensures c !in s
  {
    var a := ParseAddr(s).value;
    ParseAddrIff(s, a);
    DecimalsPlain(a, c);
    JoinNotIn(Decimals(a), ".", c);
  }

  // ---------------------------------------------------------------------------
  // Prefix masks

  /** How many of octet k's bits a prefix of `len` bits covers. */
  function OctetBits(len: nat, k: nat): (r: nat)
    ensures r <= 8
  {
    if len <= 8 * k then 0 else if len >= 8 * k + 8 then 8 else len - 8 * k
  }

  /** 2 to the power k, for the exponents an octet needs. */
  function Pow2(k: nat): (r: nat)
    requires k <= 8
    ensures r > 0
  {
    [1, 2, 4, 8, 16, 32, 64, 128, 256][k]
  }

  /** `o & m` where m's top `bits` bits are ones and the rest zeros: the top bits of `o`
      are kept and the low ones cleared. */
  function KeepHigh(o: byte, bits: nat): (r: byte)
    requires bits <= 8
    ensures r <= o
  {
    o - o % Pow2(8 - bits)
  }

  /** `address & netmask` for the netmask of a `len`-bit prefix. */
  function Masked(a: Addr, len: nat): Addr
  {
    [KeepHigh(a[0], OctetBits(len, 0)), KeepHigh(a[1], OctetBits(len, 1)),
     KeepHigh(a[2], OctetBits(len, 2)), KeepHigh(a[3], OctetBits(len, 3))]
  }

  /** The netmask of a `len`-bit prefix: `len` one bits followed by zeros. */
  function Netmask(len: nat): Addr
  {
    Masked([255, 255, 255, 255], len)
  }

  /** `~mask`: each octet's bits inverted. */
  function Flip(m: Addr): Addr
  {
    [255 - m[0], 255 - m[1], 255 - m[2], 255 - m[3]]
  }

  lemma KeepHighTwice(o: byte, bits: nat)
    requires bits <= 8
    ensures KeepHigh(KeepHigh(o, bits), bits) == KeepHigh(o, bits)
  {
    var m := Pow2(8 - bits);
    var q := o / m;
    assert KeepHigh(o, bits) == q * m;
    assert (q * m) % m == 0;
  }

  /** Masking twice with the same prefix is masking once: a network address is its own
      masked form. */
  lemma MaskedTwice(a: Addr, len: nat)
    ensures Masked(Masked(a, len), len) == Masked(a, len)
  {
    KeepHighTwice(a[0], OctetBits(len, 0));
    KeepHighTwice(a[1], OctetBits(len, 1));
    KeepHighTwice(a[2], OctetBits(len, 2));
    KeepHighTwice(a[3], OctetBits(len, 3));
  }

  /** The netmask octet covering `bits` bits: 256 - 2^(8 - bits), strictly growing in bits. */
  lemma MaskOctet(bits: nat)
    requires bits <= 8
    ensures KeepHigh(255, bits) == 256 - Pow2(8 - bits)
  {
  }

  lemma Pow2Grows(i: nat, j: nat)
    requires i < j <= 8
    ensures Pow2(i) < Pow2(j)
    decreases j - i
  {
    if j > i + 1 {
      Pow2Grows(i, j - 1);
    }
  }

  /** A netmask octet covering more bits is larger. */
  lemma MaskOctetGrows(b1: nat, b2: nat)
    requires b1 < b2 <= 8
    ensures KeepHigh(255, b1) < KeepHigh(255, b2)
  {
    MaskOctet(b1);
    MaskOctet(b2);
    Pow2Grows(8 - b2, 8 - b1);
  }

  /** Octet k of a netmask covers `OctetBits(len, k)` bits. */
  lemma NetmaskAt(len: nat, k: nat)
    requires k < 4
    ensures Netmask(len)[k] == KeepHigh(255, OctetBits(len, k))
  {
    if k == 0 {
    } else if k == 1 {
    } else if k == 2 {
    } else {
    }
  }

  /** A longer prefix has a larger netmask octet where the shorter one ends. */
  lemma NetmaskGrows(lo: nat, hi: nat)
    requires lo < hi <= 32
    ensures Netmask(lo)[lo / 8] < Netmask(hi)[lo / 8]
  {
    var k := lo / 8;
    MaskOctetGrows(OctetBits(lo, k), OctetBits(hi, k));
    NetmaskAt(lo, k);
    NetmaskAt(hi, k);
  }

  /** Different prefix lengths up to 32 have different netmasks. */
  lemma NetmaskInjective(p: nat, q: nat)
    requires p <= 32 && q <= 32 && Netmask(p) == Netmask(q)
    ensures p == q
  {
    if p < q {
      NetmaskGrows(p, q);
    } else if q < p {
      NetmaskGrows(q, p);
    }
  }

  /** The first prefix length from `from` to 32 whose netmask is `m`, if there is one. */
  function FindPrefix(m: Addr, from: nat): (r: Option<nat>)
    ensures r.Some? ==> from <= r.value <= 32 && Netmask(r.value) == m
    ensures r.None? ==> forall q :: from <= q <= 32 ==> Netmask(q) != m
    decreases 33 - from
  {
    if from > 32 then None
    else if Netmask(from) == m then Some(from)
    else FindPrefix(m, from + 1)
  }

  /** A netmask is recognised as the prefix length it was built from. */
  lemma FindNetmask(len: nat)
    requires len <= 32
    ensures FindPrefix(Netmask(len), 0) == Some(len)
  {
    var r := FindPrefix(Netmask(len), 0);
    assert r.Some?;
    NetmaskInjective(r.value, len);
  }

  /** The mask text after "/": decimal digits of a value at most 32 are the prefix length;
      otherwise the text must be an address that is a netmask, or failing that a hostmask
      (an inverted netmask); anything else raises ValueError (NetmaskValueError). */
  function MaskPrefix(s: string): (r: Result<nat>)
    ensures r.Err? ==> r.error == ValueError
    ensures r.Ok? ==> r.value <= 32
  {
    if IsDigits(s) && DigitsValue(s) <= 32 then Ok(DigitsValue(s))
    else
      match ParseAddr(s)
      case Err(_) => Err(ValueError)
      case Ok(m) =>
        match FindPrefix(m, 0)
        case Some(p) => Ok(p)
        case None =>
          match FindPrefix(Flip(m), 0)
          case Some(p) => Ok(p)
          case None => Err(ValueError)
  }

  /** What a mask text accepted by `MaskPrefix` means: the prefix length in decimal, or an
      address equal to the netmask of that length or to its inversion. */
  lemma MaskPrefixOk(s: string)
    requires MaskPrefix(s).Ok?
    ensures var p := MaskPrefix(s).value;
      || (IsDigits(s) && DigitsValue(s) == p)
      || ParseAddr(s) == Ok(Netmask(p))
      || (ParseAddr(s).Ok? && Flip(ParseAddr(s).value) == Netmask(p))
    ensures '/' !in s
  {
    if !(IsDigits(s) && DigitsValue(s) <= 32) {
      ParsedPlain(s, '/');
    } else {
      NotInDigits(s, '/');
    }
  }

  /** A dotted address text holds a ".", so it is never a bare prefix length. */
  lemma DottedNotDigits(a: Addr)
    ensures !IsDigits(DottedDecimal(a))
  {
    var parts := Decimals(a);
    assert DottedDecimal(a) == parts[0] + "." + Join(parts[1..], ".");
    assert DottedDecimal(a)[|parts[0]|] == '.';
  }

  /** A dotted netmask text gives its prefix length. */
  lemma MaskPrefixOfNetmask(len: nat)
    requires len <= 32
    ensures MaskPrefix(DottedDecimal(Netmask(len))) == Ok(len)
  {
    DottedNotDigits(Netmask(len));
    ParseAddrIff(DottedDecimal(Netmask(len)), Netmask(len));
    FindNetmask(len);
  }

  /** The decimal text of a prefix length up to 32 gives that length. */
  lemma MaskPrefixOfLength(len: nat)
    requires len <= 32
    ensures MaskPrefix(NatToString(len)) == Ok(len)
  {
    NatToStringValue(len);
  }

  // ---------------------------------------------------------------------------
  // Networks

  /** An `IPv4Network`: its network address and prefix length. */
  datatype Network = Network(address: Addr, prefix: nat)

  /** A network whose address has no bit set past its prefix. */
  predicate Normal(n: Network)
  {
    n.prefix <= 32 && Masked(n.address, n.prefix) == n.address
  }

  /** `IPv4Network(s, strict)`: at most one "/" (ValueError otherwise); the address part is
      parsed, then the mask part (prefix 32 when absent). An address with bits set past the
      prefix raises ValueError when `strict`; otherwise those bits are cleared. */
  function ParseNetwork(s: string, strict: bool): (r: Result<Network>)
    ensures r.Err? ==> r.error == ValueError
    ensures r.Ok? ==> Normal(r.value)
  {
    var parts := Split(s, '/');
    if |parts| > 2 then Err(ValueError)
    else
      match ParseAddr(parts[0])
      case Err(e) => Err(e)
      case Ok(a) =>
        var prefix := if |parts| == 2 then MaskPrefix(parts[1]) else Ok(32);
        match prefix
        case Err(e) => Err(e)
        case Ok(p) =>
          if strict && Masked(a, p) != a then Err(ValueError)
          else MaskedTwice(a, p); Ok(Network(Masked(a, p), p))
  }

  /** `str(network)`: "address/prefix". */
  function Render(n: Network): string
  {
    DottedDecimal(n.address) + "/" + NatToString(n.prefix)
  }

  /** "a/b" splits at its "/" into a and b when neither holds one. */
  lemma SplitPair(a: string, b: string)
    requires '/' !in a && '/' !in b
    ensures Split(a + "/" + b, '/') == [a, b]
  {
    assert Join([a, b], "/") == a + "/" + b;
    SplitJoin([a, b], '/');
  }

  /** The text of a network parses back, even strictly, to the same network. */
  lemma ParseRendered(n: Network)
    requires Normal(n)
    ensures ParseNetwork(Render(n), true) == Ok(n)
  {
    DecimalsPlain(n.address, '/');
    JoinNotIn(Decimals(n.address), ".", '/');
    NotInDigits(NatToString(n.prefix), '/');
    SplitPair(DottedDecimal(n.address), NatToString(n.prefix));
    ParseAddrIff(DottedDecimal(n.address), n.address);
    MaskPrefixOfLength(n.prefix);
  }

  /** `IPv4Network(f"{ip}/{netmask}", strict=False)` for a valid address and mask: the
      address masked to the prefix the mask denotes. */
  lemma ParseAddressMask(ip: string, mask: string)
    requires ParseAddr(ip).Ok? && MaskPrefix(mask).Ok?
    ensures ParseNetwork(ip + "/" + mask, false) ==
      Ok(Network(Masked(ParseAddr(ip).value, MaskPrefix(mask).value), MaskPrefix(mask).value))
  {
    ParsedPlain(ip, '/');
    MaskPrefixOk(mask);
    SplitPair(ip, mask);
  }

  /** `IPv4Network(f"{ip}/{netmask}", strict=False)` succeeds exactly when the address text
      and the mask text are both valid. */
  lemma ParseAddressMaskIff(ip: string, mask: string)
    ensures ParseNetwork(ip + "/" + mask, false).Ok? <==> ParseAddr(ip).Ok? && MaskPrefix(mask).Ok?
  {
    SplitAppend(ip, mask, '/');
    var parts := Split(ip + "/" + mask, '/');
    if |parts| <= 2 {
      assert Split(ip, '/') == [ip] by { JoinSplit(ip, '/'); }
      assert Split(mask, '/') == [mask] by { JoinSplit(mask, '/'); }
    }
    if ParseAddr(ip).Ok? && MaskPrefix(mask).Ok? {
      ParseAddressMask(ip, mask);
    }
  }

  /** `address in network`: the address masked to the network's prefix is its address. */
  predicate Contains(n: Network, a: Addr)
  {
    Masked(a, n.prefix) == n.address
  }

  /** A network contains the address it was built from. */
  lemma ContainsOrigin(a: Addr, len: nat)
    ensures Contains(Network(Masked(a, len), len), a)
  {
  }

  /** `IPv4Address.is_multicast`: membership of 224.0.0.0/4. */
  predicate IsMulticast(a: Addr)
  {
    Contains(Network([224, 0, 0, 0], 4), a)
  }

  /** The multicast block 224.0.0.0/4 is the addresses whose first octet is 224 to 239
      (section 4 of RFC 1112). */
  lemma MulticastRange(a: Addr)
    ensures IsMulticast(a) <==> 224 <= a[0] <= 239
  {
    var q := a[0] / 16;
    assert KeepHigh(a[0], OctetBits(4, 0)) == 16 * q;
    assert Masked(a, 4) == [16 * q, 0, 0, 0];
    assert 224 <= a[0] <= 239 <==> q == 14;
  }
}
