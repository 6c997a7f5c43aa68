/**
 * The IPv4 address and network arithmetic the networking code relies on,
 * with the parsing rules of Python's `ipaddress` module
 * (`IPv4Network(text, strict=False)`), its text form, address offsets and
 * the `is_private` test.
 */
module Ipv4 {
  import opened Wrappers
  import opened Text

  const AddressSpace: nat := 0x1_0000_0000

  type Addr = n: nat | n < AddressSpace

  /** The two exceptions `ipaddress` raises for bad network text. */
  datatype IpError = AddressValueError | NetmaskValueError

  /** A network address together with its prefix length. */
  datatype Network = Network(address: Addr, prefixLen: nat)

  function Pow2(k: nat): (r: nat)
    ensures r >= 1
  {
    if k == 0 then 1 else 2 * Pow2(k - 1)
  }

  lemma {:induction false} Pow2AtLeast(k: nat, j: nat)
    requires j <= k
    ensures Pow2(j) <= Pow2(k)
    decreases k
  {
    if j < k {
      Pow2AtLeast(k - 1, j);
    }
  }

  lemma {:induction false} Pow2Split(a: nat, b: nat)
    ensures Pow2(a + b) == Pow2(a) * Pow2(b)
    decreases a
  {
    if a > 0 {
      Pow2Split(a - 1, b);
    }
  }

  /** The powers of two the registry tables and the address space need. */
  lemma Pow2Table()
    ensures Pow2(1) == 2 && Pow2(2) == 4 && Pow2(4) == 16 && Pow2(8) == 256
    ensures Pow2(16) == 65536 && Pow2(17) == 131072 && Pow2(20) == 1048576
    ensures Pow2(24) == 16777216 && Pow2(28) == 268435456 && Pow2(32) == AddressSpace
  {
    assert Pow2(2) == 4;
    Pow2Split(2, 2);
    Pow2Split(4, 4);
    Pow2Split(8, 8);
    Pow2Split(16, 1);
    Pow2Split(16, 4);
    Pow2Split(16, 8);
    Pow2Split(20, 8);
    Pow2Split(16, 16);
  }

  /** The number of addresses in a network of the given prefix length. */
  function HostCount(prefixLen: nat): (r: nat)
    requires prefixLen <= 32
    ensures r >= 1
  {
    Pow2(32 - prefixLen)
  }

  /** The network address is aligned to the network's size. */
  predicate ValidNetwork(n: Network) {
    n.prefixLen <= 32 && n.address % HostCount(n.prefixLen) == 0
  }

  /** The last address of the network (its broadcast address). */
  function Broadcast(n: Network): (b: nat)
    requires n.prefixLen <= 32
    ensures n.address <= b
  {
    n.address + HostCount(n.prefixLen) - 1
  }

  predicate InNetwork(a: nat, n: Network) {
    n.prefixLen <= 32 && n.address <= a <= Broadcast(n)
  }

  /** A network never runs past 255.255.255.255: its size divides the address space. */
  lemma BroadcastIsAddress(n: Network)
    requires ValidNetwork(n)
    ensures Broadcast(n) < AddressSpace
  {
    var size := HostCount(n.prefixLen);
    Pow2Split(32 - n.prefixLen, n.prefixLen);
    Pow2Table();
    AlignedFits(n.address, size, Pow2(n.prefixLen));
  }

  lemma AlignedFits(a: nat, size: nat, count: nat)
    requires size >= 1 && a < size * count && a % size == 0
    ensures a + size <= size * count
  {
    var q := a / size;
    assert a == q * size;
    assert (count - q) * size == size * count - a;
    assert q + 1 <= count;
    assert count * size == (q + 1) * size + (count - q - 1) * size;
    assert (q + 1) * size == a + size;
  }

  /**
   * The first two addresses after the network address (the TAP gateway and
   * the guest) exist and lie inside every network of at least four addresses.
   */
  lemma GatewayAndGuestInside(n: Network)
    requires ValidNetwork(n) && n.prefixLen <= 30
    ensures AddOffset(n.address, 1) == Ok(n.address + 1)
    ensures AddOffset(n.address, 2) == Ok(n.address + 2)
    ensures InNetwork(n.address + 1, n) && InNetwork(n.address + 2, n)
  {
    BroadcastIsAddress(n);
    Pow2AtLeast(32 - n.prefixLen, 2);
    Pow2Table();
  }

  /** `a.b.c.d` as an address. */
  function Dotted(a: nat, b: nat, c: nat, d: nat): Addr
    requires a < 256 && b < 256 && c < 256 && d < 256
  {
    a * 16777216 + b * 65536 + c * 256 + d
  }

  /** `_parse_octet`: ASCII digits only, at most three, no leading zero, at most 255. */
  function ParseOctet(s: string): (r: Option<nat>)
    ensures r.Some? ==> r.value < 256
  {
    if s == "" || !AllDigits(s) || |s| > 3 || (s != "0" && s[0] == '0') then None
    else if DigitsValue(s) > 255 then None
    else Some(DigitsValue(s))
  }

  /**
   * `IPv4Address(text)`: four dot-separated octets. Only canonical text is
   * accepted: an address read from a text prints as that very text.
   */
  function ParseAddress(s: string): (r: Option<Addr>)
    ensures r.Some? ==> FormatAddress(r.value) == s
  {
    var parts := Split(s, '.');
    if |parts| != 4 then None
    else
      match (ParseOctet(parts[0]), ParseOctet(parts[1]), ParseOctet(parts[2]), ParseOctet(parts[3]))
      case (Some(a), Some(b), Some(c), Some(d)) =>
        CanonicalAddress(s, a, b, c, d);
        Some(Dotted(a, b, c, d))
      case _ => None
  }

  /** The octet texts of an accepted address are the printed octets. */
  lemma CanonicalAddress(s: string, a: nat, b: nat, c: nat, d: nat)
    requires |Split(s, '.')| == 4
    requires ParseOctet(Split(s, '.')[0]) == Some(a) && ParseOctet(Split(s, '.')[1]) == Some(b)
    requires ParseOctet(Split(s, '.')[2]) == Some(c) && ParseOctet(Split(s, '.')[3]) == Some(d)
    ensures a < 256 && b < 256 && c < 256 && d < 256
    ensures FormatAddress(Dotted(a, b, c, d)) == s
  {
    var parts := Split(s, '.');
    forall k | 0 <= k < 4 ensures NatToString(DigitsValue(parts[k])) == parts[k] {
      CanonicalDigits(parts[k]);
    }
    DottedOctets(a, b, c, d);
    assert OctetTexts(Dotted(a, b, c, d)) == parts;
    JoinSplit(s, '.');
  }

  /** The octets of `a.b.c.d` are `a`, `b`, `c` and `d`. */
  lemma DottedOctets(a: nat, b: nat, c: nat, d: nat)
    requires a < 256 && b < 256 && c < 256 && d < 256
    ensures var x := Dotted(a, b, c, d);
      x / 16777216 == a && x / 65536 % 256 == b && x / 256 % 256 == c && x % 256 == d
  {
    var x := Dotted(a, b, c, d);
    var low := b * 65536 + c * 256 + d;
    assert x == a * 16777216 + low && low < 16777216;
    assert x / 65536 == a * 256 + b by {
      assert x == (a * 256 + b) * 65536 + (c * 256 + d) && c * 256 + d < 65536;
    }
    assert x / 256 == (a * 256 + b) * 256 + c by {
      assert x == ((a * 256 + b) * 256 + c) * 256 + d;
    }
  }

  /** `str(address)`: dotted decimal. */
  function FormatAddress(a: Addr): string {
    Join(OctetTexts(a), ".")
  }

  function OctetTexts(a: Addr): seq<string> {
    [NatToString(a / 16777216), NatToString(a / 65536 % 256), NatToString(a / 256 % 256), NatToString(a % 256)]
  }

  lemma OctetsRecombine(a: Addr)
    ensures a / 16777216 < 256 && a / 65536 % 256 < 256 && a / 256 % 256 < 256 && a % 256 < 256
    ensures Dotted(a / 16777216, a / 65536 % 256, a / 256 % 256, a % 256) == a
  {
    var x := a / 256;
    var y := x / 256;
    assert a == x * 256 + a % 256;
    assert x == y * 256 + x % 256;
    assert y == y / 256 * 256 + y % 256;
    assert a / 65536 == y by {
      assert a == y * 65536 + (x % 256) * 256 + a % 256;
    }
    assert a / 16777216 == y / 256 by {
      assert a == (y / 256) * 16777216 + (y % 256) * 65536 + (x % 256) * 256 + a % 256;
    }
  }

  lemma OctetRoundTrip(n: nat)
    requires n < 256
    ensures ParseOctet(NatToString(n)) == Some(n)
  {
    NatToStringLength(n);
    NatToStringValue(n);
  }

  lemma DigitsHaveNoSeparator(s: string, c: char)
    requires AllDigits(s) && !IsDigit(c)
    ensures c !in s
  {
  }

  /** Reading back the dotted text of an address gives the address. */
  lemma ParseFormatAddress(a: Addr)
    ensures ParseAddress(FormatAddress(a)) == Some(a)
  {
    var texts := OctetTexts(a);
    forall k | 0 <= k < 4 ensures '.' !in texts[k] {
      DigitsHaveNoSeparator(texts[k], '.');
    }
    SplitJoin(texts, '.');
    OctetsRecombine(a);
    OctetRoundTrip(a / 16777216);
    OctetRoundTrip(a / 65536 % 256);
    OctetRoundTrip(a / 256 % 256);
    OctetRoundTrip(a % 256);
  }

  /** The netmask of a prefix length, as an address. */
  function NetmaskOf(prefixLen: nat): int
    requires prefixLen <= 32
  {
    AddressSpace - HostCount(prefixLen)
  }

  /** `_prefix_from_ip_int`: the prefix length whose netmask is `m`, searching from `p` up. */
  function PrefixOfMask(m: Addr, p: nat): (r: Option<nat>)
    requires p <= 33
    ensures r.Some? ==> r.value <= 32 && NetmaskOf(r.value) == m
    decreases 33 - p
  {
    if p == 33 then None
    else if NetmaskOf(p) == m then Some(p)
    else PrefixOfMask(m, p + 1)
  }

  /**
   * `_make_netmask` for text: a decimal prefix length of at most 32, else a
   * dotted netmask, else a dotted host mask; anything else is a
   * NetmaskValueError.
   */
  function ParseMask(s: string): (r: Result<nat, IpError>)
    ensures r.Ok? ==> r.value <= 32
    ensures r.Err? ==> r.error == NetmaskValueError
  {
    if s != "" && AllDigits(s) && DigitsValue(s) <= 32 then Ok(DigitsValue(s))
    else
      match ParseAddress(s)
      case None => Err(NetmaskValueError)
      case Some(m) =>
        match PrefixOfMask(m, 0)
        case Some(p) => Ok(p)
        case None =>
          match PrefixOfMask(AddressSpace - 1 - m, 0)
          case Some(p) => Ok(p)
          case None => Err(NetmaskValueError)
  }

  /** The address with its host bits cleared. */
  function MaskAddress(a: Addr, prefixLen: nat): (r: Addr)
    requires prefixLen <= 32
    ensures r <= a && r % HostCount(prefixLen) == 0
    ensures a - r < HostCount(prefixLen)
  {
    var size := HostCount(prefixLen);
    RoundDown(a, size);
    a - a % size
  }

  /** Subtracting the remainder gives the largest multiple of `m` not above `a`. */
  lemma RoundDown(a: nat, m: nat)
    requires m >= 1
    ensures 0 <= a - a % m <= a && (a - a % m) % m == 0 && a % m < m
  {
    var q := a / m;
    MultipleMod(q, m);
    assert a - a % m == q * m;
  }

  lemma MultipleMod(q: nat, m: nat)
    requires m >= 1
    ensures (q * m) % m == 0
  {
    var x := q * m;
    var d := q - x / m;
    assert x % m == d * m;
    SmallMultiple(d, m);
  }

  lemma SmallMultiple(d: int, m: nat)
    requires m >= 1 && 0 <= d * m < m
    ensures d == 0
  {
  }

  /**
   * `IPv4Network(text, strict=False)`: more than one `/` or a bad address is
   * an AddressValueError, a bad mask a NetmaskValueError; host bits are
   * cleared, and a missing mask means `/32`.
   */
  function ParseNetwork(s: string): (r: Result<Network, IpError>)
    ensures r.Ok? ==> ValidNetwork(r.value)
  {
    var parts := Split(s, '/');
    if |parts| > 2 then Err(AddressValueError)
    else
      match ParseAddress(parts[0])
      case None => Err(AddressValueError)
      case Some(a) =>
        if |parts| == 1 then Ok(Network(a, 32))
        else
          match ParseMask(parts[1])
          case Err(e) => Err(e)
          case Ok(p) => Ok(Network(MaskAddress(a, p), p))
  }

  /** `str(network)`. */
  function FormatNetwork(n: Network): string
    requires n.prefixLen <= 32
  {
    FormatAddress(n.address) + "/" + NatToString(n.prefixLen)
  }

  /** The text form of a network reads back as the same network. */
  lemma ParseFormatNetwork(n: Network)
    requires ValidNetwork(n)
    ensures ParseNetwork(FormatNetwork(n)) == Ok(n)
  {
    FormatSplitsOnSlash(n);
    ParseFormatAddress(n.address);
    PrefixTextParses(n.prefixLen);
    MaskAligned(n);
  }

  lemma PrefixTextParses(p: nat)
    requires p <= 32
    ensures ParseMask(NatToString(p)) == Ok(p)
  {
    NatToStringValue(p);
  }

  lemma MaskAligned(n: Network)
    requires ValidNetwork(n)
    ensures MaskAddress(n.address, n.prefixLen) == n.address
  {
  }

  lemma FormatSplitsOnSlash(n: Network)
    requires n.prefixLen <= 32
    ensures Split(FormatNetwork(n), '/') == [FormatAddress(n.address), NatToString(n.prefixLen)]
  {
    var a := FormatAddress(n.address);
    var p := NatToString(n.prefixLen);
    forall k | 0 <= k < 4 ensures '/' !in OctetTexts(n.address)[k] {
      DigitsHaveNoSeparator(OctetTexts(n.address)[k], '/');
    }
    JoinKeepsOut(OctetTexts(n.address), ".", '/');
    DigitsHaveNoSeparator(p, '/');
    SplitJoin([a, p], '/');
    assert Join([a, p], "/") == FormatNetwork(n);
  }

  lemma {:induction false} JoinKeepsOut(parts: seq<string>, sep: string, c: char)
    requires c !in sep
    requires forall k :: 0 <= k < |parts| ==> c !in parts[k]
    ensures c !in Join(parts, sep)
    decreases |parts|
  {
    if |parts| > 1 {
      JoinKeepsOut(parts[1..], sep, c);
    }
  }

  /** `address + k`: past 255.255.255.255 is an AddressValueError. */
  function AddOffset(a: Addr, k: nat): (r: Result<Addr, IpError>)
    ensures r.Ok? <==> a + k < AddressSpace
    ensures r.Ok? ==> r.value == a + k
    ensures r.Err? ==> r.error == AddressValueError
  {
    if a + k < AddressSpace then Ok(a + k) else Err(AddressValueError)
  }

  /** The ranges `ipaddress` counts as private (the IANA special-purpose registries). */
  function PrivateNetworks(): seq<Network> {
    [ Network(0, 8)             // 0.0.0.0/8
    , Network(167772160, 8)     // 10.0.0.0/8
    , Network(2130706432, 8)    // 127.0.0.0/8
    , Network(2851995648, 16)   // 169.254.0.0/16
    , Network(2886729728, 12)   // 172.16.0.0/12
    , Network(3221225472, 24)   // 192.0.0.0/24
    , Network(3221225642, 31)   // 192.0.0.170/31
    , Network(3221225984, 24)   // 192.0.2.0/24
    , Network(3232235520, 16)   // 192.168.0.0/16
    , Network(3323068416, 15)   // 198.18.0.0/15
    , Network(3325256704, 24)   // 198.51.100.0/24
    , Network(3405803776, 24)   // 203.0.113.0/24
    , Network(4026531840, 4)    // 240.0.0.0/4
    , Network(4294967295, 32)   // 255.255.255.255/32
    ]
  }

  /** The addresses inside those ranges that are nonetheless not private. */
  function PrivateExceptions(): seq<Network> {
    [ Network(3221225481, 32)   // 192.0.0.9/32
    , Network(3221225482, 32)   // 192.0.0.10/32
    ]
  }

  /**
   * `network.is_private`: both the network address and the broadcast address
   * lie in one private range, and neither is one of the exceptions.
   */
  predicate IsPrivate(n: Network)
    requires ValidNetwork(n)
    ensures IsPrivate(n) ==> n.prefixLen >= 4
  {
    WithinPrivateRange(n);
    var nets := PrivateNetworks();
    var excs := PrivateExceptions();
    && (exists i :: 0 <= i < |nets| && InNetwork(n.address, nets[i]) && InNetwork(Broadcast(n), nets[i]))
    && (forall i :: 0 <= i < |excs| ==> !InNetwork(n.address, excs[i]) && !InNetwork(Broadcast(n), excs[i]))
  }

  /** No network wider than a /4 fits inside one of the private ranges. */
  lemma WithinPrivateRange(n: Network)
    requires ValidNetwork(n)
    ensures forall i :: (0 <= i < |PrivateNetworks()| && InNetwork(n.address, PrivateNetworks()[i])
                         && InNetwork(Broadcast(n), PrivateNetworks()[i])) ==> n.prefixLen >= 4
  {
    var nets := PrivateNetworks();
    forall i | 0 <= i < |nets| && InNetwork(n.address, nets[i]) && InNetwork(Broadcast(n), nets[i])
      ensures n.prefixLen >= 4
    {
      assert nets[i].prefixLen >= 4;
      Pow2AtLeast(28, 32 - nets[i].prefixLen);
      assert HostCount(n.prefixLen) <= HostCount(nets[i].prefixLen);
      Pow2Above(32 - n.prefixLen);
    }
  }

  /** Only exponents up to 28 give powers of two up to 2^28. */
  lemma Pow2Above(k: nat)
    ensures Pow2(k) <= Pow2(28) ==> k <= 28
  {
    if k > 28 {
      Pow2AtLeast(k, 29);
      assert Pow2(29) == 2 * Pow2(28);
    }
  }

  /** The three RFC 1918 blocks, and every network inside one of them, are private. */
  lemma Rfc1918IsPrivate(n: Network, i: nat)
    requires ValidNetwork(n)
    requires i == 1 || i == 4 || i == 8
    requires InNetwork(n.address, PrivateNetworks()[i]) && InNetwork(Broadcast(n), PrivateNetworks()[i])
    ensures IsPrivate(n)
  {
    Pow2Table();
  }

  /** 172.50.0.0/24 lies outside every private range: `is_private` is false for it. */
  lemma DefaultNetworkNotPrivate()
    ensures ValidNetwork(Network(2888957952, 24))
    ensures !IsPrivate(Network(2888957952, 24))
  {
    Pow2Table();
    assert Broadcast(Network(2888957952, 24)) == 2888958207;
  }

  /** `IPv4Network("172.50.0.0/24", strict=False)` is that network. */
  lemma DefaultNetworkParses()
    ensures ParseNetwork("172.50.0.0/24") == Ok(Network(2888957952, 24))
  {
    Pow2Table();
    DefaultNetworkText();
    ParseFormatNetwork(Network(2888957952, 24));
  }

  lemma DefaultNetworkText()
    ensures FormatNetwork(Network(2888957952, 24)) == "172.50.0.0/24"
  {
    DefaultOctets();
    assert NatToString(172) == "172" by {
      assert NatToString(17) == "17";
    }
    assert NatToString(50) == "50";
    assert NatToString(24) == "24";
    assert NatToString(0) == "0";
    DefaultAddressText();
  }

  lemma DefaultAddressText()
    ensures Join(["172", "50", "0", "0"], ".") == "172.50.0.0"
  {
    assert Join(["0", "0"], ".") == "0.0";
    assert Join(["50", "0", "0"], ".") == "50.0.0";
  }

  lemma DefaultOctets()
    ensures OctetTexts(2888957952) == [NatToString(172), NatToString(50), NatToString(0), NatToString(0)]
  {
    var a := 2888957952;
    assert a / 16777216 == 172;
    assert a / 65536 == 44082;
    assert a / 65536 % 256 == 50;
    assert a / 256 == 11284992;
    assert a / 256 % 256 == 0;
    assert a % 256 == 0;
  }
}
