/**
 * IPv4 networks in prefix notation (section 3.1 of RFC 4632), as Python's
 * `ipaddress` module reads, splits and prints them: `ip_network(text)` with
 * strict host-bit checking, `net.subnets(new_prefix=p)` and `str(net)`.
 */
module Ipv4 {
  import opened Wrappers
  import opened Strings

  /** 2 to the power `n`. */
  function Pow2(n: nat): (r: nat)
    ensures r >= 1
  {
    if n == 0 then 1 else 2 * Pow2(n - 1)
  }

  lemma {:induction false} Pow2Add(a: nat, b: nat)
    ensures Pow2(a + b) == Pow2(a) * Pow2(b)
  {
    if a > 0 {
      Pow2Add(a - 1, b);
    }
  }

  /** Number of IPv4 addresses. */
  const AddressCount: nat := 0x1_0000_0000

  lemma AddressCountIsPow2()
    ensures Pow2(32) == AddressCount
  {
    assert Pow2(8) == 256;
    Pow2Add(8, 8);
    Pow2Add(16, 16);
  }

  lemma MulMono(a: nat, b: nat, s: nat)
    requires a <= b
    ensures a * s <= b * s
  {
  }

  lemma MulSucc(a: nat, s: nat)
    ensures (a + 1) * s == a * s + s
  {
  }

  lemma MulMod(q: nat, s: nat)
    requires s > 0
    ensures (q * s) % s == 0
  {
    var x := q * s;
    var d: int := q - x / s;
    assert d * s == x % s;
    if d >= 1 {
      MulMono(1, d, s);
    }
  }

  /** A multiple of `k * s` is a multiple of `s`. */
  lemma AlignedToFactor(x: nat, k: nat, s: nat)
    requires s > 0 && k > 0 && x % (k * s) == 0
    ensures x % s == 0
  {
    var m := x / (k * s);
    assert x == (m * k) * s;
    MulMod(m * k, s);
  }

  /** Below a multiple of `b`, a multiple of `b` leaves room for a whole block of `b`. */
  lemma AlignedBelow(x: nat, b: nat, lim: nat)
    requires b > 0 && x % b == 0 && lim % b == 0 && x < lim
    ensures x + b <= lim
  {
    var m, n := x / b, lim / b;
    assert x == m * b && lim == n * b;
    if m >= n {
      MulMono(n, m, b);
    }
    MulMono(m + 1, n, b);
  }

  /** A network: its first address and its prefix length. */
  datatype Network = Network(base: nat, len: nat)

  /** Number of addresses in a network with prefix length `len`. */
  function BlockSize(len: nat): (r: nat)
    requires len <= 32
    ensures r >= 1
  {
    Pow2(32 - len)
  }

  lemma BlockSizeBound(len: nat)
    requires len <= 32
    ensures BlockSize(len) <= AddressCount
  {
    Pow2Add(len, 32 - len);
    AddressCountIsPow2();
    MulMono(1, Pow2(len), BlockSize(len));
  }

  /** A network Python would accept: prefix length at most 32, an address, no host bits set. */
  predicate Valid(n: Network) {
    n.len <= 32 && n.base < AddressCount && n.base % BlockSize(n.len) == 0
  }

  /** One past the last address of a network. */
  function End(n: Network): nat
    requires n.len <= 32
  {
    n.base + BlockSize(n.len)
  }

  predicate Within(inner: Network, outer: Network)
    requires inner.len <= 32 && outer.len <= 32
  {
    outer.base <= inner.base && End(inner) <= End(outer)
  }

  predicate Disjoint(a: Network, b: Network)
    requires a.len <= 32 && b.len <= 32
  {
    End(a) <= b.base || End(b) <= a.base
  }

  /** A valid network lies inside the address space. */
  lemma ValidEnd(n: Network)
    requires Valid(n)
    ensures End(n) <= AddressCount
  {
    AddressCountIsPow2();
    Pow2Add(n.len, 32 - n.len);
    MulMod(Pow2(n.len), BlockSize(n.len));
    AlignedBelow(n.base, BlockSize(n.len), AddressCount);
  }

  /**
   * `net.subnets(new_prefix=p)`: the networks of prefix length `p` inside
   * `net`, in ascending address order.
   */
  function Subnets(net: Network, p: nat): (blocks: seq<Network>)
    requires Valid(net) && net.len <= p <= 32
    ensures |blocks| == Pow2(p - net.len)
  {
    seq(Pow2(p - net.len), i requires 0 <= i < Pow2(p - net.len) => Block(net, p, i))
  }

  /** The `i`-th network of prefix length `p` counting from the base of `net`. */
  function Block(net: Network, p: nat, i: nat): Network
    requires p <= 32
  {
    Network(net.base + i * BlockSize(p), p)
  }

  /** Blocks of size `b` laid from `base`: the `i`-th ends before the `j`-th starts. */
  lemma BlockOffsetsOrdered(base: nat, b: nat, i: nat, j: nat)
    requires i < j
    ensures base + i * b + b <= base + j * b
  {
    MulSucc(i, b);
    MulMono(i + 1, j, b);
  }

  /** The `i`-th of `k` blocks of size `b` laid from an aligned base is aligned and inside. */
  lemma BlockOffsetInside(base: nat, k: nat, b: nat, i: nat)
    requires b > 0 && i < k && base % (k * b) == 0
    ensures (base + i * b) % b == 0
    ensures base + i * b + b <= base + k * b
  {
    AlignedToFactor(base, k, b);
    var m := base / b;
    assert base == m * b;
    assert base + i * b == (m + i) * b;
    MulMod(m + i, b);
    BlockOffsetsOrdered(base, b, i, k);
  }

  /** The `i`-th block of prefix length `p` from a valid `net` is a valid network inside it. */
  lemma BlockInside(net: Network, p: nat, i: nat)
    requires Valid(net) && net.len <= p <= 32 && i < Pow2(p - net.len)
    ensures var s := Block(net, p, i); Valid(s) && Within(s, net)
  {
    var k, b := Pow2(p - net.len), BlockSize(p);
    BlockSizeSplit(net.len, p);
    ValidEnd(net);
    BlockWithinLimit(net.base, k, b, i, AddressCount);
  }

  /** A network of prefix length `len` holds `2^(p - len)` blocks of prefix length `p`. */
  lemma BlockSizeSplit(len: nat, p: nat)
    requires len <= p <= 32
    ensures BlockSize(len) == Pow2(p - len) * BlockSize(p)
  {
    Pow2Add(p - len, 32 - p);
    assert p - len + (32 - p) == 32 - len;
  }

  /** The `i`-th of `k` blocks of size `b` from an aligned base below `lim` is aligned, inside and below `lim`. */
  lemma BlockWithinLimit(base: nat, k: nat, b: nat, i: nat, lim: nat)
    requires b > 0 && i < k && base % (k * b) == 0 && base + k * b <= lim
    ensures (base + i * b) % b == 0 && base + i * b + b <= base + k * b && base + i * b < lim
  {
    BlockOffsetInside(base, k, b, i);
  }

  /** The `i`-th subnet is a valid network of prefix length `p` inside `net`. */
  lemma SubnetInside(net: Network, p: nat, i: nat)
    requires Valid(net) && net.len <= p <= 32 && i < Pow2(p - net.len)
    ensures var s := Subnets(net, p)[i]; s.len == p && Valid(s) && Within(s, net)
  {
    BlockInside(net, p, i);
    assert Subnets(net, p)[i] == Block(net, p, i);
  }

  /** A later subnet starts no earlier than an earlier one ends. */
  lemma SubnetsOrdered(net: Network, p: nat, i: nat, j: nat)
    requires Valid(net) && net.len <= p <= 32 && i < j < Pow2(p - net.len)
    ensures var s := Subnets(net, p); End(s[i]) <= s[j].base && Disjoint(s[i], s[j])
  {
    BlockOffsetsOrdered(net.base, BlockSize(p), i, j);
    assert Subnets(net, p)[i] == Block(net, p, i);
    assert Subnets(net, p)[j] == Block(net, p, j);
  }

  /**
   * The subnets tile the network: each is valid and inside it, the first
   * starts at its base, each starts where the previous one ends, and the last
   * ends where the network ends; so they are pairwise disjoint and ascending.
   */
  lemma SubnetsTile(net: Network, p: nat)
    requires Valid(net) && net.len <= p <= 32
    ensures var s := Subnets(net, p);
      && (forall i :: 0 <= i < |s| ==> s[i].len == p && Valid(s[i]) && Within(s[i], net))
      && s[0].base == net.base
      && (forall i :: 0 <= i < |s| - 1 ==> End(s[i]) == s[i + 1].base)
      && End(s[|s| - 1]) == End(net)
      && (forall i, j :: 0 <= i < j < |s| ==> End(s[i]) <= s[j].base && Disjoint(s[i], s[j]))
  {
    var s := Subnets(net, p);
    forall i | 0 <= i < |s|
      ensures s[i].len == p && Valid(s[i]) && Within(s[i], net)
    {
      SubnetInside(net, p, i);
    }
    forall i, j | 0 <= i < j < |s|
      ensures End(s[i]) <= s[j].base && Disjoint(s[i], s[j])
    {
      SubnetsOrdered(net, p, i, j);
    }
    forall i | 0 <= i < |s| - 1
      ensures End(s[i]) == s[i + 1].base
    {
      SubnetsAdjacent(net, p, i);
    }
    SubnetsCover(net, p);
  }

  /** Each subnet starts where the previous one ends. */
  lemma SubnetsAdjacent(net: Network, p: nat, i: nat)
    requires Valid(net) && net.len <= p <= 32 && i + 1 < Pow2(p - net.len)
    ensures var s := Subnets(net, p); End(s[i]) == s[i + 1].base
  {
    MulSucc(i, BlockSize(p));
    assert Subnets(net, p)[i] == Block(net, p, i);
    assert Subnets(net, p)[i + 1] == Block(net, p, i + 1);
  }

  /** The first subnet starts at the network's base and the last ends where the network ends. */
  lemma SubnetsCover(net: Network, p: nat)
    requires Valid(net) && net.len <= p <= 32
    ensures var s := Subnets(net, p); s[0].base == net.base && End(s[|s| - 1]) == End(net)
  {
    var k, b := Pow2(p - net.len), BlockSize(p);
    Pow2Add(p - net.len, 32 - p);
    MulSucc(k - 1, b);
    assert Subnets(net, p)[0] == Block(net, p, 0);
    assert Subnets(net, p)[k - 1] == Block(net, p, k - 1);
  }

  /** Python's `ipaddress` parsing outcome for an IPv4 network text. */
  datatype Parsed = Parsed(net: Network) | HostBitsSet | Malformed

  /** One decimal octet: 1 to 3 ASCII digits, no leading zero, at most 255. */
  function ParseOctet(s: string): (r: Option<nat>)
    ensures r.Some? ==> r.value < 256
  {
    if !IsAsciiDigits(s) || |s| > 3 || (s != "0" && s[0] == '0') then None
    else if DecimalValue(s) > 255 then None
    else Some(DecimalValue(s))
  }

  /** Four octets, most significant first, as one address. */
  function FromOctets(o0: nat, o1: nat, o2: nat, o3: nat): (a: nat)
    requires o0 < 256 && o1 < 256 && o2 < 256 && o3 < 256
    ensures a < AddressCount
  {
    ((o0 * 256 + o1) * 256 + o2) * 256 + o3
  }

  /** An address in dotted-quad form: exactly four octets separated by `.`. */
  function ParseAddress(s: string): (r: Option<nat>)
    ensures r.Some? ==> r.value < AddressCount
  {
    var parts := Split(s, '.');
    if |parts| != 4 then None
    else
      match (ParseOctet(parts[0]), ParseOctet(parts[1]), ParseOctet(parts[2]), ParseOctet(parts[3]))
      case (Some(o0), Some(o1), Some(o2), Some(o3)) => Some(FromOctets(o0, o1, o2, o3))
      case _ => None
  }

  /** The mask of prefix length `p`: `p` one bits then zeros, or, as a hostmask, the complement. */
  function Mask(p: nat, host: bool): nat
    requires p <= 32
  {
    BlockSizeBound(p);
    if host then BlockSize(p) - 1 else AddressCount - BlockSize(p)
  }

  /** The least prefix length from `p` upward whose mask is `m`. */
  function FindMask(m: nat, host: bool, p: nat): (r: Option<nat>)
    requires p <= 33
    ensures r.Some? ==> p <= r.value <= 32 && Mask(r.value, host) == m
    ensures r.None? ==> forall q :: p <= q <= 32 ==> Mask(q, host) != m
    decreases 33 - p
  {
    if p > 32 then None
    else if Mask(p, host) == m then Some(p)
    else FindMask(m, host, p + 1)
  }

  /**
   * The text after `/`: a decimal prefix length of at most 32, else a dotted
   * netmask, else a dotted hostmask.
   */
  function ParsePrefix(s: string): (r: Option<nat>)
    ensures r.Some? ==> r.value <= 32
  {
    if IsAsciiDigits(s) && DecimalValue(s) <= 32 then Some(DecimalValue(s))
    else
      match ParseAddress(s)
      case None => None
      case Some(m) =>
        match FindMask(m, false, 0)
        case Some(p) => Some(p)
        case None => FindMask(m, true, 0)
  }

  /** `IPv4Network(text)` with `strict=True`. */
  function ParseNetwork(s: string): (r: Parsed)
    ensures r.Parsed? ==> Valid(r.net)
  {
    var parts := Split(s, '/');
    if |parts| > 2 then Malformed
    else
      match ParseAddress(parts[0])
      case None => Malformed
      case Some(a) =>
        var prefix := if |parts| == 1 then Some(32) else ParsePrefix(parts[1]);
        match prefix
        case None => Malformed
        case Some(p) => if a % BlockSize(p) == 0 then Parsed(Network(a, p)) else HostBitsSet
  }

  /** The four octets of an address, most significant first. */
  function Octets(a: nat): (o: seq<nat>)
    requires a < AddressCount
    ensures |o| == 4 && forall i :: 0 <= i < 4 ==> o[i] < 256
  {
    var q1 := a / 256;
    var q2 := q1 / 256;
    [q2 / 256, q2 % 256, q1 % 256, a % 256]
  }

  /** `str(address)`: the dotted-quad text. */
  function FormatAddress(a: nat): string
    requires a < AddressCount
  {
    var o := Octets(a);
    Join([NatToString(o[0]), NatToString(o[1]), NatToString(o[2]), NatToString(o[3])], '.')
  }

  /** `str(net)`: address, `/`, decimal prefix length. */
  function Format(n: Network): string
    requires n.len <= 32 && n.base < AddressCount
  {
    Join([FormatAddress(n.base), NatToString(n.len)], '/')
  }

  /** The printed octet is read back as the same octet. */
  lemma ParseOctetFormat(v: nat)
    requires v < 256
    ensures ParseOctet(NatToString(v)) == Some(v)
  {
    DecimalOfNatToString(v);
  }

  /** The octets of an address put back together give the address. */
  lemma FromOctetsOfOctets(a: nat)
    requires a < AddressCount
    ensures var o := Octets(a); FromOctets(o[0], o[1], o[2], o[3]) == a
  {
  }

  /** The printed address is read back as the same address. */
  lemma ParseAddressFormat(a: nat)
    requires a < AddressCount
    ensures ParseAddress(FormatAddress(a)) == Some(a)
    ensures '/' !in FormatAddress(a)
  {
    var o := Octets(a);
    var parts := [NatToString(o[0]), NatToString(o[1]), NatToString(o[2]), NatToString(o[3])];
    forall i | 0 <= i < 4
      ensures '.' !in parts[i] && '/' !in parts[i]
    {
      DigitsExclude(parts[i], '.');
      DigitsExclude(parts[i], '/');
    }
    SplitJoin(parts, '.');
    JoinExcludes(parts, '.', '/');
    ParseOctetFormat(o[0]);
    ParseOctetFormat(o[1]);
    ParseOctetFormat(o[2]);
    ParseOctetFormat(o[3]);
    FromOctetsOfOctets(a);
  }

  /** Printing a valid network and parsing the text gives the same network back. */
  lemma ParseFormat(n: Network)
    requires Valid(n)
    ensures ParseNetwork(Format(n)) == Parsed(n)
  {
    var addr, len := FormatAddress(n.base), NatToString(n.len);
    ParseAddressFormat(n.base);
    DigitsExclude(len, '/');
    SplitJoin([addr, len], '/');
    DecimalOfNatToString(n.len);
    assert ParsePrefix(len) == Some(n.len);
  }

  /** Distinct valid networks print differently. */
  lemma FormatInjective(m: Network, n: Network)
    requires Valid(m) && Valid(n) && Format(m) == Format(n)
    ensures m == n
  {
    ParseFormat(m);
    ParseFormat(n);
  }
}
