/**
 * The VPN network module (src/network/network.module.ts): the address and prefix a new
 * network gets from its options, the node table of a network (one address per node id),
 * and the legacy NetworkService exercised by tests/unit/network_service.test.ts.
 *
 * IPv4 addresses are 32-bit numbers; their text form is the dotted-decimal quad.
 */
module Networks {
  import opened Wrappers
  import opened Strings

  const AddressCount: nat := 0x1_0000_0000

  type Ip = n: nat | n < 0x1_0000_0000

  /** A CIDR prefix length. */
  type Prefix = p: nat | p <= 32

  const DefaultAddress := "192.168.0.0"
  const DefaultPrefixText := "24"

  // ---------------------------------------------------------------------------
  // Dotted-decimal text

  function FromOctets(a: nat, b: nat, c: nat, d: nat): (ip: Ip)
    requires a < 256 && b < 256 && c < 256 && d < 256
  {
    a * 0x100_0000 + b * 0x1_0000 + c * 0x100 + d
  }

  /** The four octets of an address, most significant first. */
  function OctetsOf(ip: Ip): (o: seq<nat>)
    ensures |o| == 4 && o[0] < 256 && o[1] < 256 && o[2] < 256 && o[3] < 256
    ensures FromOctets(o[0], o[1], o[2], o[3]) == ip
  {
    var q1 := ip / 256;
    var q2 := q1 / 256;
    [q2 / 256, q2 % 256, q1 % 256, ip % 256]
  }

  /** `toString()`: the four octets in decimal, joined by dots. */
  function FormatIpv4(ip: Ip): (s: string)
  {
    var o := OctetsOf(ip);
    JoinDots([NatToDecimal(o[0]), NatToDecimal(o[1]), NatToDecimal(o[2]), NatToDecimal(o[3])])
  }

  /** One octet: a non-empty run of digits worth at most 255. */
  function ParseOctet(s: string): (r: Option<nat>)
    ensures r.Some? ==> r.value < 256
  {
    if |s| > 0 && (forall k :: 0 <= k < |s| ==> IsDigit(s[k])) && DecimalValue(s) < 256 then Some(DecimalValue(s))
    else None
  }

  /** `IPv4.fromString`: four octets separated by dots; anything else is refused. */
  function ParseIpv4(s: string): (r: Option<Ip>)
    ensures r.Some? ==> |SplitOn(s, '.')| == 4
  {
    var parts := SplitOn(s, '.');
    if |parts| != 4 then None
    else
      var a, b, c, d := ParseOctet(parts[0]), ParseOctet(parts[1]), ParseOctet(parts[2]), ParseOctet(parts[3]);
      if a.Some? && b.Some? && c.Some? && d.Some? then Some(FromOctets(a.value, b.value, c.value, d.value))
      else None
  }

  lemma DigitsHaveNoDot(s: string)
    requires forall k :: 0 <= k < |s| ==> IsDigit(s[k])
    ensures '.' !in s
  {
  }

  lemma OctetRoundTrip(n: nat)
    requires n < 256
    ensures ParseOctet(NatToDecimal(n)) == Some(n)
  {
    DecimalRoundTrip(n);
  }

  /** `pieces.join(".")` */
  function JoinDots(pieces: seq<string>): string
    requires |pieces| >= 1
  {
    if |pieces| == 1 then pieces[0] else pieces[0] + ['.'] + JoinDots(pieces[1..])
  }

  /** Dot-free pieces joined by dots split back into the same pieces. */
  lemma {:induction false} SplitJoinDots(pieces: seq<string>)
    requires |pieces| >= 1 && forall k :: 0 <= k < |pieces| ==> '.' !in pieces[k]
    ensures SplitOn(JoinDots(pieces), '.') == pieces
  {
    if |pieces| == 1 {
      SplitOnFree(pieces[0], '.');
    } else {
      SplitJoinDots(pieces[1..]);
      SplitOnJoin(pieces[0], '.', JoinDots(pieces[1..]));
      assert pieces == [pieces[0]] + pieces[1..];
    }
  }

  /** The text of an address splits at its dots into the four octets' digits. */
  lemma FormatSplits(ip: Ip)
    ensures var o := OctetsOf(ip);
            SplitOn(FormatIpv4(ip), '.') == [NatToDecimal(o[0]), NatToDecimal(o[1]), NatToDecimal(o[2]), NatToDecimal(o[3])]
  {
    var o := OctetsOf(ip);
    var pieces := [NatToDecimal(o[0]), NatToDecimal(o[1]), NatToDecimal(o[2]), NatToDecimal(o[3])];
    forall k | 0 <= k < 4
      ensures '.' !in pieces[k]
    {
      DigitsHaveNoDot(pieces[k]);
    }
    SplitJoinDots(pieces);
  }

  /** Parsing the text of an address gives the address back. */
  lemma ParseFormatRoundTrip(ip: Ip)
    ensures ParseIpv4(FormatIpv4(ip)) == Some(ip)
  {
    var o := OctetsOf(ip);
    var parts := SplitOn(FormatIpv4(ip), '.');
    FormatSplits(ip);
    OctetRoundTrip(o[0]);
    OctetRoundTrip(o[1]);
    OctetRoundTrip(o[2]);
    OctetRoundTrip(o[3]);
    assert ParseOctet(parts[0]) == Some(o[0]) && ParseOctet(parts[1]) == Some(o[1]);
    assert ParseOctet(parts[2]) == Some(o[2]) && ParseOctet(parts[3]) == Some(o[3]);
  }

  /** Distinct addresses have distinct texts, since parsing a formatted address recovers it. */
  lemma FormatIsInjective(a: Ip, b: Ip)
    requires FormatIpv4(a) == FormatIpv4(b)
    ensures a == b
  {
    ParseFormatRoundTrip(a);
    ParseFormatRoundTrip(b);
  }

  // ---------------------------------------------------------------------------
  // CIDR ranges (prefix notation of RFC 4632, section 3.1)

  function Pow2(k: nat): (r: nat)
    ensures r >= 1
  {
    if k == 0 then 1 else 2 * Pow2(k - 1)
  }

  lemma {:induction false} Pow2Monotone(j: nat, k: nat)
    requires j <= k
    ensures Pow2(j) <= Pow2(k)
  {
    if j < k {
      Pow2Monotone(j, k - 1);
    }
  }

  lemma {:induction false} Pow2Divides(j: nat, k: nat)
    requires j <= k
    ensures Pow2(k) % Pow2(j) == 0
    ensures Pow2(k) == Pow2(k - j) * Pow2(j)
  {
    Pow2Product(k - j, j);
    MulModZero(Pow2(k - j), Pow2(j));
  }

  lemma {:induction false} Pow2Product(i: nat, j: nat)
    ensures Pow2(i + j) == Pow2(i) * Pow2(j)
  {
    if i > 0 {
      Pow2Product(i - 1, j);
      var p := Pow2(i - 1) * Pow2(j);
      assert Pow2(i + j) == 2 * p;
      assert Pow2(i) * Pow2(j) == 2 * p;
    }
  }

  lemma MulModZero(q: nat, b: nat)
    requires b > 0
    ensures (q * b) % b == 0
  {
    DivUnique(q * b, b, q, 0);
  }

  lemma {:induction false} MulMonotone(a: nat, c: nat, b: nat)
    requires a <= c
    ensures a * b <= c * b
  {
    if a < c {
      MulMonotone(a, c - 1, b);
    }
  }

  /** Division by a positive number is the unique quotient with a remainder below it. */
  lemma DivUnique(x: nat, b: nat, q: nat, r: nat)
    requires b > 0 && x == q * b + r && r < b
    ensures x / b == q && x % b == r
  {
    var q', r' := x / b, x % b;
    assert x == q' * b + r';
    if q' < q {
      MulMonotone(q' + 1, q, b);
      assert false;
    } else if q' > q {
      MulMonotone(q + 1, q', b);
      assert false;
    }
  }

  lemma DivFloor(x: nat, b: nat)
    requires b > 0
    ensures x / b * b <= x < x / b * b + b
  {
    assert x == x / b * b + x % b;
  }

  lemma Pow2Of32()
    ensures Pow2(32) == AddressCount
  {
    assert Pow2(8) == 256;
    assert Pow2(16) == 65536;
    assert Pow2(24) == 16777216;
  }

  /** Number of addresses in a range with the given prefix. */
  function BlockSize(prefix: Prefix): (n: nat)
    ensures 1 <= n <= AddressCount
  {
    Pow2Monotone(32 - prefix, 32);
    Pow2Of32();
    Pow2(32 - prefix)
  }

  /** The mask of a prefix: its leading `prefix` bits set. */
  function PrefixToMask(prefix: Prefix): Ip
  {
    AddressCount - BlockSize(prefix)
  }

  /** `IPv4Mask.fromDecimalDottedString(..).prefix`: the prefix whose mask it is, if any. */
  function MaskToPrefix(mask: Ip): (r: Option<Prefix>)
    ensures r.Some? ==> PrefixToMask(r.value) == mask
    ensures r.None? ==> forall p: Prefix :: PrefixToMask(p) != mask
  {
    MaskToPrefixFrom(mask, 0)
  }

  function MaskToPrefixFrom(mask: Ip, p: Prefix): (r: Option<Prefix>)
    ensures r.Some? ==> PrefixToMask(r.value) == mask
    ensures r.None? ==> forall q: Prefix :: p <= q ==> PrefixToMask(q) != mask
    decreases 32 - p
  {
    if PrefixToMask(p) == mask then Some(p)
    else if p == 32 then None
    else MaskToPrefixFrom(mask, p + 1)
  }

  /** `getFirst()` of the range: the address with the bits after the prefix cleared. */
  function FirstAddress(ip: Ip, prefix: Prefix): Ip
  {
    RoundDown(ip, BlockSize(prefix))
  }

  /** x rounded down to a multiple of b. */
  function RoundDown(x: nat, b: nat): (r: nat)
    requires b > 0
    ensures r <= x
  {
    DivFloor(x, b);
    x / b * b
  }

  predicate InRange(first: Ip, prefix: Prefix, x: Ip)
  {
    first <= x < first + BlockSize(prefix)
  }

  /** The first address starts a block of the prefix's size, and the given address lies in that block. */
  lemma FirstAddressOfRange(ip: Ip, prefix: Prefix)
    ensures FirstAddress(ip, prefix) % BlockSize(prefix) == 0
    ensures InRange(FirstAddress(ip, prefix), prefix, ip)
    ensures FirstAddress(ip, prefix) + BlockSize(prefix) <= AddressCount
  {
    var b := BlockSize(prefix);
    var q := ip / b;
    var first := FirstAddress(ip, prefix);
    assert first == q * b;
    MulModZero(q, b);
    DivFloor(ip, b);
    BlockFits(q, prefix);
  }

  /** A block starting at or below the last address ends within the address space. */
  lemma BlockFits(q: nat, prefix: Prefix)
    requires q * BlockSize(prefix) < AddressCount
    ensures q * BlockSize(prefix) + BlockSize(prefix) <= AddressCount
  {
    var b := BlockSize(prefix);
    Pow2Divides(32 - prefix, 32);
    Pow2Of32();
    var blocks := Pow2(prefix);
    assert AddressCount == blocks * b;
    if q >= blocks {
      MulMonotone(blocks, q, b);
      assert false;
    }
    MulMonotone(q + 1, blocks, b);
    MulSucc(q, b);
  }

  lemma MulSucc(q: nat, b: nat)
    ensures (q + 1) * b == q * b + b
  {
  }

  /** Every address of a range names the same range. */
  lemma FirstAddressOfMember(first: Ip, prefix: Prefix, x: Ip)
    requires first % BlockSize(prefix) == 0 && InRange(first, prefix, x)
    ensures FirstAddress(x, prefix) == first
  {
    var b := BlockSize(prefix);
    var q := first / b;
    assert first == q * b + first % b;
    assert first == q * b;
    DivUnique(x, b, q, x - first);
    assert FirstAddress(x, prefix) == q * b;
  }

  /** Splitting the number built from four octets gives those octets back, in order. */
  lemma OctetsOfFromOctets(a: nat, b: nat, c: nat, d: nat)
    requires a < 256 && b < 256 && c < 256 && d < 256
    ensures OctetsOf(FromOctets(a, b, c, d)) == [a, b, c, d]
  {
    var x := FromOctets(a, b, c, d);
    DivUnique(x, 256, a * 0x1_0000 + b * 0x100 + c, d);
    DivUnique(x / 256, 256, a * 0x100 + b, c);
    DivUnique(x / 256 / 256, 256, a, b);
  }

  /** The text of the address with the given octets. */
  lemma FormatOctets(a: nat, b: nat, c: nat, d: nat)
    requires a < 256 && b < 256 && c < 256 && d < 256
    ensures FormatIpv4(FromOctets(a, b, c, d)) == NatToDecimal(a) + "." + (NatToDecimal(b) + "." + (NatToDecimal(c) + "." + NatToDecimal(d)))
  {
    OctetsOfFromOctets(a, b, c, d);
    JoinDots4(NatToDecimal(a), NatToDecimal(b), NatToDecimal(c), NatToDecimal(d));
  }

  lemma JoinDots4(p0: string, p1: string, p2: string, p3: string)
    ensures JoinDots([p0, p1, p2, p3]) == p0 + "." + (p1 + "." + (p2 + "." + p3))
  {
    var pieces := [p0, p1, p2, p3];
    assert pieces[1..] == [p1, p2, p3];
    assert pieces[1..][1..] == [p2, p3];
    assert pieces[1..][1..][1..] == [p3];
    assert JoinDots([p2, p3]) == p2 + "." + p3;
    assert JoinDots([p1, p2, p3]) == p1 + "." + (p2 + "." + p3);
    assert JoinDots(pieces) == p0 + "." + (p1 + "." + (p2 + "." + p3));
  }

  lemma SmallDecimals()
    ensures NatToDecimal(0) == "0" && NatToDecimal(1) == "1" && NatToDecimal(2) == "2"
    ensures NatToDecimal(168) == "168" && NatToDecimal(192) == "192" && NatToDecimal(255) == "255"
  {
    assert NatToDecimal(16) == "16";
    assert NatToDecimal(19) == "19";
    assert NatToDecimal(25) == "25";
  }

  lemma Block24()
    ensures BlockSize(24) == 256
  {
    assert Pow2(8) == 256;
  }

  /** The mask of prefix 24 is 255.255.255.0. */
  lemma Prefix24Mask()
    ensures FormatIpv4(PrefixToMask(24)) == "255.255.255.0"
  {
    Block24();
    assert PrefixToMask(24) == FromOctets(255, 255, 255, 0);
    FormatOctets(255, 255, 255, 0);
    MaskText();
  }

  lemma MaskText()
    ensures NatToDecimal(255) + "." + (NatToDecimal(255) + "." + (NatToDecimal(255) + "." + NatToDecimal(0))) == "255.255.255.0"
  {
    SmallDecimals();
  }

  /** The text of 192.168.0.n for the first three n. */
  lemma DefaultRangeText()
    ensures FormatIpv4(FromOctets(192, 168, 0, 0)) == "192.168.0.0"
    ensures FormatIpv4(FromOctets(192, 168, 0, 1)) == "192.168.0.1"
    ensures FormatIpv4(FromOctets(192, 168, 0, 2)) == "192.168.0.2"
  {
    DefaultRangeHostText(0);
    DefaultRangeHostText(1);
    DefaultRangeHostText(2);
  }

  lemma DefaultRangeHostText(n: nat)
    requires n <= 2
    ensures FormatIpv4(FromOctets(192, 168, 0, n)) == "192.168.0." + NatToDecimal(n)
  {
    FormatOctets(192, 168, 0, n);
    DefaultRangeHead(NatToDecimal(n));
  }

  lemma DefaultRangeHead(d: string)
    ensures NatToDecimal(192) + "." + (NatToDecimal(168) + "." + (NatToDecimal(0) + "." + d)) == "192.168.0." + d
  {
    SmallDecimals();
    assert "192" + "." + ("168" + "." + ("0" + "." + d)) == "192.168.0." + d;
  }

  lemma DefaultAddressValue()
    ensures ParseIpv4(DefaultAddress) == Some(FromOctets(192, 168, 0, 0))
  {
    DefaultRangeText();
    ParseFormatRoundTrip(FromOctets(192, 168, 0, 0));
  }

  lemma ParseDefaultPrefix()
    ensures ParseInt(DefaultPrefixText) == Some(24)
  {
    ParseText24();
  }

  // ---------------------------------------------------------------------------
  // createNetwork: address, prefix and gateway from the options

  datatype NetworkOptions = NetworkOptions(
    id: Option<string>,
    ip: Option<string>,
    ownerIp: Option<string>,
    mask: Option<string>,
    gateway: Option<string>)

  /** No options at all reads like options with every field absent. */
  const NoNetworkOptions := NetworkOptions(None, None, None, None, None)

  predicate Truthy(s: Option<string>) { s.Some? && s.value != "" }

  /** `ip.split("/")[0] || "192.168.0.0"` */
  function AddressText(o: NetworkOptions): (t: string)
    ensures t != ""
    ensures o.ip.None? || '/' !in o.ip.value ==> t == (if Truthy(o.ip) then o.ip.value else DefaultAddress)
  {
    var head := if o.ip.Some? then SplitHead(o.ip.value, '/') else "";
    if head != "" then head else DefaultAddress
  }

  /** `ip.split("/")[1] || "24"` */
  function PrefixText(o: NetworkOptions): (t: string)
    ensures o.ip.None? || '/' !in o.ip.value ==> t == DefaultPrefixText
  {
    var second := if o.ip.Some? then SplitSecond(o.ip.value, '/') else None;
    if second.Some? && second.value != "" then second.value else DefaultPrefixText
  }

  /**
   * The prefix asked for: the `mask` option when given, which only a contiguous mask
   * passes; otherwise `parseInt` of the prefix text, which may be negative or missing.
   */
  function RequestedPrefix(o: NetworkOptions): (r: Option<int>)
    ensures Truthy(o.mask) ==>
              (r.Some? <==> ParseIpv4(o.mask.value).Some? && MaskToPrefix(ParseIpv4(o.mask.value).value).Some?)
    ensures Truthy(o.mask) && r.Some? ==> 0 <= r.value <= 32
    ensures !Truthy(o.mask) ==> (r.None? <==> ParseInt(PrefixText(o)).None?)
  {
    if Truthy(o.mask) then
      match ParseIpv4(o.mask.value)
      case None => None
      case Some(m) => match MaskToPrefix(m) case None => None case Some(p) => Some(p)
    else ParseInt(PrefixText(o))
  }

  datatype Addressing = Addressing(ip: Ip, prefix: Prefix, gateway: Option<Ip>)

  /**
   * The network address, prefix and gateway; an address, mask, prefix or gateway the
   * address library refuses is an error (it becomes NetworkCreationFailed).
   */
  function NetworkAddressing(o: NetworkOptions): (r: Option<Addressing>)
    ensures r.Some? ==> r.value.ip % BlockSize(r.value.prefix) == 0
    ensures r.Some? ==> r.value.ip + BlockSize(r.value.prefix) <= AddressCount
    ensures r.Some? ==> ParseIpv4(AddressText(o)).Some? && InRange(r.value.ip, r.value.prefix, ParseIpv4(AddressText(o)).value)
    ensures r.Some? ==> Some(r.value.prefix as int) == RequestedPrefix(o)
    ensures r.Some? ==> (r.value.gateway.Some? <==> Truthy(o.gateway))
    ensures r.None? <==>
              ParseIpv4(AddressText(o)).None? || RequestedPrefix(o).None? ||
              !(0 <= RequestedPrefix(o).value <= 32) ||
              (Truthy(o.gateway) && ParseIpv4(o.gateway.value).None?)
  {
    var address := ParseIpv4(AddressText(o));
    var prefix := RequestedPrefix(o);
    var gateway := if Truthy(o.gateway) then ParseIpv4(o.gateway.value) else None;
    if address.None? || prefix.None? || prefix.value < 0 || prefix.value > 32 || (Truthy(o.gateway) && gateway.None?) then None
    else Some(RangeAddressing(address.value, prefix.value, gateway))
  }

  /** The first address of the range of `address` with that prefix. */
  function RangeAddressing(address: Ip, prefix: Prefix, gateway: Option<Ip>): (a: Addressing)
    ensures a.prefix == prefix && a.gateway == gateway
    ensures a.ip % BlockSize(prefix) == 0 && a.ip + BlockSize(prefix) <= AddressCount
    ensures InRange(a.ip, prefix, address)
  {
    FirstAddressOfRange(address, prefix);
    Addressing(FirstAddress(address, prefix), prefix, gateway)
  }

  /** Without options, or with an `ip` option free of "/", the prefix is 24; without one the address is 192.168.0.0. */
  lemma DefaultNetworkAddressing(o: NetworkOptions)
    requires o.ip.None? && !Truthy(o.mask) && !Truthy(o.gateway)
    ensures NetworkAddressing(o) == Some(Addressing(FromOctets(192, 168, 0, 0), 24, None))
  {
    var ip := FromOctets(192, 168, 0, 0);
    assert ParseIpv4(AddressText(o)) == Some(ip) by {
      DefaultAddressValue();
      assert AddressText(o) == DefaultAddress;
    }
    PrefixWithoutSlash(o);
    assert NetworkAddressing(o) == Some(RangeAddressing(ip, 24, None));
    assert FirstAddress(ip, 24) == ip by {
      DefaultNetworkAligned();
      FirstAddressOfMember(ip, 24, ip);
    }
  }

  lemma DefaultNetworkAligned()
    ensures FromOctets(192, 168, 0, 0) % BlockSize(24) == 0
  {
    Block24();
    DivUnique(FromOctets(192, 168, 0, 0), 256, 12625920, 0);
  }

  lemma PrefixWithoutSlash(o: NetworkOptions)
    requires o.ip.None? || '/' !in o.ip.value
    requires !Truthy(o.mask)
    ensures RequestedPrefix(o) == Some(24)
  {
    assert PrefixText(o) == DefaultPrefixText;
    ParseDefaultPrefix();
  }

  /** White space or a '+' before the digits after "/" does not change the prefix. */
  lemma LenientPrefixText(o: NetworkOptions, c: char)
    requires !Truthy(o.mask)
    requires IsSpace(c) || c == '+'
    requires PrefixText(o) == [c] + DefaultPrefixText
    ensures RequestedPrefix(o) == Some(24)
  {
    if IsSpace(c) {
      SpacedPrefix(c);
    } else {
      SignedPrefix(c);
    }
  }

  /** A negative prefix after "/" names no network, while "-0" reads as prefix 0. */
  lemma NegativePrefixText(o: NetworkOptions, d: string)
    requires !Truthy(o.mask)
    requires |d| > 0 && IsDigit(d[0]) && !HexPrefixed(d)
    requires PrefixText(o) == ['-'] + d
    ensures ParseIntPrefix(d).value > 0 ==> NetworkAddressing(o).None?
    ensures ParseIntPrefix(d).value == 0 ==> RequestedPrefix(o) == Some(0)
  {
    SignedDigits('-', d);
  }

  /** A usable `mask` option decides the prefix, whatever `ip` says after its "/". */
  lemma MaskOverridesPrefix(o: NetworkOptions, mask: Ip)
    requires Truthy(o.mask) && ParseIpv4(o.mask.value) == Some(mask) && MaskToPrefix(mask).Some?
    ensures RequestedPrefix(o) == Some(MaskToPrefix(mask).value as int)
    ensures forall ip :: RequestedPrefix(o.(ip := ip)) == RequestedPrefix(o)
  {
  }

  /** The options of two requests differing only in the host part name the same network. */
  lemma SameRangeSameNetwork(o: NetworkOptions, o': NetworkOptions)
    requires NetworkAddressing(o).Some? && NetworkAddressing(o').Some?
    requires RequestedPrefix(o) == RequestedPrefix(o')
    requires var a := NetworkAddressing(o).value;
             InRange(a.ip, a.prefix, ParseIpv4(AddressText(o')).value)
    ensures NetworkAddressing(o).value.ip == NetworkAddressing(o').value.ip
  {
    var a := NetworkAddressing(o).value;
    FirstAddressOfMember(a.ip, a.prefix, ParseIpv4(AddressText(o')).value);
  }

  // ---------------------------------------------------------------------------
  // Errors

  datatype NetworkErrorCode =
    | NetworkCreationFailed
    | NetworkRemovalFailed
    | NoAddressAvailable
    | AddressOutOfRange
    | AddressAlreadyAssigned
    | NodeAddingFailed
    | NodeRemovalFailed

  datatype NetworkError = NetworkError(code: NetworkErrorCode, message: string)

  datatype NetworkNode = NetworkNode(id: string, ip: Ip)

  /** What `createNetwork` sends to the network API. */
  datatype NetworkRequest = NetworkRequest(id: Option<string>, ip: string, mask: string, gateway: Option<string>)

  // ---------------------------------------------------------------------------
  // The node table

  /** The lowest address in [lo, hi) that is not used. */
  function FirstFree(used: set<nat>, lo: nat, hi: nat): (r: Option<nat>)
    ensures r.Some? ==> lo <= r.value < hi && r.value !in used
    ensures r.Some? ==> forall y :: lo <= y < r.value ==> y in used
    ensures r.None? ==> forall y :: lo <= y < hi ==> y in used
    decreases hi - lo
  {
    if lo >= hi then None
    else if lo !in used then Some(lo)
    else FirstFree(used, lo + 1, hi)
  }

  /** Validation and address choice of `createNetworkNode`, in the order the checks run. */
  function PlanNode(nodes: map<string, Ip>, net: Ip, prefix: Prefix, nodeId: string, nodeIp: Option<string>): (r: Result<Ip, NetworkErrorCode>)
    requires net + BlockSize(prefix) <= AddressCount
    ensures nodeId in nodes ==> r == Err(AddressAlreadyAssigned)
    ensures nodeId !in nodes && Truthy(nodeIp) ==>
              match ParseIpv4(nodeIp.value)
              case None => r == Err(NodeAddingFailed)
              case Some(x) =>
                (!InRange(net, prefix, x) ==> r == Err(AddressOutOfRange)) &&
                (InRange(net, prefix, x) && x in nodes.Values ==> r == Err(AddressAlreadyAssigned)) &&
                (InRange(net, prefix, x) && x !in nodes.Values ==> r == Ok(x))
    ensures nodeId !in nodes && !Truthy(nodeIp) ==>
              (r.Ok? ==> forall y :: net < y < r.value ==> y in nodes.Values) &&
              (r.Err? ==> r.error == NoAddressAvailable && forall y :: net < y < net + BlockSize(prefix) - 1 ==> y in nodes.Values)
    ensures r.Ok? ==> InRange(net, prefix, r.value) && r.value !in nodes.Values
  {
    if nodeId in nodes then Err(AddressAlreadyAssigned)
    else if Truthy(nodeIp) then
      match ParseIpv4(nodeIp.value)
      case None => Err(NodeAddingFailed)
      case Some(x) =>
        if !InRange(net, prefix, x) then Err(AddressOutOfRange)
        else if x in nodes.Values then Err(AddressAlreadyAssigned)
        else Ok(x)
    else
      var free := FirstFree(nodes.Values, net + 1, net + BlockSize(prefix) - 1);
      if free.Some? then
        Ok(free.value)
      else
        Err(NoAddressAvailable)
  }

  class Network {
    const id: string
    /** The network address: the first address of its range. */
    const ip: Ip
    const prefix: Prefix
    const gateway: Option<Ip>
    /** Node id to node address. */
    var nodes: map<string, Ip>

    /** Every node lies in the range, and no two nodes share an address. */
    predicate Valid()
      reads this
    {
      ip % BlockSize(prefix) == 0 && ip + BlockSize(prefix) <= AddressCount &&
      (forall n :: n in nodes ==> InRange(ip, prefix, nodes[n])) &&
      (forall n, m :: n in nodes && m in nodes && n != m ==> nodes[n] != nodes[m])
    }

    constructor (id: string, ip: Ip, prefix: Prefix, gateway: Option<Ip>)
      requires ip % BlockSize(prefix) == 0 && ip + BlockSize(prefix) <= AddressCount
      ensures Valid()
      ensures this.id == id && this.ip == ip && this.prefix == prefix && this.gateway == gateway && nodes == map[]
    {
      this.id := id;
      this.ip := ip;
      this.prefix := prefix;
      this.gateway := gateway;
      nodes := map[];
    }

    function HasNode(node: NetworkNode): bool
      reads this
    {
      node.id in nodes && nodes[node.id] == node.ip
    }

    /** `addNode`: records a node whose id and address are both unused. */
    method AddNode(node: NetworkNode)
      requires Valid() && node.id !in nodes && InRange(ip, prefix, node.ip) && node.ip !in nodes.Values
      modifies this
      ensures Valid() && nodes == old(nodes)[node.id := node.ip]
    {
      nodes := nodes[node.id := node.ip];
    }

    method RemoveNode(node: NetworkNode)
      requires Valid()
      modifies this
      ensures Valid() && nodes == old(nodes) - {node.id}
    {
      nodes := nodes - {node.id};
    }
  }

  /**
   * `createNetworkNode`: the checks of PlanNode, then the API call (`api` is its outcome);
   * the node enters the table only once the call succeeded.
   */
  method CreateNetworkNode(network: Network, nodeId: string, nodeIp: Option<string>, api: Outcome<string>)
    returns (r: Result<NetworkNode, NetworkError>)
    requires network.Valid()
    modifies network
    ensures network.Valid()
    ensures var plan := PlanNode(old(network.nodes), network.ip, network.prefix, nodeId, nodeIp);
            (r.Ok? <==> plan.Ok? && api.Pass?) &&
            (r.Ok? ==> r.value == NetworkNode(nodeId, plan.value) && network.nodes == old(network.nodes)[nodeId := plan.value]) &&
            (r.Err? ==> network.nodes == old(network.nodes)) &&
            (plan.Err? ==> r.Err? && r.error.code == plan.error) &&
            (plan.Ok? && api.Fail? ==> r.Err? && r.error.code == NodeAddingFailed)
  {
    var plan := PlanNode(network.nodes, network.ip, network.prefix, nodeId, nodeIp);
    if plan.Err? {
      var message := match plan.error
        case AddressAlreadyAssigned => "has already been assigned in this network."
        case AddressOutOfRange => "The given IP address must belong to the network."
        case _ => "Unable to add node to network.";
      return Err(NetworkError(plan.error, message));
    }
    if api.Fail? {
      return Err(NetworkError(NodeAddingFailed, "Unable to add node to network. " + api.error));
    }
    network.AddNode(NetworkNode(nodeId, plan.value));
    r := Ok(NetworkNode(nodeId, plan.value));
  }

  /** `removeNetworkNode`: only a node of the network, and only after the API call succeeded. */
  method RemoveNetworkNode(network: Network, node: NetworkNode, api: Outcome<string>) returns (r: Outcome<NetworkError>)
    requires network.Valid()
    modifies network
    ensures network.Valid()
    ensures !old(network.HasNode(node)) ==> r.Fail? && r.error.code == NodeRemovalFailed && network.nodes == old(network.nodes)
    ensures old(network.HasNode(node)) && api.Fail? ==> r.Fail? && r.error.code == NodeRemovalFailed && network.nodes == old(network.nodes)
    ensures old(network.HasNode(node)) && api.Pass? ==> r.Pass? && network.nodes == old(network.nodes) - {node.id}
  {
    if !network.HasNode(node) {
      return Fail(NetworkError(NodeRemovalFailed, "The network node " + node.id + " does not belong to the network"));
    }
    if api.Fail? {
      return Fail(NetworkError(NodeRemovalFailed, "Unable to remove network node. " + api.error));
    }
    network.RemoveNode(node);
    r := Pass;
  }

  /** `removeNetwork`: only the API call, whose failure becomes NetworkRemovalFailed. */
  function RemoveNetwork(api: Outcome<string>): (r: Outcome<NetworkError>)
    ensures r.Pass? <==> api.Pass?
    ensures r.Fail? ==> r.error.code == NetworkRemovalFailed
  {
    if api.Pass? then Pass else Fail(NetworkError(NetworkRemovalFailed, "Unable to remove network. " + api.error))
  }

  /** Removing a node right after adding it leaves the table as it was. */
  method AddThenRemove(network: Network, nodeId: string, nodeIp: Option<string>)
    returns (added: Result<NetworkNode, NetworkError>, removed: Outcome<NetworkError>)
    requires network.Valid()
    modifies network
    ensures network.Valid()
    ensures added.Ok? <==> PlanNode(old(network.nodes), network.ip, network.prefix, nodeId, nodeIp).Ok?
    ensures added.Ok? ==> removed.Pass?
    ensures network.nodes == old(network.nodes)
  {
    added := CreateNetworkNode(network, nodeId, nodeIp, Pass);
    if added.Ok? {
      removed := RemoveNetworkNode(network, added.value, Pass);
    } else {
      removed := Pass;
    }
  }

  /**
   * `createNetwork`: the addressing, the network API's `createNetwork` (`created` is the
   * new network's id or a failure), `getIdentity` (`identity`), then the requestor joins
   * as a node (`ownerApi` is that API call's outcome). Failures of the address library or
   * the API become NetworkCreationFailed; an error of createNetworkNode is passed on as it is.
   */
  method CreateNetwork(o: NetworkOptions, created: Result<string, string>, identity: Result<string, string>, ownerApi: Outcome<string>)
    returns (r: Result<Network, NetworkError>, request: Option<NetworkRequest>)
    ensures NetworkAddressing(o).None? ==> r.Err? && r.error.code == NetworkCreationFailed && request.None?
    ensures NetworkAddressing(o).Some? ==>
              var a := NetworkAddressing(o).value;
              request == Some(NetworkRequest(o.id, FormatIpv4(a.ip), FormatIpv4(PrefixToMask(a.prefix)),
                                             if a.gateway.Some? then Some(FormatIpv4(a.gateway.value)) else None))
    ensures NetworkAddressing(o).Some? && (created.Err? || identity.Err?) ==> r.Err? && r.error.code == NetworkCreationFailed
    ensures NetworkAddressing(o).Some? && created.Ok? && identity.Ok? ==>
              var a := NetworkAddressing(o).value;
              var plan := PlanNode(map[], a.ip, a.prefix, identity.value, o.ownerIp);
              (plan.Err? ==> r.Err? && r.error.code == plan.error) &&
              (plan.Ok? && ownerApi.Fail? ==> r.Err? && r.error.code == NodeAddingFailed) &&
              (plan.Ok? && ownerApi.Pass? ==> r.Ok?)
    ensures r.Ok? ==>
              var a := NetworkAddressing(o).value;
              fresh(r.value) && r.value.Valid() && r.value.id == created.value &&
              r.value.ip == a.ip && r.value.prefix == a.prefix && r.value.gateway == a.gateway &&
              r.value.nodes == map[identity.value := PlanNode(map[], a.ip, a.prefix, identity.value, o.ownerIp).value]
  {
    var addressing := NetworkAddressing(o);
    if addressing.None? {
      return Err(NetworkError(NetworkCreationFailed, "Unable to create network. Invalid address, mask or gateway")), None;
    }
    var a := addressing.value;
    request := Some(NetworkRequest(o.id, FormatIpv4(a.ip), FormatIpv4(PrefixToMask(a.prefix)),
                                   if a.gateway.Some? then Some(FormatIpv4(a.gateway.value)) else None));
    if created.Err? {
      return Err(NetworkError(NetworkCreationFailed, "Unable to create network. " + created.error)), request;
    }
    var network := new Network(created.value, a.ip, a.prefix, a.gateway);
    if identity.Err? {
      return Err(NetworkError(NetworkCreationFailed, "Unable to create network. " + identity.error)), request;
    }
    var owner := CreateNetworkNode(network, identity.value, o.ownerIp, ownerApi);
    if owner.Err? {
      return Err(owner.error), request;
    }
    r := Ok(network);
  }

  // ---------------------------------------------------------------------------
  // The legacy NetworkService of tests/unit/network_service.test.ts

  datatype ServiceError = NotStarted | ServiceNetworkError(error: NetworkError)

  function ServiceErrorMessage(e: ServiceError): string
  {
    match e
    case NotStarted => "The service is not started and the network does not exist"
    case ServiceNetworkError(n) => n.message
  }

  class NetworkService {
    var network: Network?

    constructor ()
      ensures network == null
    {
      network := null;
    }

    /** `run`: a network with the default options whose owner node is `ownerId`. */
    method Run(ownerId: string, created: Result<string, string>) returns (r: Outcome<ServiceError>)
      modifies this
      ensures r.Pass? <==> created.Ok?
      ensures r.Pass? ==>
                network != null && fresh(network) && network.Valid() &&
                network.ip == FromOctets(192, 168, 0, 0) && network.prefix == 24 &&
                FormatIpv4(network.ip) == "192.168.0.0" && FormatIpv4(PrefixToMask(network.prefix)) == "255.255.255.0" &&
                network.nodes == map[ownerId := FromOctets(192, 168, 0, 1)]
      ensures r.Fail? ==> network == old(network)
    {
      DefaultNetworkAddressing(NoNetworkOptions);
      OwnerGetsFirstHost(ownerId);
      var n, _ := CreateNetwork(NoNetworkOptions, created, Ok(ownerId), Pass);
      if n.Err? {
        return Fail(ServiceNetworkError(n.error));
      }
      network := n.value;
      DefaultRangeText();
      Prefix24Mask();
      r := Pass;
    }

    /** `addNode`: refused until the service runs; the node gets the next free address. */
    method AddNode(nodeId: string) returns (r: Result<NetworkNode, ServiceError>)
      requires network != null ==> network.Valid()
      modifies network
      ensures network == old(network)
      ensures old(network) == null ==> r == Err(NotStarted)
      ensures network != null ==> network.Valid()
      ensures network != null ==>
                var plan := PlanNode(old(network.nodes), network.ip, network.prefix, nodeId, None);
                (r.Ok? <==> plan.Ok?) && (r.Ok? ==> r.value == NetworkNode(nodeId, plan.value) && network.nodes == old(network.nodes)[nodeId := plan.value])
    {
      if network == null {
        return Err(NotStarted);
      }
      var n := CreateNetworkNode(network, nodeId, None, Pass);
      if n.Err? {
        return Err(ServiceNetworkError(n.error));
      }
      r := Ok(n.value);
    }

    /** `end`: the network is dropped; ending an ended service does nothing more. */
    method End()
      modifies this
      ensures network == null
    {
      network := null;
    }
  }

  /** In an empty 192.168.0.0/24 network, a node without a requested address gets 192.168.0.1. */
  lemma OwnerGetsFirstHost(ownerId: string)
    ensures PlanNode(map[], FromOctets(192, 168, 0, 0), 24, ownerId, None) == Ok(FromOctets(192, 168, 0, 1))
  {
    Block24();
    var net := FromOctets(192, 168, 0, 0);
    var empty: map<string, Ip> := map[];
    assert FirstFree(empty.Values, net + 1, net + 255) == Some(net + 1);
  }

  /** Next to a node at 192.168.0.1, the next node without a requested address gets 192.168.0.2. */
  lemma SecondNodeGetsNextHost(nodes: map<string, Ip>, nodeId: string)
    requires nodes.Values == {FromOctets(192, 168, 0, 1)} && nodeId !in nodes
    ensures PlanNode(nodes, FromOctets(192, 168, 0, 0), 24, nodeId, None) == Ok(FromOctets(192, 168, 0, 2))
  {
    Block24();
    var net := FromOctets(192, 168, 0, 0);
    assert FirstFree(nodes.Values, net + 1, net + 255) == FirstFree(nodes.Values, net + 2, net + 255);
    assert FirstFree(nodes.Values, net + 2, net + 255) == Some(net + 2);
  }

  /** After `run`, the first node added gets 192.168.0.2, the address after the owner's. */
  method FirstProviderAddress() returns (r: Result<NetworkNode, ServiceError>)
    ensures r.Ok? && FormatIpv4(r.value.ip) == "192.168.0.2" && r.value.id == "provider_2"
  {
    var service := new NetworkService();
    var started := service.Run("test_owner_id", Ok("net-1"));
    var network := service.network;
    assert network.nodes.Values == {FromOctets(192, 168, 0, 1)} by {
      assert "test_owner_id" in network.nodes;
    }
    SecondNodeGetsNextHost(network.nodes, "provider_2");
    r := service.AddNode("provider_2");
    DefaultRangeText();
  }

  /** `addNode` before `run` is refused with the not-started message. */
  method AddNodeBeforeRun() returns (r: Result<NetworkNode, ServiceError>)
    ensures r.Err? && ServiceErrorMessage(r.error) == "The service is not started and the network does not exist"
  {
    var service := new NetworkService();
    r := service.AddNode("provider_2");
  }

  /** Ending twice is as good as ending once. */
  method EndTwice(ownerId: string) returns (network: Network?)
    ensures network == null
  {
    var service := new NetworkService();
    var started := service.Run(ownerId, Ok("net-1"));
    service.End();
    service.End();
    network := service.network;
  }
}
