/**
 * IPv4 addresses in dotted-quad notation and CIDR blocks in prefix notation
 * ("a.b.c.d/n", section 3.1 of RFC 4632), as the subnet definition's `range`
 * and `gateway` are read.
 */
module Ipv4 {
  import opened Wrappers
  import opened Text

  type Octet = n: nat | n < 256

  type PrefixLength = n: nat | n <= 32

  datatype Address = Address(a: Octet, b: Octet, c: Octet, d: Octet)

  /** A block as written: the address keeps its host bits (`192.168.111.111/24` is not normalised). */
  datatype CidrBlock = CidrBlock(address: Address, prefix: PrefixLength)

  /** Why a `range` is not a CIDR block: not of the form "a.b.c.d/n", or n too large. */
  datatype CidrError = Malformed | NetmaskOutOfBounds(netmask: nat)

  function Format(x: Address): string {
    ShowNat(x.a) + "." + ShowNat(x.b) + "." + ShowNat(x.c) + "." + ShowNat(x.d)
  }

  /** One to three decimal digits whose value is at most 255. */
  function ParseOctet(s: string): (r: Option<Octet>)
    ensures r.Some? <==> 1 <= |s| <= 3 && AllDigits(s) && ValueOf(s) < 256
    ensures r.Some? ==> r.value == ValueOf(s)
  {
    if 1 <= |s| <= 3 then
      match ParseNat(s)
      case Some(v) => if v < 256 then Some(v) else None
      case None => None
    else None
  }

  /** A bare dotted-quad address: exactly four octets separated by dots, nothing else. */
  function Parse(s: string): (r: Option<Address>)
    ensures r.Some? ==> forall k :: 0 <= k < |s| ==> IsDigit(s[k]) || s[k] == '.'
    ensures r.Some? ==> |Split(s, '.')| == 4
  {
    var parts := Split(s, '.');
    if |parts| != 4 then None
    else
      match (ParseOctet(parts[0]), ParseOctet(parts[1]), ParseOctet(parts[2]), ParseOctet(parts[3]))
      case (Some(a), Some(b), Some(c), Some(d)) =>
        DigitsBetweenSeparators(s, '.');
        Some(Address(a, b, c, d))
      case _ => None
  }

  /** When every piece is all digits, the whole string is digits and separators. */
  lemma DigitsBetweenSeparators(s: string, sep: char)
    requires forall j :: 0 <= j < |Split(s, sep)| ==> AllDigits(Split(s, sep)[j])
    ensures forall k :: 0 <= k < |s| ==> IsDigit(s[k]) || s[k] == sep
  {
    forall k | 0 <= k < |s| && s[k] != sep
      ensures IsDigit(s[k])
    {
      SplitKeeps(s, sep, k);
      var j :| 0 <= j < |Split(s, sep)| && s[k] in Split(s, sep)[j];
      var piece := Split(s, sep)[j];
      var m :| 0 <= m < |piece| && piece[m] == s[k];
    }
  }

  lemma OctetRoundTrip(v: Octet)
    ensures ParseOctet(ShowNat(v)) == Some(v)
  {
    ShowNatLength(v);
    ParseShowNat(v);
  }

  /** Reading a formatted address gives the address back. */
  lemma ParseFormat(x: Address)
    ensures Parse(Format(x)) == Some(x)
  {
    var parts := [ShowNat(x.a), ShowNat(x.b), ShowNat(x.c), ShowNat(x.d)];
    assert parts[1..] == [ShowNat(x.b), ShowNat(x.c), ShowNat(x.d)];
    assert parts[1..][1..] == [ShowNat(x.c), ShowNat(x.d)];
    assert parts[1..][1..][1..] == [ShowNat(x.d)];
    assert Join(parts[1..][1..], '.') == ShowNat(x.c) + "." + ShowNat(x.d);
    assert Join(parts[1..], '.') == ShowNat(x.b) + "." + ShowNat(x.c) + "." + ShowNat(x.d);
    assert Join(parts, '.') == Format(x);
    SplitJoin(parts, '.');
    OctetRoundTrip(x.a);
    OctetRoundTrip(x.b);
    OctetRoundTrip(x.c);
    OctetRoundTrip(x.d);
  }

  /** An address followed by a prefix suffix ("192.168.111.111/31") is not a bare address. */
  lemma SuffixedAddressRejected(s: string)
    requires '/' in s
    ensures Parse(s) == None
  {
    var k :| 0 <= k < |s| && s[k] == '/';
  }

  function FormatCidr(block: CidrBlock): string {
    Format(block.address) + "/" + ShowNat(block.prefix)
  }

  /** Exactly one '/', a dotted-quad address before it, a decimal prefix length of at most 32 after it. */
  function ParseCidr(s: string): (r: Result<CidrBlock, CidrError>)
    ensures r.Success? || (r.Failure? && r.error.NetmaskOutOfBounds?) <==>
      |Split(s, '/')| == 2 && Parse(Split(s, '/')[0]).Some? && ParseNat(Split(s, '/')[1]).Some?
    ensures r.Success? ==> Parse(Split(s, '/')[0]) == Some(r.value.address)
    ensures r.Success? ==> ParseNat(Split(s, '/')[1]) == Some(r.value.prefix)
    ensures r.Failure? && r.error.NetmaskOutOfBounds? ==>
      r.error.netmask > 32 && ParseNat(Split(s, '/')[1]) == Some(r.error.netmask)
  {
    var parts := Split(s, '/');
    if |parts| != 2 then Failure(Malformed)
    else
      match (Parse(parts[0]), ParseNat(parts[1]))
      case (Some(a), Some(n)) =>
        if n <= 32 then Success(CidrBlock(a, n)) else Failure(NetmaskOutOfBounds(n))
      case _ => Failure(Malformed)
  }

  /** The pieces of "<address>/<n>" around the '/'. */
  lemma SplitCidrText(x: Address, n: nat)
    ensures Split(Format(x) + "/" + ShowNat(n), '/') == [Format(x), ShowNat(n)]
  {
    var parts := [Format(x), ShowNat(n)];
    assert parts[1..] == [ShowNat(n)];
    assert Join(parts, '/') == Format(x) + "/" + ShowNat(n);
    SplitJoin(parts, '/');
  }

  /** Reading a formatted CIDR block gives the block back. */
  lemma ParseCidrFormat(block: CidrBlock)
    ensures ParseCidr(FormatCidr(block)) == Success(block)
  {
    SplitCidrText(block.address, block.prefix);
    ParseFormat(block.address);
    ParseShowNat(block.prefix);
  }

  /** A well-formed block whose prefix length exceeds 32 is refused with the netmask error naming that length. */
  lemma NetmaskRejected(x: Address, n: nat)
    requires n > 32
    ensures ParseCidr(Format(x) + "/" + ShowNat(n)) == Failure(NetmaskOutOfBounds(n))
  {
    SplitCidrText(x, n);
    ParseFormat(x);
    ParseShowNat(n);
  }
}
