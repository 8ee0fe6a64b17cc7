/**
 * The slice of Go's `net` package the signalling core uses: IP addresses
 * (`net.IP`, `To4`, `String`, `ParseIP`), UDP addresses, and UDP sockets seen
 * only through their local address and `Close`. Binding a socket is an
 * oracle: the operating system's answer is a parameter.
 */
module Net {
  import opened Wrappers
  import opened Strconv

  type Byte = x: int | 0 <= x < 256

  /** A message body or any other byte string. */
  type Bytes = seq<Byte>

  /** An IP address in Go's 16-byte form (IPv4 addresses are IPv4-mapped). */
  type IP = s: seq<Byte> | |s| == 16 witness [0, 0, 0, 0, 0, 0, 0, 0, 0, 0, 0, 0, 0, 0, 0, 0]

  const V4InV6Prefix: seq<Byte> := [0, 0, 0, 0, 0, 0, 0, 0, 0, 0, 255, 255]

  /** The IPv6 unspecified address `::`, what a socket bound to a nil IP reports. */
  const Unspecified: IP := [0, 0, 0, 0, 0, 0, 0, 0, 0, 0, 0, 0, 0, 0, 0, 0]

  /** The IPv4 wildcard address 0.0.0.0, in its IPv4-mapped form. */
  const V4Wildcard: IP := V4InV6Prefix + [0, 0, 0, 0]

  /**
   * The IP a "udp" socket bound to `ip` reports on a dual-stack host: the
   * IPv4 wildcard is bound as an IPv6 socket on the IPv6 wildcard and reads
   * back as `::`; every other address reads back as bound.
   */
  function BoundIP(ip: IP): (r: IP)
    ensures r != V4Wildcard
    ensures ip == V4Wildcard ==> r == Unspecified
    ensures ip != V4Wildcard ==> r == ip
  {
    assert Unspecified[10] != V4Wildcard[10];
    if ip == V4Wildcard then Unspecified else ip
  }

  /** Go's `ip.To4() != nil`: the address is IPv4-mapped. */
  predicate IsV4(ip: IP) {
    ip[..12] == V4InV6Prefix
  }

  /** The IPv4 address a.b.c.d. */
  function V4(a: Byte, b: Byte, c: Byte, d: Byte): (ip: IP)
    ensures IsV4(ip) && ip[12..] == [a, b, c, d]
  {
    V4InV6Prefix + [a, b, c, d]
  }

  /** The k-th 16-bit group of an address. */
  function Group(ip: IP, k: nat): (g: nat)
    requires k < 8
    ensures g < 0x1_0000
  {
    (ip[2 * k] as int) * 256 + ip[2 * k + 1] as int
  }

  /** The address with the given eight 16-bit groups. */
  function FromGroups(gs: seq<nat>): (ip: IP)
    requires |gs| == 8 && forall k :: 0 <= k < 8 ==> gs[k] < 0x1_0000
  {
    seq(16, j requires 0 <= j < 16 => if j % 2 == 0 then gs[j / 2] / 256 else gs[j / 2] % 256)
  }

  function V4Fields(ip: IP): seq<string> {
    [Format(ip[12], 10), Format(ip[13], 10), Format(ip[14], 10), Format(ip[15], 10)]
  }

  function V6Fields(ip: IP): seq<string> {
    seq(8, k requires 0 <= k < 8 => Format(Group(ip, k), 16))
  }

  /**
   * `IP.String`: dotted decimal for IPv4-mapped addresses, otherwise the
   * eight groups in lower-case hex separated by ':'.
   */
  function Show(ip: IP): (r: string)
    ensures FirstMark(r) == Some(if IsV4(ip) then '.' else ':')
  {
    if IsV4(ip) then
      var fs := V4Fields(ip);
      OctetFormat(ip[12]);
      DigitsUnmarked(fs[0], 10);
      FirstMarkAfter(fs[0], '.', Join(fs[1..], '.'));
      Join(fs, '.')
    else
      var fs := V6Fields(ip);
      GroupFormat(Group(ip, 0));
      DigitsUnmarked(fs[0], 16);
      FirstMarkAfter(fs[0], ':', Join(fs[1..], ':'));
      Join(fs, ':')
  }

  /** The first of '.', ':' or '%' in s: the character that decides how `ParseIP` reads it. */
  function FirstMark(s: string): Option<char> {
    if s == [] then None
    else if s[0] == '.' || s[0] == ':' || s[0] == '%' then Some(s[0])
    else FirstMark(s[1..])
  }

  /** An IPv4 field: decimal digits, no leading zero, at most 255. */
  predicate OctetText(f: string) {
    |f| >= 1 && AllDigits(f, 10) && (|f| == 1 || f[0] != '0') && Parse(f, 10) <= 255
  }

  /** An IPv6 group: one to four hex digits of either case. */
  predicate GroupText(f: string) {
    1 <= |f| <= 4 && AllDigits(f, 16)
  }

  function ParseV4(s: string): Option<IP> {
    var fs := Split(s, '.');
    if |fs| == 4 && OctetText(fs[0]) && OctetText(fs[1]) && OctetText(fs[2]) && OctetText(fs[3])
    then Some(V4(Parse(fs[0], 10), Parse(fs[1], 10), Parse(fs[2], 10), Parse(fs[3], 10)))
    else None
  }

  function ParseV6(s: string): Option<IP> {
    var fs := Split(s, ':');
    if |fs| == 8 && forall k :: 0 <= k < 8 ==> GroupText(fs[k])
    then
      var gs := seq(8, k requires 0 <= k < 8 => Parse(fs[k], 16));
      assert forall k :: 0 <= k < 8 ==> gs[k] < 0x1_0000 by {
        forall k | 0 <= k < 8 ensures gs[k] < 0x1_0000 {
          ParseBound(fs[k]);
        }
      }
      Some(FromGroups(gs))
    else None
  }

  lemma {:induction false} ParseBound(f: string)
    requires 1 <= |f| <= 4 && AllDigits(f, 16)
    ensures Parse(f, 16) < Pow(16, |f|) <= 0x1_0000
  {
    if |f| > 1 {
      ParseBound(f[..|f| - 1]);
    }
    assert Pow(16, 1) == 16 && Pow(16, 2) == 256;
    assert Pow(16, 3) == 4096 && Pow(16, 4) == 0x1_0000;
  }

  /**
   * `net.ParseIP`: the first '.' or ':' decides between IPv4 and IPv6; `None`
   * is Go's nil. The IPv6 forms with "::" or an embedded IPv4 part are not
   * accepted here.
   */
  function ParseIP(s: string): (r: Option<IP>)
    ensures FirstMark(s) == Some('.') && r.Some? ==> IsV4(r.value)
    ensures FirstMark(s) != Some('.') && FirstMark(s) != Some(':') ==> r.None?
  {
    match FirstMark(s)
    case Some('.') => ParseV4(s)
    case Some(':') => ParseV6(s)
    case _ => None
  }

  lemma DigitsUnmarked(f: string, base: Base)
    requires AllDigits(f, base)
    ensures '.' !in f && ':' !in f && '%' !in f
  {
    forall i | 0 <= i < |f| ensures f[i] != '.' && f[i] != ':' && f[i] != '%' {
      assert DigitValue(f[i]) < base;
    }
  }

  lemma {:induction false} FirstMarkAfter(a: string, c: char, rest: string)
    requires '.' !in a && ':' !in a && '%' !in a
    requires c == '.' || c == ':'
    ensures FirstMark(a + [c] + rest) == Some(c)
  {
    if a != [] {
      assert (a + [c] + rest)[1..] == a[1..] + [c] + rest;
      FirstMarkAfter(a[1..], c, rest);
    }
  }

  lemma OctetFormat(b: Byte)
    ensures OctetText(Format(b, 10)) && Parse(Format(b, 10), 10) == b
  {
    ParseFormat(b, 10);
  }

  lemma GroupFormat(g: nat)
    requires g < 0x1_0000
    ensures GroupText(Format(g, 16)) && Parse(Format(g, 16), 16) == g
  {
    ParseFormat(g, 16);
    assert Pow(16, 4) == 0x1_0000 by {
      assert Pow(16, 1) == 16 && Pow(16, 2) == 256 && Pow(16, 3) == 4096;
    }
    FormatLength(g, 16, 4);
  }

  lemma FromGroupsOfGroups(ip: IP)
    ensures FromGroups(seq(8, k requires 0 <= k < 8 => Group(ip, k))) == ip
  {
    var gs := seq(8, k requires 0 <= k < 8 => Group(ip, k));
    var r := FromGroups(gs);
    forall j | 0 <= j < 16 ensures r[j] == ip[j] {
      var k := j / 2;
      if j % 2 == 0 {
        assert j == 2 * k;
      } else {
        assert j == 2 * k + 1;
      }
    }
  }

  /** `ParseIP` reads back every address that `Show` prints. */
  lemma ParseShow(ip: IP)
    ensures ParseIP(Show(ip)) == Some(ip)
  {
    if IsV4(ip) {
      ParseShowV4(ip);
    } else {
      ParseShowV6(ip);
    }
  }

  lemma ParseShowV4(ip: IP)
    requires IsV4(ip)
    ensures ParseIP(Join(V4Fields(ip), '.')) == Some(ip)
  {
    OctetFormat(ip[12]);
    OctetFormat(ip[13]);
    OctetFormat(ip[14]);
    OctetFormat(ip[15]);
    ParseJoinV4(V4Fields(ip));
    V4OfTail(ip);
  }

  /** An IPv4-mapped address is determined by its last four bytes. */
  lemma V4OfTail(ip: IP)
    requires IsV4(ip)
    ensures V4(ip[12], ip[13], ip[14], ip[15]) == ip
  {
    assert ip[12..] == [ip[12], ip[13], ip[14], ip[15]];
    assert ip == ip[..12] + ip[12..];
  }

  /** Four octet fields joined with '.' read back as the address they spell. */
  lemma ParseJoinV4(fs: seq<string>)
    requires |fs| == 4 && OctetText(fs[0]) && OctetText(fs[1]) && OctetText(fs[2]) && OctetText(fs[3])
    ensures ParseIP(Join(fs, '.')) ==
      Some(V4(Parse(fs[0], 10), Parse(fs[1], 10), Parse(fs[2], 10), Parse(fs[3], 10)))
  {
    DigitsUnmarked(fs[0], 10);
    DigitsUnmarked(fs[1], 10);
    DigitsUnmarked(fs[2], 10);
    DigitsUnmarked(fs[3], 10);
    FirstMarkAfter(fs[0], '.', Join(fs[1..], '.'));
    SplitJoin(fs, '.');
  }

  lemma ParseShowV6(ip: IP)
    ensures ParseIP(Join(V6Fields(ip), ':')) == Some(ip)
  {
    var fs := V6Fields(ip);
    forall k | 0 <= k < 8 ensures GroupText(fs[k]) && Parse(fs[k], 16) == Group(ip, k) && ':' !in fs[k] {
      GroupFormat(Group(ip, k));
      DigitsUnmarked(fs[k], 16);
    }
    DigitsUnmarked(fs[0], 16);
    FirstMarkAfter(fs[0], ':', Join(fs[1..], ':'));
    SplitJoin(fs, ':');
    var gs := seq(8, k requires 0 <= k < 8 => Parse(fs[k], 16));
    assert gs == seq(8, k requires 0 <= k < 8 => Group(ip, k));
    FromGroupsOfGroups(ip);
  }

  /** A port number as the operating system hands it out. */
  type Port = p: int | 0 <= p < 0x1_0000

  /** `net.UDPAddr`. */
  datatype UdpAddr = UdpAddr(ip: IP, port: int, zone: string)

  /** The local address of a bound socket: its port is a real port number. */
  type BoundAddr = a: UdpAddr | 0 <= a.port < 0x1_0000 witness UdpAddr(Unspecified, 0, "")

  /** What closing a socket can report. */
  datatype CloseError = AlreadyClosed | CloseFailed

  /**
   * A UDP socket as the core sees it (the `UDPConn` interface): a local
   * address and `Close`. Whether the operating system reports an error on
   * close is fixed when the socket is made.
   */
  class Conn {
    const laddr: BoundAddr
    const closeFails: bool
    var closed: bool

    constructor (laddr: BoundAddr, closeFails: bool)
      ensures this.laddr == laddr && this.closeFails == closeFails && !closed
    {
      this.laddr := laddr;
      this.closeFails := closeFails;
      closed := false;
    }

    /** Releases the socket; a second close reports an error. */
    method Close() returns (err: Option<CloseError>)
      modifies this
      ensures closed
      ensures err == if old(closed) then Some(AlreadyClosed)
                     else if closeFails then Some(CloseFailed) else None
    {
      err := if closed then Some(AlreadyClosed) else if closeFails then Some(CloseFailed) else None;
      closed := true;
    }
  }

  /** The operating system's answer to one bind: the ephemeral port it would pick, or a refusal. */
  datatype BindOutcome = Bound(ephemeral: Port, closeFails: bool) | Refused

  /**
   * `net.ListenUDP("udp", laddr)`: port 0 asks for an ephemeral port, any
   * other port is bound as given; a port outside 0..65535 is always refused.
   * The socket reports the IP as `BoundIP` rewrites it.
   */
  method ListenUdp(laddr: UdpAddr, os: BindOutcome) returns (conn: Conn?)
    ensures conn != null <==> os.Bound? && 0 <= laddr.port < 0x1_0000
    ensures conn != null ==> fresh(conn) && !conn.closed && conn.closeFails == os.closeFails
    ensures conn != null ==> conn.laddr == laddr.(ip := BoundIP(laddr.ip), port := if laddr.port == 0 then os.ephemeral else laddr.port)
  {
    if os.Refused? || !(0 <= laddr.port < 0x1_0000) {
      conn := null;
    } else {
      conn := new Conn(laddr.(ip := BoundIP(laddr.ip), port := if laddr.port == 0 then os.ephemeral else laddr.port), os.closeFails);
    }
  }
}
