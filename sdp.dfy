/**
 * Local SDP synthesis (sdp.go): the codec table, the answerer's rule of
 * section 6.1 of RFC 3264 as this gateway applies it (keep the offer's
 * first-media formats that the table knows, in the offer's order), the
 * media sockets a call needs (RTP on an ephemeral port, RTCP on the next
 * port), and the fixed offer the gateway sends on its outbound leg.
 */
module Sdp {
  import opened Wrappers
  import opened Strconv
  import opened Net
  import opened Errors
  import opened Sip

  /** The packetisation interval the gateway always announces, in milliseconds. */
  const PtimeDefault: int := 20

  datatype Attribute = Attribute(key: string, value: string)

  datatype Origin = Origin(
    username: string, sessionId: int, sessionVersion: int,
    networkType: string, addressType: string, unicastAddress: string)

  datatype ConnectionInformation = ConnectionInformation(networkType: string, addressType: string, address: string)

  datatype MediaName = MediaName(media: string, port: int, protos: seq<string>, formats: seq<string>)

  datatype MediaDescription = MediaDescription(mediaName: MediaName, attributes: seq<Attribute>)

  datatype Timing = Timing(startTime: int, stopTime: int)

  /** A session description (RFC 4566) with the fields this gateway reads or writes. */
  datatype SessionDescription = SessionDescription(
    origin: Origin, sessionName: string, connection: Option<ConnectionInformation>,
    timing: seq<Timing>, media: seq<MediaDescription>)

  /** The `rtpmap` attribute of every format the gateway can carry. */
  const AvailableCodecs: map<string, Attribute> := map[
    "0" := Attribute("rtpmap", "0 PCMU/8000"),
    "8" := Attribute("rtpmap", "8 PCMA/8000"),
    "9" := Attribute("rtpmap", "9 G722/8000"),
    "96" := Attribute("rtpmap", "96 opus/48000/2"),
    "105" := Attribute("rtpmap", "105 opus/48000/2"),
    "106" := Attribute("rtpmap", "106 opus/48000/2")
  ]

  datatype CodecConfig = CodecConfig(samplingRate: nat, channels: nat, payloadType: Byte)

  /** Decoder parameters per format. */
  const ConfigCodecs: map<string, CodecConfig> := map[
    "0" := CodecConfig(8000, 1, 0),
    "8" := CodecConfig(8000, 1, 8),
    "9" := CodecConfig(8000, 1, 9),
    "96" := CodecConfig(48000, 1, 96),
    "105" := CodecConfig(48000, 1, 105),
    "106" := CodecConfig(48000, 1, 106)
  ]

  /**
   * The two tables describe the same formats: each format's payload type is
   * the number the key spells, and its rtpmap value starts with that key.
   */
  lemma CodecTablesAgree()
    ensures AvailableCodecs.Keys == ConfigCodecs.Keys
    ensures forall k :: k in AvailableCodecs ==>
      && AvailableCodecs[k].key == "rtpmap"
      && Atoi(k) == Some(ConfigCodecs[k].payloadType as int)
      && k + " " <= AvailableCodecs[k].value
  {
    forall k | k in AvailableCodecs
      ensures && AvailableCodecs[k].key == "rtpmap"
              && Atoi(k) == Some(ConfigCodecs[k].payloadType as int)
              && k + " " <= AvailableCodecs[k].value
    {
      CodecEntry(k);
    }
  }

  lemma CodecEntry(k: string)
    requires k in AvailableCodecs
    ensures k in ConfigCodecs && AvailableCodecs[k].key == "rtpmap"
    ensures Atoi(k) == Some(ConfigCodecs[k].payloadType as int)
    ensures k + " " <= AvailableCodecs[k].value
  {
    CodecKey(k);
    AtoiUnsigned(ConfigCodecs[k].payloadType);
    CodecPrefix(k);
  }

  /** Each key is the decimal spelling of its payload type. */
  lemma CodecKey(k: string)
    requires k in AvailableCodecs
    ensures k in ConfigCodecs && k == Format(ConfigCodecs[k].payloadType, 10)
  {
    var n := ConfigCodecs[k].payloadType;
    if n >= 100 {
      assert Format(n, 10) == Format(Quot(n, 10), 10) + [DigitChar(Rem(n, 10))];
      assert Format(Quot(n, 10), 10) == "10";
    } else if n >= 10 {
      assert Format(n, 10) == "9" + [DigitChar(Rem(n, 10))];
    }
  }

  /** Each table entry is an rtpmap whose value starts with the key. */
  lemma CodecPrefix(k: string)
    requires k in AvailableCodecs
    ensures AvailableCodecs[k].key == "rtpmap" && k + " " <= AvailableCodecs[k].value
  {
    var v := AvailableCodecs[k].value;
    assert v[..|k| + 1] == k + " ";
  }

  /** `obtainAdressType`: "IP4" exactly when `To4` succeeds, "IP6" otherwise. */
  function ObtainAddressType(ip: IP): (t: string)
    ensures t == "IP4" <==> IsV4(ip)
    ensures t == "IP4" || t == "IP6"
  {
    if IsV4(ip) then "IP4" else "IP6"
  }

  /** The offered formats the gateway keeps, in offer order, duplicates included. */
  function Accepted(offer: seq<string>): (r: seq<string>)
    ensures |r| <= |offer|
    ensures forall k :: 0 <= k < |r| ==> r[k] in AvailableCodecs
  {
    if offer == [] then []
    else
      var last := offer[|offer| - 1];
      Accepted(offer[..|offer| - 1]) + (if last in AvailableCodecs then [last] else [])
  }

  /** The rtpmap attributes of the kept formats, in the same order. */
  function AcceptedRtpmaps(offer: seq<string>): (r: seq<Attribute>)
    ensures |r| == |Accepted(offer)|
  {
    if offer == [] then []
    else
      var last := offer[|offer| - 1];
      AcceptedRtpmaps(offer[..|offer| - 1]) + (if last in AvailableCodecs then [AvailableCodecs[last]] else [])
  }

  /** The first format of the first media description that the table knows, or "". */
  function SelectedFormat(remote: SessionDescription): (r: string)
    ensures r != "" ==> r in AvailableCodecs && r in FirstMediaFormats(remote)
  {
    if |remote.media| > 0 && |Accepted(remote.media[0].mediaName.formats)| > 0
    then
      AcceptedMembership(remote.media[0].mediaName.formats, Accepted(remote.media[0].mediaName.formats)[0]);
      Accepted(remote.media[0].mediaName.formats)[0]
    else ""
  }

  /** The `a=rtcp` value of RFC 3605: `<port> IN <IP4|IP6> <address>`. */
  function RtcpValue(rtcp: UdpAddr): string {
    FormatInt(rtcp.port) + " IN " + ObtainAddressType(rtcp.ip) + " " + Show(rtcp.ip)
  }

  /** The attributes that follow the rtpmaps in every answer. */
  function AnswerTail(rtcp: UdpAddr): seq<Attribute> {
    [ Attribute("ptime", FormatInt(PtimeDefault)),
      Attribute("minptime", "10"),
      Attribute("sendrecv", ""),
      Attribute("rtcp", RtcpValue(rtcp)) ]
  }

  function FirstMediaFormats(sd: SessionDescription): seq<string> {
    if |sd.media| > 0 then sd.media[0].mediaName.formats else []
  }

  /** The session description `negotiateLocalSDP` builds. */
  function Answer(remote: SessionDescription, rtp: UdpAddr, rtcp: UdpAddr, sessionId: Uint32, sessionVersion: Uint32): (r: SessionDescription)
    ensures ParseIP(r.origin.unicastAddress) == Some(rtp.ip)
    ensures r.connection.Some? && ParseIP(r.connection.value.address) == Some(rtp.ip)
    ensures |r.media| == 1 && r.media[0].mediaName.port == rtp.port
  {
    ParseShow(rtp.ip);
    var offer := FirstMediaFormats(remote);
    var addrType := ObtainAddressType(rtp.ip);
    SessionDescription(
      Origin("-", sessionId, sessionVersion, "IN", addrType, Show(rtp.ip)),
      "Andres-RTP",
      Some(ConnectionInformation("IN", addrType, Show(rtp.ip))),
      [Timing(0, 0)],
      [MediaDescription(
        MediaName("audio", rtp.port, ["RTP", "AVP"], Accepted(offer)),
        AcceptedRtpmaps(offer) + AnswerTail(rtcp))])
  }

  lemma {:induction false} AcceptedMembership(offer: seq<string>, x: string)
    ensures x in Accepted(offer) <==> x in offer && x in AvailableCodecs
  {
    if offer != [] {
      var init := offer[..|offer| - 1];
      AcceptedMembership(init, x);
      assert offer == init + [offer[|offer| - 1]];
    }
  }

  /** Filtering keeps each known format exactly as often as it is offered. */
  lemma {:induction false} AcceptedCount(offer: seq<string>, x: string)
    ensures multiset(Accepted(offer))[x] == if x in AvailableCodecs then multiset(offer)[x] else 0
  {
    if offer != [] {
      var init := offer[..|offer| - 1];
      AcceptedCount(init, x);
      assert offer == init + [offer[|offer| - 1]];
    }
  }

  /** Filtering commutes with concatenation, so offer order is kept. */
  lemma {:induction false} AcceptedConcat(f: seq<string>, g: seq<string>)
    ensures Accepted(f + g) == Accepted(f) + Accepted(g)
  {
    if g == [] {
      assert f + g == f;
    } else {
      var init := g[..|g| - 1];
      AcceptedConcat(f, init);
      assert (f + g)[..|f + g| - 1] == f + init;
    }
  }

  /** A list of known formats is kept whole. */
  lemma {:induction false} AcceptedKnown(offer: seq<string>)
    requires forall x :: x in offer ==> x in AvailableCodecs
    ensures Accepted(offer) == offer
  {
    if offer != [] {
      var init := offer[..|offer| - 1];
      AcceptedKnown(init);
      assert offer == init + [offer[|offer| - 1]];
    }
  }

  /** One rtpmap per kept format, at the same position. */
  lemma {:induction false} RtpmapsMatch(offer: seq<string>)
    ensures |AcceptedRtpmaps(offer)| == |Accepted(offer)|
    ensures forall i :: 0 <= i < |Accepted(offer)| ==>
      Accepted(offer)[i] in AvailableCodecs && AcceptedRtpmaps(offer)[i] == AvailableCodecs[Accepted(offer)[i]]
  {
    if offer != [] {
      RtpmapsMatch(offer[..|offer| - 1]);
    }
  }

  /** Nothing is selected exactly when the table knows none of the offered formats. */
  lemma SelectedEmptyIffNoneKnown(remote: SessionDescription)
    ensures SelectedFormat(remote) == "" <==>
      forall x :: x in FirstMediaFormats(remote) ==> x !in AvailableCodecs
  {
    var offer := FirstMediaFormats(remote);
    assert "" !in AvailableCodecs;
    if |Accepted(offer)| > 0 {
      assert Accepted(offer)[0] in Accepted(offer);
      AcceptedMembership(offer, Accepted(offer)[0]);
    } else {
      forall x | x in offer ensures x !in AvailableCodecs {
        AcceptedMembership(offer, x);
      }
    }
  }

  /** The selected format is the earliest offered format the table knows. */
  lemma SelectedIsFirstKnown(remote: SessionDescription, i: nat)
    requires i < |FirstMediaFormats(remote)| && FirstMediaFormats(remote)[i] in AvailableCodecs
    requires forall j :: 0 <= j < i ==> FirstMediaFormats(remote)[j] !in AvailableCodecs
    ensures SelectedFormat(remote) == FirstMediaFormats(remote)[i]
  {
    var offer := FirstMediaFormats(remote);
    var pre, post := offer[..i], offer[i..];
    assert offer == pre + post;
    AcceptedConcat(pre, post);
    if Accepted(pre) != [] {
      var y := Accepted(pre)[0];
      assert y in Accepted(pre);
      AcceptedMembership(pre, y);
    }
    assert post == [offer[i]] + post[1..];
    AcceptedConcat([offer[i]], post[1..]);
    assert Accepted([offer[i]]) == [offer[i]];
  }

  /**
   * The answer's shape: addresses and port from the RTP socket, the kept
   * formats, one rtpmap per format in the same order, then ptime=20,
   * minptime=10, sendrecv and the rtcp attribute of the RTCP socket.
   */
  lemma AnswerShape(remote: SessionDescription, rtp: UdpAddr, rtcp: UdpAddr, sessionId: Uint32, sessionVersion: Uint32)
    ensures var local := Answer(remote, rtp, rtcp, sessionId, sessionVersion);
      && local.origin.unicastAddress == Show(rtp.ip)
      && local.connection == Some(ConnectionInformation("IN", ObtainAddressType(rtp.ip), Show(rtp.ip)))
      && |local.media| == 1
      && local.media[0].mediaName.port == rtp.port
      && local.media[0].mediaName.formats == Accepted(FirstMediaFormats(remote))
      && |local.media[0].attributes| == |local.media[0].mediaName.formats| + 4
      && (forall i :: 0 <= i < |local.media[0].mediaName.formats| ==>
            local.media[0].mediaName.formats[i] in AvailableCodecs &&
            local.media[0].attributes[i] == AvailableCodecs[local.media[0].mediaName.formats[i]])
      && local.media[0].attributes[|local.media[0].mediaName.formats|..] == AnswerTail(rtcp)
  {
    var offer := FirstMediaFormats(remote);
    RtpmapsMatch(offer);
    var attrs := AcceptedRtpmaps(offer) + AnswerTail(rtcp);
    assert attrs[|AcceptedRtpmaps(offer)|..] == AnswerTail(rtcp);
  }

  /**
   * `negotiateLocalSDP`: walk the first media description's formats, keeping
   * the known ones and their rtpmaps; the first kept one is selected. The
   * session id and version are the two random 32-bit values.
   */
  method NegotiateLocalSdp(remote: SessionDescription, connRtp: Conn, connRtcp: Conn, sessionId: Uint32, sessionVersion: Uint32)
    returns (local: SessionDescription, selectedFormat: string)
    ensures local == Answer(remote, connRtp.laddr, connRtcp.laddr, sessionId, sessionVersion)
    ensures selectedFormat == SelectedFormat(remote)
  {
    var rtp, rtcp := connRtp.laddr, connRtcp.laddr;
    selectedFormat := "";
    var formats: seq<string> := [];
    var mediaAttributes: seq<Attribute> := [];
    if |remote.media| > 0 {
      formats, mediaAttributes := KeepKnownFormats(remote.media[0].mediaName.formats);
      if |formats| > 0 {
        selectedFormat := formats[0];
      }
    }
    var addrType := ObtainAddressType(rtp.ip);
    local := SessionDescription(
      Origin("-", sessionId, sessionVersion, "IN", addrType, Show(rtp.ip)),
      "Andres-RTP",
      Some(ConnectionInformation("IN", ObtainAddressType(rtp.ip), Show(rtp.ip))),
      [Timing(0, 0)],
      [MediaDescription(
        MediaName("audio", rtp.port, ["RTP", "AVP"], formats),
        mediaAttributes + [
          Attribute("ptime", FormatInt(PtimeDefault)),
          Attribute("minptime", "10"),
          Attribute("sendrecv", ""),
          Attribute("rtcp", FormatInt(rtcp.port) + " IN " + ObtainAddressType(rtcp.ip) + " " + Show(rtcp.ip))])]);
  }

  /** The loop of `negotiateLocalSDP`: keep the known formats and collect their rtpmaps. */
  method KeepKnownFormats(offer: seq<string>) returns (formats: seq<string>, mediaAttributes: seq<Attribute>)
    ensures formats == Accepted(offer)
    ensures mediaAttributes == AcceptedRtpmaps(offer)
  {
    formats, mediaAttributes := [], [];
    var i := 0;
    while i < |offer|
      invariant 0 <= i <= |offer|
      invariant formats == Accepted(offer[..i])
      invariant mediaAttributes == AcceptedRtpmaps(offer[..i])
    {
      var format := offer[i];
      if format in AvailableCodecs {
        formats := formats + [format];
        mediaAttributes := mediaAttributes + [AvailableCodecs[format]];
      }
      assert offer[..i + 1][..i] == offer[..i];
      i := i + 1;
    }
    assert offer[..|offer|] == offer;
  }

  /** The formats the gateway proposes on its outbound leg, most preferred first. */
  const OfferFormats: seq<string> := ["106", "105", "96", "8", "0"]

  /** The skeleton offer `generateLocalSDP` negotiates against. */
  const LocalOffer: SessionDescription := SessionDescription(
    Origin("", 0, 0, "", "", ""), "", None, [],
    [MediaDescription(MediaName("audio", 0, [], OfferFormats), [])])

  /** The outbound offer keeps all five formats in order, selects Opus 106, and never offers G722. */
  lemma LocalOfferKept()
    ensures Accepted(FirstMediaFormats(LocalOffer)) == OfferFormats
    ensures SelectedFormat(LocalOffer) == "106"
    ensures "9" !in Accepted(FirstMediaFormats(LocalOffer))
  {
    AcceptedKnown(OfferFormats);
  }

  /** `createContactHeader`: the gateway's user at the SIP socket's address. */
  function CreateContactHeader(connSip: Conn): (c: NameAddr)
    ensures c.address.host == Show(connSip.laddr.ip) && c.address.port == connSip.laddr.port
    ensures c.address.user == "andres-proxy"
  {
    NameAddr("", Uri("", "andres-proxy", Show(connSip.laddr.ip), connSip.laddr.port, map[]), map[])
  }

  /**
   * `createSDPResponse`: marshal the local description (an oracle that may
   * fail) and wrap it in a 200 response carrying the gateway's Contact.
   */
  function CreateSdpResponse(local: SessionDescription, connSip: Conn, marshal: SessionDescription -> Option<Bytes>): (r: Result<Response, Error>)
    ensures r.Err? <==> marshal(local).None?
    ensures r.Err? ==> r.error == SdpMarshal
    ensures r.Ok? ==> r.value.body == marshal(local).value && r.value.statusCode == 200
    ensures r.Ok? ==> ContactOf(r.value.headers) == Some(CreateContactHeader(connSip))
  {
    match marshal(local)
    case None => Err(SdpMarshal)
    case Some(data) => Ok(Response(200, "OK", [ContactH(CreateContactHeader(connSip))], data))
  }

  /** `createConnRTP`: bind port 0 on the SIP socket's IP and zone. */
  method CreateConnRtp(connSip: Conn, os: BindOutcome) returns (rtp: Conn?, err: Option<Error>)
    ensures rtp != null <==> os.Bound?
    ensures err == if rtp == null then Some(BindFailed(Rtp)) else None
    ensures rtp != null ==> fresh(rtp) && !rtp.closed && rtp.closeFails == os.closeFails
    ensures rtp != null ==> rtp.laddr == UdpAddr(BoundIP(connSip.laddr.ip), os.ephemeral, connSip.laddr.zone)
  {
    rtp := ListenUdp(UdpAddr(connSip.laddr.ip, 0, connSip.laddr.zone), os);
    err := if rtp == null then Some(BindFailed(Rtp)) else None;
  }

  /** `createConnRTCP`: bind the RTP port + 1 on the SIP socket's IP and zone. */
  method CreateConnRtcp(connSip: Conn, connRtp: Conn, os: BindOutcome) returns (rtcp: Conn?, err: Option<Error>)
    ensures rtcp != null <==> RtcpBinds(connRtp.laddr.port, os)
    ensures err == if rtcp == null then Some(BindFailed(Rtcp)) else None
    ensures rtcp != null ==> fresh(rtcp) && !rtcp.closed && rtcp.closeFails == os.closeFails
    ensures rtcp != null ==> rtcp.laddr == UdpAddr(BoundIP(connSip.laddr.ip), connRtp.laddr.port + 1, connSip.laddr.zone)
  {
    rtcp := ListenUdp(UdpAddr(connSip.laddr.ip, connRtp.laddr.port + 1, connSip.laddr.zone), os);
    err := if rtcp == null then Some(BindFailed(Rtcp)) else None;
  }

  /** Whether binding RTCP right above an RTP socket on port `rtpPort` succeeds. */
  predicate RtcpBinds(rtpPort: Port, osRtcp: BindOutcome) {
    osRtcp.Bound? && rtpPort + 1 < 0x1_0000
  }

  /**
   * `generateNewRTPAndRTCP`: an RTP socket, then an RTCP socket on the next
   * port. When the RTCP bind fails, the RTP socket stays open and is not
   * returned (`leaked`).
   */
  method GenerateNewRtpAndRtcp(connSip: Conn, osRtp: BindOutcome, osRtcp: BindOutcome)
    returns (rtp: Conn?, rtcp: Conn?, err: Option<Error>, ghost leaked: Conn?)
    ensures err.None? <==> osRtp.Bound? && RtcpBinds(osRtp.ephemeral, osRtcp)
    ensures err.None? ==> rtp != null && rtcp != null && leaked == null
    ensures err.None? ==> fresh(rtp) && fresh(rtcp) && rtp != rtcp && !rtp.closed && !rtcp.closed
    ensures err.None? ==> rtp.laddr == UdpAddr(BoundIP(connSip.laddr.ip), osRtp.ephemeral, connSip.laddr.zone)
    ensures err.None? ==> rtcp.laddr == UdpAddr(BoundIP(connSip.laddr.ip), rtp.laddr.port + 1, connSip.laddr.zone)
    ensures err.None? ==> rtp.closeFails == osRtp.closeFails && rtcp.closeFails == osRtcp.closeFails
    ensures err.Some? ==> rtp == null && rtcp == null
    ensures osRtp.Refused? ==> err == Some(BindFailed(Rtp)) && leaked == null
    ensures osRtp.Bound? && !RtcpBinds(osRtp.ephemeral, osRtcp) ==>
      err == Some(BindFailed(Rtcp)) && leaked != null && fresh(leaked) && !leaked.closed &&
      leaked.laddr == UdpAddr(BoundIP(connSip.laddr.ip), osRtp.ephemeral, connSip.laddr.zone)
  {
    leaked := null;
    var rtpConn, e := CreateConnRtp(connSip, osRtp);
    if rtpConn == null {
      return null, null, e, null;
    }
    var rtcpConn, e2 := CreateConnRtcp(connSip, rtpConn, osRtcp);
    if rtcpConn == null {
      return null, null, e2, rtpConn;
    }
    rtp, rtcp, err := rtpConn, rtcpConn, None;
  }

  /** The IP `net.ParseIP(host)` hands to a bind: nil, that is the wildcard `::`, when the host does not parse. */
  function HostBindIP(host: string): IP {
    match ParseIP(host) case Some(ip) => ip case None => Unspecified
  }

  /** The IP a socket bound to `net.ParseIP(host)` reports. */
  function HostIP(host: string): (r: IP)
    ensures r != V4Wildcard
    ensures ParseIP(host).Some? && ParseIP(host).value != V4Wildcard ==> r == ParseIP(host).value
    ensures ParseIP(host).None? || ParseIP(host) == Some(V4Wildcard) ==> r == Unspecified
  {
    BoundIP(HostBindIP(host))
  }

  /**
   * Whether `generateLocalSDP` succeeds: both binds are granted and the
   * answer to the gateway's own offer, on the RTP port the OS picks and the
   * next one, marshals.
   */
  predicate LocalSdpSucceeds(rtpHost: string, osRtp: BindOutcome, osRtcp: BindOutcome,
                             sessionId: Uint32, sessionVersion: Uint32, marshal: SessionDescription -> Option<Bytes>) {
    PairOfferMarshals(HostIP(rtpHost), "", osRtp, osRtcp, sessionId, sessionVersion, marshal)
  }

  /**
   * Both binds on `ip` and `zone` are granted, and the answer to the
   * gateway's own offer on the RTP port the OS picks and the next one
   * marshals.
   */
  predicate PairOfferMarshals(ip: IP, zone: string, osRtp: BindOutcome, osRtcp: BindOutcome,
                              sessionId: Uint32, sessionVersion: Uint32, marshal: SessionDescription -> Option<Bytes>) {
    && osRtp.Bound? && RtcpBinds(osRtp.ephemeral, osRtcp)
    && marshal(Answer(LocalOffer, UdpAddr(ip, osRtp.ephemeral, zone),
                      UdpAddr(ip, osRtp.ephemeral + 1, zone), sessionId, sessionVersion)).Some?
  }

  /**
   * On the IPv4 wildcard, or on a host that does not parse, the gateway's
   * own offer announces the IPv6 wildcard.
   */
  lemma WildcardHostIsIp6(host: string)
    requires host == "0.0.0.0" || ParseIP(host).None?
    ensures HostIP(host) == Unspecified && ObtainAddressType(HostIP(host)) == "IP6"
  {
    if host == "0.0.0.0" {
      assert IsV4(V4Wildcard);
      assert Format(0, 10) == "0" by { assert DigitChar(0) == '0'; }
      assert V4Fields(V4Wildcard) == ["0", "0", "0", "0"];
      assert Join(["0", "0", "0", "0"], '.') == "0.0.0.0" by {
        assert Join(["0"], '.') == "0";
        assert Join(["0", "0"], '.') == "0.0";
        assert Join(["0", "0", "0"], '.') == "0.0.0";
      }
      ParseShow(V4Wildcard);
    }
  }

  /**
   * The work `generateLocalSDP` does between the temporary bind and its
   * deferred close: a fresh RTP/RTCP pair on the temporary socket's IP and
   * zone, the gateway's offer negotiated against it and marshalled. A
   * marshal failure leaves the new pair open and unreturned.
   */
  method OfferOnNewPair(
    temp: Conn, osRtp: BindOutcome, osRtcp: BindOutcome,
    sessionId: Uint32, sessionVersion: Uint32, marshal: SessionDescription -> Option<Bytes>)
    returns (data: Bytes, rtp: Conn?, rtcp: Conn?, err: Option<Error>, ghost leaked: seq<Conn>)
    ensures err.None? <==>
      PairOfferMarshals(BoundIP(temp.laddr.ip), temp.laddr.zone, osRtp, osRtcp, sessionId, sessionVersion, marshal)
    ensures osRtp.Refused? ==> err == Some(BindFailed(Rtp)) && leaked == []
    ensures osRtp.Bound? && !RtcpBinds(osRtp.ephemeral, osRtcp) ==> err == Some(BindFailed(Rtcp)) && |leaked| == 1
    ensures osRtp.Bound? && RtcpBinds(osRtp.ephemeral, osRtcp) && err.Some? ==> err == Some(SdpMarshal) && |leaked| == 2
    ensures err.Some? ==> rtp == null && rtcp == null && data == []
    ensures forall c :: c in leaked ==> fresh(c) && !c.closed
    ensures err.None? ==> rtp != null && rtcp != null && fresh(rtp) && fresh(rtcp) && leaked == []
    ensures err.None? ==> !rtp.closed && !rtcp.closed && rtp != rtcp
    ensures err.None? ==> rtp.laddr == UdpAddr(BoundIP(temp.laddr.ip), osRtp.ephemeral, temp.laddr.zone)
    ensures err.None? ==> rtcp.laddr == UdpAddr(BoundIP(temp.laddr.ip), osRtp.ephemeral + 1, temp.laddr.zone)
    ensures err.None? ==> Some(data) == marshal(Answer(LocalOffer, rtp.laddr, rtcp.laddr, sessionId, sessionVersion))
  {
    var r, c, e, lost := GenerateNewRtpAndRtcp(temp, osRtp, osRtcp);
    if e.Some? {
      data, rtp, rtcp, err, leaked := [], null, null, e, if lost == null then [] else [lost];
    } else {
      var local, _ := NegotiateLocalSdp(LocalOffer, r, c, sessionId, sessionVersion);
      var m := marshal(local);
      if m.None? {
        data, rtp, rtcp, err, leaked := [], null, null, Some(SdpMarshal), [r, c];
      } else {
        data, rtp, rtcp, err, leaked := m.value, r, c, None, [];
      }
    }
  }

  /**
   * `generateLocalSDP`: a temporary socket on the RTP host (closed on every
   * return) serves as the reference for a fresh RTP/RTCP pair; the fixed
   * offer is negotiated against them and marshalled. A marshal failure
   * leaves the new pair open and unreturned.
   */
  method GenerateLocalSdp(
    connSip: Conn, rtpHost: string, tempPort: Port, osRtp: BindOutcome, osRtcp: BindOutcome,
    sessionId: Uint32, sessionVersion: Uint32, marshal: SessionDescription -> Option<Bytes>)
    returns (data: Bytes, rtp: Conn?, rtcp: Conn?, err: Option<Error>, ghost temp: Conn, ghost leaked: seq<Conn>)
    ensures fresh(temp) && temp.closed && temp.laddr.ip == HostIP(rtpHost)
    ensures err.None? <==> LocalSdpSucceeds(rtpHost, osRtp, osRtcp, sessionId, sessionVersion, marshal)
    ensures osRtp.Refused? ==> err == Some(BindFailed(Rtp)) && leaked == []
    ensures osRtp.Bound? && !RtcpBinds(osRtp.ephemeral, osRtcp) ==> err == Some(BindFailed(Rtcp)) && |leaked| == 1
    ensures err.Some? ==> rtp == null && rtcp == null && data == []
    ensures err.Some? ==> forall c :: c in leaked ==> fresh(c) && !c.closed
    ensures err.None? ==> rtp != null && rtcp != null && fresh(rtp) && fresh(rtcp) && leaked == []
    ensures err.None? ==> !rtp.closed && !rtcp.closed && rtp != rtcp
    ensures err.None? ==> rtp.laddr == UdpAddr(HostIP(rtpHost), osRtp.ephemeral, "")
    ensures err.None? ==> rtcp.laddr == UdpAddr(HostIP(rtpHost), osRtp.ephemeral + 1, "")
    ensures err.None? ==> rtcp.laddr.port == rtp.laddr.port + 1
    ensures err.None? ==> Some(data) == marshal(Answer(LocalOffer, rtp.laddr, rtcp.laddr, sessionId, sessionVersion))
    ensures osRtp.Bound? && RtcpBinds(osRtp.ephemeral, osRtcp) && err.Some? ==> err == Some(SdpMarshal) && |leaked| == 2
  {
    var t := ListenUdp(UdpAddr(HostBindIP(rtpHost), 0, ""), Bound(tempPort, false));
    temp := t;
    assert BoundIP(t.laddr.ip) == HostIP(rtpHost) && t.laddr.zone == "";
    data, rtp, rtcp, err, leaked := OfferOnNewPair(t, osRtp, osRtcp, sessionId, sessionVersion, marshal);
    // the deferred close of the temporary socket
    var _ := t.Close();
  }
}
