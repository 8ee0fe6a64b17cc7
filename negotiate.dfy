/**
 * Remote SDP interpretation and the negotiation entry points (negotiate.go):
 * reading the remote media address, RTCP address and packetisation interval
 * out of an offer or answer, and answering an INVITE's SDP on a socket pair,
 * closing the pair when the response cannot be built.
 */
module Negotiate {
  import opened Wrappers
  import opened Strconv
  import opened Net
  import opened Errors
  import opened Sip
  import opened Sdp

  /** A `*net.UDPAddr` read from SDP: the IP is absent (nil) when it does not parse. */
  datatype RemoteAddr = RemoteAddr(ip: Option<IP>, port: int)

  /** What `ObtainSelectedFormatAndPtime` returns on success. */
  datatype RemoteMedia = RemoteMedia(selectedFormat: string, ptime: int, rtp: RemoteAddr, rtcp: Option<RemoteAddr>)

  /** The running result of the attribute walk: the ptime so far and the RTCP address so far. */
  datatype Scan = Scan(ptime: int, rtcp: Option<RemoteAddr>)

  /**
   * One `rtcp` attribute value: split on single spaces; a non-numeric first
   * field means no address; otherwise the port, with the IP of the fourth
   * field when there are more than three fields.
   */
  function RtcpFromValue(value: string): (r: Option<RemoteAddr>)
    ensures value == [] ==> r.None?
    ensures r.Some? ==> Atoi(Split(value, ' ')[0]) == Some(r.value.port)
    ensures r.Some? && r.value.ip.Some? ==> |Split(value, ' ')| > 3 && ParseIP(Split(value, ' ')[3]) == r.value.ip
  {
    var v := Split(value, ' ');
    match Atoi(v[0])
    case None => None
    case Some(port) => Some(RemoteAddr(if |v| > 3 then ParseIP(v[3]) else None, port))
  }

  /** One step of the walk over the first media description's attributes. */
  function Step(s: Scan, attr: Attribute): (r: Scan)
    ensures r.ptime != s.ptime ==> ParsablePtime(attr) && r.ptime == Atoi(attr.value).value
    ensures r.rtcp != s.rtcp ==> attr.key == "rtcp"
  {
    if attr.key == "ptime" then
      match Atoi(attr.value) case Some(v) => s.(ptime := v) case None => s
    else if attr.key == "rtcp" then
      s.(rtcp := RtcpFromValue(attr.value))
    else s
  }

  /** The walk over a whole attribute list, starting from ptime 20 and no RTCP address. */
  function ScanAll(attrs: seq<Attribute>): (r: Scan)
    ensures r.ptime != PtimeDefault ==> exists k :: 0 <= k < |attrs| && ParsablePtime(attrs[k])
    ensures r.rtcp.Some? ==> exists k :: 0 <= k < |attrs| && attrs[k].key == "rtcp"
  {
    if attrs == [] then Scan(PtimeDefault, None)
    else
      var init := attrs[..|attrs| - 1];
      assert forall k :: 0 <= k < |init| ==> init[k] == attrs[k];
      Step(ScanAll(init), attrs[|attrs| - 1])
  }

  predicate ParsablePtime(a: Attribute) {
    a.key == "ptime" && Atoi(a.value).Some?
  }

  /** Without a parsable ptime attribute the ptime stays 20; unparsable values are ignored. */
  lemma {:induction false} PtimeDefaultKept(attrs: seq<Attribute>)
    requires forall k :: 0 <= k < |attrs| ==> !ParsablePtime(attrs[k])
    ensures ScanAll(attrs).ptime == PtimeDefault
  {
    if attrs != [] {
      var init := attrs[..|attrs| - 1];
      assert !ParsablePtime(attrs[|attrs| - 1]);
      PtimeDefaultKept(init);
    }
  }

  /** The last parsable ptime attribute gives the ptime. */
  lemma {:induction false} PtimeLastWins(attrs: seq<Attribute>, j: nat)
    requires j < |attrs| && ParsablePtime(attrs[j])
    requires forall k :: j < k < |attrs| ==> !ParsablePtime(attrs[k])
    ensures ScanAll(attrs).ptime == Atoi(attrs[j].value).value
  {
    var init := attrs[..|attrs| - 1];
    if j < |attrs| - 1 {
      assert !ParsablePtime(attrs[|attrs| - 1]);
      PtimeLastWins(init, j);
    }
  }

  /** Without an rtcp attribute there is no RTCP address. */
  lemma {:induction false} RtcpAbsent(attrs: seq<Attribute>)
    requires forall k :: 0 <= k < |attrs| ==> attrs[k].key != "rtcp"
    ensures ScanAll(attrs).rtcp == None
  {
    if attrs != [] {
      var init := attrs[..|attrs| - 1];
      assert attrs[|attrs| - 1].key != "rtcp";
      RtcpAbsent(init);
    }
  }

  /**
   * The last rtcp attribute alone decides the RTCP address: a non-numeric
   * port there clears an address an earlier attribute had set.
   */
  lemma {:induction false} RtcpLastWins(attrs: seq<Attribute>, j: nat)
    requires j < |attrs| && attrs[j].key == "rtcp"
    requires forall k :: j < k < |attrs| ==> attrs[k].key != "rtcp"
    ensures ScanAll(attrs).rtcp == RtcpFromValue(attrs[j].value)
  {
    var init := attrs[..|attrs| - 1];
    if j < |attrs| - 1 {
      assert attrs[|attrs| - 1].key != "rtcp";
      RtcpLastWins(init, j);
    }
  }

  /** A lone number is a port-only RTCP address; a non-number yields none. */
  lemma RtcpPortOnly(value: string)
    ensures Atoi(value).Some? ==> RtcpFromValue(value) == Some(RemoteAddr(None, Atoi(value).value))
    ensures Atoi(Split(value, ' ')[0]).None? ==> RtcpFromValue(value) == None
  {
    if Atoi(value).Some? {
      SplitNoSep(value, ' ');
    }
  }

  /** Reading the `rtcp` value the gateway writes gives back the RTCP socket's port and IP. */
  lemma RtcpRoundTrip(rtcp: BoundAddr)
    ensures RtcpFromValue(RtcpValue(rtcp)) == Some(RemoteAddr(Some(rtcp.ip), rtcp.port))
  {
    AtoiFormatInt(rtcp.port);
    ShowHasNoSpace(rtcp.ip);
    ParseShow(rtcp.ip);
    RtcpFieldsRead(FormatInt(rtcp.port), ObtainAddressType(rtcp.ip), Show(rtcp.ip), rtcp.port, rtcp.ip);
  }

  /** An `rtcp` value of four space-free fields reads as the first field's port and the fourth field's IP. */
  lemma RtcpFieldsRead(portText: string, addrType: string, ipText: string, port: int, ip: IP)
    requires Atoi(portText) == Some(port) && ParseIP(ipText) == Some(ip)
    requires addrType == "IP4" || addrType == "IP6"
    requires ' ' !in ipText
    ensures RtcpFromValue(portText + " IN " + addrType + " " + ipText) == Some(RemoteAddr(Some(ip), port))
  {
    RtcpSplit(portText, addrType, ipText);
  }

  /** Splitting an `rtcp` value on spaces recovers its four fields. */
  lemma RtcpSplit(portText: string, addrType: string, ipText: string)
    requires ' ' !in portText && ' ' !in addrType && ' ' !in ipText
    ensures Split(portText + " IN " + addrType + " " + ipText, ' ') == [portText, "IN", addrType, ipText]
  {
    assert ' ' !in "IN";
    var value := portText + " IN " + addrType + " " + ipText;
    assert value == portText + [' '] + ("IN" + [' '] + (addrType + [' '] + ipText));
    SplitCons(portText, "IN" + [' '] + (addrType + [' '] + ipText), ' ');
    SplitCons("IN", addrType + [' '] + ipText, ' ');
    SplitCons(addrType, ipText, ' ');
    SplitNoSep(ipText, ' ');
  }

  lemma ShowHasNoSpace(ip: IP)
    ensures ' ' !in Show(ip)
  {
    var sep, fs := if IsV4(ip) then '.' else ':', if IsV4(ip) then V4Fields(ip) else V6Fields(ip);
    forall k | 0 <= k < |fs| ensures ' ' !in fs[k] {
      forall i | 0 <= i < |fs[k]| ensures fs[k][i] != ' ' {
        assert DigitValue(fs[k][i]) < 16;
      }
    }
    JoinFree(fs, sep, ' ');
  }

  lemma {:induction false} JoinFree(fs: seq<string>, sep: char, c: char)
    requires |fs| >= 1 && c != sep
    requires forall k :: 0 <= k < |fs| ==> c !in fs[k]
    ensures c !in Join(fs, sep)
  {
    if |fs| > 1 {
      JoinFree(fs[1..], sep, c);
    }
  }

  /** Attributes other than ptime and rtcp leave the walk where it was. */
  lemma {:induction false} ScanSkipsOthers(attrs: seq<Attribute>, more: seq<Attribute>)
    requires forall k :: 0 <= k < |more| ==> more[k].key != "ptime" && more[k].key != "rtcp"
    ensures ScanAll(attrs + more) == ScanAll(attrs)
  {
    if more != [] {
      var init, last := more[..|more| - 1], more[|more| - 1];
      assert forall k :: 0 <= k < |init| ==> init[k] == more[k];
      assert attrs + more == (attrs + init) + [last];
      ScanSnoc(attrs + init, last);
      ScanSkipsOthers(attrs, init);
    } else {
      assert attrs + more == attrs;
    }
  }

  /** The RTP address: the connection line's address if there is one, else the origin's; the first media port. */
  function RemoteRtpAddr(sd: SessionDescription): RemoteAddr
    requires |sd.media| > 0
  {
    var host := match sd.connection case Some(c) => c.address case None => sd.origin.unicastAddress;
    RemoteAddr(ParseIP(host), sd.media[0].mediaName.port)
  }

  /** The meaning of a parsed remote description, checks in the source's order. */
  function Interpret(sd: SessionDescription): (r: Result<RemoteMedia, Error>)
    ensures r == Err(NoMedia) <==> |sd.media| == 0
    ensures r == Err(NoFormats) <==> |sd.media| > 0 && |sd.media[0].mediaName.formats| == 0
    ensures r.Ok? ==> r.value.selectedFormat in sd.media[0].mediaName.formats
    ensures r.Ok? ==> r.value.rtcp.Some? ==> exists k :: 0 <= k < |sd.media[0].attributes| && sd.media[0].attributes[k].key == "rtcp"
  {
    if |sd.media| == 0 then Err(NoMedia)
    else if |sd.media[0].mediaName.formats| == 0 then Err(NoFormats)
    else
      var s := ScanAll(sd.media[0].attributes);
      Ok(RemoteMedia(sd.media[0].mediaName.formats[0], s.ptime, RemoteRtpAddr(sd), s.rtcp))
  }

  /**
   * `ObtainSelectedFormatAndPtime`: unmarshal (an oracle), check for media
   * and formats, pick the RTP address, then walk the attributes updating
   * ptime and the RTCP address. The selected format is the first offered
   * one, whether or not the codec table knows it.
   */
  method ObtainSelectedFormatAndPtime(body: Bytes, unmarshal: Bytes -> Option<SessionDescription>)
    returns (r: Result<RemoteMedia, Error>)
    ensures unmarshal(body).None? ==> r == Err(SdpParse)
    ensures unmarshal(body).Some? ==> r == Interpret(unmarshal(body).value)
  {
    var parsed := unmarshal(body);
    if parsed.None? {
      return Err(SdpParse);
    }
    var sd := parsed.value;
    if |sd.media| == 0 {
      return Err(NoMedia);
    }
    var addrToRtp := RemoteAddr(ParseIP(sd.origin.unicastAddress), sd.media[0].mediaName.port);
    if sd.connection.Some? {
      addrToRtp := RemoteAddr(ParseIP(sd.connection.value.address), sd.media[0].mediaName.port);
    }
    if |sd.media[0].mediaName.formats| == 0 {
      return Err(NoFormats);
    }
    var attrs := sd.media[0].attributes;
    var pTime := PtimeDefault;
    var addrToRtcp: Option<RemoteAddr> := None;
    var i := 0;
    while i < |attrs|
      invariant 0 <= i <= |attrs|
      invariant Scan(pTime, addrToRtcp) == ScanAll(attrs[..i])
    {
      var attr := attrs[i];
      assert attrs[..i + 1][..i] == attrs[..i];
      if attr.key == "ptime" {
        var v := Atoi(attr.value);
        if v.Some? {
          pTime := v.value;
        }
      } else if attr.key == "rtcp" {
        var v := Split(attr.value, ' ');
        var port := Atoi(v[0]);
        if port.None? {
          addrToRtcp := None;
        } else {
          addrToRtcp := Some(RemoteAddr(None, port.value));
          if |v| > 3 {
            addrToRtcp := Some(addrToRtcp.value.(ip := ParseIP(v[3])));
          }
        }
      }
      i := i + 1;
    }
    assert attrs[..|attrs|] == attrs;
    r := Ok(RemoteMedia(sd.media[0].mediaName.formats[0], pTime, addrToRtp, addrToRtcp));
  }

  /**
   * Reading back an answer the gateway built gives the format it selected,
   * ptime 20, its RTP socket and its RTCP socket; when nothing was selected
   * the answer has no formats.
   */
  lemma AnswerRoundTrip(remote: SessionDescription, rtp: BoundAddr, rtcp: BoundAddr, sessionId: Uint32, sessionVersion: Uint32)
    ensures SelectedFormat(remote) == "" ==>
      Interpret(Answer(remote, rtp, rtcp, sessionId, sessionVersion)) == Err(NoFormats)
    ensures SelectedFormat(remote) != "" ==>
      Interpret(Answer(remote, rtp, rtcp, sessionId, sessionVersion)) ==
        Ok(RemoteMedia(SelectedFormat(remote), PtimeDefault,
                       RemoteAddr(Some(rtp.ip), rtp.port), Some(RemoteAddr(Some(rtcp.ip), rtcp.port))))
  {
    if SelectedFormat(remote) == "" {
      AnswerNoFormats(remote, rtp, rtcp, sessionId, sessionVersion);
    } else {
      AnswerRoundTripSelected(remote, rtp, rtcp, sessionId, sessionVersion);
    }
  }

  /** An answer that keeps no format reads back as the no-formats error. */
  lemma AnswerNoFormats(remote: SessionDescription, rtp: BoundAddr, rtcp: BoundAddr, sessionId: Uint32, sessionVersion: Uint32)
    requires SelectedFormat(remote) == ""
    ensures Interpret(Answer(remote, rtp, rtcp, sessionId, sessionVersion)) == Err(NoFormats)
  {
    assert "" !in AvailableCodecs;
    AnswerShape(remote, rtp, rtcp, sessionId, sessionVersion);
  }

  /** The case of `AnswerRoundTrip` where a format was selected. */
  lemma AnswerRoundTripSelected(remote: SessionDescription, rtp: BoundAddr, rtcp: BoundAddr, sessionId: Uint32, sessionVersion: Uint32)
    requires SelectedFormat(remote) != ""
    ensures Interpret(Answer(remote, rtp, rtcp, sessionId, sessionVersion)) ==
      Ok(RemoteMedia(SelectedFormat(remote), PtimeDefault,
                     RemoteAddr(Some(rtp.ip), rtp.port), Some(RemoteAddr(Some(rtcp.ip), rtcp.port))))
  {
    var local := Answer(remote, rtp, rtcp, sessionId, sessionVersion);
    var offer := FirstMediaFormats(remote);
    var md := MediaDescription(MediaName("audio", rtp.port, ["RTP", "AVP"], Accepted(offer)), AcceptedRtpmaps(offer) + AnswerTail(rtcp));
    assert local.media == [md];
    assert SelectedFormat(remote) == Accepted(offer)[0];
    AnswerRtpAddr(remote, rtp, rtcp, sessionId, sessionVersion);
    ScanAnswerAttributes(offer, rtcp);
    InterpretSingle(local, md);
  }

  /** An answer's connection line and media port read back as the RTP socket's address. */
  lemma AnswerRtpAddr(remote: SessionDescription, rtp: BoundAddr, rtcp: BoundAddr, sessionId: Uint32, sessionVersion: Uint32)
    ensures RemoteRtpAddr(Answer(remote, rtp, rtcp, sessionId, sessionVersion)) == RemoteAddr(Some(rtp.ip), rtp.port)
  {
    ParseShow(rtp.ip);
  }

  /** A description with one media section and at least one format reads as that section's walk. */
  lemma InterpretSingle(sd: SessionDescription, md: MediaDescription)
    requires sd.media == [md] && |md.mediaName.formats| > 0
    ensures Interpret(sd) ==
      Ok(RemoteMedia(md.mediaName.formats[0], ScanAll(md.attributes).ptime, RemoteRtpAddr(sd), ScanAll(md.attributes).rtcp))
  {
  }

  lemma ScanSnoc(p: seq<Attribute>, a: Attribute)
    ensures ScanAll(p + [a]) == Step(ScanAll(p), a)
  {
    assert (p + [a])[..|p|] == p;
  }

  /** The walk over an answer's attributes ends at ptime 20 and the RTCP socket's address. */
  lemma ScanAnswerAttributes(offer: seq<string>, rtcp: BoundAddr)
    ensures ScanAll(AcceptedRtpmaps(offer) + AnswerTail(rtcp)) ==
      Scan(PtimeDefault, Some(RemoteAddr(Some(rtcp.ip), rtcp.port)))
  {
    var maps := AcceptedRtpmaps(offer);
    ScanRtpmaps(offer);
    var a0, a1, a2, a3 := Attribute("ptime", FormatInt(PtimeDefault)), Attribute("minptime", "10"),
                          Attribute("sendrecv", ""), Attribute("rtcp", RtcpValue(rtcp));
    assert AnswerTail(rtcp) == [a0, a1, a2, a3];
    ScanAppend4(maps, a0, a1, a2, a3);
    StepsOfTail(ScanAll(maps), rtcp);
  }

  /** The rtpmap attributes of an answer leave the walk at its start. */
  lemma ScanRtpmaps(offer: seq<string>)
    ensures ScanAll(AcceptedRtpmaps(offer)) == Scan(PtimeDefault, None)
  {
    var maps := AcceptedRtpmaps(offer);
    RtpmapsMatch(offer);
    CodecTablesAgree();
    ScanSkipsOthers([], maps);
    assert [] + maps == maps;
  }

  /** The four trailing answer attributes set ptime 20 and the RTCP socket's address. */
  lemma StepsOfTail(s: Scan, rtcp: BoundAddr)
    ensures
      var a0, a1, a2, a3 := Attribute("ptime", FormatInt(PtimeDefault)), Attribute("minptime", "10"),
                            Attribute("sendrecv", ""), Attribute("rtcp", RtcpValue(rtcp));
      Step(Step(Step(Step(s, a0), a1), a2), a3) == Scan(PtimeDefault, Some(RemoteAddr(Some(rtcp.ip), rtcp.port)))
  {
    var a0, a1, a2 := Attribute("ptime", FormatInt(PtimeDefault)), Attribute("minptime", "10"), Attribute("sendrecv", "");
    StepPtime(s);
    var s1 := Step(s, a0);
    StepOther(s1, a1);
    StepOther(s1, a2);
    StepRtcp(s1, rtcp);
  }

  lemma ScanAppend4(p: seq<Attribute>, a0: Attribute, a1: Attribute, a2: Attribute, a3: Attribute)
    ensures ScanAll(p + [a0, a1, a2, a3]) == Step(Step(Step(Step(ScanAll(p), a0), a1), a2), a3)
  {
    ScanSnoc(p, a0);
    ScanSnoc(p + [a0], a1);
    assert p + [a0] + [a1] == p + [a0, a1];
    ScanSnoc(p + [a0, a1], a2);
    assert p + [a0, a1] + [a2] == p + [a0, a1, a2];
    ScanSnoc(p + [a0, a1, a2], a3);
    assert p + [a0, a1, a2] + [a3] == p + [a0, a1, a2, a3];
  }

  lemma StepOther(s: Scan, a: Attribute)
    requires a.key != "ptime" && a.key != "rtcp"
    ensures Step(s, a) == s
  {
  }

  lemma StepPtime(s: Scan)
    ensures Step(s, Attribute("ptime", FormatInt(PtimeDefault))) == s.(ptime := PtimeDefault)
  {
    AtoiFormatInt(PtimeDefault);
  }

  lemma StepRtcp(s: Scan, rtcp: BoundAddr)
    ensures Step(s, Attribute("rtcp", RtcpValue(rtcp))) == s.(rtcp := Some(RemoteAddr(Some(rtcp.ip), rtcp.port)))
  {
    RtcpRoundTrip(rtcp);
  }

  /**
   * `RenegotiateSDP`: answer the request's SDP on the given sockets. An
   * empty or unparsable body fails before anything is touched. When the
   * response cannot be built, RTP is closed, then RTCP, and both close
   * results travel with the error. On success the ptime is always 20.
   */
  method RenegotiateSdp(
    req: Request, connSip: Conn, connRtp: Conn, connRtcp: Conn,
    unmarshal: Bytes -> Option<SessionDescription>, marshal: SessionDescription -> Option<Bytes>,
    sessionId: Uint32, sessionVersion: Uint32)
    returns (resp: Option<Response>, selectedFormat: string, ptime: int, err: Option<Error>)
    modifies connRtp, connRtcp
    ensures req.body == [] ==> err == Some(NoSdpBody)
    ensures req.body != [] && unmarshal(req.body).None? ==> err == Some(SdpParse)
    ensures req.body == [] || unmarshal(req.body).None? ==>
      resp.None? && connRtp.closed == old(connRtp.closed) && connRtcp.closed == old(connRtcp.closed)
    ensures req.body != [] && unmarshal(req.body).Some? ==>
      var local := Answer(unmarshal(req.body).value, connRtp.laddr, connRtcp.laddr, sessionId, sessionVersion);
      match CreateSdpResponse(local, connSip, marshal)
      case Ok(r) =>
        && resp == Some(r) && err.None?
        && selectedFormat == SelectedFormat(unmarshal(req.body).value) && ptime == PtimeDefault
        && connRtp.closed == old(connRtp.closed) && connRtcp.closed == old(connRtcp.closed)
      case Err(e) =>
        && resp.None? && connRtp.closed && connRtcp.closed
        && err == Some(ResponseFailed(e,
             CloseOutcome(old(connRtp.closed), connRtp.closeFails),
             if connRtcp == connRtp then Some(AlreadyClosed)
             else CloseOutcome(old(connRtcp.closed), connRtcp.closeFails)))
    ensures err.Some? ==> selectedFormat == "" && ptime == 0
  {
    if req.body == [] {
      return None, "", 0, Some(NoSdpBody);
    }
    var remote := unmarshal(req.body);
    if remote.None? {
      return None, "", 0, Some(SdpParse);
    }
    var local, selected := NegotiateLocalSdp(remote.value, connRtp, connRtcp, sessionId, sessionVersion);
    var r := CreateSdpResponse(local, connSip, marshal);
    if r.Err? {
      var rtpErr := connRtp.Close();
      var rtcpErr := connRtcp.Close();
      return None, "", 0, Some(ResponseFailed(r.error, rtpErr, rtcpErr));
    }
    return Some(r.value), selected, PtimeDefault, None;
  }

  /** What closing a socket reports, given whether it was closed already and whether the OS fails the close. */
  function CloseOutcome(wasClosed: bool, closeFails: bool): Option<CloseError> {
    if wasClosed then Some(AlreadyClosed) else if closeFails then Some(CloseFailed) else None
  }

  /**
   * `NegotiateSDP`: allocate a fresh RTP/RTCP pair, then renegotiate on it.
   * Any failure returns no sockets. A failure before the response step
   * leaves the new pair open (`leaked`); a failed response closes both and
   * reports how each close went.
   */
  method NegotiateSdp(
    req: Request, connSip: Conn, osRtp: BindOutcome, osRtcp: BindOutcome,
    unmarshal: Bytes -> Option<SessionDescription>, marshal: SessionDescription -> Option<Bytes>,
    sessionId: Uint32, sessionVersion: Uint32)
    returns (resp: Option<Response>, rtp: Conn?, rtcp: Conn?, selectedFormat: string, ptime: int, err: Option<Error>,
             ghost leaked: seq<Conn>)
    ensures osRtp.Refused? ==> err == Some(BindFailed(Rtp)) && leaked == []
    ensures osRtp.Bound? && !RtcpBinds(osRtp.ephemeral, osRtcp) ==> err == Some(BindFailed(Rtcp)) && |leaked| == 1
    ensures err.Some? ==> resp.None? && rtp == null && rtcp == null && selectedFormat == "" && ptime == 0
    ensures forall c :: c in leaked ==> fresh(c) && !c.closed
    ensures osRtp.Bound? && RtcpBinds(osRtp.ephemeral, osRtcp) && req.body == [] ==>
      err == Some(NoSdpBody) && |leaked| == 2
    ensures osRtp.Bound? && RtcpBinds(osRtp.ephemeral, osRtcp) && req.body != [] && unmarshal(req.body).None? ==>
      err == Some(SdpParse) && |leaked| == 2
    ensures osRtp.Bound? && RtcpBinds(osRtp.ephemeral, osRtcp) && req.body != [] && unmarshal(req.body).Some? ==>
      var rtpAddr := UdpAddr(BoundIP(connSip.laddr.ip), osRtp.ephemeral, connSip.laddr.zone);
      var local := Answer(unmarshal(req.body).value, rtpAddr, rtpAddr.(port := osRtp.ephemeral + 1), sessionId, sessionVersion);
      match CreateSdpResponse(local, connSip, marshal)
      case Ok(r) => err.None? && resp == Some(r)
      case Err(e) =>
        && err == Some(ResponseFailed(e, CloseOutcome(false, osRtp.closeFails), CloseOutcome(false, osRtcp.closeFails)))
        && leaked == []
    ensures err.None? ==>
      && rtp != null && rtcp != null && fresh(rtp) && fresh(rtcp) && rtp != rtcp && !rtp.closed && !rtcp.closed
      && rtp.laddr == UdpAddr(BoundIP(connSip.laddr.ip), osRtp.ephemeral, connSip.laddr.zone)
      && rtcp.laddr.port == rtp.laddr.port + 1 && rtcp.laddr.ip == rtp.laddr.ip
      && req.body != [] && unmarshal(req.body).Some?
      && selectedFormat == SelectedFormat(unmarshal(req.body).value) && ptime == PtimeDefault
  {
    var r, c, e, lost := GenerateNewRtpAndRtcp(connSip, osRtp, osRtcp);
    if e.Some? {
      leaked := if lost == null then [] else [lost];
      return None, null, null, "", 0, e, leaked;
    }
    var rr, sel, pt, e2 := RenegotiateSdp(req, connSip, r, c, unmarshal, marshal, sessionId, sessionVersion);
    if e2.Some? {
      leaked := if r.closed then [] else [r, c];
      return None, null, null, "", 0, e2, leaked;
    }
    resp, rtp, rtcp, selectedFormat, ptime, err, leaked := rr, r, c, sel, pt, None, [];
  }
}
