/**
 * The outbound leg of a call (create_invite.go): the gateway turns an
 * INVITE it received into a new INVITE towards the callee's address, with a
 * fresh SDP offer on a fresh RTP/RTCP socket pair. The operating system's
 * bind outcomes, the SDP marshaller, the random and UUID sources are passed in.
 */
module Invite {
  import opened Wrappers
  import opened Net
  import opened Sip
  import opened Errors
  import opened Extras
  import opened Sdp

  /** Exclusive bound of the random part of the initial CSeq number. */
  const MaxInitialSeq: nat := 10000

  const SdpContentType: string := "application/sdp"

  /** The generic headers the INVITE ends with, in order. */
  const InviteTrailer: seq<Header> := [
    OtherH("Allow", "PRACK,INVITE,ACK,BYE,CANCEL,UPDATE,INFO,SUBSCRIBE,NOTIFY,REFER,MESSAGE,OPTIONS"),
    OtherH("Supported", "replaces,100rel,timer,norefersub"),
    OtherH("User-Agent", UserAgent),
    OtherH("Content-Type", SdpContentType),
    OtherH("Accept", SdpContentType)]

  /** `reqMaxForwards - 1` on Go's `uint32`: one hop fewer, wrapping to 2^32 - 1 from 0. */
  function PrevHop(n: Uint32): (m: Uint32)
    ensures n > 0 ==> m == n - 1
    ensures n == 0 ==> m == 0xffff_ffff
  {
    (n + 0xffff_ffff) % 0x1_0000_0000
  }

  /** Taking a hop off and adding it back (in `uint32`) are inverse. */
  lemma HopRoundTrip(n: Uint32)
    ensures NextSeqNo(PrevHop(n)) == n && PrevHop(NextSeqNo(n)) == n
  {
  }

  /** The callee's Request-URI: the inbound To's user at the address the call is sent to. */
  function InviteTarget(to: NameAddr, addrTo: UdpAddr): Uri {
    Uri("sip", to.address.user, Show(addrTo.ip), addrTo.port, map[])
  }

  /** The outbound To: the inbound To's display name, scheme and user, at the callee's address, without parameters. */
  function ClonedTo(to: NameAddr, addrTo: UdpAddr): NameAddr {
    NameAddr(to.displayName, Uri(to.address.scheme, to.address.user, Show(addrTo.ip), addrTo.port, map[]), map[])
  }

  /** The outbound Contact: the caller's user at the gateway's SIP address. */
  function InviteContact(from: NameAddr, local: UdpAddr): NameAddr {
    NameAddr("", Uri("sip", from.address.user, Show(local.ip), local.port, map[]), map[])
  }

  /** The INVITE's header list, in the order `createInviteOutgoing` appends them. */
  function InviteHeaders(via: ViaHeader, callId: string, cs: CSeqHeader, from: NameAddr, to: NameAddr,
                         contact: NameAddr, maxForwards: Uint32): seq<Header> {
    [ViaH(via), CallIdH(callId), CSeqH(cs), FromH(from), ToH(to), ContactH(contact), MaxForwardsH(maxForwards)]
      + InviteTrailer
  }

  /** The INVITE's Via, Call-ID and CSeq read back as the values put in. */
  lemma InviteHeadersRouting(via: ViaHeader, callId: string, cs: CSeqHeader, from: NameAddr, to: NameAddr,
                             contact: NameAddr, maxForwards: Uint32)
    ensures var hs := InviteHeaders(via, callId, cs, from, to, contact, maxForwards);
      && ViaOf(hs) == Some(via) && CallIdOf(hs) == Some(callId) && CSeqOf(hs) == Some(cs)
  {
    var hs := InviteHeaders(via, callId, cs, from, to, contact, maxForwards);
    FindFirst(hs, KVia, 0);
    FindFirst(hs, KCallId, 1);
    FindFirst(hs, KCSeq, 2);
  }

  /** The INVITE's From and To read back as the values put in. */
  lemma InviteHeadersIdentity(via: ViaHeader, callId: string, cs: CSeqHeader, from: NameAddr, to: NameAddr,
                              contact: NameAddr, maxForwards: Uint32)
    ensures var hs := InviteHeaders(via, callId, cs, from, to, contact, maxForwards);
      && FromOf(hs) == Some(from) && ToOf(hs) == Some(to)
  {
    var hs := InviteHeaders(via, callId, cs, from, to, contact, maxForwards);
    FindFirst(hs, KFrom, 3);
    FindFirst(hs, KTo, 4);
  }

  /** The INVITE's Contact and Max-Forwards read back as the values put in, and the generic headers close the list. */
  lemma InviteHeadersContact(via: ViaHeader, callId: string, cs: CSeqHeader, from: NameAddr, to: NameAddr,
                             contact: NameAddr, maxForwards: Uint32)
    ensures var hs := InviteHeaders(via, callId, cs, from, to, contact, maxForwards);
      && ContactOf(hs) == Some(contact) && MaxForwardsOf(hs) == Some(maxForwards)
      && |hs| == 12 && hs[7..] == InviteTrailer
  {
    var hs := InviteHeaders(via, callId, cs, from, to, contact, maxForwards);
    FindFirst(hs, KContact, 5);
    FindFirst(hs, KMaxForwards, 6);
  }

  /**
   * The INVITE `createInviteOutgoing` builds from the inbound leg's
   * Max-Forwards, From and To, given the gateway's SIP address, the callee's
   * address, the new CSeq header object `cs`, the Via branch, the Call-ID
   * UUID and the SDP body.
   */
  function InviteRequest(local: UdpAddr, addrTo: UdpAddr, branch: string, callUuid: string, cs: CSeqHeader,
                         reqMaxForwards: Uint32, from: NameAddr, to: NameAddr, body: Bytes): (inv: Request)
    ensures inv.requestMethod == INVITE && inv.sipVersion == "SIP/2.0" && inv.body == body
  {
    var hs := InviteHeaders(CreateVia(local, branch), callUuid, cs, from, ClonedTo(to, addrTo),
                            InviteContact(from, local), PrevHop(reqMaxForwards));
    NewRequest(INVITE, InviteTarget(to, addrTo)).(headers := hs, body := body)
  }

  /**
   * The INVITE goes to the callee's address: its Request-URI and its To both
   * name the inbound To's user at that IP and port. From is forwarded as is,
   * the Call-ID is new, and Max-Forwards is one less than inbound.
   */
  lemma InviteAddressing(local: UdpAddr, addrTo: UdpAddr, branch: string, callUuid: string, cs: CSeqHeader,
                         reqMaxForwards: Uint32, from: NameAddr, to: NameAddr, body: Bytes)
    ensures var inv := InviteRequest(local, addrTo, branch, callUuid, cs, reqMaxForwards, from, to, body);
      && ParseIP(inv.recipient.host) == Some(addrTo.ip) && inv.recipient.port == addrTo.port
      && inv.recipient.user == to.address.user && inv.recipient.scheme == "sip"
      && ToOf(inv.headers).Some?
      && ToOf(inv.headers).value.address == inv.recipient.(scheme := to.address.scheme)
      && ToOf(inv.headers).value.displayName == to.displayName && ToOf(inv.headers).value.params == map[]
      && FromOf(inv.headers) == Some(from) && CallIdOf(inv.headers) == Some(callUuid)
      && CSeqOf(inv.headers) == Some(cs) && MaxForwardsOf(inv.headers) == Some(PrevHop(reqMaxForwards))
  {
    var via, contact := CreateVia(local, branch), InviteContact(from, local);
    InviteHeadersRouting(via, callUuid, cs, from, ClonedTo(to, addrTo), contact, PrevHop(reqMaxForwards));
    InviteHeadersIdentity(via, callUuid, cs, from, ClonedTo(to, addrTo), contact, PrevHop(reqMaxForwards));
    InviteHeadersContact(via, callUuid, cs, from, ClonedTo(to, addrTo), contact, PrevHop(reqMaxForwards));
    ParseShow(addrTo.ip);
  }

  /**
   * Replies come back to the gateway: the Contact names the caller's user at
   * the gateway's SIP address, and the Via is the gateway's. The body is
   * announced as SDP.
   */
  lemma InviteContactsGateway(local: UdpAddr, addrTo: UdpAddr, branch: string, callUuid: string, cs: CSeqHeader,
                              reqMaxForwards: Uint32, from: NameAddr, to: NameAddr, body: Bytes)
    ensures var inv := InviteRequest(local, addrTo, branch, callUuid, cs, reqMaxForwards, from, to, body);
      && ContactOf(inv.headers).Some? && ViaOf(inv.headers) == Some(CreateVia(local, branch))
      && var c := ContactOf(inv.headers).value.address;
      && c.user == from.address.user && ParseIP(c.host) == Some(local.ip) && c.port == local.port
      && inv.headers[10] == OtherH("Content-Type", SdpContentType)
  {
    var via, contact := CreateVia(local, branch), InviteContact(from, local);
    InviteHeadersRouting(via, callUuid, cs, from, ClonedTo(to, addrTo), contact, PrevHop(reqMaxForwards));
    InviteHeadersContact(via, callUuid, cs, from, ClonedTo(to, addrTo), contact, PrevHop(reqMaxForwards));
    ParseShow(local.ip);
  }

  /**
   * `createInviteOutgoing`: the local SDP offer comes first; if it fails, its
   * error is returned with no request and no sockets, and the sockets it
   * left open are named (`leaked`). Otherwise the INVITE
   * carries the marshalled offer for the new RTP/RTCP pair and a new CSeq
   * header numbered 1 + `rand` with method INVITE.
   * The From header (`None` for Go's nil) is dereferenced only after the
   * offer is built, so it is needed only when that succeeds.
   */
  method CreateInviteOutgoing(
    connSip: Conn, rtpHost: string, reqMaxForwards: Uint32, from: Option<NameAddr>, to: NameAddr, addrTo: UdpAddr,
    tempPort: Port, osRtp: BindOutcome, osRtcp: BindOutcome, sessionId: Uint32, sessionVersion: Uint32,
    marshal: SessionDescription -> Option<Bytes>, branch: string, rand: nat, callUuid: string)
    returns (invite: Option<Request>, rtp: Conn?, rtcp: Conn?, err: Option<Error>, ghost leaked: seq<Conn>)
    requires from.Some? || !LocalSdpSucceeds(rtpHost, osRtp, osRtcp, sessionId, sessionVersion, marshal)
    requires rand < MaxInitialSeq
    ensures err.None? <==> LocalSdpSucceeds(rtpHost, osRtp, osRtcp, sessionId, sessionVersion, marshal)
    ensures err.Some? <==> invite.None?
    ensures err.Some? ==> rtp == null && rtcp == null
    ensures osRtp.Refused? ==> err == Some(BindFailed(Rtp)) && leaked == []
    ensures osRtp.Bound? && !RtcpBinds(osRtp.ephemeral, osRtcp) ==> err == Some(BindFailed(Rtcp)) && |leaked| == 1
    ensures osRtp.Bound? && RtcpBinds(osRtp.ephemeral, osRtcp) && err.Some? ==> err == Some(SdpMarshal) && |leaked| == 2
    ensures forall c :: c in leaked ==> fresh(c) && !c.closed
    ensures err.None? ==> leaked == []
    ensures err.None? ==> rtp != null && rtcp != null && fresh(rtp) && fresh(rtcp) && !rtp.closed && !rtcp.closed
    ensures err.None? ==> rtp.laddr.ip == HostIP(rtpHost) && rtcp.laddr.port == rtp.laddr.port + 1
    ensures err.None? ==> Some(invite.value.body) == marshal(Answer(LocalOffer, rtp.laddr, rtcp.laddr, sessionId, sessionVersion))
    ensures err.None? ==> CSeqOf(invite.value.headers).Some? && fresh(CSeqOf(invite.value.headers).value)
    ensures err.None? ==> CSeqOf(invite.value.headers).value.seqNo == 1 + rand
    ensures err.None? ==> CSeqOf(invite.value.headers).value.methodName == INVITE
    ensures err.None? ==> invite.value == InviteRequest(connSip.laddr, addrTo, branch, callUuid,
      CSeqOf(invite.value.headers).value, reqMaxForwards, from.value, to, invite.value.body)
  {
    var data, r, c, e, _, lost := GenerateLocalSdp(connSip, rtpHost, tempPort, osRtp, osRtcp, sessionId, sessionVersion, marshal);
    leaked := lost;
    if e.Some? {
      return None, null, null, e, leaked;
    }
    var cs := new CSeqHeader(1 + rand, INVITE);
    var inv := InviteRequest(connSip.laddr, addrTo, branch, callUuid, cs, reqMaxForwards, from.value, to, data);
    InviteAddressing(connSip.laddr, addrTo, branch, callUuid, cs, reqMaxForwards, from.value, to, data);
    invite, rtp, rtcp, err := Some(inv), r, c, None;
  }

  /**
   * `CreateINVITE`: the inbound INVITE's Max-Forwards, From and To feed
   * `createInviteOutgoing`; its results come back as (RTP, RTCP, INVITE, error).
   * Max-Forwards and To are dereferenced before the offer is built; a
   * missing From matters only once the offer has been built.
   */
  method CreateInvite(
    connSip: Conn, rtpHost: string, req: Request, addrTo: UdpAddr,
    tempPort: Port, osRtp: BindOutcome, osRtcp: BindOutcome, sessionId: Uint32, sessionVersion: Uint32,
    marshal: SessionDescription -> Option<Bytes>, branch: string, rand: nat, callUuid: string)
    returns (rtp: Conn?, rtcp: Conn?, invite: Option<Request>, err: Option<Error>, ghost leaked: seq<Conn>)
    requires MaxForwardsOf(req.headers).Some? && ToOf(req.headers).Some?
    requires FromOf(req.headers).Some? || !LocalSdpSucceeds(rtpHost, osRtp, osRtcp, sessionId, sessionVersion, marshal)
    requires rand < MaxInitialSeq
    ensures err.None? <==> LocalSdpSucceeds(rtpHost, osRtp, osRtcp, sessionId, sessionVersion, marshal)
    ensures err.Some? <==> invite.None?
    ensures err.Some? ==> rtp == null && rtcp == null
    ensures osRtp.Refused? ==> err == Some(BindFailed(Rtp)) && leaked == []
    ensures osRtp.Bound? && !RtcpBinds(osRtp.ephemeral, osRtcp) ==> err == Some(BindFailed(Rtcp)) && |leaked| == 1
    ensures osRtp.Bound? && RtcpBinds(osRtp.ephemeral, osRtcp) && err.Some? ==> err == Some(SdpMarshal) && |leaked| == 2
    ensures forall c :: c in leaked ==> fresh(c) && !c.closed
    ensures err.None? ==> leaked == []
    ensures err.None? ==> rtp != null && rtcp != null && fresh(rtp) && fresh(rtcp) && !rtp.closed && !rtcp.closed
    ensures err.None? ==> rtp.laddr.ip == HostIP(rtpHost) && rtcp.laddr.port == rtp.laddr.port + 1
    ensures err.None? ==> Some(invite.value.body) == marshal(Answer(LocalOffer, rtp.laddr, rtcp.laddr, sessionId, sessionVersion))
    ensures err.None? ==> CSeqOf(invite.value.headers).Some? && fresh(CSeqOf(invite.value.headers).value)
    ensures err.None? ==> CSeqOf(invite.value.headers).value.seqNo == 1 + rand
    ensures err.None? ==> CSeqOf(invite.value.headers).value.methodName == INVITE
    ensures err.None? ==> invite.value == InviteRequest(connSip.laddr, addrTo, branch, callUuid,
      CSeqOf(invite.value.headers).value, MaxForwardsOf(req.headers).value, FromOf(req.headers).value,
      ToOf(req.headers).value, invite.value.body)
  {
    invite, rtp, rtcp, err, leaked := CreateInviteOutgoing(
      connSip, rtpHost, MaxForwardsOf(req.headers).value, FromOf(req.headers), ToOf(req.headers).value, addrTo,
      tempPort, osRtp, osRtcp, sessionId, sessionVersion, marshal, branch, rand, callUuid);
  }
}
