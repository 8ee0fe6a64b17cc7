/**
 * The in-dialog request builders (create_extras.go): the gateway's Via, the
 * ACK for an INVITE's final response, the two BYE variants and the CANCEL of
 * an outbound INVITE. Branch values are generated outside and passed in.
 */
module Extras {
  import opened Wrappers
  import opened Net
  import opened Sip

  const BranchParam: string := "branch"

  /** `CreateVIA`: SIP/2.0/UDP at the local address, a fresh branch and an empty `rport`. */
  function CreateVia(local: UdpAddr, branch: string): (v: ViaHeader)
    ensures v.protocolName == "SIP" && v.protocolVersion == "2.0" && v.transport == "UDP"
    ensures v.port == local.port
  {
    ViaHeader("SIP", "2.0", "UDP", Show(local.ip), local.port, map[BranchParam := branch, "rport" := ""])
  }

  /** The Via's host reads back as the local IP; its parameters are exactly the branch and an empty `rport`. */
  lemma CreateViaReadsBack(local: UdpAddr, branch: string)
    ensures var v := CreateVia(local, branch);
      && ParseIP(v.host) == Some(local.ip)
      && v.params.Keys == {BranchParam, "rport"}
      && v.params[BranchParam] == branch && v.params["rport"] == ""
  {
    ParseShow(local.ip);
  }

  /** The headers a received INVITE must carry for `CreateACK` not to dereference nil. */
  predicate AckableInvite(req: Request) {
    ContactOf(req.headers).Some? && ViaOf(req.headers).Some? && CSeqOf(req.headers).Some? && MaxForwardsOf(req.headers).Some?
  }

  /** The headers a response (or ACK) must carry for the builders that copy its dialog identifiers. */
  predicate HasDialog(hs: seq<Header>) {
    FromOf(hs).Some? && ToOf(hs).Some? && CallIdOf(hs).Some?
  }

  /** The ACK's header list, in the order `CreateACK` adds them. */
  function AckHeaders(via: ViaHeader, from: NameAddr, to: NameAddr, callId: string, cs: CSeqHeader, maxForwards: Uint32): seq<Header> {
    [ViaH(via), FromH(from), ToH(to), CallIdH(callId), CSeqH(cs), MaxForwardsH(maxForwards)] + Trailer
  }

  /** The ACK's Via and dialog identifiers read back as the values put in. */
  lemma AckHeadersRead(via: ViaHeader, from: NameAddr, to: NameAddr, callId: string, cs: CSeqHeader, maxForwards: Uint32)
    ensures var hs := AckHeaders(via, from, to, callId, cs, maxForwards);
      && ViaOf(hs) == Some(via) && FromOf(hs) == Some(from) && ToOf(hs) == Some(to) && CallIdOf(hs) == Some(callId)
  {
    var hs := AckHeaders(via, from, to, callId, cs, maxForwards);
    FindFirst(hs, KVia, 0);
    FindFirst(hs, KFrom, 1);
    FindFirst(hs, KTo, 2);
    FindFirst(hs, KCallId, 3);
  }

  /** The ACK's CSeq and Max-Forwards read back as the values put in; there is no Contact, and the trailer ends the list. */
  lemma AckHeadersRest(via: ViaHeader, from: NameAddr, to: NameAddr, callId: string, cs: CSeqHeader, maxForwards: Uint32)
    ensures var hs := AckHeaders(via, from, to, callId, cs, maxForwards);
      && CSeqOf(hs) == Some(cs) && MaxForwardsOf(hs) == Some(maxForwards)
      && ContactOf(hs).None? && |hs| == 8 && hs[6..] == Trailer
  {
    var hs := AckHeaders(via, from, to, callId, cs, maxForwards);
    FindFirst(hs, KCSeq, 4);
    FindFirst(hs, KMaxForwards, 5);
    FindNone(hs, KContact);
  }

  /** The ACK's target: the response's Contact address when it has one, else the INVITE's. */
  function AckTarget(req: Request, resp: Response): Uri
    requires ContactOf(req.headers).Some?
  {
    if ContactOf(resp.headers).Some? then ContactOf(resp.headers).value.address
    else ContactOf(req.headers).value.address
  }

  /** The ACK's Via: the gateway's, keeping the INVITE's branch when its Via has one. */
  function AckVia(req: Request, local: UdpAddr, branch: string): (v: ViaHeader)
    requires ViaOf(req.headers).Some?
    ensures v.port == local.port && v.transport == "UDP"
  {
    var generated := CreateVia(local, branch);
    var p := ViaOf(req.headers).value.params;
    generated.(params := generated.params[BranchParam := if BranchParam in p then p[BranchParam] else branch])
  }

  /** The ACK's Via host is the local IP, and its branch is the INVITE's when present, otherwise the fresh one. */
  lemma AckViaBranch(req: Request, local: UdpAddr, branch: string)
    requires ViaOf(req.headers).Some?
    ensures var v, p := AckVia(req, local, branch), ViaOf(req.headers).value.params;
      && ParseIP(v.host) == Some(local.ip)
      && BranchParam in v.params && "rport" in v.params
      && v.params[BranchParam] == if BranchParam in p then p[BranchParam] else branch
  {
    CreateViaReadsBack(local, branch);
  }

  /**
   * The ACK `CreateACK` builds, given the new CSeq header object `cs` (whose
   * number is the INVITE's and whose method is ACK).
   */
  function AckRequest(req: Request, resp: Response, local: UdpAddr, branch: string, cs: CSeqHeader): (ack: Request)
    requires AckableInvite(req) && HasDialog(resp.headers)
    ensures ack.requestMethod == ACK && ack.sipVersion == "SIP/2.0" && ack.body == []
    ensures ContactOf(resp.headers).Some? ==> ack.recipient == ContactOf(resp.headers).value.address
    ensures ContactOf(resp.headers).None? ==> ack.recipient == ContactOf(req.headers).value.address
  {
    var hs := AckHeaders(AckVia(req, local, branch), FromOf(resp.headers).value, ToOf(resp.headers).value,
                         CallIdOf(resp.headers).value, cs, MaxForwardsOf(req.headers).value);
    Request(ACK, AckTarget(req, resp), "SIP/2.0", hs, [])
  }

  /**
   * The ACK carries the gateway's Via, the response's dialog identifiers, the
   * new CSeq and the INVITE's Max-Forwards, no Contact, and ends with the trailer.
   */
  lemma AckDialog(req: Request, resp: Response, local: UdpAddr, branch: string, cs: CSeqHeader)
    requires AckableInvite(req) && HasDialog(resp.headers)
    ensures var hs := AckRequest(req, resp, local, branch, cs).headers;
      && ViaOf(hs) == Some(AckVia(req, local, branch))
      && FromOf(hs) == FromOf(resp.headers) && ToOf(hs) == ToOf(resp.headers)
      && CallIdOf(hs) == CallIdOf(resp.headers) && CSeqOf(hs) == Some(cs)
      && MaxForwardsOf(hs) == MaxForwardsOf(req.headers)
      && ContactOf(hs).None? && |hs| == 8 && hs[6..] == Trailer
  {
    AckHeadersRead(AckVia(req, local, branch), FromOf(resp.headers).value, ToOf(resp.headers).value,
                   CallIdOf(resp.headers).value, cs, MaxForwardsOf(req.headers).value);
    AckHeadersRest(AckVia(req, local, branch), FromOf(resp.headers).value, ToOf(resp.headers).value,
                   CallIdOf(resp.headers).value, cs, MaxForwardsOf(req.headers).value);
  }

  /** `CreateACK`: a new CSeq header carries the INVITE's number with method ACK. */
  method CreateAck(req: Request, resp: Response, local: UdpAddr, branch: string) returns (ack: Request)
    requires AckableInvite(req) && HasDialog(resp.headers)
    ensures CSeqOf(ack.headers).Some? && fresh(CSeqOf(ack.headers).value)
    ensures CSeqOf(ack.headers).value.seqNo == old(CSeqOf(req.headers).value.seqNo)
    ensures CSeqOf(ack.headers).value.methodName == ACK
    ensures ack == AckRequest(req, resp, local, branch, CSeqOf(ack.headers).value)
  {
    var seqNo := CSeqOf(req.headers).value.seqNo;
    var cs := new CSeqHeader(seqNo, ACK);
    ack := AckRequest(req, resp, local, branch, cs);
    AckDialog(req, resp, local, branch, cs);
    assert CSeqOf(ack.headers) == Some(cs);
  }

  /** `cseq.SeqNo + 1` on Go's `uint32`: wraps to 0 after 2^32 - 1. */
  function NextSeqNo(n: Uint32): (m: Uint32)
    ensures n < 0xffff_ffff ==> m == n + 1
    ensures n == 0xffff_ffff ==> m == 0
  {
    (n + 1) % 0x1_0000_0000
  }

  /**
   * The BYE's header list, in the order both `CreateBYE` variants add them:
   * the gateway's Via, the To and From headers the variant chose, the
   * Call-ID, the CSeq and Max-Forwards 70.
   */
  function ByeHeaders(via: ViaHeader, toHeader: Header, fromHeader: Header, callId: string, cs: CSeqHeader): seq<Header> {
    [ViaH(via), toHeader, fromHeader, CallIdH(callId), CSeqH(cs), MaxForwardsH(70)] + Trailer
  }

  /** A BYE's header list has eight entries, To and From at positions 1 and 2. */
  lemma ByeHeadersShape(via: ViaHeader, toHeader: Header, fromHeader: Header, callId: string, cs: CSeqHeader)
    ensures var hs := ByeHeaders(via, toHeader, fromHeader, callId, cs);
      |hs| == 8 && hs[1] == toHeader && hs[2] == fromHeader
  {
  }

  /** The kinds a BYE's To and From positions may hold: typed To/From or a generic header. */
  predicate IdentityKind(h: Header) {
    h.ToH? || h.FromH? || h.OtherH?
  }

  /** A BYE's Via and Call-ID read back as the values put in. */
  lemma ByeHeadersRead(via: ViaHeader, toHeader: Header, fromHeader: Header, callId: string, cs: CSeqHeader)
    requires IdentityKind(toHeader) && IdentityKind(fromHeader)
    ensures var hs := ByeHeaders(via, toHeader, fromHeader, callId, cs);
      ViaOf(hs) == Some(via) && CallIdOf(hs) == Some(callId)
  {
    var hs := ByeHeaders(via, toHeader, fromHeader, callId, cs);
    FindFirst(hs, KVia, 0);
    FindFirst(hs, KCallId, 3);
  }

  /** A BYE's CSeq and Max-Forwards read back as the values put in. */
  lemma ByeHeadersSequence(via: ViaHeader, toHeader: Header, fromHeader: Header, callId: string, cs: CSeqHeader)
    requires IdentityKind(toHeader) && IdentityKind(fromHeader)
    ensures var hs := ByeHeaders(via, toHeader, fromHeader, callId, cs);
      CSeqOf(hs) == Some(cs) && MaxForwardsOf(hs) == Some(70)
  {
    var hs := ByeHeaders(via, toHeader, fromHeader, callId, cs);
    FindFirst(hs, KCSeq, 4);
    FindFirst(hs, KMaxForwards, 5);
  }

  /** With To and From given as text, the typed To and From accessors find nothing. */
  lemma ByeHeadersUntyped(via: ViaHeader, toText: string, fromText: string, callId: string, cs: CSeqHeader)
    ensures var hs := ByeHeaders(via, OtherH("To", toText), OtherH("From", fromText), callId, cs);
      ToOf(hs).None? && FromOf(hs).None?
  {
    var hs := ByeHeaders(via, OtherH("To", toText), OtherH("From", fromText), callId, cs);
    FindNone(hs, KTo);
    FindNone(hs, KFrom);
  }

  /** With typed To and From, the accessors return them. */
  lemma ByeHeadersTyped(via: ViaHeader, to: NameAddr, from: NameAddr, callId: string, cs: CSeqHeader)
    ensures var hs := ByeHeaders(via, ToH(to), FromH(from), callId, cs);
      ToOf(hs) == Some(to) && FromOf(hs) == Some(from)
  {
    var hs := ByeHeaders(via, ToH(to), FromH(from), callId, cs);
    FindFirst(hs, KTo, 1);
    FindFirst(hs, KFrom, 2);
  }

  /** A BYE has no Contact, and the trailer ends its list. */
  lemma ByeHeadersRest(via: ViaHeader, toHeader: Header, fromHeader: Header, callId: string, cs: CSeqHeader)
    requires IdentityKind(toHeader) && IdentityKind(fromHeader)
    ensures var hs := ByeHeaders(via, toHeader, fromHeader, callId, cs);
      && ContactOf(hs).None? && |hs| == 8 && hs[6..] == Trailer
  {
    FindNone(ByeHeaders(via, toHeader, fromHeader, callId, cs), KContact);
  }

  /**
   * The BYE both variants build: a new Via, the given To and From headers,
   * the ACK's Call-ID and the new CSeq header, sent to the INVITE's Contact
   * with the INVITE's SIP version.
   */
  function Bye(inv: Request, lastAck: Request, local: UdpAddr, branch: string, cs: CSeqHeader,
               toHeader: Header, fromHeader: Header): (bye: Request)
    requires ContactOf(inv.headers).Some? && CallIdOf(lastAck.headers).Some?
    ensures bye.requestMethod == BYE && bye.recipient == ContactOf(inv.headers).value.address
    ensures bye.sipVersion == inv.sipVersion && bye.body == []
  {
    Request(BYE, ContactOf(inv.headers).value.address, inv.sipVersion,
            ByeHeaders(CreateVia(local, branch), toHeader, fromHeader, CallIdOf(lastAck.headers).value, cs), [])
  }

  /**
   * `CreateBYEtoUAS`: the callee leg. To and From are the ACK's From and To
   * swapped, added as generic headers carrying their rendered text
   * (`headerValue` is the library's `Value()`).
   */
  function ByeToUasRequest(inv: Request, lastAck: Request, local: UdpAddr, branch: string, cs: CSeqHeader,
                           headerValue: NameAddr -> string): (r: Request)
    requires ContactOf(inv.headers).Some? && HasDialog(lastAck.headers)
    ensures r.requestMethod == BYE && r.recipient == ContactOf(inv.headers).value.address
    ensures |r.headers| == 8 && r.headers[1] == OtherH("To", headerValue(FromOf(lastAck.headers).value))
    ensures r.headers[2] == OtherH("From", headerValue(ToOf(lastAck.headers).value))
  {
    var toText, fromText := headerValue(FromOf(lastAck.headers).value), headerValue(ToOf(lastAck.headers).value);
    ByeHeadersShape(CreateVia(local, branch), OtherH("To", toText), OtherH("From", fromText), CallIdOf(lastAck.headers).value, cs);
    Bye(inv, lastAck, local, branch, cs, OtherH("To", toText), OtherH("From", fromText))
  }

  /** `CreateBYEtoUAC`: the caller leg, where the ACK's To and From headers are reused unswapped. */
  function ByeToUacRequest(inv: Request, lastAck: Request, local: UdpAddr, branch: string, cs: CSeqHeader): (r: Request)
    requires ContactOf(inv.headers).Some? && HasDialog(lastAck.headers)
    ensures r.requestMethod == BYE && r.recipient == ContactOf(inv.headers).value.address
    ensures |r.headers| == 8 && r.headers[1] == ToH(ToOf(lastAck.headers).value) && r.headers[2] == FromH(FromOf(lastAck.headers).value)
  {
    var to, from := ToOf(lastAck.headers).value, FromOf(lastAck.headers).value;
    ByeHeadersShape(CreateVia(local, branch), ToH(to), FromH(from), CallIdOf(lastAck.headers).value, cs);
    Bye(inv, lastAck, local, branch, cs, ToH(to), FromH(from))
  }

  /**
   * The callee-leg BYE addresses the ACK's From and comes from the ACK's To,
   * as text: the typed To and From accessors find nothing in it. It stays in
   * the ACK's dialog.
   */
  lemma ByeToUasSwaps(inv: Request, lastAck: Request, local: UdpAddr, branch: string, cs: CSeqHeader,
                      headerValue: NameAddr -> string)
    requires ContactOf(inv.headers).Some? && HasDialog(lastAck.headers)
    ensures var hs := ByeToUasRequest(inv, lastAck, local, branch, cs, headerValue).headers;
      && hs[1] == OtherH("To", headerValue(FromOf(lastAck.headers).value))
      && hs[2] == OtherH("From", headerValue(ToOf(lastAck.headers).value))
      && ToOf(hs).None? && FromOf(hs).None?
      && CallIdOf(hs) == CallIdOf(lastAck.headers) && CSeqOf(hs) == Some(cs)
      && ViaOf(hs) == Some(CreateVia(local, branch)) && MaxForwardsOf(hs) == Some(70)
  {
    var via, callId := CreateVia(local, branch), CallIdOf(lastAck.headers).value;
    var toText, fromText := headerValue(FromOf(lastAck.headers).value), headerValue(ToOf(lastAck.headers).value);
    ByeHeadersRead(via, OtherH("To", toText), OtherH("From", fromText), callId, cs);
    ByeHeadersSequence(via, OtherH("To", toText), OtherH("From", fromText), callId, cs);
    ByeHeadersUntyped(via, toText, fromText, callId, cs);
  }

  /** The caller-leg BYE keeps the ACK's To and From, in the ACK's dialog. */
  lemma ByeToUacKeeps(inv: Request, lastAck: Request, local: UdpAddr, branch: string, cs: CSeqHeader)
    requires ContactOf(inv.headers).Some? && HasDialog(lastAck.headers)
    ensures var hs := ByeToUacRequest(inv, lastAck, local, branch, cs).headers;
      && ToOf(hs) == ToOf(lastAck.headers) && FromOf(hs) == FromOf(lastAck.headers)
      && CallIdOf(hs) == CallIdOf(lastAck.headers) && CSeqOf(hs) == Some(cs)
      && ViaOf(hs) == Some(CreateVia(local, branch)) && MaxForwardsOf(hs) == Some(70)
  {
    var via, callId := CreateVia(local, branch), CallIdOf(lastAck.headers).value;
    var to, from := ToOf(lastAck.headers).value, FromOf(lastAck.headers).value;
    ByeHeadersRead(via, ToH(to), FromH(from), callId, cs);
    ByeHeadersSequence(via, ToH(to), FromH(from), callId, cs);
    ByeHeadersTyped(via, to, from, callId, cs);
  }

  /**
   * The two BYE variants differ only in their To and From: the callee leg's
   * are the text of the caller leg's From and To.
   */
  lemma ByeVariantsMirror(inv: Request, lastAck: Request, local: UdpAddr, branch: string, cs: CSeqHeader,
                          headerValue: NameAddr -> string)
    requires ContactOf(inv.headers).Some? && HasDialog(lastAck.headers)
    ensures var uas, uac := ByeToUasRequest(inv, lastAck, local, branch, cs, headerValue), ByeToUacRequest(inv, lastAck, local, branch, cs);
      && uas.recipient == uac.recipient && uas.sipVersion == uac.sipVersion
      && FromOf(uac.headers).Some? && ToOf(uac.headers).Some?
      && uas.headers[1] == OtherH("To", headerValue(FromOf(uac.headers).value))
      && uas.headers[2] == OtherH("From", headerValue(ToOf(uac.headers).value))
      && |uas.headers| == |uac.headers| == 8
      && uas.headers[0] == uac.headers[0] && uas.headers[3..] == uac.headers[3..]
  {
    var via, callId := CreateVia(local, branch), CallIdOf(lastAck.headers).value;
    var to, from := ToOf(lastAck.headers).value, FromOf(lastAck.headers).value;
    ByeHeadersTail(via, OtherH("To", headerValue(from)), OtherH("From", headerValue(to)), callId, cs);
    ByeHeadersTail(via, ToH(to), FromH(from), callId, cs);
    ByeToUasSwaps(inv, lastAck, local, branch, cs, headerValue);
    ByeToUacKeeps(inv, lastAck, local, branch, cs);
  }

  /** Past To and From, a BYE's headers do not depend on them. */
  lemma ByeHeadersTail(via: ViaHeader, toHeader: Header, fromHeader: Header, callId: string, cs: CSeqHeader)
    ensures ByeHeaders(via, toHeader, fromHeader, callId, cs)[3..] == [CallIdH(callId), CSeqH(cs), MaxForwardsH(70)] + Trailer
  {
  }

  /** `CreateBYEtoUAS`: the new CSeq is the ACK's number plus one (in `uint32`) with method BYE. */
  method CreateByeToUas(inv: Request, lastAck: Request, local: UdpAddr, branch: string, headerValue: NameAddr -> string)
    returns (bye: Request)
    requires ContactOf(inv.headers).Some? && HasDialog(lastAck.headers) && CSeqOf(lastAck.headers).Some?
    ensures CSeqOf(bye.headers).Some? && fresh(CSeqOf(bye.headers).value)
    ensures CSeqOf(bye.headers).value.seqNo == NextSeqNo(old(CSeqOf(lastAck.headers).value.seqNo))
    ensures CSeqOf(bye.headers).value.methodName == BYE
    ensures bye == ByeToUasRequest(inv, lastAck, local, branch, CSeqOf(bye.headers).value, headerValue)
  {
    var cs := new CSeqHeader(NextSeqNo(CSeqOf(lastAck.headers).value.seqNo), BYE);
    bye := ByeToUasRequest(inv, lastAck, local, branch, cs, headerValue);
    ByeToUasSwaps(inv, lastAck, local, branch, cs, headerValue);
    assert CSeqOf(bye.headers) == Some(cs);
  }

  /** `CreateBYEtoUAC`: the same CSeq rule as the callee leg. */
  method CreateByeToUac(inv: Request, lastAck: Request, local: UdpAddr, branch: string) returns (bye: Request)
    requires ContactOf(inv.headers).Some? && HasDialog(lastAck.headers) && CSeqOf(lastAck.headers).Some?
    ensures CSeqOf(bye.headers).Some? && fresh(CSeqOf(bye.headers).value)
    ensures CSeqOf(bye.headers).value.seqNo == NextSeqNo(old(CSeqOf(lastAck.headers).value.seqNo))
    ensures CSeqOf(bye.headers).value.methodName == BYE
    ensures bye == ByeToUacRequest(inv, lastAck, local, branch, CSeqOf(bye.headers).value)
  {
    var cs := new CSeqHeader(NextSeqNo(CSeqOf(lastAck.headers).value.seqNo), BYE);
    bye := ByeToUacRequest(inv, lastAck, local, branch, cs);
    ByeToUacKeeps(inv, lastAck, local, branch, cs);
    assert CSeqOf(bye.headers) == Some(cs);
  }

  /** The headers an outbound INVITE carries when it is cancelled. */
  predicate CancellableInvite(inv: Request) {
    ViaOf(inv.headers).Some? && MaxForwardsOf(inv.headers).Some? && HasDialog(inv.headers) && CSeqOf(inv.headers).Some?
  }

  /** The CANCEL's header list, in the order `CreateCANCELtoUAC` adds them. */
  function CancelHeaders(via: ViaHeader, maxForwards: Uint32, from: NameAddr, to: NameAddr, callId: string, cs: CSeqHeader): seq<Header> {
    [ViaH(via), MaxForwardsH(maxForwards), FromH(from), ToH(to), CallIdH(callId), CSeqH(cs)] + Trailer
  }

  /** The CANCEL's Via, Max-Forwards, From and To read back as the values put in. */
  lemma CancelHeadersRead(via: ViaHeader, maxForwards: Uint32, from: NameAddr, to: NameAddr, callId: string, cs: CSeqHeader)
    ensures var hs := CancelHeaders(via, maxForwards, from, to, callId, cs);
      && ViaOf(hs) == Some(via) && MaxForwardsOf(hs) == Some(maxForwards) && FromOf(hs) == Some(from) && ToOf(hs) == Some(to)
  {
    var hs := CancelHeaders(via, maxForwards, from, to, callId, cs);
    FindFirst(hs, KVia, 0);
    FindFirst(hs, KMaxForwards, 1);
    FindFirst(hs, KFrom, 2);
    FindFirst(hs, KTo, 3);
  }

  /** The CANCEL's Call-ID and CSeq read back as the values put in; there is no Contact, and the trailer ends the list. */
  lemma CancelHeadersRest(via: ViaHeader, maxForwards: Uint32, from: NameAddr, to: NameAddr, callId: string, cs: CSeqHeader)
    ensures var hs := CancelHeaders(via, maxForwards, from, to, callId, cs);
      && CallIdOf(hs) == Some(callId) && CSeqOf(hs) == Some(cs)
      && ContactOf(hs).None? && |hs| == 8 && hs[6..] == Trailer
  {
    var hs := CancelHeaders(via, maxForwards, from, to, callId, cs);
    FindFirst(hs, KCallId, 4);
    FindFirst(hs, KCSeq, 5);
    FindNone(hs, KContact);
  }

  /** The CANCEL `CreateCANCELtoUAC` builds: the INVITE's own Via, identities and CSeq header object. */
  function CancelRequest(inv: Request): (cancel: Request)
    requires CancellableInvite(inv)
    ensures cancel.requestMethod == CANCEL && cancel.recipient == inv.recipient
    ensures cancel.sipVersion == "SIP/2.0" && cancel.body == []
  {
    var hs := CancelHeaders(ViaOf(inv.headers).value, MaxForwardsOf(inv.headers).value, FromOf(inv.headers).value,
                            ToOf(inv.headers).value, CallIdOf(inv.headers).value, CSeqOf(inv.headers).value);
    Request(CANCEL, inv.recipient, "SIP/2.0", hs, [])
  }

  /** A CANCEL matches its INVITE: same Via, Max-Forwards, From, To, Call-ID and CSeq header object. */
  lemma CancelMatchesInvite(inv: Request)
    requires CancellableInvite(inv)
    ensures var hs := CancelRequest(inv).headers;
      && ViaOf(hs) == ViaOf(inv.headers) && MaxForwardsOf(hs) == MaxForwardsOf(inv.headers)
      && FromOf(hs) == FromOf(inv.headers) && ToOf(hs) == ToOf(inv.headers)
      && CallIdOf(hs) == CallIdOf(inv.headers) && CSeqOf(hs) == CSeqOf(inv.headers)
      && hs[6..] == Trailer
  {
    CancelHeadersRead(ViaOf(inv.headers).value, MaxForwardsOf(inv.headers).value, FromOf(inv.headers).value,
                      ToOf(inv.headers).value, CallIdOf(inv.headers).value, CSeqOf(inv.headers).value);
    CancelHeadersRest(ViaOf(inv.headers).value, MaxForwardsOf(inv.headers).value, FromOf(inv.headers).value,
                      ToOf(inv.headers).value, CallIdOf(inv.headers).value, CSeqOf(inv.headers).value);
  }

  /**
   * `CreateCANCELtoUAC`: the INVITE's CSeq header is switched to CANCEL in
   * place and shared with the CANCEL, so the INVITE's CSeq now also reads
   * CANCEL; its number is kept.
   */
  method CreateCancelToUac(inv: Request) returns (cancel: Request)
    requires CancellableInvite(inv)
    modifies CSeqOf(inv.headers).value
    ensures CSeqOf(inv.headers).value.methodName == CANCEL
    ensures CSeqOf(inv.headers).value.seqNo == old(CSeqOf(inv.headers).value.seqNo)
    ensures cancel == CancelRequest(inv)
  {
    var cs := CSeqOf(inv.headers).value;
    cs.methodName := CANCEL;
    cancel := CancelRequest(inv);
  }
}
