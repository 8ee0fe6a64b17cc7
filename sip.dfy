/**
 * SIP messages as the request builders see them: a method, a Request-URI, a
 * version, an ordered header list and a body. Header values are values,
 * except the CSeq header, which is an object: the builders reach the CSeq of
 * an existing request by reference and change it in place, so several
 * messages can share one CSeq header.
 */
module Sip {
  import opened Wrappers
  import opened Net

  /** The product string every builder puts in `User-Agent`. */
  const UserAgent: string := "Andres/0.1"

  type Uint32 = x: int | 0 <= x < 0x1_0000_0000

  datatype Method = INVITE | ACK | BYE | CANCEL | REGISTER | OtherMethod(name: string)

  /** `RequestMethod.String()`. */
  function MethodName(m: Method): string {
    match m
    case INVITE => "INVITE"
    case ACK => "ACK"
    case BYE => "BYE"
    case CANCEL => "CANCEL"
    case REGISTER => "REGISTER"
    case OtherMethod(name) => name
  }

  /** Header and URI parameters: adding a key that is present overwrites its value. */
  type Params = map<string, string>

  datatype Uri = Uri(scheme: string, user: string, host: string, port: int, uriParams: Params)

  datatype ViaHeader = ViaHeader(
    protocolName: string, protocolVersion: string, transport: string,
    host: string, port: int, params: Params)

  /** The shape shared by From, To and Contact. */
  datatype NameAddr = NameAddr(displayName: string, address: Uri, params: Params)

  /** The CSeq header, updated in place through shared references. */
  class CSeqHeader {
    var seqNo: Uint32
    var methodName: Method

    constructor (seqNo: Uint32, methodName: Method)
      ensures this.seqNo == seqNo && this.methodName == methodName
    {
      this.seqNo := seqNo;
      this.methodName := methodName;
    }
  }

  datatype Header =
    | ViaH(via: ViaHeader)
    | FromH(from: NameAddr)
    | ToH(to: NameAddr)
    | ContactH(contact: NameAddr)
    | CallIdH(callId: string)
    | CSeqH(cseq: CSeqHeader)
    | MaxForwardsH(maxForwards: Uint32)
    | RouteH(route: Uri)
    | ExpiresH(expires: Uint32)
    | OtherH(name: string, value: string)

  datatype Request = Request(requestMethod: Method, recipient: Uri, sipVersion: string, headers: seq<Header>, body: Bytes)

  datatype Response = Response(statusCode: int, reason: string, headers: seq<Header>, body: Bytes)

  /** `sip.NewRequest`: version SIP/2.0, no headers, no body. */
  function NewRequest(m: Method, recipient: Uri): Request {
    Request(m, recipient, "SIP/2.0", [], [])
  }

  /** The two headers every in-dialog request built here ends with. */
  const Trailer: seq<Header> := [OtherH("User-Agent", UserAgent), OtherH("Content-Length", "0")]

  datatype Kind = KVia | KFrom | KTo | KContact | KCallId | KCSeq | KMaxForwards | KRoute | KExpires | KOther

  function KindOf(h: Header): Kind {
    match h
    case ViaH(_) => KVia
    case FromH(_) => KFrom
    case ToH(_) => KTo
    case ContactH(_) => KContact
    case CallIdH(_) => KCallId
    case CSeqH(_) => KCSeq
    case MaxForwardsH(_) => KMaxForwards
    case RouteH(_) => KRoute
    case ExpiresH(_) => KExpires
    case OtherH(_, _) => KOther
  }

  /** The position of the first header of kind k, which is what the typed accessors return. */
  function Find(hs: seq<Header>, k: Kind): (r: Option<nat>)
    ensures r.Some? ==> r.value < |hs| && KindOf(hs[r.value]) == k
  {
    if hs == [] then None
    else if KindOf(hs[0]) == k then Some(0)
    else match Find(hs[1..], k)
      case Some(i) => Some(i + 1)
      case None => None
  }

  /** A header of kind k with none before it is the one `Find` returns. */
  lemma {:induction false} FindFirst(hs: seq<Header>, k: Kind, i: nat)
    requires i < |hs| && KindOf(hs[i]) == k
    requires forall j :: 0 <= j < i ==> KindOf(hs[j]) != k
    ensures Find(hs, k) == Some(i)
  {
    if i > 0 {
      FindFirst(hs[1..], k, i - 1);
    }
  }

  /** Without a header of kind k, `Find` returns nothing. */
  lemma {:induction false} FindNone(hs: seq<Header>, k: Kind)
    requires forall j :: 0 <= j < |hs| ==> KindOf(hs[j]) != k
    ensures Find(hs, k) == None
  {
    if hs != [] {
      FindNone(hs[1..], k);
    }
  }

  function ViaOf(hs: seq<Header>): Option<ViaHeader> {
    match Find(hs, KVia) case Some(i) => Some(hs[i].via) case None => None
  }

  function FromOf(hs: seq<Header>): Option<NameAddr> {
    match Find(hs, KFrom) case Some(i) => Some(hs[i].from) case None => None
  }

  function ToOf(hs: seq<Header>): Option<NameAddr> {
    match Find(hs, KTo) case Some(i) => Some(hs[i].to) case None => None
  }

  function ContactOf(hs: seq<Header>): Option<NameAddr> {
    match Find(hs, KContact) case Some(i) => Some(hs[i].contact) case None => None
  }

  function CallIdOf(hs: seq<Header>): Option<string> {
    match Find(hs, KCallId) case Some(i) => Some(hs[i].callId) case None => None
  }

  function CSeqOf(hs: seq<Header>): Option<CSeqHeader> {
    match Find(hs, KCSeq) case Some(i) => Some(hs[i].cseq) case None => None
  }

  function MaxForwardsOf(hs: seq<Header>): Option<Uint32> {
    match Find(hs, KMaxForwards) case Some(i) => Some(hs[i].maxForwards) case None => None
  }

  function RouteOf(hs: seq<Header>): Option<Uri> {
    match Find(hs, KRoute) case Some(i) => Some(hs[i].route) case None => None
  }

  function ExpiresOf(hs: seq<Header>): Option<Uint32> {
    match Find(hs, KExpires) case Some(i) => Some(hs[i].expires) case None => None
  }

  /** `Find` looks at kinds only: two lists with the same kinds position by position agree. */
  lemma {:induction false} FindSameKinds(a: seq<Header>, b: seq<Header>, k: Kind)
    requires |a| == |b| && forall i :: 0 <= i < |a| ==> KindOf(a[i]) == KindOf(b[i])
    ensures Find(a, k) == Find(b, k)
  {
    if a != [] {
      assert KindOf(a[0]) == KindOf(b[0]);
      FindSameKinds(a[1..], b[1..], k);
    }
  }

  /** Headers appended behind the first header of kind k do not change which one `Find` sees. */
  lemma {:induction false} FindAppend(hs: seq<Header>, more: seq<Header>, k: Kind)
    requires Find(hs, k).Some?
    ensures Find(hs + more, k) == Find(hs, k)
  {
    if KindOf(hs[0]) != k {
      assert (hs + more)[1..] == hs[1..] + more;
      FindAppend(hs[1..], more, k);
    }
  }

  /** The values of the generic headers called `name`, in order. */
  function OthersNamed(hs: seq<Header>, name: string): seq<string> {
    if hs == [] then []
    else (if hs[0].OtherH? && hs[0].name == name then [hs[0].value] else []) + OthersNamed(hs[1..], name)
  }

  /** `ReplaceHeader`: the first header of the same kind is replaced; nothing else moves. */
  function ReplaceFirst(hs: seq<Header>, h: Header): (r: seq<Header>)
    ensures |r| == |hs|
    ensures Find(hs, KindOf(h)).Some? ==> r[Find(hs, KindOf(h)).value] == h
    ensures forall k :: 0 <= k < |hs| && KindOf(hs[k]) != KindOf(h) ==> r[k] == hs[k]
    ensures Find(hs, KindOf(h)).None? ==> r == hs
  {
    match Find(hs, KindOf(h))
    case Some(i) => hs[i := h]
    case None => hs
  }

  /**
   * `Request.Clone`: a deep copy. Every header is copied by value; each CSeq
   * header becomes a new object with the same number and method.
   */
  method CloneHeaders(hs: seq<Header>) returns (c: seq<Header>)
    ensures |c| == |hs|
    ensures forall i :: 0 <= i < |hs| && !hs[i].CSeqH? ==> c[i] == hs[i]
    ensures forall i :: 0 <= i < |hs| && hs[i].CSeqH? ==>
      c[i].CSeqH? && fresh(c[i].cseq) &&
      c[i].cseq.seqNo == hs[i].cseq.seqNo && c[i].cseq.methodName == hs[i].cseq.methodName
  {
    c := [];
    var i := 0;
    while i < |hs|
      invariant 0 <= i <= |hs| && |c| == i
      invariant forall j :: 0 <= j < i && !hs[j].CSeqH? ==> c[j] == hs[j]
      invariant forall j :: 0 <= j < i && hs[j].CSeqH? ==>
        c[j].CSeqH? && fresh(c[j].cseq) &&
        c[j].cseq.seqNo == hs[j].cseq.seqNo && c[j].cseq.methodName == hs[j].cseq.methodName
    {
      var h := hs[i];
      if h.CSeqH? {
        var copy := new CSeqHeader(h.cseq.seqNo, h.cseq.methodName);
        h := CSeqH(copy);
      }
      c := c + [h];
      i := i + 1;
    }
  }
}
