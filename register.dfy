/**
 * Registration with the upstream registrar (create_register.go): the
 * credentials object, the REGISTER request and the digest-authenticated
 * retry. The digest library's challenge parser and solver, and the random
 * and UUID sources, are passed in.
 */
module Register {
  import opened Wrappers
  import opened Net
  import opened Sip
  import opened Errors
  import opened Extras

  /** The URI scheme of every address the REGISTER names. */
  const Scheme: string := "sip"

  /** Exclusive bound of the random part of the initial CSeq number (1 << 16). */
  const MaxV: nat := 0x1_0000

  /** How long the registration is asked to last, in seconds. */
  const RegisterExpires: Uint32 := 300

  const RegisterAllow: string := "PRACK, INVITE, ACK, BYE, CANCEL, UPDATE, INFO, SUBSCRIBE, NOTIFY, REFER, MESSAGE, OPTIONS"

  /** The registrar account; the password is private and only `SetPassword` changes it. */
  class Credentials {
    var username: string
    var password: string
    var host: string
    var port: int

    constructor (username: string, host: string, port: int)
      ensures this.username == username && this.host == host && this.port == port && password == ""
    {
      this.username := username;
      this.host := host;
      this.port := port;
      password := "";
    }

    method SetPassword(password: string)
      modifies this
      ensures this.password == password
      ensures username == old(username) && host == old(host) && port == old(port)
    {
      this.password := password;
    }
  }

  /** Credentials with an empty host, user name or password are not used to answer a challenge. */
  predicate Incomplete(c: Credentials)
    reads c
  {
    c.host == "" || c.username == "" || c.password == ""
  }

  /** What the digest solver is asked to sign. */
  datatype DigestOptions = DigestOptions(requestMethod: string, uri: string, username: string, password: string)

  function DigestOptionsFor(req: Request, c: Credentials): (o: DigestOptions)
    reads c
    ensures o.requestMethod == MethodName(req.requestMethod) && o.uri == c.host
    ensures o.username == c.username && o.password == c.password
  {
    DigestOptions(MethodName(req.requestMethod), c.host, c.username, c.password)
  }

  /**
   * `AuthRequest`: the CSeq of `req` is incremented in place (in `uint32`)
   * before anything else, so it moves on every call, failures included. On
   * success the result is a clone of `req` that carries the original CSeq
   * header object and, when a challenge was answered, one `Authorization`
   * header at the end.
   */
  method AuthRequest<C>(wwwAuth: string, creds: Credentials?, req: Request,
                        parseChallenge: string -> Option<C>, solve: (C, DigestOptions) -> Option<string>)
    returns (r: Result<Request, Error>)
    requires CSeqOf(req.headers).Some?
    modifies CSeqOf(req.headers).value
    ensures CSeqOf(req.headers).value.seqNo == NextSeqNo(old(CSeqOf(req.headers).value.seqNo))
    ensures CSeqOf(req.headers).value.methodName == old(CSeqOf(req.headers).value.methodName)
    ensures creds == null ==> r == Err(NoCreds)
    ensures creds != null && Incomplete(creds) ==> r.Ok? && |r.value.headers| == |req.headers|
    ensures creds != null && !Incomplete(creds) && wwwAuth == "" ==> r == Err(MissingChallenge)
    ensures creds != null && !Incomplete(creds) && wwwAuth != "" && parseChallenge(wwwAuth).None? ==>
      r == Err(ChallengeParse)
    ensures creds != null && !Incomplete(creds) && wwwAuth != "" && parseChallenge(wwwAuth).Some? ==>
      match solve(parseChallenge(wwwAuth).value, DigestOptionsFor(req, creds))
      case None => r == Err(DigestCompute)
      case Some(solution) =>
        r.Ok? && |r.value.headers| == |req.headers| + 1
        && r.value.headers[|req.headers|] == OtherH("Authorization", solution)
    ensures r.Ok? ==> r.value.requestMethod == req.requestMethod && r.value.recipient == req.recipient
    ensures r.Ok? ==> r.value.sipVersion == req.sipVersion && r.value.body == req.body
    ensures r.Ok? ==> CSeqOf(r.value.headers) == CSeqOf(req.headers)
    ensures r.Ok? ==> forall i :: 0 <= i < |req.headers| && !req.headers[i].CSeqH? ==> r.value.headers[i] == req.headers[i]
  {
    var cs := CSeqOf(req.headers).value;
    cs.seqNo := NextSeqNo(cs.seqNo);

    var cloned := CloneHeaders(req.headers);
    FindSameKinds(cloned, req.headers, KCSeq);
    var hs := ReplaceFirst(cloned, CSeqH(cs));
    FindSameKinds(hs, cloned, KCSeq);
    var authenticated := Request(req.requestMethod, req.recipient, req.sipVersion, hs, req.body);

    if creds == null {
      return Err(NoCreds);
    }
    if creds.host == "" || creds.username == "" || creds.password == "" {
      return Ok(authenticated);
    }
    if wwwAuth == "" {
      return Err(MissingChallenge);
    }
    var challenge := parseChallenge(wwwAuth);
    if challenge.None? {
      return Err(ChallengeParse);
    }
    var solution := solve(challenge.value, DigestOptions(MethodName(req.requestMethod), creds.host, creds.username, creds.password));
    if solution.None? {
      return Err(DigestCompute);
    }
    r := Ok(authenticated.(headers := hs + [OtherH("Authorization", solution.value)]));
    FindAppend(hs, [OtherH("Authorization", solution.value)], KCSeq);
  }

  /** The REGISTER's header list, in the order `CreateREGISTER` appends them. */
  function RegisterHeaders(via: ViaHeader, route: Uri, cs: CSeqHeader, contact: NameAddr, callId: string,
                           from: NameAddr, to: NameAddr): seq<Header> {
    [ ViaH(via), OtherH("Max-Forwards", "70"), RouteH(route), CSeqH(cs), OtherH("User-Agent", UserAgent),
      ExpiresH(RegisterExpires), OtherH("Allow", RegisterAllow), ContactH(contact), CallIdH(callId),
      FromH(from), ToH(to) ]
  }

  /** The REGISTER's Via, Route and CSeq read back as the values put in. */
  lemma RegisterHeadersRouting(via: ViaHeader, route: Uri, cs: CSeqHeader, contact: NameAddr, callId: string,
                               from: NameAddr, to: NameAddr)
    ensures var hs := RegisterHeaders(via, route, cs, contact, callId, from, to);
      && ViaOf(hs) == Some(via) && RouteOf(hs) == Some(route) && CSeqOf(hs) == Some(cs)
  {
    var hs := RegisterHeaders(via, route, cs, contact, callId, from, to);
    FindFirst(hs, KVia, 0);
    FindFirst(hs, KRoute, 2);
    FindFirst(hs, KCSeq, 3);
  }

  /** The REGISTER's Expires is 300 and its Contact reads back as the one put in. */
  lemma RegisterHeadersBinding(via: ViaHeader, route: Uri, cs: CSeqHeader, contact: NameAddr, callId: string,
                               from: NameAddr, to: NameAddr)
    ensures var hs := RegisterHeaders(via, route, cs, contact, callId, from, to);
      && ExpiresOf(hs) == Some(RegisterExpires) && ContactOf(hs) == Some(contact)
  {
    var hs := RegisterHeaders(via, route, cs, contact, callId, from, to);
    FindFirst(hs, KExpires, 5);
    FindFirst(hs, KContact, 7);
  }

  /** The REGISTER's Call-ID and From read back as the values put in. */
  lemma RegisterHeadersIdentity(via: ViaHeader, route: Uri, cs: CSeqHeader, contact: NameAddr, callId: string,
                               from: NameAddr, to: NameAddr)
    ensures var hs := RegisterHeaders(via, route, cs, contact, callId, from, to);
      && CallIdOf(hs) == Some(callId) && FromOf(hs) == Some(from)
  {
    var hs := RegisterHeaders(via, route, cs, contact, callId, from, to);
    FindFirst(hs, KCallId, 8);
    FindFirst(hs, KFrom, 9);
  }

  /** The REGISTER's To, the last header, reads back as the one put in. */
  lemma RegisterHeadersTo(via: ViaHeader, route: Uri, cs: CSeqHeader, contact: NameAddr, callId: string,
                               from: NameAddr, to: NameAddr)
    ensures ToOf(RegisterHeaders(via, route, cs, contact, callId, from, to)) == Some(to)
  {
    FindFirst(RegisterHeaders(via, route, cs, contact, callId, from, to), KTo, 10);
  }

  /** Max-Forwards goes in as a generic header, so the typed accessor finds none. */
  lemma RegisterMaxForwardsGeneric(via: ViaHeader, route: Uri, cs: CSeqHeader, contact: NameAddr, callId: string,
                               from: NameAddr, to: NameAddr)
    ensures var hs := RegisterHeaders(via, route, cs, contact, callId, from, to);
      && MaxForwardsOf(hs).None? && hs[1] == OtherH("Max-Forwards", "70")
  {
    var hs := RegisterHeaders(via, route, cs, contact, callId, from, to);
    FindNone(hs, KMaxForwards);
  }

  /** The Call-ID: the caller's when it is non-empty, else a fresh UUID. */
  function RegisterCallId(callId: string, uuid: string): (id: string)
    ensures callId != "" ==> id == callId
    ensures callId == "" ==> id == uuid
  {
    if callId != "" then callId else uuid
  }

  /** The registrar's address with the given parameters. */
  function Registrar(host: string, port: int, params: Params): (u: Uri)
    ensures u.scheme == Scheme && u.user == "" && u.host == host && u.port == port && u.uriParams == params
  {
    Uri(Scheme, "", host, port, params)
  }

  /** The account's address of record, `sip:user@host` without a port. */
  function AddressOfRecord(username: string, host: string): (u: Uri)
    ensures u.scheme == Scheme && u.user == username && u.host == host && u.port == 0 && u.uriParams == map[]
  {
    Uri(Scheme, username, host, 0, map[])
  }

  /**
   * The REGISTER `CreateREGISTER` builds for the account (host, port,
   * username), given the new CSeq header object `cs`, the Via branch and the
   * two UUIDs it draws (the Call-ID fallback and the From tag).
   */
  function RegisterRequest(host: string, port: int, username: string, callId: string, local: UdpAddr,
                           branch: string, cs: CSeqHeader, callUuid: string, tagUuid: string): (req: Request)
    ensures req.requestMethod == REGISTER && req.sipVersion == "SIP/2.0" && req.body == []
    ensures req.recipient == Registrar(host, port, map[])
  {
    var route := Registrar(host, port, map["lr" := ""]);
    var contact := NameAddr("", Uri(Scheme, username, Show(local.ip), local.port, map["ob" := ""]), map[]);
    var from := NameAddr("", AddressOfRecord(username, host), map["tag" := tagUuid]);
    var to := NameAddr("", AddressOfRecord(username, host), map[]);
    var hs := RegisterHeaders(CreateVia(local, branch), route, cs, contact, RegisterCallId(callId, callUuid), from, to);
    NewRequest(REGISTER, Registrar(host, port, map[])).(headers := hs)
  }

  /**
   * A REGISTER is sent to the registrar and routed through it with loose
   * routing; From and To are both the account's address of record, and only
   * From is tagged; Expires is 300.
   */
  lemma RegisterAddressing(host: string, port: int, username: string, callId: string, local: UdpAddr,
                           branch: string, cs: CSeqHeader, callUuid: string, tagUuid: string)
    ensures var req := RegisterRequest(host, port, username, callId, local, branch, cs, callUuid, tagUuid);
      && RouteOf(req.headers) == Some(req.recipient.(uriParams := map["lr" := ""]))
      && FromOf(req.headers).Some? && ToOf(req.headers).Some?
      && FromOf(req.headers).value.address == ToOf(req.headers).value.address == AddressOfRecord(username, host)
      && FromOf(req.headers).value.params == map["tag" := tagUuid] && ToOf(req.headers).value.params == map[]
      && CSeqOf(req.headers) == Some(cs) && ExpiresOf(req.headers) == Some(RegisterExpires)
      && CallIdOf(req.headers) == Some(RegisterCallId(callId, callUuid))
  {
    var route := Registrar(host, port, map["lr" := ""]);
    var contact := NameAddr("", Uri(Scheme, username, Show(local.ip), local.port, map["ob" := ""]), map[]);
    var from := NameAddr("", AddressOfRecord(username, host), map["tag" := tagUuid]);
    var to := NameAddr("", AddressOfRecord(username, host), map[]);
    RegisterHeadersRouting(CreateVia(local, branch), route, cs, contact, RegisterCallId(callId, callUuid), from, to);
    RegisterHeadersBinding(CreateVia(local, branch), route, cs, contact, RegisterCallId(callId, callUuid), from, to);
    RegisterHeadersIdentity(CreateVia(local, branch), route, cs, contact, RegisterCallId(callId, callUuid), from, to);
    RegisterHeadersTo(CreateVia(local, branch), route, cs, contact, RegisterCallId(callId, callUuid), from, to);
  }

  /**
   * The REGISTER's Contact names the account's user at the gateway's own
   * address, marked `ob` (outbound), and its Via is the gateway's.
   */
  lemma RegisterContact(host: string, port: int, username: string, callId: string, local: UdpAddr,
                        branch: string, cs: CSeqHeader, callUuid: string, tagUuid: string)
    ensures var req := RegisterRequest(host, port, username, callId, local, branch, cs, callUuid, tagUuid);
      && ContactOf(req.headers).Some? && ViaOf(req.headers) == Some(CreateVia(local, branch))
      && var c := ContactOf(req.headers).value.address;
      && c.user == username && ParseIP(c.host) == Some(local.ip) && c.port == local.port
      && c.uriParams == map["ob" := ""]
  {
    var route := Registrar(host, port, map["lr" := ""]);
    var contact := NameAddr("", Uri(Scheme, username, Show(local.ip), local.port, map["ob" := ""]), map[]);
    var from := NameAddr("", AddressOfRecord(username, host), map["tag" := tagUuid]);
    var to := NameAddr("", AddressOfRecord(username, host), map[]);
    RegisterHeadersRouting(CreateVia(local, branch), route, cs, contact, RegisterCallId(callId, callUuid), from, to);
    RegisterHeadersBinding(CreateVia(local, branch), route, cs, contact, RegisterCallId(callId, callUuid), from, to);
    RegisterHeadersIdentity(CreateVia(local, branch), route, cs, contact, RegisterCallId(callId, callUuid), from, to);
    RegisterHeadersTo(CreateVia(local, branch), route, cs, contact, RegisterCallId(callId, callUuid), from, to);
    ParseShow(local.ip);
  }

  /**
   * `CreateREGISTER`: a new CSeq header numbered 1 + `rand` (`rand` drawn
   * below 2^16, so the number lies in 1..65536) with method REGISTER. The
   * error it returns is always nil.
   */
  method CreateRegister(creds: Credentials, callId: string, local: UdpAddr, branch: string,
                        rand: nat, callUuid: string, tagUuid: string)
    returns (req: Request, err: Option<Error>)
    requires rand < MaxV
    ensures err.None?
    ensures CSeqOf(req.headers).Some? && fresh(CSeqOf(req.headers).value)
    ensures 1 <= CSeqOf(req.headers).value.seqNo <= MaxV
    ensures CSeqOf(req.headers).value.seqNo == 1 + rand && CSeqOf(req.headers).value.methodName == REGISTER
    ensures req == RegisterRequest(creds.host, creds.port, creds.username, callId, local, branch,
                                   CSeqOf(req.headers).value, callUuid, tagUuid)
  {
    var cs := new CSeqHeader(1 + rand, REGISTER);
    req := RegisterRequest(creds.host, creds.port, creds.username, callId, local, branch, cs, callUuid, tagUuid);
    RegisterAddressing(creds.host, creds.port, creds.username, callId, local, branch, cs, callUuid, tagUuid);
    err := None;
  }
}
