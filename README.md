# SIP/SDP gateway request builders and SDP negotiation — a Dafny model

This project models the core of a small SIP back-to-back gateway (Go package `sdp`).
It covers:

- **SDP offer/answer** (`sdp.go`, `negotiate.go`):
  - building the local answer to a remote SDP offer by keeping the offered formats the codec table knows;
  - allocating an RTP socket and the RTCP socket on the next port;
  - generating the gateway's own offer;
  - reading the selected format, the packet time and the remote RTP/RTCP addresses out of a received description.
- **Request builders** (`create_extras.go`, `create_register.go`, `create_invite.go`):
  - the gateway's Via;
  - the ACK for an INVITE's final response;
  - the BYE towards the callee and towards the caller;
  - the CANCEL of an outbound INVITE;
  - the digest-authenticated resend of a request;
  - the REGISTER;
  - the outbound INVITE with a fresh SDP offer.

Modules:

| module | file | contents |
|---|---|---|
| `Wrappers` | `wrappers.dfy` | `Option` and `Result` |
| `Strconv` | `strconv.dfy` | decimal and hex formatting and parsing, Go's `strconv.Atoi`, `strings.Split`/`Join` |
| `Net` | `net.dfy` | 16-byte IP addresses, `IP.String` and `net.ParseIP`, UDP addresses, the `Conn` socket class, `net.ListenUDP` |
| `Sip` | `sip.dfy` | the sipgo request and response values, the typed header accessors (first header of its kind), the shared `CSeqHeader` object |
| `Errors` | `errors.dfy` | the errors the gateway returns |
| `Sdp` | `sdp.dfy` | `sdp.go` |
| `Negotiate` | `negotiate.dfy` | `negotiate.go` |
| `Extras` | `extras.dfy` | `create_extras.go` |
| `Register` | `register.dfy` | `create_register.go` |
| `Invite` | `invite.dfy` | `create_invite.go` |

Modelling choices:

- **Object identity.**
  - Sockets are objects of class `Net.Conn`. `Close` updates them in place: a second close reports an error.
  - A CSeq header is an object of class `Sip.CSeqHeader`. `AuthRequest` and `CreateCANCELtoUAC` change the caller's CSeq header in place, and the same object appears in both requests.
  - Every other header is a value.
- **Inputs supplied by the caller.** The following become parameters:
  - the operating system's bind outcome for each socket (`BindOutcome`);
  - random numbers, UUIDs and Via branches;
  - the SDP marshaller and unmarshaller;
  - the digest challenge parser and solver;
  - sipgo's rendering of a header's value.
- **Go integer widths.** Go's `uint32` arithmetic is written out:
  - `NextSeqNo` wraps to 0 after 2^32 − 1;
  - `PrevHop` wraps 0 to 2^32 − 1.

## Model

| member | source | states |
|---|---|---|
| Strconv.ParseFormat | sdp.go:237 | parsing the digits `Format` prints gives back the number (the `%d` in the rtcp attribute) |
| Strconv.Atoi | negotiate.go:102 | an accepted text is non-empty, has no space, and its value fits Go's 64-bit `int` |
| Strconv.AtoiFormatInt | negotiate.go:102-105 | `Atoi` reads back every 64-bit integer `fmt.Sprint` prints (ptime round trip) |
| Strconv.AtoiUnsigned | negotiate.go:113 | `Atoi` reads back every non-negative decimal that fits in 64 bits (the rtcp port) |
| Strconv.Split | negotiate.go:111 | `strings.Split` always returns at least one field |
| Strconv.JoinSplit | negotiate.go:111 | joining the fields of a split with the same separator gives back the text |
| Strconv.SplitJoin | negotiate.go:111 | splitting a join of separator-free fields gives back the fields |
| Strconv.SplitFieldsFree | negotiate.go:111 | no field of a split contains the separator |
| Net.V4 | sdp.go:256 | an IPv4 address is held in the IPv4-mapped 16-byte form, so `To4` succeeds on it |
| Net.Show | sdp.go:179 | `IP.String`: an IPv4-mapped address prints in dotted form (its first separator is `.`), every other address in colon form (first separator `:`) |
| Net.ParseIP | negotiate.go:77 | `net.ParseIP`: dotted text gives an IPv4 address; text without `.` or `:` before any `%` (a zone) is nil |
| Net.ParseShow | negotiate.go:87 | `net.ParseIP` reads back every address `IP.String` prints |
| Net.Conn.constructor | sdp.go:78 | a new socket is open, at the given address |
| Net.Conn.Close | negotiate.go:34-40 | closing marks the socket closed; a second close reports already-closed; otherwise the OS outcome is reported |
| Net.BoundIP | sdp.go:130 | a "udp" socket bound to the IPv4 wildcard reports `::` (dual-stack host); any other IP reads back as bound; the result is never the IPv4 wildcard |
| Net.ListenUdp | sdp.go:78-81 | a socket exists iff the OS grants the bind and the port is valid; port 0 gets an ephemeral port; the IP reads back as `BoundIP` gives it and the zone is kept |
| Sip.CSeqHeader.constructor | create_extras.go:46-49 | a new CSeq header carries the given number and method |
| Sip.Find | create_extras.go:31 | a found index holds a header of the kind searched for |
| Sip.FindFirst | create_extras.go:31-33 | a typed accessor returns the first header of its kind |
| Sip.FindNone | create_extras.go:32 | a typed accessor returns nil when no header of its kind is present |
| Sip.FindSameKinds | create_register.go:51-52 | lists with the same kinds position by position answer every accessor at the same index |
| Sip.FindAppend | create_register.go:81 | appending headers never changes what a typed accessor already finds |
| Sip.ReplaceFirst | create_register.go:52 | `ReplaceHeader`: the first header of the new header's kind becomes the new header; headers of every other kind are unchanged; without one of that kind nothing changes |
| Sip.CloneHeaders | create_register.go:51 | the clone keeps every header, with each CSeq copied into a new object with the same number and method |
| Sdp.CodecTablesAgree | sdp.go:30-69 | the rtpmap table and the codec configuration table have the same formats, each with rtpmap key and matching payload type |
| Sdp.CodecEntry | sdp.go:30-69 | every known format has a configuration; its text is the payload type in decimal; its rtpmap value starts with it |
| Sdp.CodecKey | sdp.go:57-68 | each format key is the decimal text of its payload type |
| Sdp.CodecPrefix | sdp.go:30-56 | each rtpmap attribute has key `rtpmap` and a value beginning with the format and a space |
| Sdp.ObtainAddressType | sdp.go:255-260 | `IP4` exactly for IPv4 addresses, otherwise `IP6` |
| Sdp.Accepted | sdp.go:196-202 | the formats the loop keeps: never more than offered, and each one known to the codec table |
| Sdp.AcceptedRtpmaps | sdp.go:198-200 | the rtpmaps the loop collects: one per kept format |
| Sdp.SelectedFormat | sdp.go:192-206 | the selected format is empty or a known format that the first media description offers |
| Sdp.AcceptedMembership | sdp.go:196-202 | a format is kept iff it is offered and known to the codec table |
| Sdp.AcceptedCount | sdp.go:196-202 | a known format is kept as often as it is offered; an unknown one never |
| Sdp.AcceptedConcat | sdp.go:197-202 | filtering distributes over concatenation, so the offer's order is preserved |
| Sdp.AcceptedKnown | sdp.go:197-202 | an offer of known formats only is kept entire |
| Sdp.RtpmapsMatch | sdp.go:198-200 | one rtpmap per kept format, the table's entry, in the same order |
| Sdp.SelectedEmptyIffNoneKnown | sdp.go:192-206 | nothing is selected iff no offered format is known |
| Sdp.SelectedIsFirstKnown | sdp.go:203-205 | the selected format is the earliest offered known format |
| Sdp.Answer | sdp.go:175-241 | the answer's origin address and connection address both read back as the RTP socket's IP; one media description, on the RTP socket's port |
| Sdp.AnswerShape | sdp.go:175-241 | the answer's origin, connection and port are the RTP socket's; formats are the kept ones, each followed by its rtpmap; then ptime, minptime, sendrecv and the RTCP socket's rtcp attribute |
| Sdp.NegotiateLocalSdp | sdp.go:165-244 | the loop builds exactly `Answer` and selects `SelectedFormat` |
| Sdp.KeepKnownFormats | sdp.go:196-202 | the format loop returns exactly the kept formats and their rtpmaps |
| Sdp.LocalOfferKept | sdp.go:142-155 | the gateway's own offer keeps 106, 105, 96, 8 and 0, selects 106, and never offers G.722 |
| Sdp.CreateContactHeader | sdp.go:21-28 | the Contact is `andres-proxy` at the SIP socket's printed IP and port |
| Sdp.CreateSdpResponse | sdp.go:116-126 | it fails iff marshalling fails; otherwise a 200 carrying the marshalled answer and the gateway's Contact |
| Sdp.CreateConnRtp | sdp.go:71-84 | a new open socket on the SIP socket's IP (as `BoundIP` reports it) and zone with an ephemeral port, or the RTP bind error |
| Sdp.CreateConnRtcp | sdp.go:86-100 | a new open socket on the SIP socket's IP (as `BoundIP` reports it) and zone at the RTP port + 1, or the RTCP bind error |
| Sdp.GenerateNewRtpAndRtcp | sdp.go:102-114 | both sockets, distinct and open, with RTCP = RTP + 1; or an error with no sockets returned, and a failed RTCP bind leaves the RTP socket open |
| Sdp.HostIP | sdp.go:129-130 | the IP the temporary socket reports: a parsed host other than the IPv4 wildcard is kept; the IPv4 wildcard or an unparsable host gives `::`; never the IPv4 wildcard |
| Sdp.WildcardHostIsIp6 | sdp.go:129-130 | with RTP host `0.0.0.0` or an unparsable host, the sockets report `::` and the offer announces `IP6` |
| Sdp.OfferOnNewPair | sdp.go:136-162 | the pair is bound on the temporary socket's IP and zone; no error iff both binds are granted and the answer on the new pair marshals; the RTP socket is left open after an RTCP bind failure, both after a marshal failure |
| Sdp.GenerateLocalSdp | sdp.go:128-163 | the temporary socket is closed on every path; no error iff both binds are granted and the answer on the new pair marshals (`LocalSdpSucceeds`); on success the pair is on the RTP host's IP at the ephemeral port and the next, and the marshalled answer to the fixed offer is returned; on failure no sockets, with the ones left open named |
| Negotiate.PtimeDefaultKept | negotiate.go:98-108 | with no parsable ptime attribute the packet time stays 20 |
| Negotiate.PtimeLastWins | negotiate.go:100-108 | the last parsable ptime attribute decides the packet time |
| Negotiate.RtcpAbsent | negotiate.go:110-128 | with no rtcp attribute there is no RTCP address |
| Negotiate.RtcpLastWins | negotiate.go:110-128 | the last rtcp attribute decides the RTCP address |
| Negotiate.RtcpPortOnly | negotiate.go:111-127 | a bare port gives an address with no IP; an unparsable first field clears the address |
| Negotiate.RtcpRoundTrip | negotiate.go:110-128 | the rtcp attribute the gateway writes reads back as its RTCP socket's IP and port |
| Negotiate.RtcpFieldsRead | negotiate.go:111-127 | `port IN type ip` reads back as that port and IP |
| Negotiate.RtcpSplit | negotiate.go:111 | such a value splits into its four fields |
| Negotiate.RtcpFromValue | negotiate.go:110-127 | an empty rtcp value gives no address; otherwise the first field must parse as the port, and an IP is only taken from a fourth field |
| Negotiate.Step | negotiate.go:101-127 | one attribute changes the ptime only when it is a parsable ptime, to its value, and the RTCP address only when it is an rtcp attribute |
| Negotiate.ScanAll | negotiate.go:98-129 | the walk over the attributes: a ptime other than 20 comes from a parsable ptime attribute; an RTCP address comes from an rtcp attribute |
| Negotiate.ScanSkipsOthers | negotiate.go:100-129 | attributes other than ptime and rtcp change nothing |
| Negotiate.ObtainSelectedFormatAndPtime | negotiate.go:62-132 | an unmarshal failure, no media, and no formats are errors in that order; otherwise the first offered format, the scanned ptime and RTCP address, and the connection address (else the origin's) with the first media port |
| Negotiate.AnswerRoundTrip | negotiate.go:62-132 | reading back an answer the gateway built yields its selected format, ptime 20 and its RTP and RTCP sockets, or the no-formats error when nothing was selected |
| Negotiate.AnswerNoFormats | negotiate.go:94-96 | an answer that selected nothing reads back as the no-formats error |
| Negotiate.AnswerRoundTripSelected | negotiate.go:77-129 | an answer that selected a format reads back as that format, ptime 20 and both socket addresses |
| Negotiate.AnswerRtpAddr | negotiate.go:77-92 | an answer's RTP address reads back as the RTP socket's |
| Negotiate.InterpretSingle | negotiate.go:94-131 | a one-media description reads as its first format, scanned ptime and RTCP address |
| Negotiate.Interpret | negotiate.go:73-129 | no media is the no-media error and only then; media whose first description has no formats is the no-formats error and only then; the selected format is one the first description offers; an RTCP address comes from an rtcp attribute |
| Negotiate.RenegotiateSdp | negotiate.go:19-46 | an empty or unparsable body fails and touches no socket; a failed response closes RTP then RTCP and reports both outcomes; success returns the 200, the selected format and ptime 20 |
| Negotiate.NegotiateSdp | negotiate.go:48-60 | bind failures return no sockets and name those left open; an empty or unparsable body is `NoSdpBody` or `SdpParse` with both new sockets left open; a failed response is `ResponseFailed` with both new sockets closed and their close outcomes; success returns the new pair (RTCP = RTP + 1) and the 200 for them |
| Extras.CreateVia | create_extras.go:13-28 | SIP/2.0/UDP at the local port |
| Extras.CreateViaReadsBack | create_extras.go:13-28 | the Via host parses back to the local IP; the parameters are exactly the branch and an empty `rport` |
| Extras.AckHeadersRead | create_extras.go:42-45 | the ACK's Via, From, To and Call-ID read back as the values put in |
| Extras.AckHeadersRest | create_extras.go:46-52 | the ACK's CSeq and Max-Forwards read back; it has no Contact; it ends with User-Agent and Content-Length 0 |
| Extras.AckVia | create_extras.go:37-40 | the ACK's Via is UDP at the local port |
| Extras.AckViaBranch | create_extras.go:37-40 | the ACK's branch is the INVITE's when its Via has one, else the fresh branch |
| Extras.AckRequest | create_extras.go:30-36 | an ACK, SIP/2.0, no body, sent to the response's Contact when present, else to the INVITE's Contact |
| Extras.AckDialog | create_extras.go:42-52 | the ACK carries the response's From, To and Call-ID, the new CSeq and the INVITE's Max-Forwards, and no Contact |
| Extras.CreateAck | create_extras.go:30-55 | the ACK's CSeq is a new object with the INVITE's number and method ACK |
| Extras.NextSeqNo | create_extras.go:70 | `SeqNo + 1` in `uint32`: one more, wrapping to 0 |
| Extras.ByeHeadersRead | create_extras.go:64-68 | the BYE's Via and Call-ID read back as the values put in |
| Extras.ByeHeadersSequence | create_extras.go:69-73 | the BYE's CSeq and Max-Forwards 70 read back |
| Extras.ByeHeadersUntyped | create_extras.go:66-67 | To and From added as generic headers are invisible to the typed accessors |
| Extras.ByeHeadersTyped | create_extras.go:89-90 | typed To and From read back |
| Extras.ByeHeadersRest | create_extras.go:74-75 | a BYE has no Contact and ends with User-Agent and Content-Length 0 |
| Extras.ByeHeadersShape | create_extras.go:64-75 | a BYE's header list has eight entries, with To and From at positions 1 and 2 |
| Extras.Bye | create_extras.go:58-59 | a BYE with no body, sent to the INVITE's Contact with the INVITE's SIP version |
| Extras.ByeToUasSwaps | create_extras.go:57-78 | the callee-leg BYE's To is the text of the ACK's From and its From the text of the ACK's To; typed To/From find nothing; the Call-ID is the ACK's |
| Extras.ByeToUacKeeps | create_extras.go:80-101 | the caller-leg BYE keeps the ACK's To, From and Call-ID |
| Extras.ByeVariantsMirror | create_extras.go:57-101 | the two BYEs differ only in To and From, the callee leg's being the text of the caller leg's From and To |
| Extras.ByeToUasRequest | create_extras.go:57-78 | a BYE to the INVITE's Contact whose To is the text of the ACK's From and whose From is the text of the ACK's To, as generic headers |
| Extras.ByeToUacRequest | create_extras.go:80-101 | a BYE to the INVITE's Contact that keeps the ACK's typed To and From in place |
| Extras.CreateByeToUas | create_extras.go:57-78 | the callee-leg BYE's CSeq is a new object numbered the ACK's + 1 (wrapping) with method BYE |
| Extras.CreateByeToUac | create_extras.go:80-101 | the caller-leg BYE's CSeq follows the same rule |
| Extras.CancelHeadersRead | create_extras.go:109-113 | the CANCEL's Via, Max-Forwards, From and To read back |
| Extras.CancelHeadersRest | create_extras.go:114-117 | the CANCEL's Call-ID and CSeq read back; no Contact; the trailer ends the list |
| Extras.CancelRequest | create_extras.go:103-104 | a CANCEL to the INVITE's Request-URI, with no body |
| Extras.CancelMatchesInvite | create_extras.go:103-120 | the CANCEL has the INVITE's Via, Max-Forwards, From, To, Call-ID and the same CSeq object |
| Extras.CreateCancelToUac | create_extras.go:103-120 | the INVITE's own CSeq is switched to CANCEL in place and keeps its number |
| Register.Credentials.constructor | create_register.go:18-23 | new credentials have the given user, host and port and an empty password |
| Register.Credentials.SetPassword | create_register.go:25-27 | only the password changes |
| Register.DigestOptionsFor | create_register.go:71-76 | the digest uses the request's method name, the credential host as URI, the user and the password |
| Register.AuthRequest | create_register.go:47-84 | the caller's CSeq number is bumped even on error; then: no credentials is an error; incomplete credentials return the clone; a missing, unparsable or unsolvable challenge is an error; otherwise the clone gains an Authorization header; the clone keeps the request line, body, other headers and the shared CSeq |
| Register.RegisterHeadersRouting | create_register.go:138-141 | the REGISTER's Via, Route and CSeq read back |
| Register.RegisterHeadersBinding | create_register.go:143-145 | the REGISTER's Expires is 300 and its Contact reads back |
| Register.RegisterHeadersIdentity | create_register.go:146-147 | the REGISTER's Call-ID and From read back |
| Register.RegisterHeadersTo | create_register.go:148 | the REGISTER's To reads back |
| Register.RegisterMaxForwardsGeneric | create_register.go:94 | Max-Forwards 70 is a generic header, so the typed accessor finds none |
| Register.RegisterCallId | create_register.go:117-120 | the caller's Call-ID when non-empty, else the fresh UUID |
| Register.Registrar | create_register.go:87-91 | `sip:host:port` with the given parameters and no user |
| Register.AddressOfRecord | create_register.go:122-136 | `sip:user@host`, with no port and no parameters |
| Register.RegisterRequest | create_register.go:86-91 | a REGISTER to the registrar, SIP/2.0, no body |
| Register.RegisterAddressing | create_register.go:95-136 | routed through the registrar with `lr`; From and To are both the address of record, only From is tagged; Expires 300 |
| Register.RegisterContact | create_register.go:108-116 | the Contact is the user at the gateway's IP and port, marked `ob`; the Via is the gateway's |
| Register.CreateRegister | create_register.go:86-151 | never an error; a new CSeq numbered 1 + rand, within 1..65536, with method REGISTER |
| Invite.PrevHop | create_invite.go:90 | `reqMaxForwards - 1` in `uint32`: one less, wrapping from 0 to 2^32 − 1 |
| Invite.HopRoundTrip | create_invite.go:90 | removing a hop and adding one back are inverse in `uint32` |
| Invite.InviteHeadersRouting | create_invite.go:92-94 | the INVITE's Via, Call-ID and CSeq read back |
| Invite.InviteHeadersIdentity | create_invite.go:95-96 | the INVITE's From and To read back |
| Invite.InviteHeadersContact | create_invite.go:97-103 | the INVITE's Contact and Max-Forwards read back, and the five generic headers close the list |
| Invite.InviteRequest | create_invite.go:50-61 | an INVITE, SIP/2.0, carrying the given body |
| Invite.InviteAddressing | create_invite.go:50-98 | the Request-URI and To name the inbound To's user at the callee's IP and port; From is forwarded; a new Call-ID; Max-Forwards one less than inbound |
| Invite.InviteContactsGateway | create_invite.go:82-102 | the Contact is the caller's user at the gateway's SIP address; the Via is the gateway's; the body is announced as SDP |
| Invite.CreateInviteOutgoing | create_invite.go:39-106 | no error iff the local SDP offer succeeds (`LocalSdpSucceeds`); the From header may be absent when it fails, since it is dereferenced only afterwards; an SDP failure returns no request and no sockets and names the sockets left open (the RTP socket after an RTCP bind failure, both after a marshal failure); otherwise an open pair on the RTP host's IP with RTCP = RTP + 1, and the INVITE carries the marshalled offer and a new CSeq numbered 1 + rand with method INVITE |
| Invite.CreateInvite | create_invite.go:23-37 | the same outcome, with the inbound request's Max-Forwards, From and To: no error iff the offer succeeds; a missing From is allowed when it fails; the sockets left open are named; on success an open pair on the RTP host's IP with RTCP = RTP + 1, and a fresh CSeq 1 + rand with method INVITE |

## Left out

- `utils.go` (`WriteResponse`, `WriteRequest`) is not part of this model: it only serialises a message and writes it to a socket (I/O).
- The panic in `generateLocalSDP` when the temporary socket cannot be bound (sdp.go:131-133) is not modelled: the temporary bind always succeeds here.
- SDP marshalling and unmarshalling (pion/sdp) and the digest challenge parser and solver (icholy/digest) are foreign code. They are parameters.
- `rand.Uint32`, `rand.Uint32N`, `rand.Intn`, `uuid.NewString` and `sip.GenerateBranch` are parameters (`rand` values, UUID strings, branch strings). The model does not capture their distribution.
- `sip.NewSDPResponseFromRequest` is library code. The model keeps only what the gateway relies on: status 200, the marshalled body, and the appended Contact.
- Net.ParseIP accepts only a dotted quad (no leading zeros, each part at most 255) or exactly eight groups of one to four hex digits. Go's `net.ParseIP` also accepts the `::`-compressed IPv6 form (`2001:db8::1`) and IPv6 with an embedded IPv4 tail (`::ffff:1.2.3.4`). For such text in a remote SDP's origin or connection address, or in an rtcp attribute (negotiate.go:77, 87, 126), the model finds no IP where Go finds one.
- Net.BoundIP assumes a dual-stack host. On an IPv4-only host Go binds `0.0.0.0` as an IPv4 socket and reports `0.0.0.0`.
- Negotiate.ObtainSelectedFormatAndPtime: a connection line without an address makes Go dereference a nil `Address` (negotiate.go:87) and panic. The model's connection line always carries an address text, so that case cannot be represented.
- Net.Show prints IPv6 addresses as eight uncompressed hex groups. Go prints a compressed `::` form, so a textual comparison with Go's output would differ; the parse round trip holds either way.
- Error messages and `%w` wrapping are not modelled. Errors are the `Errors.Error` values, and the close outcomes of `RenegotiateSDP` are kept as fields.
- Headers the Go code dereferences without a nil check are preconditions, because their absence panics in the source. These are:
  - the INVITE's Contact (`Address`), Via (`Params`) and CSeq (`SeqNo`) in `CreateACK`;
  - the INVITE's Contact and the ACK's CSeq in both BYE builders, and the ACK's From and To (`Value()`) in `CreateBYEtoUAS`;
  - the INVITE's CSeq (`MethodName`) in `CreateCANCELtoUAC`;
  - the request's CSeq (`SeqNo`) in `AuthRequest`;
  - the request's Max-Forwards (`Val()`) and To (`Address.User`) in `CreateINVITE`, both read before the SDP offer is built. The From (`Address.User`, create_invite.go:85) is read only after the offer succeeds, so a missing From is a precondition only when `LocalSdpSucceeds` holds. When the offer fails, Go returns the error without reading it, and the model does the same;
  - the `Credentials` of `CreateREGISTER` (`creds.Host`, create_register.go:88), which the model takes as a non-null object.
- The other typed headers the builders copy without dereferencing are preconditions as well: the response's From, To and Call-ID and the INVITE's Max-Forwards in `CreateACK`; the ACK's To, From and Call-ID in `CreateBYEtoUAC` and its Call-ID in `CreateBYEtoUAS`; the INVITE's Via, Max-Forwards, From, To and Call-ID in `CreateCANCELtoUAC`. In Go an absent one is appended as a nil header and fails only when the request is serialised. The header model has no nil header, so it cannot represent that case.
- Extras.CreateCancelToUac: the Via is shared by reference in the source; the model copies it as a value. Only the shared CSeq object is mutated, so nothing observable differs.
- Sdp.NegotiateLocalSdp: the unused SIP socket parameter is dropped.
- The `fmt.Printf` debug output of `ObtainSelectedFormatAndPtime` (negotiate.go:83, 86) is I/O.
- The `UsersManager` interface (create_invite.go:12-14) is declared but not used by the modelled code.
- The `WWWAuthenticate` and `Authorization` structs (create_register.go:29-45) are declared but unused.
- Register.AuthRequest: when the request carries more than one CSeq header, only the first is the shared object. Later ones stay fresh copies, as `ReplaceHeader` replaces only the first.
- Extras.ByeToUasSwaps: the text sipgo's `Value()` renders for a To/From header is a parameter (`headerValue`). Its format is not modelled.
