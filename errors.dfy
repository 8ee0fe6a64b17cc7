/** The error kinds the signalling core reports, in place of Go's wrapped error strings. */
module Errors {
  import opened Wrappers
  import opened Net

  /** Which of the two media sockets a bind failure concerns. */
  datatype MediaSocket = Rtp | Rtcp

  datatype Error =
    | BindFailed(socket: MediaSocket)
    | NoSdpBody
    | SdpParse
    | NoMedia
    | NoFormats
    | SdpMarshal
      /** Building the SDP response failed; the results of closing RTP and then RTCP ride along. */
    | ResponseFailed(cause: Error, rtpClose: Option<CloseError>, rtcpClose: Option<CloseError>)
    | NoCreds
    | MissingChallenge
    | ChallengeParse
    | DigestCompute
}
