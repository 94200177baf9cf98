/**
 * Dispatch of submissions to the judge coordinator (judge/judgeapi.py): one framed request over
 * a fresh connection, an optional framed reply, and the submission's reset and status on dispatch.
 * The JSON and zlib layers are the `encode` and `decode` parameters.
 */
module JudgeApi {
  import opened Wrappers
  import opened Codes
  import opened Framing
  import opened Submissions

  /** The two requests this module sends. */
  datatype Packet =
    | SubmissionRequest(submissionId: int, problemId: string, language: string, source: string)
    | TerminateSubmission(submissionId: int)

  /** The fields of the coordinator's reply that dispatch reads; None where the key is missing. */
  datatype Reply = Reply(name: Option<string>, submissionId: Option<int>)

  /** The coordinator as seen from one connection: unreachable, or the bytes it sends back. */
  datatype Peer = Unreachable | Reachable(response: seq<byte>)

  /** Everything `judge_request` can raise. */
  datatype RequestError = ConnectFailed | FrameFailed(cause: FrameError) | Undecodable

  /** What a successful request wrote, and the reply it read when one was asked for. */
  datatype Exchange = Exchange(sent: seq<byte>, reply: Option<Reply>)

  /** `judge_request(packet, reply)`. */
  function JudgeRequest(packet: Packet, wantReply: bool, encode: Packet -> seq<byte>,
                        decode: seq<byte> -> Option<Reply>, peer: Peer): (r: Result<Exchange, RequestError>)
    ensures peer.Unreachable? ==> r == Failure(ConnectFailed)
    ensures r.Success? ==> Frame(encode(packet)).Success? && r.value.sent == Frame(encode(packet)).value && (r.value.reply.Some? <==> wantReply)
    ensures !wantReply ==> (r.Success? <==> peer.Reachable? && |encode(packet)| < MaxLength)
    ensures wantReply && peer.Reachable? && |encode(packet)| < MaxLength && peer.response == [] ==>
              r == Failure(FrameFailed(NoResponse))
  {
    if peer.Unreachable? then Failure(ConnectFailed)
    else match Frame(encode(packet))
      case Failure(e) => Failure(FrameFailed(e))
      case Success(sent) =>
        if !wantReply then Success(Exchange(sent, None))
        else match ReadReply(peer.response)
          case Failure(e) => Failure(FrameFailed(e))
          case Success(body) =>
            match decode(body)
            case None => Failure(Undecodable)
            case Some(reply) => Success(Exchange(sent, Some(reply)))
  }

  /** A coordinator that answers with a framed, decodable, non-empty reply is heard. */
  lemma RequestRoundTrip(packet: Packet, encode: Packet -> seq<byte>, decode: seq<byte> -> Option<Reply>,
                         answer: seq<byte>, rest: seq<byte>)
    requires |encode(packet)| < MaxLength
    requires 0 < |answer| < MaxLength && decode(answer).Some?
    ensures JudgeRequest(packet, true, encode, decode, Reachable(Frame(answer).value + rest)) ==
            Success(Exchange(Frame(encode(packet)).value, decode(answer)))
  {
    ReadFrame(answer, rest);
  }

  /** `abort_submission`: a terminate request that expects no reply. */
  function AbortSubmission(submissionId: int, encode: Packet -> seq<byte>, peer: Peer): (r: Result<Exchange, RequestError>)
    ensures r.Success? <==> peer.Reachable? && |encode(TerminateSubmission(submissionId))| < MaxLength
    ensures r.Success? ==> r.value.reply.None? && Frame(encode(TerminateSubmission(submissionId))).Success?
    ensures r.Success? ==> r.value.sent == Frame(encode(TerminateSubmission(submissionId))).value
  {
    JudgeRequest(TerminateSubmission(submissionId), false, encode, _ => None, peer)
  }

  /** Aborting reads nothing: the outcome is the same whatever the coordinator would send. */
  lemma AbortReadsNothing(submissionId: int, encode: Packet -> seq<byte>, x: seq<byte>, y: seq<byte>)
    ensures AbortSubmission(submissionId, encode, Reachable(x)) == AbortSubmission(submissionId, encode, Reachable(y))
  {
  }

  /** Reading a reply field that is missing raises KeyError. */
  datatype DispatchError = MissingKey

  /**
   * The status a reply gives: QU when it is `submission-received` for this submission, IE for any
   * other name or id; a missing field that is read raises.
   */
  function Acknowledge(reply: Reply, submissionId: int): (r: Result<Status, DispatchError>)
    ensures r == Success(Queued) <==> reply.name == Some("submission-received") && reply.submissionId == Some(submissionId)
    ensures r.Success? ==> r.value == Queued || r.value == InternalError
    ensures r.Failure? <==> reply.name.None? || (reply.name == Some("submission-received") && reply.submissionId.None?)
  {
    if reply.name.None? then Failure(MissingKey)
    else if reply.name.value != "submission-received" then Success(InternalError)
    else if reply.submissionId.None? then Failure(MissingKey)
    else Success(if reply.submissionId.value == submissionId then Queued else InternalError)
  }

  /** The request sent for a submission. */
  function RequestFor(s: Submission): Packet {
    SubmissionRequest(s.id, s.problem.code, s.language, s.source)
  }

  /**
   * `judge_submission`: clears the result fields and stored cases, takes the pretest flag from
   * the contest row when there is one, sends the request, and sets QU or IE from the reply.
   * A request that raises gives IE and false; any reply gives true; a missing reply field raises
   * (Failure) before the status is set.
   */
  method JudgeSubmission(sub: Submission, contestPretests: Option<bool>, encode: Packet -> seq<byte>,
                         decode: seq<byte> -> Option<Reply>, peer: Peer)
    returns (success: Result<bool, DispatchError>, published: seq<Post>)
    modifies sub
    ensures var cleared := Cleared(old(sub.State()), contestPretests);
            match JudgeRequest(RequestFor(sub), true, encode, decode, peer)
            case Failure(_) =>
              sub.State() == cleared.(status := InternalError) && success == Success(false) && published == []
            case Success(exchange) =>
              match Acknowledge(exchange.reply.value, sub.id)
              case Failure(e) =>
                sub.State() == cleared && success == Failure(e) && published == []
              case Success(status) =>
                sub.State() == cleared.(status := status) && success == Success(true) &&
                published == if sub.problem.isPublic then [Post(SubmissionsFeed, Dispatched(status))] else []
  {
    ResetForJudging(sub, contestPretests);

    published := [];
    var response := JudgeRequest(RequestFor(sub), true, encode, decode, peer);
    if response.Failure? {
      SetStatus(sub, InternalError);
      success := Success(false);
      return;
    }
    var ack := Acknowledge(response.value.reply.value, sub.id);
    if ack.Failure? {
      success := Failure(ack.error);
      return;
    }
    SetStatus(sub, ack.value);
    if sub.problem.isPublic {
      published := [Post(SubmissionsFeed, Dispatched(ack.value))];
    }
    success := Success(true);
  }
}
