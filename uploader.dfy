/** The three-step external upload protocol: reserve an upload URL for a file
    of a given name and exact size, post the bytes to that URL, then finalize
    the upload and share it in a channel. Every step checks its reply; the
    first failure ends the protocol, and no later request is made. */
module Uploader {
  import opened Wire
  import Text

  /** The inputs the protocol receives from outside: the local file's status
      and the remote replies to the three requests, in protocol order. */
  datatype Replies = Replies(
    stat: Stat,
    reserve: Exchange<ReserveReply>,
    transfer: Exchange<int>,
    complete: Exchange<CompleteReply>)

  /** Why an upload failed. */
  datatype UploadError =
    | StatFailed(message: string)          // inspecting the local file threw
    | RequestFailed(message: string)       // one of the three requests threw
    | ReservationRefused(code: Option<string>)
    | TransferRejected(status: int)
    | CompletionRefused(code: Option<string>)

  /** The message of the error the protocol throws. */
  function ErrorMessage(e: UploadError): (m: string)
    ensures e.StatFailed? || e.RequestFailed? ==> m == e.message
    ensures e.ReservationRefused? ==>
              |m| == 26 + |Show(e.code)| && m[..26] == "Failed to get upload URL: " && m[26..] == Show(e.code)
    ensures e.TransferRejected? ==> m == "Failed to upload file content"
    ensures e.CompletionRefused? ==>
              |m| == 27 + |Show(e.code)| && m[..27] == "Failed to complete upload: " && m[27..] == Show(e.code)
  {
    match e
    case StatFailed(m) => m
    case RequestFailed(m) => m
    case ReservationRefused(code) => "Failed to get upload URL: " + Show(code)
    case TransferRejected(_) => "Failed to upload file content"
    case CompletionRefused(code) => "Failed to complete upload: " + Show(code)
  }

  /** Status code the transfer step accepts. */
  const TransferOk := 200

  /** The file was inspected and the reservation was granted. */
  predicate Reserved(r: Replies)
  {
    r.stat.Size? && r.reserve.Answered? && r.reserve.data.ok
  }

  /** ... and the bytes were accepted at the reserved URL. */
  predicate Transferred(r: Replies)
  {
    Reserved(r) && r.transfer.Answered? && r.transfer.data == TransferOk
  }

  /** ... and the finalize request was acknowledged. */
  predicate Completed(r: Replies)
  {
    Transferred(r) && r.complete.Answered? && r.complete.data.ok
  }

  /** The requests the protocol makes for the given replies: each step is
      made exactly when every earlier step succeeded, and each carries the
      arguments the protocol prescribes. The reservation names the file and
      its inspected size and is authorised by the bot token; the transfer goes
      to exactly the reserved URL with no Authorization header; the finalize
      request names the reserved file id under the display name, the channel
      and the comment, and is authorised by the bot token. */
  ghost predicate ProtocolTrace(calls: seq<Call>, token: string, filePath: string, channel: string,
                                fileName: string, fileComment: string, r: Replies)
  {
    && |calls| <= 3
    && (|calls| >= 1 <==> r.stat.Size?)
    && (|calls| >= 2 <==> Reserved(r))
    && (|calls| >= 3 <==> Transferred(r))
    && (|calls| >= 1 ==> calls[0] == GetUploadUrl(Bearer(token), fileName, r.stat.bytes))
    && (|calls| >= 2 ==> calls[1] == PostForm(r.reserve.data.uploadUrl, NoAuth, [FilePart("file", filePath)]))
    && (|calls| >= 3 ==> calls[2] == CompleteUpload(Bearer(token), [FileRef(r.reserve.data.fileId, fileName)],
                                                    channel, fileComment))
  }

  /** What the protocol reports for the given replies: the finalize reply,
      unchanged, when all three steps succeed, and otherwise the error of the
      first step that failed. */
  ghost predicate ProtocolOutcome(outcome: Result<CompleteReply, UploadError>, r: Replies)
  {
    && (outcome.Ok? <==> Completed(r))
    && (outcome.Ok? ==> outcome.value == r.complete.data)
    && (r.stat.StatThrew? ==> outcome == Err(StatFailed(r.stat.message)))
    && (r.stat.Size? && r.reserve.Threw? ==> outcome == Err(RequestFailed(r.reserve.message)))
    && (r.stat.Size? && r.reserve.Answered? && !r.reserve.data.ok ==>
          outcome == Err(ReservationRefused(r.reserve.data.error)))
    && (Reserved(r) && r.transfer.Threw? ==> outcome == Err(RequestFailed(r.transfer.message)))
    && (Reserved(r) && r.transfer.Answered? && r.transfer.data != TransferOk ==>
          outcome == Err(TransferRejected(r.transfer.data)))
    && (Transferred(r) && r.complete.Threw? ==> outcome == Err(RequestFailed(r.complete.message)))
    && (Transferred(r) && r.complete.Answered? && !r.complete.data.ok ==>
          outcome == Err(CompletionRefused(r.complete.data.error)))
  }

  /** Upload one file: the requests made, in order, and the finalize reply or the error thrown. */
  method UploadFile(token: string, filePath: string, channel: string, fileName: string, fileComment: string,
                    r: Replies)
    returns (calls: seq<Call>, outcome: Result<CompleteReply, UploadError>)
    ensures ProtocolTrace(calls, token, filePath, channel, fileName, fileComment, r)
    ensures ProtocolOutcome(outcome, r)
    ensures NoRetries(calls)
  {
    calls := [];

    // The exact size is taken before any request is made.
    if r.stat.StatThrew? {
      outcome := Err(StatFailed(r.stat.message));
      return;
    }
    var size := r.stat.bytes;

    // Step 1: reserve an upload URL.
    calls := calls + [GetUploadUrl(Bearer(token), fileName, size)];
    if r.reserve.Threw? {
      outcome := Err(RequestFailed(r.reserve.message));
      return;
    }
    var reservation := r.reserve.data;
    if !reservation.ok {
      outcome := Err(ReservationRefused(reservation.error));
      return;
    }
    var uploadUrl, fileId := reservation.uploadUrl, reservation.fileId;

    // Step 2: post the file to the reserved URL; the URL is the only credential.
    var form := [FilePart("file", filePath)];
    calls := calls + [PostForm(uploadUrl, NoAuth, form)];
    if r.transfer.Threw? {
      outcome := Err(RequestFailed(r.transfer.message));
      return;
    }
    if r.transfer.data != TransferOk {
      outcome := Err(TransferRejected(r.transfer.data));
      return;
    }

    // Step 3: finalize and share in the channel.
    calls := calls + [CompleteUpload(Bearer(token), [FileRef(fileId, fileName)], channel, fileComment)];
    if r.complete.Threw? {
      outcome := Err(RequestFailed(r.complete.message));
      return;
    }
    if !r.complete.data.ok {
      outcome := Err(CompletionRefused(r.complete.data.error));
      return;
    }
    outcome := Ok(r.complete.data);
  }

  /** The trace specification leaves no freedom: one set of inputs admits one trace. */
  lemma TraceDeterministic(c1: seq<Call>, c2: seq<Call>, token: string, filePath: string, channel: string,
                           fileName: string, fileComment: string, r: Replies)
    requires ProtocolTrace(c1, token, filePath, channel, fileName, fileComment, r)
    requires ProtocolTrace(c2, token, filePath, channel, fileName, fileComment, r)
    ensures c1 == c2
  {
  }

  /** The outcome specification covers every case exactly once: one set of replies admits one outcome. */
  lemma OutcomeDeterministic(o1: Result<CompleteReply, UploadError>, o2: Result<CompleteReply, UploadError>,
                             r: Replies)
    requires ProtocolOutcome(o1, r) && ProtocolOutcome(o2, r)
    ensures o1 == o2
  {
  }

  /** A failure ends the protocol at the step that failed: the last request
      made is the one whose reply was rejected, and nothing follows it. */
  lemma AbortsAtFailedStep(calls: seq<Call>, outcome: Result<CompleteReply, UploadError>,
                           token: string, filePath: string, channel: string,
                           fileName: string, fileComment: string, r: Replies)
    requires ProtocolTrace(calls, token, filePath, channel, fileName, fileComment, r)
    requires ProtocolOutcome(outcome, r)
    ensures outcome.Ok? <==> |calls| == 3 && r.complete.Answered? && r.complete.data.ok
    ensures outcome.Err? && outcome.error.StatFailed? ==> calls == []
    ensures outcome.Err? && outcome.error.RequestFailed? ==>
              || (|calls| == 1 && r.reserve.Threw? && outcome.error.message == r.reserve.message)
              || (|calls| == 2 && r.transfer.Threw? && outcome.error.message == r.transfer.message)
              || (|calls| == 3 && r.complete.Threw? && outcome.error.message == r.complete.message)
    ensures outcome.Err? && outcome.error.ReservationRefused? ==> |calls| == 1 && calls[0].GetUploadUrl?
    ensures outcome.Err? && outcome.error.TransferRejected? ==> |calls| == 2 && calls[1].PostForm?
    ensures outcome.Err? && outcome.error.CompletionRefused? ==> |calls| == 3 && calls[2].CompleteUpload?
  {
  }

  /** An error the protocol itself detects names its step: the three messages
      never coincide, and a refusal's message determines the remote error code
      as printed. */
  lemma RefusalMessagesIdentifyStep(code1: Option<string>, code2: Option<string>, status: int)
    ensures ErrorMessage(ReservationRefused(code1)) != ErrorMessage(TransferRejected(status))
    ensures ErrorMessage(CompletionRefused(code1)) != ErrorMessage(TransferRejected(status))
    ensures ErrorMessage(ReservationRefused(code1)) != ErrorMessage(CompletionRefused(code2))
    ensures ErrorMessage(ReservationRefused(code1)) == ErrorMessage(ReservationRefused(code2))
            <==> Show(code1) == Show(code2)
    ensures ErrorMessage(CompletionRefused(code1)) == ErrorMessage(CompletionRefused(code2))
            <==> Show(code1) == Show(code2)
  {
    var reserve1 := ErrorMessage(ReservationRefused(code1));
    var complete1 := ErrorMessage(CompletionRefused(code1));
    var complete2 := ErrorMessage(CompletionRefused(code2));
    var transfer := ErrorMessage(TransferRejected(status));
    // "Failed to " is followed by 'g', 'c' and 'u' respectively.
    assert reserve1[10] == 'g' && complete1[10] == 'c' && complete2[10] == 'c' && transfer[10] == 'u';
    if reserve1 == ErrorMessage(ReservationRefused(code2)) {
      Text.PrefixCancel("Failed to get upload URL: ", Show(code1), Show(code2));
    }
    if complete1 == complete2 {
      Text.PrefixCancel("Failed to complete upload: ", Show(code1), Show(code2));
    }
  }
}
