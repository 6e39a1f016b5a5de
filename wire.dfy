/** The values the build-notify action exchanges with the messaging platform:
    the outbound calls it makes, the replies it receives, and the shape of the
    notification message. Transport details (endpoint URLs, content types,
    streaming) are not modelled; each call is identified by its endpoint kind. */
module Wire {

  datatype Option<+T> = None | Some(value: T)

  datatype Result<+T, +E> = Ok(value: T) | Err(error: E)

  /** What a template literal prints for an optional string field of a
      reply: the field itself, or "undefined" when the reply lacks it. */
  function Show(field: Option<string>): (s: string)
    ensures field.Some? ==> s == field.value
    ensures field.None? ==> s == "undefined"
  {
    match field
    case Some(text) => text
    case None => "undefined"
  }

  /** Block Kit text objects, blocks and messages, as far as the
      notification uses them. */
  datatype TextObject = PlainText(text: string, emoji: bool) | Markdown(text: string)

  datatype Block = Header(text: TextObject) | Section(fields: seq<TextObject>)

  datatype Message = Message(blocks: seq<Block>)

  /** Whether a request carries an Authorization header, and with which bearer token. */
  datatype Auth = NoAuth | Bearer(token: string)

  /** One entry of the `files` list of the finalize request. */
  datatype FileRef = FileRef(id: string, title: string)

  /** One part of a multipart form: the field name and the local file streamed into it. */
  datatype FormPart = FilePart(name: string, path: string)

  /** An outbound request, with the arguments that matter to the protocol. */
  datatype Call =
    | PostWebhook(url: string, body: Message)
    | GetUploadUrl(auth: Auth, filename: string, length: nat)
    | PostForm(url: string, auth: Auth, form: seq<FormPart>)
    | CompleteUpload(auth: Auth, files: seq<FileRef>, channelId: string, initialComment: string)

  /** Two calls go to the same kind of endpoint. */
  predicate SameEndpoint(a: Call, b: Call)
  {
    || (a.PostWebhook? && b.PostWebhook?)
    || (a.GetUploadUrl? && b.GetUploadUrl?)
    || (a.PostForm? && b.PostForm?)
    || (a.CompleteUpload? && b.CompleteUpload?)
  }

  /** No endpoint is contacted twice: nothing is retried. */
  ghost predicate NoRetries(calls: seq<Call>)
  {
    forall i, j :: 0 <= i < j < |calls| ==> !SameEndpoint(calls[i], calls[j])
  }

  /** The result of awaiting one request: the reply's data, or the error the
      request threw (a transport failure, or a status the HTTP client rejects). */
  datatype Exchange<+T> = Answered(data: T) | Threw(message: string)

  /** The result of inspecting the local file: its size in bytes, or the
      error the inspection threw (missing or unreadable file). */
  datatype Stat = Size(bytes: nat) | StatThrew(message: string)

  /** The reply to the reservation request. */
  datatype ReserveReply = ReserveReply(ok: bool, uploadUrl: string, fileId: string, error: Option<string>)

  /** The reply to the finalize request. */
  datatype CompleteReply = CompleteReply(ok: bool, error: Option<string>, files: seq<FileRef>)
}
