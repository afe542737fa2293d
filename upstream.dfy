/**
 * The upstream client: `GrokClient`, its request payload and `send_message`.
 * The HTTP calls themselves are outside the model; their replies come in as parameters.
 */
module Upstream {
  import opened Wrappers
  import opened Prompt

  /** Prompts longer than this many characters go out as an attached file. */
  const MessageCharLimit := 40000
  /** The inline message that replaces an uploaded prompt. */
  const UploadInstruction := "Follow the instructions in the attached file to respond."
  const Grok3ModelName := "grok-3"
  const Grok3ReasoningModelName := "grok-3-reasoning"
  /** The search and generation tools the payload switches off unless search is enabled. */
  const ToolNames := {"imageGen", "trendsSearch", "webSearch", "xMediaSearch", "xPostAnalyze", "xSearch"}

  /** A `GrokClient`: the credential and the per-request flags it was built with. */
  datatype Client = Client(
    cookie: string,
    isReasoning: bool,
    enableSearch: bool,
    uploadMessage: bool,
    keepChat: bool,
    ignoreThinking: bool)
  {
    /** `get_model_name`. */
    function ModelName(): (name: string)
      ensures name == Grok3ReasoningModelName <==> isReasoning
      ensures name == Grok3ModelName <==> !isReasoning
    {
      if isReasoning then Grok3ReasoningModelName else Grok3ModelName
    }
  }

  /** The fields of the chat payload that vary from request to request; the others are fixed. */
  datatype Payload = Payload(
    isReasoning: bool,
    message: string,
    temporary: bool,
    toolOverrides: map<string, bool>,
    fileAttachments: seq<string>)

  /** What the upload endpoint answered: its HTTP status and `fileMetadataId` ("" when missing or empty). */
  datatype UploadReply = UploadReply(status: int, fileMetadataId: string)

  /** Why a call to the upstream failed. */
  datatype Failure =
    | HttpStatus(status: int)   // `do_request`: any status other than 200
    | EmptyFileMetadataId       // the upload answered 200 without a file id

  /** What `send_message` puts on the wire: the text it uploaded, if any, and the chat payload. */
  datatype Outbound = Outbound(uploaded: Option<string>, payload: Payload)

  /** `prepare_payload(message, file_id)`. */
  function PreparePayload(c: Client, message: string, fileId: string): (p: Payload)
    ensures p.isReasoning == c.isReasoning && p.message == message
    ensures p.temporary == !c.keepChat
    ensures p.toolOverrides == map[] <==> c.enableSearch
    ensures !c.enableSearch ==> p.toolOverrides.Keys == ToolNames
    ensures forall t :: t in p.toolOverrides ==> !p.toolOverrides[t]
    ensures |p.fileAttachments| <= 1 && (p.fileAttachments == [] <==> fileId == "")
    ensures fileId != "" ==> p.fileAttachments == [fileId]
  {
    var tools := if c.enableSearch then map[] else map t | t in ToolNames :: false;
    assert !c.enableSearch ==> "imageGen" in tools;
    Payload(c.isReasoning, message, !c.keepChat, tools, if fileId != "" then [fileId] else [])
  }

  /** The condition on which `send_message` uploads the prompt instead of sending it inline. */
  predicate UploadRequired(c: Client, message: string) {
    c.uploadMessage || |message| > MessageCharLimit
  }

  /** `upload_message_as_file`, reduced to how its reply is judged. */
  function UploadFile(reply: UploadReply): (r: Result<string, Failure>)
    ensures r.Ok? <==> reply.status == 200 && reply.fileMetadataId != ""
    ensures r.Ok? ==> r.value == reply.fileMetadataId
    ensures reply.status != 200 ==> r == Err(HttpStatus(reply.status))
  {
    if reply.status != 200 then Err(HttpStatus(reply.status))
    else if reply.fileMetadataId == "" then Err(EmptyFileMetadataId)
    else Ok(reply.fileMetadataId)
  }

  /**
   * `send_message` up to the chat request: upload the prompt when required, then build the payload.
   * `reply` is what the upload endpoint would answer; it is consulted only when an upload happens.
   */
  function SendMessage(c: Client, message: string, reply: UploadReply): (r: Result<Outbound, Failure>)
    ensures !UploadRequired(c, message) ==>
      r.Ok? && r.value.uploaded == None &&
      r.value.payload.message == message && r.value.payload.fileAttachments == []
    ensures UploadRequired(c, message) ==>
      (r.Ok? <==> reply.status == 200 && reply.fileMetadataId != "") &&
      (r.Ok? ==> r.value.uploaded == Some(message) &&
                 r.value.payload.message == UploadInstruction &&
                 r.value.payload.fileAttachments == [reply.fileMetadataId])
    ensures r.Ok? ==> (r.value.uploaded.Some? <==> UploadRequired(c, message))
    ensures r.Ok? ==> |r.value.payload.message| <= MessageCharLimit
    ensures r.Ok? ==> r.value.payload.isReasoning == c.isReasoning &&
                      r.value.payload.temporary == !c.keepChat &&
                      (r.value.payload.toolOverrides == map[] <==> c.enableSearch)
  {
    if UploadRequired(c, message) then
      match UploadFile(reply)
      case Err(e) => Err(e)
      case Ok(fileId) => Ok(Outbound(Some(message), PreparePayload(c, UploadInstruction, fileId)))
    else
      Ok(Outbound(None, PreparePayload(c, message, "")))
  }

  /** An assembled prompt that carries any one message longer than the limit is always uploaded. */
  lemma LongContentIsUploaded(c: Client, before: string, messages: seq<Message>, after: string, i: int)
    requires 0 <= i < |messages| && |messages[i].content| > MessageCharLimit
    ensures UploadRequired(c, AssembleMessage(before, messages, after))
  {
    AssembledLongerThanContent(before, messages, after, i);
  }
}
