/**
 * The server bridge (web/app/api/ai/route.ts): POST /api/ai tries a fixed,
 * ordered list of generative models, one request each, and answers with the
 * first reply it gets.
 *
 * Each outbound request is replaced by its outcome, given per model in list order.
 */
module AiRoute {
  import opened Opt

  /** The models, in the order they are tried. */
  const Models: seq<string> := ["gemini-2.0-flash-lite", "gemini-2.5-flash-lite", "gemini-2.0-flash", "gemini-2.5-flash"]

  /** The fields of the JSON request body, each string or absent; `kind` is the body's `type`. */
  datatype AiRequest = AiRequest(prompt: Option<string>, kind: Option<string>, imageUrl: Option<string>)

  /** The request body as read: its fields, or the message of the error reading it threw. */
  datatype RequestBody = Parsed(request: AiRequest) | Unreadable(message: string)

  /** One part of the generation request sent to a model; an absent prompt leaves the text part without text. */
  datatype Part = TextPart(text: Option<string>) | InlineImage(mimeType: string, data: string)

  /** `type` defaults to "text" when the body leaves it out. */
  function Kind(req: AiRequest): (k: string)
    ensures req.kind.None? ==> k == "text"
    ensures req.kind.Some? ==> k == req.kind.value
  {
    req.kind.GetOr("text")
  }

  /** The image is attached only for type "image" with a non-empty `imageUrl`; the prompt always comes first. */
  function Parts(req: AiRequest): (parts: seq<Part>)
    ensures 1 <= |parts| <= 2 && parts[0] == TextPart(req.prompt)
    ensures |parts| == 2 <==> Kind(req) == "image" && req.imageUrl.Some? && req.imageUrl.value != ""
    ensures |parts| == 2 ==> parts[1] == InlineImage("image/jpeg", req.imageUrl.value)
  {
    if Kind(req) == "image" && req.imageUrl.Some? && req.imageUrl.value != "" then
      [TextPart(req.prompt), InlineImage("image/jpeg", req.imageUrl.value)]
    else
      [TextPart(req.prompt)]
  }

  /** What one model request came to. */
  datatype ModelOutcome =
    | Answered(firstText: Option<string>)  // status OK; the text of the first part of the first candidate, if any
    | Refused                              // status not OK
    | Threw                                // fetch, or reading the reply, threw

  /** The reply text: the first candidate's first part, or "No response" when that is absent or empty. */
  function ReplyText(firstText: Option<string>): (text: string)
    ensures text != ""
    ensures firstText.Some? && firstText.value != "" ==> text == firstText.value
    ensures !(firstText.Some? && firstText.value != "") ==> text == "No response"
  {
    if firstText.Some? && firstText.value != "" then firstText.value else "No response"
  }

  datatype ReplyBody =
    | Generated(text: string, model: string)
    | Failed(error: string, details: string)

  datatype Reply = Reply(status: int, body: ReplyBody)

  /** One outbound request: the model asked and the parts sent to it. */
  datatype ModelCall = ModelCall(model: string, parts: seq<Part>)

  /** The position of the first model that answered, if any. */
  function FirstAnswered(outcomes: seq<ModelOutcome>): (k: Option<nat>)
    ensures k.Some? ==> k.value < |outcomes| && outcomes[k.value].Answered?
    ensures k.Some? ==> forall j :: 0 <= j < k.value ==> !outcomes[j].Answered?
    ensures k.None? ==> forall j :: 0 <= j < |outcomes| ==> !outcomes[j].Answered?
  {
    if outcomes == [] then None
    else if outcomes[0].Answered? then Some(0)
    else match FirstAnswered(outcomes[1..])
      case None => None
      case Some(i) => Some(i + 1)
  }

  const AllFailed := Reply(500, Failed("All models failed", "API quota exceeded or service unavailable"))

  /**
   * POST /api/ai. `body` is the request body as read. Returns the reply and the
   * outbound requests made, in order.
   */
  method Post(body: RequestBody, outcomes: seq<ModelOutcome>) returns (reply: Reply, calls: seq<ModelCall>)
    requires |outcomes| == |Models|
    ensures body.Unreadable? ==> calls == [] && reply == Reply(500, Failed("Internal Server Error", body.message))
    ensures body.Parsed? ==> |calls| <= |Models|
    ensures body.Parsed? ==> forall i :: 0 <= i < |calls| ==> calls[i] == ModelCall(Models[i], Parts(body.request))
    ensures body.Parsed? && FirstAnswered(outcomes).Some? ==>
      var k := FirstAnswered(outcomes).value;
      |calls| == k + 1 && reply == Reply(200, Generated(ReplyText(outcomes[k].firstText), Models[k]))
    ensures body.Parsed? && FirstAnswered(outcomes).None? ==> |calls| == |Models| && reply == AllFailed
  {
    if body.Unreadable? {
      return Reply(500, Failed("Internal Server Error", body.message)), [];
    }
    var parts := Parts(body.request);
    calls := [];
    while |calls| < |Models|
      invariant |calls| <= |Models|
      invariant forall i :: 0 <= i < |calls| ==> calls[i] == ModelCall(Models[i], parts)
      invariant forall j :: 0 <= j < |calls| ==> !outcomes[j].Answered?
    {
      var k := |calls|;
      calls := calls + [ModelCall(Models[k], parts)];
      if outcomes[k].Answered? {
        return Reply(200, Generated(ReplyText(outcomes[k].firstText), Models[k])), calls;
      }
    }
    reply := AllFailed;
  }
}
