/**
 * The serverless variant of the AI fallback (web/netlify/functions/api-fallback.js):
 * CORS headers on every request, an empty 200 for OPTIONS, the JSON body read for
 * POST, and on "help-desk" a keyword look at the prompt before the table lookup.
 *
 * `JSON.parse(req.body)` is replaced by what it came to.
 */
module NetlifyFallback {
  import opened Opt
  import opened Strings
  import opened FallbackTable
  import Gemini

  /** What `body.prompt` is, once `body` is an object. */
  datatype PromptField =
    | NoPrompt               // undefined, or a falsy value such as ""
    | TextPrompt(s: string)  // a non-empty string
    | OtherPrompt            // a truthy value that is not a string (number, object, array, true)

  /** What `JSON.parse(req.body)` came to. */
  datatype ParsedBody =
    | ParseError                      // it threw: `body` stays `{}`
    | NullBody                        // the body was the JSON literal null
    | ParsedValue(prompt: PromptField)  // any other JSON value, with its `prompt` member

  datatype Request = Request(httpMethod: string, url: string, body: ParsedBody)

  /** The three CORS headers, set before anything else. */
  const CorsHeaders: map<string, string> := map[
    "Access-Control-Allow-Origin" := "*",
    "Access-Control-Allow-Methods" := "GET, POST, PUT, DELETE, OPTIONS",
    "Access-Control-Allow-Headers" := "Content-Type, Authorization"
  ]

  /** `urlParts[urlParts.length - 1] || 'default'`. */
  function RouteKey(url: string): (key: string)
    ensures key != ""
    ensures LastSegment(url) != "" ==> key == LastSegment(url)
    ensures LastSegment(url) == "" ==> key == "default"
  {
    var seg := LastSegment(url);
    if seg == "" then "default" else seg
  }

  /** Replacing an empty last segment by "default" never changes the entry chosen. */
  lemma RouteKeyResolvesLikeLastSegment(url: string)
    ensures Resolve(RouteKey(url)) == Resolve(LastSegment(url))
  {
    if LastSegment(url) == "" {
      assert OwnEntry("") == None;
    }
  }

  /** `body.prompt`, or `None` when reading it throws (`body` is null). */
  function PromptOf(httpMethod: string, body: ParsedBody): (p: Option<PromptField>)
    ensures httpMethod != "POST" ==> p == Some(NoPrompt)
    ensures p.None? <==> httpMethod == "POST" && body.NullBody?
    ensures httpMethod == "POST" && body.ParsedValue? ==> p == Some(body.prompt)
    ensures httpMethod == "POST" && body.ParseError? ==> p == Some(NoPrompt)
  {
    if httpMethod != "POST" then Some(NoPrompt)
    else match body
      case ParseError => Some(NoPrompt)
      case NullBody => None
      case ParsedValue(prompt) => Some(prompt)
  }

  /**
   * The study keyword group of the help-desk routing, tested on the lower-cased
   * prompt. It adds "schedule" to the offline assistant's study group; the
   * lost/found group is the same as the offline assistant's, `Gemini.MentionsLostFound`.
   */
  predicate MentionsStudyTopic(lower: string) {
    Contains(lower, "study") || Contains(lower, "subjects") || Contains(lower, "schedule")
  }

  /** The keyword routing on "help-desk": `None` falls through to the table lookup. */
  function HelpDeskRoute(prompt: string): (r: Option<Template>)
    ensures r == Some(StudyPlanner) <==> MentionsStudyTopic(Lower(prompt))
    ensures r == Some(LostFound) <==> !MentionsStudyTopic(Lower(prompt)) && Gemini.MentionsLostFound(Lower(prompt))
    ensures r.None? <==> !MentionsStudyTopic(Lower(prompt)) && !Gemini.MentionsLostFound(Lower(prompt))
  {
    var lower := Lower(prompt);
    if MentionsStudyTopic(lower) then Some(StudyPlanner)
    else if Gemini.MentionsLostFound(lower) then Some(LostFound)
    else None
  }

  /** How a request that is not OPTIONS ends. */
  datatype Outcome =
    | Answer(t: Template)  // status 200 with `{ text }` of this entry
    | Crash                // the handler throws after setting the headers

  /** The handler's decision for a request other than OPTIONS. */
  function Route(req: Request): (r: Outcome)
    ensures r.Crash? <==>
      (req.httpMethod == "POST" && req.body.NullBody?) ||
      (RouteKey(req.url) == "help-desk" && PromptOf(req.httpMethod, req.body) == Some(OtherPrompt))
    ensures r.Answer? && RouteKey(req.url) != "help-desk" ==> r.t == Resolve(LastSegment(req.url))
    ensures r.Answer? && RouteKey(req.url) == "help-desk" ==> r.t != Welcome
    ensures RouteKey(req.url) == "help-desk" && PromptOf(req.httpMethod, req.body) == Some(NoPrompt) ==>
      r == Answer(HelpDesk)
    ensures forall s :: RouteKey(req.url) == "help-desk" && PromptOf(req.httpMethod, req.body) == Some(TextPrompt(s)) ==>
      r == Answer(HelpDeskRoute(s).GetOr(HelpDesk))
  {
    var key := RouteKey(req.url);
    match PromptOf(req.httpMethod, req.body)
    case None => Crash
    case Some(NoPrompt) => Answer(Resolve(key))
    case Some(OtherPrompt) => if key == "help-desk" then Crash else Answer(Resolve(key))
    case Some(TextPrompt(s)) =>
      if key == "help-desk" then Answer(HelpDeskRoute(s).GetOr(HelpDesk)) else Answer(Resolve(key))
  }

  /** Only a POST body is ever read: for other methods the body makes no difference. */
  lemma BodyIgnoredUnlessPost(req: Request, other: ParsedBody)
    requires req.httpMethod != "POST"
    ensures Route(req) == Route(req.(body := other))
    ensures Route(req) == Answer(Resolve(LastSegment(req.url)))
  {
  }

  /** An unparsable POST body acts as `{}`: no prompt, so just the table lookup. */
  lemma UnparsableBodyIsEmpty(url: string)
    ensures Route(Request("POST", url, ParseError)) == Answer(Resolve(LastSegment(url)))
  {
  }

  /** Off "help-desk", the prompt is ignored; only a null body makes a difference. */
  lemma PromptIgnoredOffHelpDesk(req: Request)
    requires RouteKey(req.url) != "help-desk"
    requires !(req.httpMethod == "POST" && req.body.NullBody?)
    ensures Route(req) == Answer(Resolve(LastSegment(req.url)))
  {
  }

  /** The route key of any URL ending in "/help-desk". */
  lemma HelpDeskKey(prefix: string)
    ensures RouteKey(prefix + "/help-desk") == "help-desk"
  {
    assert prefix + "/help-desk" == prefix + "/" + "help-desk";
    LastSegmentOfPath(prefix, "help-desk");
  }

  /** On "help-desk", a text prompt is routed by its keywords, else the help-desk entry answers. */
  lemma HelpDeskTextPrompt(prefix: string, s: string)
    requires s != ""
    ensures Route(Request("POST", prefix + "/help-desk", ParsedValue(TextPrompt(s)))) == Answer(HelpDeskRoute(s).GetOr(HelpDesk))
  {
    HelpDeskKey(prefix);
  }

  /** On "help-desk", a text prompt without any routing keyword gets the help-desk entry. */
  lemma HelpDeskNoKeyword(prefix: string, s: string)
    requires s != ""
    requires !MentionsStudyTopic(Lower(s)) && !Gemini.MentionsLostFound(Lower(s))
    ensures Route(Request("POST", prefix + "/help-desk", ParsedValue(TextPrompt(s)))) == Answer(HelpDesk)
  {
    HelpDeskTextPrompt(prefix, s);
  }

  /** A prompt naming study, subjects or schedule in any letter case gets the study planner. */
  lemma HelpDeskStudyKeyword(a: string, k: string, b: string)
    requires Lower(k) == "study" || Lower(k) == "subjects" || Lower(k) == "schedule"
    ensures HelpDeskRoute(a + k + b) == Some(StudyPlanner)
  {
    LowerAppend(a + k, b);
    LowerAppend(a, k);
    ContainsInfix(Lower(a), Lower(k), Lower(b));
  }

  /** "lost" or "found" in any letter case, without a study keyword, gets the lost-and-found entry. */
  lemma HelpDeskLostFoundKeyword(a: string, k: string, b: string)
    requires Lower(k) == "lost" || Lower(k) == "found"
    requires HelpDeskRoute(a + k + b) != Some(StudyPlanner)
    ensures HelpDeskRoute(a + k + b) == Some(LostFound)
  {
    LowerAppend(a + k, b);
    LowerAppend(a, k);
    ContainsInfix(Lower(a), Lower(k), Lower(b));
  }

  /**
   * The request "/api/constructor" gets a reply without any text from this router's
   * lookup as written, where the corrected routing gives the default entry.
   */
  lemma ConstructorRouteAsWritten()
    ensures SerialisedAsWritten(LookupAsWritten(RouteKey("/api/constructor"))) == NoTextField
    ensures Route(Request("GET", "/api/constructor", ParseError)) == Answer(Welcome)
  {
    assert "/api/constructor" == "/api" + "/" + "constructor";
    LastSegmentOfPath("/api", "constructor");
    ConstructorKeyLosesText();
  }

  /** The part of the response the handler writes through `res`. */
  datatype Sent = Nothing | EmptyBody | JsonText(text: string)

  /** The `res` object: headers, status and what was sent. */
  class ServerResponse {
    var headers: map<string, string>
    var status: Option<int>
    var sent: Sent

    constructor ()
      ensures headers == map[] && status == None && sent == Nothing
    {
      headers := map[];
      status := None;
      sent := Nothing;
    }

    method SetHeader(name: string, value: string)
      modifies this
      ensures headers == old(headers)[name := value]
      ensures status == old(status) && sent == old(sent)
    {
      headers := headers[name := value];
    }

    method Status(code: int)
      modifies this
      ensures status == Some(code)
      ensures headers == old(headers) && sent == old(sent)
    {
      status := Some(code);
    }

    method End()
      modifies this
      ensures sent == EmptyBody
      ensures headers == old(headers) && status == old(status)
    {
      sent := EmptyBody;
    }

    method Json(text: string)
      modifies this
      ensures sent == JsonText(text)
      ensures headers == old(headers) && status == old(status)
    {
      sent := JsonText(text);
    }
  }

  /** `handler(req, res)`; `crashed` tells that it threw. */
  method Handle(req: Request, res: ServerResponse) returns (crashed: bool)
    modifies res
    ensures res.headers == old(res.headers) + CorsHeaders
    ensures req.httpMethod == "OPTIONS" ==> !crashed && res.status == Some(200) && res.sent == EmptyBody
    ensures req.httpMethod != "OPTIONS" ==> crashed == Route(req).Crash?
    ensures req.httpMethod != "OPTIONS" && Route(req).Answer? ==>
      res.status == Some(200) && res.sent == JsonText(Text(Route(req).t))
    ensures crashed ==> res.status == old(res.status) && res.sent == old(res.sent)
  {
    res.SetHeader("Access-Control-Allow-Origin", "*");
    res.SetHeader("Access-Control-Allow-Methods", "GET, POST, PUT, DELETE, OPTIONS");
    res.SetHeader("Access-Control-Allow-Headers", "Content-Type, Authorization");

    if req.httpMethod == "OPTIONS" {
      res.Status(200);
      res.End();
      return false;
    }

    var prompt := PromptOf(req.httpMethod, req.body);
    if prompt.None? {
      return true;
    }
    var key := RouteKey(req.url);
    if prompt.value != NoPrompt && key == "help-desk" {
      if prompt.value == OtherPrompt {
        return true;
      }
      var routed := HelpDeskRoute(prompt.value.s);
      if routed.Some? {
        res.Status(200);
        res.Json(Text(routed.value));
        return false;
      }
    }
    res.Status(200);
    res.Json(Text(Resolve(key)));
    crashed := false;
  }
}
