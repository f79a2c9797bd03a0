/**
 * The client AI facade (web/lib/gemini.ts): the offline assistant used when the
 * server bridge is unreachable, the base64 clean-up for image uploads, the bridge
 * call that never fails, and the extraction of structured replies from free text.
 *
 * The bridge call itself is an outcome supplied by the caller, and `JSON.parse`
 * is a partial function `parse` supplied by the caller.
 */
module Gemini {
  import opened Opt
  import opened Strings

  // ---------------------------------------------------------------------------
  // Offline assistant
  // ---------------------------------------------------------------------------

  /** The four canned replies of the offline assistant. */
  datatype OfflineReply = StudyPlanReply | HelpReply | LostFoundReply | GeneralReply

  // Each canned reply is a long Markdown text; only its opening sentence stands for it here.
  const StudyPlanText: string := "I'll help you create a study plan!"
  const HelpText: string := "I understand you need help!"
  const LostFoundText: string := "I can help with lost and found items!"
  const GeneralText: string := "I'm here to help with CampusSync!"

  function ReplyText(r: OfflineReply): string {
    match r
    case StudyPlanReply => StudyPlanText
    case HelpReply => HelpText
    case LostFoundReply => LostFoundText
    case GeneralReply => GeneralText
  }

  /** Keyword groups, tested on the lower-cased prompt. */
  predicate MentionsStudy(lower: string) {
    Contains(lower, "study") || Contains(lower, "subjects")
  }

  predicate MentionsHelp(lower: string) {
    Contains(lower, "help") || Contains(lower, "issue") || Contains(lower, "problem")
  }

  predicate MentionsLostFound(lower: string) {
    Contains(lower, "lost") || Contains(lower, "found")
  }

  /** `getOfflineAIResponse`: the first keyword group the lower-cased prompt mentions picks the reply. */
  function ChooseOfflineReply(prompt: string): (r: OfflineReply)
    ensures r == StudyPlanReply <==> MentionsStudy(Lower(prompt))
    ensures r == HelpReply <==> !MentionsStudy(Lower(prompt)) && MentionsHelp(Lower(prompt))
    ensures r == LostFoundReply <==>
      !MentionsStudy(Lower(prompt)) && !MentionsHelp(Lower(prompt)) && MentionsLostFound(Lower(prompt))
  {
    var lower := Lower(prompt);
    if MentionsStudy(lower) then StudyPlanReply
    else if MentionsHelp(lower) then HelpReply
    else if MentionsLostFound(lower) then LostFoundReply
    else GeneralReply
  }

  /** `getOfflineAIResponse`: the canned text of the first keyword group the lower-cased prompt mentions. */
  function OfflineAIResponse(prompt: string): (text: string)
    ensures text == StudyPlanText || text == HelpText || text == LostFoundText || text == GeneralText
    ensures text == ReplyText(ChooseOfflineReply(prompt))
    ensures MentionsStudy(Lower(prompt)) ==> text == StudyPlanText
    ensures !MentionsStudy(Lower(prompt)) && MentionsHelp(Lower(prompt)) ==> text == HelpText
    ensures !MentionsStudy(Lower(prompt)) && !MentionsHelp(Lower(prompt)) && MentionsLostFound(Lower(prompt)) ==>
      text == LostFoundText
    ensures !MentionsStudy(Lower(prompt)) && !MentionsHelp(Lower(prompt)) && !MentionsLostFound(Lower(prompt)) ==>
      text == GeneralText
  {
    ReplyText(ChooseOfflineReply(prompt))
  }

  /** The reply depends only on the lower-cased prompt: letter case never changes it. */
  lemma OfflineReplyIgnoresCase(p: string, q: string)
    requires Lower(p) == Lower(q)
    ensures ChooseOfflineReply(p) == ChooseOfflineReply(q)
    ensures OfflineAIResponse(p) == OfflineAIResponse(q)
  {
  }

  /** Lowering a prompt first does not change the reply. */
  lemma OfflineReplyOfLowered(p: string)
    ensures ChooseOfflineReply(Lower(p)) == ChooseOfflineReply(p)
  {
    LowerIdempotent(p);
  }

  /** Lowering `a + k + b` keeps every occurrence of a lower-cased keyword `k`. */
  lemma KeywordSurvivesLowering(a: string, k: string, b: string, w: string)
    requires Lower(k) == w
    ensures Contains(Lower(a + k + b), w)
  {
    LowerAppend(a + k, b);
    LowerAppend(a, k);
    ContainsInfix(Lower(a), w, Lower(b));
  }

  /**
   * A prompt holding "study" or "subjects" in any letter case gets the study plan,
   * whatever other keywords surround it.
   */
  lemma StudyKeywordWins(a: string, k: string, b: string)
    requires Lower(k) == "study" || Lower(k) == "subjects"
    ensures ChooseOfflineReply(a + k + b) == StudyPlanReply
  {
    KeywordSurvivesLowering(a, k, b, Lower(k));
  }

  /** Without a study keyword, "help", "issue" or "problem" beats "lost" and "found". */
  lemma HelpKeywordBeatsLostFound(a: string, k: string, b: string)
    requires Lower(k) == "help" || Lower(k) == "issue" || Lower(k) == "problem"
    requires !MentionsStudy(Lower(a + k + b))
    ensures ChooseOfflineReply(a + k + b) == HelpReply
  {
    KeywordSurvivesLowering(a, k, b, Lower(k));
  }

  /** With neither study nor help keywords, "lost" or "found" gets the lost-and-found reply. */
  lemma LostFoundKeywordRoutes(a: string, k: string, b: string)
    requires Lower(k) == "lost" || Lower(k) == "found"
    requires !MentionsStudy(Lower(a + k + b)) && !MentionsHelp(Lower(a + k + b))
    ensures ChooseOfflineReply(a + k + b) == LostFoundReply
  {
    KeywordSurvivesLowering(a, k, b, Lower(k));
  }

  /** A prompt with no keyword at all gets the general reply, and only such a prompt does. */
  lemma GeneralReplyIffNoKeyword(p: string)
    ensures ChooseOfflineReply(p) == GeneralReply <==>
      !MentionsStudy(Lower(p)) && !MentionsHelp(Lower(p)) && !MentionsLostFound(Lower(p))
  {
  }

  /** The text holds neither an opening square bracket nor an opening brace. */
  predicate BracketFree(s: string) {
    '[' !in s && '{' !in s
  }

  // One lemma per canned text keeps each proof about a literal small.
  lemma StudyPlanTextBracketFree()
    ensures BracketFree(StudyPlanText)
  {
  }

  lemma HelpTextBracketFree()
    ensures BracketFree(HelpText)
  {
  }

  lemma LostFoundTextBracketFree()
    ensures BracketFree(LostFoundText)
  {
  }

  lemma GeneralTextBracketFree()
    ensures BracketFree(GeneralText)
  {
  }

  /** No canned reply holds '[' or '{'. */
  lemma RepliesBracketFree(r: OfflineReply)
    ensures BracketFree(ReplyText(r))
  {
    match r
    case StudyPlanReply => StudyPlanTextBracketFree();
    case HelpReply => HelpTextBracketFree();
    case LostFoundReply => LostFoundTextBracketFree();
    case GeneralReply => GeneralTextBracketFree();
  }

  /** So the offline reply to any prompt is bracket-free. */
  lemma OfflineResponseBracketFree(prompt: string)
    ensures BracketFree(OfflineAIResponse(prompt))
  {
    RepliesBracketFree(ChooseOfflineReply(prompt));
  }

  // ---------------------------------------------------------------------------
  // cleanBase64
  // ---------------------------------------------------------------------------

  /** The part of `t` before its first comma, or all of `t`. */
  function BeforeComma(t: string): (r: string)
    ensures ',' !in r
    ensures IsPrefix(r, t)
    ensures |r| < |t| ==> t[|r|] == ','
  {
    match FirstIndexOf(t, ',')
    case None => t
    case Some(j) => t[..j]
  }

  /**
   * `cleanBase64`: `s.split(",")[1]` when `s` holds a comma (the text between the
   * first and the second comma, or to the end), else `s` unchanged.
   */
  function CleanBase64(s: string): (r: string)
    ensures ',' !in r
    ensures ',' !in s ==> r == s
    ensures ',' in s ==> (exists k :: 0 <= k < |s| && s[k] == ',' && ',' !in s[..k] &&
                            IsPrefix(r, s[k + 1..]) && (|r| == |s| - k - 1 || s[k + 1 + |r|] == ','))
  {
    match FirstIndexOf(s, ',')
    case None => s
    case Some(i) => BeforeComma(s[i + 1..])
  }

  /** Cleaning twice is cleaning once. */
  lemma CleanBase64Idempotent(s: string)
    ensures CleanBase64(CleanBase64(s)) == CleanBase64(s)
  {
  }

  /** A data URL `header,payload` is reduced to its payload. */
  lemma DataUrlReducedToPayload(header: string, payload: string)
    requires ',' !in header && ',' !in payload
    ensures CleanBase64(header + "," + payload) == payload
  {
    var s := header + "," + payload;
    assert s[|header|] == ',';
    var i := FirstIndexOf(s, ',').value;
    assert s[i + 1..] == payload;
  }

  // ---------------------------------------------------------------------------
  // The bridge call
  // ---------------------------------------------------------------------------

  /** What the POST to /api/ai came to. */
  datatype BridgeOutcome =
    | Delivered(text: string)   // status OK, reply field `text`
    | ErrorStatus               // status not OK: the facade throws into its own catch
    | Unreachable               // fetch or reading the JSON reply threw

  /** `callInternalAI`: a bridge failure never escapes; the offline reply for the same prompt replaces it. */
  function CallInternalAI(prompt: string, outcome: BridgeOutcome): (r: string)
    ensures outcome.Delivered? ==> r == outcome.text
    ensures !outcome.Delivered? ==> r == OfflineAIResponse(prompt)
  {
    match outcome
    case Delivered(text) => text
    case _ => OfflineAIResponse(prompt)
  }

  // ---------------------------------------------------------------------------
  // Structured replies
  // ---------------------------------------------------------------------------

  /**
   * What the regular expression `open [\s\S]* close` matches: the leftmost start
   * from which a closing character can be reached, extended to the last closing one.
   */
  ghost predicate LeftmostGreedyMatch(s: string, open: char, close: char, i: int, j: int) {
    && 0 <= i < j < |s| && s[i] == open && s[j] == close
    && (forall i' :: 0 <= i' < i ==> !(s[i'] == open && close in s[i' + 1..]))
    && (forall j' :: j < j' < |s| ==> s[j'] != close)
  }

  /** `s.match(/\[[\s\S]*\]/)` and `s.match(/\{[\s\S]*\}/)`: the greedy span, or `None`. */
  function GreedySpan(s: string, open: char, close: char): (r: Option<string>)
    ensures r.None? <==> !exists i, j :: 0 <= i < j < |s| && s[i] == open && s[j] == close
    ensures r.Some? ==> exists i, j :: LeftmostGreedyMatch(s, open, close, i, j) && r.value == s[i..j + 1]
  {
    match (FirstIndexOf(s, open), LastIndexOf(s, close))
    case (Some(i), Some(j)) =>
      if i < j then
        assert LeftmostGreedyMatch(s, open, close, i, j) by {
          forall j' | j < j' < |s| ensures s[j'] != close {
            assert s[j'] in s[j + 1..];
          }
          forall i' | 0 <= i' < i ensures s[i'] != open {
            assert s[i'] in s[..i];
          }
        }
        Some(s[i..j + 1])
      else
        assert forall i', j' :: 0 <= i' < j' < |s| && s[i'] == open && s[j'] == close ==> false by {
          forall i', j' | 0 <= i' < j' < |s| && s[i'] == open && s[j'] == close ensures false {
          }
        }
        None
    case _ => None
  }

  /** `JSON.parse` of the literal "[]" is the empty list. */
  const EmptyIdsJson: string := "[]"

  /** `findMatchesV2` after the bridge call: the ids in the greedy `[...]` span, else none. */
  function FindMatches(text: string, parse: string -> Option<seq<string>>): (ids: seq<string>)
    requires parse(EmptyIdsJson) == Some([])
    ensures GreedySpan(text, '[', ']').None? ==> ids == []
    ensures GreedySpan(text, '[', ']').Some? ==> ids == parse(GreedySpan(text, '[', ']').value).GetOr([])
  {
    var source := GreedySpan(text, '[', ']').GetOr(EmptyIdsJson);
    parse(source).GetOr([])
  }

  datatype NoticeClass = NoticeClass(priority: string, category: string)
  datatype TicketClass = TicketClass(priority: string, category: string, summary: string)

  const NoticeDefault := NoticeClass("medium", "general")
  const NoticeDefaultJson: string := "{" + "\"priority\":\"medium\",\"category\":\"general\"" + "}"
  const TicketDefault := TicketClass("low", "general", "Issue reported")
  const TicketDefaultJson: string := "{" + "\"priority\":\"low\",\"category\":\"general\",\"summary\":\"Issue reported\"" + "}"

  /** `classifyNoticeV2` after the bridge call: the parsed `{...}` span, else {medium, general}. */
  function ClassifyNotice(text: string, parse: string -> Option<NoticeClass>): (c: NoticeClass)
    requires parse(NoticeDefaultJson) == Some(NoticeDefault)
    ensures GreedySpan(text, '{', '}').None? ==> c == NoticeDefault
    ensures GreedySpan(text, '{', '}').Some? ==> c == parse(GreedySpan(text, '{', '}').value).GetOr(NoticeDefault)
  {
    var source := GreedySpan(text, '{', '}').GetOr(NoticeDefaultJson);
    parse(source).GetOr(NoticeDefault)
  }

  /** `classifyTicketV2` after the bridge call: the parsed `{...}` span, else {low, general, "Issue reported"}. */
  function ClassifyTicket(text: string, parse: string -> Option<TicketClass>): (c: TicketClass)
    requires parse(TicketDefaultJson) == Some(TicketDefault)
    ensures GreedySpan(text, '{', '}').None? ==> c == TicketDefault
    ensures GreedySpan(text, '{', '}').Some? ==> c == parse(GreedySpan(text, '{', '}').value).GetOr(TicketDefault)
  {
    var source := GreedySpan(text, '{', '}').GetOr(TicketDefaultJson);
    parse(source).GetOr(TicketDefault)
  }

  /** `classifyTicketV2` sends the cleaned image, and asks for an image reply, only when an image is given. */
  function TicketRequest(imageUrl: Option<string>): (r: (string, Option<string>))
    ensures r.0 == "image" <==> imageUrl.Some? && imageUrl.value != ""
    ensures r.1.Some? ==> ',' !in r.1.value
    ensures r.0 == "image" ==> r.1 == Some(CleanBase64(imageUrl.value))
    ensures r.0 != "image" ==> r == ("text", None)
  {
    if imageUrl.Some? && imageUrl.value != "" then ("image", Some(CleanBase64(imageUrl.value)))
    else ("text", None)
  }

  /** A text that is exactly its own span is its own span. */
  lemma WholeTextIsSpan(s: string, open: char, close: char)
    requires 2 <= |s| && s[0] == open && s[|s| - 1] == close
    ensures GreedySpan(s, open, close) == Some(s)
  {
    assert FirstIndexOf(s, open) == Some(0);
    assert LastIndexOf(s, close) == Some(|s| - 1);
    assert s[0..|s|] == s;
  }

  /** Feeding "[]" back through the array extraction gives no matches again. */
  lemma EmptyIdsJsonIsFixedPoint(parse: string -> Option<seq<string>>)
    requires parse(EmptyIdsJson) == Some([])
    ensures FindMatches(EmptyIdsJson, parse) == []
  {
    WholeTextIsSpan(EmptyIdsJson, '[', ']');
  }

  /** Feeding the default notice JSON back through the extraction gives the default notice class. */
  lemma NoticeDefaultJsonIsFixedPoint(parse: string -> Option<NoticeClass>)
    requires parse(NoticeDefaultJson) == Some(NoticeDefault)
    ensures ClassifyNotice(NoticeDefaultJson, parse) == NoticeDefault
  {
    WholeTextIsSpan(NoticeDefaultJson, '{', '}');
  }

  /** Feeding the default ticket JSON back through the extraction gives the default ticket class. */
  lemma TicketDefaultJsonIsFixedPoint(parse: string -> Option<TicketClass>)
    requires parse(TicketDefaultJson) == Some(TicketDefault)
    ensures ClassifyTicket(TicketDefaultJson, parse) == TicketDefault
  {
    WholeTextIsSpan(TicketDefaultJson, '{', '}');
  }

  /** Text without an opening bracket or brace has no span of either kind. */
  lemma BracketFreeHasNoSpan(s: string)
    requires BracketFree(s)
    ensures GreedySpan(s, '[', ']') == None
    ensures GreedySpan(s, '{', '}') == None
  {
    forall i | 0 <= i < |s| ensures s[i] != '[' && s[i] != '{' {
      assert s[i] in s;
    }
  }

  /**
   * With the bridge down, every structured call degrades to its default:
   * no matches, and the default notice and ticket classes.
   */
  lemma BridgeDownGivesDefaults(
    prompt: string, outcome: BridgeOutcome,
    parseIds: string -> Option<seq<string>>,
    parseNotice: string -> Option<NoticeClass>,
    parseTicket: string -> Option<TicketClass>)
    requires !outcome.Delivered?
    requires parseIds(EmptyIdsJson) == Some([])
    requires parseNotice(NoticeDefaultJson) == Some(NoticeDefault)
    requires parseTicket(TicketDefaultJson) == Some(TicketDefault)
    ensures FindMatches(CallInternalAI(prompt, outcome), parseIds) == []
    ensures ClassifyNotice(CallInternalAI(prompt, outcome), parseNotice) == NoticeDefault
    ensures ClassifyTicket(CallInternalAI(prompt, outcome), parseTicket) == TicketDefault
  {
    OfflineResponseBracketFree(prompt);
    BracketFreeHasNoSpan(CallInternalAI(prompt, outcome));
  }
}
