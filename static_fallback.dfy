/**
 * The static-deployment AI fallback (web/api-fallback.js): answers every
 * request with the canned text stored under the last segment of its URL,
 * falling back to the "default" entry.
 */
module StaticFallback {
  import opened FallbackTable

  /** The JSON reply `{ text }` and its status. */
  datatype TextReply = TextReply(status: int, text: string)

  /**
   * `handler(req, res)`. Only the URL is a parameter: the handler never reads the
   * request body or method. It uses the corrected lookup `Resolve`.
   */
  function Handle(url: string): (reply: TextReply)
    ensures reply.status == 200
    ensures reply.text == Text(Resolve(LastSegment(url)))
  {
    TextReply(200, Text(Resolve(LastSegment(url))))
  }

  /** The handler as written: an inherited member name as the last segment escapes the default. */
  function HandleAsWritten(url: string): (field: TextField)
    ensures LastSegment(url) !in InheritedNames ==> field == TextOf(Resolve(LastSegment(url)))
  {
    SerialisedAsWritten(LookupAsWritten(LastSegment(url)))
  }

  /** The four keys each reach their own entry, under any path prefix. */
  lemma KnownRoutes(prefix: string, t: Template)
    ensures Handle(prefix + "/" + Key(t)) == TextReply(200, Text(t))
  {
    assert '/' !in Key(t);
    LastSegmentOfPath(prefix, Key(t));
  }

  /** Any other last segment, including the empty one after a trailing '/', gets the default entry. */
  lemma UnknownRoutesGetDefault(prefix: string, key: string)
    requires '/' !in key
    requires forall t: Template :: key != Key(t)
    ensures Handle(prefix + "/" + key) == TextReply(200, Text(Welcome))
  {
    LastSegmentOfPath(prefix, key);
  }

  /** A trailing '/' leaves an empty last segment, which gets the default entry. */
  lemma TrailingSlashGetsDefault(prefix: string)
    ensures Handle(prefix + "/") == TextReply(200, Text(Welcome))
  {
    assert prefix + "/" == prefix + "/" + "";
    UnknownRoutesGetDefault(prefix, "");
  }

  /** The request "/api/constructor" gets a reply without any text from the handler as written. */
  lemma ConstructorRouteAsWritten()
    ensures HandleAsWritten("/api/constructor") == NoTextField
    ensures Handle("/api/constructor") == TextReply(200, Text(Welcome))
  {
    assert "/api/constructor" == "/api" + "/" + "constructor";
    LastSegmentOfPath("/api", "constructor");
    ConstructorKeyLosesText();
  }
}
