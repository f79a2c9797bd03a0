/**
 * The table of canned replies that both static fallback routers
 * (web/api-fallback.js and web/netlify/functions/api-fallback.js) declare,
 * word for word the same, and the route key both take from the request URL.
 */
module FallbackTable {
  import opened Opt
  import opened Strings

  /** The four entries of the table. */
  datatype Template = StudyPlanner | HelpDesk | LostFound | Welcome

  /** The key each entry is stored under. */
  function Key(t: Template): string {
    match t
    case StudyPlanner => "study-planner"
    case HelpDesk => "help-desk"
    case LostFound => "lost-found"
    case Welcome => "default"
  }

  // Each entry is a long Markdown text; only its opening line stands for it here.
  function Text(t: Template): string {
    match t
    case StudyPlanner => "# Study Schedule"
    case HelpDesk => "I'm here to help with CampusSync!"
    case LostFound => "I can help with lost and found items!"
    case Welcome => "Welcome to CampusSync!"
  }

  /** Different entries have different keys and different texts. */
  lemma KeysAndTextsDistinct(t: Template, u: Template)
    requires t != u
    ensures Key(t) != Key(u)
    ensures Text(t) != Text(u)
  {
  }

  /** The table's own entry under `key`, if it has one. */
  function OwnEntry(key: string): (r: Option<Template>)
    ensures r.Some? ==> Key(r.value) == key
    ensures r.None? ==> forall t: Template :: Key(t) != key
  {
    if key == "study-planner" then Some(StudyPlanner)
    else if key == "help-desk" then Some(HelpDesk)
    else if key == "lost-found" then Some(LostFound)
    else if key == "default" then Some(Welcome)
    else None
  }

  /**
   * `fallbackResponses[key] || fallbackResponses['default']`, for a key that is
   * not the name of an inherited object member (see `LookupAsWritten`).
   */
  function Resolve(key: string): (t: Template)
    ensures forall u: Template :: key == Key(u) ==> t == u
    ensures (forall u: Template :: key != Key(u)) ==> t == Welcome
  {
    OwnEntry(key).GetOr(Welcome)
  }

  /** Every entry is reached by its own key. */
  lemma ResolveKey(t: Template)
    ensures Resolve(Key(t)) == t
  {
  }

  // ---------------------------------------------------------------------------
  // The lookup as written: an object literal also answers for the members it
  // inherits from Object.prototype.
  // ---------------------------------------------------------------------------

  /** Names every plain JavaScript object inherits from Object.prototype. */
  const InheritedNames: set<string> := {
    "constructor", "__proto__", "hasOwnProperty", "isPrototypeOf", "propertyIsEnumerable",
    "toString", "toLocaleString", "valueOf",
    "__defineGetter__", "__defineSetter__", "__lookupGetter__", "__lookupSetter__"
  }

  /** What `fallbackResponses[key]` evaluates to. */
  datatype Property =
    | Entry(t: Template)
    | PrototypeObject    // `__proto__`: Object.prototype, a truthy object
    | BuiltinFunction    // any other inherited member: a truthy function
    | Undefined

  function PropertyAsWritten(key: string): (p: Property)
    ensures p.Undefined? <==> OwnEntry(key).None? && key !in InheritedNames
  {
    match OwnEntry(key)
    case Some(t) => Entry(t)
    case None =>
      if key == "__proto__" then PrototypeObject
      else if key in InheritedNames then BuiltinFunction
      else Undefined
  }

  /** `fallbackResponses[key] || fallbackResponses['default']` as written: `||` only replaces `undefined`. */
  function LookupAsWritten(key: string): (p: Property)
    ensures !p.Undefined?
    ensures key !in InheritedNames ==> p == Entry(Resolve(key))
    ensures key in InheritedNames ==> !p.Entry?
  {
    var p := PropertyAsWritten(key);
    if p.Undefined? then Entry(Welcome) else p
  }

  /** What `{ text: value }` serialises to. */
  datatype TextField =
    | TextOf(t: Template)   // "text": the entry's text
    | EmptyObjectText       // "text": {}
    | NoTextField           // a function-valued member is dropped: {}

  function SerialisedAsWritten(p: Property): (f: TextField)
    ensures f.TextOf? <==> p.Entry?
    ensures p.Entry? ==> f == TextOf(p.t)
    ensures p.PrototypeObject? <==> f.EmptyObjectText?
  {
    match p
    case Entry(t) => TextOf(t)
    case PrototypeObject => EmptyObjectText
    case _ => NoTextField
  }

  /** Off the inherited names the lookup as written is `Resolve`. */
  lemma LookupAsWrittenAgreesOffPrototype(key: string)
    requires key !in InheritedNames
    ensures LookupAsWritten(key) == Entry(Resolve(key))
  {
  }

  /** The route "constructor" gets no reply text at all from the lookup as written, where the default was meant. */
  lemma ConstructorKeyLosesText()
    ensures SerialisedAsWritten(LookupAsWritten("constructor")) == NoTextField
    ensures SerialisedAsWritten(LookupAsWritten("__proto__")) == EmptyObjectText
    ensures Resolve("constructor") == Welcome && Resolve("__proto__") == Welcome
  {
    assert "constructor" in InheritedNames;
  }

  // ---------------------------------------------------------------------------
  // The route key
  // ---------------------------------------------------------------------------

  /** `url.split('/').pop()`: the text after the last '/', or the whole URL when it has none. */
  function LastSegment(url: string): (seg: string)
    ensures '/' !in seg
    ensures |seg| <= |url| && url[|url| - |seg|..] == seg
    ensures |seg| < |url| ==> url[|url| - |seg| - 1] == '/'
  {
    match LastIndexOf(url, '/')
    case None => url
    case Some(i) => url[i + 1..]
  }

  /** The last segment of `prefix/key` is `key`, whatever the prefix. */
  lemma {:induction false} LastSegmentOfPath(prefix: string, key: string)
    requires '/' !in key
    ensures LastSegment(prefix + "/" + key) == key
  {
    var url := prefix + "/" + key;
    var seg := LastSegment(url);
    assert url[|prefix|] == '/';
    assert url[|url| - |key|..] == key;
  }
}
