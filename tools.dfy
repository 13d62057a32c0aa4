/**
 * The five built-in tools the assistant may call: the schema each one
 * advertises (name, description, JSON parameter schema) and the JSON text its
 * `execute` returns for given arguments.
 *
 * Everything a tool reads from outside the plugin's own logic is a field of
 * `ToolEnv`: the knowledge-base search, the file table, Craft's settings,
 * system name and site URL, Craft's element lookup, the page fetch, the HTML
 * parsing (`strip_tags`, `html_entity_decode` and the tag regexes) and PHP's
 * `round`.
 */
module Tools {
  import opened Wrappers
  import opened Strings
  import opened Json
  import opened Store
  import opened Embedding
  import opened Provider

  datatype ToolKind = SearchKnowledgeBase | GetPageContext | GetBusinessInfo | ListKnowledgeTopics | Escalate

  /** A tool object: the schema it advertises and the behaviour its `execute` runs. */
  datatype Tool = Tool(name: string, description: string, parameters: Value, kind: ToolKind)

  /** `toSchema`: the shape the provider adapters send. */
  function ToSchema(t: Tool): ToolSchema {
    ToolSchema(t.name, t.description, t.parameters)
  }

  function TypedProperty(ty: string, description: string): Value {
    Obj([("type", Str(ty)), ("description", Str(description))])
  }

  /** `['type' => 'object', 'properties' => new \stdClass()]`. */
  const NoParameters := Obj([("type", Str("object")), ("properties", Obj([]))])

  /** An object schema with the given properties and `required` list. */
  function ObjectSchema(properties: seq<(string, Value)>, required: string): Value {
    Obj([("type", Str("object")), ("properties", Obj(properties)), ("required", Arr([Str(required)]))])
  }

  const SearchDescription := "Search the knowledge base for relevant information. Use this when the user asks questions that might be answered by uploaded documents."
  const PageContextDescription := "Get information about the page the user is currently viewing. Returns the page title, headings, and text content."
  const BusinessInfoDescription := "Get general business information including name, description, contact details, and hours. Use when users ask about the company, contact info, or business hours."
  const TopicsDescription := "List available knowledge base files and their topics. Use this to understand what information is available before searching."
  const EscalateDescription := "Escalate the conversation for human review. Use this when you cannot adequately help the user, they request to speak with a human, or the issue requires human intervention."

  const SearchParameters := ObjectSchema([
    ("query", TypedProperty("string", "The search query to find relevant knowledge base content")),
    ("limit", Obj([("type", Str("integer")),
                   ("description", Str("Maximum number of results to return (default: 5)")),
                   ("default", Int(5))]))],
    "query")
  const PageContextParameters := ObjectSchema([("url", TypedProperty("string", "The URL of the page to get context for"))], "url")
  const EscalateParameters := ObjectSchema([("reason", TypedProperty("string", "Brief reason for the escalation"))], "reason")

  const SearchName := "search_knowledge_base"
  const PageContextName := "get_page_context"
  const BusinessInfoName := "get_business_info"
  const TopicsName := "list_knowledge_topics"
  const EscalateName := "escalate"

  /** The tool objects `ToolRegistry::init` creates. */
  function Builtin(k: ToolKind): (t: Tool)
    ensures t.kind == k
  {
    match k
    case SearchKnowledgeBase => Tool(SearchName, SearchDescription, SearchParameters, k)
    case GetPageContext => Tool(PageContextName, PageContextDescription, PageContextParameters, k)
    case GetBusinessInfo => Tool(BusinessInfoName, BusinessInfoDescription, NoParameters, k)
    case ListKnowledgeTopics => Tool(TopicsName, TopicsDescription, NoParameters, k)
    case Escalate => Tool(EscalateName, EscalateDescription, EscalateParameters, k)
  }

  /** The five built-in tools have five different names. */
  lemma {:induction false} BuiltinNamesDistinct(a: ToolKind, b: ToolKind)
    ensures Builtin(a).name == Builtin(b).name ==> a == b
  {
  }

  /** The escalate schema declares `reason` as its only required argument. */
  lemma {:induction false} EscalateRequiresReason()
    ensures Get(Builtin(Escalate).parameters, "required") == Arr([Str("reason")])
    ensures Get(Get(Get(Builtin(Escalate).parameters, "properties"), "reason"), "type") == Str("string")
  {
  }

  /** get_business_info and list_knowledge_topics advertise an object schema with no properties. */
  lemma {:induction false} NoArgumentSchemas()
    ensures Get(Builtin(GetBusinessInfo).parameters, "properties") == Obj([])
    ensures Get(Builtin(ListKnowledgeTopics).parameters, "properties") == Obj([])
    ensures Get(Builtin(GetBusinessInfo).parameters, "required") == Null
  {
    var fs := NoParameters.fields;
    LookupCons(fs[0].0, fs[0].1, fs[1..], "properties");
    LookupCons(fs[0].0, fs[0].1, fs[1..], "required");
    LookupCons(fs[1].0, fs[1].1, fs[2..], "required");
  }

  // ---------------------------------------------------------------------------
  // What the tools read from outside

  /** The plugin settings `get_business_info` reads. */
  datatype BusinessSettings = BusinessSettings(
    businessName: string, businessDescription: string, businessContact: string,
    businessHours: string, businessExtra: string)

  /**
   * A Craft element found by URI: its `title` (possibly null), its class name,
   * its section's name when it has one, and the custom field values that
   * are strings or numbers, already converted to text, keyed by handle.
   */
  datatype ElementInfo = ElementInfo(title: Value, className: string, section: Option<string>,
                                     fieldValues: seq<(string, string)>)

  /**
   * What the tag regexes, `strip_tags` and `html_entity_decode` make of a page
   * once script, style and nav blocks are removed: the first title's text
   * (None when there is no title tag), each h1-h6 heading's text in document
   * order, and the text of the body (of the whole page when there is no body tag).
   */
  datatype Markup = Markup(title: Option<string>, headings: seq<string>, body: string)

  datatype ToolEnv = ToolEnv(
    search: (Value, Value) -> Result<seq<Scored>>,  // EmbeddingService::search(query, limit)
    round: Value -> Value,                          // round($x, 4)
    business: BusinessSettings,
    systemName: string,
    siteUrl: Value,                                 // the current site's base URL, possibly null
    files: seq<KnowledgeFile>,                      // the knowledge-file table
    parsePath: Value -> Option<string>,             // parse_url($url)['path']
    element: string -> Option<ElementInfo>,         // getElementByUri
    fetch: Value -> Option<string>,                 // _fetchPage: null on any failure
    markup: string -> Markup)

  // ---------------------------------------------------------------------------
  // search_knowledge_base

  const QueryRequired := Encode(Obj([("error", Str("Query is required"))]))
  const NoResults := Encode(Obj([("message", Str("No relevant information found in the knowledge base."))]))

  /** A search hit as the PHP array the search returns. */
  function ScoredRow(s: Scored): Value {
    Obj([("content", Str(s.content)), ("filename", Str(s.filename)), ("chunkId", Int(s.chunkId)), ("score", Float(s.score))])
  }

  function ScoredRows(hits: seq<Scored>): (rows: seq<Value>)
    ensures |rows| == |hits| && forall i :: 0 <= i < |hits| ==> rows[i] == ScoredRow(hits[i])
  {
    seq(|hits|, i requires 0 <= i < |hits| => ScoredRow(hits[i]))
  }

  /** One output entry: the content, the filename or 'Unknown', the rounded score. */
  function SearchEntry(row: Value, round: Value -> Value): Value {
    Obj([("content", Get(row, "content")),
         ("source", Coalesce(Get(row, "filename"), Str("Unknown"))),
         ("relevance", round(Coalesce(Get(row, "score"), Int(0))))])
  }

  lemma {:induction false} SearchEntryFields(row: Value, round: Value -> Value)
    ensures Get(SearchEntry(row, round), "content") == Get(row, "content")
    ensures Get(SearchEntry(row, round), "source") == if Get(row, "filename") == Null then Str("Unknown") else Get(row, "filename")
  {
    var fs := SearchEntry(row, round).fields;
    LookupCons(fs[0].0, fs[0].1, fs[1..], "source");
    LookupCons(fs[1].0, fs[1].1, fs[2..], "source");
    assert fs[1..] == [fs[1]] + fs[2..];
  }

  /** The output list: one entry per hit, in order, content copied, source the filename or 'Unknown'. */
  function SearchEntries(rows: seq<Value>, round: Value -> Value): (r: seq<Value>)
    ensures |r| == |rows|
    ensures forall i :: 0 <= i < |rows| ==> Get(r[i], "content") == Get(rows[i], "content")
    ensures forall i :: 0 <= i < |rows| ==>
      Get(r[i], "source") == if Get(rows[i], "filename") == Null then Str("Unknown") else Get(rows[i], "filename")
  {
    var r := seq(|rows|, i requires 0 <= i < |rows| => SearchEntry(rows[i], round));
    forall i | 0 <= i < |rows|
      ensures Get(r[i], "content") == Get(rows[i], "content")
      ensures Get(r[i], "source") == if Get(rows[i], "filename") == Null then Str("Unknown") else Get(rows[i], "filename")
    {
      SearchEntryFields(rows[i], round);
    }
    r
  }

  /** The `foreach` that builds the output list. */
  method SearchOutput(rows: seq<Value>, round: Value -> Value) returns (output: seq<Value>)
    ensures output == SearchEntries(rows, round)
  {
    output := [];
    for i := 0 to |rows|
      invariant |output| == i
      invariant forall j :: 0 <= j < i ==> output[j] == SearchEntry(rows[j], round)
    {
      output := output + [SearchEntry(rows[i], round)];
    }
  }

  /** The arguments `search` receives: the query or '', the limit or 5. */
  function SearchArguments(params: Value): (r: (Value, Value))
    ensures Get(params, "limit") == Null ==> r.1 == Int(5)
    ensures Get(params, "limit") != Null ==> r.1 == Get(params, "limit")
    ensures r.0 == if Get(params, "query") == Null then Str("") else Get(params, "query")
  {
    (Coalesce(Get(params, "query"), Str("")), Coalesce(Get(params, "limit"), Int(5)))
  }

  /** `execute`: an exception thrown by the search escapes as `Fail`. */
  function SearchResult(params: Value, env: ToolEnv): Result<string> {
    var (query, limit) := SearchArguments(params);
    if !Truthy(query) then Ok(QueryRequired)
    else
      match env.search(query, limit)
      case Fail(m) => Fail(m)
      case Ok(hits) =>
        if hits == [] then Ok(NoResults)
        else
          Ok(EncodePretty(Arr(SearchEntries(ScoredRows(hits), env.round)), 0))
  }

  /** A missing or PHP-empty query (including "0") gives the error, whatever the search would do. */
  lemma {:induction false} SearchEmptyQuery(params: Value, env: ToolEnv, other: (Value, Value) -> Result<seq<Scored>>)
    requires Get(params, "query") in {Null, Str(""), Str("0"), Bool(false), Int(0), Arr([]), Obj([])}
    ensures SearchResult(params, env) == Ok(QueryRequired)
    ensures SearchResult(params, env.(search := other)) == Ok(QueryRequired)
  {
    assert !Truthy(SearchArguments(params).0);
  }

  /** With a query, the tool fails exactly when the search does, and no hits give the no-results message. */
  lemma {:induction false} SearchOutcomes(params: Value, env: ToolEnv)
    requires Truthy(SearchArguments(params).0)
    ensures var hits := env.search(SearchArguments(params).0, SearchArguments(params).1);
      (SearchResult(params, env).Fail? <==> hits.Fail?)
      && (hits.Fail? ==> SearchResult(params, env) == Fail(hits.message))
      && (hits == Ok([]) ==> SearchResult(params, env) == Ok(NoResults))
  {
  }

  /** Hits become entries whose source is the hit's filename (the 'Unknown' default never applies to them). */
  lemma {:induction false} SearchHitSources(hits: seq<Scored>, round: Value -> Value)
    ensures var rows := ScoredRows(hits);
      forall i :: 0 <= i < |hits| ==>
        Get(SearchEntries(rows, round)[i], "source") == Str(hits[i].filename)
        && Get(SearchEntries(rows, round)[i], "content") == Str(hits[i].content)
  {
    var rows := ScoredRows(hits);
    forall i | 0 <= i < |hits|
      ensures Get(rows[i], "filename") == Str(hits[i].filename)
      ensures Get(rows[i], "content") == Str(hits[i].content)
    {
      var fs := rows[i].fields;
      LookupCons(fs[0].0, fs[0].1, fs[1..], "filename");
      assert fs[1..] == [fs[1]] + fs[2..];
      LookupCons(fs[1].0, fs[1].1, fs[2..], "filename");
    }
  }

  // ---------------------------------------------------------------------------
  // get_business_info

  const NoBusinessInfo := Encode(Obj([("message", Str("No business information has been configured."))]))

  /** `$x ?: ''`. */
  function OrEmpty(s: string): string {
    if PhpEmpty(s) then "" else s
  }

  /** The `$info` literal before `array_filter`. */
  function BusinessFields(b: BusinessSettings, systemName: string, siteUrl: Value): seq<(string, Value)> {
    [("name", Str(if PhpEmpty(b.businessName) then systemName else b.businessName)),
     ("description", Str(OrEmpty(b.businessDescription))),
     ("contact", Str(OrEmpty(b.businessContact))),
     ("hours", Str(OrEmpty(b.businessHours))),
     ("additional", Str(OrEmpty(b.businessExtra))),
     ("site_url", siteUrl)]
  }

  predicate KeptField(f: (string, Value)) { Truthy(f.1) }

  /** `array_filter($info)`: the fields with truthy values, in literal order. */
  function BusinessInfo(b: BusinessSettings, systemName: string, siteUrl: Value): seq<(string, Value)> {
    Filter(BusinessFields(b, systemName, siteUrl), KeptField)
  }

  /** A field when it is kept, nothing otherwise. */
  function IfKept(f: (string, Value)): seq<(string, Value)> {
    if Truthy(f.1) then [f] else []
  }

  /**
   * The filtered info, field by field: each of name, description, contact,
   * hours, additional, site_url appears, in that order, exactly when its value is truthy.
   */
  lemma {:induction false} BusinessInfoShape(b: BusinessSettings, systemName: string, siteUrl: Value)
    ensures var fs := BusinessFields(b, systemName, siteUrl);
      BusinessInfo(b, systemName, siteUrl)
      == IfKept(fs[0]) + IfKept(fs[1]) + IfKept(fs[2]) + IfKept(fs[3]) + IfKept(fs[4]) + IfKept(fs[5])
  {
    var fs := BusinessFields(b, systemName, siteUrl);
    assert fs[..5][..4] == fs[..4];
    assert fs[..4][..3] == fs[..3];
    assert fs[..3][..2] == fs[..2];
    assert fs[..2][..1] == fs[..1];
    assert fs[..1][..0] == [];
    assert Filter(fs[..1], KeptField) == IfKept(fs[0]);
    assert Filter(fs[..2], KeptField) == IfKept(fs[0]) + IfKept(fs[1]);
    assert Filter(fs[..3], KeptField) == IfKept(fs[0]) + IfKept(fs[1]) + IfKept(fs[2]);
    assert Filter(fs[..4], KeptField) == IfKept(fs[0]) + IfKept(fs[1]) + IfKept(fs[2]) + IfKept(fs[3]);
    assert Filter(fs[..5], KeptField) == IfKept(fs[0]) + IfKept(fs[1]) + IfKept(fs[2]) + IfKept(fs[3]) + IfKept(fs[4]);
    assert fs[..6] == fs;
  }

  /** `name` is the business name when it is set, else the system name; it is absent when both are empty. */
  lemma {:induction false} BusinessNameField(b: BusinessSettings, systemName: string, siteUrl: Value)
    ensures !PhpEmpty(b.businessName) ==> Lookup(BusinessInfo(b, systemName, siteUrl), "name") == Str(b.businessName)
    ensures PhpEmpty(b.businessName) && !PhpEmpty(systemName) ==>
      Lookup(BusinessInfo(b, systemName, siteUrl), "name") == Str(systemName)
    ensures PhpEmpty(b.businessName) && PhpEmpty(systemName) ==>
      Lookup(BusinessInfo(b, systemName, siteUrl), "name") == Null
  {
    BusinessNameLookup(b, systemName, siteUrl);
  }

  /** Only the first literal field is called `name`, so it alone decides the lookup. */
  lemma {:induction false} BusinessNameLookup(b: BusinessSettings, systemName: string, siteUrl: Value)
    ensures var f := BusinessFields(b, systemName, siteUrl)[0];
      Lookup(BusinessInfo(b, systemName, siteUrl), "name") == if KeptField(f) then f.1 else Null
  {
    var fs := BusinessFields(b, systemName, siteUrl);
    assert forall k :: 1 <= k < |fs| ==> fs[k].0 != "name";
    FilterLookupHead(fs, "name");
  }

  /** Filtering a field list whose head alone has the name: the head decides. */
  lemma {:induction false} FilterLookupHead(fs: seq<(string, Value)>, key: string)
    requires fs != [] && fs[0].0 == key
    requires forall k :: 1 <= k < |fs| ==> fs[k].0 != key
    ensures Lookup(Filter(fs, KeptField), key) == if KeptField(fs[0]) then fs[0].1 else Null
  {
    assert fs == [fs[0]] + fs[1..];
    FilterAppend([fs[0]], fs[1..], KeptField);
    assert [fs[0]][..0] == [];
    var rest := Filter(fs[1..], KeptField);
    assert forall k :: 0 <= k < |rest| ==> rest[k] in fs[1..];
    LookupAppend(Filter([fs[0]], KeptField), rest, key);
  }

  /** A field is in the output exactly when it is in the literal with a truthy value. */
  lemma {:induction false} BusinessInfoFilters(b: BusinessSettings, systemName: string, siteUrl: Value, f: (string, Value))
    ensures f in BusinessInfo(b, systemName, siteUrl) <==> f in BusinessFields(b, systemName, siteUrl) && Truthy(f.1)
  {
  }

  /** `execute`: the message when nothing is left after filtering, else the kept fields, pretty-printed. */
  function BusinessResult(env: ToolEnv): string {
    var info := BusinessInfo(env.business, env.systemName, env.siteUrl);
    if info == [] then NoBusinessInfo else EncodePretty(Obj(info), 0)
  }

  /** Every field empty (the system name and site URL too) gives exactly the message. */
  lemma {:induction false} BusinessInfoEmpty(env: ToolEnv)
    ensures BusinessInfo(env.business, env.systemName, env.siteUrl) == [] <==>
      (PhpEmpty(env.business.businessName) && PhpEmpty(env.systemName)
       && PhpEmpty(env.business.businessDescription) && PhpEmpty(env.business.businessContact)
       && PhpEmpty(env.business.businessHours) && PhpEmpty(env.business.businessExtra)
       && !Truthy(env.siteUrl))
    ensures BusinessInfo(env.business, env.systemName, env.siteUrl) == [] ==> BusinessResult(env) == NoBusinessInfo
  {
    BusinessInfoShape(env.business, env.systemName, env.siteUrl);
  }

  // ---------------------------------------------------------------------------
  // list_knowledge_topics

  const NoFiles := Encode(Obj([("message", Str("No knowledge base files are available."))]))

  predicate IsReady(f: KnowledgeFile) { f.status == Ready }

  function TopicEntry(f: KnowledgeFile): Value {
    Obj([("name", Str(f.originalName)), ("chunks", Int(f.chunkCount)), ("type", Str(f.mimeType))])
  }

  /** One entry per file, in order, with name, chunk count and type copied from the record. */
  function TopicEntries(files: seq<KnowledgeFile>): (r: seq<Value>)
    ensures |r| == |files|
    ensures forall i :: 0 <= i < |files| ==>
      Get(r[i], "name") == Str(files[i].originalName) && Get(r[i], "chunks") == Int(files[i].chunkCount)
      && Get(r[i], "type") == Str(files[i].mimeType)
  {
    var r := seq(|files|, i requires 0 <= i < |files| => TopicEntry(files[i]));
    forall i | 0 <= i < |files|
      ensures Get(r[i], "name") == Str(files[i].originalName) && Get(r[i], "chunks") == Int(files[i].chunkCount)
      ensures Get(r[i], "type") == Str(files[i].mimeType)
    {
      TopicEntryFields(files[i]);
    }
    r
  }

  lemma {:induction false} TopicEntryFields(f: KnowledgeFile)
    ensures Get(TopicEntry(f), "name") == Str(f.originalName) && Get(TopicEntry(f), "chunks") == Int(f.chunkCount)
    ensures Get(TopicEntry(f), "type") == Str(f.mimeType)
  {
    var fs := TopicEntry(f).fields;
    assert fs[1..] == [fs[1]] + fs[2..];
    LookupCons(fs[0].0, fs[0].1, fs[1..], "chunks");
    LookupCons(fs[1].0, fs[1].1, fs[2..], "chunks");
    LookupCons(fs[0].0, fs[0].1, fs[1..], "type");
    LookupCons(fs[1].0, fs[1].1, fs[2..], "type");
  }

  /** The `foreach` that builds `$topics`. */
  method Topics(files: seq<KnowledgeFile>) returns (topics: seq<Value>)
    ensures topics == TopicEntries(files)
  {
    topics := [];
    for i := 0 to |files|
      invariant |topics| == i
      invariant forall j :: 0 <= j < i ==> topics[j] == TopicEntry(files[j])
    {
      topics := topics + [TopicEntry(files[i])];
    }
  }

  /** The listing before encoding: None for the no-files message. */
  function TopicsListing(files: seq<KnowledgeFile>): Option<Value> {
    var ready := Filter(files, IsReady);
    if ready == [] then None
    else
      var topics := TopicEntries(ready);
      Some(Obj([("available_files", Arr(topics)), ("total_files", Int(|topics|))]))
  }

  function TopicsResult(files: seq<KnowledgeFile>): string {
    match TopicsListing(files)
    case None => NoFiles
    case Some(v) => EncodePretty(v, 0)
  }

  /**
   * The listing holds exactly the ready files, in table order, and
   * `total_files` counts its entries; with no ready file the message is returned.
   */
  lemma {:induction false} TopicsListReady(files: seq<KnowledgeFile>)
    ensures TopicsListing(files).None? <==> (forall f :: f in files ==> f.status != Ready)
    ensures TopicsListing(files).Some? ==>
      var v := TopicsListing(files).value;
      var listed := Elements(Get(v, "available_files"));
      listed == TopicEntries(Filter(files, IsReady))
      && Get(v, "total_files") == Int(|listed|)
      && (forall f :: f in files && f.status == Ready <==> f in Filter(files, IsReady))
  {
    var ready := Filter(files, IsReady);
    if ready == [] {
      forall f | f in files ensures f.status != Ready {
        assert f !in ready;
      }
    } else {
      var v := TopicsListing(files).value;
      var topics := TopicEntries(ready);
      LookupCons("available_files", Arr(topics), [("total_files", Int(|topics|))], "total_files");
      assert ready[0] in files;
    }
  }

  // ---------------------------------------------------------------------------
  // escalate

  const DefaultReason := "User requested human assistance"
  const EscalatedMessage := "This conversation has been flagged for human review. A team member will follow up as soon as possible."

  function EscalateValue(params: Value): Value {
    Obj([("status", Str("escalated")),
         ("reason", Coalesce(Get(params, "reason"), Str(DefaultReason))),
         ("message", Str(EscalatedMessage))])
  }

  /** The result is 'escalated' with the reason echoed, or the default reason, and the fixed message. */
  lemma {:induction false} EscalateEchoesReason(params: Value)
    ensures Get(EscalateValue(params), "status") == Str("escalated")
    ensures Get(EscalateValue(params), "reason") == if Get(params, "reason") == Null then Str(DefaultReason) else Get(params, "reason")
    ensures Get(EscalateValue(params), "message") == Str(EscalatedMessage)
  {
    var fs := EscalateValue(params).fields;
    assert fs[1..] == [fs[1]] + fs[2..];
    LookupCons(fs[0].0, fs[0].1, fs[1..], "reason");
    LookupCons(fs[1].0, fs[1].1, fs[2..], "reason");
    LookupCons(fs[0].0, fs[0].1, fs[1..], "message");
    LookupCons(fs[1].0, fs[1].1, fs[2..], "message");
  }

  // ---------------------------------------------------------------------------
  // get_page_context

  const UrlRequired := Encode(Obj([("error", Str("URL is required"))]))
  const HeadingCap := 20
  const TextCap := 3000

  /** `ltrim($path, '/') ?: '__home__'`. */
  function ElementUri(path: string): (r: string)
    ensures r == "__home__" <==> PhpEmpty(LTrimChar(path, '/')) || LTrimChar(path, '/') == "__home__"
    ensures r != [] && r[0] != '/'
  {
    var p := LTrimChar(path, '/');
    if PhpEmpty(p) then "__home__" else p
  }

  predicate IsSpaceOrTab(c: char) { c == ' ' || c == '\t' }
  predicate IsNewline(c: char) { c == '\n' }
  predicate NonEmptyText(s: string) { !PhpEmpty(s) }

  function Trims(hs: seq<string>): (r: seq<string>)
    ensures |r| == |hs| && forall i :: 0 <= i < |hs| ==> r[i] == Trim(hs[i])
  {
    seq(|hs|, i requires 0 <= i < |hs| => Trim(hs[i]))
  }

  /** The trimmed headings that are truthy, in document order. */
  function KeptHeadings(hs: seq<string>): seq<string> {
    Filter(Trims(hs), NonEmptyText)
  }

  /** `[ \t]+` to one space, `\n{3,}` to two newlines, then `trim`. */
  function CleanText(body: string): string {
    Trim(CollapseRuns(CollapseRuns(body, IsSpaceOrTab, 1, " "), IsNewline, 3, "\n\n"))
  }

  /** Over 3000 characters: the first 3000 and '...'. */
  function Truncate(t: string): string {
    if |t| > TextCap then t[..TextCap] + "..." else t
  }

  datatype Extracted = Extracted(title: string, headings: seq<string>, text: string)

  /** `_extractContent` once the markup is parsed. */
  function Extract(m: Markup): Extracted {
    Extracted(match m.title case Some(t) => Trim(t) case None => "",
              SliceFront(KeptHeadings(m.headings), HeadingCap),
              Truncate(CleanText(m.body)))
  }

  /** The heading loop. */
  method CollectHeadings(hs: seq<string>) returns (headings: seq<string>)
    ensures headings == KeptHeadings(hs)
  {
    headings := [];
    for i := 0 to |hs|
      invariant headings == Filter(Trims(hs[..i]), NonEmptyText)
    {
      var text := Trim(hs[i]);
      var ts := Trims(hs[..i + 1]);
      assert ts[..|ts| - 1] == Trims(hs[..i]);
      if NonEmptyText(text) {
        headings := headings + [text];
      }
    }
    assert hs[..|hs|] == hs;
  }

  method ExtractContent(m: Markup) returns (e: Extracted)
    ensures e == Extract(m)
  {
    var title := "";
    if m.title.Some? {
      title := Trim(m.title.value);
    }
    var headings := CollectHeadings(m.headings);
    var text := CleanText(m.body);
    if |text| > TextCap {
      text := text[..TextCap] + "...";
    }
    e := Extracted(title, SliceFront(headings, HeadingCap), text);
  }

  /** At most 20 headings, each trimmed and truthy, taken in document order. */
  lemma {:induction false} ExtractedHeadings(m: Markup)
    ensures |Extract(m).headings| <= HeadingCap
    ensures Extract(m).headings == KeptHeadings(m.headings)[..|Extract(m).headings|]
    ensures forall h :: h in Extract(m).headings ==> NonEmptyText(h) && IsTrimmedBy(h, IsPhpTrimChar)
  {
    var hs := Extract(m).headings;
    forall h | h in hs ensures NonEmptyText(h) && IsTrimmedBy(h, IsPhpTrimChar) {
      assert h in KeptHeadings(m.headings);
      var i :| 0 <= i < |m.headings| && Trims(m.headings)[i] == h;
      TrimByIsTrimmed(m.headings[i], IsPhpTrimChar);
    }
  }

  /** The text is kept whole up to 3000 characters, otherwise its first 3000 and '...'; never over 3003. */
  lemma {:induction false} ExtractedTextBound(m: Markup)
    ensures var t := CleanText(m.body);
      (|t| <= TextCap ==> Extract(m).text == t)
      && (|t| > TextCap ==> Extract(m).text == t[..TextCap] + "...")
      && |Extract(m).text| <= TextCap + 3
  {
  }

  /** No three newlines in a row survive the cleaning and the truncation. */
  lemma {:induction false} ExtractedTextNoTripleNewline(m: Markup, i: nat)
    requires i + 3 <= |Extract(m).text|
    ensures exists j :: i <= j < i + 3 && Extract(m).text[j] != '\n'
  {
    var c := CollapseRuns(CollapseRuns(m.body, IsSpaceOrTab, 1, " "), IsNewline, 3, "\n\n");
    var pre, post := TrimBySplit(c, IsPhpTrimChar);
    var t := Trim(c);
    // The result is a stretch of `c`, possibly followed by "..." (no newlines).
    var x := Extract(m).text;
    if i + 3 <= |t| && (|t| <= TextCap || i + 3 <= TextCap) {
      assert forall j :: i <= j < i + 3 ==> x[j] == t[j];
      CollapseRunsBounded(CollapseRuns(m.body, IsSpaceOrTab, 1, " "), IsNewline, 3, "\n\n", |pre| + i);
      var j :| |pre| + i <= j < |pre| + i + 3 && !IsNewline(c[j]);
      assert c[j] == t[j - |pre|];
      assert x[j - |pre|] != '\n';
    } else {
      assert |t| > TextCap && x == t[..TextCap] + "...";
      assert x[|x| - 1] == '.';
      assert i + 2 >= TextCap;
      assert x[i + 2] != '\n';
    }
  }

  /** No tab survives the cleaning and no two spaces stand together: every run became one space. */
  lemma {:induction false} ExtractedTextBlanksCollapsed(m: Markup)
    ensures forall j :: 0 <= j < |Extract(m).text| ==> Extract(m).text[j] != '\t'
    ensures Apart(Extract(m).text, IsSpaceOrTab)
  {
    var c1 := CollapseRuns(m.body, IsSpaceOrTab, 1, " ");
    CollapseRunsSingles(m.body, IsSpaceOrTab, " ");
    var c := CollapseRuns(c1, IsNewline, 3, "\n\n");
    CollapseRunsFrom(c1, IsNewline, 3, "\n\n");
    CollapseRunsKeepsApart(c1, IsNewline, 3, "\n\n", IsSpaceOrTab);
    assert forall j :: 0 <= j < |c1| ==> c1[j] != '\t';
    assert '\t' !in c1;
    TrimTruncateKeeps(c);
  }

  /** Trimming and truncating neither bring in a tab nor put two blanks together. */
  lemma {:induction false} TrimTruncateKeeps(c: string)
    requires '\t' !in c && Apart(c, IsSpaceOrTab)
    ensures forall j :: 0 <= j < |Truncate(Trim(c))| ==> Truncate(Trim(c))[j] != '\t'
    ensures Apart(Truncate(Trim(c)), IsSpaceOrTab)
  {
    var pre, post := TrimBySplit(c, IsPhpTrimChar);
    var t := Trim(c);
    assert forall j :: 0 <= j < |t| ==> t[j] == c[|pre| + j];
    assert Apart(t, IsSpaceOrTab);
    if |t| > TextCap {
      var x := Truncate(t);
      assert x == t[..TextCap] + "...";
      assert forall j :: 0 <= j < TextCap ==> x[j] == t[j];
      assert forall j :: TextCap <= j < |x| ==> x[j] == '.';
    }
  }

  /** `execute` once `html` is known: the fields the fetch adds. */
  function FetchedFields(html: Option<string>, markup: string -> Markup): seq<(string, Value)> {
    if html.Some? && !PhpEmpty(html.value) then
      var e := Extract(markup(html.value));
      [("page_title", Str(e.title)),
       ("headings", Arr(StrValues(e.headings))),
       ("text_content", Str(e.text))]
    else []
  }

  function StrValues(xs: seq<string>): (r: seq<Value>)
    ensures |r| == |xs| && forall i :: 0 <= i < |xs| ==> r[i] == Str(xs[i])
  {
    seq(|xs|, i requires 0 <= i < |xs| => Str(xs[i]))
  }

  function StrFields(fs: seq<(string, string)>): seq<(string, Value)> {
    seq(|fs|, i requires 0 <= i < |fs| => (fs[i].0, Str(fs[i].1)))
  }

  /** The fields a found element adds: title (or ''), class, section when set, string field values when any. */
  function ElementFields(e: Option<ElementInfo>): seq<(string, Value)> {
    match e
    case None => []
    case Some(el) =>
      [("title", Coalesce(el.title, Str(""))), ("type", Str(el.className))]
      + (match el.section case Some(n) => [("section", Str(n))] case None => [])
      + (if el.fieldValues == [] then [] else [("fields", Obj(StrFields(el.fieldValues)))])
  }

  function PagePath(url: Value, parsePath: Value -> Option<string>): string {
    match parsePath(url) case Some(p) => p case None => "/"
  }

  /** `$context` as built for a non-empty URL. */
  function PageContextFields(url: Value, env: ToolEnv): seq<(string, Value)> {
    var path := PagePath(url, env.parsePath);
    [("url", url), ("path", Str(path))] + ElementFields(env.element(ElementUri(path))) + FetchedFields(env.fetch(url), env.markup)
  }

  function PageContextResult(params: Value, env: ToolEnv): string {
    var url := Coalesce(Get(params, "url"), Str(""));
    if !Truthy(url) then UrlRequired else EncodePretty(Obj(PageContextFields(url, env)), 0)
  }

  /**
   * The context always starts with the URL and the path ('/' when the URL
   * has none), whatever the element lookup and the fetch give; a failed or
   * empty fetch adds no page fields.
   */
  lemma {:induction false} PageContextKeepsUrl(url: Value, env: ToolEnv)
    ensures var fs := PageContextFields(url, env);
      Lookup(fs, "url") == url && Lookup(fs, "path") == Str(PagePath(url, env.parsePath))
    ensures env.fetch(url).None? ==>
      (PageContextFields(url, env)
       == [("url", url), ("path", Str(PagePath(url, env.parsePath)))] + ElementFields(env.element(ElementUri(PagePath(url, env.parsePath)))))
  {
    var path := PagePath(url, env.parsePath);
    var rest := ElementFields(env.element(ElementUri(path))) + FetchedFields(env.fetch(url), env.markup);
    assert PageContextFields(url, env) == [("url", url)] + ([("path", Str(path))] + rest);
    LookupCons("url", url, [("path", Str(path))] + rest, "path");
    LookupCons("path", Str(path), rest, "path");
  }

  /** A missing or PHP-empty URL gives the error, whatever the lookup and the fetch would do. */
  lemma {:induction false} PageContextUrlRequired(params: Value, env: ToolEnv, fetch: Value -> Option<string>,
                               element: string -> Option<ElementInfo>)
    requires Get(params, "url") in {Null, Str(""), Str("0"), Bool(false), Int(0), Arr([]), Obj([])}
    ensures PageContextResult(params, env) == UrlRequired
    ensures PageContextResult(params, env.(fetch := fetch, element := element)) == UrlRequired
  {
  }

  // ---------------------------------------------------------------------------
  // Dispatch

  function EscalateResult(params: Value): string {
    Encode(EscalateValue(params))
  }

  /** `execute($params)` of each tool; only the search can throw. */
  function Execute(k: ToolKind, params: Value, env: ToolEnv): (r: Result<string>)
    ensures k != SearchKnowledgeBase ==> r.Ok?
  {
    match k
    case SearchKnowledgeBase => SearchResult(params, env)
    case GetPageContext => Ok(PageContextResult(params, env))
    case GetBusinessInfo => Ok(BusinessResult(env))
    case ListKnowledgeTopics => Ok(TopicsResult(env.files))
    case Escalate => Ok(EscalateResult(params))
  }

  /** The tools' `execute` methods, with their loops. */
  method Run(k: ToolKind, params: Value, env: ToolEnv) returns (r: Result<string>)
    ensures r == Execute(k, params, env)
  {
    match k {
      case SearchKnowledgeBase =>
        var (query, limit) := SearchArguments(params);
        if !Truthy(query) {
          return Ok(QueryRequired);
        }
        var hits := env.search(query, limit);
        if hits.Fail? {
          return Fail(hits.message);
        }
        if hits.value == [] {
          return Ok(NoResults);
        }
        var output := SearchOutput(ScoredRows(hits.value), env.round);
        r := Ok(EncodePretty(Arr(output), 0));
      case GetPageContext =>
        var url := Coalesce(Get(params, "url"), Str(""));
        if !Truthy(url) {
          return Ok(UrlRequired);
        }
        var path := PagePath(url, env.parsePath);
        var context := [("url", url), ("path", Str(path))] + ElementFields(env.element(ElementUri(path)));
        var html := env.fetch(url);
        if html.Some? && !PhpEmpty(html.value) {
          var e := ExtractContent(env.markup(html.value));
          context := context + [("page_title", Str(e.title)),
                                ("headings", Arr(StrValues(e.headings))),
                                ("text_content", Str(e.text))];
        } else {
          assert FetchedFields(html, env.markup) == [];
        }
        assert context == PageContextFields(url, env);
        r := Ok(EncodePretty(Obj(context), 0));
      case GetBusinessInfo =>
        r := Ok(BusinessResult(env));
      case ListKnowledgeTopics =>
        var ready := Filter(env.files, IsReady);
        if ready == [] {
          return Ok(NoFiles);
        }
        var topics := Topics(ready);
        r := Ok(EncodePretty(Obj([("available_files", Arr(topics)), ("total_files", Int(|topics|))]), 0));
      case Escalate =>
        r := Ok(EscalateResult(params));
    }
  }
}
