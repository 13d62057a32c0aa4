/**
 * The two-step agent. Step 1 sends the conversation with the tool schemas
 * and either gets tool calls or a classification marker back; the tools run;
 * step 2 answers from their results. The provider is an oracle; the tool
 * registry is the modelled one.
 */
module Agent {
  import opened Wrappers
  import opened Strings
  import opened Json
  import opened Store
  import opened Provider
  import opened Tools
  import opened ToolRegistry
  import opened PluginSettings

  // ---------------------------------------------------------------------------
  // Message lists

  /** A system prompt, the last `n` history entries copied as they are, then the user's message. */
  function Windowed(system: string, history: seq<ChatMessage>, n: nat, userMessage: string): seq<ChatMessage> {
    [ChatMessage("system", system)] + LastN(history, n) + [ChatMessage("user", userMessage)]
  }

  /**
   * The list holds 2 + min(n, |history|) messages: the system prompt first,
   * the user's message last, and in between the most recent history entries
   * in their order, role and content unchanged.
   */
  lemma {:induction false} WindowedShape(system: string, history: seq<ChatMessage>, n: nat, userMessage: string)
    ensures |Windowed(system, history, n, userMessage)| == 2 + (if |history| < n then |history| else n)
    ensures Windowed(system, history, n, userMessage)[0] == ChatMessage("system", system)
    ensures Windowed(system, history, n, userMessage)[|Windowed(system, history, n, userMessage)| - 1]
      == ChatMessage("user", userMessage)
    ensures forall k :: 1 <= k < |Windowed(system, history, n, userMessage)| - 1 ==>
      Windowed(system, history, n, userMessage)[k] == history[|history| - |LastN(history, n)| + (k - 1)]
  {
    var mid := LastN(history, n);
    var w := [ChatMessage("system", system)] + mid + [ChatMessage("user", userMessage)];
    assert Windowed(system, history, n, userMessage) == w;
    assert forall k :: 1 <= k < |w| - 1 ==> w[k] == mid[k - 1];
  }

  const Step1Window := 10
  const Step2Window := 6

  function Step1Messages(s: Settings, files: seq<KnowledgeFile>, userMessage: string, history: seq<ChatMessage>, pageUrl: string)
    : seq<ChatMessage>
  {
    Windowed(Step1Prompt(s, files, pageUrl), history, Step1Window, userMessage)
  }

  function Step2Messages(s: Settings, userMessage: string, history: seq<ChatMessage>, results: seq<ToolResult>, pageUrl: string)
    : seq<ChatMessage>
  {
    Windowed(Step2Prompt(s, results, pageUrl), history, Step2Window, userMessage)
  }

  function GreetingMessages(s: Settings, userMessage: string, history: seq<ChatMessage>): seq<ChatMessage> {
    Windowed(GreetingPrompt(s), history, Step2Window, userMessage)
  }

  // ---------------------------------------------------------------------------
  // Step-2 and greeting prompts

  function Persona(s: Settings): string {
    "You are " + s.agentName + ". " + s.agentPersona
  }

  /** `"--- Tool: {name} ---\n{result}"`. */
  function ContextBlock(r: ToolResult): string {
    "--- Tool: " + r.name + " ---\n" + r.result
  }

  function ContextBlocks(results: seq<ToolResult>): seq<string> {
    seq(|results|, k requires 0 <= k < |results| => ContextBlock(results[k]))
  }

  /** The blocks, in result order, joined by a blank line. */
  function Context(results: seq<ToolResult>): string {
    Join(ContextBlocks(results), "\n\n")
  }

  // The prompt texts below are written as concatenations of short literals:
  // one long literal makes every proof that unfolds a prompt far costlier.

  function Step2Page(pageUrl: string): string {
    if PhpEmpty(pageUrl) then "" else "\n\n" + ("The user is " + "currently " + "on page: ") + pageUrl
  }

  /** The persona and the instructions that open the step-2 prompt. */
  function Step2Head(s: Settings): string {
    Persona(s) + "\n\n"
    + ("Use the " + "following " + "context to " + "answer the " + "user's " + "question. ")
    + ("If the " + "context " + "doesn't " + "contain " + "relevant " + "information, " + "say so " + "honestly.\n\n")
  }

  function Step2Prompt(s: Settings, results: seq<ToolResult>, pageUrl: string): string {
    Step2Head(s) + ("CONTEXT:\n" + Context(results)) + Step2Page(pageUrl)
  }

  /**
   * The context is empty exactly when there are no results and otherwise holds
   * every result's block; the prompt opens with the persona, holds the context
   * after `CONTEXT:`, and ends with the page line exactly when the page URL is
   * truthy.
   */
  lemma {:induction false} Step2PromptParts(s: Settings, results: seq<ToolResult>, pageUrl: string)
    ensures results == [] ==> Context(results) == ""
    ensures forall k :: 0 <= k < |results| ==> Contains(Context(results), ContextBlock(results[k]))
    ensures StartsWith(Step2Prompt(s, results, pageUrl), Persona(s))
    ensures Contains(Step2Prompt(s, results, pageUrl), "CONTEXT:\n" + Context(results))
    ensures !PhpEmpty(pageUrl) ==> EndsWith(Step2Prompt(s, results, pageUrl), "\n\n" + ("The user is " + "currently " + "on page: ") + pageUrl)
    ensures PhpEmpty(pageUrl) ==> EndsWith(Step2Prompt(s, results, pageUrl), "CONTEXT:\n" + Context(results))
  {
    ContextHoldsBlocks(results);
    HeadOpensWithPersona(s);
    ThreeParts(Persona(s), Step2Head(s), "CONTEXT:\n" + Context(results), Step2Page(pageUrl));
  }

  lemma {:induction false} HeadOpensWithPersona(s: Settings)
    ensures StartsWith(Step2Head(s), Persona(s))
  {
    var rest := "\n\n"
      + ("Use the " + "following " + "context to " + "answer the " + "user's " + "question. ")
      + ("If the " + "context " + "doesn't " + "contain " + "relevant " + "information, " + "say so " + "honestly.\n\n");
    assert Step2Head(s) == Persona(s) + rest;
    assert (Persona(s) + rest)[..|Persona(s)|] == Persona(s);
  }

  lemma {:induction false} ContextHoldsBlocks(results: seq<ToolResult>)
    ensures results == [] ==> Context(results) == ""
    ensures forall k :: 0 <= k < |results| ==> Contains(Context(results), ContextBlock(results[k]))
  {
    forall k | 0 <= k < |results| ensures Contains(Context(results), ContextBlock(results[k])) {
      JoinContains(ContextBlocks(results), "\n\n", k);
    }
  }

  /** A text `h + c + e`, where `h` starts with `p`, starts with `p`, holds `c`, ends with `e`, and ends with `c` when `e` is empty. */
  lemma {:induction false} ThreeParts(p: string, h: string, c: string, e: string)
    requires StartsWith(h, p)
    ensures StartsWith(h + c + e, p)
    ensures Contains(h + c + e, c)
    ensures EndsWith(h + c + e, e)
    ensures e == "" ==> EndsWith(h + c + e, c)
  {
    var all := h + c + e;
    assert all[..|p|] == h[..|p|];
    ContainsInfix(h, c, e);
    assert all[|h + c|..] == e;
    if e == "" {
      assert all == h + c;
      assert all[|h|..] == c;
    }
  }

  function GreetingPrompt(s: Settings): string {
    Persona(s) + "\n"
    + ("The user " + "sent a " + "greeting or " + "casual " + "message. " + "Respond " + "warmly and " + "briefly, " + "then offer " + "to help.\n")
    + ("Keep your " + "response " + "short \U{2014} 1-2 " + "sentences " + "max. Be " + "friendly " + "and natural.")
  }

  // ---------------------------------------------------------------------------
  // Step-1 prompt

  function Step1Intro(s: Settings): string {
    ("You are a " + "routing " + "assistant " + "for ") + s.agentName
    + (". Your job " + "is to " + "classify " + "the user's " + "message and " + "call the " + "right " + "tools.\n\n")
  }

  /** The three escalation policies the prompt can describe. */
  datatype Level = Strict | Sensitive | Balanced

  /** 'low' is strict, 'high' is sensitive, any other value is balanced. */
  function LevelOf(sensitivity: string): Level {
    if sensitivity == "low" then Strict
    else if sensitivity == "high" then Sensitive
    else Balanced
  }

  function LevelText(l: Level): string {
    match l
    case Strict =>
      ("   STRICT: " + "Only " + "escalate " + "when the " + "user " + "explicitly " + "and firmly " + "demands a " + "human, " + "person, " + "agent, or " + "representative.\n")
      + ("   Phrases " + "like \"I " + "need help\", " + "\"can you " + "help\", " + "\"this isn't " + "working\" " + "are NOT " + "escalation " + "requests \U{2014} " + "always try " + "to help " + "first.\n")
      + ("   Even " + "repeated " + "frustration " + "is not " + "enough \U{2014} " + "the user " + "must " + "clearly say " + "they want a " + "human.\n\n")
    case Sensitive =>
      ("   " + "SENSITIVE: " + "Escalate " + "when the " + "user asks " + "for a human " + "OR seems " + "frustrated, " + "dissatisfied, " + "or you've " + "failed to " + "answer " + "their " + "question " + "after the " + "conversation " + "shows " + "repeated " + "attempts.\n")
      + ("   Signs to " + "escalate: " + "repeated " + "complaints, " + "expressions " + "of " + "frustration " + "(\"this is " + "useless\", " + "\"you're not " + "helping\"), " + "or saying " + "\"I need " + "help\" after " + "you already " + "tried.\n")
      + ("   Still " + "try to help " + "first on " + "the initial " + "ask \U{2014} don't " + "escalate on " + "the very " + "first " + "message.\n\n")
    case Balanced =>
      ("   " + "BALANCED: " + "Escalate " + "when the " + "user " + "clearly " + "asks for " + "human help " + "(e.g. \"talk " + "to " + "someone\", " + "\"connect me " + "to " + "support\", " + "\"I want a " + "real " + "person\").\n")
      + ("   \"I need " + "help\" or " + "\"can you " + "help me\" is " + "NOT a " + "request for " + "a human \U{2014} " + "try to help " + "first.\n")
      + ("   If " + "you've " + "tried to " + "help and " + "the user is " + "still " + "unsatisfied " + "and asks " + "again, then " + "escalate.\n\n")
  }

  function SensitivityText(sensitivity: string): string {
    LevelText(LevelOf(sensitivity))
  }

  function EscalationSection(s: Settings): string {
    if s.escalationEnabled then
      ("D) User " + "wants to be " + "connected " + "to a human\n")
      + ("   \U{2192} Call " + "the " + "escalate " + "tool.\n")
      + SensitivityText(s.escalationSensitivity)
    else ""
  }

  /** `"- {originalName} ({chunkCount} chunks)\n"`. */
  function FileLine(f: KnowledgeFile): string {
    "- " + f.originalName + " (" + NatToString(f.chunkCount) + " chunks)\n"
  }

  function FileLines(files: seq<KnowledgeFile>): string {
    if files == [] then "" else FileLines(files[..|files| - 1]) + FileLine(files[|files| - 1])
  }

  /** The knowledge-base section over the ready files; none when there is no ready file. */
  function FilesSection(files: seq<KnowledgeFile>): string {
    var ready := Filter(files, IsReady);
    if ready == [] then "" else ("KNOWLEDGE " + "BASE FILES " + "AVAILABLE:\n") + FileLines(ready) + "\n"
  }

  function AllowedSection(s: Settings): string {
    if PhpEmpty(s.allowedTopics) then ""
    else ("ALLOWED " + "TOPICS " + "(only these " + "are " + "on-topic):\n") + s.allowedTopics + "\n\n"
  }

  function DisallowedSection(s: Settings): string {
    if PhpEmpty(s.disallowedTopics) then ""
    else ("DISALLOWED " + "TOPICS " + "(refuse " + "these \U{2014} " + "classify as " + "OFF-TOPIC):\n") + s.disallowedTopics + "\n\n"
  }

  function Step1Page(pageUrl: string): string {
    if PhpEmpty(pageUrl) then "" else "\n" + ("The user is " + "currently " + "on page: ") + pageUrl
  }

  const Classification :=
    ("MESSAGE " + "CLASSIFICATION " + "\U{2014} pick ONE:\n" + "\n")
    + ("A) GREETING " + "or casual " + "message " + "(\"hello\", " + "\"hi\", " + "\"thanks\", " + "\"how are " + "you\", etc.)\n")
    + ("   \U{2192} " + "Respond " + "with " + "exactly: " + "[GREETING]\n")
    + ("   Do NOT " + "call any " + "tools for " + "greetings " + "or " + "pleasantries.\n" + "\n")
    + ("B) QUESTION " + "or request " + "that needs " + "information\n")
    + ("   \U{2192} Call " + "one or more " + "tools to " + "gather the " + "information. " + "Do NOT " + "answer " + "directly.\n\n")
    + ("C) " + "OFF-TOPIC " + "or " + "DISALLOWED " + "topic\n")
    + ("   \U{2192} " + "Respond " + "with " + "exactly: " + "[OFF_TOPIC]\n" + "\n")

  const Rules :=
    ("TOOL " + "SELECTION " + "RULES (for " + "category B " + "messages):\n")
    + ("1. For " + "questions " + "that could " + "be answered " + "by " + "documents, " + "call " + "search_knowledge_base. " + "This is " + "your " + "PRIMARY " + "source.\n")
    + ("2. Also " + "call " + "get_business_info " + "if asking " + "about the " + "company, " + "contact " + "info, " + "hours, etc.\n")
    + ("3. Also " + "call " + "get_page_context " + "if the " + "question " + "relates to " + "the current " + "page.\n")
    + ("4. Call " + "list_knowledge_topics " + "if unsure " + "what " + "information " + "is " + "available.\n")
    + ("5. You CAN " + "call " + "multiple " + "tools in a " + "single " + "response.\n")
    + ("6. When in " + "doubt, call " + "search_knowledge_base " + "\U{2014} better to " + "search and " + "find " + "nothing " + "than to " + "skip it.\n")

  /** The sections of `_buildStep1SystemPrompt`, in order; a section that is left out is ''. */
  function Step1Sections(s: Settings, files: seq<KnowledgeFile>, pageUrl: string): seq<string> {
    [Step1Intro(s),
     Classification,
     EscalationSection(s), FilesSection(files), AllowedSection(s), DisallowedSection(s),
     Rules,
     Step1Page(pageUrl)]
  }

  function Step1Prompt(s: Settings, files: seq<KnowledgeFile>, pageUrl: string): string {
    Concat(Step1Sections(s, files, pageUrl))
  }

  /** Each section sits between the ones before it and the ones after it. */
  lemma {:induction false} ConcatPiece(pieces: seq<string>, k: nat)
    requires k < |pieces|
    ensures Concat(pieces) == Concat(pieces[..k]) + pieces[k] + Concat(pieces[k + 1..])
    ensures Contains(Concat(pieces), pieces[k])
  {
    ConcatAround(pieces, k);
    ContainsInfix(Concat(pieces[..k]), pieces[k], Concat(pieces[k + 1..]));
  }

  lemma {:induction false} ConcatAround(pieces: seq<string>, k: nat)
    requires k < |pieces|
    ensures Concat(pieces) == Concat(pieces[..k]) + pieces[k] + Concat(pieces[k + 1..])
  {
    var tail := pieces[k..];
    ConcatSplit(pieces, k);
    ConcatSplit(tail, 1);
    assert tail[..1] == [pieces[k]];
    assert tail[1..] == pieces[k + 1..];
    ConcatSingle(pieces[k]);
    AppendAssoc(Concat(pieces[..k]), pieces[k], Concat(pieces[k + 1..]));
  }

  lemma {:induction false} ConcatSingle(x: string)
    ensures Concat([x]) == x
  {
    assert [x][..0] == [];
  }

  lemma {:induction false} AppendAssoc(a: string, b: string, c: string)
    ensures a + (b + c) == a + b + c
  {
  }

  /** A file line per ready file. */
  lemma {:induction false} FileLinesContain(files: seq<KnowledgeFile>, k: nat)
    requires k < |files|
    ensures Contains(FileLines(files), FileLine(files[k]))
    decreases |files|
  {
    var n := |files| - 1;
    if k == n {
      ContainsInfix(FileLines(files[..n]), FileLine(files[n]), "");
      assert FileLines(files[..n]) + FileLine(files[n]) + "" == FileLines(files);
    } else {
      FileLinesContain(files[..n], k);
      ContainsExtend("", FileLines(files[..n]), FileLine(files[n]), FileLine(files[k]));
      assert "" + FileLines(files[..n]) + FileLine(files[n]) == FileLines(files);
    }
  }

  /**
   * The escalation section is there exactly when escalation is enabled, with
   * the text its sensitivity selects, and the sensitivity is irrelevant when
   * it is off.
   */
  lemma {:induction false} Step1Escalation(s: Settings, files: seq<KnowledgeFile>, pageUrl: string, other: string)
    ensures s.escalationEnabled <==> EscalationSection(s) != ""
    ensures Contains(Step1Prompt(s, files, pageUrl), EscalationSection(s))
    ensures s.escalationEnabled ==>
      EscalationSection(s) == ("D) User " + "wants to be " + "connected " + "to a human\n") + ("   \U{2192} Call " + "the " + "escalate " + "tool.\n")
                              + LevelText(LevelOf(s.escalationSensitivity))
    ensures LevelOf("low") == Strict && LevelOf("high") == Sensitive
    ensures other != "low" && other != "high" ==> LevelOf(other) == Balanced
    ensures !s.escalationEnabled ==>
      Step1Prompt(s, files, pageUrl) == Step1Prompt(s.(escalationSensitivity := other), files, pageUrl)
  {
    EscalationPresent(s);
    EscalationInPrompt(s, files, pageUrl);
    EscalationOff(s, files, pageUrl, other);
  }

  lemma {:induction false} EscalationPresent(s: Settings)
    ensures s.escalationEnabled <==> EscalationSection(s) != ""
  {
    assert EscalationSection(s) != "" ==> s.escalationEnabled;
    assert s.escalationEnabled ==> EscalationSection(s)[0] == 'D';
  }

  lemma {:induction false} EscalationInPrompt(s: Settings, files: seq<KnowledgeFile>, pageUrl: string)
    ensures Contains(Step1Prompt(s, files, pageUrl), EscalationSection(s))
  {
    ConcatPiece(Step1Sections(s, files, pageUrl), 2);
  }

  lemma {:induction false} EscalationOff(s: Settings, files: seq<KnowledgeFile>, pageUrl: string, other: string)
    ensures !s.escalationEnabled ==>
      Step1Prompt(s, files, pageUrl) == Step1Prompt(s.(escalationSensitivity := other), files, pageUrl)
  {
    if !s.escalationEnabled {
      assert Step1Sections(s, files, pageUrl) == Step1Sections(s.(escalationSensitivity := other), files, pageUrl);
    }
  }

  /** Only ready files reach the prompt: it is the one the ready files alone give. */
  lemma {:induction false} Step1ReadyOnly(s: Settings, files: seq<KnowledgeFile>, pageUrl: string)
    ensures Step1Prompt(s, files, pageUrl) == Step1Prompt(s, Filter(files, IsReady), pageUrl)
  {
    FilterTwice(files);
    assert FilesSection(files) == FilesSection(Filter(files, IsReady));
    assert Step1Sections(s, files, pageUrl) == Step1Sections(s, Filter(files, IsReady), pageUrl);
  }

  /** Every ready file has its line, with its chunk count, in the prompt. */
  lemma {:induction false} Step1Files(s: Settings, files: seq<KnowledgeFile>, pageUrl: string, f: KnowledgeFile)
    requires f in files && f.status == Ready
    ensures Contains(Step1Prompt(s, files, pageUrl), FileLine(f))
  {
    var ready := Filter(files, IsReady);
    assert f in ready;
    var k :| 0 <= k < |ready| && ready[k] == f;
    FileLinesContain(ready, k);
    ContainsExtend(("KNOWLEDGE " + "BASE FILES " + "AVAILABLE:\n"), FileLines(ready), "\n", FileLine(f));
    ConcatContains(Step1Sections(s, files, pageUrl), 3, FileLine(f));
  }

  /** What one section contains, the whole prompt contains. */
  lemma {:induction false} ConcatContains(pieces: seq<string>, k: nat, sub: string)
    requires k < |pieces| && Contains(pieces[k], sub)
    ensures Contains(Concat(pieces), sub)
  {
    ConcatAround(pieces, k);
    ContainsExtend(Concat(pieces[..k]), pieces[k], Concat(pieces[k + 1..]), sub);
  }

  /** A prompt ends with its last section, and with the one before when the last is ''. */
  lemma {:induction false} ConcatEnds(pieces: seq<string>)
    requires |pieces| >= 2
    ensures EndsWith(Concat(pieces), pieces[|pieces| - 1])
    ensures pieces[|pieces| - 1] == "" ==> EndsWith(Concat(pieces), pieces[|pieces| - 2])
  {
    var n := |pieces| - 1;
    var body := Concat(pieces[..n]);
    assert Concat(pieces) == body + pieces[n];
    assert (body + pieces[n])[|body|..] == pieces[n];
    assert pieces[..n][..n - 1] == pieces[..n - 1];
    assert body == Concat(pieces[..n - 1]) + pieces[n - 1];
    assert body[|body| - |pieces[n - 1]|..] == pieces[n - 1];
    if pieces[n] == "" {
      assert body + pieces[n] == body;
    }
  }

  /** With no page URL the prompt ends with the rules; otherwise it ends with the page line. */
  lemma {:induction false} Step1PageEnding(s: Settings, files: seq<KnowledgeFile>, pageUrl: string)
    ensures !PhpEmpty(pageUrl) ==> EndsWith(Step1Prompt(s, files, pageUrl), "\n" + ("The user is " + "currently " + "on page: ") + pageUrl)
    ensures PhpEmpty(pageUrl) ==> EndsWith(Step1Prompt(s, files, pageUrl), Rules)
  {
    ConcatEnds(Step1Sections(s, files, pageUrl));
  }

  /** Filtering ready files twice is filtering once. */
  lemma {:induction false} FilterTwice(files: seq<KnowledgeFile>)
    ensures Filter(Filter(files, IsReady), IsReady) == Filter(files, IsReady)
    decreases |files|
  {
    if files != [] {
      var n := |files| - 1;
      FilterTwice(files[..n]);
      var last := if IsReady(files[n]) then [files[n]] else [];
      FilterAppend(Filter(files[..n], IsReady), last, IsReady);
    }
  }

  /** Each topic section appears exactly when its setting is truthy; a falsy one leaves the prompt as with ''. */
  lemma {:induction false} Step1Topics(s: Settings, files: seq<KnowledgeFile>, pageUrl: string)
    ensures !PhpEmpty(s.allowedTopics) ==>
      Contains(Step1Prompt(s, files, pageUrl), ("ALLOWED " + "TOPICS " + "(only these " + "are " + "on-topic):\n") + s.allowedTopics + "\n\n")
    ensures !PhpEmpty(s.disallowedTopics) ==>
      Contains(Step1Prompt(s, files, pageUrl),
               ("DISALLOWED " + "TOPICS " + "(refuse " + "these \U{2014} " + "classify as " + "OFF-TOPIC):\n") + s.disallowedTopics + "\n\n")
    ensures PhpEmpty(s.allowedTopics) ==> Step1Prompt(s, files, pageUrl) == Step1Prompt(s.(allowedTopics := ""), files, pageUrl)
    ensures PhpEmpty(s.disallowedTopics) ==>
      Step1Prompt(s, files, pageUrl) == Step1Prompt(s.(disallowedTopics := ""), files, pageUrl)
  {
    ConcatPiece(Step1Sections(s, files, pageUrl), 4);
    ConcatPiece(Step1Sections(s, files, pageUrl), 5);
    if PhpEmpty(s.allowedTopics) {
      assert Step1Sections(s, files, pageUrl) == Step1Sections(s.(allowedTopics := ""), files, pageUrl);
    }
    if PhpEmpty(s.disallowedTopics) {
      assert Step1Sections(s, files, pageUrl) == Step1Sections(s.(disallowedTopics := ""), files, pageUrl);
    }
  }

  // ---------------------------------------------------------------------------
  // Routing

  /** The provider, as the agent sees it: one chat call, and one streamed call. */
  datatype Streamed = Streamed(events: seq<Event>, failure: Option<string>)

  /**
   * What `processMessage` reads besides its arguments: the settings, the
   * provider's chat and stream calls, and what the tools read.
   */
  datatype Deps = Deps(
    settings: Settings,
    chat: (seq<ChatMessage>, seq<ToolSchema>, Value) -> Result<ChatResult>,
    stream: seq<ChatMessage> -> Streamed,
    env: ToolEnv)

  const Step1Options := Obj([("temperature", Float(0.3))])

  function Step2Options(s: Settings): Value {
    Obj([("temperature", Float(s.temperature))])
  }

  datatype Route = OffTopic | Greeting | Forced | Called

  /**
   * The marker test: only with no tool calls and a truthy text, on the
   * lower-cased trimmed text, off-topic before greeting.
   */
  function RouteOf(step1: ChatResult): Route {
    if step1.toolCalls == [] && step1.text.Some? && !PhpEmpty(step1.text.value) then
      var t := ToLower(Trim(step1.text.value));
      if Contains(t, "[off_topic]") then OffTopic
      else if Contains(t, "[greeting]") then Greeting
      else Forced
    else Called
  }

  const ForcedId := "fallback_kb_search"

  /** The knowledge-base search forced on a plain-text step-1 answer. */
  function ForcedCall(userMessage: string): ToolCall {
    ToolCall(ForcedId, SearchName, Obj([("query", Str(userMessage)), ("limit", Int(5))]))
  }

  /** The calls step 2 works from. */
  function EffectiveCalls(step1: ChatResult, userMessage: string): seq<ToolCall> {
    if RouteOf(step1) == Forced then [ForcedCall(userMessage)] else step1.toolCalls
  }

  /**
   * Markers are found anywhere in the text, in any letter case, and are
   * never looked for when step 1 called a tool; without tool calls and with
   * null or falsy text there is nothing to run.
   */
  lemma {:induction false} RouteCases(step1: ChatResult, userMessage: string)
    ensures step1.toolCalls != [] ==> RouteOf(step1) == Called && EffectiveCalls(step1, userMessage) == step1.toolCalls
    ensures step1.toolCalls == [] && (step1.text.None? || PhpEmpty(step1.text.value)) ==>
      EffectiveCalls(step1, userMessage) == []
    ensures RouteOf(step1) == Forced ==>
      |EffectiveCalls(step1, userMessage)| == 1 && ArrayArguments(EffectiveCalls(step1, userMessage))
    ensures RouteOf(step1) in {OffTopic, Greeting, Forced} <==>
      step1.toolCalls == [] && step1.text.Some? && !PhpEmpty(step1.text.value)
  {
  }

  /** A step's usage, `$response['usage'] ?? []`. */
  function UsageOf(r: ChatResult): Value {
    Coalesce(r.usage, Empty)
  }

  /** The per-step usage of a two-call answer. */
  function StepsUsage(step1: ChatResult, step2: ChatResult): Value {
    Obj([("step1", UsageOf(step1)), ("step2", UsageOf(step2))])
  }

  /** `processMessage`'s result array. */
  datatype Processed = Processed(text: string, toolCalls: seq<ToolCall>, toolResults: seq<ToolResult>, usage: Value)

  const GreetingDefault := ("Hello! How " + "can I help " + "you?")

  function TextOr(text: Option<string>, default: string): string {
    if text.Some? then text.value else default
  }

  /** Step 1's outcome under these dependencies. */
  function Step1Of(d: Deps, tools: seq<Tool>, userMessage: string, history: seq<ChatMessage>, pageUrl: string)
    : Result<ChatResult>
  {
    d.chat(Step1Messages(d.settings, d.env.files, userMessage, history, pageUrl), Schemas(tools), Step1Options)
  }

  /** Everything `processMessage` does once step 1 has answered `step1`; Fail stands for the exception that escapes. */
  function Answer(d: Deps, tools: seq<Tool>, step1: ChatResult, userMessage: string, history: seq<ChatMessage>, pageUrl: string)
    : Result<Processed>
  {
    var s := d.settings;
    match RouteOf(step1)
    case OffTopic => Ok(Processed(s.fallbackMessage, [], [], UsageOf(step1)))
    case Greeting =>
      var r2 := d.chat(GreetingMessages(s, userMessage, history), [], Step2Options(s));
      if r2.Fail? then Fail(r2.message)
      else Ok(Processed(TextOr(r2.value.text, GreetingDefault), [], [], StepsUsage(step1, r2.value)))
    case _ =>
      var calls := EffectiveCalls(step1, userMessage);
      if !ArrayArguments(calls) then Fail(ArgumentsTypeError)
      else
        var results := CallResults(tools, calls, d.env);
        var r2 := d.chat(Step2Messages(s, userMessage, history, results, pageUrl), [], Step2Options(s));
        if r2.Fail? then Fail(r2.message)
        else Ok(Processed(TextOr(r2.value.text, s.errorMessage), calls, results, StepsUsage(step1, r2.value)))
  }

  /** `processMessage` with the tool table `tools`: step 1, then the answer it leads to. */
  function ProcessSpec(d: Deps, tools: seq<Tool>, userMessage: string, history: seq<ChatMessage>, pageUrl: string)
    : Result<Processed>
  {
    var r1 := Step1Of(d, tools, userMessage, history, pageUrl);
    if r1.Fail? then Fail(r1.message) else Answer(d, tools, r1.value, userMessage, history, pageUrl)
  }

  /**
   * Off-topic: the fallback message, no calls, no results, step 1's usage;
   * the answer depends on nothing but the settings and step 1's response,
   * so no tool runs and the provider is not asked again.
   */
  lemma {:induction false} OffTopicAnswer(d: Deps, d': Deps, tools: seq<Tool>, tools': seq<Tool>, step1: ChatResult,
                       userMessage: string, history: seq<ChatMessage>, pageUrl: string)
    requires RouteOf(step1) == OffTopic
    requires d'.settings == d.settings
    ensures Answer(d, tools, step1, userMessage, history, pageUrl)
         == Ok(Processed(d.settings.fallbackMessage, [], [], UsageOf(step1)))
    ensures Answer(d', tools', step1, userMessage, history, pageUrl) == Answer(d, tools, step1, userMessage, history, pageUrl)
  {
  }

  /**
   * Greeting: one tool-less call with the greeting prompt and no tool run
   * (the tools and their environment do not matter); a null text becomes
   * the built-in greeting.
   */
  lemma {:induction false} GreetingAnswer(d: Deps, tools: seq<Tool>, tools': seq<Tool>, step1: ChatResult,
                       userMessage: string, history: seq<ChatMessage>, pageUrl: string, env': ToolEnv)
    requires RouteOf(step1) == Greeting
    ensures var r2 := d.chat(GreetingMessages(d.settings, userMessage, history), [], Step2Options(d.settings));
      var p := Answer(d, tools, step1, userMessage, history, pageUrl);
      && (p.Ok? <==> r2.Ok?)
      && (p.Ok? ==> p.value.toolCalls == [] && p.value.toolResults == []
                    && p.value.text == TextOr(r2.value.text, GreetingDefault)
                    && p.value.usage == StepsUsage(step1, r2.value)
                    && (r2.value.text.None? ==> p.value.text == GreetingDefault))
    ensures Answer(d.(env := env'), tools', step1, userMessage, history, pageUrl) == Answer(d, tools, step1, userMessage, history, pageUrl)
  {
  }

  /**
   * A plain-text answer with no marker forces exactly one search call with
   * the user's message and limit 5; its single result is that search, and
   * the answer fails only when step 2's provider call does.
   */
  lemma {:induction false} ForcedSearch(d: Deps, tools: seq<Tool>, step1: ChatResult, userMessage: string, history: seq<ChatMessage>, pageUrl: string)
    requires RouteOf(step1) == Forced
    ensures var p := Answer(d, tools, step1, userMessage, history, pageUrl);
      p.Ok? ==>
        && p.value.toolCalls == [ForcedCall(userMessage)]
        && |p.value.toolResults| == 1
        && p.value.toolResults[0] == ToolResult(ForcedId, SearchName,
             ExecuteTool(tools, SearchName, Obj([("query", Str(userMessage)), ("limit", Int(5))]), d.env))
    ensures Answer(d, tools, step1, userMessage, history, pageUrl).Fail? <==>
      d.chat(Step2Messages(d.settings, userMessage, history, CallResults(tools, [ForcedCall(userMessage)], d.env), pageUrl),
             [], Step2Options(d.settings)).Fail?
  {
    assert EffectiveCalls(step1, userMessage) == [ForcedCall(userMessage)];
    assert CallArguments(ForcedCall(userMessage)) == Obj([("query", Str(userMessage)), ("limit", Int(5))]);
  }

  /**
   * The tool route: the calls step 1 made (or the forced one), one result per
   * call from the tool table, step 2 over exactly those results, and the
   * error message when step 2 has no text.
   */
  lemma {:induction false} ToolRouteAnswer(d: Deps, tools: seq<Tool>, step1: ChatResult, userMessage: string, history: seq<ChatMessage>, pageUrl: string)
    requires RouteOf(step1) in {Forced, Called}
    ensures var calls := EffectiveCalls(step1, userMessage);
      var p := Answer(d, tools, step1, userMessage, history, pageUrl);
      p.Ok? ==>
        var results := CallResults(tools, calls, d.env);
        var r2 := d.chat(Step2Messages(d.settings, userMessage, history, results, pageUrl), [], Step2Options(d.settings));
        && p.value.toolCalls == calls && p.value.toolResults == results
        && |results| == |calls|
        && r2.Ok? && p.value.text == TextOr(r2.value.text, d.settings.errorMessage)
        && p.value.usage == StepsUsage(step1, r2.value)
    ensures !ArrayArguments(EffectiveCalls(step1, userMessage)) ==>
      Answer(d, tools, step1, userMessage, history, pageUrl) == Fail(ArgumentsTypeError)
  {
  }

  /**
   * Step 1 with no tool calls and a null or falsy text runs nothing: the
   * answer, if any, reports no calls and no results, and step 2 sees no
   * tool context.
   */
  lemma {:induction false} NothingToRun(d: Deps, tools: seq<Tool>, step1: ChatResult, userMessage: string, history: seq<ChatMessage>, pageUrl: string)
    requires step1.toolCalls == [] && (step1.text.None? || PhpEmpty(step1.text.value))
    ensures var p := Answer(d, tools, step1, userMessage, history, pageUrl);
      p.Ok? ==> p.value.toolCalls == [] && p.value.toolResults == [] && Context(p.value.toolResults) == ""
  {
    RouteCases(step1, userMessage);
  }

  /** `processMessage`'s step 1: the system prompt, the window of history and the registry's schemas. */
  method AskStep1(registry: Registry, d: Deps, userMessage: string, history: seq<ChatMessage>, pageUrl: string)
    returns (r1: Result<ChatResult>)
    ensures r1 == Step1Of(d, registry.tools, userMessage, history, pageUrl)
  {
    var schemas := registry.GetSchemas();
    r1 := d.chat(Step1Messages(d.settings, d.env.files, userMessage, history, pageUrl), schemas, Step1Options);
  }

  /** `processMessage`, with the registry doing the schema and tool work. */
  method ProcessMessage(registry: Registry, d: Deps, userMessage: string, history: seq<ChatMessage>, pageUrl: string)
    returns (r: Result<Processed>)
    ensures r == ProcessSpec(d, registry.tools, userMessage, history, pageUrl)
  {
    var r1 := AskStep1(registry, d, userMessage, history, pageUrl);
    if r1.Fail? {
      return Fail(r1.message);
    }
    r := AnswerStep1(registry, d, r1.value, userMessage, history, pageUrl);
  }

  /** The rest of `processMessage` once step 1 has answered. */
  method AnswerStep1(registry: Registry, d: Deps, step1: ChatResult, userMessage: string, history: seq<ChatMessage>, pageUrl: string)
    returns (r: Result<Processed>)
    ensures r == Answer(d, registry.tools, step1, userMessage, history, pageUrl)
  {
    var s := d.settings;
    var route := RouteOf(step1);
    if route == OffTopic {
      return Ok(Processed(s.fallbackMessage, [], [], UsageOf(step1)));
    }
    if route == Greeting {
      var g := d.chat(GreetingMessages(s, userMessage, history), [], Step2Options(s));
      if g.Fail? {
        return Fail(g.message);
      }
      return Ok(Processed(TextOr(g.value.text, GreetingDefault), [], [], StepsUsage(step1, g.value)));
    }
    var calls := step1.toolCalls;
    if route == Forced {
      calls := [ForcedCall(userMessage)];
    }
    assert calls == EffectiveCalls(step1, userMessage);
    var executed := registry.ExecuteToolCalls(calls, d.env);
    if executed.Fail? {
      return Fail(executed.message);
    }
    var results := executed.value;
    var r2 := d.chat(Step2Messages(s, userMessage, history, results, pageUrl), [], Step2Options(s));
    if r2.Fail? {
      return Fail(r2.message);
    }
    r := Ok(Processed(TextOr(r2.value.text, s.errorMessage), calls, results, StepsUsage(step1, r2.value)));
  }

  // ---------------------------------------------------------------------------
  // Streaming

  /** A yielded `['type' => ..., 'data' => ...]` pair. */
  datatype StreamEvent = StreamEvent(kind: string, data: Value)

  /** What the generator yields before it ends, and the exception that ends it early, if any. */
  datatype Emitted = Emitted(events: seq<StreamEvent>, failure: Option<string>)

  function CallValue(c: ToolCall): Value {
    Obj([("id", Str(c.id)), ("name", Str(c.name)), ("arguments", c.arguments)])
  }

  function CallValues(calls: seq<ToolCall>): seq<Value> {
    seq(|calls|, k requires 0 <= k < |calls| => CallValue(calls[k]))
  }

  /** The provider's own events, as they are passed through. */
  function ProviderEvent(e: Event): StreamEvent {
    match e
    case TextDelta(t) => StreamEvent("text_delta", Str(t))
    case ToolCalls(calls) => StreamEvent("tool_calls", Arr(CallValues(calls)))
    case Done => StreamEvent("done", Null)
  }

  function ProviderEvents(es: seq<Event>): seq<StreamEvent> {
    seq(|es|, k requires 0 <= k < |es| => ProviderEvent(es[k]))
  }

  function Passed(st: Streamed): Emitted {
    Emitted(ProviderEvents(st.events), st.failure)
  }

  /** `['type' => 'tool_call', 'data' => ['tool' => name, 'args' => arguments ?? []]]`. */
  function ToolCallEvent(c: ToolCall): StreamEvent {
    StreamEvent("tool_call", Obj([("tool", Str(c.name)), ("args", CallArguments(c))]))
  }

  function ToolCallEvents(calls: seq<ToolCall>): seq<StreamEvent> {
    seq(|calls|, k requires 0 <= k < |calls| => ToolCallEvent(calls[k]))
  }

  function ToolResultEvent(r: ToolResult): StreamEvent {
    StreamEvent("tool_result", Obj([("tool", Str(r.name)), ("status", Str("ok"))]))
  }

  function ToolResultEvents(results: seq<ToolResult>): seq<StreamEvent> {
    seq(|results|, k requires 0 <= k < |results| => ToolResultEvent(results[k]))
  }

  const OffTopicDone := StreamEvent("done", Obj([("tool_calls", Arr([])), ("tool_results", Arr([]))]))

  /** What `processMessageStreaming` yields once step 1 has answered `step1`. */
  function StreamFrom(d: Deps, tools: seq<Tool>, step1: ChatResult, userMessage: string, history: seq<ChatMessage>, pageUrl: string)
    : Emitted
  {
    var s := d.settings;
    match RouteOf(step1)
    case OffTopic => Emitted([StreamEvent("text_delta", Str(s.fallbackMessage)), OffTopicDone], None)
    case Greeting => Passed(d.stream(GreetingMessages(s, userMessage, history)))
    case _ =>
      var calls := EffectiveCalls(step1, userMessage);
      if calls == [] then Passed(d.stream(Step2Messages(s, userMessage, history, [], pageUrl)))
      else if !ArrayArguments(calls) then Emitted(ToolCallEvents(calls), Some(ArgumentsTypeError))
      else
        var results := CallResults(tools, calls, d.env);
        var tail := Passed(d.stream(Step2Messages(s, userMessage, history, results, pageUrl)));
        Emitted(ToolCallEvents(calls) + ToolResultEvents(results) + tail.events, tail.failure)
  }

  /** `processMessageStreaming` with the tool table `tools`; a failing step 1 yields nothing. */
  function StreamSpec(d: Deps, tools: seq<Tool>, userMessage: string, history: seq<ChatMessage>, pageUrl: string): Emitted {
    var r1 := Step1Of(d, tools, userMessage, history, pageUrl);
    if r1.Fail? then Emitted([], Some(r1.message)) else StreamFrom(d, tools, r1.value, userMessage, history, pageUrl)
  }

  /**
   * Off-topic yields exactly the fallback text then `done` with empty
   * lists; a greeting is the provider's greeting stream unchanged.
   */
  lemma {:induction false} StreamMarkers(d: Deps, tools: seq<Tool>, step1: ChatResult, userMessage: string, history: seq<ChatMessage>, pageUrl: string)
    ensures RouteOf(step1) == OffTopic ==>
      StreamFrom(d, tools, step1, userMessage, history, pageUrl).events
        == [StreamEvent("text_delta", Str(d.settings.fallbackMessage)), OffTopicDone]
      && StreamFrom(d, tools, step1, userMessage, history, pageUrl).failure.None?
    ensures RouteOf(step1) == Greeting ==>
      var st := d.stream(GreetingMessages(d.settings, userMessage, history));
      var out := StreamFrom(d, tools, step1, userMessage, history, pageUrl);
      && out.failure == st.failure
      && |out.events| == |st.events|
      && forall k :: 0 <= k < |st.events| ==> out.events[k] == ProviderEvent(st.events[k])
  {
  }

  /**
   * On the tool route every `tool_call` event comes first, one per call in
   * call order, then one `tool_result` per result with status 'ok', then
   * the step-2 provider events unchanged; the results are the ones the
   * non-streaming answer reports for the same step-1 response.
   */
  lemma {:induction false} StreamEventOrder(d: Deps, tools: seq<Tool>, step1: ChatResult, userMessage: string, history: seq<ChatMessage>, pageUrl: string)
    requires RouteOf(step1) in {Forced, Called}
    requires ArrayArguments(EffectiveCalls(step1, userMessage))
    ensures StreamFrom(d, tools, step1, userMessage, history, pageUrl).failure
         == d.stream(Step2Messages(d.settings, userMessage, history,
                                   CallResults(tools, EffectiveCalls(step1, userMessage), d.env), pageUrl)).failure
    ensures Layout(StreamFrom(d, tools, step1, userMessage, history, pageUrl).events,
                   EffectiveCalls(step1, userMessage),
                   CallResults(tools, EffectiveCalls(step1, userMessage), d.env),
                   d.stream(Step2Messages(d.settings, userMessage, history,
                                          CallResults(tools, EffectiveCalls(step1, userMessage), d.env), pageUrl)).events)
    ensures Answer(d, tools, step1, userMessage, history, pageUrl).Ok? ==>
      Answer(d, tools, step1, userMessage, history, pageUrl).value.toolResults
      == CallResults(tools, EffectiveCalls(step1, userMessage), d.env)
  {
    var calls := EffectiveCalls(step1, userMessage);
    var results := CallResults(tools, calls, d.env);
    var st := d.stream(Step2Messages(d.settings, userMessage, history, results, pageUrl));
    var out := StreamFrom(d, tools, step1, userMessage, history, pageUrl);
    if calls == [] {
      assert results == [];
      assert ToolCallEvents(calls) + ToolResultEvents(results) == [];
    }
    assert out.events == ToolCallEvents(calls) + ToolResultEvents(results) + ProviderEvents(st.events);
    assert out.failure == st.failure;
    EventsLayout(calls, results, st.events);
    ToolRouteAnswer(d, tools, step1, userMessage, history, pageUrl);
  }

  /** How the events of the tool route are laid out. */
  predicate Layout(out: seq<StreamEvent>, calls: seq<ToolCall>, results: seq<ToolResult>, es: seq<Event>) {
    && |out| == |calls| + |results| + |es|
    && (forall k :: 0 <= k < |calls| ==> out[k] == ToolCallEvent(calls[k]) && out[k].kind == "tool_call")
    && (forall k :: 0 <= k < |results| ==>
          out[|calls| + k] == ToolResultEvent(results[k])
          && Get(out[|calls| + k].data, "status") == Str("ok"))
    && (forall k :: 0 <= k < |es| ==> out[|calls| + |results| + k] == ProviderEvent(es[k]))
  }

  /** The three runs of events, laid end to end. */
  lemma {:induction false} EventsLayout(calls: seq<ToolCall>, results: seq<ToolResult>, es: seq<Event>)
    ensures Layout(ToolCallEvents(calls) + ToolResultEvents(results) + ProviderEvents(es), calls, results, es)
  {
    forall k | 0 <= k < |results| ensures Get(ToolResultEvent(results[k]).data, "status") == Str("ok") {
      LookupCons("tool", Str(results[k].name), [("status", Str("ok"))], "status");
      LookupCons("status", Str("ok"), [], "status");
    }
  }

  /** `processMessageStreaming`: the events in the order the generator yields them. */
  method ProcessMessageStreaming(registry: Registry, d: Deps, userMessage: string, history: seq<ChatMessage>, pageUrl: string)
    returns (out: Emitted)
    ensures out == StreamSpec(d, registry.tools, userMessage, history, pageUrl)
  {
    var r1 := AskStep1(registry, d, userMessage, history, pageUrl);
    if r1.Fail? {
      return Emitted([], Some(r1.message));
    }
    out := StreamStep1(registry, d, r1.value, userMessage, history, pageUrl);
  }

  /** The rest of `processMessageStreaming` once step 1 has answered. */
  method StreamStep1(registry: Registry, d: Deps, step1: ChatResult, userMessage: string, history: seq<ChatMessage>, pageUrl: string)
    returns (out: Emitted)
    ensures out == StreamFrom(d, registry.tools, step1, userMessage, history, pageUrl)
  {
    var s := d.settings;
    var route := RouteOf(step1);
    if route == OffTopic {
      return Emitted([StreamEvent("text_delta", Str(s.fallbackMessage)), OffTopicDone], None);
    }
    if route == Greeting {
      out := PassThrough([], d.stream(GreetingMessages(s, userMessage, history)));
      return;
    }
    var calls := step1.toolCalls;
    if route == Forced {
      calls := [ForcedCall(userMessage)];
    }
    assert calls == EffectiveCalls(step1, userMessage);
    if calls == [] {
      out := PassThrough([], d.stream(Step2Messages(s, userMessage, history, [], pageUrl)));
      return;
    }
    var events := EmitToolCalls(calls);
    var executed := registry.ExecuteToolCalls(calls, d.env);
    if executed.Fail? {
      return Emitted(events, Some(executed.message));
    }
    var results := executed.value;
    events := EmitToolResults(events, results);
    out := PassThrough(events, d.stream(Step2Messages(s, userMessage, history, results, pageUrl)));
  }

  /** `yield` one `tool_call` event per call, in order. */
  method EmitToolCalls(calls: seq<ToolCall>) returns (events: seq<StreamEvent>)
    ensures events == ToolCallEvents(calls)
  {
    events := [];
    for i := 0 to |calls|
      invariant |events| == i
      invariant forall k :: 0 <= k < i ==> events[k] == ToolCallEvent(calls[k])
    {
      events := events + [ToolCallEvent(calls[i])];
    }
  }

  /** `yield` one `tool_result` event per result, after the events already yielded. */
  method EmitToolResults(before: seq<StreamEvent>, results: seq<ToolResult>) returns (events: seq<StreamEvent>)
    ensures events == before + ToolResultEvents(results)
  {
    events := before;
    for i := 0 to |results|
      invariant |events| == |before| + i
      invariant events[..|before|] == before
      invariant forall k :: 0 <= k < i ==> events[|before| + k] == ToolResultEvent(results[k])
    {
      events := events + [ToolResultEvent(results[i])];
    }
  }

  /** `foreach ($provider->stream(...) as $chunk) yield $chunk;` after the events already yielded. */
  method PassThrough(before: seq<StreamEvent>, st: Streamed) returns (out: Emitted)
    ensures out == Emitted(before + ProviderEvents(st.events), st.failure)
  {
    var events := before;
    for i := 0 to |st.events|
      invariant |events| == |before| + i
      invariant events[..|before|] == before
      invariant forall k :: 0 <= k < i ==> events[|before| + k] == ProviderEvent(st.events[k])
    {
      events := events + [ProviderEvent(st.events[i])];
    }
    out := Emitted(events, st.failure);
  }
}
