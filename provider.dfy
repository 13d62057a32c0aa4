/**
 * The wire adapters of the provider service for the OpenAI and Anthropic
 * chat APIs: the system-message folding Anthropic needs, the request
 * payloads, the parsing of complete responses, the two line-buffered stream
 * parsers, and the extraction of embedding vectors.
 *
 * The HTTP client and `json_decode` are parameters: `post` stands for a
 * request whose decoded response body it returns (or the exception the
 * client throws), `decode` for `json_decode($s, true)`, whose failure is
 * `Null`, and a streamed body is the sequence of strings its reads return.
 */
module Provider {
  import opened Wrappers
  import opened Strings
  import opened Json

  /** A chat message as the services build them: `['role' => ..., 'content' => ...]`. */
  datatype ChatMessage = ChatMessage(role: string, content: string)

  /** A tool schema as the tool registry gives it; `parameters` is Null when absent. */
  datatype ToolSchema = ToolSchema(name: string, description: string, parameters: Value)

  /** A tool call in the provider-neutral shape `['id', 'name', 'arguments']`. */
  datatype ToolCall = ToolCall(id: string, name: string, arguments: Value)

  /** The parsed result of a complete (non-streamed) chat request. */
  datatype ChatResult = ChatResult(text: Option<string>, toolCalls: seq<ToolCall>, usage: Value, finishReason: Value)

  /** An event a stream parser yields: `text_delta`, `tool_calls` or `done`. */
  datatype Event = TextDelta(text: string) | ToolCalls(calls: seq<ToolCall>) | Done

  /** The provider settings the adapters read. */
  datatype ProviderSettings = ProviderSettings(openaiModel: string, anthropicModel: string, maxTokens: int, temperature: real)

  /** The empty PHP array `[]`. */
  const Empty: Value := Arr([])

  // ---------------------------------------------------------------------------
  // System folding for Anthropic

  /** The system prompt the folding loop accumulates: each system content followed by "\n". */
  function SystemText(msgs: seq<ChatMessage>): string {
    if msgs == [] then ""
    else
      var last := msgs[|msgs| - 1];
      SystemText(msgs[..|msgs| - 1]) + (if last.role == "system" then last.content + "\n" else "")
  }

  /** The messages that stay in the `messages` list: all but the system ones, in order. */
  function NonSystem(msgs: seq<ChatMessage>): (r: seq<ChatMessage>)
    ensures |r| <= |msgs|
    ensures forall m :: m in r <==> m in msgs && m.role != "system"
  {
    if msgs == [] then []
    else
      var last := msgs[|msgs| - 1];
      NonSystem(msgs[..|msgs| - 1]) + (if last.role != "system" then [last] else [])
  }

  /** The contents of the system messages, in order. */
  function SystemContents(msgs: seq<ChatMessage>): seq<string> {
    if msgs == [] then []
    else
      var last := msgs[|msgs| - 1];
      SystemContents(msgs[..|msgs| - 1]) + (if last.role == "system" then [last.content] else [])
  }

  /** The `system` field: the trimmed prompt, present only when the untrimmed prompt is truthy. */
  function SystemField(msgs: seq<ChatMessage>): Option<string> {
    var raw := SystemText(msgs);
    if !PhpEmpty(raw) then Some(Trim(raw)) else None
  }

  /** The folded prompt is the system contents glued by newlines, with a final newline. */
  lemma {:induction false} SystemTextJoin(msgs: seq<ChatMessage>)
    ensures SystemText(msgs) == if SystemContents(msgs) == [] then "" else Join(SystemContents(msgs), "\n") + "\n"
  {
    if msgs != [] {
      var init := msgs[..|msgs| - 1];
      var last := msgs[|msgs| - 1];
      SystemTextJoin(init);
      if last.role == "system" {
        assert SystemContents(msgs) == SystemContents(init) + [last.content];
        JoinSnoc(SystemContents(init), last.content, "\n");
        if SystemContents(init) != [] {
          assert SystemText(msgs) == Join(SystemContents(init), "\n") + "\n" + last.content + "\n";
        }
      } else {
        assert SystemContents(msgs) == SystemContents(init);
      }
    }
  }

  lemma {:induction false} SystemContentsEmpty(msgs: seq<ChatMessage>)
    ensures SystemContents(msgs) == [] <==> forall i :: 0 <= i < |msgs| ==> msgs[i].role != "system"
  {
    if msgs != [] {
      var init := msgs[..|msgs| - 1];
      SystemContentsEmpty(init);
      assert forall i :: 0 <= i < |init| ==> init[i] == msgs[i];
    }
  }

  /** The `system` field is set exactly when some message has the system role. */
  lemma {:induction false} SystemFieldPresent(msgs: seq<ChatMessage>)
    ensures SystemField(msgs).Some? <==> exists i :: 0 <= i < |msgs| && msgs[i].role == "system"
  {
    SystemTextJoin(msgs);
    SystemContentsEmpty(msgs);
    if SystemContents(msgs) != [] {
      var s := Join(SystemContents(msgs), "\n") + "\n";
      assert s[|s| - 1] == '\n';
      assert s != "" && s != "0";
    }
  }

  /** Folding loses no message: the system ones go to the prompt, the rest keep their order. */
  lemma {:induction false} FoldingPartitions(msgs: seq<ChatMessage>)
    ensures |NonSystem(msgs)| + |SystemContents(msgs)| == |msgs|
  {
    if msgs != [] {
      FoldingPartitions(msgs[..|msgs| - 1]);
    }
  }

  // ---------------------------------------------------------------------------
  // Request payloads

  function MessageValue(m: ChatMessage): Value {
    Obj([("role", Str(m.role)), ("content", Str(m.content))])
  }

  function MessagesValue(msgs: seq<ChatMessage>): Value {
    Arr(seq(|msgs|, i requires 0 <= i < |msgs| => MessageValue(msgs[i])))
  }

  /** `$tool['parameters'] ?? ['type' => 'object', 'properties' => new \stdClass()]`. */
  function Schema(t: ToolSchema): (r: Value)
    ensures t.parameters != Null ==> r == t.parameters
    ensures t.parameters == Null ==> r == Obj([("type", Str("object")), ("properties", Obj([]))])
  {
    Coalesce(t.parameters, Obj([("type", Str("object")), ("properties", Obj([]))]))
  }

  /** One entry of `_formatOpenAITools`. */
  function OpenAITool(t: ToolSchema): Value {
    Obj([("type", Str("function")),
         ("function", Obj([("name", Str(t.name)), ("description", Str(t.description)), ("parameters", Schema(t))]))])
  }

  /** One entry of `_formatAnthropicTools`. */
  function AnthropicTool(t: ToolSchema): Value {
    Obj([("name", Str(t.name)), ("description", Str(t.description)), ("input_schema", Schema(t))])
  }

  /** `_formatOpenAITools`: one entry per tool, in order. */
  function FormatOpenAITools(tools: seq<ToolSchema>): (r: seq<Value>)
    ensures |r| == |tools|
  {
    seq(|tools|, i requires 0 <= i < |tools| => OpenAITool(tools[i]))
  }

  /** `_formatAnthropicTools`: one entry per tool, in order. */
  function FormatAnthropicTools(tools: seq<ToolSchema>): (r: seq<Value>)
    ensures |r| == |tools|
  {
    seq(|tools|, i requires 0 <= i < |tools| => AnthropicTool(tools[i]))
  }

  /** An OpenAI tool entry is a `function` entry carrying the tool's name, description and schema. */
  lemma {:induction false} OpenAIToolFields(t: ToolSchema)
    ensures Get(OpenAITool(t), "type") == Str("function")
    ensures Get(Get(OpenAITool(t), "function"), "name") == Str(t.name)
    ensures Get(Get(OpenAITool(t), "function"), "description") == Str(t.description)
    ensures Get(Get(OpenAITool(t), "function"), "parameters") == Schema(t)
  {
    var fn := [("name", Str(t.name)), ("description", Str(t.description)), ("parameters", Schema(t))];
    LookupFirst(OpenAITool(t).fields, 1, "function");
    LookupFirst(fn, 1, "description");
    LookupFirst(fn, 2, "parameters");
  }

  /** An Anthropic tool entry carries the tool's name, description and schema as `input_schema`. */
  lemma {:induction false} AnthropicToolFields(t: ToolSchema)
    ensures Get(AnthropicTool(t), "name") == Str(t.name)
    ensures Get(AnthropicTool(t), "description") == Str(t.description)
    ensures Get(AnthropicTool(t), "input_schema") == Schema(t)
  {
    LookupFirst(AnthropicTool(t).fields, 1, "description");
    LookupFirst(AnthropicTool(t).fields, 2, "input_schema");
  }

  /** Every formatted tool carries its tool's name, description and schema, at the tool's position. */
  lemma {:induction false} FormattedToolsKeepOrder(tools: seq<ToolSchema>)
    ensures forall i :: 0 <= i < |tools| ==>
      Get(Get(FormatOpenAITools(tools)[i], "function"), "name") == Str(tools[i].name)
      && Get(Get(FormatOpenAITools(tools)[i], "function"), "parameters") == Schema(tools[i])
      && Get(FormatOpenAITools(tools)[i], "type") == Str("function")
    ensures forall i :: 0 <= i < |tools| ==>
      Get(FormatAnthropicTools(tools)[i], "name") == Str(tools[i].name)
      && Get(FormatAnthropicTools(tools)[i], "description") == Str(tools[i].description)
      && Get(FormatAnthropicTools(tools)[i], "input_schema") == Schema(tools[i])
  {
    forall i | 0 <= i < |tools|
      ensures Get(Get(FormatOpenAITools(tools)[i], "function"), "name") == Str(tools[i].name)
      ensures Get(Get(FormatOpenAITools(tools)[i], "function"), "parameters") == Schema(tools[i])
      ensures Get(FormatOpenAITools(tools)[i], "type") == Str("function")
      ensures Get(FormatAnthropicTools(tools)[i], "name") == Str(tools[i].name)
      ensures Get(FormatAnthropicTools(tools)[i], "description") == Str(tools[i].description)
      ensures Get(FormatAnthropicTools(tools)[i], "input_schema") == Schema(tools[i])
    {
      OpenAIToolFields(tools[i]);
      AnthropicToolFields(tools[i]);
    }
  }

  /** `$options[key] ?? $settings->...`. */
  function OptionOr(options: Value, key: string, fallback: Value): Value {
    Coalesce(Get(options, key), fallback)
  }

  /** The fields every OpenAI payload starts with. */
  function OpenAIHeadFields(s: ProviderSettings, msgs: seq<ChatMessage>, options: Value): seq<(string, Value)> {
    [("model", Str(s.openaiModel)),
     ("messages", MessagesValue(msgs)),
     ("max_tokens", OptionOr(options, "max_tokens", Int(s.maxTokens))),
     ("temperature", OptionOr(options, "temperature", Float(s.temperature)))]
  }

  /** `'stream' => true`, only on the streaming requests. */
  function StreamFields(stream: bool): seq<(string, Value)> {
    if stream then [("stream", Bool(true))] else []
  }

  /** `tools` and `tool_choice`, only when there are tools. */
  function OpenAIToolsFields(tools: seq<ToolSchema>): seq<(string, Value)> {
    if tools != [] then [("tools", Arr(FormatOpenAITools(tools))), ("tool_choice", Str("auto"))] else []
  }

  /** The payload of `_openaiChat` (`stream` false) and `_openaiStream` (`stream` true). */
  function OpenAIPayload(s: ProviderSettings, msgs: seq<ChatMessage>, tools: seq<ToolSchema>, options: Value, stream: bool): Value {
    Obj(OpenAIHeadFields(s, msgs, options) + StreamFields(stream) + OpenAIToolsFields(tools))
  }

  /** The fields every Anthropic payload starts with. */
  function AnthropicHeadFields(s: ProviderSettings, msgs: seq<ChatMessage>, options: Value): seq<(string, Value)> {
    [("model", Str(s.anthropicModel)),
     ("max_tokens", OptionOr(options, "max_tokens", Int(s.maxTokens))),
     ("messages", MessagesValue(NonSystem(msgs)))]
  }

  /** `system`, only when the folded prompt is truthy. */
  function SystemFields(msgs: seq<ChatMessage>): seq<(string, Value)> {
    if SystemField(msgs).Some? then [("system", Str(SystemField(msgs).value))] else []
  }

  /** `tools`, only when there are tools. */
  function AnthropicToolsFields(tools: seq<ToolSchema>): seq<(string, Value)> {
    if tools != [] then [("tools", Arr(FormatAnthropicTools(tools)))] else []
  }

  /** The payload of `_anthropicChat` and `_anthropicStream`. */
  function AnthropicPayload(s: ProviderSettings, msgs: seq<ChatMessage>, tools: seq<ToolSchema>, options: Value, stream: bool): Value {
    Obj(AnthropicHeadFields(s, msgs, options) + StreamFields(stream) + SystemFields(msgs) + AnthropicToolsFields(tools))
  }

  /** A key found in the front part of a field list is looked up there. */
  lemma {:induction false} LookupFront(a: seq<(string, Value)>, b: seq<(string, Value)>, j: nat, key: string)
    requires j < |a| && a[j].0 == key
    ensures Lookup(a + b, key) == Lookup(a, key)
  {
    LookupAppend(a, b, key);
  }

  /** A key missing from the front part of a field list is looked up in the back part. */
  lemma {:induction false} LookupBack(a: seq<(string, Value)>, b: seq<(string, Value)>, key: string)
    requires forall k :: 0 <= k < |a| ==> a[k].0 != key
    ensures Lookup(a + b, key) == Lookup(b, key)
  {
    LookupAppend(a, b, key);
  }

  /** Field lists regroup freely. */
  lemma {:induction false} FieldsAssoc(h: seq<(string, Value)>, a: seq<(string, Value)>, b: seq<(string, Value)>, c: seq<(string, Value)>)
    ensures h + a + b + c == h + (a + b + c)
  {
  }

  /** A key at position `j` of the head, and not before it, is read from there whatever follows. */
  lemma {:induction false} HeadRead(h: seq<(string, Value)>, rest: seq<(string, Value)>, j: nat, key: string)
    requires j < |h| && h[j].0 == key
    requires forall k :: 0 <= k < j ==> h[k].0 != key
    ensures Lookup(h + rest, key) == h[j].1
  {
    assert forall k :: 0 <= k <= j ==> (h + rest)[k] == h[k];
    LookupFirst(h + rest, j, key);
  }

  /**
   * What the OpenAI payload carries: `max_tokens` and the temperature from
   * the options, else the settings; the messages as given; `tools` and
   * `tool_choice` only for a non-empty tool list.
   */
  lemma {:induction false} OpenAIPayloadFields(s: ProviderSettings, msgs: seq<ChatMessage>, tools: seq<ToolSchema>, options: Value, stream: bool)
    ensures Get(OpenAIPayload(s, msgs, tools, options, stream), "max_tokens") == OptionOr(options, "max_tokens", Int(s.maxTokens))
    ensures Get(OpenAIPayload(s, msgs, tools, options, stream), "temperature") == OptionOr(options, "temperature", Float(s.temperature))
    ensures Get(OpenAIPayload(s, msgs, tools, options, stream), "messages") == MessagesValue(msgs)
  {
    var h := OpenAIHeadFields(s, msgs, options);
    var a, b := StreamFields(stream), OpenAIToolsFields(tools);
    FieldsAssoc(h, a, b, []);
    assert a + b + [] == a + b && h + a + b + [] == h + a + b;
    HeadRead(h, a + b, 1, "messages");
    HeadRead(h, a + b, 2, "max_tokens");
    HeadRead(h, a + b, 3, "temperature");
  }

  lemma {:induction false} OpenAIPayloadTools(s: ProviderSettings, msgs: seq<ChatMessage>, tools: seq<ToolSchema>, options: Value, stream: bool)
    ensures tools != [] ==> Get(OpenAIPayload(s, msgs, tools, options, stream), "tools") == Arr(FormatOpenAITools(tools))
    ensures tools != [] ==> Get(OpenAIPayload(s, msgs, tools, options, stream), "tool_choice") == Str("auto")
    ensures tools == [] ==> Get(OpenAIPayload(s, msgs, tools, options, stream), "tools") == Null
    ensures tools == [] ==> Get(OpenAIPayload(s, msgs, tools, options, stream), "tool_choice") == Null
  {
    var hs := OpenAIHeadFields(s, msgs, options) + StreamFields(stream);
    var t := OpenAIToolsFields(tools);
    OpenAIHeadWithout(s, msgs, options, stream, "tools");
    OpenAIHeadWithout(s, msgs, options, stream, "tool_choice");
    LookupBack(hs, t, "tools");
    LookupBack(hs, t, "tool_choice");
    if tools != [] {
      LookupFirst(t, 0, "tools");
      LookupFirst(t, 1, "tool_choice");
    }
  }

  /** The head and stream fields of an OpenAI payload use only their own five keys. */
  lemma {:induction false} OpenAIHeadWithout(s: ProviderSettings, msgs: seq<ChatMessage>, options: Value, stream: bool, key: string)
    requires key !in {"model", "messages", "max_tokens", "temperature", "stream"}
    ensures forall k :: 0 <= k < |OpenAIHeadFields(s, msgs, options) + StreamFields(stream)| ==>
      (OpenAIHeadFields(s, msgs, options) + StreamFields(stream))[k].0 != key
  {
    var hs := OpenAIHeadFields(s, msgs, options) + StreamFields(stream);
    forall k | 0 <= k < |hs| ensures hs[k].0 != key {
      assert hs[k].0 in {"model", "messages", "max_tokens", "temperature", "stream"};
    }
  }

  /**
   * What the Anthropic payload carries: `max_tokens` from the options, else
   * the settings; no temperature; the messages without the system ones, whose
   * contents become the `system` field; `tools` only for a non-empty list.
   */
  lemma {:induction false} AnthropicPayloadFields(s: ProviderSettings, msgs: seq<ChatMessage>, tools: seq<ToolSchema>, options: Value, stream: bool)
    ensures Get(AnthropicPayload(s, msgs, tools, options, stream), "max_tokens") == OptionOr(options, "max_tokens", Int(s.maxTokens))
    ensures Get(AnthropicPayload(s, msgs, tools, options, stream), "messages") == MessagesValue(NonSystem(msgs))
  {
    var h := AnthropicHeadFields(s, msgs, options);
    var a, b, c := StreamFields(stream), SystemFields(msgs), AnthropicToolsFields(tools);
    FieldsAssoc(h, a, b, c);
    HeadRead(h, a + b + c, 1, "max_tokens");
    HeadRead(h, a + b + c, 2, "messages");
  }

  lemma {:induction false} AnthropicPayloadOptional(s: ProviderSettings, msgs: seq<ChatMessage>, tools: seq<ToolSchema>, options: Value, stream: bool)
    ensures var p := AnthropicPayload(s, msgs, tools, options, stream);
      Get(p, "temperature") == Null
      && (SystemField(msgs).Some? ==> Get(p, "system") == Str(SystemField(msgs).value))
      && (SystemField(msgs).None? ==> Get(p, "system") == Null)
      && (tools != [] ==> Get(p, "tools") == Arr(FormatAnthropicTools(tools)))
      && (tools == [] ==> Get(p, "tools") == Null)
  {
    var hs := AnthropicHeadFields(s, msgs, options) + StreamFields(stream);
    var sys := SystemFields(msgs);
    var t := AnthropicToolsFields(tools);
    AnthropicBack(hs, sys, t, msgs, tools);
    AnthropicSkipHead(hs, sys, t, s, msgs, options, stream, "temperature");
    AnthropicSkipHead(hs, sys, t, s, msgs, options, stream, "system");
    AnthropicSkipHead(hs, sys, t, s, msgs, options, stream, "tools");
  }

  lemma {:induction false} AnthropicSkipHead(hs: seq<(string, Value)>, sys: seq<(string, Value)>, t: seq<(string, Value)>,
                          s: ProviderSettings, msgs: seq<ChatMessage>, options: Value, stream: bool, key: string)
    requires hs == AnthropicHeadFields(s, msgs, options) + StreamFields(stream)
    requires key !in {"model", "max_tokens", "messages", "stream"}
    ensures Lookup(hs + sys + t, key) == Lookup(sys + t, key)
  {
    assert hs + sys + t == hs + (sys + t);
    LookupBack(hs, sys + t, key);
  }

  lemma {:induction false} AnthropicBack(hs: seq<(string, Value)>, sys: seq<(string, Value)>, t: seq<(string, Value)>,
                      msgs: seq<ChatMessage>, tools: seq<ToolSchema>)
    requires sys == SystemFields(msgs) && t == AnthropicToolsFields(tools)
    ensures Lookup(sys + t, "temperature") == Null
    ensures SystemField(msgs).Some? ==> Lookup(sys + t, "system") == Str(SystemField(msgs).value)
    ensures SystemField(msgs).None? ==> Lookup(sys + t, "system") == Null
    ensures tools != [] ==> Lookup(sys + t, "tools") == Arr(FormatAnthropicTools(tools))
    ensures tools == [] ==> Lookup(sys + t, "tools") == Null
  {
    LookupBack(sys, t, "tools");
    LookupBack(sys, t, "temperature");
    if sys != [] {
      LookupFront(sys, t, 0, "system");
    } else {
      assert sys + t == t;
    }
  }

  // ---------------------------------------------------------------------------
  // Complete responses

  /** `json_decode($s, true) ?? []` applied to a raw tool-argument value. */
  function DecodeOrEmpty(v: Value, decode: Value -> Value): Value {
    Coalesce(decode(v), Empty)
  }

  /** A scalar read as a string field (a missing key reads as ""). */
  function Text(v: Value): string {
    StringOf(v)
  }

  /** The `text` of a response: `content ?? null`; a non-null content is kept as its string conversion. */
  function TextOf(v: Value): Option<string> {
    if v.Null? then None else Some(StringOf(v))
  }

  function OpenAICall(tc: Value, decode: Value -> Value): ToolCall {
    var fn := Get(tc, "function");
    ToolCall(Text(Get(tc, "id")), Text(Get(fn, "name")), DecodeOrEmpty(Get(fn, "arguments"), decode))
  }

  function OpenAICalls(tcs: seq<Value>, decode: Value -> Value): (r: seq<ToolCall>)
    ensures |r| == |tcs|
  {
    seq(|tcs|, i requires 0 <= i < |tcs| => OpenAICall(tcs[i], decode))
  }

  /** `_parseOpenAIResponse`. */
  function ParseOpenAI(data: Value, decode: Value -> Value): ChatResult {
    var choice := Coalesce(At(Get(data, "choices"), 0), Empty);
    var message := Coalesce(Get(choice, "message"), Empty);
    var calls := Get(message, "tool_calls");
    ChatResult(TextOf(Get(message, "content")),
               if Truthy(calls) then OpenAICalls(Elements(calls), decode) else [],
               Coalesce(Get(data, "usage"), Empty),
               Get(choice, "finish_reason"))
  }

  /**
   * One tool call per entry of the first choice's `tool_calls`, in order;
   * arguments that decode are passed on as decoded, those that do not become
   * the empty array; no content means no text.
   */
  lemma {:induction false} ParseOpenAICalls(data: Value, decode: Value -> Value)
    ensures var message := Coalesce(Get(Coalesce(At(Get(data, "choices"), 0), Empty), "message"), Empty);
      var r := ParseOpenAI(data, decode);
      (Get(message, "content") == Null <==> r.text.None?)
      && (Truthy(Get(message, "tool_calls")) ==> |r.toolCalls| == |Elements(Get(message, "tool_calls"))|)
      && (!Truthy(Get(message, "tool_calls")) ==> r.toolCalls == [])
      && (forall i :: 0 <= i < |r.toolCalls| ==>
            var tc := Elements(Get(message, "tool_calls"))[i];
            r.toolCalls[i].id == Text(Get(tc, "id"))
            && r.toolCalls[i].name == Text(Get(Get(tc, "function"), "name"))
            && (decode(Get(Get(tc, "function"), "arguments")) == Null ==> r.toolCalls[i].arguments == Empty)
            && (decode(Get(Get(tc, "function"), "arguments")) != Null ==>
                  r.toolCalls[i].arguments == decode(Get(Get(tc, "function"), "arguments"))))
  {
  }

  /** What the content-block loop of `_parseAnthropicResponse` accumulates. */
  datatype Blocks = Blocks(text: Option<string>, calls: seq<ToolCall>)

  /** A `tool_use` block as a tool call; a missing input becomes the empty array. */
  function AnthropicCall(block: Value): ToolCall {
    ToolCall(Text(Get(block, "id")), Text(Get(block, "name")), Coalesce(Get(block, "input"), Empty))
  }

  function BlockStep(acc: Blocks, block: Value): Blocks {
    var kind := Get(block, "type");
    if kind == Str("text") then
      acc.(text := Some((if acc.text.Some? then acc.text.value else "") + Text(Get(block, "text"))))
    else if kind == Str("tool_use") then
      acc.(calls := acc.calls + [AnthropicCall(block)])
    else acc
  }

  function BlockFold(blocks: seq<Value>): Blocks {
    if blocks == [] then Blocks(None, [])
    else BlockStep(BlockFold(blocks[..|blocks| - 1]), blocks[|blocks| - 1])
  }

  /** `_parseAnthropicResponse`. */
  function ParseAnthropic(data: Value): ChatResult {
    var acc := BlockFold(Elements(Coalesce(Get(data, "content"), Empty)));
    ChatResult(acc.text, acc.calls, Coalesce(Get(data, "usage"), Empty), Get(data, "stop_reason"))
  }

  /** The blocks of a type, in order. */
  function BlocksOfType(blocks: seq<Value>, kind: string): (r: seq<Value>)
    ensures forall b :: b in r ==> b in blocks && Get(b, "type") == Str(kind)
  {
    if blocks == [] then []
    else
      var last := blocks[|blocks| - 1];
      BlocksOfType(blocks[..|blocks| - 1], kind) + (if Get(last, "type") == Str(kind) then [last] else [])
  }

  function TextsOf(blocks: seq<Value>): string {
    if blocks == [] then "" else TextsOf(blocks[..|blocks| - 1]) + Text(Get(blocks[|blocks| - 1], "text"))
  }

  /** The text is the in-order concatenation of the text blocks, or absent when there is none. */
  lemma {:induction false} BlockFoldText(blocks: seq<Value>)
    ensures var tb := BlocksOfType(blocks, "text");
      BlockFold(blocks).text == if tb == [] then None else Some(TextsOf(tb))
  {
    if blocks != [] {
      var init := blocks[..|blocks| - 1];
      var last := blocks[|blocks| - 1];
      BlockFoldText(init);
      var tb := BlocksOfType(init, "text");
      if Get(last, "type") == Str("text") {
        assert BlocksOfType(blocks, "text") == tb + [last];
        assert (tb + [last])[..|tb|] == tb;
      } else {
        assert BlocksOfType(blocks, "text") == tb;
      }
    }
  }

  /** One tool call per `tool_use` block, in order, its arguments the block's input or the empty array. */
  lemma {:induction false} BlockFoldCalls(blocks: seq<Value>)
    ensures BlockFold(blocks).calls == ToolUseCalls(BlocksOfType(blocks, "tool_use"))
  {
    if blocks != [] {
      var init := blocks[..|blocks| - 1];
      var last := blocks[|blocks| - 1];
      BlockFoldCalls(init);
      var ub := BlocksOfType(init, "tool_use");
      if Get(last, "type") == Str("tool_use") {
        assert BlocksOfType(blocks, "tool_use") == ub + [last];
        assert ToolUseCalls(ub + [last]) == ToolUseCalls(ub) + [AnthropicCall(last)];
      } else {
        assert BlocksOfType(blocks, "tool_use") == ub;
      }
    }
  }

  /** The tool calls of a list of `tool_use` blocks. */
  function ToolUseCalls(ub: seq<Value>): (r: seq<ToolCall>)
    ensures |r| == |ub|
  {
    seq(|ub|, i requires 0 <= i < |ub| => AnthropicCall(ub[i]))
  }

  /** `embed`: the first vector of the response, or the empty array. */
  function EmbedVector(data: Value): (r: Value)
    ensures Get(At(Get(data, "data"), 0), "embedding") != Null ==> r == Get(At(Get(data, "data"), 0), "embedding")
    ensures Get(At(Get(data, "data"), 0), "embedding") == Null ==> r == Empty
  {
    Coalesce(Get(At(Get(data, "data"), 0), "embedding"), Empty)
  }

  /**
   * `embedBatch`'s reading of a response: vector `i` is the `embedding` of
   * response item `i`, whatever that item's own `index` field says, so the
   * response order is trusted.
   */
  function EmbedBatchVectors(data: Value): (r: seq<Value>)
    ensures |r| == |Elements(Coalesce(Get(data, "data"), Empty))|
    ensures forall i :: 0 <= i < |r| ==> r[i] == Get(Elements(Coalesce(Get(data, "data"), Empty))[i], "embedding")
  {
    var items := Elements(Coalesce(Get(data, "data"), Empty));
    seq(|items|, i requires 0 <= i < |items| => Get(items[i], "embedding"))
  }

  /** The loop of `embedBatch`, which appends each item's `embedding` in turn. */
  method EmbedBatch(data: Value) returns (vectors: seq<Value>)
    ensures vectors == EmbedBatchVectors(data)
  {
    var items := Elements(Coalesce(Get(data, "data"), Empty));
    vectors := [];
    var i := 0;
    while i < |items|
      invariant 0 <= i <= |items|
      invariant |vectors| == i
      invariant forall k :: 0 <= k < i ==> vectors[k] == Get(items[k], "embedding")
    {
      vectors := vectors + [Get(items[i], "embedding")];
      i := i + 1;
    }
  }

  // ---------------------------------------------------------------------------
  // Chat requests

  const OpenAIUrl := "https://api.openai.com/v1/chat/completions"
  const AnthropicUrl := "https://api.anthropic.com/v1/messages"
  /** The TypeError PHP raises when a decoded body that is not an array reaches a parser typed `array`. */
  const NotArrayError := "TypeError: response is not an array"

  /** `chat`: dispatch on the configured provider, post the payload, parse the decoded body. */
  function Chat(provider: string, s: ProviderSettings, msgs: seq<ChatMessage>, tools: seq<ToolSchema>, options: Value,
                post: (string, Value) -> Result<Value>, decode: Value -> Value): (r: Result<ChatResult>)
    ensures var resp := if provider == "anthropic" then post(AnthropicUrl, AnthropicPayload(s, msgs, tools, options, false))
                        else post(OpenAIUrl, OpenAIPayload(s, msgs, tools, options, false));
      (resp.Fail? ==> r == Fail(resp.message))
      && (r.Ok? <==> resp.Ok? && IsArray(resp.value))
      && (r.Ok? && provider == "anthropic" ==> r.value == ParseAnthropic(resp.value))
      && (r.Ok? && provider != "anthropic" ==> r.value == ParseOpenAI(resp.value, decode))
  {
    if provider == "anthropic" then
      var resp := post(AnthropicUrl, AnthropicPayload(s, msgs, tools, options, false));
      if resp.Fail? then Fail(resp.message)
      else if !IsArray(resp.value) then Fail(NotArrayError)
      else Ok(ParseAnthropic(resp.value))
    else
      var resp := post(OpenAIUrl, OpenAIPayload(s, msgs, tools, options, false));
      if resp.Fail? then Fail(resp.message)
      else if !IsArray(resp.value) then Fail(NotArrayError)
      else Ok(ParseOpenAI(resp.value, decode))
  }

  // ---------------------------------------------------------------------------
  // Line framing of streamed bodies

  /** The body read so far: the reads glued together. */
  function Concat(pieces: seq<string>): string {
    if pieces == [] then "" else Concat(pieces[..|pieces| - 1]) + pieces[|pieces| - 1]
  }

  lemma {:induction false} ConcatAppend(a: seq<string>, b: seq<string>)
    ensures Concat(a + b) == Concat(a) + Concat(b)
    decreases |b|
  {
    if b == [] {
      assert a + b == a;
    } else {
      var front, last := b[..|b| - 1], b[|b| - 1];
      var ab := a + b;
      assert ab[..|ab| - 1] == a + front && ab[|ab| - 1] == last;
      ConcatAppend(a, front);
      assert Concat(b) == Concat(front) + last;
    }
  }

  lemma {:induction false} ConcatSplit(pieces: seq<string>, j: nat)
    requires j <= |pieces|
    ensures Concat(pieces) == Concat(pieces[..j]) + Concat(pieces[j..])
  {
    assert pieces == pieces[..j] + pieces[j..];
    ConcatAppend(pieces[..j], pieces[j..]);
  }

  /** The "\n"-terminated lines of a body, without their terminators; an unterminated tail is not a line. */
  function CompleteLines(s: string): seq<string>
    decreases |s|
  {
    var i := IndexOf(s, '\n');
    if i < 0 then [] else [s[..i]] + CompleteLines(s[i + 1..])
  }

  /** Lines written out, each followed by "\n". */
  function Terminated(lines: seq<string>): string {
    if lines == [] then "" else lines[0] + "\n" + Terminated(lines[1..])
  }

  lemma {:induction false} TerminatedSnoc(lines: seq<string>, l: string)
    ensures Terminated(lines + [l]) == Terminated(lines) + l + "\n"
  {
    if lines != [] {
      assert (lines + [l])[1..] == lines[1..] + [l];
      TerminatedSnoc(lines[1..], l);
    }
  }

  lemma {:induction false} LineThenRest(l: string, rest: string)
    requires '\n' !in l
    ensures CompleteLines(l + "\n" + rest) == [l] + CompleteLines(rest)
  {
    var s := l + "\n" + rest;
    var i := IndexOf(s, '\n');
    assert s[|l|] == '\n';
    assert forall k :: 0 <= k < |l| ==> s[k] == l[k] && l[k] != '\n';
    assert i == |l|;
    assert s[..i] == l;
    assert s[i + 1..] == rest;
  }

  lemma {:induction false} NoLine(s: string)
    requires '\n' !in s
    ensures CompleteLines(s) == []
  {
    assert forall k :: 0 <= k < |s| ==> s[k] != '\n';
  }

  /** The complete lines of terminated lines followed by more text. */
  lemma {:induction false} CompleteLinesOfTerminated(lines: seq<string>, rest: string)
    requires forall k :: 0 <= k < |lines| ==> '\n' !in lines[k]
    ensures CompleteLines(Terminated(lines) + rest) == lines + CompleteLines(rest)
  {
    if lines != [] {
      var tl := lines[1..];
      assert forall k :: 0 <= k < |tl| ==> tl[k] == lines[k + 1];
      CompleteLinesOfTerminated(tl, rest);
      TerminatedCons(lines, rest);
      LineThenRest(lines[0], Terminated(tl) + rest);
      ConsAppend(lines, CompleteLines(rest));
    } else {
      assert Terminated(lines) + rest == rest;
    }
  }

  lemma {:induction false} TerminatedCons(lines: seq<string>, rest: string)
    requires lines != []
    ensures Terminated(lines) + rest == lines[0] + "\n" + (Terminated(lines[1..]) + rest)
  {
  }

  lemma {:induction false} ConsAppend<T>(xs: seq<T>, ys: seq<T>)
    requires xs != []
    ensures [xs[0]] + (xs[1..] + ys) == xs + ys
  {
    assert xs == [xs[0]] + xs[1..];
  }

  /** A final line without its "\n" adds nothing. */
  lemma {:induction false} UnterminatedTailIgnored(lines: seq<string>, tail: string)
    requires forall k :: 0 <= k < |lines| ==> '\n' !in lines[k]
    requires '\n' !in tail
    ensures CompleteLines(Terminated(lines) + tail) == lines
  {
    CompleteLinesOfTerminated(lines, tail);
    NoLine(tail);
  }

  /**
   * The line loop of both parsers as a fold: each complete line is handed to
   * `step` until `stopped` holds, after which the parser has returned.
   */
  function FoldLines<S>(lines: seq<string>, init: S, step: (S, string) -> S, stopped: S -> bool): S {
    if lines == [] then init
    else
      var prev := FoldLines(lines[..|lines| - 1], init, step, stopped);
      if stopped(prev) then prev else step(prev, lines[|lines| - 1])
  }

  lemma {:induction false} FoldLinesStopped<S>(lines: seq<string>, more: seq<string>, init: S, step: (S, string) -> S, stopped: S -> bool)
    requires stopped(FoldLines(lines, init, step, stopped))
    ensures FoldLines(lines + more, init, step, stopped) == FoldLines(lines, init, step, stopped)
    decreases |more|
  {
    if more == [] {
      assert lines + more == lines;
    } else {
      assert (lines + more)[..|lines + more| - 1] == lines + more[..|more| - 1];
      FoldLinesStopped(lines, more[..|more| - 1], init, step, stopped);
    }
  }

  lemma {:induction false} FoldLinesSnoc<S>(lines: seq<string>, l: string, init: S, step: (S, string) -> S, stopped: S -> bool)
    requires !stopped(FoldLines(lines, init, step, stopped))
    ensures FoldLines(lines + [l], init, step, stopped) == step(FoldLines(lines, init, step, stopped), l)
  {
    assert (lines + [l])[..|lines|] == lines;
  }

  /** Cutting the first line off the buffer moves it, terminator and all, to the lines handled. */
  lemma {:induction false} CutLine(done: seq<string>, buffer: string, pos: int)
    requires pos == IndexOf(buffer, '\n') && pos >= 0
    ensures '\n' !in buffer[..pos]
    ensures Terminated(done) + buffer == Terminated(done + [buffer[..pos]]) + buffer[pos + 1..]
  {
    var line := buffer[..pos];
    assert buffer == line + "\n" + buffer[pos + 1..];
    assert forall k :: 0 <= k < |line| ==> line[k] == buffer[k];
    TerminatedSnoc(done, line);
  }

  /** The lines of the whole body: those already cut off, then those of what is left. */
  lemma {:induction false} LinesAfterRead(pieces: seq<string>, r: nat, done: seq<string>, buffer: string)
    requires r < |pieces| && Concat(pieces[..r + 1]) == Terminated(done) + buffer
    requires forall k :: 0 <= k < |done| ==> '\n' !in done[k]
    ensures CompleteLines(Concat(pieces)) == done + CompleteLines(buffer + Concat(pieces[r + 1..]))
  {
    ConcatSplit(pieces, r + 1);
    LinesOfSplit(Concat(pieces[..r + 1]), Concat(pieces[r + 1..]), done, buffer);
  }

  lemma {:induction false} LinesOfSplit(front: string, rest: string, done: seq<string>, buffer: string)
    requires front == Terminated(done) + buffer
    requires forall k :: 0 <= k < |done| ==> '\n' !in done[k]
    ensures CompleteLines(front + rest) == done + CompleteLines(buffer + rest)
  {
    assert front + rest == Terminated(done) + (buffer + rest);
    CompleteLinesOfTerminated(done, buffer + rest);
  }

  /** Once the parser has stopped, the rest of the body does not matter. */
  /** One line cut off the buffer and handled: the reading, the lines and the state all move on together. */
  lemma {:induction false} CutStep<S>(done: seq<string>, buffer: string, pos: int, st: S,
                    init: S, step: (S, string) -> S, stopped: S -> bool)
    requires pos == IndexOf(buffer, '\n') && pos >= 0
    requires forall k :: 0 <= k < |done| ==> '\n' !in done[k]
    requires st == FoldLines(done, init, step, stopped) && !stopped(st)
    ensures Terminated(done) + buffer == Terminated(done + [buffer[..pos]]) + buffer[pos + 1..]
    ensures forall k :: 0 <= k < |done + [buffer[..pos]]| ==> '\n' !in (done + [buffer[..pos]])[k]
    ensures step(st, buffer[..pos]) == FoldLines(done + [buffer[..pos]], init, step, stopped)
  {
    CutLine(done, buffer, pos);
    FoldLinesSnoc(done, buffer[..pos], init, step, stopped);
  }

  lemma {:induction false} StopEarly<S>(pieces: seq<string>, r: nat, done: seq<string>, buffer: string,
                     init: S, step: (S, string) -> S, stopped: S -> bool)
    requires r < |pieces| && Concat(pieces[..r + 1]) == Terminated(done) + buffer
    requires forall k :: 0 <= k < |done| ==> '\n' !in done[k]
    requires stopped(FoldLines(done, init, step, stopped))
    ensures FoldLines(CompleteLines(Concat(pieces)), init, step, stopped) == FoldLines(done, init, step, stopped)
  {
    LinesAfterRead(pieces, r, done, buffer);
    FoldLinesStopped(done, CompleteLines(buffer + Concat(pieces[r + 1..])), init, step, stopped);
  }

  /** After the last read, the unterminated rest of the buffer is never handled. */
  lemma {:induction false} ReadAll<S>(pieces: seq<string>, done: seq<string>, buffer: string,
                   init: S, step: (S, string) -> S, stopped: S -> bool)
    requires Concat(pieces) == Terminated(done) + buffer && '\n' !in buffer
    requires forall k :: 0 <= k < |done| ==> '\n' !in done[k]
    ensures FoldLines(CompleteLines(Concat(pieces)), init, step, stopped) == FoldLines(done, init, step, stopped)
  {
    UnterminatedTailIgnored(done, buffer);
  }

  /**
   * The read loop both stream parsers share: each read is appended to the
   * buffer, every complete line is cut off the buffer and handed to `step`,
   * and the parser returns as soon as `stopped` holds. The result depends on
   * the body only, not on how it was split into reads.
   */
  method ReadLines<S>(pieces: seq<string>, init: S, step: (S, string) -> S, stopped: S -> bool) returns (st: S)
    requires !stopped(init)
    ensures st == FoldLines(CompleteLines(Concat(pieces)), init, step, stopped)
  {
    var buffer := "";
    ghost var done: seq<string> := [];
    st := init;
    var r := 0;
    while r < |pieces|
      invariant 0 <= r <= |pieces|
      invariant Concat(pieces[..r]) == Terminated(done) + buffer
      invariant '\n' !in buffer
      invariant forall k :: 0 <= k < |done| ==> '\n' !in done[k]
      invariant st == FoldLines(done, init, step, stopped) && !stopped(st)
    {
      assert pieces[..r + 1][..r] == pieces[..r];
      buffer := buffer + pieces[r];
      var pos := IndexOf(buffer, '\n');
      while pos >= 0
        invariant Concat(pieces[..r + 1]) == Terminated(done) + buffer
        invariant pos == IndexOf(buffer, '\n')
        invariant forall k :: 0 <= k < |done| ==> '\n' !in done[k]
        invariant st == FoldLines(done, init, step, stopped) && !stopped(st)
        decreases |buffer|
      {
        var line := buffer[..pos];
        CutStep(done, buffer, pos, st, init, step, stopped);
        buffer := buffer[pos + 1..];
        st := step(st, line);
        done := done + [line];
        if stopped(st) {
          StopEarly(pieces, r, done, buffer, init, step, stopped);
          return;
        }
        pos := IndexOf(buffer, '\n');
      }
      assert forall k :: 0 <= k < |buffer| ==> buffer[k] != '\n';
      r := r + 1;
    }
    assert pieces[..r] == pieces;
    ReadAll(pieces, done, buffer, init, step, stopped);
  }

  /** The payload of a handled line: trimmed, non-empty and starting with "data: ". */
  function DataPayload(line: string): Option<string> {
    var t := Trim(line);
    if PhpEmpty(t) || !StartsWith(t, "data: ") then None else Some(t[6..])
  }

  /** The shape of an event sequence: text deltas, then possibly one `tool_calls` and `done` once stopped. */
  predicate StreamShape(events: seq<Event>, stopped: bool) {
    if !stopped then forall i :: 0 <= i < |events| ==> events[i].TextDelta?
    else
      |events| >= 1 && events[|events| - 1] == Done
      && (forall i :: 0 <= i < |events| - 2 ==> events[i].TextDelta?)
      && (|events| >= 2 ==> events[|events| - 2].TextDelta? || events[|events| - 2].ToolCalls?)
  }

  lemma {:induction false} ShapeSnocText(events: seq<Event>, more: seq<Event>)
    requires StreamShape(events, false)
    requires forall i :: 0 <= i < |more| ==> more[i].TextDelta?
    ensures StreamShape(events + more, false)
  {
  }

  lemma {:induction false} ShapeClose(events: seq<Event>, calls: seq<Event>)
    requires StreamShape(events, false)
    requires calls == [] || (|calls| == 1 && calls[0].ToolCalls?)
    ensures StreamShape(events + calls + [Done], true)
  {
  }

  // ---------------------------------------------------------------------------
  // The OpenAI stream

  /** `$toolCallBuffers[$idx]`, one per tool-call index, in first-seen order. */
  datatype ToolBuffer = ToolBuffer(index: Value, id: string, name: string, arguments: string)

  datatype OpenAIState = OpenAIState(buffers: seq<ToolBuffer>, events: seq<Event>, stopped: bool)

  function FindBuffer(bs: seq<ToolBuffer>, idx: Value): (r: int)
    ensures -1 <= r < |bs|
    ensures r >= 0 ==> bs[r].index == idx
    ensures r == -1 <==> forall k :: 0 <= k < |bs| ==> bs[k].index != idx
  {
    if bs == [] then -1
    else if bs[|bs| - 1].index == idx then |bs| - 1
    else FindBuffer(bs[..|bs| - 1], idx)
  }

  /** One fragment of `delta.tool_calls`: open its buffer when the index is new, append its arguments. */
  function AddFragment(bs: seq<ToolBuffer>, tc: Value): seq<ToolBuffer> {
    var idx := Get(tc, "index");
    var fn := Get(tc, "function");
    var open := if FindBuffer(bs, idx) < 0
      then bs + [ToolBuffer(idx, OpenedId(tc), OpenedName(tc), "")]
      else bs;
    var k := FindBuffer(open, idx);
    if k >= 0 && Get(fn, "arguments") != Null
    then open[k := open[k].(arguments := open[k].arguments + Text(Get(fn, "arguments")))]
    else open
  }

  function AddFragments(bs: seq<ToolBuffer>, tcs: seq<Value>): seq<ToolBuffer> {
    if tcs == [] then bs else AddFragment(AddFragments(bs, tcs[..|tcs| - 1]), tcs[|tcs| - 1])
  }

  /** `array_values($toolCallBuffers)`: the buffers as tool calls, arguments left as raw text. */
  function BufferCalls(bs: seq<ToolBuffer>): (r: seq<ToolCall>)
    ensures |r| == |bs|
  {
    seq(|bs|, k requires 0 <= k < |bs| => ToolCall(bs[k].id, bs[k].name, Str(bs[k].arguments)))
  }

  /** One handled line of `_openaiStream`. */
  function OpenAILine(st: OpenAIState, line: string, decode: Value -> Value): OpenAIState {
    var payload := DataPayload(line);
    if payload.None? then st
    else if payload.value == "[DONE]" then
      st.(events := st.events + (if st.buffers != [] then [ToolCalls(BufferCalls(st.buffers))] else []) + [Done],
          stopped := true)
    else
      var data := decode(Str(payload.value));
      if !Truthy(data) then st else ChunkStep(st, data)
  }

  /** A truthy chunk handled: its `delta.tool_calls` go to the buffers, a non-empty `delta.content` becomes a text event. */
  function ChunkStep(st: OpenAIState, data: Value): OpenAIState {
    var delta := ChunkDelta(data);
    var content := Get(delta, "content");
    var calls := Get(delta, "tool_calls");
    OpenAIState(
      if calls != Null then AddFragments(st.buffers, Elements(calls)) else st.buffers,
      st.events + (if content != Null && content != Str("") then [TextDelta(Text(content))] else []),
      false)
  }

  function OpenAIStep(decode: Value -> Value): (OpenAIState, string) -> OpenAIState {
    (st: OpenAIState, line: string) => OpenAILine(st, line, decode)
  }

  predicate OpenAIStopped(st: OpenAIState) { st.stopped }

  const OpenAIStart := OpenAIState([], [], false)

  /** The events of `_openaiStream` on a whole body. */
  function OpenAIFold(lines: seq<string>, decode: Value -> Value): OpenAIState {
    FoldLines(lines, OpenAIStart, OpenAIStep(decode), OpenAIStopped)
  }

  function OpenAIEvents(body: string, decode: Value -> Value): seq<Event> {
    OpenAIFold(CompleteLines(body), decode).events
  }

  /** `_openaiStream` over the reads of the response body. */
  method OpenAIStream(pieces: seq<string>, decode: Value -> Value) returns (events: seq<Event>)
    ensures events == OpenAIEvents(Concat(pieces), decode)
  {
    var st := ReadLines(pieces, OpenAIStart, OpenAIStep(decode), OpenAIStopped);
    events := st.events;
  }

  /** One handled line keeps the shape, and stops the stream exactly on `[DONE]`. */
  lemma {:induction false} OpenAILineShape(st: OpenAIState, line: string, decode: Value -> Value)
    requires !st.stopped && StreamShape(st.events, false)
    ensures var next := OpenAILine(st, line, decode);
      StreamShape(next.events, next.stopped) && (next.stopped <==> DataPayload(line) == Some("[DONE]"))
  {
    var payload := DataPayload(line);
    if payload.Some? && payload.value == "[DONE]" {
      ShapeClose(st.events, if st.buffers != [] then [ToolCalls(BufferCalls(st.buffers))] else []);
    } else if payload.Some? {
      var data := decode(Str(payload.value));
      if Truthy(data) {
        var content := Get(ChunkDelta(data), "content");
        ShapeSnocText(st.events, if content != Null && content != Str("") then [TextDelta(Text(content))] else []);
      }
    }
  }

  lemma {:induction false} OpenAIFoldSnoc(lines: seq<string>, decode: Value -> Value)
    requires lines != []
    ensures var prev := OpenAIFold(lines[..|lines| - 1], decode);
      OpenAIFold(lines, decode) == if prev.stopped then prev else OpenAILine(prev, lines[|lines| - 1], decode)
  {
  }

  /**
   * Text deltas come first; `done` (preceded by at most one `tool_calls`)
   * closes the sequence exactly when a `[DONE]` line arrived.
   */
  lemma {:induction false} OpenAIShape(lines: seq<string>, decode: Value -> Value)
    ensures StreamShape(OpenAIFold(lines, decode).events, OpenAIFold(lines, decode).stopped)
    ensures OpenAIFold(lines, decode).stopped <==> exists k :: 0 <= k < |lines| && DataPayload(lines[k]) == Some("[DONE]")
  {
    if lines != [] {
      var init := lines[..|lines| - 1];
      OpenAIShape(init, decode);
      OpenAIFoldSnoc(lines, decode);
      var prev := OpenAIFold(init, decode);
      assert forall k :: 0 <= k < |init| ==> init[k] == lines[k];
      if !prev.stopped {
        OpenAILineShape(prev, lines[|lines| - 1], decode);
      }
    }
  }

  /** A `[DONE]` line occurs among these lines. */
  predicate DoneIn(lines: seq<string>) {
    exists k :: 0 <= k < |lines| && DataPayload(lines[k]) == Some("[DONE]")
  }

  /** The decoded chunk of a data line other than `[DONE]`, when it is truthy. */
  function OpenAIChunk(line: string, decode: Value -> Value): Option<Value> {
    var payload := DataPayload(line);
    if payload.None? || payload.value == "[DONE]" then None
    else if Truthy(decode(Str(payload.value))) then Some(decode(Str(payload.value)))
    else None
  }

  function ChunkDelta(data: Value): Value {
    Coalesce(Get(At(Get(data, "choices"), 0), "delta"), Empty)
  }

  /** The text a chunk contributes: its `delta.content` when that is non-empty. */
  function ChunkTexts(data: Value): seq<string> {
    var content := Get(ChunkDelta(data), "content");
    if content != Null && content != Str("") then [Text(content)] else []
  }

  /** The tool-call fragments a chunk contributes: its `delta.tool_calls`. */
  function ChunkFragments(data: Value): seq<Value> {
    var calls := Get(ChunkDelta(data), "tool_calls");
    if calls != Null then Elements(calls) else []
  }

  /** The text a line contributes. */
  function LineText(line: string, decode: Value -> Value): seq<string> {
    var c := OpenAIChunk(line, decode);
    if c.None? then [] else ChunkTexts(c.value)
  }

  /** The tool-call fragments a line contributes. */
  function LineFragments(line: string, decode: Value -> Value): seq<Value> {
    var c := OpenAIChunk(line, decode);
    if c.None? then [] else ChunkFragments(c.value)
  }

  /** One text event per text. */
  function TextEvents(texts: seq<string>): (r: seq<Event>)
    ensures |r| == |texts| && forall k :: 0 <= k < |texts| ==> r[k] == TextDelta(texts[k])
  {
    seq(|texts|, k requires 0 <= k < |texts| => TextDelta(texts[k]))
  }

  /** Reference reading of a stream: the texts of the lines before the first `[DONE]`, in order. */
  function StreamTexts(lines: seq<string>, decode: Value -> Value): seq<string> {
    if lines == [] then []
    else
      var init := lines[..|lines| - 1];
      StreamTexts(init, decode) + (if DoneIn(init) then [] else LineText(lines[|lines| - 1], decode))
  }

  /** Reference reading of a stream: the tool-call fragments of the lines before the first `[DONE]`. */
  function StreamFragments(lines: seq<string>, decode: Value -> Value): seq<Value> {
    if lines == [] then []
    else
      var init := lines[..|lines| - 1];
      StreamFragments(init, decode) + (if DoneIn(init) then [] else LineFragments(lines[|lines| - 1], decode))
  }

  /** The texts of the `text_delta` events, in order. */
  function DeltaTexts(events: seq<Event>): seq<string> {
    if events == [] then []
    else
      var e := events[|events| - 1];
      DeltaTexts(events[..|events| - 1]) + (if e.TextDelta? then [e.text] else [])
  }

  lemma {:induction false} DeltaTextsAppend(a: seq<Event>, b: seq<Event>)
    ensures DeltaTexts(a + b) == DeltaTexts(a) + DeltaTexts(b)
  {
    if b == [] {
      assert a + b == a;
    } else {
      var ab := a + b;
      assert ab[..|ab| - 1] == a + b[..|b| - 1];
      var front, e := b[..|b| - 1], b[|b| - 1];
      assert ab[|ab| - 1] == e;
      DeltaTextsAppend(a, front);
      var tail := if e.TextDelta? then [e.text] else [];
      assert DeltaTexts(ab) == DeltaTexts(a + front) + tail;
      assert DeltaTexts(b) == DeltaTexts(front) + tail;
    }
  }

  lemma {:induction false} AddFragmentsSnoc(bs: seq<ToolBuffer>, tcs: seq<Value>, tc: Value)
    ensures AddFragments(bs, tcs + [tc]) == AddFragment(AddFragments(bs, tcs), tc)
  {
    assert (tcs + [tc])[..|tcs|] == tcs;
  }

  lemma {:induction false} AddFragmentsAppend(bs: seq<ToolBuffer>, a: seq<Value>, b: seq<Value>)
    ensures AddFragments(bs, a + b) == AddFragments(AddFragments(bs, a), b)
  {
    if b == [] {
      assert a + b == a;
    } else {
      var front, tc := b[..|b| - 1], b[|b| - 1];
      assert b == front + [tc];
      assert a + b == (a + front) + [tc];
      AddFragmentsAppend(bs, a, front);
      AddFragmentsSnoc(bs, a + front, tc);
      AddFragmentsSnoc(AddFragments(bs, a), front, tc);
    }
  }

  /** The events of one line appended to the events so far, for a stream not yet stopped. */
  lemma {:induction false} OpenAILineContents(st: OpenAIState, line: string, decode: Value -> Value)
    requires !st.stopped
    ensures var next := OpenAILine(st, line, decode);
      if DataPayload(line) == Some("[DONE]") then
        next.buffers == st.buffers
        && next.events == st.events + (if st.buffers != [] then [ToolCalls(BufferCalls(st.buffers))] else []) + [Done]
      else
        next.buffers == AddFragments(st.buffers, LineFragments(line, decode))
        && next.events == st.events + TextEvents(LineText(line, decode))
        && !next.stopped
  {
    var c := OpenAIChunk(line, decode);
    if DataPayload(line) != Some("[DONE]") {
      if c.None? {
        assert OpenAILine(st, line, decode) == st;
        assert st.events + TextEvents([]) == st.events;
      } else {
        assert OpenAILine(st, line, decode) == ChunkStep(st, c.value);
        ChunkStepContents(st, c.value);
      }
    }
  }

  lemma {:induction false} ChunkStepContents(st: OpenAIState, data: Value)
    ensures ChunkStep(st, data).buffers == AddFragments(st.buffers, ChunkFragments(data))
    ensures ChunkStep(st, data).events == st.events + TextEvents(ChunkTexts(data))
    ensures !ChunkStep(st, data).stopped
  {
    var calls := Get(ChunkDelta(data), "tool_calls");
    if calls == Null {
      assert AddFragments(st.buffers, []) == st.buffers;
    }
    if ChunkTexts(data) == [] {
      assert st.events + TextEvents([]) == st.events;
    }
  }

  /**
   * An OpenAI stream state read as these texts and fragments: its text deltas
   * are the texts in order, its buffers are the fragments added from no
   * buffers, and once stopped it ends with `tool_calls` carrying every buffer
   * (when there is one) and then `done`.
   */
  predicate ReadsAs(st: OpenAIState, texts: seq<string>, fragments: seq<Value>) {
    DeltaTexts(st.events) == texts
    && st.buffers == AddFragments([], fragments)
    && (st.stopped ==> |st.events| >= 1 && st.events[|st.events| - 1] == Done)
    && (st.stopped && st.buffers != [] ==> |st.events| >= 2 && st.events[|st.events| - 2] == ToolCalls(BufferCalls(st.buffers)))
  }

  lemma {:induction false} ReadsAsDone(st: OpenAIState, line: string, texts: seq<string>, fragments: seq<Value>, decode: Value -> Value)
    requires !st.stopped && ReadsAs(st, texts, fragments) && DataPayload(line) == Some("[DONE]")
    ensures LineText(line, decode) == [] && LineFragments(line, decode) == []
    ensures ReadsAs(OpenAILine(st, line, decode), texts, fragments)
  {
    OpenAILineContents(st, line, decode);
    var calls := if st.buffers != [] then [ToolCalls(BufferCalls(st.buffers))] else [];
    var closing := calls + [Done];
    assert OpenAILine(st, line, decode).events == st.events + closing;
    DeltaTextsAppend(st.events, closing);
    NoDeltaTexts(closing);
  }

  lemma {:induction false} NoDeltaTexts(events: seq<Event>)
    requires forall i :: 0 <= i < |events| ==> !events[i].TextDelta?
    ensures DeltaTexts(events) == []
  {
    if events != [] {
      NoDeltaTexts(events[..|events| - 1]);
    }
  }

  lemma {:induction false} ReadsAsOther(st: OpenAIState, line: string, texts: seq<string>, fragments: seq<Value>, decode: Value -> Value)
    requires !st.stopped && ReadsAs(st, texts, fragments) && DataPayload(line) != Some("[DONE]")
    ensures ReadsAs(OpenAILine(st, line, decode), texts + LineText(line, decode), fragments + LineFragments(line, decode))
  {
    OpenAILineContents(st, line, decode);
    var lt := LineText(line, decode);
    ReadsAsExtend(st, OpenAILine(st, line, decode), TextEvents(lt), texts, fragments, lt, LineFragments(line, decode));
  }

  /** A state grown by text events for `lt` and the fragments `lf` reads as the texts and fragments grown by them. */
  lemma {:induction false} ReadsAsExtend(st: OpenAIState, next: OpenAIState, added: seq<Event>,
                                         texts: seq<string>, fragments: seq<Value>, lt: seq<string>, lf: seq<Value>)
    requires !st.stopped && !next.stopped && ReadsAs(st, texts, fragments)
    requires next.events == st.events + added && next.buffers == AddFragments(st.buffers, lf)
    requires |added| == |lt| && forall k :: 0 <= k < |lt| ==> added[k] == TextDelta(lt[k])
    ensures ReadsAs(next, texts + lt, fragments + lf)
  {
    DeltaTextsAppend(st.events, added);
    DeltaTextsOfTexts(added, lt);
    AddFragmentsAppend([], fragments, lf);
  }

  /** Text events carry their texts. */
  lemma {:induction false} DeltaTextsOfTexts(added: seq<Event>, lt: seq<string>)
    requires |added| == |lt| && forall k :: 0 <= k < |lt| ==> added[k] == TextDelta(lt[k])
    ensures DeltaTexts(added) == lt
  {
    if added != [] {
      var n := |added| - 1;
      assert forall k :: 0 <= k < n ==> added[..n][k] == added[k];
      DeltaTextsOfTexts(added[..n], lt[..n]);
      assert lt == lt[..n] + [lt[n]];
    }
  }

  /**
   * The OpenAI stream against its reference reading: the text deltas are the
   * non-empty contents of the lines before `[DONE]`, in order; the buffers are
   * those lines' tool-call fragments added in order; once stopped the stream
   * ends with `tool_calls` carrying every buffer (when there is one), then `done`.
   */
  lemma {:induction false} OpenAIStreamContents(lines: seq<string>, decode: Value -> Value)
    ensures ReadsAs(OpenAIFold(lines, decode), StreamTexts(lines, decode), StreamFragments(lines, decode))
  {
    if lines == [] {
      assert OpenAIFold(lines, decode) == OpenAIStart;
    } else {
      var init := lines[..|lines| - 1];
      var last := lines[|lines| - 1];
      OpenAIStreamContents(init, decode);
      OpenAIFoldSnoc(lines, decode);
      OpenAIShape(init, decode);
      var prev := OpenAIFold(init, decode);
      var texts, fragments := StreamTexts(init, decode), StreamFragments(init, decode);
      if prev.stopped {
        assert DoneIn(init);
        assert StreamTexts(lines, decode) == texts;
        assert StreamFragments(lines, decode) == fragments;
      } else {
        assert !DoneIn(init);
        OpenAIStreamStep(prev, last, texts, fragments, decode);
        assert StreamTexts(lines, decode) == texts + LineText(last, decode);
        assert StreamFragments(lines, decode) == fragments + LineFragments(last, decode);
      }
    }
  }

  lemma {:induction false} OpenAIStreamStep(st: OpenAIState, line: string, texts: seq<string>, fragments: seq<Value>, decode: Value -> Value)
    requires !st.stopped && ReadsAs(st, texts, fragments)
    ensures ReadsAs(OpenAILine(st, line, decode), texts + LineText(line, decode), fragments + LineFragments(line, decode))
  {
    if DataPayload(line) == Some("[DONE]") {
      ReadsAsDone(st, line, texts, fragments, decode);
      assert texts + LineText(line, decode) == texts;
      assert fragments + LineFragments(line, decode) == fragments;
    } else {
      ReadsAsOther(st, line, texts, fragments, decode);
    }
  }

  /** Starting from no buffers, the buffers of a whole OpenAI stream group its fragments. */
  lemma {:induction false} OpenAIStreamGrouped(lines: seq<string>, decode: Value -> Value)
    ensures Grouped(OpenAIFold(lines, decode).buffers, StreamFragments(lines, decode))
  {
    OpenAIStreamContents(lines, decode);
    FragmentsGrouped(StreamFragments(lines, decode));
  }

  /** Tool-call indices are never repeated among the buffers. */
  predicate UniqueIndices(bs: seq<ToolBuffer>) {
    forall i, j :: 0 <= i < j < |bs| ==> bs[i].index != bs[j].index
  }

  /** The concatenated arguments of the fragments carrying index `idx`. */
  function ArgumentsFor(tcs: seq<Value>, idx: Value): string {
    if tcs == [] then ""
    else
      var tc := tcs[|tcs| - 1];
      ArgumentsFor(tcs[..|tcs| - 1], idx)
      + (if Get(tc, "index") == idx && Get(Get(tc, "function"), "arguments") != Null
         then Text(Get(Get(tc, "function"), "arguments")) else "")
  }

  /** The distinct indices of the fragments, in first-seen order. */
  function FirstSeen(tcs: seq<Value>): seq<Value> {
    if tcs == [] then []
    else
      var prev := FirstSeen(tcs[..|tcs| - 1]);
      var idx := Get(tcs[|tcs| - 1], "index");
      if idx in prev then prev else prev + [idx]
  }

  /** The first fragment carrying index `idx`. */
  function FirstWith(tcs: seq<Value>, idx: Value): Option<Value> {
    if tcs == [] then None
    else
      var prev := FirstWith(tcs[..|tcs| - 1], idx);
      if prev.Some? then prev
      else if Get(tcs[|tcs| - 1], "index") == idx then Some(tcs[|tcs| - 1])
      else None
  }

  /** The id and name a buffer opened by fragment `tc` takes (`?? ''`). */
  function OpenedId(tc: Value): string { Text(Coalesce(Get(tc, "id"), Str(""))) }
  function OpenedName(tc: Value): string { Text(Coalesce(Get(Get(tc, "function"), "name"), Str(""))) }

  /**
   * The buffers group the fragments: one buffer per distinct index in
   * first-seen order; its id and name come from the first fragment with that
   * index, and its arguments are the raw concatenation of all its fragments'
   * arguments.
   */
  predicate Grouped(bs: seq<ToolBuffer>, tcs: seq<Value>) {
    UniqueIndices(bs)
    && |bs| == |FirstSeen(tcs)|
    && (forall k :: 0 <= k < |bs| ==> bs[k].index == FirstSeen(tcs)[k])
    && (forall k :: 0 <= k < |bs| ==> bs[k].arguments == ArgumentsFor(tcs, bs[k].index))
    && (forall k :: 0 <= k < |bs| ==>
          (FirstWith(tcs, bs[k].index).Some?
           && bs[k].id == OpenedId(FirstWith(tcs, bs[k].index).value)
           && bs[k].name == OpenedName(FirstWith(tcs, bs[k].index).value)))
  }

  /** The spec functions on fragments extended by one. */
  lemma {:induction false} FragmentSnoc(tcs: seq<Value>, tc: Value)
    ensures FirstSeen(tcs + [tc]) == if Get(tc, "index") in FirstSeen(tcs) then FirstSeen(tcs) else FirstSeen(tcs) + [Get(tc, "index")]
  {
    assert (tcs + [tc])[..|tcs|] == tcs;
  }

  lemma {:induction false} FragmentSnocAt(tcs: seq<Value>, tc: Value, x: Value)
    ensures ArgumentsFor(tcs + [tc], x) == ArgumentsFor(tcs, x)
      + (if Get(tc, "index") == x && Get(Get(tc, "function"), "arguments") != Null then Text(Get(Get(tc, "function"), "arguments")) else "")
    ensures FirstWith(tcs + [tc], x) == if FirstWith(tcs, x).Some? then FirstWith(tcs, x) else if Get(tc, "index") == x then Some(tc) else None
  {
    assert (tcs + [tc])[..|tcs|] == tcs;
  }

  /** `AddFragment` keeps the buffers grouped. */
  lemma {:induction false} AddFragmentGrouped(bs: seq<ToolBuffer>, tcs: seq<Value>, tc: Value)
    requires Grouped(bs, tcs)
    ensures Grouped(AddFragment(bs, tc), tcs + [tc])
  {
    if FindBuffer(bs, Get(tc, "index")) < 0 {
      AddNewFragment(bs, tcs, tc);
    } else {
      AddKnownFragment(bs, tcs, tc);
    }
  }

  /** A fragment with a new index opens a buffer at the end. */
  lemma {:induction false} AddNewFragment(bs: seq<ToolBuffer>, tcs: seq<Value>, tc: Value)
    requires Grouped(bs, tcs) && FindBuffer(bs, Get(tc, "index")) < 0
    ensures Grouped(AddFragment(bs, tc), tcs + [tc])
  {
    var args := Get(Get(tc, "function"), "arguments");
    var nb := ToolBuffer(Get(tc, "index"), OpenedId(tc), OpenedName(tc), if args != Null then Text(args) else "");
    AddNewShape(bs, tc);
    NewBufferGrouped(bs, tcs, tc, nb);
  }

  /** With a new index, the fragment appends one buffer holding its id, name and arguments. */
  lemma {:induction false} AddNewShape(bs: seq<ToolBuffer>, tc: Value)
    requires FindBuffer(bs, Get(tc, "index")) < 0
    ensures AddFragment(bs, tc) == bs + [ToolBuffer(Get(tc, "index"), OpenedId(tc), OpenedName(tc),
      if Get(Get(tc, "function"), "arguments") != Null then Text(Get(Get(tc, "function"), "arguments")) else "")]
  {
    var idx := Get(tc, "index");
    var args := Get(Get(tc, "function"), "arguments");
    var b := ToolBuffer(idx, OpenedId(tc), OpenedName(tc), "");
    FindBufferLast(bs, b, idx);
    if args != Null {
      var nb := b.(arguments := b.arguments + Text(args));
      assert "" + Text(args) == Text(args);
      assert (bs + [b])[|bs| := nb] == bs + [nb];
    }
  }

  /** A buffer just appended with the index sought is the one found. */
  lemma {:induction false} FindBufferLast(bs: seq<ToolBuffer>, b: ToolBuffer, idx: Value)
    requires b.index == idx
    ensures FindBuffer(bs + [b], idx) == |bs|
  {
  }

  lemma {:induction false} NewBufferGrouped(bs: seq<ToolBuffer>, tcs: seq<Value>, tc: Value, nb: ToolBuffer)
    requires Grouped(bs, tcs) && FindBuffer(bs, Get(tc, "index")) < 0
    requires var args := Get(Get(tc, "function"), "arguments");
      nb == ToolBuffer(Get(tc, "index"), OpenedId(tc), OpenedName(tc), if args != Null then Text(args) else "")
    ensures Grouped(bs + [nb], tcs + [tc])
  {
    var idx := Get(tc, "index");
    assert forall j :: 0 <= j < |FirstSeen(tcs)| ==> FirstSeen(tcs)[j] != idx;
    NewBufferIndices(bs, tcs, tc, nb);
    NewBufferContents(bs, tcs, tc, nb);
  }

  lemma {:induction false} NewBufferIndices(bs: seq<ToolBuffer>, tcs: seq<Value>, tc: Value, nb: ToolBuffer)
    requires UniqueIndices(bs) && |bs| == |FirstSeen(tcs)|
    requires forall k :: 0 <= k < |bs| ==> bs[k].index == FirstSeen(tcs)[k]
    requires nb.index == Get(tc, "index") && nb.index !in FirstSeen(tcs)
    ensures UniqueIndices(bs + [nb]) && |bs + [nb]| == |FirstSeen(tcs + [tc])|
    ensures forall k :: 0 <= k < |bs + [nb]| ==> (bs + [nb])[k].index == FirstSeen(tcs + [tc])[k]
  {
    FragmentSnoc(tcs, tc);
  }

  lemma {:induction false} NewBufferContents(bs: seq<ToolBuffer>, tcs: seq<Value>, tc: Value, nb: ToolBuffer)
    requires Grouped(bs, tcs) && Get(tc, "index") !in FirstSeen(tcs)
    requires var args := Get(Get(tc, "function"), "arguments");
      nb == ToolBuffer(Get(tc, "index"), OpenedId(tc), OpenedName(tc), if args != Null then Text(args) else "")
    ensures var next, all := bs + [nb], tcs + [tc];
      (forall k :: 0 <= k < |next| ==> next[k].arguments == ArgumentsFor(all, next[k].index))
      && (forall k :: 0 <= k < |next| ==>
            (FirstWith(all, next[k].index).Some?
             && next[k].id == OpenedId(FirstWith(all, next[k].index).value)
             && next[k].name == OpenedName(FirstWith(all, next[k].index).value)))
  {
    var idx := Get(tc, "index");
    var next := bs + [nb];
    var all := tcs + [tc];
    FirstWithAbsent(tcs, idx);
    FragmentSnocAt(tcs, tc, idx);
    forall k | 0 <= k < |next|
      ensures next[k].arguments == ArgumentsFor(all, next[k].index)
      ensures FirstWith(all, next[k].index).Some?
      ensures next[k].id == OpenedId(FirstWith(all, next[k].index).value)
      ensures next[k].name == OpenedName(FirstWith(all, next[k].index).value)
    {
      if k < |bs| {
        assert next[k] == bs[k];
        FragmentSnocAt(tcs, tc, bs[k].index);
      }
    }
  }

  /** A fragment with a known index only extends that buffer's arguments. */
  lemma {:induction false} AddKnownFragment(bs: seq<ToolBuffer>, tcs: seq<Value>, tc: Value)
    requires Grouped(bs, tcs) && FindBuffer(bs, Get(tc, "index")) >= 0
    ensures Grouped(AddFragment(bs, tc), tcs + [tc])
  {
    var idx := Get(tc, "index");
    var j := FindBuffer(bs, idx);
    var next := AddFragment(bs, tc);
    var all := tcs + [tc];
    AddKnownShape(bs, tc);
    FragmentSnoc(tcs, tc);
    assert FirstSeen(tcs)[j] == idx;
    assert FirstSeen(all) == FirstSeen(tcs);
    forall k | 0 <= k < |bs|
      ensures next[k].index == bs[k].index
      ensures next[k].arguments == ArgumentsFor(all, next[k].index)
      ensures FirstWith(all, next[k].index) == FirstWith(tcs, bs[k].index)
      ensures next[k].id == bs[k].id && next[k].name == bs[k].name
    {
      FragmentSnocAt(tcs, tc, bs[k].index);
      if k != j {
        assert bs[k].index != idx;
      }
    }
    assert UniqueIndices(next) by {
      forall i, l | 0 <= i < l < |next| ensures next[i].index != next[l].index {
        assert bs[i].index != bs[l].index;
      }
    }
  }

  /** The buffers after a fragment whose index already has one: only that buffer's arguments grow. */
  lemma {:induction false} AddKnownShape(bs: seq<ToolBuffer>, tc: Value)
    requires FindBuffer(bs, Get(tc, "index")) >= 0
    ensures var j, args := FindBuffer(bs, Get(tc, "index")), Get(Get(tc, "function"), "arguments");
      |AddFragment(bs, tc)| == |bs|
      && (forall k :: 0 <= k < |bs| && k != j ==> AddFragment(bs, tc)[k] == bs[k])
      && AddFragment(bs, tc)[j] == bs[j].(arguments := bs[j].arguments + (if args != Null then Text(args) else ""))
  {
    var args := Get(Get(tc, "function"), "arguments");
    if args == Null {
      var j := FindBuffer(bs, Get(tc, "index"));
      assert bs[j].arguments + "" == bs[j].arguments;
    }
  }

  /** Starting from no buffers, the fragments of a stream end up grouped. */
  lemma {:induction false} FragmentsGrouped(tcs: seq<Value>)
    ensures Grouped(AddFragments([], tcs), tcs)
  {
    if tcs != [] {
      var init, last := tcs[..|tcs| - 1], tcs[|tcs| - 1];
      assert init + [last] == tcs;
      var bs := AddFragments([], init);
      assert AddFragments([], tcs) == AddFragment(bs, last);
      FragmentsGrouped(init);
      AddFragmentGrouped(bs, init, last);
    }
  }

  lemma {:induction false} FirstSeenMembers(tcs: seq<Value>)
    ensures forall x :: x in FirstSeen(tcs) <==> exists k :: 0 <= k < |tcs| && Get(tcs[k], "index") == x
    ensures forall x :: x in FirstSeen(tcs) <==> FirstWith(tcs, x).Some?
  {
    if tcs != [] {
      var init := tcs[..|tcs| - 1];
      FirstSeenMembers(init);
      assert forall k :: 0 <= k < |init| ==> init[k] == tcs[k];
    }
  }

  lemma {:induction false} FirstWithAbsent(tcs: seq<Value>, idx: Value)
    requires idx !in FirstSeen(tcs)
    ensures FirstWith(tcs, idx).None? && ArgumentsFor(tcs, idx) == ""
  {
    FirstSeenMembers(tcs);
    ArgumentsAbsent(tcs, idx);
  }

  lemma {:induction false} ArgumentsAbsent(tcs: seq<Value>, idx: Value)
    requires forall k :: 0 <= k < |tcs| ==> Get(tcs[k], "index") != idx
    ensures ArgumentsFor(tcs, idx) == ""
  {
    if tcs != [] {
      ArgumentsAbsent(tcs[..|tcs| - 1], idx);
    }
  }

  // ---------------------------------------------------------------------------
  // The Anthropic stream

  datatype AnthropicState = AnthropicState(
    calls: seq<ToolCall>, toolId: string, toolName: string, toolInput: string,
    events: seq<Event>, stopped: bool)

  /** What one line of `_anthropicStream` says, once decoded and dispatched on its `type`. */
  datatype AnthropicItem =
    | TextPiece(text: string)              // a `text_delta`
    | ToolStart(id: string, name: string)  // a `content_block_start` of a `tool_use` block
    | InputPiece(json: string)             // an `input_json_delta`
    | BlockStop                            // `content_block_stop`
    | MessageStop                          // `message_stop`
    | Skipped                              // anything else, or not a truthy data line

  /** The decoding and dispatch of one line of `_anthropicStream`. */
  function AnthropicItemOf(line: string, decode: Value -> Value): AnthropicItem {
    var payload := DataPayload(line);
    if payload.None? then Skipped
    else
      var data := decode(Str(payload.value));
      if !Truthy(data) then Skipped
      else
        var kind := Coalesce(Get(data, "type"), Str(""));
        if kind == Str("content_block_start") then
          var block := Coalesce(Get(data, "content_block"), Empty);
          if Coalesce(Get(block, "type"), Str("")) == Str("tool_use") then
            ToolStart(Text(Coalesce(Get(block, "id"), Str(""))), Text(Coalesce(Get(block, "name"), Str(""))))
          else Skipped
        else if kind == Str("content_block_delta") then
          var delta := Coalesce(Get(data, "delta"), Empty);
          var dkind := Coalesce(Get(delta, "type"), Str(""));
          if dkind == Str("text_delta") then TextPiece(Text(Coalesce(Get(delta, "text"), Str(""))))
          else if dkind == Str("input_json_delta") then InputPiece(Text(Coalesce(Get(delta, "partial_json"), Str(""))))
          else Skipped
        else if kind == Str("content_block_stop") then BlockStop
        else if kind == Str("message_stop") then MessageStop
        else Skipped
  }

  /** What `_anthropicStream` does with one item. */
  function AnthropicApply(st: AnthropicState, it: AnthropicItem, decode: Value -> Value): AnthropicState {
    match it
    case TextPiece(t) => st.(events := st.events + [TextDelta(t)])
    case ToolStart(id, name) => st.(toolId := id, toolName := name, toolInput := "")
    case InputPiece(j) => st.(toolInput := st.toolInput + j)
    case BlockStop =>
      if !PhpEmpty(st.toolName) then
        st.(calls := st.calls + [ToolCall(st.toolId, st.toolName, DecodeOrEmpty(Str(st.toolInput), decode))],
            toolName := "", toolInput := "")
      else st
    case MessageStop =>
      st.(events := st.events + (if st.calls != [] then [ToolCalls(st.calls)] else []) + [Done], stopped := true)
    case Skipped => st
  }

  /** One handled line of `_anthropicStream`. */
  function AnthropicLine(st: AnthropicState, line: string, decode: Value -> Value): AnthropicState {
    AnthropicApply(st, AnthropicItemOf(line, decode), decode)
  }

  function AnthropicStep(decode: Value -> Value): (AnthropicState, string) -> AnthropicState {
    (st: AnthropicState, line: string) => AnthropicLine(st, line, decode)
  }

  predicate AnthropicStopped(st: AnthropicState) { st.stopped }

  const AnthropicStart := AnthropicState([], "", "", "", [], false)

  function AnthropicFold(lines: seq<string>, decode: Value -> Value): AnthropicState {
    FoldLines(lines, AnthropicStart, AnthropicStep(decode), AnthropicStopped)
  }

  function AnthropicEvents(body: string, decode: Value -> Value): seq<Event> {
    AnthropicFold(CompleteLines(body), decode).events
  }

  /** `_anthropicStream` over the reads of the response body. */
  method AnthropicStream(pieces: seq<string>, decode: Value -> Value) returns (events: seq<Event>)
    ensures events == AnthropicEvents(Concat(pieces), decode)
  {
    var st := ReadLines(pieces, AnthropicStart, AnthropicStep(decode), AnthropicStopped);
    events := st.events;
  }

  /** The line that ends an Anthropic stream. */
  predicate IsMessageStop(line: string, decode: Value -> Value) {
    AnthropicItemOf(line, decode).MessageStop?
  }

  /** One handled line keeps the shape, records only named calls, and stops exactly on `message_stop`. */
  lemma {:induction false} AnthropicLineShape(st: AnthropicState, line: string, decode: Value -> Value)
    requires !st.stopped && StreamShape(st.events, false)
    requires forall c :: c in st.calls ==> !PhpEmpty(c.name)
    ensures var next := AnthropicLine(st, line, decode);
      StreamShape(next.events, next.stopped) && (next.stopped <==> IsMessageStop(line, decode))
      && forall c :: c in next.calls ==> !PhpEmpty(c.name)
  {
    var it := AnthropicItemOf(line, decode);
    if it.MessageStop? {
      ShapeClose(st.events, if st.calls != [] then [ToolCalls(st.calls)] else []);
    } else if it.TextPiece? {
      ShapeSnocText(st.events, [TextDelta(it.text)]);
    }
  }

  lemma {:induction false} AnthropicFoldSnoc(lines: seq<string>, decode: Value -> Value)
    requires lines != []
    ensures var prev := AnthropicFold(lines[..|lines| - 1], decode);
      AnthropicFold(lines, decode) == if prev.stopped then prev else AnthropicLine(prev, lines[|lines| - 1], decode)
  {
  }

  /**
   * Text deltas first (one per `text_delta`, even an empty one); `done`,
   * preceded by at most one `tool_calls`, closes the sequence exactly when a
   * `message_stop` arrived. No tool is left half-open in a recorded call: a
   * call is recorded only at `content_block_stop` with a non-empty name.
   */
  lemma {:induction false} AnthropicShape(lines: seq<string>, decode: Value -> Value)
    ensures StreamShape(AnthropicFold(lines, decode).events, AnthropicFold(lines, decode).stopped)
    ensures AnthropicFold(lines, decode).stopped <==> exists k :: 0 <= k < |lines| && IsMessageStop(lines[k], decode)
    ensures forall c :: c in AnthropicFold(lines, decode).calls ==> !PhpEmpty(c.name)
  {
    if lines != [] {
      var init := lines[..|lines| - 1];
      AnthropicShape(init, decode);
      AnthropicFoldSnoc(lines, decode);
      var prev := AnthropicFold(init, decode);
      assert forall k :: 0 <= k < |init| ==> init[k] == lines[k];
      if !prev.stopped {
        AnthropicLineShape(prev, lines[|lines| - 1], decode);
      }
    }
  }

  /** Every `text_delta` is yielded as it comes, an empty one included. */
  lemma {:induction false} TextDeltaYielded(st: AnthropicState, line: string, decode: Value -> Value)
    requires DataPayload(line).Some? && Truthy(decode(Str(DataPayload(line).value)))
    requires Coalesce(Get(decode(Str(DataPayload(line).value)), "type"), Str("")) == Str("content_block_delta")
    requires Coalesce(Get(Coalesce(Get(decode(Str(DataPayload(line).value)), "delta"), Empty), "type"), Str("")) == Str("text_delta")
    ensures AnthropicLine(st, line, decode)
      == st.(events := st.events + [TextDelta(Text(Coalesce(Get(Coalesce(Get(decode(Str(DataPayload(line).value)), "delta"), Empty), "text"), Str(""))))])
  {
  }


  // The Anthropic stream against a reference reading of its items

  /** Some line among these is a `message_stop`. */
  predicate StopIn(lines: seq<string>, decode: Value -> Value) {
    exists k :: 0 <= k < |lines| && IsMessageStop(lines[k], decode)
  }

  /** The items of the lines before the first `message_stop`, in order. */
  function LiveItems(lines: seq<string>, decode: Value -> Value): seq<AnthropicItem> {
    if lines == [] then []
    else
      var init := lines[..|lines| - 1];
      var it := AnthropicItemOf(lines[|lines| - 1], decode);
      LiveItems(init, decode) + (if StopIn(init, decode) || it.MessageStop? then [] else [it])
  }

  /** The texts of the `text_delta` items, in order. */
  function ItemTexts(items: seq<AnthropicItem>): seq<string> {
    if items == [] then []
    else
      var it := items[|items| - 1];
      ItemTexts(items[..|items| - 1]) + (if it.TextPiece? then [it.text] else [])
  }

  /** The `partial_json` of the `input_json_delta` items, concatenated in order. */
  function InputText(items: seq<AnthropicItem>): string {
    if items == [] then ""
    else
      var it := items[|items| - 1];
      InputText(items[..|items| - 1]) + (if it.InputPiece? then it.json else "")
  }

  /** The position of the latest `tool_use` start, or -1 when there is none. */
  function LastStart(items: seq<AnthropicItem>): (r: int)
    ensures -1 <= r < |items|
    ensures r >= 0 ==> items[r].ToolStart? && forall k :: r < k < |items| ==> !items[k].ToolStart?
    ensures r == -1 ==> forall k :: 0 <= k < |items| ==> !items[k].ToolStart?
  {
    if items == [] then -1
    else if items[|items| - 1].ToolStart? then |items| - 1
    else LastStart(items[..|items| - 1])
  }

  /** Some block stopped after position `s`. */
  predicate StoppedAfter(items: seq<AnthropicItem>, s: nat) {
    exists k :: s < k < |items| && items[k].BlockStop?
  }

  /** A tool is open: the latest start exists, names a tool, and no block has stopped since. */
  predicate ToolOpen(items: seq<AnthropicItem>) {
    var s := LastStart(items);
    s >= 0 && !PhpEmpty(items[s].name) && !StoppedAfter(items, s)
  }

  /** The call an open tool makes when its block stops: the start's id and name, the input since decoded, else `[]`. */
  function OpenCall(items: seq<AnthropicItem>, decode: Value -> Value): ToolCall
    requires ToolOpen(items)
  {
    var s := LastStart(items);
    ToolCall(items[s].id, items[s].name, DecodeOrEmpty(Str(InputText(items[s + 1..])), decode))
  }

  /** One call per `content_block_stop` that closes an open tool, in order. */
  function ItemCalls(items: seq<AnthropicItem>, decode: Value -> Value): seq<ToolCall> {
    if items == [] then []
    else
      var front := items[..|items| - 1];
      ItemCalls(front, decode) + (if items[|items| - 1].BlockStop? && ToolOpen(front) then [OpenCall(front, decode)] else [])
  }

  /**
   * An Anthropic stream state read as these items: its text deltas are the
   * items' texts, its calls are the items' calls, the current tool is the
   * open one (and there is no named current tool otherwise), and once
   * stopped it ends with `tool_calls` carrying every call (when there is
   * one) and then `done`.
   */
  predicate AnthropicReadsAs(st: AnthropicState, items: seq<AnthropicItem>, decode: Value -> Value) {
    DeltaTexts(st.events) == ItemTexts(items)
    && st.calls == ItemCalls(items, decode)
    && (ToolOpen(items) ==>
          st.toolId == items[LastStart(items)].id && st.toolName == items[LastStart(items)].name
          && st.toolInput == InputText(items[LastStart(items) + 1..]))
    && (!ToolOpen(items) ==> PhpEmpty(st.toolName))
    && (st.stopped ==> |st.events| >= 1 && st.events[|st.events| - 1] == Done)
    && (st.stopped && st.calls != [] ==> |st.events| >= 2 && st.events[|st.events| - 2] == ToolCalls(st.calls))
  }

  /** The reference functions on one more item that is not a `tool_use` start. */
  lemma {:induction false} ItemsSnoc(items: seq<AnthropicItem>, it: AnthropicItem)
    requires !it.ToolStart?
    ensures LastStart(items + [it]) == LastStart(items)
    ensures ItemTexts(items + [it]) == ItemTexts(items) + (if it.TextPiece? then [it.text] else [])
    ensures LastStart(items) >= 0 ==>
      InputText((items + [it])[LastStart(items) + 1..]) == InputText(items[LastStart(items) + 1..]) + (if it.InputPiece? then it.json else "")
    ensures ToolOpen(items + [it]) <==> ToolOpen(items) && !it.BlockStop?
  {
    LastStartSnoc(items, it);
    TextsSnoc(items, it);
    var s := LastStart(items);
    if s >= 0 {
      InputSnoc(items, it, s);
      StoppedAfterSnoc(items, it, s);
      assert (items + [it])[s] == items[s];
    }
  }

  lemma {:induction false} LastStartSnoc(items: seq<AnthropicItem>, it: AnthropicItem)
    requires !it.ToolStart?
    ensures LastStart(items + [it]) == LastStart(items)
  {
    assert (items + [it])[..|items|] == items;
  }

  lemma {:induction false} TextsSnoc(items: seq<AnthropicItem>, it: AnthropicItem)
    ensures ItemTexts(items + [it]) == ItemTexts(items) + (if it.TextPiece? then [it.text] else [])
  {
    assert (items + [it])[..|items|] == items;
  }

  lemma {:induction false} InputSnoc(items: seq<AnthropicItem>, it: AnthropicItem, s: nat)
    requires s < |items|
    ensures InputText((items + [it])[s + 1..]) == InputText(items[s + 1..]) + (if it.InputPiece? then it.json else "")
  {
    var tail := (items + [it])[s + 1..];
    assert tail[..|tail| - 1] == items[s + 1..];
    assert tail[|tail| - 1] == it;
  }

  lemma {:induction false} StoppedAfterSnoc(items: seq<AnthropicItem>, it: AnthropicItem, s: nat)
    requires s < |items|
    ensures StoppedAfter(items + [it], s) <==> StoppedAfter(items, s) || it.BlockStop?
  {
    var xs := items + [it];
    if it.BlockStop? {
      assert xs[|items|].BlockStop?;
    }
    if StoppedAfter(items, s) {
      var k :| s < k < |items| && items[k].BlockStop?;
      assert xs[k].BlockStop?;
    }
    if StoppedAfter(xs, s) && !it.BlockStop? {
      var k :| s < k < |xs| && xs[k].BlockStop?;
      assert k < |items| && items[k].BlockStop?;
    }
  }

  /** The reference functions on one more `tool_use` start: that tool is the current one, with no input yet. */
  lemma {:induction false} ItemsSnocStart(items: seq<AnthropicItem>, it: AnthropicItem)
    requires it.ToolStart?
    ensures LastStart(items + [it]) == |items|
    ensures ItemTexts(items + [it]) == ItemTexts(items)
    ensures InputText((items + [it])[|items| + 1..]) == ""
    ensures ToolOpen(items + [it]) <==> !PhpEmpty(it.name)
  {
    var xs := items + [it];
    assert xs[..|items|] == items;
    assert xs[|items| + 1..] == [];
  }

  /** One line that is not `message_stop` extends the reading by its item. */
  lemma {:induction false} AnthropicReadsStep(st: AnthropicState, items: seq<AnthropicItem>, it: AnthropicItem, decode: Value -> Value)
    requires !st.stopped && AnthropicReadsAs(st, items, decode) && !it.MessageStop?
    ensures AnthropicReadsAs(AnthropicApply(st, it, decode), items + [it], decode)
  {
    var xs := items + [it];
    assert xs[..|items|] == items;
    assert ItemCalls(xs, decode) == ItemCalls(items, decode) + (if it.BlockStop? && ToolOpen(items) then [OpenCall(items, decode)] else []);
    match it {
      case ToolStart(_, _) => ReadsStart(st, items, it, decode);
      case TextPiece(_) => ReadsText(st, items, it, decode);
      case BlockStop => ReadsBlockStop(st, items, decode);
      case InputPiece(_) => ReadsInput(st, items, it, decode);
      case Skipped =>
        ItemsSnoc(items, it);
        ReadsKeep(st, AnthropicApply(st, it, decode), items, xs, decode);
    }
  }

  lemma {:induction false} ReadsStart(st: AnthropicState, items: seq<AnthropicItem>, it: AnthropicItem, decode: Value -> Value)
    requires !st.stopped && AnthropicReadsAs(st, items, decode) && it.ToolStart?
    requires ItemCalls(items + [it], decode) == ItemCalls(items, decode)
    ensures AnthropicReadsAs(AnthropicApply(st, it, decode), items + [it], decode)
  {
    ItemsSnocStart(items, it);
  }

  lemma {:induction false} ReadsText(st: AnthropicState, items: seq<AnthropicItem>, it: AnthropicItem, decode: Value -> Value)
    requires !st.stopped && AnthropicReadsAs(st, items, decode) && it.TextPiece?
    requires ItemCalls(items + [it], decode) == ItemCalls(items, decode)
    ensures AnthropicReadsAs(AnthropicApply(st, it, decode), items + [it], decode)
  {
    ItemsSnoc(items, it);
    DeltaTextsAppend(st.events, [TextDelta(it.text)]);
    assert DeltaTexts([TextDelta(it.text)]) == DeltaTexts([]) + [it.text];
  }

  lemma {:induction false} ReadsInput(st: AnthropicState, items: seq<AnthropicItem>, it: AnthropicItem, decode: Value -> Value)
    requires !st.stopped && AnthropicReadsAs(st, items, decode) && it.InputPiece?
    requires ItemCalls(items + [it], decode) == ItemCalls(items, decode)
    ensures AnthropicReadsAs(AnthropicApply(st, it, decode), items + [it], decode)
  {
    var next := AnthropicApply(st, it, decode);
    assert next == st.(toolInput := st.toolInput + it.json);
    ItemsSnoc(items, it);
    ReadsKeep(st, next, items, items + [it], decode);
  }

  /** A move that keeps the events, the calls and whether a tool is open keeps the reading, given the open tool's state. */
  lemma {:induction false} ReadsKeep(st: AnthropicState, next: AnthropicState, items: seq<AnthropicItem>, items': seq<AnthropicItem>, decode: Value -> Value)
    requires AnthropicReadsAs(st, items, decode) && !st.stopped && !next.stopped
    requires next.events == st.events && next.calls == st.calls
    requires ItemTexts(items') == ItemTexts(items) && ItemCalls(items', decode) == ItemCalls(items, decode)
    requires ToolOpen(items') <==> ToolOpen(items)
    requires !ToolOpen(items') ==> PhpEmpty(next.toolName)
    requires ToolOpen(items') ==>
      next.toolId == items'[LastStart(items')].id && next.toolName == items'[LastStart(items')].name
      && next.toolInput == InputText(items'[LastStart(items') + 1..])
    ensures AnthropicReadsAs(next, items', decode)
  {
  }

  lemma {:induction false} ReadsBlockStop(st: AnthropicState, items: seq<AnthropicItem>, decode: Value -> Value)
    requires !st.stopped && AnthropicReadsAs(st, items, decode)
    requires ItemCalls(items + [BlockStop], decode) == ItemCalls(items, decode) + (if ToolOpen(items) then [OpenCall(items, decode)] else [])
    ensures AnthropicReadsAs(AnthropicApply(st, BlockStop, decode), items + [BlockStop], decode)
  {
    ItemsSnoc(items, BlockStop);
    if ToolOpen(items) {
      assert AnthropicApply(st, BlockStop, decode).calls == st.calls + [OpenCall(items, decode)];
    }
  }

  /** `message_stop` leaves the reading alone and closes the events. */
  lemma {:induction false} AnthropicReadsStop(st: AnthropicState, items: seq<AnthropicItem>, decode: Value -> Value)
    requires !st.stopped && AnthropicReadsAs(st, items, decode)
    ensures AnthropicReadsAs(AnthropicApply(st, MessageStop, decode), items, decode)
  {
    var closing := (if st.calls != [] then [ToolCalls(st.calls)] else []) + [Done];
    assert AnthropicApply(st, MessageStop, decode).events == st.events + closing;
    DeltaTextsAppend(st.events, closing);
    NoDeltaTexts(closing);
  }

  /**
   * The Anthropic stream against its reference reading of the lines before
   * the first `message_stop`: the text deltas are exactly the `text_delta`
   * texts (empty ones included), in order; the calls are one per
   * `content_block_stop` closing an open tool, each with the id and name of
   * the latest `tool_use` start and the `partial_json` since it decoded, or
   * `[]`; after each such stop no tool is current; and once stopped the
   * events end with `tool_calls` carrying every call (when there is one),
   * then `done`.
   */
  lemma {:induction false} AnthropicStreamContents(lines: seq<string>, decode: Value -> Value)
    ensures AnthropicReadsAs(AnthropicFold(lines, decode), LiveItems(lines, decode), decode)
  {
    if lines == [] {
      assert AnthropicFold(lines, decode) == AnthropicStart;
      assert !ToolOpen([]);
    } else {
      var init := lines[..|lines| - 1];
      var it := AnthropicItemOf(lines[|lines| - 1], decode);
      AnthropicStreamContents(init, decode);
      AnthropicFoldSnoc(lines, decode);
      AnthropicShape(init, decode);
      var prev := AnthropicFold(init, decode);
      if prev.stopped {
        assert StopIn(init, decode);
        assert LiveItems(init, decode) + [] == LiveItems(init, decode);
        assert LiveItems(lines, decode) == LiveItems(init, decode);
      } else {
        assert !StopIn(init, decode);
        if it.MessageStop? {
          assert LiveItems(init, decode) + [] == LiveItems(init, decode);
          assert LiveItems(lines, decode) == LiveItems(init, decode);
          assert AnthropicFold(lines, decode) == AnthropicApply(prev, MessageStop, decode);
          AnthropicReadsStop(prev, LiveItems(init, decode), decode);
        } else {
          AnthropicReadsStep(prev, LiveItems(init, decode), it, decode);
        }
      }
    }
  }

}
