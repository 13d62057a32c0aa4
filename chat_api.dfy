/**
 * The chat API controller: the guards in front of the agent, the writes to
 * the conversation store around it, the escalation writes the agent's tool
 * calls lead to, the escalation form, and the server-sent-event frames of
 * the streaming endpoint.
 *
 * Each action is a method over the store, proved against a function on the
 * two tables (`Db`). The clock (`now`, whole seconds), the generated session
 * id (`uuid`) and the client's IP address are parameters.
 */
module ChatApi {
  import opened Wrappers
  import opened Strings
  import opened Json
  import opened Chat
  import opened Agent
  import Provider
  import ToolRegistry
  import Tools
  import PluginSettings

  /** The two tables and their auto-increment counters. */
  datatype Db = Db(conversations: seq<Conversation>, messages: seq<Message>, nextConversationId: nat, nextMessageId: nat)

  function DbOf(store: ConversationStore): Db
    reads store
  {
    Db(store.conversations, store.messages, store.nextConversationId, store.nextMessageId)
  }

  /** `getOrCreateConversation` on the tables. */
  function Opened(db: Db, sessionId: string, pageUrl: string, ip: string): (Db, Conversation) {
    var (cs, c) := GetOrCreated(db.conversations, db.nextConversationId, sessionId, pageUrl, ip);
    var created := FindSession(db.conversations, sessionId).None?;
    (db.(conversations := cs, nextConversationId := db.nextConversationId + (if created then 1 else 0)), c)
  }

  /** `addMessage` on the tables: the new row, appended. */
  function Posted(db: Db, conversationId: nat, role: string, content: Option<string>, extras: Extras, now: int): (Db, Message) {
    var m := Message(db.nextMessageId, conversationId, role, content,
                     extras.toolCalls, extras.toolResults, extras.tokensUsed, now);
    (db.(messages := db.messages + [m], nextMessageId := db.nextMessageId + 1), m)
  }

  // ---------------------------------------------------------------------------
  // Replies and frames

  /** A JSON reply, or an HTTP exception with its status code. */
  datatype Reply = Body(json: Value) | Refused(code: nat, message: string)

  /** An SSE frame written by `_sendSSE`. */
  datatype Frame = Frame(event: string, data: Value)

  /** The bytes of a frame: an `event:` line, a `data:` line with the JSON, and a blank line. */
  function Wire(f: Frame): string {
    "event: " + f.event + "\n" + "data: " + Encode(f.data) + "\n\n"
  }

  /**
   * A frame is read back, line by line, as exactly its `event:` line, its
   * `data:` line and the blank line that ends the event, whatever follows
   * it: the JSON never breaks the line.
   */
  lemma {:induction false} WireLines(f: Frame, rest: string)
    requires '\n' !in f.event
    ensures Provider.CompleteLines(Wire(f) + rest)
         == ["event: " + f.event, "data: " + Encode(f.data), ""] + Provider.CompleteLines(rest)
  {
    var e, d := "event: " + f.event, "data: " + Encode(f.data);
    EncodeOneLine(f.data);
    assert '\n' !in e && '\n' !in d;
    assert Wire(f) == e + "\n" + d + "\n\n";
    EventLines(e, d, rest);
  }

  /** Two lines without a line break and a blank line are read back as exactly those three lines. */
  lemma {:induction false} EventLines(e: string, d: string, rest: string)
    requires '\n' !in e && '\n' !in d
    ensures Provider.CompleteLines(e + "\n" + d + "\n\n" + rest)
         == [e, d, ""] + Provider.CompleteLines(rest)
  {
    var y := "" + "\n" + rest;
    var x := d + "\n" + y;
    assert "" + "\n" + rest == "\n" + rest;
    assert "\n\n" + rest == "\n" + ("\n" + rest);
    assert e + "\n" + d + "\n\n" + rest == e + "\n" + x;
    Provider.LineThenRest(e, x);
    Provider.LineThenRest(d, y);
    Provider.LineThenRest("", rest);
    ThreeInFront(e, d, "", Provider.CompleteLines(rest));
  }

  lemma {:induction false} ThreeInFront(a: string, b: string, c: string, tail: seq<string>)
    ensures [a] + ([b] + ([c] + tail)) == [a, b, c] + tail
  {
    assert [a, b, c] == [a] + [b] + [c];
  }

  function ErrorBody(message: string): Value {
    Obj([("error", Str(message)), ("status", Str("error"))])
  }

  /** `_sendSSE('error', ['message' => ...])` followed by `_sendSSE('done', [])`. */
  function Closing(message: string): seq<Frame> {
    [Frame("error", Obj([("message", Str(message))])), Frame("done", Arr([]))]
  }

  // The reply texts below are written as concatenations of short literals:
  // whole literals make the proofs about the request pipeline far costlier.
  const NotConfigured := ("AI Agent is " + "not " + "configured.")
  /** Craft's `getRequiredBodyParam` on a missing parameter. */
  const MissingParam := ("Request " + "missing " + "required " + "body param")
  const MessageRequired := ("Message is " + "required.")
  const RateLimited := ("Rate limit " + "exceeded. " + "Please wait " + "a moment.")
  const LimitReached := ("This " + "conversation " + "has reached " + "its message " + "limit. " + "Please " + "start a new " + "conversation.")
  const StreamRequired := ("Message and " + "sessionId " + "are " + "required.")
  const StreamRateLimited := ("Rate limit " + "exceeded.")
  const FormNote := ("Escalation " + "form " + "submitted: ")

  /** `getConversationHistory`'s default limit and `getRecentMessageCount`'s default window. */
  const HistoryLimit := 20
  const RateWindow := 60

  /** The request parameters; None for a message that was not sent. */
  datatype Request = Request(message: Option<string>, sessionId: string, pageUrl: string, ip: string)

  predicate Configured(s: PluginSettings.Settings) {
    s.enabled && !PhpEmpty(s.apiKey)
  }

  // ---------------------------------------------------------------------------
  // Escalation writes

  /** How an action reads a tool call: `send` reads the agent's calls, `stream` the yielded events. */
  datatype Reader = SendReader | StreamReader

  /** `$call['name']`, or `$call['tool'] ?? $call['name'] ?? ''`. */
  function NameOf(r: Reader, call: Value): Value {
    match r
    case SendReader => Get(call, "name")
    case StreamReader => Coalesce(Coalesce(Get(call, "tool"), Get(call, "name")), Str(""))
  }

  /** `$call['arguments']['reason'] ?? ''`, or `$call['args']['reason'] ?? $call['arguments']['reason'] ?? ''`. */
  function ReasonOf(r: Reader, call: Value): Value {
    match r
    case SendReader => Coalesce(Get(Get(call, "arguments"), "reason"), Str(""))
    case StreamReader => Coalesce(Coalesce(Get(Get(call, "args"), "reason"), Get(Get(call, "arguments"), "reason")), Str(""))
  }

  /** `$name === 'escalate'`. */
  predicate IsEscalation(r: Reader, call: Value) {
    NameOf(r, call) == Str("escalate")
  }

  const ReasonTypeError := ("TypeError: " + "markEscalated(): " + "Argument #2 " + "($reason) " + "must be of " + "type " + "string, " + "array given")

  /** Passing the reason to `string $reason`: scalars are converted, an array is a TypeError. */
  function ReasonText(v: Value): Result<string> {
    if v.Arr? || v.Obj? then Fail(ReasonTypeError) else Ok(StringOf(v))
  }

  /** The conversations after the escalation loop, the reasons written, and the error that stopped it, if any. */
  datatype Writes = Writes(conversations: seq<Conversation>, reasons: seq<Value>, failure: Option<string>)

  /** The loop `foreach (... as $call) if (escalate) markEscalated($id, $reason)`. */
  function EscalationWrites(cs: seq<Conversation>, id: nat, r: Reader, calls: seq<Value>): Writes
    decreases |calls|
  {
    if calls == [] then Writes(cs, [], None)
    else
      var w := EscalationWrites(cs, id, r, calls[..|calls| - 1]);
      var call := calls[|calls| - 1];
      if w.failure.Some? || !IsEscalation(r, call) then w
      else
        match ReasonText(ReasonOf(r, call))
        case Fail(e) => w.(failure := Some(e))
        case Ok(reason) => Writes(Escalated(w.conversations, id, reason), w.reasons + [ReasonOf(r, call)], None)
  }

  /** The escalation calls, in order. */
  function EscalationCalls(r: Reader, calls: seq<Value>): seq<Value> {
    Filter(calls, c => IsEscalation(r, c))
  }

  function Reasons(r: Reader, calls: seq<Value>): seq<Value> {
    seq(|calls|, k requires 0 <= k < |calls| => ReasonOf(r, calls[k]))
  }

  /** An escalation call whose reason is an array: `markEscalated` refuses it. */
  predicate Blocked(r: Reader, call: Value) {
    IsEscalation(r, call) && ReasonText(ReasonOf(r, call)).Fail?
  }

  /** No escalation call has an array as its reason. */
  predicate ScalarReasons(r: Reader, calls: seq<Value>) {
    forall k :: 0 <= k < |calls| ==> !Blocked(r, calls[k])
  }

  lemma {:induction false} ScalarReasonsSnoc(r: Reader, calls: seq<Value>)
    requires calls != []
    ensures ScalarReasons(r, calls)
        <==> ScalarReasons(r, calls[..|calls| - 1]) && !Blocked(r, calls[|calls| - 1])
  {
    var front := calls[..|calls| - 1];
    assert forall k :: 0 <= k < |front| ==> front[k] == calls[k];
  }

  /** The loop fails exactly when some escalation call has an array as its reason. */
  lemma {:induction false} EscalationWritesFailure(cs: seq<Conversation>, id: nat, r: Reader, calls: seq<Value>)
    ensures EscalationWrites(cs, id, r, calls).failure.None? <==> ScalarReasons(r, calls)
    decreases |calls|
  {
    if calls != [] {
      var n := |calls| - 1;
      var front := calls[..n];
      EscalationWritesFailure(cs, id, r, front);
      var w := EscalationWrites(cs, id, r, front);
      assert EscalationWrites(cs, id, r, calls).failure.None? <==> w.failure.None? && !Blocked(r, calls[n]);
      ScalarReasonsSnoc(r, calls);
    }
  }

  lemma {:induction false} ReasonsSnoc(r: Reader, es: seq<Value>, x: Value)
    ensures Reasons(r, es + [x]) == Reasons(r, es) + [ReasonOf(r, x)]
  {
  }

  /** Without a failure, the reasons written are those of the escalation calls, in order. */
  lemma {:induction false} EscalationWritesReasons(cs: seq<Conversation>, id: nat, r: Reader, calls: seq<Value>)
    ensures var w := EscalationWrites(cs, id, r, calls);
      w.failure.None? ==> w.reasons == Reasons(r, EscalationCalls(r, calls))
    decreases |calls|
  {
    if calls != [] {
      var n := |calls| - 1;
      var front := calls[..n];
      EscalationWritesReasons(cs, id, r, front);
      var es := EscalationCalls(r, front);
      assert EscalationCalls(r, calls) == es + (if IsEscalation(r, calls[n]) then [calls[n]] else []);
      ReasonsSnoc(r, es, calls[n]);
    }
  }

  /** The conversations are untouched until the first write and then as the last write leaves them. */
  predicate LastWritten(cs: seq<Conversation>, id: nat, w: Writes) {
    (w.reasons == [] ==> w.conversations == cs)
    && (w.reasons != [] ==> w.conversations == Escalated(cs, id, StringOf(w.reasons[|w.reasons| - 1])))
  }

  lemma {:induction false} EscalationWritesConversations(cs: seq<Conversation>, id: nat, r: Reader, calls: seq<Value>)
    ensures LastWritten(cs, id, EscalationWrites(cs, id, r, calls))
    decreases |calls|
  {
    if calls != [] {
      var n := |calls| - 1;
      var front := calls[..n];
      EscalationWritesConversations(cs, id, r, front);
      var w := EscalationWrites(cs, id, r, front);
      var v := ReasonOf(r, calls[n]);
      if w.failure.None? && IsEscalation(r, calls[n]) && ReasonText(v).Ok? {
        assert EscalationWrites(cs, id, r, calls)
            == Writes(Escalated(w.conversations, id, ReasonText(v).value), w.reasons + [v], None);
        EscalationWriteStep(cs, id, w, v);
      } else {
        var w' := EscalationWrites(cs, id, r, calls);
        assert w'.conversations == w.conversations && w'.reasons == w.reasons;
      }
    }
  }

  /** One more write keeps the conversations as the last write leaves them. */
  lemma {:induction false} EscalationWriteStep(cs: seq<Conversation>, id: nat, w: Writes, v: Value)
    requires LastWritten(cs, id, w) && ReasonText(v).Ok?
    ensures LastWritten(cs, id, Writes(Escalated(w.conversations, id, ReasonText(v).value), w.reasons + [v], None))
  {
    var reasons := w.reasons + [v];
    assert reasons[|reasons| - 1] == v;
    assert ReasonText(v).value == StringOf(v);
    if w.reasons != [] {
      EscalatedLastWins(cs, id, StringOf(w.reasons[|w.reasons| - 1]), StringOf(v));
    }
  }

  /**
   * One write per escalation call, no deduplication: without a failing
   * reason the loop writes the reasons of exactly the escalation calls, in
   * order, and the conversation ends up as the last of them leaves it (its
   * status escalated, its metadata the last reason); with no escalation call
   * nothing changes. The loop fails exactly when some escalation call has an
   * array reason.
   */
  lemma {:induction false} EscalationWritesResult(cs: seq<Conversation>, id: nat, r: Reader, calls: seq<Value>)
    ensures var w := EscalationWrites(cs, id, r, calls);
      (w.reasons == [] ==> w.conversations == cs)
      && (w.reasons != [] ==>
            w.conversations == Escalated(cs, id, StringOf(w.reasons[|w.reasons| - 1])))
      && (w.failure.None? <==> ScalarReasons(r, calls))
      && (w.failure.None? ==> w.reasons == Reasons(r, EscalationCalls(r, calls)))
  {
    EscalationWritesConversations(cs, id, r, calls);
    EscalationWritesFailure(cs, id, r, calls);
    EscalationWritesReasons(cs, id, r, calls);
  }

  /** Once the loop has failed, the calls after that do not matter. */
  lemma {:induction false} EscalationWritesStopped(cs: seq<Conversation>, id: nat, r: Reader, calls: seq<Value>, j: nat)
    requires j <= |calls| && EscalationWrites(cs, id, r, calls[..j]).failure.Some?
    ensures EscalationWrites(cs, id, r, calls) == EscalationWrites(cs, id, r, calls[..j])
    decreases |calls|
  {
    if j < |calls| {
      var front := calls[..|calls| - 1];
      assert front[..j] == calls[..j];
      EscalationWritesStopped(cs, id, r, front, j);
      FailedStays(cs, id, r, calls, front);
    } else {
      assert calls[..j] == calls;
    }
  }

  lemma {:induction false} FailedStays(cs: seq<Conversation>, id: nat, r: Reader, calls: seq<Value>, front: seq<Value>)
    requires calls != [] && front == calls[..|calls| - 1] && EscalationWrites(cs, id, r, front).failure.Some?
    ensures EscalationWrites(cs, id, r, calls) == EscalationWrites(cs, id, r, front)
  {
  }

  /** The escalation loop over the store, stopping at the first failing reason. */
  method MarkEscalations(store: ConversationStore, id: nat, r: Reader, calls: seq<Value>) returns (w: Writes)
    requires store.Valid() && id in ConversationIds(store.conversations)
    modifies store
    ensures store.Valid() && id in ConversationIds(store.conversations)
    ensures w == EscalationWrites(old(store.conversations), id, r, calls)
    ensures store.conversations == w.conversations
    ensures store.messages == old(store.messages) && store.nextMessageId == old(store.nextMessageId)
    ensures store.nextConversationId == old(store.nextConversationId)
  {
    var cs := store.conversations;
    w := Writes(cs, [], None);
    var i := 0;
    while i < |calls| && w.failure.None?
      invariant 0 <= i <= |calls|
      invariant store.Valid() && id in ConversationIds(store.conversations)
      invariant w == EscalationWrites(cs, id, r, calls[..i])
      invariant store.conversations == w.conversations
      invariant store.messages == old(store.messages) && store.nextMessageId == old(store.nextMessageId)
      invariant store.nextConversationId == old(store.nextConversationId)
    {
      assert calls[..i + 1][..i] == calls[..i];
      var call := calls[i];
      if IsEscalation(r, call) {
        var reason := ReasonText(ReasonOf(r, call));
        if reason.Fail? {
          w := w.(failure := Some(reason.message));
        } else {
          EscalatedRows(store.conversations, id, reason.value, "");
          store.MarkEscalated(id, reason.value);
          w := Writes(store.conversations, w.reasons + [ReasonOf(r, call)], None);
        }
      }
      i := i + 1;
    }
    if w.failure.Some? {
      EscalationWritesStopped(cs, id, r, calls, i);
    } else {
      assert calls[..i] == calls;
    }
  }

  // ---------------------------------------------------------------------------
  // Tokens and extras

  /** `$step['total_tokens'] ?? 0` for one usage entry. */
  function StepTokens(step: Value): int {
    var t := Get(step, "total_tokens");
    if t.Int? then t.i else 0
  }

  function TokenSum(steps: seq<Value>): int {
    if steps == [] then 0 else TokenSum(steps[..|steps| - 1]) + StepTokens(steps[|steps| - 1])
  }

  /** The token loop over `$result['usage'] ?? []`. */
  method CountTokens(usage: Value) returns (total: int)
    ensures total == TokenSum(Elements(usage))
  {
    var steps := Elements(usage);
    total := 0;
    for i := 0 to |steps|
      invariant total == TokenSum(steps[..i])
    {
      assert steps[..i + 1][..i] == steps[..i];
      total := total + StepTokens(steps[i]);
    }
    assert steps[..|steps|] == steps;
  }

  /**
   * A two-call answer's tokens are the two steps' `total_tokens`; the
   * off-topic answer carries step 1's flat usage, whose entries are numbers,
   * so its tokens add up to 0 and are stored as null.
   */
  lemma {:induction false} TokensOfAnswer(step1: Provider.ChatResult, step2: Provider.ChatResult)
    ensures TokenSum(Elements(StepsUsage(step1, step2)))
         == StepTokens(UsageOf(step1)) + StepTokens(UsageOf(step2))
    ensures (forall k :: 0 <= k < |Elements(UsageOf(step1))| ==> !Elements(UsageOf(step1))[k].Obj?) ==>
      TokenSum(Elements(UsageOf(step1))) == 0 && StoredTokens(TokenSum(Elements(UsageOf(step1)))).None?
  {
    var steps := [UsageOf(step1), UsageOf(step2)];
    var fs := [("step1", UsageOf(step1)), ("step2", UsageOf(step2))];
    assert fs[1..] == [("step2", UsageOf(step2))] && fs[1..][1..] == [];
    assert Values(fs[1..]) == [UsageOf(step2)];
    assert Elements(StepsUsage(step1, step2)) == steps;
    assert steps[..1] == [UsageOf(step1)] && [UsageOf(step1)][..0] == [];
    assert TokenSum([UsageOf(step1)]) == StepTokens(UsageOf(step1));
    if forall k :: 0 <= k < |Elements(UsageOf(step1))| ==> !Elements(UsageOf(step1))[k].Obj? {
      ScalarSteps(Elements(UsageOf(step1)));
    }
  }

  /** Entries that are not arrays add nothing. */
  lemma {:induction false} ScalarSteps(steps: seq<Value>)
    requires forall k :: 0 <= k < |steps| ==> !steps[k].Obj?
    ensures TokenSum(steps) == 0
    decreases |steps|
  {
    if steps != [] {
      ScalarSteps(steps[..|steps| - 1]);
    }
  }

  /** `$tokensUsed ?: null`. */
  function StoredTokens(total: int): Option<int> {
    if total == 0 then None else Some(total)
  }

  /** `!empty($list) ? json_encode($list) : null`. */
  function EncodedOrNull(list: seq<Value>): Option<string> {
    if list == [] then None else Some(Encode(Arr(list)))
  }

  /** `['tool_call_id' => ..., 'name' => ..., 'result' => ...]`. */
  function ResultValue(r: ToolRegistry.ToolResult): Value {
    Obj([("tool_call_id", Str(r.toolCallId)), ("name", Str(r.name)), ("result", Str(r.result))])
  }

  function ResultValues(results: seq<ToolRegistry.ToolResult>): seq<Value> {
    seq(|results|, k requires 0 <= k < |results| => ResultValue(results[k]))
  }

  // ---------------------------------------------------------------------------
  // actionSend

  /** What `actionSend` does after the AI has answered `p`: escalations, the assistant row, the reply. */
  function Answered(db: Db, id: nat, sessionId: string, s: PluginSettings.Settings, p: Processed, now: int): (Db, Reply) {
    var w := EscalationWrites(db.conversations, id, SendReader, CallValues(p.toolCalls));
    var db3 := db.(conversations := w.conversations);
    if w.failure.Some? then (db3, Body(Failed(s, sessionId)))
    else
      var extras := Extras(EncodedOrNull(CallValues(p.toolCalls)), EncodedOrNull(ResultValues(p.toolResults)),
                           StoredTokens(TokenSum(Elements(p.usage))));
      var (db4, m) := Posted(db3, id, "assistant", Some(p.text), extras, now);
      (db4, Body(Obj([("text", Str(p.text)), ("messageId", Int(m.id)), ("sessionId", Str(sessionId)),
                      ("status", Str(if w.reasons != [] then "escalated" else "ok"))])))
  }

  /** The reply when the AI call or the writes after it throw. */
  function Failed(s: PluginSettings.Settings, sessionId: string): Value {
    Obj([("text", Str(s.errorMessage)), ("sessionId", Str(sessionId)), ("status", Str("error"))])
  }

  /** The session the request is filed under: the one sent, or a fresh UUID for an empty one. */
  function SessionFor(sessionId: string, uuid: string): string {
    if PhpEmpty(sessionId) then uuid else sessionId
  }

  /** `actionSend` with the tool table `tools`: the tables afterwards and the reply. */
  function SendAction(db: Db, d: Deps, tools: seq<Tools.Tool>, req: Request, now: int, uuid: string): (Db, Reply) {
    if !Configured(d.settings) then (db, Body(ErrorBody(NotConfigured)))
    else if req.message.None? then (db, Refused(400, MissingParam))
    else if PhpEmpty(req.message.value) then (db, Refused(400, MessageRequired))
    else Opening(db, d, tools, SessionFor(req.sessionId, uuid), req.message.value, req.pageUrl, req.ip, now)
  }

  /** `actionSend` past its guards: open the session's conversation, then admit the message. */
  function Opening(db: Db, d: Deps, tools: seq<Tools.Tool>, sessionId: string, message: string, pageUrl: string, ip: string, now: int)
    : (Db, Reply)
  {
    var (db1, c) := Opened(db, sessionId, pageUrl, ip);
    Admitted(db1, c.id, sessionId, d, tools, message, pageUrl, now)
  }

  /** The reply for a conversation at its message cap. */
  function Closed(sessionId: string): Value {
    Obj([("text", Str(LimitReached)), ("sessionId", Str(sessionId)), ("status", Str("closed"))])
  }

  /** `actionSend` once the conversation is open: the rate limit, the message cap, then the agent. */
  function Admitted(db: Db, id: nat, sessionId: string, d: Deps, tools: seq<Tools.Tool>, message: string, pageUrl: string, now: int)
    : (Db, Reply)
  {
    if RecentCount(db.conversations, db.messages, sessionId, now, RateWindow) >= d.settings.rateLimitPerMinute then
      (db, Refused(429, RateLimited))
    else if MessageCount(db.messages, id) >= d.settings.maxMessagesPerConversation then
      (db, Body(Closed(sessionId)))
    else Asked(db, id, sessionId, d, tools, message, pageUrl, now)
  }

  /** Save the user's message, ask the agent with the history that now ends with it, then record the answer. */
  function Asked(db: Db, id: nat, sessionId: string, d: Deps, tools: seq<Tools.Tool>, message: string, pageUrl: string, now: int)
    : (Db, Reply)
  {
    var (db2, _) := Posted(db, id, "user", Some(message), NoExtras, now);
    var r := ProcessSpec(d, tools, message, HistoryOf(db2.messages, id, HistoryLimit), pageUrl);
    if r.Fail? then (db2, Body(Failed(d.settings, sessionId)))
    else Answered(db2, id, sessionId, d.settings, r.value, now)
  }

  /**
   * The first guards change nothing: an unconfigured agent answers with the
   * error JSON, and a missing or PHP-empty message is a 400, before any
   * conversation is looked up.
   */
  lemma {:induction false} SendGuards(db: Db, d: Deps, tools: seq<Tools.Tool>, req: Request, now: int, uuid: string)
    ensures !Configured(d.settings) ==> SendAction(db, d, tools, req, now, uuid) == (db, Body(ErrorBody(NotConfigured)))
    ensures Configured(d.settings) && (req.message.None? || PhpEmpty(req.message.value)) ==>
      SendAction(db, d, tools, req, now, uuid).0 == db
      && SendAction(db, d, tools, req, now, uuid).1.Refused?
      && SendAction(db, d, tools, req, now, uuid).1.code == 400
  {
  }

  /** Recording an answer keeps every conversation's position, id and session, and every message already saved. */
  lemma {:induction false} AnsweredKeeps(db: Db, id: nat, sessionId: string, s: PluginSettings.Settings, p: Processed, now: int, x: string)
    ensures var db' := Answered(db, id, sessionId, s, p, now).0;
      && FindSession(db'.conversations, x) == FindSession(db.conversations, x)
      && |db'.conversations| == |db.conversations|
      && (forall i :: 0 <= i < |db.conversations| ==> db'.conversations[i].id == db.conversations[i].id)
      && |db'.messages| >= |db.messages| && db'.messages[..|db.messages|] == db.messages
  {
    var w := EscalationWrites(db.conversations, id, SendReader, CallValues(p.toolCalls));
    EscalationWritesResult(db.conversations, id, SendReader, CallValues(p.toolCalls));
    if w.reasons != [] {
      EscalatedRows(db.conversations, id, StringOf(w.reasons[|w.reasons| - 1]), x);
    }
  }

  /** Past the first guards the session's conversation exists afterwards, whatever the reply. */
  lemma {:induction false} SendOpensConversation(db: Db, d: Deps, tools: seq<Tools.Tool>, req: Request, now: int, uuid: string)
    requires UniqueSessions(db.conversations)
    requires Configured(d.settings) && req.message.Some? && !PhpEmpty(req.message.value)
    ensures var sessionId := SessionFor(req.sessionId, uuid);
      var db' := SendAction(db, d, tools, req, now, uuid).0;
      FindSession(db'.conversations, sessionId).Some?
      && db'.conversations[FindSession(db'.conversations, sessionId).value].id
         == Opened(db, sessionId, req.pageUrl, req.ip).1.id
  {
    var sessionId := SessionFor(req.sessionId, uuid);
    GetOrCreatedResult(db.conversations, db.nextConversationId, sessionId, req.pageUrl, req.ip, req.pageUrl, req.ip);
    var (db1, c) := Opened(db, sessionId, req.pageUrl, req.ip);
    assert SendAction(db, d, tools, req, now, uuid) == Admitted(db1, c.id, sessionId, d, tools, req.message.value, req.pageUrl, now);
    AdmittedKeeps(db1, c.id, sessionId, d, tools, req.message.value, req.pageUrl, now);
  }

  /** Whatever the reply, an admitted request keeps every conversation's position, id and session. */
  lemma {:induction false} AdmittedKeeps(db: Db, id: nat, sessionId: string, d: Deps, tools: seq<Tools.Tool>, message: string, pageUrl: string, now: int)
    ensures var db' := Admitted(db, id, sessionId, d, tools, message, pageUrl, now).0;
      && FindSession(db'.conversations, sessionId) == FindSession(db.conversations, sessionId)
      && |db'.conversations| == |db.conversations|
      && (forall i :: 0 <= i < |db.conversations| ==> db'.conversations[i].id == db.conversations[i].id)
  {
    var a := Admitted(db, id, sessionId, d, tools, message, pageUrl, now);
    if RecentCount(db.conversations, db.messages, sessionId, now, RateWindow) >= d.settings.rateLimitPerMinute
       || MessageCount(db.messages, id) >= d.settings.maxMessagesPerConversation {
      assert a.0 == db;
    } else {
      assert a == Asked(db, id, sessionId, d, tools, message, pageUrl, now);
      var (db2, _) := Posted(db, id, "user", Some(message), NoExtras, now);
      assert db2.conversations == db.conversations;
      var r := ProcessSpec(d, tools, message, HistoryOf(db2.messages, id, HistoryLimit), pageUrl);
      if r.Ok? {
        assert a == Answered(db2, id, sessionId, d.settings, r.value, now);
        AnsweredKeeps(db2, id, sessionId, d.settings, r.value, now, sessionId);
      } else {
        assert a.0 == db2;
      }
    }
  }

  /**
   * Rate limit, then message cap, each checked after the conversation is
   * opened: a session with `rateLimitPerMinute` or more user messages in the
   * last 60 seconds gets a 429; a conversation with
   * `maxMessagesPerConversation` or more user messages is closed. Neither
   * saves a message.
   */
  lemma {:induction false} SendLimits(db: Db, d: Deps, tools: seq<Tools.Tool>, req: Request, now: int, uuid: string)
    requires Configured(d.settings) && req.message.Some? && !PhpEmpty(req.message.value)
    ensures var sessionId := SessionFor(req.sessionId, uuid);
      var (db1, c) := Opened(db, sessionId, req.pageUrl, req.ip);
      var (db', reply) := SendAction(db, d, tools, req, now, uuid);
      (RecentCount(db1.conversations, db1.messages, sessionId, now, RateWindow) >= d.settings.rateLimitPerMinute ==>
         db' == db1 && db'.messages == db.messages && reply == Refused(429, RateLimited))
      && (RecentCount(db1.conversations, db1.messages, sessionId, now, RateWindow) < d.settings.rateLimitPerMinute
          && MessageCount(db1.messages, c.id) >= d.settings.maxMessagesPerConversation ==>
            db' == db1 && db'.messages == db.messages && reply.Body?
            && Get(reply.json, "status") == Str("closed") && Get(reply.json, "text") == Str(LimitReached))
  {
    var sessionId := SessionFor(req.sessionId, uuid);
    var (db1, c) := Opened(db, sessionId, req.pageUrl, req.ip);
    assert SendAction(db, d, tools, req, now, uuid) == Admitted(db1, c.id, sessionId, d, tools, req.message.value, req.pageUrl, now);
    ClosedReads(sessionId);
  }

  /** The closed reply carries the limit text and the closed status. */
  lemma {:induction false} ClosedReads(sessionId: string)
    ensures Get(Closed(sessionId), "status") == Str("closed") && Get(Closed(sessionId), "text") == Str(LimitReached)
  {
    var fs := [("text", Str(LimitReached)), ("sessionId", Str(sessionId)), ("status", Str("closed"))];
    LookupCons("text", Str(LimitReached), fs[1..], "status");
    LookupCons("sessionId", Str(sessionId), fs[2..], "status");
    LookupCons("status", Str("closed"), [], "status");
    LookupCons("text", Str(LimitReached), fs[1..], "text");
  }

  /** Asking saves the user's message first and keeps it, whatever the agent does. */
  lemma {:induction false} AskedSavesUserMessage(db: Db, id: nat, sessionId: string, d: Deps, tools: seq<Tools.Tool>, message: string, pageUrl: string, now: int)
    ensures var user := Message(db.nextMessageId, id, "user", Some(message), None, None, None, now);
      var (db', reply) := Asked(db, id, sessionId, d, tools, message, pageUrl, now);
      && |db'.messages| > |db.messages|
      && db'.messages[..|db.messages| + 1] == db.messages + [user]
      && (ProcessSpec(d, tools, message, HistoryOf(db.messages + [user], id, HistoryLimit), pageUrl).Fail? ==>
            db'.messages == db.messages + [user] && reply == Body(Failed(d.settings, sessionId)))
  {
    var user := Message(db.nextMessageId, id, "user", Some(message), None, None, None, now);
    var (db2, _) := Posted(db, id, "user", Some(message), NoExtras, now);
    assert db2.messages == db.messages + [user];
    assert db2.messages[..|db.messages| + 1] == db2.messages;
    var a := Asked(db, id, sessionId, d, tools, message, pageUrl, now);
    var r := ProcessSpec(d, tools, message, HistoryOf(db2.messages, id, HistoryLimit), pageUrl);
    if r.Ok? {
      assert a == Answered(db2, id, sessionId, d.settings, r.value, now);
      AnsweredKeeps(db2, id, sessionId, d.settings, r.value, now, "");
    } else {
      assert a == (db2, Body(Failed(d.settings, sessionId)));
    }
  }

  /**
   * Past every guard the user's message is saved first, at the end of the
   * table; the history the agent gets ends with it; and it stays saved when
   * the agent throws, the reply then being the error message with status
   * 'error'.
   */
  lemma {:induction false} SendSavesUserMessage(db: Db, d: Deps, tools: seq<Tools.Tool>, req: Request, now: int, uuid: string)
    requires Configured(d.settings) && req.message.Some? && !PhpEmpty(req.message.value)
    requires var sessionId := SessionFor(req.sessionId, uuid);
      var (db1, c) := Opened(db, sessionId, req.pageUrl, req.ip);
      RecentCount(db1.conversations, db1.messages, sessionId, now, RateWindow) < d.settings.rateLimitPerMinute
      && MessageCount(db1.messages, c.id) < d.settings.maxMessagesPerConversation
    ensures var sessionId := SessionFor(req.sessionId, uuid);
      var (db1, c) := Opened(db, sessionId, req.pageUrl, req.ip);
      var (db', reply) := SendAction(db, d, tools, req, now, uuid);
      var user := Message(db.nextMessageId, c.id, "user", req.message, None, None, None, now);
      var history := HistoryOf(db.messages + [user], c.id, HistoryLimit);
      && |db'.messages| > |db.messages|
      && db'.messages[..|db.messages| + 1] == db.messages + [user]
      && history != [] && history[|history| - 1] == Provider.ChatMessage("user", req.message.value)
      && (ProcessSpec(d, tools, req.message.value, history, req.pageUrl).Fail? ==>
            db'.messages == db.messages + [user] && reply == Body(Failed(d.settings, sessionId)))
  {
    var sessionId := SessionFor(req.sessionId, uuid);
    var (db1, c) := Opened(db, sessionId, req.pageUrl, req.ip);
    var user := Message(db.nextMessageId, c.id, "user", req.message, None, None, None, now);
    assert SendAction(db, d, tools, req, now, uuid) == Admitted(db1, c.id, sessionId, d, tools, req.message.value, req.pageUrl, now)
      == Asked(db1, c.id, sessionId, d, tools, req.message.value, req.pageUrl, now);
    assert db1.messages == db.messages && db1.nextMessageId == db.nextMessageId;
    HistoryAfterAppend(db.messages, user, c.id, HistoryLimit);
    AskedSavesUserMessage(db1, c.id, sessionId, d, tools, req.message.value, req.pageUrl, now);
  }

  /**
   * After a successful answer: one assistant row with the answer's text,
   * JSON-encoded calls and results (null when there are none) and the
   * tokens (null for 0); the reply carries that row's id; the status is
   * 'escalated' exactly when some call was an `escalate` call, and the
   * conversation is then left as the last escalation reason leaves it.
   */
  lemma {:induction false} SendAnswered(db: Db, id: nat, sessionId: string, s: PluginSettings.Settings, p: Processed, now: int)
    requires ScalarReasons(SendReader, CallValues(p.toolCalls))
    ensures Answered(db, id, sessionId, s, p, now).0.messages
      == db.messages + [Message(db.nextMessageId, id, "assistant", Some(p.text),
                                EncodedOrNull(CallValues(p.toolCalls)), EncodedOrNull(ResultValues(p.toolResults)),
                                StoredTokens(TokenSum(Elements(p.usage))), now)]
    ensures EncodedOrNull(CallValues(p.toolCalls)).None? <==> p.toolCalls == []
    ensures Answered(db, id, sessionId, s, p, now).1.Body?
    ensures Get(Answered(db, id, sessionId, s, p, now).1.json, "messageId") == Int(db.nextMessageId)
    ensures Get(Answered(db, id, sessionId, s, p, now).1.json, "status") == Str("escalated") <==> EscalationCalls(SendReader, CallValues(p.toolCalls)) != []
    ensures EscalationCalls(SendReader, CallValues(p.toolCalls)) == [] ==> Answered(db, id, sessionId, s, p, now).0.conversations == db.conversations
    ensures EscalationCalls(SendReader, CallValues(p.toolCalls)) != [] ==>
      Answered(db, id, sessionId, s, p, now).0.conversations
      == Escalated(db.conversations, id, StringOf(ReasonOf(SendReader, EscalationCalls(SendReader, CallValues(p.toolCalls))[|EscalationCalls(SendReader, CallValues(p.toolCalls))| - 1])))
  {
    AnsweredMessage(db, id, sessionId, s, p, now);
    AnsweredStatus(db, id, sessionId, s, p, now);
  }

  lemma {:induction false} AnsweredMessage(db: Db, id: nat, sessionId: string, s: PluginSettings.Settings, p: Processed, now: int)
    requires ScalarReasons(SendReader, CallValues(p.toolCalls))
    ensures Answered(db, id, sessionId, s, p, now).0.messages
      == db.messages + [Message(db.nextMessageId, id, "assistant", Some(p.text),
                                EncodedOrNull(CallValues(p.toolCalls)), EncodedOrNull(ResultValues(p.toolResults)),
                                StoredTokens(TokenSum(Elements(p.usage))), now)]
    ensures EncodedOrNull(CallValues(p.toolCalls)).None? <==> p.toolCalls == []
    ensures Answered(db, id, sessionId, s, p, now).1.Body?
    ensures Get(Answered(db, id, sessionId, s, p, now).1.json, "messageId") == Int(db.nextMessageId)
  {
    var w := EscalationWrites(db.conversations, id, SendReader, CallValues(p.toolCalls));
    EscalationWritesResult(db.conversations, id, SendReader, CallValues(p.toolCalls));
    AnsweredRow(db, id, sessionId, s, p, now, w);
    AnswerFields(p.text, db.nextMessageId, sessionId, Str(if w.reasons != [] then "escalated" else "ok"));
    assert |CallValues(p.toolCalls)| == |p.toolCalls|;
  }

  lemma {:induction false} AnsweredStatus(db: Db, id: nat, sessionId: string, s: PluginSettings.Settings, p: Processed, now: int)
    requires ScalarReasons(SendReader, CallValues(p.toolCalls))
    ensures Answered(db, id, sessionId, s, p, now).1.Body?
    ensures Get(Answered(db, id, sessionId, s, p, now).1.json, "status") == Str("escalated") <==> EscalationCalls(SendReader, CallValues(p.toolCalls)) != []
    ensures EscalationCalls(SendReader, CallValues(p.toolCalls)) == [] ==> Answered(db, id, sessionId, s, p, now).0.conversations == db.conversations
    ensures EscalationCalls(SendReader, CallValues(p.toolCalls)) != [] ==>
      Answered(db, id, sessionId, s, p, now).0.conversations
      == Escalated(db.conversations, id, StringOf(ReasonOf(SendReader, EscalationCalls(SendReader, CallValues(p.toolCalls))[|EscalationCalls(SendReader, CallValues(p.toolCalls))| - 1])))
  {
    var calls := CallValues(p.toolCalls);
    EscalationWritesResult(db.conversations, id, SendReader, calls);
    var w := EscalationWrites(db.conversations, id, SendReader, calls);
    var escalations := EscalationCalls(SendReader, calls);
    assert |w.reasons| == |escalations|;
    assert escalations != [] ==> w.reasons[|w.reasons| - 1] == ReasonOf(SendReader, escalations[|escalations| - 1]);
    AnsweredRow(db, id, sessionId, s, p, now, w);
    AnswerFields(p.text, db.nextMessageId, sessionId, Str(if w.reasons != [] then "escalated" else "ok"));
  }

  /** With the escalation writes `w` done, the answer appends the assistant row and replies with its id. */
  lemma {:induction false} AnsweredRow(db: Db, id: nat, sessionId: string, s: PluginSettings.Settings, p: Processed, now: int, w: Writes)
    requires w == EscalationWrites(db.conversations, id, SendReader, CallValues(p.toolCalls)) && w.failure.None?
    ensures Answered(db, id, sessionId, s, p, now)
      == (db.(conversations := w.conversations,
              messages := db.messages + [Message(db.nextMessageId, id, "assistant", Some(p.text),
                                                 EncodedOrNull(CallValues(p.toolCalls)), EncodedOrNull(ResultValues(p.toolResults)),
                                                 StoredTokens(TokenSum(Elements(p.usage))), now)],
              nextMessageId := db.nextMessageId + 1),
          Body(Obj([("text", Str(p.text)), ("messageId", Int(db.nextMessageId)), ("sessionId", Str(sessionId)),
                    ("status", Str(if w.reasons != [] then "escalated" else "ok"))])))
  {
  }

  /** The answer's JSON reads back its message id and its status. */
  lemma {:induction false} AnswerFields(text: string, messageId: nat, sessionId: string, status: Value)
    ensures var reply := Obj([("text", Str(text)), ("messageId", Int(messageId)), ("sessionId", Str(sessionId)), ("status", status)]);
      Get(reply, "messageId") == Int(messageId) && Get(reply, "status") == status
  {
    var fs := [("text", Str(text)), ("messageId", Int(messageId)), ("sessionId", Str(sessionId)), ("status", status)];
    LookupCons("text", Str(text), fs[1..], "messageId");
    LookupCons("messageId", Int(messageId), fs[2..], "messageId");
    LookupCons("text", Str(text), fs[1..], "status");
    LookupCons("messageId", Int(messageId), fs[2..], "status");
    LookupCons("sessionId", Str(sessionId), fs[3..], "status");
    LookupCons("status", status, [], "status");
  }

  /** `actionSend`: the guards, then open the session's conversation. */
  method ActionSend(store: ConversationStore, registry: ToolRegistry.Registry, d: Deps, req: Request, now: int, uuid: string)
    returns (reply: Reply)
    requires store.Valid()
    modifies store
    ensures store.Valid()
    ensures (DbOf(store), reply) == SendAction(old(DbOf(store)), d, registry.tools, req, now, uuid)
  {
    var s := d.settings;
    if !s.enabled || PhpEmpty(s.apiKey) {
      return Body(ErrorBody(NotConfigured));
    }
    if req.message.None? {
      return Refused(400, MissingParam);
    }
    var message := req.message.value;
    if PhpEmpty(message) {
      return Refused(400, MessageRequired);
    }
    var sessionId := req.sessionId;
    if PhpEmpty(sessionId) {
      sessionId := uuid;
    }
    reply := SendOpening(store, registry, d, sessionId, message, req.pageUrl, req.ip, now);
  }

  /** Open the session's conversation, then the rest of `actionSend`. */
  method SendOpening(store: ConversationStore, registry: ToolRegistry.Registry, d: Deps, sessionId: string,
                     message: string, pageUrl: string, ip: string, now: int)
    returns (reply: Reply)
    requires store.Valid()
    modifies store
    ensures store.Valid()
    ensures (DbOf(store), reply) == Opening(old(DbOf(store)), d, registry.tools, sessionId, message, pageUrl, ip, now)
  {
    ghost var db := DbOf(store);
    var c := store.GetOrCreateConversation(sessionId, pageUrl, ip);
    assert (DbOf(store), c) == Opened(db, sessionId, pageUrl, ip);
    assert c.id in ConversationIds(store.conversations);
    reply := SendAdmitted(store, registry, d, c.id, sessionId, message, pageUrl, now);
  }

  /** The limits, the user's message, the history and the agent. */
  method SendAdmitted(store: ConversationStore, registry: ToolRegistry.Registry, d: Deps, id: nat, sessionId: string,
                      message: string, pageUrl: string, now: int)
    returns (reply: Reply)
    requires store.Valid() && id in ConversationIds(store.conversations)
    modifies store
    ensures store.Valid()
    ensures (DbOf(store), reply) == Admitted(old(DbOf(store)), id, sessionId, d, registry.tools, message, pageUrl, now)
  {
    var s := d.settings;
    if RecentCount(store.conversations, store.messages, sessionId, now, RateWindow) >= s.rateLimitPerMinute {
      return Refused(429, RateLimited);
    }
    if MessageCount(store.messages, id) >= s.maxMessagesPerConversation {
      return Body(Closed(sessionId));
    }
    ghost var db := DbOf(store);
    var _ := store.AddMessage(id, "user", Some(message), NoExtras, now);
    assert DbOf(store) == Posted(db, id, "user", Some(message), NoExtras, now).0;
    var history := store.GetConversationHistory(id, HistoryLimit);
    var result := ProcessMessage(registry, d, message, history, pageUrl);
    if result.Fail? {
      return Body(Failed(s, sessionId));
    }
    reply := SendAnswer(store, id, sessionId, s, result.value, now);
  }

  /** The part of `actionSend`'s `try` block after `processMessage`. */
  method SendAnswer(store: ConversationStore, id: nat, sessionId: string, s: PluginSettings.Settings, p: Processed, now: int)
    returns (reply: Reply)
    requires store.Valid() && id in ConversationIds(store.conversations)
    modifies store
    ensures store.Valid()
    ensures (DbOf(store), reply) == Answered(old(DbOf(store)), id, sessionId, s, p, now)
  {
    ghost var db := DbOf(store);
    var w := MarkEscalations(store, id, SendReader, CallValues(p.toolCalls));
    assert DbOf(store) == db.(conversations := w.conversations);
    if w.failure.Some? {
      return Body(Failed(s, sessionId));
    }
    var tokens := CountTokens(p.usage);
    var extras := Extras(EncodedOrNull(CallValues(p.toolCalls)), EncodedOrNull(ResultValues(p.toolResults)), StoredTokens(tokens));
    ghost var db3 := DbOf(store);
    var m := store.AddMessage(id, "assistant", Some(p.text), extras, now);
    assert (DbOf(store), m) == Posted(db3, id, "assistant", Some(p.text), extras, now);
    reply := Body(Obj([("text", Str(p.text)), ("messageId", Int(m.id)), ("sessionId", Str(sessionId)),
                       ("status", Str(if w.reasons != [] then "escalated" else "ok"))]));
  }

  // ---------------------------------------------------------------------------
  // actionStream

  /** What the event loop has gathered: the text, the calls, the results, and the frames sent. */
  datatype Collected = Collected(fullText: string, calls: seq<Value>, results: seq<Value>, frames: seq<Frame>)

  /** One pass of the `switch` on the event's type. */
  function Received(c: Collected, e: StreamEvent): Collected {
    if e.kind == "text_delta" then
      c.(fullText := c.fullText + StringOf(e.data), frames := c.frames + [Frame("token", Obj([("delta", e.data)]))])
    else if e.kind == "tool_call" then
      c.(calls := c.calls + [e.data], frames := c.frames + [Frame("tool_call", e.data)])
    else if e.kind == "tool_result" then
      c.(results := c.results + [e.data], frames := c.frames + [Frame("tool_result", e.data)])
    else if e.kind == "done" then
      c.(calls := if Get(e.data, "tool_calls") != Null then Elements(Get(e.data, "tool_calls")) else c.calls,
         results := if Get(e.data, "tool_results") != Null then Elements(Get(e.data, "tool_results")) else c.results)
    else c
  }

  function Collect(events: seq<StreamEvent>): Collected {
    if events == [] then Collected("", [], [], [])
    else Received(Collect(events[..|events| - 1]), events[|events| - 1])
  }

  /** The text deltas, in order. */
  function Deltas(events: seq<StreamEvent>): seq<string> {
    if events == [] then []
    else
      var e := events[|events| - 1];
      Deltas(events[..|events| - 1]) + (if e.kind == "text_delta" then [StringOf(e.data)] else [])
  }

  /**
   * The text the stream saves is the in-order concatenation of the
   * `text_delta` payloads, and there is one `token` frame per delta before
   * anything else is sent.
   */
  lemma {:induction false} CollectText(events: seq<StreamEvent>)
    ensures Collect(events).fullText == Provider.Concat(Deltas(events))
    ensures |Collect(events).frames| >= |Deltas(events)|
    decreases |events|
  {
    if events != [] {
      var n := |events| - 1;
      CollectText(events[..n]);
      if events[n].kind == "text_delta" {
        var ds := Deltas(events[..n]) + [StringOf(events[n].data)];
        assert ds[..|ds| - 1] == Deltas(events[..n]);
        assert Deltas(events) == ds;
        assert Provider.Concat(ds) == Provider.Concat(Deltas(events[..n])) + StringOf(events[n].data);
      } else {
        assert Deltas(events) == Deltas(events[..n]) + [];
        assert Deltas(events[..n]) + [] == Deltas(events[..n]);
      }
    }
  }

  /** `['escalation', ['reason' => $reason]]` per escalation written. */
  function EscalationFrames(reasons: seq<Value>): seq<Frame> {
    seq(|reasons|, k requires 0 <= k < |reasons| => Frame("escalation", Obj([("reason", reasons[k])])))
  }

  /** What `actionStream` does once the generator has finished or thrown. */
  function Streamed(db: Db, id: nat, s: PluginSettings.Settings, col: Collected, failure: Option<string>, now: int)
    : (Db, seq<Frame>)
  {
    if failure.Some? then (db, col.frames + Closing(s.errorMessage))
    else
      var w := EscalationWrites(db.conversations, id, StreamReader, col.calls);
      var frames := col.frames + EscalationFrames(w.reasons);
      var db3 := db.(conversations := w.conversations);
      if w.failure.Some? then (db3, frames + Closing(s.errorMessage))
      else
        var extras := Extras(EncodedOrNull(col.calls), EncodedOrNull(col.results), None);
        var (db4, m) := Posted(db3, id, "assistant", Some(col.fullText), extras, now);
        (db4, frames + [Frame("done", Obj([("messageId", Int(m.id))]))])
  }

  /** `actionStream` with the tool table `tools`: the tables afterwards and the frames sent. */
  function StreamAction(db: Db, d: Deps, tools: seq<Tools.Tool>, req: Request, now: int): (Db, seq<Frame>) {
    var message := if req.message.Some? then req.message.value else "";
    if !Configured(d.settings) then (db, Closing(NotConfigured))
    else if PhpEmpty(message) || PhpEmpty(req.sessionId) then (db, Closing(StreamRequired))
    else StreamOpening(db, d, tools, req.sessionId, message, req.pageUrl, req.ip, now)
  }

  /** `actionStream` past its guards: open the session's conversation, then admit the message. */
  function StreamOpening(db: Db, d: Deps, tools: seq<Tools.Tool>, sessionId: string, message: string, pageUrl: string, ip: string, now: int)
    : (Db, seq<Frame>)
  {
    var (db1, c) := Opened(db, sessionId, pageUrl, ip);
    StreamAdmitted(db1, c.id, sessionId, d, tools, message, pageUrl, now)
  }

  /** `actionStream` once the conversation is open: the rate limit, the user's message, the generator. */
  function StreamAdmitted(db: Db, id: nat, sessionId: string, d: Deps, tools: seq<Tools.Tool>, message: string, pageUrl: string, now: int)
    : (Db, seq<Frame>)
  {
    if RecentCount(db.conversations, db.messages, sessionId, now, RateWindow) >= d.settings.rateLimitPerMinute then
      (db, Closing(StreamRateLimited))
    else
      var (db2, _) := Posted(db, id, "user", Some(message), NoExtras, now);
      var out := StreamSpec(d, tools, message, HistoryOf(db2.messages, id, HistoryLimit), pageUrl);
      Streamed(db2, id, d.settings, Collect(out.events), out.failure, now)
  }

  /** Finishing a stream keeps every message already saved. */
  lemma {:induction false} StreamedKeeps(db: Db, id: nat, s: PluginSettings.Settings, col: Collected, failure: Option<string>, now: int)
    ensures var db' := Streamed(db, id, s, col, failure, now).0;
      |db'.messages| >= |db.messages| && db'.messages[..|db.messages|] == db.messages
  {
  }

  /**
   * Each refusal is an error frame then an empty `done`; the first two
   * change nothing, the rate limit leaves only the opened conversation.
   * There is no message cap: past the rate limit the user message is saved
   * first, whatever the conversation's count.
   */
  lemma {:induction false} StreamGuards(db: Db, d: Deps, tools: seq<Tools.Tool>, req: Request, now: int)
    ensures !Configured(d.settings) ==> StreamAction(db, d, tools, req, now) == (db, Closing(NotConfigured))
    ensures Configured(d.settings) && (req.message.None? || PhpEmpty(req.message.value) || PhpEmpty(req.sessionId)) ==>
      StreamAction(db, d, tools, req, now) == (db, Closing(StreamRequired))
    ensures Configured(d.settings) && req.message.Some? && !PhpEmpty(req.message.value) && !PhpEmpty(req.sessionId) ==>
      var (db1, c) := Opened(db, req.sessionId, req.pageUrl, req.ip);
      var (db', frames) := StreamAction(db, d, tools, req, now);
      if RecentCount(db1.conversations, db1.messages, req.sessionId, now, RateWindow) >= d.settings.rateLimitPerMinute
      then db' == db1 && frames == Closing(StreamRateLimited)
      else |db'.messages| > |db.messages|
           && db'.messages[|db.messages|] == Message(db.nextMessageId, c.id, "user", req.message, None, None, None, now)
  {
    if Configured(d.settings) && req.message.Some? && !PhpEmpty(req.message.value) && !PhpEmpty(req.sessionId) {
      var message := req.message.value;
      var (db1, c) := Opened(db, req.sessionId, req.pageUrl, req.ip);
      if RecentCount(db1.conversations, db1.messages, req.sessionId, now, RateWindow) < d.settings.rateLimitPerMinute {
        var (db2, _) := Posted(db1, c.id, "user", Some(message), NoExtras, now);
        var out := StreamSpec(d, tools, message, HistoryOf(db2.messages, c.id, HistoryLimit), req.pageUrl);
        StreamedKeeps(db2, c.id, d.settings, Collect(out.events), out.failure, now);
        var db' := Streamed(db2, c.id, d.settings, Collect(out.events), out.failure, now).0;
        assert db'.messages[|db.messages|] == db'.messages[..|db2.messages|][|db.messages|];
      }
    }
  }

  /**
   * After the generator ends: an exception sends the error message and
   * saves nothing more; otherwise the escalation writes come after every
   * event frame, one `escalation` frame per write, and the assistant row
   * holds the gathered text, with a final `done` carrying its id.
   */
  lemma {:induction false} StreamFinish(db: Db, id: nat, s: PluginSettings.Settings, col: Collected, failure: Option<string>, now: int)
    ensures failure.Some? ==> Streamed(db, id, s, col, failure, now) == (db, col.frames + Closing(s.errorMessage))
    ensures failure.None? && ScalarReasons(StreamReader, col.calls) ==>
      var (db', frames) := Streamed(db, id, s, col, failure, now);
      var reasons := Reasons(StreamReader, EscalationCalls(StreamReader, col.calls));
      && frames == col.frames + EscalationFrames(reasons) + [Frame("done", Obj([("messageId", Int(db.nextMessageId))]))]
      && |db'.messages| == |db.messages| + 1
      && db'.messages[|db.messages|].content == Some(col.fullText)
      && db'.messages[|db.messages|].role == "assistant"
      && (reasons == [] ==> db'.conversations == db.conversations)
  {
    EscalationWritesResult(db.conversations, id, StreamReader, col.calls);
  }

  /**
   * An off-topic reply streams as one `token` frame with the fallback text,
   * saves that text with no calls and no results, and ends with `done`.
   */
  lemma {:induction false} StreamOffTopic(db: Db, id: nat, s: PluginSettings.Settings, now: int)
    ensures var col := Collect([StreamEvent("text_delta", Str(s.fallbackMessage)), OffTopicDone]);
      && col == Collected(s.fallbackMessage, [], [], [Frame("token", Obj([("delta", Str(s.fallbackMessage))]))])
      && Streamed(db, id, s, col, None, now).1
         == [Frame("token", Obj([("delta", Str(s.fallbackMessage))])), Frame("done", Obj([("messageId", Int(db.nextMessageId))]))]
      && Streamed(db, id, s, col, None, now).0.messages
         == db.messages + [Message(db.nextMessageId, id, "assistant", Some(s.fallbackMessage), None, None, None, now)]
  {
    var es := [StreamEvent("text_delta", Str(s.fallbackMessage)), OffTopicDone];
    assert es[..1] == [es[0]] && [es[0]][..0] == [];
    var donefs := [("tool_calls", Arr([])), ("tool_results", Arr([]))];
    LookupCons("tool_calls", Arr([]), donefs[1..], "tool_calls");
    LookupCons("tool_calls", Arr([]), donefs[1..], "tool_results");
    LookupCons("tool_results", Arr([]), [], "tool_results");
    var first := Received(Collected("", [], [], []), es[0]);
    assert Collect(es[..1]) == first;
    assert first == Collected("" + s.fallbackMessage, [], [], [Frame("token", Obj([("delta", Str(s.fallbackMessage))]))]);
    assert "" + s.fallbackMessage == s.fallbackMessage;
    assert Collect(es) == Received(first, OffTopicDone);
    assert Elements(Arr([])) == [];
    assert EscalationWrites(db.conversations, id, StreamReader, []) == Writes(db.conversations, [], None);
  }

  /** `actionStream`: the guards, the user message, the event loop, the escalations, the assistant message. */
  method ActionStream(store: ConversationStore, registry: ToolRegistry.Registry, d: Deps, req: Request, now: int)
    returns (frames: seq<Frame>)
    requires store.Valid()
    modifies store
    ensures store.Valid()
    ensures (DbOf(store), frames) == StreamAction(old(DbOf(store)), d, registry.tools, req, now)
  {
    var s := d.settings;
    var message := if req.message.Some? then req.message.value else "";
    if !s.enabled || PhpEmpty(s.apiKey) {
      return Closing(NotConfigured);
    }
    if PhpEmpty(message) || PhpEmpty(req.sessionId) {
      return Closing(StreamRequired);
    }
    frames := StreamOpeningRun(store, registry, d, req.sessionId, message, req.pageUrl, req.ip, now);
  }

  /** Open the session's conversation, then the rest of `actionStream`. */
  method StreamOpeningRun(store: ConversationStore, registry: ToolRegistry.Registry, d: Deps, sessionId: string,
                          message: string, pageUrl: string, ip: string, now: int)
    returns (frames: seq<Frame>)
    requires store.Valid()
    modifies store
    ensures store.Valid()
    ensures (DbOf(store), frames) == StreamOpening(old(DbOf(store)), d, registry.tools, sessionId, message, pageUrl, ip, now)
  {
    ghost var db := DbOf(store);
    var c := store.GetOrCreateConversation(sessionId, pageUrl, ip);
    assert (DbOf(store), c) == Opened(db, sessionId, pageUrl, ip);
    assert c.id in ConversationIds(store.conversations);
    frames := StreamAdmittedRun(store, registry, d, c.id, sessionId, message, pageUrl, now);
  }

  /** The rate limit, the user's message, the history, the event loop and what follows it. */
  method StreamAdmittedRun(store: ConversationStore, registry: ToolRegistry.Registry, d: Deps, id: nat, sessionId: string,
                           message: string, pageUrl: string, now: int)
    returns (frames: seq<Frame>)
    requires store.Valid() && id in ConversationIds(store.conversations)
    modifies store
    ensures store.Valid()
    ensures (DbOf(store), frames) == StreamAdmitted(old(DbOf(store)), id, sessionId, d, registry.tools, message, pageUrl, now)
  {
    if RecentCount(store.conversations, store.messages, sessionId, now, RateWindow) >= d.settings.rateLimitPerMinute {
      return Closing(StreamRateLimited);
    }
    ghost var db := DbOf(store);
    var _ := store.AddMessage(id, "user", Some(message), NoExtras, now);
    assert DbOf(store) == Posted(db, id, "user", Some(message), NoExtras, now).0;
    var history := store.GetConversationHistory(id, HistoryLimit);
    var out := ProcessMessageStreaming(registry, d, message, history, pageUrl);
    var col := Relay(out.events);
    frames := StreamRest(store, id, d.settings, col, out.failure, now);
  }

  /** The `foreach` over the generator: gather text, calls and results, and send the frames. */
  method Relay(events: seq<StreamEvent>) returns (col: Collected)
    ensures col == Collect(events)
  {
    var fullText, calls, results, frames := "", [], [], [];
    for i := 0 to |events|
      invariant Collected(fullText, calls, results, frames) == Collect(events[..i])
    {
      assert events[..i + 1][..i] == events[..i];
      var e := events[i];
      if e.kind == "text_delta" {
        fullText := fullText + StringOf(e.data);
        frames := frames + [Frame("token", Obj([("delta", e.data)]))];
      } else if e.kind == "tool_call" {
        calls := calls + [e.data];
        frames := frames + [Frame("tool_call", e.data)];
      } else if e.kind == "tool_result" {
        results := results + [e.data];
        frames := frames + [Frame("tool_result", e.data)];
      } else if e.kind == "done" {
        if Get(e.data, "tool_calls") != Null {
          calls := Elements(Get(e.data, "tool_calls"));
        }
        if Get(e.data, "tool_results") != Null {
          results := Elements(Get(e.data, "tool_results"));
        }
      }
    }
    assert events[..|events|] == events;
    col := Collected(fullText, calls, results, frames);
  }

  /** The rest of `actionStream` after the event loop. */
  method StreamRest(store: ConversationStore, id: nat, s: PluginSettings.Settings, col: Collected, failure: Option<string>, now: int)
    returns (frames: seq<Frame>)
    requires store.Valid() && id in ConversationIds(store.conversations)
    modifies store
    ensures store.Valid()
    ensures (DbOf(store), frames) == Streamed(old(DbOf(store)), id, s, col, failure, now)
  {
    if failure.Some? {
      return col.frames + Closing(s.errorMessage);
    }
    var w := MarkEscalations(store, id, StreamReader, col.calls);
    frames := col.frames + EscalationFrames(w.reasons);
    if w.failure.Some? {
      return frames + Closing(s.errorMessage);
    }
    var m := store.AddMessage(id, "assistant", Some(col.fullText), Extras(EncodedOrNull(col.calls), EncodedOrNull(col.results), None), now);
    frames := frames + [Frame("done", Obj([("messageId", Int(m.id))]))];
  }

  // ---------------------------------------------------------------------------
  // actionEscalate

  /** `$metadata['contact'] = $contactData` on the decoded metadata, `[]` for null. */
  function WithContact(metadata: Value, contact: Value): Value {
    match metadata
    case Obj(fs) => Obj(Put(fs, "contact", contact))
    case _ => Obj([("contact", contact)])
  }

  /** `actionEscalate`: the tables afterwards and the reply. */
  function EscalateAction(db: Db, s: PluginSettings.Settings, sessionId: string, contact: Value, now: int): (Db, Reply) {
    if PhpEmpty(sessionId) then (db, Body(ErrorBody(("Session ID " + "required."))))
    else
      match FindSession(db.conversations, sessionId)
      case None => (db, Body(ErrorBody(("Conversation " + "not found."))))
      case Some(k) =>
        var c := db.conversations[k];
        var c' := c.(metadata := WithContact(c.metadata, contact), status := "escalated");
        var db1 := db.(conversations := db.conversations[k := c']);
        var (db2, _) := Posted(db1, c.id, "system", Some(FormNote + Encode(contact)), NoExtras, now);
        (db2, Body(Obj([("status", Str("ok")), ("confirmation", Str(s.escalationConfirmation))])))
  }

  /**
   * A missing session id or an unknown session changes nothing. Otherwise
   * the session's conversation becomes escalated, its metadata keeps every
   * other key and gains `contact`, no other conversation changes, and one
   * system message recording the form is appended.
   */
  lemma {:induction false} EscalateResult(db: Db, s: PluginSettings.Settings, sessionId: string, contact: Value, now: int, key: string)
    requires key != "contact"
    ensures PhpEmpty(sessionId) || FindSession(db.conversations, sessionId).None? ==>
      EscalateAction(db, s, sessionId, contact, now).0 == db
      && Get(EscalateAction(db, s, sessionId, contact, now).1.json, "status") == Str("error")
    ensures !PhpEmpty(sessionId) && FindSession(db.conversations, sessionId).Some? ==>
      var k := FindSession(db.conversations, sessionId).value;
      var c := db.conversations[k];
      var (db', reply) := EscalateAction(db, s, sessionId, contact, now);
      && |db'.conversations| == |db.conversations|
      && (forall j :: 0 <= j < |db.conversations| && j != k ==> db'.conversations[j] == db.conversations[j])
      && db'.conversations[k].status == "escalated"
      && db'.conversations[k].id == c.id && db'.conversations[k].sessionId == sessionId
      && Get(db'.conversations[k].metadata, "contact") == contact
      && (c.metadata.Obj? ==> Get(db'.conversations[k].metadata, key) == Get(c.metadata, key))
      && db'.messages == db.messages + [Message(db.nextMessageId, c.id, "system", Some(FormNote + Encode(contact)), None, None, None, now)]
      && reply == Body(Obj([("status", Str("ok")), ("confirmation", Str(s.escalationConfirmation))]))
  {
    LookupCons("error", Str(("Session ID " + "required.")), [("status", Str("error"))], "status");
    LookupCons("error", Str(("Conversation " + "not found.")), [("status", Str("error"))], "status");
    LookupCons("status", Str("error"), [], "status");
    if !PhpEmpty(sessionId) && FindSession(db.conversations, sessionId).Some? {
      var c := db.conversations[FindSession(db.conversations, sessionId).value];
      if c.metadata.Obj? {
        PutLookup(c.metadata.fields, "contact", contact, key);
      } else {
        LookupCons("contact", contact, [], "contact");
      }
    }
  }

  /** `actionEscalate` over the store. */
  method ActionEscalate(store: ConversationStore, s: PluginSettings.Settings, sessionId: string, contact: Value, now: int)
    returns (reply: Reply)
    requires store.Valid()
    modifies store
    ensures store.Valid()
    ensures (DbOf(store), reply) == EscalateAction(old(DbOf(store)), s, sessionId, contact, now)
  {
    if PhpEmpty(sessionId) {
      return Body(ErrorBody(("Session ID " + "required.")));
    }
    var k := FindSession(store.conversations, sessionId);
    if k.None? {
      return Body(ErrorBody(("Conversation " + "not found.")));
    }
    var c := store.conversations[k.value];
    var c' := c.(metadata := WithContact(c.metadata, contact), status := "escalated");
    store.SaveConversation(k.value, c');
    assert store.conversations[k.value] == c';
    assert store.conversations[k.value] in store.conversations;
    var _ := store.AddMessage(c.id, "system", Some(FormNote + Encode(contact)), NoExtras, now);
    reply := Body(Obj([("status", Str("ok")), ("confirmation", Str(s.escalationConfirmation))]));
  }
}
