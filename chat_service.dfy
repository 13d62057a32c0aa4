/**
 * The conversation store behind the chat service: conversations keyed by
 * a unique session id, append-only messages, the history window handed to
 * the agent, the counts the request guards read, and the escalation write.
 *
 * Time is a parameter (whole seconds); the database's ordering by
 * `dateCreated` is taken to be insertion order.
 */
module Chat {
  import opened Wrappers
  import opened Strings
  import opened Json
  import opened Provider

  /** A conversation row; `metadata` is the decoded JSON document, Null for SQL null. */
  datatype Conversation = Conversation(
    id: nat, sessionId: string, pageUrl: Option<string>, ipAddress: Option<string>,
    status: string, metadata: Value)

  /** The optional columns `addMessage` takes from `$extras`. */
  datatype Extras = Extras(toolCalls: Option<string>, toolResults: Option<string>, tokensUsed: Option<int>)

  const NoExtras := Extras(None, None, None)

  datatype Message = Message(
    id: nat, conversationId: nat, role: string, content: Option<string>,
    toolCalls: Option<string>, toolResults: Option<string>, tokensUsed: Option<int>,
    dateCreated: int)

  // ---------------------------------------------------------------------------
  // Conversations

  /** `$s ?: null`. */
  function OrNull(s: string): Option<string> {
    if PhpEmpty(s) then None else Some(s)
  }

  function NewConversation(id: nat, sessionId: string, pageUrl: string, ip: string): Conversation {
    Conversation(id, sessionId, OrNull(pageUrl), OrNull(ip), "active", Null)
  }

  /** The unique session index of the conversations table. */
  predicate UniqueSessions(cs: seq<Conversation>) {
    forall i, j :: 0 <= i < j < |cs| ==> cs[i].sessionId != cs[j].sessionId
  }

  predicate UniqueIds(cs: seq<Conversation>) {
    forall i, j :: 0 <= i < j < |cs| ==> cs[i].id != cs[j].id
  }

  function ConversationIds(cs: seq<Conversation>): set<nat> {
    set c | c in cs :: c.id
  }

  /** `ConversationRecord::find()->where(['sessionId' => $sessionId])->one()`: the position of the row, if any. */
  function FindSession(cs: seq<Conversation>, sessionId: string): (r: Option<nat>)
    ensures r.Some? ==> r.value < |cs| && cs[r.value].sessionId == sessionId
    ensures r.None? <==> forall k :: 0 <= k < |cs| ==> cs[k].sessionId != sessionId
  {
    if cs == [] then None
    else if cs[|cs| - 1].sessionId == sessionId then Some(|cs| - 1)
    else FindSession(cs[..|cs| - 1], sessionId)
  }

  /** The session of the conversation with that id, as the messages-to-conversations join sees it. */
  function SessionOf(cs: seq<Conversation>, id: nat): Option<string> {
    if cs == [] then None
    else if cs[|cs| - 1].id == id then Some(cs[|cs| - 1].sessionId)
    else SessionOf(cs[..|cs| - 1], id)
  }

  /**
   * `getOrCreateConversation` on a table with next id `nextId`: the table
   * afterwards and the record returned.
   */
  function GetOrCreated(cs: seq<Conversation>, nextId: nat, sessionId: string, pageUrl: string, ip: string)
    : (seq<Conversation>, Conversation)
  {
    match FindSession(cs, sessionId)
    case Some(k) => (cs, cs[k])
    case None =>
      var c := NewConversation(nextId, sessionId, pageUrl, ip);
      (cs + [c], c)
  }

  /**
   * A known session gets its record back unchanged (page and IP are not
   * updated) and the table stays as it is; an unknown one gets a new active
   * record, with empty page or IP stored as null, appended at the end. The
   * session index stays unique, the record is the one the session now
   * finds, and asking again returns the same record without a change.
   */
  lemma {:induction false} GetOrCreatedResult(cs: seq<Conversation>, nextId: nat, sessionId: string, pageUrl: string, ip: string,
                           pageUrl2: string, ip2: string)
    requires UniqueSessions(cs)
    ensures var (cs', c) := GetOrCreated(cs, nextId, sessionId, pageUrl, ip);
      && UniqueSessions(cs')
      && c.sessionId == sessionId
      && FindSession(cs', sessionId).Some? && cs'[FindSession(cs', sessionId).value] == c
      && GetOrCreated(cs', nextId + 1, sessionId, pageUrl2, ip2) == (cs', c)
    ensures FindSession(cs, sessionId).Some? ==> GetOrCreated(cs, nextId, sessionId, pageUrl, ip).0 == cs
    ensures FindSession(cs, sessionId).None? ==>
      var (cs', c) := GetOrCreated(cs, nextId, sessionId, pageUrl, ip);
      && cs' == cs + [c] && c.id == nextId && c.status == "active" && c.metadata == Null
      && (c.pageUrl.None? <==> PhpEmpty(pageUrl)) && (c.ipAddress.None? <==> PhpEmpty(ip))
  {
    var (cs', c) := GetOrCreated(cs, nextId, sessionId, pageUrl, ip);
    if FindSession(cs, sessionId).None? {
      assert cs'[|cs|] == c;
    }
  }

  /** `markEscalated`: `updateAll` on the rows with that id. */
  function Escalated(cs: seq<Conversation>, id: nat, reason: string): seq<Conversation> {
    seq(|cs|, i requires 0 <= i < |cs| => EscalatedRow(cs[i], id, reason))
  }

  function EscalatedRow(c: Conversation, id: nat, reason: string): Conversation {
    if c.id == id then c.(status := "escalated", metadata := EscalationMetadata(reason)) else c
  }

  function EscalationMetadata(reason: string): Value {
    Obj([("escalation_reason", Str(reason))])
  }

  /**
   * The conversation with that id becomes escalated and its whole metadata
   * becomes `{escalation_reason: reason}`; every other row, and every other
   * column, is untouched; the session index and the ids are the same.
   */
  lemma {:induction false} EscalatedRows(cs: seq<Conversation>, id: nat, reason: string, sessionId: string)
    ensures var r := Escalated(cs, id, reason);
      |r| == |cs|
      && (forall i :: 0 <= i < |cs| && cs[i].id != id ==> r[i] == cs[i])
      && (forall i :: 0 <= i < |cs| && cs[i].id == id ==>
            r[i].status == "escalated" && r[i].metadata == EscalationMetadata(reason)
            && r[i].(status := cs[i].status, metadata := cs[i].metadata) == cs[i])
    ensures FindSession(Escalated(cs, id, reason), sessionId) == FindSession(cs, sessionId)
    ensures UniqueSessions(cs) ==> UniqueSessions(Escalated(cs, id, reason))
    ensures ConversationIds(Escalated(cs, id, reason)) == ConversationIds(cs)
  {
    EscalatedFind(cs, id, reason, sessionId);
    var r := Escalated(cs, id, reason);
    forall x | x in ConversationIds(cs) ensures x in ConversationIds(r) {
      var k :| 0 <= k < |cs| && cs[k].id == x;
      assert r[k].id == x;
    }
    forall x | x in ConversationIds(r) ensures x in ConversationIds(cs) {
      var k :| 0 <= k < |r| && r[k].id == x;
      assert cs[k].id == x;
    }
  }

  lemma {:induction false} EscalatedFind(cs: seq<Conversation>, id: nat, reason: string, sessionId: string)
    ensures FindSession(Escalated(cs, id, reason), sessionId) == FindSession(cs, sessionId)
    decreases |cs|
  {
    if cs != [] {
      var n := |cs| - 1;
      assert Escalated(cs, id, reason)[..n] == Escalated(cs[..n], id, reason);
      EscalatedFind(cs[..n], id, reason, sessionId);
    }
  }

  /** Escalating twice leaves what the second escalation writes: the last reason wins. */
  lemma {:induction false} EscalatedLastWins(cs: seq<Conversation>, id: nat, first: string, second: string)
    ensures Escalated(Escalated(cs, id, first), id, second) == Escalated(cs, id, second)
  {
  }

  // ---------------------------------------------------------------------------
  // Messages

  /** A message of that conversation the history query selects. */
  predicate InHistory(m: Message, conversationId: nat) {
    m.conversationId == conversationId && (m.role == "user" || m.role == "assistant")
  }

  function Selected(ms: seq<Message>, conversationId: nat): seq<Message> {
    Filter(ms, m => InHistory(m, conversationId))
  }

  /** `['role' => $msg->role, 'content' => $msg->content ?? '']`. */
  function HistoryEntry(m: Message): ChatMessage {
    ChatMessage(m.role, if m.content.Some? then m.content.value else "")
  }

  function HistoryEntries(ms: seq<Message>): seq<ChatMessage> {
    seq(|ms|, k requires 0 <= k < |ms| => HistoryEntry(ms[k]))
  }

  /**
   * `getConversationHistory`: the most recent `limit` user and assistant
   * messages of the conversation, oldest first.
   */
  function HistoryOf(ms: seq<Message>, conversationId: nat, limit: nat): seq<ChatMessage> {
    HistoryEntries(LastN(Selected(ms, conversationId), limit))
  }

  /**
   * The history holds min(limit, n) entries for the n selected messages,
   * entry k being the k-th of the last ones with its role copied and null
   * content read as ''; every entry is a user or assistant entry.
   */
  lemma {:induction false} HistoryWindow(ms: seq<Message>, conversationId: nat, limit: nat)
    ensures var sel, h := Selected(ms, conversationId), HistoryOf(ms, conversationId, limit);
      && |h| == (if |sel| < limit then |sel| else limit)
      && (forall k :: 0 <= k < |h| ==> h[k] == HistoryEntry(sel[|sel| - |h| + k]))
      && (forall k :: 0 <= k < |h| ==> h[k].role == "user" || h[k].role == "assistant")
  {
    var sel := Selected(ms, conversationId);
    forall k | 0 <= k < |sel| ensures sel[k].role == "user" || sel[k].role == "assistant" {
      assert sel[k] in sel;
    }
  }

  /**
   * Appending a user or assistant message of the conversation makes it the
   * newest history entry (with a positive limit); appending any other
   * message leaves the history as it was.
   */
  lemma {:induction false} HistoryAfterAppend(ms: seq<Message>, m: Message, conversationId: nat, limit: nat)
    requires limit > 0
    ensures InHistory(m, conversationId) ==>
      var h := HistoryOf(ms + [m], conversationId, limit);
      |h| > 0 && h[|h| - 1] == HistoryEntry(m)
    ensures !InHistory(m, conversationId) ==>
      HistoryOf(ms + [m], conversationId, limit) == HistoryOf(ms, conversationId, limit)
  {
    FilterAppend(ms, [m], x => InHistory(x, conversationId));
    var sel := Selected(ms + [m], conversationId);
    if InHistory(m, conversationId) {
      assert sel[|sel| - 1] == m;
      HistoryWindow(ms + [m], conversationId, limit);
    } else {
      assert sel == Selected(ms, conversationId);
    }
  }

  /** A user message of that conversation. */
  predicate IsUserMessage(m: Message, conversationId: nat) {
    m.conversationId == conversationId && m.role == "user"
  }

  /** `getMessageCount`: the number of the conversation's user messages. */
  function MessageCount(ms: seq<Message>, conversationId: nat): nat {
    |Filter(ms, m => IsUserMessage(m, conversationId))|
  }

  /** A user message sent to the session in the window. */
  predicate IsRecent(cs: seq<Conversation>, m: Message, sessionId: string, since: int) {
    m.role == "user" && SessionOf(cs, m.conversationId) == Some(sessionId) && m.dateCreated >= since
  }

  /** `getRecentMessageCount`: user messages of the session created at or after `now - seconds`. */
  function RecentCount(cs: seq<Conversation>, ms: seq<Message>, sessionId: string, now: int, seconds: int): nat {
    |Filter(ms, m => IsRecent(cs, m, sessionId, now - seconds))|
  }

  /**
   * Appending a message raises the user-message count by one exactly when
   * it is a user message of that conversation, and nothing else changes it.
   */
  lemma {:induction false} MessageCountAfterAppend(ms: seq<Message>, m: Message, conversationId: nat)
    ensures MessageCount(ms + [m], conversationId)
         == MessageCount(ms, conversationId) + (if IsUserMessage(m, conversationId) then 1 else 0)
  {
    FilterAppend(ms, [m], x => IsUserMessage(x, conversationId));
  }

  /**
   * Appending a user message of the session's conversation stamped `now`
   * raises the recent count at `now` by one for any non-negative window;
   * appending a message of another role leaves it alone.
   */
  lemma {:induction false} RecentCountAfterAppend(cs: seq<Conversation>, ms: seq<Message>, m: Message, sessionId: string, now: int, seconds: int)
    requires seconds >= 0 && m.dateCreated == now
    ensures SessionOf(cs, m.conversationId) == Some(sessionId) && m.role == "user" ==>
      RecentCount(cs, ms + [m], sessionId, now, seconds) == RecentCount(cs, ms, sessionId, now, seconds) + 1
    ensures m.role != "user" ==>
      RecentCount(cs, ms + [m], sessionId, now, seconds) == RecentCount(cs, ms, sessionId, now, seconds)
  {
    FilterAppend(ms, [m], x => IsRecent(cs, x, sessionId, now - seconds));
  }

  /** The escalation write changes neither the join nor, so, the recent count. */
  lemma {:induction false} EscalatedSessionOf(cs: seq<Conversation>, id: nat, reason: string, x: nat)
    ensures SessionOf(Escalated(cs, id, reason), x) == SessionOf(cs, x)
    decreases |cs|
  {
    if cs != [] {
      var n := |cs| - 1;
      assert Escalated(cs, id, reason)[..n] == Escalated(cs[..n], id, reason);
      EscalatedSessionOf(cs[..n], id, reason, x);
    }
  }

  // ---------------------------------------------------------------------------
  // The store

  /**
   * What the schema guarantees: unique session ids and row ids, ids below
   * the next auto-increment values, and every message belonging to a
   * conversation (the foreign key).
   */
  predicate StoreOk(cs: seq<Conversation>, ms: seq<Message>, nextConversationId: nat, nextMessageId: nat) {
    && UniqueSessions(cs) && UniqueIds(cs)
    && (forall i :: 0 <= i < |cs| ==> cs[i].id < nextConversationId)
    && (forall i :: 0 <= i < |ms| ==> ms[i].id < nextMessageId && ms[i].conversationId in ConversationIds(cs))
    && (forall i, j :: 0 <= i < j < |ms| ==> ms[i].id < ms[j].id)
  }

  class ConversationStore {
    var conversations: seq<Conversation>
    var messages: seq<Message>
    var nextConversationId: nat
    var nextMessageId: nat

    ghost predicate Valid()
      reads this
    {
      StoreOk(conversations, messages, nextConversationId, nextMessageId)
    }

    constructor ()
      ensures Valid() && conversations == [] && messages == []
    {
      conversations := [];
      messages := [];
      nextConversationId := 1;
      nextMessageId := 1;
    }

    method GetOrCreateConversation(sessionId: string, pageUrl: string, ip: string) returns (c: Conversation)
      requires Valid()
      modifies this
      ensures Valid()
      ensures (conversations, c) == GetOrCreated(old(conversations), old(nextConversationId), sessionId, pageUrl, ip)
      ensures messages == old(messages) && nextMessageId == old(nextMessageId)
      ensures nextConversationId
           == old(nextConversationId) + (if FindSession(old(conversations), sessionId).None? then 1 else 0)
      ensures c in conversations
    {
      var k := FindSession(conversations, sessionId);
      if k.Some? {
        return conversations[k.value];
      }
      c := NewConversation(nextConversationId, sessionId, pageUrl, ip);
      assert ConversationIds(conversations) <= ConversationIds(conversations + [c]);
      conversations := conversations + [c];
      nextConversationId := nextConversationId + 1;
    }

    /** `addMessage`: one new row at the end; absent extras are null. */
    method AddMessage(conversationId: nat, role: string, content: Option<string>, extras: Extras, now: int)
      returns (m: Message)
      requires Valid() && conversationId in ConversationIds(conversations)
      modifies this
      ensures Valid()
      ensures m == Message(old(nextMessageId), conversationId, role, content,
                           extras.toolCalls, extras.toolResults, extras.tokensUsed, now)
      ensures messages == old(messages) + [m]
      ensures conversations == old(conversations) && nextConversationId == old(nextConversationId)
      ensures nextMessageId == old(nextMessageId) + 1
    {
      m := Message(nextMessageId, conversationId, role, content,
                   extras.toolCalls, extras.toolResults, extras.tokensUsed, now);
      messages := messages + [m];
      nextMessageId := nextMessageId + 1;
    }

    /** The loop of `getConversationHistory` over the selected rows. */
    method GetConversationHistory(conversationId: nat, limit: nat) returns (history: seq<ChatMessage>)
      ensures history == HistoryOf(messages, conversationId, limit)
    {
      var rows := LastN(Selected(messages, conversationId), limit);
      history := [];
      for i := 0 to |rows|
        invariant history == HistoryEntries(rows[..i])
      {
        history := history + [HistoryEntry(rows[i])];
      }
      assert rows[..|rows|] == rows;
    }

    method MarkEscalated(conversationId: nat, reason: string)
      requires Valid()
      modifies this
      ensures Valid()
      ensures conversations == Escalated(old(conversations), conversationId, reason)
      ensures messages == old(messages)
      ensures nextConversationId == old(nextConversationId) && nextMessageId == old(nextMessageId)
    {
      EscalatedRows(conversations, conversationId, reason, "");
      var cs := Escalated(conversations, conversationId, reason);
      assert forall i, j :: 0 <= i < j < |cs| ==> cs[i].id == conversations[i].id && cs[j].id == conversations[j].id;
      conversations := cs;
    }

    /** `$conversation->save()` of a loaded record whose id and session are unchanged. */
    method SaveConversation(k: nat, c: Conversation)
      requires Valid() && k < |conversations|
      requires c.id == conversations[k].id && c.sessionId == conversations[k].sessionId
      modifies this
      ensures Valid()
      ensures conversations == old(conversations)[k := c]
      ensures messages == old(messages)
      ensures nextConversationId == old(nextConversationId) && nextMessageId == old(nextMessageId)
    {
      var cs := conversations[k := c];
      assert ConversationIds(cs) == ConversationIds(conversations) by {
        forall x | x in ConversationIds(conversations) ensures x in ConversationIds(cs) {
          var j :| 0 <= j < |conversations| && conversations[j].id == x;
          assert cs[j].id == x;
        }
        forall x | x in ConversationIds(cs) ensures x in ConversationIds(conversations) {
          var j :| 0 <= j < |cs| && cs[j].id == x;
          assert conversations[j].id == x;
        }
      }
      conversations := cs;
    }
  }
}
