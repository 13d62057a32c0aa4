/**
 * The widget configuration the site embeds in its pages: the settings the
 * widget needs, the chat endpoints under the site's base URL, the page
 * rules in sort order and the escalation form's fields and questions, and
 * the `<script>` block that hands it to the widget.
 */
module WidgetService {
  import opened Wrappers
  import opened Strings
  import opened Json
  import opened PluginSettings
  import opened Pages

  // ---------------------------------------------------------------------------
  // Page rules in sort order

  predicate SortedBySortOrder(rs: seq<PageRule>) {
    forall k, l :: 0 <= k < l < |rs| ==> rs[k].sortOrder <= rs[l].sortOrder
  }

  /** Put `x` after every rule whose sort order is not above its own. */
  function InsertBySortOrder(ys: seq<PageRule>, x: PageRule): seq<PageRule>
    decreases |ys|
  {
    if ys == [] || ys[|ys| - 1].sortOrder <= x.sortOrder then ys + [x]
    else InsertBySortOrder(ys[..|ys| - 1], x) + [ys[|ys| - 1]]
  }

  /** `orderBy(['sortOrder' => SORT_ASC])` over the table's rows (rows with equal sort orders keep table order). */
  function OrderedRules(rows: seq<PageRule>): seq<PageRule> {
    if rows == [] then [] else InsertBySortOrder(OrderedRules(rows[..|rows| - 1]), rows[|rows| - 1])
  }

  lemma {:induction false} InsertBySortOrderSame(ys: seq<PageRule>, x: PageRule)
    ensures multiset(InsertBySortOrder(ys, x)) == multiset(ys) + multiset{x}
    decreases |ys|
  {
    if ys != [] && ys[|ys| - 1].sortOrder > x.sortOrder {
      var n := |ys| - 1;
      InsertBySortOrderSame(ys[..n], x);
      assert ys == ys[..n] + [ys[n]];
    }
  }

  lemma {:induction false} SortedFront(ys: seq<PageRule>)
    requires SortedBySortOrder(ys) && ys != []
    ensures SortedBySortOrder(ys[..|ys| - 1])
    ensures forall k :: 0 <= k < |ys| ==> ys[k].sortOrder <= ys[|ys| - 1].sortOrder
  {
    var front := ys[..|ys| - 1];
    forall k, l | 0 <= k < l < |front| ensures front[k].sortOrder <= front[l].sortOrder {
      assert front[k] == ys[k] && front[l] == ys[l];
    }
    forall k | 0 <= k < |ys| ensures ys[k].sortOrder <= ys[|ys| - 1].sortOrder {
      if k < |ys| - 1 {
        assert ys[k].sortOrder <= ys[|ys| - 1].sortOrder;
      }
    }
  }

  lemma {:induction false} InsertBySortOrderSorted(ys: seq<PageRule>, x: PageRule)
    requires SortedBySortOrder(ys)
    ensures SortedBySortOrder(InsertBySortOrder(ys, x))
    ensures multiset(InsertBySortOrder(ys, x)) == multiset(ys) + multiset{x}
    decreases |ys|
  {
    InsertBySortOrderSame(ys, x);
    if ys == [] {
      assert InsertBySortOrder(ys, x) == [x];
    } else {
      SortedFront(ys);
      var n := |ys| - 1;
      if ys[n].sortOrder <= x.sortOrder {
        SortedSnoc(ys, x);
      } else {
        var front := ys[..n];
        InsertBySortOrderSorted(front, x);
        InsertBounded(front, x, ys[n].sortOrder);
        SortedSnoc(InsertBySortOrder(front, x), ys[n]);
      }
    }
  }

  /** A rule not below any of a sorted list's rules may follow them. */
  lemma {:induction false} SortedSnoc(xs: seq<PageRule>, y: PageRule)
    requires SortedBySortOrder(xs)
    requires forall k :: 0 <= k < |xs| ==> xs[k].sortOrder <= y.sortOrder
    ensures SortedBySortOrder(xs + [y])
  {
    var ys := xs + [y];
    forall k, l | 0 <= k < l < |ys| ensures ys[k].sortOrder <= ys[l].sortOrder {
      assert ys[k] == xs[k];
      if l < |xs| {
        assert ys[l] == xs[l];
      }
    }
  }

  /** Inserting a rule keeps a bound every rule meets. */
  lemma {:induction false} InsertBounded(front: seq<PageRule>, x: PageRule, bound: int)
    requires x.sortOrder <= bound
    requires forall k :: 0 <= k < |front| ==> front[k].sortOrder <= bound
    ensures forall k :: 0 <= k < |InsertBySortOrder(front, x)| ==> InsertBySortOrder(front, x)[k].sortOrder <= bound
  {
    var mid := InsertBySortOrder(front, x);
    InsertBySortOrderSame(front, x);
    forall k | 0 <= k < |mid| ensures mid[k].sortOrder <= bound {
      assert mid[k] in multiset(front) + multiset{x};
      if mid[k] != x {
        assert mid[k] in front;
        var j :| 0 <= j < |front| && front[j] == mid[k];
      }
    }
  }

  /** The query's order: by ascending sort order, the same rows. */
  lemma {:induction false} OrderedRulesSorted(rows: seq<PageRule>)
    ensures SortedBySortOrder(OrderedRules(rows))
    ensures multiset(OrderedRules(rows)) == multiset(rows)
    decreases |rows|
  {
    if rows != [] {
      var n := |rows| - 1;
      OrderedRulesSorted(rows[..n]);
      InsertBySortOrderSorted(OrderedRules(rows[..n]), rows[n]);
      assert rows == rows[..n] + [rows[n]];
    }
  }

  /** Rows already in sort order come back as they are. */
  lemma {:induction false} OrderedRulesOfSorted(rows: seq<PageRule>)
    requires SortedBySortOrder(rows)
    ensures OrderedRules(rows) == rows
    decreases |rows|
  {
    if rows != [] {
      var n := |rows| - 1;
      assert SortedBySortOrder(rows[..n]) by {
        forall k, l | 0 <= k < l < n ensures rows[..n][k].sortOrder <= rows[..n][l].sortOrder {
          assert rows[..n][k] == rows[k] && rows[..n][l] == rows[l];
        }
      }
      OrderedRulesOfSorted(rows[..n]);
      if n > 0 {
        assert rows[..n][n - 1] == rows[n - 1];
      }
      assert rows[..n] + [rows[n]] == rows;
    }
  }

  /** The widget gets the rules of the page-rules form in the order they were submitted. */
  lemma {:induction false} SavedRulesInOrder(patterns: seq<string>, ruleTypes: seq<string>)
    ensures OrderedRules(SavedRules(patterns, ruleTypes)) == SavedRules(patterns, ruleTypes)
  {
    SavedRulesRows(patterns, ruleTypes);
    OrderedRulesOfSorted(SavedRules(patterns, ruleTypes));
  }

  /** `['pattern' => ..., 'ruleType' => ...]`: the query selects only these two columns. */
  function RuleValue(r: PageRule): Value {
    Obj([("pattern", Str(r.pattern)), ("ruleType", Str(r.ruleType))])
  }

  function RuleValues(rs: seq<PageRule>): seq<Value> {
    seq(|rs|, k requires 0 <= k < |rs| => RuleValue(rs[k]))
  }

  // ---------------------------------------------------------------------------
  // Custom questions

  /** A line `array_filter` keeps once trimmed. */
  predicate IsQuestion(line: string) {
    !PhpEmpty(Trim(line))
  }

  /** The question the line at position `i` gives, under that position. */
  function QuestionAt(lines: seq<string>, i: nat): (nat, string)
    requires i < |lines|
  {
    (i, Trim(lines[i]))
  }

  /** `q` is the question of a kept line. */
  predicate QuestionOf(lines: seq<string>, q: (nat, string)) {
    q.0 < |lines| && IsQuestion(lines[q.0]) && q == QuestionAt(lines, q.0)
  }

  /** `array_filter(array_map('trim', $lines))`: the lines non-empty after trim, with their original positions. */
  function KeptLines(lines: seq<string>): seq<(nat, string)>
    decreases |lines|
  {
    if lines == [] then []
    else
      var n := |lines| - 1;
      KeptLines(lines[..n]) + (if IsQuestion(lines[n]) then [QuestionAt(lines, n)] else [])
  }

  /** The escalation form's custom questions, from the setting's text, one per line. */
  function CustomQuestions(text: string): seq<(nat, string)> {
    KeptLines(Split(text, '\n'))
  }

  lemma {:induction false} KeptLinesFrom(lines: seq<string>)
    ensures forall k :: 0 <= k < |KeptLines(lines)| ==> QuestionOf(lines, KeptLines(lines)[k])
    decreases |lines|
  {
    if lines != [] {
      var n := |lines| - 1;
      var p := lines[..n];
      KeptLinesFrom(p);
      var front := KeptLines(p);
      assert front == KeptLines(lines)[..|front|];
      forall k | 0 <= k < |front| ensures QuestionOf(lines, front[k]) {
        assert QuestionOf(p, front[k]);
        assert p[front[k].0] == lines[front[k].0];
      }
    }
  }

  lemma {:induction false} KeptLinesIncreasing(lines: seq<string>)
    ensures forall k, l :: 0 <= k < l < |KeptLines(lines)| ==> KeptLines(lines)[k].0 < KeptLines(lines)[l].0
    decreases |lines|
  {
    if lines != [] {
      var n := |lines| - 1;
      var p := lines[..n];
      KeptLinesIncreasing(p);
      KeptLinesFrom(p);
      var front := KeptLines(p);
      forall k | 0 <= k < |front| ensures front[k].0 < n {
        assert QuestionOf(p, front[k]);
      }
      assert front == KeptLines(lines)[..|front|];
    }
  }

  /** Some question is the one of the line at position `i`. */
  predicate Listed(qs: seq<(nat, string)>, i: int) {
    exists k :: 0 <= k < |qs| && qs[k].0 == i
  }

  lemma {:induction false} KeptLinesComplete(lines: seq<string>)
    ensures forall i :: 0 <= i < |lines| && IsQuestion(lines[i]) ==> Listed(KeptLines(lines), i)
    decreases |lines|
  {
    if lines != [] {
      var n := |lines| - 1;
      var p := lines[..n];
      KeptLinesComplete(p);
      var front := KeptLines(p);
      var qs := KeptLines(lines);
      assert front == qs[..|front|];
      forall i | 0 <= i < |lines| && IsQuestion(lines[i]) ensures Listed(qs, i) {
        if i < n {
          assert p[i] == lines[i];
          assert Listed(front, i);
          var k :| 0 <= k < |front| && front[k].0 == i;
          assert qs[k] == front[k];
        } else {
          assert qs[|front|].0 == n;
        }
      }
    }
  }

  /**
   * Each question is a trimmed line, not PHP-empty, under that line's
   * position; positions strictly increase; and every such line is there.
   */
  lemma {:induction false} KeptLinesRows(lines: seq<string>)
    ensures var qs := KeptLines(lines);
      forall k :: 0 <= k < |qs| ==> QuestionOf(lines, qs[k])
    ensures var qs := KeptLines(lines);
      forall k, l :: 0 <= k < l < |qs| ==> qs[k].0 < qs[l].0
    ensures var qs := KeptLines(lines);
      forall i :: 0 <= i < |lines| && IsQuestion(lines[i]) ==> Listed(qs, i)
  {
    KeptLinesFrom(lines);
    KeptLinesIncreasing(lines);
    KeptLinesComplete(lines);
  }

  /** With no blank line, every line is a question under its own position. */
  lemma {:induction false} KeptLinesAll(lines: seq<string>)
    requires forall i :: 0 <= i < |lines| ==> IsQuestion(lines[i])
    ensures |KeptLines(lines)| == |lines|
    ensures forall k :: 0 <= k < |lines| ==> KeptLines(lines)[k] == QuestionAt(lines, k)
    decreases |lines|
  {
    if lines != [] {
      var n := |lines| - 1;
      var p := lines[..n];
      KeptLinesAll(p);
      assert IsQuestion(lines[n]);
      assert KeptLines(lines) == KeptLines(p) + [QuestionAt(lines, n)];
      forall k | 0 <= k < n ensures KeptLines(p)[k] == QuestionAt(lines, k) {
        assert p[k] == lines[k];
      }
    }
  }

  function QuestionTexts(qs: seq<(nat, string)>): seq<Value> {
    seq(|qs|, k requires 0 <= k < |qs| => Str(qs[k].1))
  }

  function KeyedQuestions(qs: seq<(nat, string)>): seq<(string, Value)> {
    seq(|qs|, k requires 0 <= k < |qs| => (IntToString(qs[k].0), Str(qs[k].1)))
  }

  /** `json_encode` of the filtered array: a list when its keys are 0, 1, 2, ..., otherwise an object. */
  function QuestionsValue(qs: seq<(nat, string)>): Value {
    if forall k :: 0 <= k < |qs| ==> qs[k].0 == k then Arr(QuestionTexts(qs)) else Obj(KeyedQuestions(qs))
  }

  /** The trimmed lines, as JSON strings. */
  function TrimmedTexts(lines: seq<string>): seq<Value> {
    seq(|lines|, k requires 0 <= k < |lines| => Str(Trim(lines[k])))
  }

  lemma {:induction false} QuestionsList(lines: seq<string>)
    requires forall i :: 0 <= i < |lines| ==> IsQuestion(lines[i])
    ensures QuestionsValue(KeptLines(lines)) == Arr(TrimmedTexts(lines))
  {
    KeptLinesAll(lines);
    var qs := KeptLines(lines);
    assert forall k :: 0 <= k < |qs| ==> qs[k].0 == k;
    assert QuestionTexts(qs) == TrimmedTexts(lines);
  }

  lemma {:induction false} QuestionsObject(lines: seq<string>)
    requires |lines| > 0 && !IsQuestion(lines[0]) && KeptLines(lines) != []
    ensures QuestionsValue(KeptLines(lines)).Obj?
  {
    KeptLinesFrom(lines);
    var qs := KeptLines(lines);
    assert QuestionOf(lines, qs[0]);
    assert qs[0].0 != 0;
  }

  /**
   * The questions reach the widget as a list of the trimmed lines exactly
   * when no blank line comes before a question; a blank first line followed
   * by any question makes them an object.
   */
  lemma {:induction false} QuestionsShape(lines: seq<string>)
    ensures (forall i :: 0 <= i < |lines| ==> IsQuestion(lines[i])) ==>
      QuestionsValue(KeptLines(lines)) == Arr(TrimmedTexts(lines))
    ensures |lines| > 0 && !IsQuestion(lines[0]) && KeptLines(lines) != [] ==>
      QuestionsValue(KeptLines(lines)).Obj?
  {
    if forall i :: 0 <= i < |lines| ==> IsQuestion(lines[i]) {
      QuestionsList(lines);
    }
    if |lines| > 0 && !IsQuestion(lines[0]) && KeptLines(lines) != [] {
      QuestionsObject(lines);
    }
  }

  // ---------------------------------------------------------------------------
  // Endpoints

  /** `rtrim($siteUrl, '/')`. */
  function BaseUrl(siteUrl: string): string {
    RTrimChar(siteUrl, '/')
  }

  function ChatEndpoint(siteUrl: string): string {
    BaseUrl(siteUrl) + "/ai-agent/chat"
  }

  function StreamEndpoint(siteUrl: string): string {
    BaseUrl(siteUrl) + "/ai-agent/chat/stream"
  }

  /**
   * Both endpoints sit directly under the base URL, which never ends in
   * '/', so a site URL with or without trailing slashes gives the same
   * endpoints; the stream endpoint is the chat endpoint plus "/stream".
   */
  lemma {:induction false} Endpoints(siteUrl: string)
    ensures BaseUrl(siteUrl) == [] || BaseUrl(siteUrl)[|BaseUrl(siteUrl)| - 1] != '/'
    ensures ChatEndpoint(siteUrl + "/") == ChatEndpoint(siteUrl)
    ensures StreamEndpoint(siteUrl) == ChatEndpoint(siteUrl) + "/stream"
    ensures BaseUrl(siteUrl) == siteUrl[..|BaseUrl(siteUrl)|]
    ensures forall k :: |BaseUrl(siteUrl)| <= k < |siteUrl| ==> siteUrl[k] == '/'
  {
    var s := siteUrl + "/";
    assert s[..|s| - 1] == siteUrl;
    RTrimPrefix(siteUrl, '/');
  }

  lemma {:induction false} RTrimPrefix(s: string, c: char)
    ensures RTrimChar(s, c) == s[..|RTrimChar(s, c)|]
    ensures forall k :: |RTrimChar(s, c)| <= k < |s| ==> s[k] == c
    decreases |s|
  {
    if s != [] && s[|s| - 1] == c {
      var n := |s| - 1;
      RTrimPrefix(s[..n], c);
      assert s[..n][..|RTrimChar(s, c)|] == s[..|RTrimChar(s, c)|];
      forall k | |RTrimChar(s, c)| <= k < |s| ensures s[k] == c {
        if k < n {
          assert s[..n][k] == s[k];
        }
      }
    } else {
      assert s[..|s|] == s;
    }
  }

  // ---------------------------------------------------------------------------
  // The configuration and the script

  /** `getWidgetConfig()` for the settings, the current site's base URL and the page-rules table. */
  function WidgetConfig(s: Settings, siteUrl: string, rows: seq<PageRule>): Value {
    Obj(AppearanceFields(s) + WiringFields(s, siteUrl, rows))
  }

  /** The fields the widget's look and text come from. */
  function AppearanceFields(s: Settings): seq<(string, Value)> {
    [
      ("enabled", Bool(s.enabled)),
      ("agentName", Str(s.agentName)),
      ("avatarUrl", Null),
      ("welcomeMessage", Str(s.welcomeMessage)),
      ("placeholderText", Str(s.placeholderText)),
      ("position", Str(s.widgetPosition)),
      ("theme", Obj([
        ("primaryColor", Str(s.primaryColor)),
        ("secondaryColor", Str(s.secondaryColor)),
        ("backgroundColor", Str(s.backgroundColor)),
        ("textColor", Str(s.textColor)),
        ("fontFamily", Str(s.fontFamily))])),
      ("customCss", Str(s.customCss)),
      ("customJs", Str(s.customJs))]
  }

  /** Where the widget talks to, where it shows, and its escalation form. */
  function WiringFields(s: Settings, siteUrl: string, rows: seq<PageRule>): seq<(string, Value)> {
    [
      ("endpoints", Obj(EndpointFields(siteUrl))),
      ("pageRules", Arr(RuleValues(OrderedRules(rows)))),
      ("escalation", EscalationConfig(s))]
  }

  function EscalationConfig(s: Settings): Value {
    Obj([
      ("enabled", Bool(s.escalationEnabled)),
      ("message", Str(s.escalationMessage)),
      ("fields", Obj(FieldFlags(s))),
      ("customQuestions", QuestionsValue(CustomQuestions(s.escalationCustomQuestions))),
      ("confirmation", Str(s.escalationConfirmation))])
  }

  function EndpointFields(siteUrl: string): seq<(string, Value)> {
    [("chat", Str(ChatEndpoint(siteUrl))), ("stream", Str(StreamEndpoint(siteUrl)))]
  }

  function FieldFlags(s: Settings): seq<(string, Value)> {
    [("name", Bool(s.escalationFieldName)), ("email", Bool(s.escalationFieldEmail)), ("phone", Bool(s.escalationFieldPhone))]
  }

  lemma {:induction false} WiringLookups(endpoints: Value, pageRules: Value, escalation: Value)
    ensures var fs := [("endpoints", endpoints), ("pageRules", pageRules), ("escalation", escalation)];
      && Lookup(fs, "endpoints") == endpoints
      && Lookup(fs, "pageRules") == pageRules
      && Lookup(fs, "escalation") == escalation
      && Lookup(fs, "errorMessage") == Null
  {
    var fs := [("endpoints", endpoints), ("pageRules", pageRules), ("escalation", escalation)];
    LookupFirst(fs, 0, "endpoints");
    LookupFirst(fs, 1, "pageRules");
    LookupFirst(fs, 2, "escalation");
  }

  lemma {:induction false} ConfigTop(s: Settings, siteUrl: string, rows: seq<PageRule>)
    ensures var c := WidgetConfig(s, siteUrl, rows);
      && Get(c, "enabled") == Bool(s.enabled)
      && Get(c, "endpoints") == Obj(EndpointFields(siteUrl))
      && Get(c, "pageRules") == Arr(RuleValues(OrderedRules(rows)))
      && Get(c, "escalation") == EscalationConfig(s)
      && Get(c, "errorMessage") == Null
  {
    var head := AppearanceFields(s);
    var tail := WiringFields(s, siteUrl, rows);
    LookupFirst(head + tail, 0, "enabled");
    assert forall k :: 0 <= k < |head| ==> head[k].0 != "endpoints" && head[k].0 != "pageRules";
    assert forall k :: 0 <= k < |head| ==> head[k].0 != "escalation" && head[k].0 != "errorMessage";
    LookupAppend(head, tail, "endpoints");
    LookupAppend(head, tail, "pageRules");
    LookupAppend(head, tail, "escalation");
    LookupAppend(head, tail, "errorMessage");
    WiringLookups(Obj(EndpointFields(siteUrl)), Arr(RuleValues(OrderedRules(rows))), EscalationConfig(s));
  }

  lemma {:induction false} EscalationReads(s: Settings)
    ensures Get(EscalationConfig(s), "enabled") == Bool(s.escalationEnabled)
    ensures Get(EscalationConfig(s), "fields") == Obj(FieldFlags(s))
    ensures Get(EscalationConfig(s), "customQuestions") == QuestionsValue(CustomQuestions(s.escalationCustomQuestions))
    ensures Get(EscalationConfig(s), "confirmation") == Str(s.escalationConfirmation)
  {
    EscalationFieldsRead(Bool(s.escalationEnabled), Str(s.escalationMessage), Obj(FieldFlags(s)),
                         QuestionsValue(CustomQuestions(s.escalationCustomQuestions)), Str(s.escalationConfirmation));
  }

  /** The five keys of the escalation object, each read back. */
  lemma {:induction false} EscalationFieldsRead(enabled: Value, message: Value, fields: Value, questions: Value, confirmation: Value)
    ensures Get(Obj([("enabled", enabled), ("message", message), ("fields", fields), ("customQuestions", questions), ("confirmation", confirmation)]), "enabled") == enabled
    ensures Get(Obj([("enabled", enabled), ("message", message), ("fields", fields), ("customQuestions", questions), ("confirmation", confirmation)]), "fields") == fields
    ensures Get(Obj([("enabled", enabled), ("message", message), ("fields", fields), ("customQuestions", questions), ("confirmation", confirmation)]), "customQuestions") == questions
    ensures Get(Obj([("enabled", enabled), ("message", message), ("fields", fields), ("customQuestions", questions), ("confirmation", confirmation)]), "confirmation") == confirmation
  {
    var es := [("enabled", enabled), ("message", message), ("fields", fields), ("customQuestions", questions), ("confirmation", confirmation)];
    LookupFirst(es, 0, "enabled");
    LookupFirst(es, 2, "fields");
    LookupFirst(es, 3, "customQuestions");
    LookupFirst(es, 4, "confirmation");
  }

  lemma {:induction false} FlagReads(s: Settings)
    ensures var f := Obj(FieldFlags(s));
      && Get(f, "name") == Bool(s.escalationFieldName)
      && Get(f, "email") == Bool(s.escalationFieldEmail)
      && Get(f, "phone") == Bool(s.escalationFieldPhone)
  {
    var fl := FieldFlags(s);
    LookupFirst(fl, 0, "name");
    LookupFirst(fl, 1, "email");
    LookupFirst(fl, 2, "phone");
  }

  lemma {:induction false} EndpointReads(siteUrl: string)
    ensures Get(Obj(EndpointFields(siteUrl)), "chat") == Str(ChatEndpoint(siteUrl))
    ensures Get(Obj(EndpointFields(siteUrl)), "stream") == Str(StreamEndpoint(siteUrl))
  {
    LookupFirst(EndpointFields(siteUrl), 0, "chat");
    LookupFirst(EndpointFields(siteUrl), 1, "stream");
  }

  /**
   * What the widget reads from the configuration: the enable flag, the two
   * endpoints, the rules in sort order, and the escalation form's three
   * field flags, each mirroring its setting; there is no `errorMessage`.
   */
  lemma {:induction false} ConfigReads(s: Settings, siteUrl: string, rows: seq<PageRule>)
    ensures var c := WidgetConfig(s, siteUrl, rows);
      && Get(c, "enabled") == Bool(s.enabled)
      && Get(Get(c, "endpoints"), "chat") == Str(ChatEndpoint(siteUrl))
      && Get(Get(c, "endpoints"), "stream") == Str(StreamEndpoint(siteUrl))
      && Get(c, "pageRules") == Arr(RuleValues(OrderedRules(rows)))
      && Get(c, "errorMessage") == Null
      && Get(Get(c, "escalation"), "enabled") == Bool(s.escalationEnabled)
      && Get(Get(Get(c, "escalation"), "fields"), "name") == Bool(s.escalationFieldName)
      && Get(Get(Get(c, "escalation"), "fields"), "email") == Bool(s.escalationFieldEmail)
      && Get(Get(Get(c, "escalation"), "fields"), "phone") == Bool(s.escalationFieldPhone)
      && Get(Get(c, "escalation"), "customQuestions") == QuestionsValue(CustomQuestions(s.escalationCustomQuestions))
  {
    ConfigTop(s, siteUrl, rows);
    EscalationReads(s);
    FlagReads(s);
    EndpointReads(siteUrl);
  }

  /** The JSON_HEX_TAG and JSON_HEX_APOS escapes: these characters only occur inside JSON strings. */
  function HexChar(c: char): string {
    if c == '<' then "\\u003C" else if c == '>' then "\\u003E" else if c == '\'' then "\\u0027" else [c]
  }

  function HexTags(json: string): (r: string)
    ensures '<' !in r && '>' !in r && '\'' !in r
  {
    if json == [] then ""
    else
      HexChar(json[0]) + HexTags(json[1..])
  }

  /** Text without those characters is left as it is. */
  lemma {:induction false} HexTagsPlain(json: string)
    requires '<' !in json && '>' !in json && '\'' !in json
    ensures HexTags(json) == json
  {
    if json != [] {
      assert json[0] != '<' && json[0] != '>' && json[0] != '\'';
      HexTagsPlain(json[1..]);
      assert json == [json[0]] + json[1..];
    }
  }

  const ScriptHead := "<script>\nwindow.__aiAgentConfig = "

  /** `renderWidgetScript()`, `assetUrl` being where the asset manager published the widget's directory. */
  function RenderWidgetScript(s: Settings, siteUrl: string, rows: seq<PageRule>, assetUrl: string): string {
    var config := WidgetConfig(s, siteUrl, rows);
    if !Truthy(Get(config, "enabled")) then ""
    else
      ScriptHead + HexTags(Encode(config)) + ";\n</script>\n<script src=\"" + assetUrl + "/chat-widget.js\" defer></script>"
  }

  /**
   * A disabled widget renders nothing. An enabled one is the inline script
   * setting `window.__aiAgentConfig` to the encoded configuration, whose
   * text holds no '<', so no value of a setting can close the `<script>`
   * element early, followed by the widget's script tag.
   */
  lemma {:induction false} RenderedScript(s: Settings, siteUrl: string, rows: seq<PageRule>, assetUrl: string)
    ensures !s.enabled ==> RenderWidgetScript(s, siteUrl, rows, assetUrl) == ""
    ensures s.enabled ==>
      var json := HexTags(Encode(WidgetConfig(s, siteUrl, rows)));
      && '<' !in json
      && RenderWidgetScript(s, siteUrl, rows, assetUrl)
         == ScriptHead + json + ";\n</script>\n<script src=\"" + assetUrl + "/chat-widget.js\" defer></script>"
  {
    ConfigReads(s, siteUrl, rows);
  }
}
