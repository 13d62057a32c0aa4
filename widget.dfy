/**
 * The chat widget's script: which pages show it (glob page rules), the
 * message list it keeps and persists in local storage, how a streamed reply
 * is assembled from server-sent events, and the escalation form.
 */
module Widget {
  import opened Wrappers
  import opened Strings
  import opened Json
  import PluginSettings
  import Pages
  import WidgetService
  import ChatApi

  // ---------------------------------------------------------------------------
  // Glob patterns

  /**
   * What one piece of the regular expression `matchGlob` builds matches: an
   * escaped literal character, `[^/]*` (from `*`) or `.*` (from `**`).
   */
  datatype Atom = Char(c: char) | Segment | AnyRun

  /**
   * An atom and the number of `?` marks after it, which the replace chain
   * leaves unescaped: on a character the first makes it optional and the
   * second makes that lazy; on a run the first makes it lazy.
   */
  datatype Piece = Piece(atom: Atom, marks: nat)

  /** How many `?` marks the atom takes before the expression no longer parses. */
  function MaxMarks(a: Atom): nat {
    if a.Char? then 2 else 1
  }

  /**
   * `new RegExp('^' + regex + '$')` for the replace chain's output, read left
   * to right after the pieces in `acc`; None is the SyntaxError a `?` with
   * nothing to repeat raises (a leading `?` follows the `^` assertion).
   */
  function Compile(pattern: string, acc: seq<Piece>): Option<seq<Piece>>
    decreases |pattern|
  {
    if pattern == [] then Some(acc)
    else if |pattern| >= 2 && pattern[0] == '*' && pattern[1] == '*' then
      Compile(pattern[2..], acc + [Piece(AnyRun, 0)])
    else if pattern[0] == '*' then
      Compile(pattern[1..], acc + [Piece(Segment, 0)])
    else if pattern[0] == '?' then
      if acc == [] || acc[|acc| - 1].marks >= MaxMarks(acc[|acc| - 1].atom) then None
      else
        var last := acc[|acc| - 1];
        Compile(pattern[1..], acc[..|acc| - 1] + [last.(marks := last.marks + 1)])
    else
      Compile(pattern[1..], acc + [Piece(Char(pattern[0]), 0)])
  }

  /** The characters `.` does not match. */
  predicate IsLineTerminator(c: char) {
    c == '\n' || c == '\r' || c == '\U{2028}' || c == '\U{2029}'
  }

  /** The anchored expression matches the whole of `s`. */
  function Matches(ps: seq<Piece>, s: string): bool
    decreases |ps|, |s|
  {
    if ps == [] then s == []
    else
      match ps[0].atom
      case Char(c) =>
        (s != [] && s[0] == c && Matches(ps[1..], s[1..])) || (ps[0].marks > 0 && Matches(ps[1..], s))
      case Segment =>
        Matches(ps[1..], s) || (s != [] && s[0] != '/' && Matches(ps, s[1..]))
      case AnyRun =>
        Matches(ps[1..], s) || (s != [] && !IsLineTerminator(s[0]) && Matches(ps, s[1..]))
  }

  /** `matchGlob(pattern, path)`; None when building the expression throws. */
  function MatchGlob(pattern: string, path: string): Option<bool> {
    match Compile(pattern, [])
    case None => None
    case Some(ps) => Some(Matches(ps, path))
  }

  /** A pattern is literal when it has neither `*` nor `?`. */
  predicate Literal(pattern: string) {
    '*' !in pattern && '?' !in pattern
  }

  function Chars(s: string): seq<Piece> {
    seq(|s|, k requires 0 <= k < |s| => Piece(Char(s[k]), 0))
  }

  lemma {:induction false} CompileLiteral(pre: string, rest: string, acc: seq<Piece>)
    requires Literal(pre)
    ensures Compile(pre + rest, acc) == Compile(rest, acc + Chars(pre))
    decreases |pre|
  {
    if pre == [] {
      assert pre + rest == rest;
      assert acc + Chars(pre) == acc;
    } else {
      var p := pre + rest;
      assert p[0] == pre[0] && p[0] != '*' && p[0] != '?';
      assert p[1..] == pre[1..] + rest;
      CompileLiteral(pre[1..], rest, acc + [Piece(Char(pre[0]), 0)]);
      assert [Piece(Char(pre[0]), 0)] + Chars(pre[1..]) == Chars(pre);
      assert acc + [Piece(Char(pre[0]), 0)] + Chars(pre[1..]) == acc + Chars(pre);
    }
  }

  /** Literal pieces match exactly their characters, then the rest matches what follows. */
  lemma {:induction false} MatchChars(pre: string, ps: seq<Piece>, s: string)
    ensures Matches(Chars(pre) + ps, s) <==> StartsWith(s, pre) && Matches(ps, s[|pre|..])
    decreases |pre|
  {
    if pre == [] {
      assert Chars(pre) + ps == ps;
    } else {
      var qs := Chars(pre) + ps;
      assert qs[0] == Piece(Char(pre[0]), 0);
      assert qs[1..] == Chars(pre[1..]) + ps;
      MatchChars(pre[1..], ps, if s == [] then [] else s[1..]);
      if s != [] && s[0] == pre[0] {
        assert StartsWith(s, pre) <==> StartsWith(s[1..], pre[1..]);
        if StartsWith(s, pre) {
          assert s[1..][|pre| - 1..] == s[|pre|..];
        }
      }
    }
  }

  lemma {:induction false} SegmentAlone(m: nat, s: string)
    ensures Matches([Piece(Segment, m)], s) <==> '/' !in s
    decreases |s|
  {
    if s != [] {
      SegmentAlone(m, s[1..]);
      assert [Piece(Segment, m)][1..] == [];
      assert s == [s[0]] + s[1..];
    }
  }

  /** No line terminator in `s`. */
  predicate OneLine(s: string) {
    forall k :: 0 <= k < |s| ==> !IsLineTerminator(s[k])
  }

  lemma {:induction false} AnyRunAlone(m: nat, s: string)
    ensures Matches([Piece(AnyRun, m)], s) <==> OneLine(s)
    decreases |s|
  {
    if s != [] {
      AnyRunAlone(m, s[1..]);
      assert [Piece(AnyRun, m)][1..] == [];
      assert forall k :: 1 <= k < |s| ==> s[k] == s[1..][k - 1];
      assert OneLine(s) ==> OneLine(s[1..]);
    }
  }

  /**
   * A pattern without `*` and `?` matches only the identical path: every
   * other regular-expression character is escaped, and the match is anchored
   * at both ends.
   */
  lemma {:induction false} GlobLiteral(pattern: string, path: string)
    requires Literal(pattern)
    ensures MatchGlob(pattern, path) == Some(path == pattern)
  {
    CompileLiteral(pattern, "", []);
    assert pattern + "" == pattern;
    assert [] + Chars(pattern) == Chars(pattern);
    MatchChars(pattern, [], path);
    assert Chars(pattern) + [] == Chars(pattern);
    if StartsWith(path, pattern) && path[|pattern|..] == [] {
      assert path == path[..|pattern|];
    }
  }

  /** A trailing `*` matches any run of characters other than '/' after the literal prefix. */
  lemma {:induction false} GlobSegment(pre: string, path: string)
    requires Literal(pre)
    ensures MatchGlob(pre + "*", path) == Some(StartsWith(path, pre) && '/' !in path[|pre|..])
  {
    CompileLiteral(pre, "*", []);
    assert [] + Chars(pre) == Chars(pre);
    assert "*"[1..] == "";
    MatchChars(pre, [Piece(Segment, 0)], path);
    if StartsWith(path, pre) {
      SegmentAlone(0, path[|pre|..]);
    }
  }

  /** A trailing `**` matches any run of characters, '/' included, after the literal prefix. */
  lemma {:induction false} GlobAnyRun(pre: string, path: string)
    requires Literal(pre)
    ensures MatchGlob(pre + "**", path) == Some(StartsWith(path, pre) && OneLine(path[|pre|..]))
  {
    CompileLiteral(pre, "**", []);
    assert [] + Chars(pre) == Chars(pre);
    assert "**"[2..] == "";
    MatchChars(pre, [Piece(AnyRun, 0)], path);
    if StartsWith(path, pre) {
      AnyRunAlone(0, path[|pre|..]);
    }
  }

  /**
   * `?` is not escaped, so it is not a literal: after a character it makes
   * that character optional, and a pattern with a trailing `?` matches the
   * path with or without its last character but not the pattern itself.
   */
  lemma {:induction false} GlobOptional(pre: string, c: char, path: string)
    requires Literal(pre + [c])
    ensures MatchGlob(pre + [c] + "?", path) == Some(path == pre + [c] || path == pre)
    ensures MatchGlob(pre + [c] + "?", pre + [c] + "?") == Some(false)
  {
    OptionalCompiles(pre, c);
    OptionalMatches(pre, c, path);
    OptionalMatches(pre, c, pre + [c] + "?");
    assert |pre + [c] + "?"| == |pre| + 2;
  }

  /** A literal followed by one `?` compiles to its characters, the last one optional. */
  lemma {:induction false} OptionalCompiles(pre: string, c: char)
    requires Literal(pre + [c])
    ensures Compile(pre + [c] + "?", []) == Some(Chars(pre) + [Piece(Char(c), 1)])
  {
    var lit := pre + [c];
    assert lit[|pre|] == c;
    assert Literal(pre) by {
      assert forall k :: 0 <= k < |pre| ==> pre[k] == lit[k];
    }
    CompileLiteral(pre, [c] + "?", []);
    assert pre + ([c] + "?") == pre + [c] + "?";
    assert [] + Chars(pre) == Chars(pre);
    var tail := [c] + "?";
    assert tail[0] == c && c != '*' && c != '?';
    assert tail[1..] == "?";
    assert "?"[1..] == "";
    var ps := Chars(pre) + [Piece(Char(c), 0)];
    assert ps[..|ps| - 1] + [Piece(Char(c), 1)] == Chars(pre) + [Piece(Char(c), 1)];
  }

  /** Those pieces match the literal with or without its last character, and nothing else. */
  lemma {:induction false} OptionalMatches(pre: string, c: char, s: string)
    ensures Matches(Chars(pre) + [Piece(Char(c), 1)], s) == (s == pre + [c] || s == pre)
  {
    MatchChars(pre, [Piece(Char(c), 1)], s);
    if StartsWith(s, pre) {
      var r := s[|pre|..];
      assert s == pre + r;
      assert [Piece(Char(c), 1)][1..] == [];
      assert Matches([Piece(Char(c), 1)], r) <==> r == [c] || r == [];
      if s == pre + [c] {
        assert r == [c];
      }
    } else {
      assert s != pre + [c] && s != pre;
    }
  }

  /** A leading `?` has nothing to repeat: the expression does not compile. */
  lemma {:induction false} GlobLeadingMark(rest: string, path: string)
    ensures MatchGlob("?" + rest, path) == None
  {
    assert ("?" + rest)[0] == '?';
  }

  // ---------------------------------------------------------------------------
  // Page rules

  /** A page rule as the widget reads it from the configuration. */
  datatype Rule = Rule(pattern: string, ruleType: string)

  function RuleOf(r: Pages.PageRule): Rule {
    Rule(r.pattern, r.ruleType)
  }

  function Rules(rs: seq<Pages.PageRule>): seq<Rule> {
    seq(|rs|, k requires 0 <= k < |rs| => RuleOf(rs[k]))
  }

  predicate HasInclude(rules: seq<Rule>) {
    exists k :: 0 <= k < |rules| && rules[k].ruleType == "include"
  }

  /**
   * `allowed` after the loop over `rules`, starting from `init`: each match
   * sets it to whether the rule includes. None when a pattern's expression
   * throws, which ends the script.
   */
  function Decide(rules: seq<Rule>, path: string, init: bool): Option<bool>
    decreases |rules|
  {
    if rules == [] then Some(init)
    else
      var n := |rules| - 1;
      match Decide(rules[..n], path, init)
      case None => None
      case Some(allowed) =>
        match MatchGlob(rules[n].pattern, path)
        case None => None
        case Some(m) => Some(if m then rules[n].ruleType == "include" else allowed)
  }

  /** Whether the widget is built on the page at `path`; None when the script throws first. */
  function Visibility(rules: seq<Rule>, path: string): Option<bool> {
    if rules == [] then Some(true) else Decide(rules, path, !HasInclude(rules))
  }

  /** Rule `r`'s pattern compiles and matches `path`. */
  predicate Hit(r: Rule, path: string) {
    MatchGlob(r.pattern, path) == Some(true)
  }

  /** Rule `r`'s pattern does not compile. */
  predicate Broken(r: Rule) {
    Compile(r.pattern, []).None?
  }

  lemma {:induction false} DecideBroken(rules: seq<Rule>, path: string, init: bool)
    ensures Decide(rules, path, init).None? <==> exists k :: 0 <= k < |rules| && Broken(rules[k])
    decreases |rules|
  {
    if rules != [] {
      var n := |rules| - 1;
      DecideBroken(rules[..n], path, init);
      assert forall k :: 0 <= k < n ==> rules[..n][k] == rules[k];
      if exists k :: 0 <= k < |rules| && Broken(rules[k]) {
        var k :| 0 <= k < |rules| && Broken(rules[k]);
        if k < n {
          assert Broken(rules[..n][k]);
        }
      }
    }
  }

  lemma {:induction false} DecideNoHit(rules: seq<Rule>, path: string, init: bool)
    requires forall k :: 0 <= k < |rules| ==> !Broken(rules[k]) && !Hit(rules[k], path)
    ensures Decide(rules, path, init) == Some(init)
    decreases |rules|
  {
    if rules != [] {
      var n := |rules| - 1;
      assert forall k :: 0 <= k < n ==> rules[..n][k] == rules[k];
      DecideNoHit(rules[..n], path, init);
    }
  }

  lemma {:induction false} DecideLastHit(rules: seq<Rule>, path: string, init: bool, j: nat)
    requires forall k :: 0 <= k < |rules| ==> !Broken(rules[k])
    requires j < |rules| && Hit(rules[j], path)
    requires forall k :: j < k < |rules| ==> !Hit(rules[k], path)
    ensures Decide(rules, path, init) == Some(rules[j].ruleType == "include")
    decreases |rules|
  {
    var n := |rules| - 1;
    var front := rules[..n];
    assert forall k :: 0 <= k < n ==> front[k] == rules[k];
    DecideBroken(front, path, init);
    if j < n {
      DecideLastHit(front, path, init, j);
    }
  }

  /**
   * The page-rule loop: when every pattern compiles, the last rule whose
   * pattern matches decides (an include shows the widget, anything else
   * hides it), and with no match the widget shows exactly when there is no
   * include rule; with no rules it always shows. The script throws exactly
   * when some pattern does not compile.
   */
  lemma {:induction false} LastMatchDecides(rules: seq<Rule>, path: string)
    ensures rules == [] ==> Visibility(rules, path) == Some(true)
    ensures Visibility(rules, path).None? <==> exists k :: 0 <= k < |rules| && Broken(rules[k])
    ensures (forall k :: 0 <= k < |rules| ==> !Broken(rules[k]) && !Hit(rules[k], path)) ==>
      Visibility(rules, path) == Some(!HasInclude(rules))
    ensures forall j ::
      (0 <= j < |rules| && Hit(rules[j], path)
       && (forall k :: 0 <= k < |rules| ==> !Broken(rules[k]))
       && (forall k :: j < k < |rules| ==> !Hit(rules[k], path)))
      ==> Visibility(rules, path) == Some(rules[j].ruleType == "include")
  {
    DecideBroken(rules, path, !HasInclude(rules));
    if forall k :: 0 <= k < |rules| ==> !Broken(rules[k]) && !Hit(rules[k], path) {
      DecideNoHit(rules, path, !HasInclude(rules));
    }
    forall j | 0 <= j < |rules| && Hit(rules[j], path)
        && (forall k :: 0 <= k < |rules| ==> !Broken(rules[k]))
        && (forall k :: j < k < |rules| ==> !Hit(rules[k], path))
      ensures Visibility(rules, path) == Some(rules[j].ruleType == "include")
    {
      DecideLastHit(rules, path, !HasInclude(rules), j);
    }
  }

  lemma {:induction false} DecidePrefixBroken(rules: seq<Rule>, i: nat, path: string, init: bool)
    requires i <= |rules| && Decide(rules[..i], path, init).None?
    ensures Decide(rules, path, init).None?
    decreases |rules|
  {
    if i == |rules| {
      assert rules[..i] == rules;
    } else {
      var n := |rules| - 1;
      assert rules[..n][..i] == rules[..i];
      DecidePrefixBroken(rules[..n], i, path, init);
    }
  }

  /** The rules `config.pageRules` holds, read as `rule.pattern` and `rule.ruleType`. */
  function ConfigRules(config: Value): seq<Rule> {
    match Get(config, "pageRules")
    case Arr(xs) => ReadRules(xs)
    case _ => []
  }

  function ReadRules(xs: seq<Value>): seq<Rule> {
    seq(|xs|, k requires 0 <= k < |xs| => Rule(StringOf(Get(xs[k], "pattern")), StringOf(Get(xs[k], "ruleType"))))
  }

  /** JavaScript truthiness of a decoded value (NaN is not modelled). */
  predicate JsTruthy(v: Value) {
    match v
    case Null => false
    case Bool(b) => b
    case Int(i) => i != 0
    case Float(r) => r != 0.0
    case Str(s) => s != ""
    case Arr(_) => true
    case Obj(_) => true
  }

  /** Whether the script goes on to build the widget: it needs the config enabled, then the rules. */
  function Shown(config: Value, path: string): Option<bool> {
    if !JsTruthy(Get(config, "enabled")) then Some(false) else Visibility(ConfigRules(config), path)
  }

  /** The opening of the script: the enable guard and the page-rule loop. */
  method ShowWidget(config: Value, path: string) returns (shown: Option<bool>)
    ensures shown == Shown(config, path)
  {
    if !JsTruthy(Get(config, "enabled")) {
      return Some(false);
    }
    var rules := ConfigRules(config);
    if |rules| == 0 {
      return Some(true);
    }
    var hasIncludes := exists k :: 0 <= k < |rules| && rules[k].ruleType == "include";
    var allowed := !hasIncludes;
    for i := 0 to |rules|
      invariant Decide(rules[..i], path, !hasIncludes) == Some(allowed)
    {
      DecideStep(rules, i, path, !hasIncludes, allowed);
      var m := MatchGlob(rules[i].pattern, path);
      if m.None? {
        DecidePrefixBroken(rules, i + 1, path, !hasIncludes);
        return None;
      }
      if m.value {
        allowed := rules[i].ruleType == "include";
      }
    }
    assert rules[..|rules|] == rules;
    assert hasIncludes == HasInclude(rules);
    return Some(allowed);
  }

  /** One more rule: a broken pattern ends the script, a match sets `allowed` to whether it includes. */
  lemma {:induction false} DecideStep(rules: seq<Rule>, i: nat, path: string, init: bool, allowed: bool)
    requires i < |rules| && Decide(rules[..i], path, init) == Some(allowed)
    ensures Decide(rules[..i + 1], path, init)
      == match MatchGlob(rules[i].pattern, path)
         case None => None
         case Some(m) => Some(if m then rules[i].ruleType == "include" else allowed)
  {
    assert rules[..i + 1][..i] == rules[..i];
    assert rules[..i + 1][i] == rules[i];
  }

  /**
   * With the configuration the plugin renders, the widget reads the table's
   * rules in sort order, each with its pattern and type, and shows exactly
   * when the plugin is enabled and the rules allow the page.
   */
  lemma {:induction false} ShownForSettings(s: PluginSettings.Settings, siteUrl: string, rows: seq<Pages.PageRule>, path: string)
    ensures ConfigRules(WidgetService.WidgetConfig(s, siteUrl, rows)) == Rules(WidgetService.OrderedRules(rows))
    ensures Shown(WidgetService.WidgetConfig(s, siteUrl, rows), path)
      == if s.enabled then Visibility(Rules(WidgetService.OrderedRules(rows)), path) else Some(false)
  {
    WidgetService.ConfigTop(s, siteUrl, rows);
    RulesReadBack(WidgetService.OrderedRules(rows));
  }

  /** Rules written as `{pattern, ruleType}` objects read back as the same rules. */
  lemma {:induction false} RulesReadBack(o: seq<Pages.PageRule>)
    ensures ReadRules(WidgetService.RuleValues(o)) == Rules(o)
  {
    var xs := WidgetService.RuleValues(o);
    forall k | 0 <= k < |xs|
      ensures Rule(StringOf(Get(xs[k], "pattern")), StringOf(Get(xs[k], "ruleType"))) == RuleOf(o[k])
    {
      LookupCons("pattern", Str(o[k].pattern), [("ruleType", Str(o[k].ruleType))], "pattern");
      LookupCons("pattern", Str(o[k].pattern), [("ruleType", Str(o[k].ruleType))], "ruleType");
      LookupCons("ruleType", Str(o[k].ruleType), [], "ruleType");
    }
  }

  // ---------------------------------------------------------------------------
  // Messages and the streamed reply

  /** `{ role, content }` in the `messages` array. */
  datatype Entry = Entry(role: string, content: string)

  /** `messages.slice(-50)`. */
  const HistoryCap := 50

  function Saved(ms: seq<Entry>): seq<Entry> {
    LastN(ms, HistoryCap)
  }

  /** What local storage holds is the last `min(50, n)` messages, in order. */
  lemma {:induction false} SavedIsTail(ms: seq<Entry>)
    ensures |Saved(ms)| == if |ms| < HistoryCap then |ms| else HistoryCap
    ensures Saved(ms) == ms[|ms| - |Saved(ms)|..]
    ensures |ms| <= HistoryCap ==> Saved(ms) == ms
  {
    var r := Saved(ms);
    assert forall k :: 0 <= k < |r| ==> r[k] == ms[|ms| - |r|..][k];
  }

  /** The JavaScript `a || b` on strings. */
  function Or(a: string, b: string): string {
    if a == "" then b else a
  }

  const ErrorFallback := "An error occurred."
  const ConnectionLost := "Connection lost. Please try again."

  /**
   * An event the `EventSource` delivers. `Error(Some(m))` is a server
   * `error` event whose JSON carries message `m` ("" when absent);
   * `Error(None)` is a connection failure, which carries no data. Both reach
   * the `error` listener and then `onerror`.
   */
  datatype Event = Token(delta: string) | ToolCall(tool: string) | Escalation | Error(payload: Option<string>) | Done

  predicate Closes(e: Event) {
    e.Done? || e.Error?
  }

  /** What the widget takes from the configuration while chatting. */
  datatype Options = Options(errorMessage: string, escalationEnabled: bool)

  /** `config.errorMessage` and `config.escalation && config.escalation.enabled`. */
  function OptionsOf(config: Value): Options {
    var e := Get(config, "errorMessage");
    var esc := Get(config, "escalation");
    Options(if e.Str? then e.s else "", JsTruthy(esc) && JsTruthy(Get(esc, "enabled")))
  }

  /** The plugin's configuration has no error message, so the widget always falls back to its own texts. */
  lemma {:induction false} OptionsForSettings(s: PluginSettings.Settings, siteUrl: string, rows: seq<Pages.PageRule>)
    ensures OptionsOf(WidgetService.WidgetConfig(s, siteUrl, rows)) == Options("", s.escalationEnabled)
  {
    WidgetService.ConfigReads(s, siteUrl, rows);
  }

  /** The widget's conversation state: the messages, what is saved, the stream flag and forms shown. */
  datatype Chat = Chat(messages: seq<Entry>, stored: seq<Entry>, streaming: bool, forms: nat)

  /** One stream: the text so far, whether the source is still open, and the chat. */
  datatype Stream = Stream(fullText: string, open: bool, chat: Chat)

  /** `messages.push(...)` followed by `saveMessages()`. */
  function Appended(c: Chat, role: string, text: string): Chat {
    var ms := c.messages + [Entry(role, text)];
    c.(messages := ms, stored := Saved(ms))
  }

  /** The `error` listener's text: the server's message, or its fallback. */
  function ListenerText(o: Options, payload: Option<string>): string {
    var m := if payload.Some? then payload.value else Or(o.errorMessage, ErrorFallback);
    Or(m, ErrorFallback)
  }

  /** `onerror`'s message: the partial reply if there is one, else the connection-lost text. */
  function HandlerText(o: Options, fullText: string): string {
    if fullText == "" then Or(o.errorMessage, ConnectionLost) else fullText
  }

  function Finished(st: Stream): Stream {
    st.(open := false, chat := st.chat.(streaming := false))
  }

  /** The handlers the stream runs for one event; nothing runs once the source is closed. */
  function Step(o: Options, st: Stream, e: Event): Stream {
    if !st.open then st
    else
      match e
      case Token(d) => st.(fullText := st.fullText + d)
      case ToolCall(_) => st
      case Escalation => if o.escalationEnabled then st.(chat := st.chat.(forms := st.chat.forms + 1)) else st
      case Error(p) =>
        var c := Appended(Appended(st.chat, "assistant", ListenerText(o, p)), "assistant", HandlerText(o, st.fullText));
        Finished(st.(chat := c))
      case Done =>
        Finished(if st.fullText != "" then st.(chat := Appended(st.chat, "assistant", st.fullText)) else st)
  }

  function Run(o: Options, st: Stream, es: seq<Event>): Stream
    decreases |es|
  {
    if es == [] then st else Step(o, Run(o, st, es[..|es| - 1]), es[|es| - 1])
  }

  /** `streamResponse` before any event: streaming, no text, the source open. */
  function Opened(c: Chat): Stream {
    Stream("", true, c.(streaming := true))
  }

  /** `fullText += data.delta` over the token events. */
  function Deltas(es: seq<Event>): string
    decreases |es|
  {
    if es == [] then ""
    else Deltas(es[..|es| - 1]) + (if es[|es| - 1].Token? then es[|es| - 1].delta else "")
  }

  /** How many escalation forms the events open. */
  function FormsOpened(o: Options, es: seq<Event>): nat
    decreases |es|
  {
    if es == [] then 0
    else FormsOpened(o, es[..|es| - 1]) + (if o.escalationEnabled && es[|es| - 1].Escalation? then 1 else 0)
  }

  predicate NoClose(es: seq<Event>) {
    forall k :: 0 <= k < |es| ==> !Closes(es[k])
  }

  /**
   * Until `done` or an error, the stream stays open, its text is the
   * in-order concatenation of the token deltas, and the only change to the
   * chat is the forms the escalation events open.
   */
  lemma {:induction false} StreamText(o: Options, c: Chat, es: seq<Event>)
    requires NoClose(es)
    ensures Run(o, Opened(c), es) == Stream(Deltas(es), true, c.(streaming := true, forms := c.forms + FormsOpened(o, es)))
    decreases |es|
  {
    if es != [] {
      var n := |es| - 1;
      assert forall k :: 0 <= k < n ==> es[..n][k] == es[k];
      StreamText(o, c, es[..n]);
      assert !Closes(es[n]);
    }
  }

  /** `done` saves the reply only when there is text, and ends the stream. */
  lemma {:induction false} StreamDone(o: Options, c: Chat, es: seq<Event>)
    requires NoClose(es)
    ensures var st := Run(o, Opened(c), es + [Done]);
      && !st.open && !st.chat.streaming
      && st.chat.messages == c.messages + (if Deltas(es) == "" then [] else [Entry("assistant", Deltas(es))])
      && st.chat.stored == (if Deltas(es) == "" then c.stored else Saved(st.chat.messages))
  {
    assert (es + [Done])[..|es|] == es;
    StreamText(o, c, es);
  }

  /**
   * An error shows the listener's message and then runs `onerror`, which
   * keeps the partial reply, or with no text adds the connection-lost
   * message; the stream ends.
   */
  lemma {:induction false} StreamError(o: Options, c: Chat, es: seq<Event>, p: Option<string>)
    requires NoClose(es)
    ensures var st := Run(o, Opened(c), es + [Error(p)]);
      && !st.open && !st.chat.streaming
      && st.chat.messages == c.messages + [Entry("assistant", ListenerText(o, p)), Entry("assistant", HandlerText(o, Deltas(es)))]
      && st.chat.stored == Saved(st.chat.messages)
  {
    assert (es + [Error(p)])[..|es|] == es;
    StreamText(o, c, es);
  }

  lemma {:induction false} ClosedIgnores(o: Options, st: Stream, es: seq<Event>)
    requires !st.open
    ensures Run(o, st, es) == st
    decreases |es|
  {
    if es != [] {
      ClosedIgnores(o, st, es[..|es| - 1]);
    }
  }

  lemma {:induction false} RunAppend(o: Options, st: Stream, es: seq<Event>, rest: seq<Event>)
    ensures Run(o, st, es + rest) == Run(o, Run(o, st, es), rest)
    decreases |rest|
  {
    if rest == [] {
      assert es + rest == es;
    } else {
      var n := |rest| - 1;
      assert (es + rest)[..|es + rest| - 1] == es + rest[..n];
      RunAppend(o, st, es, rest[..n]);
    }
  }

  /** Events after `done` or an error change nothing: the handlers closed the source. */
  lemma {:induction false} StreamEndsAtClose(o: Options, c: Chat, es: seq<Event>, e: Event, rest: seq<Event>)
    requires NoClose(es) && Closes(e)
    ensures Run(o, Opened(c), es + [e] + rest) == Run(o, Opened(c), es + [e])
  {
    assert (es + [e])[..|es|] == es;
    StreamText(o, c, es);
    RunAppend(o, Opened(c), es + [e], rest);
    ClosedIgnores(o, Run(o, Opened(c), es + [e]), rest);
  }

  /** Every handler that changes the messages saves: storage stays their last 50, and messages only grow. */
  lemma {:induction false} RunKeepsSaved(o: Options, st: Stream, es: seq<Event>)
    ensures st.chat.messages <= Run(o, st, es).chat.messages
    ensures st.chat.stored == Saved(st.chat.messages) ==>
      Run(o, st, es).chat.stored == Saved(Run(o, st, es).chat.messages)
    decreases |es|
  {
    if es != [] {
      RunKeepsSaved(o, st, es[..|es| - 1]);
    }
  }

  /** The server's closing frames after a failure: an `error` event with its message, then `done`. */
  function EventOf(f: ChatApi.Frame): Option<Event> {
    if f.event == "token" then Some(Token(StringOf(Get(f.data, "delta"))))
    else if f.event == "tool_call" then Some(ToolCall(StringOf(Get(f.data, "tool"))))
    else if f.event == "escalation" then Some(Escalation)
    else if f.event == "error" then Some(Error(Some(StringOf(Get(f.data, "message")))))
    else if f.event == "done" then Some(Done)
    else None
  }

  /**
   * When the stream fails before any text, the widget shows the server's
   * message and then, because the same event also reaches `onerror`, the
   * connection-lost message as a second reply.
   */
  lemma {:induction false} ClosingShowsTwoErrors(o: Options, c: Chat, message: string)
    ensures EventOf(ChatApi.Closing(message)[0]) == Some(Error(Some(message)))
    ensures EventOf(ChatApi.Closing(message)[1]) == Some(Done)
    ensures Run(o, Opened(c), [Error(Some(message)), Done]).chat.messages
      == c.messages + [Entry("assistant", Or(message, ErrorFallback)), Entry("assistant", Or(o.errorMessage, ConnectionLost))]
  {
    LookupCons("message", Str(message), [], "message");
    StreamEndsAtClose(o, c, [], Error(Some(message)), [Done]);
    StreamError(o, c, [], Some(message));
    assert [] + [Error(Some(message))] == [Error(Some(message))];
    assert [] + [Error(Some(message))] + [Done] == [Error(Some(message)), Done];
  }

  /**
   * `sendMessage`: nothing happens when the trimmed input is empty or a
   * stream is in progress; otherwise the user's message goes in first and
   * the stream's events are handled.
   */
  function Send(o: Options, c: Chat, input: string, es: seq<Event>): (Option<string>, Chat) {
    var text := JsTrim(input);
    if text == "" || c.streaming then (None, c)
    else (Some(text), Run(o, Opened(Appended(c, "user", text)), es).chat)
  }

  /**
   * The guard holds in both directions; a message that passes it is the
   * trimmed input, appended as the user's message before anything the
   * stream adds; storage keeps the last 50 messages.
   */
  lemma {:induction false} SendGuard(o: Options, c: Chat, input: string, es: seq<Event>)
    ensures Send(o, c, input, es).0.None? <==> JsTrim(input) == "" || c.streaming
    ensures Send(o, c, input, es).0.None? ==> Send(o, c, input, es).1 == c
    ensures Send(o, c, input, es).0.Some? ==>
      && Send(o, c, input, es).0.value == JsTrim(input)
      && c.messages + [Entry("user", JsTrim(input))] <= Send(o, c, input, es).1.messages
      && Send(o, c, input, es).1.stored == Saved(Send(o, c, input, es).1.messages)
  {
    var text := JsTrim(input);
    if text != "" && !c.streaming {
      RunKeepsSaved(o, Opened(Appended(c, "user", text)), es);
    }
  }

  // ---------------------------------------------------------------------------
  // The escalation form

  /** An input of the form: its `name` attribute and what was typed. */
  datatype Input = Input(name: string, value: string)

  /** `esc.customQuestions || []` then `.length`: a list's length, a string's length, otherwise none. */
  function QuestionCount(v: Value): nat {
    match v
    case Arr(xs) => |xs|
    case Str(s) => |s|
    case _ => 0
  }

  function CustomNames(n: nat): seq<string> {
    seq(n, q requires 0 <= q < n => "custom_" + NatToString(q))
  }

  /** The inputs `showEscalationForm` builds, in order. */
  function FormFields(esc: Value): seq<string> {
    var fields := Get(esc, "fields");
    (if JsTruthy(Get(fields, "name")) then ["name"] else [])
    + (if JsTruthy(Get(fields, "email")) then ["email"] else [])
    + (if JsTruthy(Get(fields, "phone")) then ["phone"] else [])
    + CustomNames(QuestionCount(Get(esc, "customQuestions")))
  }

  /**
   * The form for the plugin's settings: one input per enabled field, then
   * one per custom question when they arrive as a list; when a blank line
   * comes before the first question they arrive as an object and the form
   * shows none of them.
   */
  lemma {:induction false} FormForSettings(s: PluginSettings.Settings)
    ensures var qs := WidgetService.CustomQuestions(s.escalationCustomQuestions);
      FormFields(WidgetService.EscalationConfig(s))
        == (if s.escalationFieldName then ["name"] else [])
         + (if s.escalationFieldEmail then ["email"] else [])
         + (if s.escalationFieldPhone then ["phone"] else [])
         + CustomNames(QuestionCount(WidgetService.QuestionsValue(qs)))
    ensures var lines := Split(s.escalationCustomQuestions, '\n');
      (forall i :: 0 <= i < |lines| ==> WidgetService.IsQuestion(lines[i])) ==>
        QuestionCount(WidgetService.QuestionsValue(WidgetService.CustomQuestions(s.escalationCustomQuestions))) == |lines|
    ensures var lines := Split(s.escalationCustomQuestions, '\n');
      |lines| > 0 && !WidgetService.IsQuestion(lines[0]) && WidgetService.KeptLines(lines) != [] ==>
        QuestionCount(WidgetService.QuestionsValue(WidgetService.CustomQuestions(s.escalationCustomQuestions))) == 0
  {
    WidgetService.EscalationReads(s);
    WidgetService.FlagReads(s);
    WidgetService.QuestionsShape(Split(s.escalationCustomQuestions, '\n'));
  }

  /** Only the name and email inputs are required. */
  predicate Required(name: string) {
    name == "name" || name == "email"
  }

  /** A required input left blank once trimmed. */
  predicate Blocks(i: Input) {
    Required(i.name) && JsTrim(i.value) == ""
  }

  /** What `contactData` holds for an input. */
  function Entered(i: Input): Value {
    Str(JsTrim(i.value))
  }

  /** `contactData[inp.name] = inp.value.trim()` over the inputs in order. */
  function ContactOf(inputs: seq<Input>): seq<(string, Value)>
    decreases |inputs|
  {
    if inputs == [] then []
    else
      var n := |inputs| - 1;
      Put(ContactOf(inputs[..n]), inputs[n].name, Entered(inputs[n]))
  }

  /** The contact the form posts, or None when a required input is blank. */
  function Submission(inputs: seq<Input>): Option<Value> {
    if exists k :: 0 <= k < |inputs| && Blocks(inputs[k]) then None else Some(Obj(ContactOf(inputs)))
  }

  lemma {:induction false} ContactMissing(inputs: seq<Input>, key: string)
    requires forall k :: 0 <= k < |inputs| ==> inputs[k].name != key
    ensures Lookup(ContactOf(inputs), key) == Null
    decreases |inputs|
  {
    if inputs != [] {
      var n := |inputs| - 1;
      var front := inputs[..n];
      assert forall k :: 0 <= k < n ==> front[k] == inputs[k];
      ContactMissing(front, key);
      PutLookup(ContactOf(front), inputs[n].name, Entered(inputs[n]), key);
    }
  }

  lemma {:induction false} ContactLast(inputs: seq<Input>, key: string, j: nat)
    requires j < |inputs| && inputs[j].name == key
    requires forall k :: j < k < |inputs| ==> inputs[k].name != key
    ensures Lookup(ContactOf(inputs), key) == Entered(inputs[j])
    decreases |inputs|
  {
    var n := |inputs| - 1;
    var front := inputs[..n];
    PutLookup(ContactOf(front), inputs[n].name, Entered(inputs[n]), key);
    if j < n {
      assert forall k :: j < k < n ==> front[k] == inputs[k];
      ContactLast(front, key, j);
    }
  }

  /**
   * Each input's name reads back its trimmed value, unless a later input
   * has the same name; a name no input has reads nothing.
   */
  lemma {:induction false} ContactReads(inputs: seq<Input>, key: string)
    ensures (forall k :: 0 <= k < |inputs| ==> inputs[k].name != key) ==> Lookup(ContactOf(inputs), key) == Null
    ensures forall j ::
      (0 <= j < |inputs| && inputs[j].name == key && (forall k :: j < k < |inputs| ==> inputs[k].name != key))
      ==> Lookup(ContactOf(inputs), key) == Str(JsTrim(inputs[j].value))
  {
    if forall k :: 0 <= k < |inputs| ==> inputs[k].name != key {
      ContactMissing(inputs, key);
    }
    forall j | 0 <= j < |inputs| && inputs[j].name == key && (forall k :: j < k < |inputs| ==> inputs[k].name != key)
      ensures Lookup(ContactOf(inputs), key) == Str(JsTrim(inputs[j].value))
    {
      ContactLast(inputs, key, j);
    }
  }

  /** The custom inputs are never required. */
  lemma {:induction false} CustomNotRequired(n: nat)
    ensures forall q :: 0 <= q < n ==> !Required(CustomNames(n)[q])
  {
    forall q | 0 <= q < n ensures !Required(CustomNames(n)[q]) {
      assert CustomNames(n)[q][0] == 'c';
    }
  }

  /**
   * With the name and email fields switched off the form always submits,
   * whatever is left blank: phone and custom inputs are never required.
   */
  lemma {:induction false} OptionalFieldsNeverBlock(esc: Value, values: seq<string>)
    requires |values| == |FormFields(esc)|
    requires !JsTruthy(Get(Get(esc, "fields"), "name")) && !JsTruthy(Get(Get(esc, "fields"), "email"))
    ensures Submission(seq(|values|, k requires 0 <= k < |values| => Input(FormFields(esc)[k], values[k]))).Some?
  {
    var names := FormFields(esc);
    var n := QuestionCount(Get(esc, "customQuestions"));
    CustomNotRequired(n);
    var phone := if JsTruthy(Get(Get(esc, "fields"), "phone")) then ["phone"] else [];
    assert names == phone + CustomNames(n);
    assert forall k :: 0 <= k < |names| ==> !Required(names[k]) by {
      forall k | 0 <= k < |names| ensures !Required(names[k]) {
        if k >= |phone| {
          assert names[k] == CustomNames(n)[k - |phone|];
        }
      }
    }
  }

  /** The body posted to the escalate endpoint. */
  function EscalationRequest(sessionId: string, contact: Value): Value {
    Obj([("sessionId", Str(sessionId)), ("contact", contact)])
  }

  /** String `replace` with a string pattern: only the first occurrence. */
  function ReplaceFirst(s: string, pat: string, rep: string): string
    decreases |s|
  {
    if StartsWith(s, pat) then rep + s[|pat|..]
    else if s == [] then []
    else [s[0]] + ReplaceFirst(s[1..], pat, rep)
  }

  const StreamPath := "/ai-agent/chat/stream"

  /** `config.endpoints.stream.replace('/ai-agent/chat/stream', '') + '/ai-agent/escalate'`. */
  function EscalateUrl(stream: string): string {
    ReplaceFirst(stream, StreamPath, "") + "/ai-agent/escalate"
  }

  lemma {:induction false} ReplaceFirstAt(pre: string, pat: string, post: string, rep: string)
    requires forall i :: 0 <= i < |pre| ==> !StartsWith((pre + pat + post)[i..], pat)
    ensures ReplaceFirst(pre + pat + post, pat, rep) == pre + rep + post
    decreases |pre|
  {
    var s := pre + pat + post;
    if pre == [] {
      assert s == pat + post && StartsWith(s, pat);
      assert s[|pat|..] == post;
    } else {
      assert !StartsWith(s[0..], pat) && s[0..] == s;
      assert s[1..] == pre[1..] + pat + post;
      forall i | 0 <= i < |pre[1..]| ensures !StartsWith((pre[1..] + pat + post)[i..], pat) {
        assert (pre[1..] + pat + post)[i..] == s[i + 1..];
      }
      ReplaceFirstAt(pre[1..], pat, post, rep);
      assert [pre[0]] + (pre[1..] + rep + post) == pre + rep + post;
    }
  }

  /**
   * The form posts to the site's escalate endpoint, unless the stream path
   * already occurs earlier in the stream URL, where `replace` would cut the
   * URL at that first occurrence instead.
   */
  lemma {:induction false} EscalateUrlForSite(siteUrl: string)
    requires forall i :: 0 <= i < |WidgetService.BaseUrl(siteUrl)| ==>
      !StartsWith(WidgetService.StreamEndpoint(siteUrl)[i..], StreamPath)
    ensures EscalateUrl(WidgetService.StreamEndpoint(siteUrl)) == WidgetService.BaseUrl(siteUrl) + "/ai-agent/escalate"
  {
    var b := WidgetService.BaseUrl(siteUrl);
    assert WidgetService.StreamEndpoint(siteUrl) == b + StreamPath + "";
    ReplaceFirstAt(b, StreamPath, "", "");
    assert b + "" + "" == b;
  }

  /** How the `fetch` of the escalate endpoint settles. */
  datatype Outcome = Replied(data: Value) | Rejected

  const ThankYou := "Thank you! We will be in touch."
  const SubmitFailed := "Sorry, there was an error submitting the form. Please try again."

  /** A non-empty string value, the only kind of confirmation this model shows. */
  function Text(v: Value): Option<string> {
    if v.Str? && v.s != "" then Some(v.s) else None
  }

  /** `(data && data.confirmation) || esc.confirmation || 'Thank you! We will be in touch.'`. */
  function ConfirmationText(data: Value, esc: Value): string {
    var own := if JsTruthy(data) then Text(Get(data, "confirmation")) else None;
    if own.Some? then own.value
    else if Text(Get(esc, "confirmation")).Some? then Text(Get(esc, "confirmation")).value
    else ThankYou
  }

  /** The message the widget adds once the request settles. */
  function SubmitMessage(esc: Value, outcome: Outcome): string {
    if outcome.Replied? then ConfirmationText(outcome.data, esc) else SubmitFailed
  }

  /**
   * Whatever the escalate endpoint answers, the widget shows the same
   * message: the configured confirmation, or the built-in thanks when it is
   * empty. An unknown session records nothing, yet its reply still shows
   * the confirmation, because the error comes back as a normal JSON body.
   */
  lemma {:induction false} ConfirmationForSettings(db: ChatApi.Db, s: PluginSettings.Settings, sessionId: string, contact: Value, now: int)
    ensures ChatApi.EscalateAction(db, s, sessionId, contact, now).1.Body?
    ensures SubmitMessage(WidgetService.EscalationConfig(s), Replied(ChatApi.EscalateAction(db, s, sessionId, contact, now).1.json))
      == Or(s.escalationConfirmation, ThankYou)
  {
    WidgetService.EscalationReads(s);
    LookupCons("error", Str("Session ID required."), [("status", Str("error"))], "confirmation");
    LookupCons("error", Str("Conversation not found."), [("status", Str("error"))], "confirmation");
    LookupCons("status", Str("error"), [], "confirmation");
    LookupCons("status", Str("ok"), [("confirmation", Str(s.escalationConfirmation))], "confirmation");
    LookupCons("confirmation", Str(s.escalationConfirmation), [], "confirmation");
  }

  // ---------------------------------------------------------------------------
  // The widget's state

  class ChatWidget {
    /** The `messages` array. */
    var messages: seq<Entry>
    /** What local storage holds under the session's key. */
    var stored: seq<Entry>
    var isStreaming: bool
    /** How many escalation forms have been shown. */
    var forms: nat
    const options: Options

    function State(): Chat
      reads this
    {
      Chat(messages, stored, isStreaming, forms)
    }

    /** The widget starting with the history `loadMessages` read back. */
    constructor (loaded: seq<Entry>, options: Options)
      ensures State() == Chat(loaded, loaded, false, 0) && this.options == options
    {
      messages := loaded;
      stored := loaded;
      isStreaming := false;
      forms := 0;
      this.options := options;
    }

    /** `saveMessages`. */
    method SaveMessages()
      modifies this
      ensures State() == old(State()).(stored := Saved(messages))
    {
      stored := Saved(messages);
    }

    /** `addUserMessage` and `addBotMessage` (saving): push, then save. */
    method AddMessage(role: string, text: string)
      modifies this
      ensures State() == Appended(old(State()), role, text)
    {
      messages := messages + [Entry(role, text)];
      SaveMessages();
    }

    /** The `error` listener and then `onerror`, for the same event. */
    method OnError(payload: Option<string>, fullText: string)
      modifies this
      ensures State() == Appended(Appended(old(State()), "assistant", ListenerText(options, payload)), "assistant", HandlerText(options, fullText)).(streaming := false)
    {
      var data := if payload.Some? then payload.value else Or(options.errorMessage, ErrorFallback);
      AddMessage("assistant", Or(data, ErrorFallback));
      isStreaming := false;
      if fullText == "" {
        AddMessage("assistant", Or(options.errorMessage, ConnectionLost));
      } else {
        AddMessage("assistant", fullText);
      }
      isStreaming := false;
    }

    /** `streamResponse`, handling the events the source delivers in order. */
    method StreamResponse(events: seq<Event>)
      modifies this
      ensures State() == Run(options, Opened(old(State())), events).chat
    {
      ghost var c0 := State();
      isStreaming := true;
      var fullText := "";
      var open := true;
      for i := 0 to |events|
        invariant Stream(fullText, open, State()) == Run(options, Opened(c0), events[..i])
      {
        assert events[..i + 1][..i] == events[..i];
        if open {
          match events[i]
          case Token(delta) =>
            fullText := fullText + delta;
          case ToolCall(_) =>
          case Escalation =>
            if options.escalationEnabled {
              forms := forms + 1;
            }
          case Error(payload) =>
            OnError(payload, fullText);
            open := false;
          case Done =>
            if fullText != "" {
              AddMessage("assistant", fullText);
            }
            isStreaming := false;
            open := false;
        }
      }
      assert events[..|events|] == events;
    }

    /** `sendMessage` with the input box's value. */
    method SendMessage(input: string, events: seq<Event>) returns (sent: Option<string>)
      modifies this
      ensures (sent, State()) == Send(options, old(State()), input, events)
    {
      var text := JsTrim(input);
      if text == "" || isStreaming {
        return None;
      }
      AddMessage("user", text);
      StreamResponse(events);
      return Some(text);
    }

    /**
     * The submit button, with `config.endpoints.stream` as `stream`: the URL
     * and request body posted, or None when a required input is blank; once
     * the request settles, the message it adds.
     */
    method SubmitEscalation(esc: Value, stream: string, inputs: seq<Input>, sessionId: string, outcome: Outcome)
      returns (request: Option<(string, Value)>)
      modifies this
      ensures Submission(inputs).None? ==> request.None? && State() == old(State())
      ensures Submission(inputs).Some? ==>
        request == Some((EscalateUrl(stream), EscalationRequest(sessionId, Submission(inputs).value)))
        && State() == Appended(old(State()), "assistant", SubmitMessage(esc, outcome))
    {
      var contact, hasRequired := CollectContact(inputs);
      if !hasRequired {
        return None;
      }
      var siteUrl := ReplaceFirst(stream, StreamPath, "");
      request := Some((siteUrl + "/ai-agent/escalate", EscalationRequest(sessionId, Obj(contact))));
      AddMessage("assistant", SubmitMessage(esc, outcome));
    }
  }

  /** The `forEach` over the inputs: the contact data and whether every required input was filled. */
  method CollectContact(inputs: seq<Input>) returns (contact: seq<(string, Value)>, hasRequired: bool)
    ensures contact == ContactOf(inputs)
    ensures hasRequired <==> Submission(inputs).Some?
  {
    contact := [];
    hasRequired := true;
    for i := 0 to |inputs|
      invariant contact == ContactOf(inputs[..i])
      invariant hasRequired <==> forall k :: 0 <= k < i ==> !Blocks(inputs[k])
    {
      assert inputs[..i + 1][..i] == inputs[..i];
      var val := JsTrim(inputs[i].value);
      contact := Put(contact, inputs[i].name, Str(val));
      if val == "" && (inputs[i].name == "name" || inputs[i].name == "email") {
        hasRequired := false;
      }
    }
    assert inputs[..|inputs|] == inputs;
  }
}
