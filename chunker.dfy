/**
 * The text side of knowledge-base ingestion (KnowledgeBaseService): the
 * token estimate, line-ending and blank-line normalisation, the paragraph and
 * sentence splits, and the token-budgeted chunker with tail overlap.
 *
 * `Chunks` and `SentenceChunks` are the specifications: left folds of one
 * step per paragraph (per sentence). The methods `ChunkText` and
 * `ChunkBySentences` are the loops of the source, proved equal to them, and
 * the lemmas state what the folds promise.
 */
module Chunker {
  import opened Strings

  const ChunkSize: nat := 500
  const ChunkOverlap: nat := 50

  // ---------------------------------------------------------------------------
  // Token estimate

  /** A character `str_word_count` counts as part of a word: ASCII letter, apostrophe, hyphen. */
  predicate IsWordChar(c: char) {
    ('a' <= c <= 'z') || ('A' <= c <= 'Z') || c == '\'' || c == '-'
  }

  /** Position `i` starts a maximal run of word characters. */
  predicate StartsWord(s: string, i: nat)
    requires i < |s|
  {
    IsWordChar(s[i]) && (i == 0 || !IsWordChar(s[i - 1]))
  }

  /** Number of maximal runs of word characters (PHP `str_word_count($s)`). */
  function WordCount(s: string): nat {
    if s == [] then 0
    else WordCount(s[..|s| - 1]) + (if StartsWord(s, |s| - 1) then 1 else 0)
  }

  /** `(int) ceil(str_word_count($s) * 1.3)`: the least integer not below 1.3 times the word count. */
  function EstimateTokens(s: string): (r: nat)
    ensures 13 * WordCount(s) <= 10 * r < 13 * WordCount(s) + 10
  {
    (13 * WordCount(s) + 9) / 10
  }

  /** The estimate grows with the word count. */
  lemma {:induction false} EstimateMonotone(a: string, b: string)
    requires WordCount(a) <= WordCount(b)
    ensures EstimateTokens(a) <= EstimateTokens(b)
  {
  }

  /** A text without word characters has no words, hence estimate 0. */
  lemma {:induction false} WordlessEstimate(s: string)
    requires forall i :: 0 <= i < |s| ==> !IsWordChar(s[i])
    ensures WordCount(s) == 0 && EstimateTokens(s) == 0
  {
    if s != [] {
      WordlessEstimate(s[..|s| - 1]);
    }
  }

  /** Word counts add up across a boundary that does not glue two word characters together. */
  lemma {:induction false} WordCountConcat(a: string, b: string)
    requires a == [] || b == [] || !IsWordChar(a[|a| - 1]) || !IsWordChar(b[0])
    ensures WordCount(a + b) == WordCount(a) + WordCount(b)
    decreases |b|
  {
    if b == [] {
      assert a + b == a;
    } else {
      var b' := b[..|b| - 1];
      assert (a + b)[..|a + b| - 1] == a + b';
      if b' != [] {
        assert b'[0] == b[0];
        assert (a + b)[|a + b| - 2] == b[|b| - 2];
      } else if a != [] {
        assert (a + b)[|a + b| - 2] == a[|a| - 1];
      }
      WordCountConcat(a, b');
      assert StartsWord(a + b, |a + b| - 1) == StartsWord(b, |b| - 1);
    }
  }

  /** Word counts add up across a separator made of non-word characters. */
  lemma {:induction false} WordCountGlue(a: string, sep: string, b: string)
    requires sep != [] && forall i :: 0 <= i < |sep| ==> !IsWordChar(sep[i])
    ensures WordCount(a + sep + b) == WordCount(a) + WordCount(b)
  {
    WordlessEstimate(sep);
    WordCountConcat(a, sep);
    assert (a + sep)[|a + sep| - 1] == sep[|sep| - 1];
    WordCountConcat(a + sep, b);
  }

  /** Trimming removes no words. */
  lemma {:induction false} WordCountTrim(s: string)
    ensures WordCount(Trim(s)) == WordCount(s)
  {
    var pre, post := TrimBySplit(s, IsPhpTrimChar);
    var t := Trim(s);
    WordlessEstimate(pre);
    WordlessEstimate(post);
    WordCountConcat(pre, t);
    WordCountConcat(pre + t, post);
  }

  // ---------------------------------------------------------------------------
  // Normalisation and splitting

  predicate IsNewline(c: char) { c == '\n' }

  predicate IsSentenceEnd(c: char) { c == '.' || c == '!' || c == '?' }

  /** `preg_replace('/\r\n?/', "\n", $s)`. */
  function NormalizeLineEndings(s: string): (r: string)
    ensures '\r' !in r
  {
    if s == [] then []
    else if s[0] == '\r' then
      "\n" + NormalizeLineEndings(if |s| > 1 && s[1] == '\n' then s[2..] else s[1..])
    else
      [s[0]] + NormalizeLineEndings(s[1..])
  }

  /** `preg_replace('/\n{3,}/', "\n\n", $s)`. */
  function CollapseBlankLines(s: string): string {
    CollapseRuns(s, IsNewline, 3, "\n\n")
  }

  /** The text the chunker splits: line endings unified, blank-line runs collapsed. */
  function Normalize(text: string): string {
    CollapseBlankLines(NormalizeLineEndings(text))
  }

  /** `preg_split('/\n\n+/', $s)`: pieces between maximal runs of two or more newlines. */
  function SplitParagraphs(s: string): (r: seq<string>)
    ensures |r| >= 1
  {
    ParagraphsFrom(s, "")
  }

  /** The split, with `cur` the part of the current piece already read. */
  function ParagraphsFrom(s: string, cur: string): (r: seq<string>)
    ensures |r| >= 1
    decreases |s|
  {
    if s == [] then [cur]
    else if |s| >= 2 && s[0] == '\n' && s[1] == '\n' then
      [cur] + ParagraphsFrom(s[RunLength(s, IsNewline)..], "")
    else
      ParagraphsFrom(s[1..], cur + [s[0]])
  }

  /**
   * `preg_split('/(?<=[.!?])\s+/', $s)`: pieces between maximal runs of `\s`
   * that directly follow '.', '!' or '?'.
   */
  function SplitSentences(s: string): (r: seq<string>)
    ensures |r| >= 1
  {
    SentencesFrom(s, "")
  }

  function SentencesFrom(s: string, cur: string): (r: seq<string>)
    ensures |r| >= 1
    decreases |s|
  {
    if s == [] then [cur]
    else if cur != [] && IsSentenceEnd(cur[|cur| - 1]) && IsPcreSpace(s[0]) then
      [cur] + SentencesFrom(s[RunLength(s, IsPcreSpace)..], "")
    else
      SentencesFrom(s[1..], cur + [s[0]])
  }

  // ---------------------------------------------------------------------------
  // The chunker as a fold

  /** The loop state of both chunkers: the chunks emitted so far and the open chunk. */
  datatype Pending = Pending(chunks: seq<string>, current: string)

  /** The final flush: the open chunk is emitted when its trim is not PHP-empty. */
  function Close(st: Pending): seq<string> {
    st.chunks + (if !PhpEmpty(Trim(st.current)) then [Trim(st.current)] else [])
  }

  /** One iteration of `_chunkBySentences`. */
  function SentenceStep(st: Pending, sentence: string): Pending {
    var combined := st.current + " " + sentence;
    if EstimateTokens(combined) > ChunkSize && !PhpEmpty(st.current) then
      Pending(st.chunks + [Trim(st.current)], sentence)
    else
      Pending(st.chunks, Trim(combined))
  }

  function SentenceFold(ss: seq<string>): Pending {
    if ss == [] then Pending([], "")
    else SentenceStep(SentenceFold(ss[..|ss| - 1]), ss[|ss| - 1])
  }

  /** `_chunkBySentences($text)`. */
  function SentenceChunks(text: string): seq<string> {
    Close(SentenceFold(SplitSentences(text)))
  }

  /** The overlap carried into the next chunk: the last 50 space-separated pieces. */
  function Overlap(current: string): string {
    Join(LastN(Split(current, ' '), ChunkOverlap), " ")
  }

  /** One iteration of the paragraph loop of `_chunkText`. */
  function ParagraphStep(st: Pending, raw: string): Pending {
    var para := Trim(raw);
    if PhpEmpty(para) then st
    else if EstimateTokens(para) > ChunkSize then
      var closed := if !PhpEmpty(st.current) then st.chunks + [Trim(st.current)] else st.chunks;
      Pending(closed + SentenceChunks(para), if !PhpEmpty(st.current) then "" else st.current)
    else if EstimateTokens(st.current + "\n\n" + para) > ChunkSize && !PhpEmpty(st.current) then
      Pending(st.chunks + [Trim(st.current)], Overlap(st.current) + "\n\n" + para)
    else
      Pending(st.chunks, st.current + (if PhpEmpty(st.current) then "" else "\n\n") + para)
  }

  function ParagraphFold(ps: seq<string>): Pending {
    if ps == [] then Pending([], "")
    else ParagraphStep(ParagraphFold(ps[..|ps| - 1]), ps[|ps| - 1])
  }

  /** The paragraphs `_chunkText` iterates over. */
  function Paragraphs(text: string): seq<string> {
    SplitParagraphs(Normalize(text))
  }

  /** `_chunkText($text)`. */
  function Chunks(text: string): seq<string> {
    Close(ParagraphFold(Paragraphs(text)))
  }

  // ---------------------------------------------------------------------------
  // The loops

  /** The sentence loop of `_chunkBySentences`. */
  method ChunkBySentences(text: string) returns (chunks: seq<string>)
    ensures chunks == SentenceChunks(text)
  {
    var sentences := SplitSentences(text);
    chunks := [];
    var current := "";
    var i := 0;
    while i < |sentences|
      invariant 0 <= i <= |sentences|
      invariant Pending(chunks, current) == SentenceFold(sentences[..i])
    {
      var sentence := sentences[i];
      assert sentences[..i + 1][..i] == sentences[..i];
      assert SentenceFold(sentences[..i + 1]) == SentenceStep(SentenceFold(sentences[..i]), sentence);
      var combined := current + " " + sentence;
      if EstimateTokens(combined) > ChunkSize && !PhpEmpty(current) {
        chunks := chunks + [Trim(current)];
        current := sentence;
      } else {
        current := Trim(combined);
      }
      i := i + 1;
    }
    assert sentences[..i] == sentences;
    if !PhpEmpty(Trim(current)) {
      chunks := chunks + [Trim(current)];
    }
  }

  /** `foreach ($extra as $x) { $chunks[] = $x; }` */
  method AppendAll(chunks: seq<string>, extra: seq<string>) returns (r: seq<string>)
    ensures r == chunks + extra
  {
    r := chunks;
    var k := 0;
    while k < |extra|
      invariant 0 <= k <= |extra|
      invariant r == chunks + extra[..k]
    {
      r := r + [extra[k]];
      assert extra[..k + 1] == extra[..k] + [extra[k]];
      k := k + 1;
    }
    assert extra[..k] == extra;
  }

  /** The paragraph loop of `_chunkText`. */
  method ChunkText(text: string) returns (chunks: seq<string>)
    ensures chunks == Chunks(text)
  {
    var paragraphs := Paragraphs(text);
    chunks := [];
    var current := "";
    var i := 0;
    while i < |paragraphs|
      invariant 0 <= i <= |paragraphs|
      invariant Pending(chunks, current) == ParagraphFold(paragraphs[..i])
    {
      assert paragraphs[..i + 1][..i] == paragraphs[..i];
      ghost var before := Pending(chunks, current);
      assert ParagraphFold(paragraphs[..i + 1]) == ParagraphStep(before, paragraphs[i]);
      var para := Trim(paragraphs[i]);
      i := i + 1;
      if PhpEmpty(para) {
        continue;
      }
      if EstimateTokens(para) > ChunkSize {
        if !PhpEmpty(current) {
          chunks := chunks + [Trim(current)];
          current := "";
        }
        var sentenceChunks := ChunkBySentences(para);
        chunks := AppendAll(chunks, sentenceChunks);
        continue;
      }
      var combinedTokens := EstimateTokens(current + "\n\n" + para);
      if combinedTokens > ChunkSize && !PhpEmpty(current) {
        chunks := chunks + [Trim(current)];
        var words := Split(current, ' ');
        var overlapWords := LastN(words, ChunkOverlap);
        current := Join(overlapWords, " ") + "\n\n" + para;
      } else {
        current := current + (if PhpEmpty(current) then "" else "\n\n") + para;
      }
    }
    assert paragraphs[..i] == paragraphs;
    if !PhpEmpty(Trim(current)) {
      chunks := chunks + [Trim(current)];
    }
  }

  // ---------------------------------------------------------------------------
  // Word counts across the split

  /** Total word count of a list of pieces. */
  function SumWords(ps: seq<string>): nat {
    if ps == [] then 0 else WordCount(ps[0]) + SumWords(ps[1..])
  }

  lemma {:induction false} SumWordsSnoc(ps: seq<string>, p: string)
    ensures SumWords(ps + [p]) == SumWords(ps) + WordCount(p)
  {
    if ps != [] {
      assert (ps + [p])[1..] == ps[1..] + [p];
      SumWordsSnoc(ps[1..], p);
    }
  }

  lemma {:induction false} NewlinesWordless(n: string)
    requires forall i :: 0 <= i < |n| ==> n[i] == '\n'
    ensures forall i :: 0 <= i < |n| ==> !IsWordChar(n[i])
  {
  }

  /** The paragraph split loses no words: the pieces' word counts add up to the text's. */
  lemma {:induction false} ParagraphsFromWords(s: string, cur: string)
    ensures SumWords(ParagraphsFrom(s, cur)) == WordCount(cur + s)
    decreases |s|
  {
    if s == [] {
      assert cur + s == cur;
    } else if |s| >= 2 && s[0] == '\n' && s[1] == '\n' {
      var k := RunLength(s, IsNewline);
      ParagraphsFromWords(s[k..], "");
      WordsAfterBreak(s, cur, k);
    } else {
      ParagraphsFromWords(s[1..], cur + [s[0]]);
      assert ParagraphsFrom(s, cur) == ParagraphsFrom(s[1..], cur + [s[0]]);
      MoveFirst(cur, s);
    }
  }

  lemma {:induction false} WordsAfterBreak(s: string, cur: string, k: nat)
    requires |s| >= 2 && s[0] == '\n' && s[1] == '\n' && k == RunLength(s, IsNewline)
    requires SumWords(ParagraphsFrom(s[k..], "")) == WordCount("" + s[k..])
    ensures SumWords(ParagraphsFrom(s, cur)) == WordCount(cur + s)
  {
    assert IsNewline(s[0]);
    assert k >= 1;
    assert "" + s[k..] == s[k..];
    assert s == s[..k] + s[k..];
    NewlinesWordless(s[..k]);
    GlueParagraph(cur, s[..k], s[k..], ParagraphsFrom(s[k..], ""));
  }

  lemma {:induction false} GlueParagraph(cur: string, n: string, rest: string, ps: seq<string>)
    requires n != [] && forall i :: 0 <= i < |n| ==> !IsWordChar(n[i])
    requires SumWords(ps) == WordCount(rest)
    ensures SumWords([cur] + ps) == WordCount(cur + (n + rest))
  {
    WordCountGlue(cur, n, rest);
    assert cur + (n + rest) == cur + n + rest;
    assert ([cur] + ps)[1..] == ps;
  }



  /** The paragraphs that survive `trim` + `empty()`, trimmed, in order. */
  function Kept(ps: seq<string>): (r: seq<string>)
    ensures forall k :: 0 <= k < |r| ==> !PhpEmpty(r[k]) && Trim(r[k]) == r[k]
  {
    if ps == [] then []
    else
      var para := Trim(ps[|ps| - 1]);
      TrimByIdempotent(ps[|ps| - 1], IsPhpTrimChar);
      Kept(ps[..|ps| - 1]) + (if PhpEmpty(para) then [] else [para])
  }

  lemma {:induction false} KeptWords(ps: seq<string>)
    ensures SumWords(Kept(ps)) <= SumWords(ps)
  {
    if ps != [] {
      var init, last := ps[..|ps| - 1], ps[|ps| - 1];
      assert ps == init + [last];
      KeptWords(init);
      SumWordsSnoc(init, last);
      WordCountTrim(last);
      if !PhpEmpty(Trim(last)) {
        SumWordsSnoc(Kept(init), Trim(last));
      } else {
        assert Kept(ps) == Kept(init);
      }
    }
  }

  /** Joining with a blank line adds no words. */
  lemma {:induction false} JoinWords(ps: seq<string>)
    ensures WordCount(Join(ps, "\n\n")) == SumWords(ps)
  {
    if |ps| == 1 {
      assert SumWords(ps) == WordCount(ps[0]) + SumWords([]);
    } else if |ps| > 1 {
      JoinWords(ps[1..]);
      WordCountGlue(ps[0], "\n\n", Join(ps[1..], "\n\n"));
    }
  }

  /** A non-empty list of kept paragraphs joins into a trimmed text that is not PHP-empty. */
  lemma {:induction false} JoinKeptShape(ks: seq<string>)
    requires ks != [] && forall k :: 0 <= k < |ks| ==> !PhpEmpty(ks[k]) && Trim(ks[k]) == ks[k]
    ensures !PhpEmpty(Join(ks, "\n\n")) && Trim(Join(ks, "\n\n")) == Join(ks, "\n\n")
  {
    var last := ks[|ks| - 1];
    TrimByFixedPoint(ks[0], IsPhpTrimChar);
    TrimByFixedPoint(last, IsPhpTrimChar);
    JoinEnds(ks, "\n\n");
    TrimByFixedPoint(Join(ks, "\n\n"), IsPhpTrimChar);
  }

  /** A join of non-empty parts starts with the first part's first character and ends with the last part's last. */
  lemma {:induction false} JoinEnds(ks: seq<string>, sep: string)
    requires ks != [] && ks[0] != [] && ks[|ks| - 1] != []
    ensures Join(ks, sep) != []
    ensures Join(ks, sep)[0] == ks[0][0]
    ensures Join(ks, sep)[|Join(ks, sep)| - 1] == ks[|ks| - 1][|ks[|ks| - 1]| - 1]
  {
    var last := ks[|ks| - 1];
    if |ks| > 1 {
      var j := Join(ks, sep);
      var front := Join(ks[..|ks| - 1], sep);
      assert j == ks[0] + sep + Join(ks[1..], sep);
      JoinSnoc(ks[..|ks| - 1], last, sep);
      assert ks[..|ks| - 1] + [last] == ks;
      assert j == front + sep + last;
    }
  }


  // ---------------------------------------------------------------------------
  // Small inputs

  /** While the paragraphs fit the budget, nothing is emitted and the open chunk is their join. */
  lemma {:induction false} SmallFold(ps: seq<string>)
    requires (13 * SumWords(ps) + 9) / 10 <= ChunkSize
    ensures ParagraphFold(ps) == Pending([], Join(Kept(ps), "\n\n"))
  {
    if ps != [] {
      var init, last := ps[..|ps| - 1], ps[|ps| - 1];
      assert ps == init + [last];
      SumWordsSnoc(init, last);
      WithinBudget(SumWords(init), SumWords(ps));
      SmallFold(init);
      SmallStep(init, last);
    }
  }

  /** Fewer words than a count within the budget are within it too. */
  lemma {:induction false} WithinBudget(w: nat, total: nat)
    requires w <= total && (13 * total + 9) / 10 <= ChunkSize
    ensures (13 * w + 9) / 10 <= ChunkSize
  {
  }

  lemma {:induction false} SmallStep(init: seq<string>, last: string)
    requires (13 * SumWords(init + [last]) + 9) / 10 <= ChunkSize
    requires ParagraphFold(init) == Pending([], Join(Kept(init), "\n\n"))
    ensures ParagraphFold(init + [last]) == Pending([], Join(Kept(init + [last]), "\n\n"))
  {
    var ps := init + [last];
    assert ps[..|ps| - 1] == init && ps[|ps| - 1] == last;
    var cur := Join(Kept(init), "\n\n");
    assert ParagraphFold(ps) == ParagraphStep(Pending([], cur), last);
    if !PhpEmpty(Trim(last)) {
      SmallBudget(init, last);
      SmallKeep(init, last);
    } else {
      assert ParagraphStep(Pending([], cur), last) == Pending([], cur);
      assert Kept(ps) == Kept(init) + [];
      assert Kept(ps) == Kept(init);
    }
  }

  /** Within the budget, the paragraph alone and the open chunk with it both fit. */
  lemma {:induction false} SmallBudget(init: seq<string>, last: string)
    requires (13 * SumWords(init + [last]) + 9) / 10 <= ChunkSize
    ensures EstimateTokens(Trim(last)) <= ChunkSize
    ensures EstimateTokens(Join(Kept(init), "\n\n") + "\n\n" + Trim(last)) <= ChunkSize
  {
    var ps := init + [last];
    var cur := Join(Kept(init), "\n\n");
    var para := Trim(last);
    SumWordsSnoc(init, last);
    WordCountTrim(last);
    KeptWords(init);
    JoinWords(Kept(init));
    WordCountGlue(cur, "\n\n", para);
    assert WordCount(cur + "\n\n" + para) <= SumWords(ps);
    WithinBudget(WordCount(para), SumWords(ps));
    WithinBudget(WordCount(cur + "\n\n" + para), SumWords(ps));
  }

  /** A fitting non-empty paragraph is appended to the open chunk, which stays the join of the kept paragraphs. */
  lemma {:induction false} SmallKeep(init: seq<string>, last: string)
    requires !PhpEmpty(Trim(last))
    requires EstimateTokens(Trim(last)) <= ChunkSize
    requires EstimateTokens(Join(Kept(init), "\n\n") + "\n\n" + Trim(last)) <= ChunkSize
    ensures ParagraphStep(Pending([], Join(Kept(init), "\n\n")), last) == Pending([], Join(Kept(init + [last]), "\n\n"))
  {
    var ps := init + [last];
    assert ps[..|ps| - 1] == init && ps[|ps| - 1] == last;
    var cur := Join(Kept(init), "\n\n");
    var para := Trim(last);
    assert Kept(ps) == Kept(init) + [para];
    JoinSnoc(Kept(init), para, "\n\n");
    if Kept(init) != [] {
      JoinKeptShape(Kept(init));
      assert ParagraphStep(Pending([], cur), last) == Pending([], cur + "\n\n" + para);
    } else {
      assert cur == "";
      assert ParagraphStep(Pending([], cur), last) == Pending([], "" + "" + para);
      assert "" + "" + para == para;
    }
  }

  /**
   * When the whole normalised text fits the 500-token budget, the chunker emits
   * exactly one chunk, the trimmed non-empty paragraphs joined by a blank line
   * (or none when every paragraph is PHP-empty).
   */
  lemma {:induction false} SingleChunk(text: string)
    requires EstimateTokens(Normalize(text)) <= ChunkSize
    ensures var kept := Kept(Paragraphs(text));
      Chunks(text) == if kept == [] then [] else [Join(kept, "\n\n")]
  {
    var ps := Paragraphs(text);
    ParagraphsFromWords(Normalize(text), "");
    assert "" + Normalize(text) == Normalize(text);
    SmallFold(ps);
    if Kept(ps) != [] {
      JoinKeptShape(Kept(ps));
    }
  }

  // ---------------------------------------------------------------------------
  // Shape of emitted chunks

  predicate WellFormed(c: string) {
    c != "" && Trim(c) == c
  }

  /** What holds of the paragraph loop's state between iterations. */
  predicate ParagraphInvariant(st: Pending) {
    (forall k :: 0 <= k < |st.chunks| ==> WellFormed(st.chunks[k]))
    && (st.current == "" || (Trim(st.current) != "" && st.current != "0"))
  }

  /** What holds of the sentence loop's state between iterations. */
  predicate SentenceInvariant(st: Pending) {
    (forall k :: 0 <= k < |st.chunks| ==> WellFormed(st.chunks[k]))
    && (st.current == "" || Trim(st.current) != "")
  }

  /** Trimming gives a well-formed chunk from any text with a non-trim character. */
  lemma {:induction false} TrimWellFormed(s: string)
    requires Trim(s) != ""
    ensures WellFormed(Trim(s))
  {
    TrimByIdempotent(s, IsPhpTrimChar);
  }

  lemma {:induction false} CloseWellFormed(st: Pending)
    requires forall k :: 0 <= k < |st.chunks| ==> WellFormed(st.chunks[k])
    ensures forall k :: 0 <= k < |Close(st)| ==> WellFormed(Close(st)[k])
  {
    if !PhpEmpty(Trim(st.current)) {
      TrimWellFormed(st.current);
    }
  }

  /** Every piece but the last ends with '.', '!' or '?'. */
  predicate EndsSentences(r: seq<string>) {
    forall j :: 0 <= j < |r| - 1 ==> r[j] != [] && IsSentenceEnd(r[j][|r[j]| - 1])
  }

  lemma {:induction false} SentencesFromEnds(s: string, cur: string)
    ensures EndsSentences(SentencesFrom(s, cur))
    decreases |s|
  {
    if s == [] {
    } else if cur != [] && IsSentenceEnd(cur[|cur| - 1]) && IsPcreSpace(s[0]) {
      var k := RunLength(s, IsPcreSpace);
      SentencesFromEnds(s[k..], "");
      var r := SentencesFrom(s, cur);
      var r' := SentencesFrom(s[k..], "");
      assert r == [cur] + r';
      forall j | 0 <= j < |r| - 1 ensures r[j] != [] && IsSentenceEnd(r[j][|r[j]| - 1]) {
        if j == 0 {
          assert r[j] == cur;
        } else {
          assert r[j] == r'[j - 1];
        }
      }
    } else {
      SentencesFromEnds(s[1..], cur + [s[0]]);
      assert SentencesFrom(s, cur) == SentencesFrom(s[1..], cur + [s[0]]);
    }
  }

  /** The last piece of the sentence split is a suffix of the text. */
  lemma {:induction false} SentencesFromLast(s: string, cur: string)
    ensures EndsWith(cur + s, SentencesFrom(s, cur)[|SentencesFrom(s, cur)| - 1])
    decreases |s|
  {
    if s == [] {
      assert cur + s == cur;
    } else if cur != [] && IsSentenceEnd(cur[|cur| - 1]) && IsPcreSpace(s[0]) {
      var k := RunLength(s, IsPcreSpace);
      SentencesFromLast(s[k..], "");
      LastAfterBreak(s, cur, k);
    } else {
      SentencesFromLast(s[1..], cur + [s[0]]);
      LastAfterChar(s, cur);
    }
  }

  lemma {:induction false} LastAfterBreak(s: string, cur: string, k: nat)
    requires s != [] && cur != [] && IsSentenceEnd(cur[|cur| - 1]) && IsPcreSpace(s[0])
    requires k == RunLength(s, IsPcreSpace)
    requires EndsWith("" + s[k..], SentencesFrom(s[k..], "")[|SentencesFrom(s[k..], "")| - 1])
    ensures EndsWith(cur + s, SentencesFrom(s, cur)[|SentencesFrom(s, cur)| - 1])
  {
    var r' := SentencesFrom(s[k..], "");
    var last := r'[|r'| - 1];
    assert SentencesFrom(s, cur) == [cur] + r';
    assert "" + s[k..] == s[k..];
    SuffixAfter(cur, s, k);
    EndsWithTrans(cur + s, s[k..], last);
  }

  lemma {:induction false} LastAfterChar(s: string, cur: string)
    requires s != [] && !(cur != [] && IsSentenceEnd(cur[|cur| - 1]) && IsPcreSpace(s[0]))
    requires EndsWith((cur + [s[0]]) + s[1..], SentencesFrom(s[1..], cur + [s[0]])[|SentencesFrom(s[1..], cur + [s[0]])| - 1])
    ensures EndsWith(cur + s, SentencesFrom(s, cur)[|SentencesFrom(s, cur)| - 1])
  {
    assert SentencesFrom(s, cur) == SentencesFrom(s[1..], cur + [s[0]]);
    MoveFirst(cur, s);
  }

  lemma {:induction false} MoveFirst(cur: string, s: string)
    requires s != []
    ensures (cur + [s[0]]) + s[1..] == cur + s
  {
    assert s == [s[0]] + s[1..];
  }

  lemma {:induction false} SuffixAfter(cur: string, s: string, k: nat)
    requires k <= |s|
    ensures EndsWith(cur + s, s[k..])
  {
    assert (cur + s)[|cur| + k..] == s[k..];
  }

  lemma {:induction false} EndsWithTrans(a: string, b: string, c: string)
    requires EndsWith(a, b) && EndsWith(b, c)
    ensures EndsWith(a, c)
  {
    assert a[|a| - |c|..] == b[|b| - |c|..];
  }

  /** Every sentence of a trimmed text is empty or keeps a non-trim character. */
  lemma {:induction false} SentencesHaveContent(t: string)
    requires IsTrimmedBy(t, IsPhpTrimChar)
    ensures forall j :: 0 <= j < |SplitSentences(t)| ==>
      SplitSentences(t)[j] == "" || Trim(SplitSentences(t)[j]) != ""
  {
    var r := SplitSentences(t);
    SentencesFromEnds(t, "");
    SentencesFromLast(t, "");
    assert "" + t == t;
    forall j | 0 <= j < |r| && r[j] != "" ensures Trim(r[j]) != "" {
      SentenceKeepsLast(t, r, j);
      TrimByLastKept(r[j], IsPhpTrimChar);
    }
  }

  /** A non-empty sentence of a trimmed text ends with a character trimming keeps. */
  lemma {:induction false} SentenceKeepsLast(t: string, r: seq<string>, j: nat)
    requires IsTrimmedBy(t, IsPhpTrimChar)
    requires j < |r| && r[j] != ""
    requires EndsSentences(r) && EndsWith(t, r[|r| - 1])
    ensures !IsPhpTrimChar(r[j][|r[j]| - 1])
  {
    if j < |r| - 1 {
      assert IsSentenceEnd(r[j][|r[j]| - 1]);
    } else {
      var last := r[j];
      assert t[|t| - |last|..] == last;
      assert last[|last| - 1] == t[|t| - 1];
    }
  }

  lemma {:induction false} SentenceFoldInvariant(ss: seq<string>)
    requires forall j :: 0 <= j < |ss| ==> ss[j] == "" || Trim(ss[j]) != ""
    ensures SentenceInvariant(SentenceFold(ss))
  {
    if ss != [] {
      var init, s := ss[..|ss| - 1], ss[|ss| - 1];
      SentenceFoldInvariant(init);
      var st := SentenceFold(init);
      var combined := st.current + " " + s;
      if EstimateTokens(combined) > ChunkSize && !PhpEmpty(st.current) {
        TrimWellFormed(st.current);
      } else if Trim(combined) != "" {
        TrimByIdempotent(combined, IsPhpTrimChar);
      }
    }
  }

  /** The sentence chunks of a trimmed text are non-empty and trimmed. */
  lemma {:induction false} SentenceChunksWellFormed(t: string)
    requires IsTrimmedBy(t, IsPhpTrimChar)
    ensures forall k :: 0 <= k < |SentenceChunks(t)| ==> WellFormed(SentenceChunks(t)[k])
  {
    SentencesHaveContent(t);
    SentenceFoldInvariant(SplitSentences(t));
    CloseWellFormed(SentenceFold(SplitSentences(t)));
  }

  lemma {:induction false} ParagraphStepInvariant(st: Pending, raw: string)
    requires ParagraphInvariant(st)
    ensures ParagraphInvariant(ParagraphStep(st, raw))
  {
    var para := Trim(raw);
    if !PhpEmpty(para) {
      TrimByIdempotent(raw, IsPhpTrimChar);
      if !PhpEmpty(st.current) {
        TrimWellFormed(st.current);
      }
      if EstimateTokens(para) > ChunkSize {
        TrimByIsTrimmed(raw, IsPhpTrimChar);
        SentenceChunksWellFormed(para);
      } else if EstimateTokens(st.current + "\n\n" + para) > ChunkSize && !PhpEmpty(st.current) {
        TrimByNonEmptyGlue(Overlap(st.current) + "\n\n", para, "", IsPhpTrimChar);
        assert Overlap(st.current) + "\n\n" + para + "" == Overlap(st.current) + "\n\n" + para;
      } else if st.current != "" {
        TrimByNonEmptyGlue(st.current + "\n\n", para, "", IsPhpTrimChar);
        assert st.current + "\n\n" + para + "" == st.current + "\n\n" + para;
      } else {
        assert st.current + "" + para == para;
      }
    }
  }

  lemma {:induction false} ParagraphFoldInvariant(ps: seq<string>)
    ensures ParagraphInvariant(ParagraphFold(ps))
  {
    if ps != [] {
      ParagraphFoldInvariant(ps[..|ps| - 1]);
      ParagraphStepInvariant(ParagraphFold(ps[..|ps| - 1]), ps[|ps| - 1]);
    }
  }

  /** Every chunk `_chunkText` returns is non-empty and has no leading or trailing whitespace. */
  lemma {:induction false} ChunksWellFormed(text: string)
    ensures forall k :: 0 <= k < |Chunks(text)| ==> Chunks(text)[k] != "" && Trim(Chunks(text)[k]) == Chunks(text)[k]
  {
    ParagraphFoldInvariant(Paragraphs(text));
    CloseWellFormed(ParagraphFold(Paragraphs(text)));
  }

  // ---------------------------------------------------------------------------
  // Paragraph order and containment

  /** The index of the chunk that paragraph `i` joins: the number of chunks emitted once it was read. */
  function ChunkOf(ps: seq<string>, i: nat): nat
    requires i < |ps|
  {
    |ParagraphFold(ps[..i + 1]).chunks|
  }

  lemma {:induction false} FoldChunksGrow(ps: seq<string>, m: nat, n: nat)
    requires m <= n <= |ps|
    ensures |ParagraphFold(ps[..m]).chunks| <= |ParagraphFold(ps[..n]).chunks|
    ensures ParagraphFold(ps[..m]).chunks == ParagraphFold(ps[..n]).chunks[..|ParagraphFold(ps[..m]).chunks|]
    decreases n - m
  {
    if m < n {
      FoldChunksGrow(ps, m + 1, n);
      assert ps[..m + 1][..m] == ps[..m];
      var st := ParagraphFold(ps[..m]);
      var st' := ParagraphFold(ps[..m + 1]);
      assert st' == ParagraphStep(st, ps[m]);
      assert st'.chunks[..|st.chunks|] == st.chunks;
    }
  }

  /** Paragraphs later in the text land in the same or a later chunk. */
  lemma {:induction false} ChunkOfMonotone(ps: seq<string>, i: nat, j: nat)
    requires i <= j < |ps|
    ensures ChunkOf(ps, i) <= ChunkOf(ps, j)
  {
    FoldChunksGrow(ps, i + 1, j + 1);
  }

  /** Paragraph `p` sits in chunk `c`, or in the open chunk while `c` chunks exist. */
  predicate Holds(st: Pending, c: nat, p: string) {
    (|st.chunks| == c && Contains(st.current, p))
    || (|st.chunks| > c && Contains(st.chunks[c], p))
  }

  lemma {:induction false} HoldsStep(st: Pending, raw: string, c: nat, p: string)
    requires Holds(st, c, p) && !PhpEmpty(p) && Trim(p) == p
    ensures Holds(ParagraphStep(st, raw), c, p)
  {
    var st' := ParagraphStep(st, raw);
    assert st'.chunks[..|st.chunks|] == st.chunks;
    if |st.chunks| == c {
      TrimByFixedPoint(p, IsPhpTrimChar);
      ContainsLength(st.current, p);
      assert !PhpEmpty(st.current);
      ContainsTrimBy(st.current, p, IsPhpTrimChar);
      var para := Trim(raw);
      if !PhpEmpty(para) && EstimateTokens(para) <= ChunkSize
        && !(EstimateTokens(st.current + "\n\n" + para) > ChunkSize) {
        ContainsExtend("", st.current, "\n\n" + para, p);
        assert "" + st.current + ("\n\n" + para) == st.current + "\n\n" + para;
      }
    } else {
      assert st'.chunks[c] == st.chunks[c];
    }
  }

  /** A paragraph that fits the budget lands in the chunk that is open once it is read. */
  lemma {:induction false} HoldsAtEntry(st: Pending, raw: string)
    requires !PhpEmpty(Trim(raw)) && EstimateTokens(Trim(raw)) <= ChunkSize
    ensures Holds(ParagraphStep(st, raw), |ParagraphStep(st, raw).chunks|, Trim(raw))
  {
    var p := Trim(raw);
    var st' := ParagraphStep(st, raw);
    if EstimateTokens(st.current + "\n\n" + p) > ChunkSize && !PhpEmpty(st.current) {
      ContainsInfix(Overlap(st.current) + "\n\n", p, "");
      assert Overlap(st.current) + "\n\n" + p + "" == st'.current;
    } else {
      ContainsInfix(st.current + (if PhpEmpty(st.current) then "" else "\n\n"), p, "");
      assert st.current + (if PhpEmpty(st.current) then "" else "\n\n") + p + "" == st'.current;
    }
  }

  lemma {:induction false} HoldsFold(ps: seq<string>, i: nat, n: nat)
    requires i < n <= |ps|
    requires !PhpEmpty(Trim(ps[i])) && EstimateTokens(Trim(ps[i])) <= ChunkSize
    ensures Holds(ParagraphFold(ps[..n]), ChunkOf(ps, i), Trim(ps[i]))
    decreases n
  {
    assert ps[..n][..n - 1] == ps[..n - 1];
    if n == i + 1 {
      HoldsAtEntry(ParagraphFold(ps[..i]), ps[i]);
    } else {
      HoldsFold(ps, i, n - 1);
      TrimByIdempotent(ps[i], IsPhpTrimChar);
      HoldsStep(ParagraphFold(ps[..n - 1]), ps[n - 1], ChunkOf(ps, i), Trim(ps[i]));
    }
  }

  /**
   * Every paragraph that fits the budget on its own appears, trimmed and
   * verbatim, inside chunk `ChunkOf(ps, i)`; by `ChunkOfMonotone` those chunk
   * indices follow the paragraph order.
   */
  lemma {:induction false} ParagraphInChunk(text: string, i: nat)
    requires i < |Paragraphs(text)|
    requires !PhpEmpty(Trim(Paragraphs(text)[i]))
    requires EstimateTokens(Trim(Paragraphs(text)[i])) <= ChunkSize
    ensures ChunkOf(Paragraphs(text), i) < |Chunks(text)|
    ensures Contains(Chunks(text)[ChunkOf(Paragraphs(text), i)], Trim(Paragraphs(text)[i]))
  {
    var ps := Paragraphs(text);
    var p := Trim(ps[i]);
    var c := ChunkOf(ps, i);
    HoldsFold(ps, i, |ps|);
    assert ps[..|ps|] == ps;
    var st := ParagraphFold(ps);
    if |st.chunks| == c {
      TrimByIdempotent(ps[i], IsPhpTrimChar);
      TrimByFixedPoint(p, IsPhpTrimChar);
      ContainsTrimBy(st.current, p, IsPhpTrimChar);
      ContainsLength(Trim(st.current), p);
      assert !PhpEmpty(Trim(st.current));
      assert Chunks(text)[c] == Trim(st.current);
    } else {
      assert Chunks(text)[c] == st.chunks[c];
    }
  }

  // ---------------------------------------------------------------------------
  // Overflow and long paragraphs

  /** The overlap is a suffix of the chunk it comes from, and all of it when the chunk has at most 50 pieces. */
  lemma {:induction false} OverlapSuffix(current: string)
    ensures EndsWith(current, Overlap(current))
    ensures |Split(current, ' ')| <= ChunkOverlap ==> Overlap(current) == current
  {
    var ws := Split(current, ' ');
    JoinSplit(current, ' ');
    if |ws| > ChunkOverlap {
      var m := |ws| - ChunkOverlap;
      var tail := LastN(ws, ChunkOverlap);
      assert ws == ws[..m] + tail;
      JoinAppend(ws[..m], tail, " ");
      assert current == Join(ws[..m], " ") + " " + Overlap(current);
    } else {
      assert LastN(ws, ChunkOverlap) == ws;
    }
  }

  /** Splitting the overlap at ' ' gives back the last 50 pieces of the chunk. */
  lemma {:induction false} OverlapPieces(current: string)
    ensures Split(Overlap(current), ' ') == LastN(Split(current, ' '), ChunkOverlap)
  {
    var ws := Split(current, ' ');
    SplitPiecesFree(current, ' ');
    var tail := LastN(ws, ChunkOverlap);
    forall k | 0 <= k < |tail| ensures ' ' !in tail[k] {
      assert tail[k] == ws[|ws| - |tail| + k];
    }
    assert " " == [' '];
    SplitJoin(tail, ' ');
  }

  /**
   * On a budget overflow with a non-empty open chunk, that chunk is closed
   * (trimmed) and the next one opens with its last 50 space-separated pieces,
   * a blank line and the new paragraph.
   */
  lemma {:induction false} OverflowStep(ps: seq<string>, i: nat)
    requires i < |ps|
    requires !PhpEmpty(Trim(ps[i])) && EstimateTokens(Trim(ps[i])) <= ChunkSize
    requires !PhpEmpty(ParagraphFold(ps[..i]).current)
    requires EstimateTokens(ParagraphFold(ps[..i]).current + "\n\n" + Trim(ps[i])) > ChunkSize
    ensures var before, after := ParagraphFold(ps[..i]), ParagraphFold(ps[..i + 1]);
      after.chunks == before.chunks + [Trim(before.current)]
      && after.current == Overlap(before.current) + "\n\n" + Trim(ps[i])
      && EndsWith(before.current, Overlap(before.current))
      && Split(Overlap(before.current), ' ') == LastN(Split(before.current, ' '), ChunkOverlap)
  {
    assert ps[..i + 1][..i] == ps[..i];
    OverlapSuffix(ParagraphFold(ps[..i]).current);
    OverlapPieces(ParagraphFold(ps[..i]).current);
  }

  /**
   * A paragraph over the budget closes the open chunk (when there is one),
   * is emitted as its sentence chunks with no overlap, and leaves the open
   * chunk empty.
   */
  lemma {:induction false} LongParagraphStep(ps: seq<string>, i: nat)
    requires i < |ps|
    requires EstimateTokens(Trim(ps[i])) > ChunkSize
    ensures var before, after := ParagraphFold(ps[..i]), ParagraphFold(ps[..i + 1]);
      after.chunks == before.chunks + (if before.current != "" then [Trim(before.current)] else [])
        + SentenceChunks(Trim(ps[i]))
      && after.current == ""
  {
    assert ps[..i + 1][..i] == ps[..i];
    ParagraphFoldInvariant(ps[..i]);
    var para := Trim(ps[i]);
    if PhpEmpty(para) {
      WordlessEstimate(para);
    }
  }

  // ---------------------------------------------------------------------------
  // Sentence chunks

  /** A sentence that is non-empty, trimmed and not "0": then PHP's `trim` and `empty` change nothing. */
  predicate PlainSentence(s: string) {
    s != "" && s != "0" && Trim(s) == s
  }

  /** One sentence step keeps the open chunk plain and the joined text growing by " " and the sentence. */
  lemma {:induction false} SentenceStepJoin(st: Pending, s: string)
    requires PlainSentence(st.current) && PlainSentence(s)
    ensures var st' := SentenceStep(st, s);
      PlainSentence(st'.current)
      && Join(st'.chunks + [st'.current], " ") == Join(st.chunks + [st.current], " ") + " " + s
  {
    var combined := st.current + " " + s;
    TrimByFixedPoint(s, IsPhpTrimChar);
    TrimByFixedPoint(st.current, IsPhpTrimChar);
    JoinSnoc(st.chunks, st.current, " ");
    if EstimateTokens(combined) > ChunkSize && !PhpEmpty(st.current) {
      JoinSnoc(st.chunks + [st.current], s, " ");
    } else {
      assert combined[0] == st.current[0];
      assert combined[|combined| - 1] == s[|s| - 1];
      TrimByFixedPoint(combined, IsPhpTrimChar);
      JoinSnoc(st.chunks, combined, " ");
    }
  }

  /** The first sentence opens the first chunk unchanged. */
  lemma {:induction false} SentenceFirstStep(s: string)
    requires PlainSentence(s)
    ensures SentenceStep(Pending([], ""), s) == Pending([], s)
  {
    TrimBySurrounded(" ", s, "", IsPhpTrimChar);
    assert " " + s + "" == "" + " " + s;
  }

  lemma {:induction false} SentenceFoldJoin(ss: seq<string>)
    requires forall j :: 0 <= j < |ss| ==> PlainSentence(ss[j])
    ensures var st := SentenceFold(ss);
      (ss == [] ==> st == Pending([], ""))
      && (ss != [] ==> PlainSentence(st.current) && Join(st.chunks + [st.current], " ") == Join(ss, " "))
  {
    if ss != [] {
      var init, s := ss[..|ss| - 1], ss[|ss| - 1];
      assert ss == init + [s];
      SentenceFoldJoin(init);
      if init == [] {
        SentenceFirstStep(s);
        assert ss == [s];
      } else {
        SentenceStepJoin(SentenceFold(init), s);
        JoinSnoc(init, s, " ");
      }
    }
  }

  /**
   * When every sentence of the split is non-empty, trimmed and not "0",
   * joining the sentence chunks with ' ' gives back the sentences joined with ' '.
   */
  lemma {:induction false} SentenceChunksJoin(t: string)
    requires forall j :: 0 <= j < |SplitSentences(t)| ==> PlainSentence(SplitSentences(t)[j])
    ensures Join(SentenceChunks(t), " ") == Join(SplitSentences(t), " ")
  {
    var ss := SplitSentences(t);
    SentenceFoldJoin(ss);
    TrimByFixedPoint(SentenceFold(ss).current, IsPhpTrimChar);
  }

  /**
   * The join above needs its condition: a text that is the one sentence
   * "0" yields no sentence chunk, because the final flush drops an open
   * chunk PHP's `empty()` rejects.
   */
  lemma {:induction false} SentenceChunksDropZero()
    ensures SplitSentences("0") == ["0"]
    ensures SentenceChunks("0") == []
    ensures Join(SplitSentences("0"), " ") == "0"
  {
    assert "0"[1..] == "" && "" + ['0'] == "0";
    assert SentencesFrom("0", "") == SentencesFrom("0"[1..], "" + ['0']);
    assert WordCount(" 0") == 0;
    assert Trim(" 0") == "0";
    assert SentenceFold(["0"]) == SentenceStep(Pending([], ""), "0");
  }

}
