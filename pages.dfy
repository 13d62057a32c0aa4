/**
 * The page-rules settings page: saving replaces the whole page-rule table
 * with one row per submitted pattern that is non-empty once trimmed.
 */
module Pages {
  import opened Strings

  /** A row of the page-rules table (its timestamps and uid are not modelled). */
  datatype PageRule = PageRule(pattern: string, ruleType: string, sortOrder: int)

  class PageRuleTable {
    var rows: seq<PageRule>

    constructor ()
      ensures rows == []
    {
      rows := [];
    }

    /** `delete('{{%aiagent_page_rules}}')` with no condition. */
    method DeleteAll()
      modifies this
      ensures rows == []
    {
      rows := [];
    }

    method Insert(r: PageRule)
      modifies this
      ensures rows == old(rows) + [r]
    {
      rows := rows + [r];
    }
  }

  /** `empty(trim($pattern))` is false: the pattern is kept. */
  predicate Kept(pattern: string) {
    !PhpEmpty(Trim(pattern))
  }

  /** `$ruleTypes[$i] ?? 'include'`. */
  function RuleTypeAt(ruleTypes: seq<string>, i: nat): string {
    if i < |ruleTypes| then ruleTypes[i] else "include"
  }

  /** The row written for the pattern at position `i`. */
  function RuleAt(patterns: seq<string>, ruleTypes: seq<string>, i: nat): PageRule
    requires i < |patterns|
  {
    PageRule(Trim(patterns[i]), RuleTypeAt(ruleTypes, i), i)
  }

  /** The table after saving: the rows the loop inserts, in submission order. */
  function SavedRules(patterns: seq<string>, ruleTypes: seq<string>): seq<PageRule>
    decreases |patterns|
  {
    if patterns == [] then []
    else
      var n := |patterns| - 1;
      SavedRules(patterns[..n], ruleTypes) + (if Kept(patterns[n]) then [RuleAt(patterns, ruleTypes, n)] else [])
  }

  /** Every row is the one written for a kept pattern at the position given by its sort order. */
  predicate RowsWritten(r: seq<PageRule>, patterns: seq<string>, ruleTypes: seq<string>) {
    forall k :: 0 <= k < |r| ==>
      0 <= r[k].sortOrder < |patterns| && Kept(patterns[r[k].sortOrder])
      && r[k] == RuleAt(patterns, ruleTypes, r[k].sortOrder)
  }

  predicate OrdersIncrease(r: seq<PageRule>) {
    forall k, l :: 0 <= k < l < |r| ==> r[k].sortOrder < r[l].sortOrder
  }

  /** Every kept pattern has a row. */
  predicate KeptListed(r: seq<PageRule>, patterns: seq<string>) {
    forall i :: 0 <= i < |patterns| && Kept(patterns[i]) ==> exists k :: 0 <= k < |r| && r[k].sortOrder == i
  }

  /**
   * Every row is the one written for a kept pattern at the position given by
   * its sort order; sort orders strictly increase (submission order is kept,
   * with gaps where blanks were skipped); and every kept pattern has a row.
   */
  lemma {:induction false} SavedRulesRows(patterns: seq<string>, ruleTypes: seq<string>)
    ensures RowsWritten(SavedRules(patterns, ruleTypes), patterns, ruleTypes)
    ensures OrdersIncrease(SavedRules(patterns, ruleTypes))
    ensures KeptListed(SavedRules(patterns, ruleTypes), patterns)
  {
    SavedRulesWritten(patterns, ruleTypes);
    SavedRulesIncrease(patterns, ruleTypes);
    SavedRulesListed(patterns, ruleTypes);
  }

  /** The rows for all patterns but the last, then the last one's row if it is kept. */
  lemma {:induction false} SavedRulesSnoc(patterns: seq<string>, ruleTypes: seq<string>)
    requires patterns != []
    ensures SavedRules(patterns, ruleTypes)
      == SavedRules(patterns[..|patterns| - 1], ruleTypes)
         + (if Kept(patterns[|patterns| - 1]) then [RuleAt(patterns, ruleTypes, |patterns| - 1)] else [])
  { }

  lemma {:induction false} SavedRulesWritten(patterns: seq<string>, ruleTypes: seq<string>)
    ensures RowsWritten(SavedRules(patterns, ruleTypes), patterns, ruleTypes)
    decreases |patterns|
  {
    if patterns != [] {
      var n := |patterns| - 1;
      var p := patterns[..n];
      SavedRulesWritten(p, ruleTypes);
      SavedRulesSnoc(patterns, ruleTypes);
      var front := SavedRules(p, ruleTypes);
      var r := SavedRules(patterns, ruleTypes);
      forall k | 0 <= k < |r|
        ensures 0 <= r[k].sortOrder < |patterns| && Kept(patterns[r[k].sortOrder])
                && r[k] == RuleAt(patterns, ruleTypes, r[k].sortOrder)
      {
        if k < |front| {
          assert r[k] == front[k];
          assert p[front[k].sortOrder] == patterns[front[k].sortOrder];
        }
      }
    }
  }

  lemma {:induction false} SavedRulesIncrease(patterns: seq<string>, ruleTypes: seq<string>)
    ensures OrdersIncrease(SavedRules(patterns, ruleTypes))
    decreases |patterns|
  {
    if patterns != [] {
      var n := |patterns| - 1;
      var p := patterns[..n];
      SavedRulesIncrease(p, ruleTypes);
      SavedRulesWritten(p, ruleTypes);
      SavedRulesSnoc(patterns, ruleTypes);
      var front := SavedRules(p, ruleTypes);
      var r := SavedRules(patterns, ruleTypes);
      forall k, l | 0 <= k < l < |r| ensures r[k].sortOrder < r[l].sortOrder {
        assert r[k] == front[k];
        if l < |front| {
          assert r[l] == front[l];
        } else {
          assert front[k].sortOrder < n;
        }
      }
    }
  }

  lemma {:induction false} SavedRulesListed(patterns: seq<string>, ruleTypes: seq<string>)
    ensures KeptListed(SavedRules(patterns, ruleTypes), patterns)
    decreases |patterns|
  {
    if patterns != [] {
      var n := |patterns| - 1;
      var p := patterns[..n];
      SavedRulesListed(p, ruleTypes);
      SavedRulesSnoc(patterns, ruleTypes);
      var front := SavedRules(p, ruleTypes);
      var r := SavedRules(patterns, ruleTypes);
      forall i | 0 <= i < |patterns| && Kept(patterns[i]) ensures exists k :: 0 <= k < |r| && r[k].sortOrder == i {
        if i < n {
          assert p[i] == patterns[i];
          var k :| 0 <= k < |front| && front[k].sortOrder == i;
          assert r[k] == front[k];
        } else {
          assert r[|front|].sortOrder == n;
        }
      }
    }
  }

  /** When no submitted pattern survives the trim, the table ends up empty. */
  lemma {:induction false} SavedRulesNoneKept(patterns: seq<string>, ruleTypes: seq<string>)
    requires forall i :: 0 <= i < |patterns| ==> !Kept(patterns[i])
    ensures SavedRules(patterns, ruleTypes) == []
    decreases |patterns|
  {
    if patterns != [] {
      var n := |patterns| - 1;
      SavedRulesNoneKept(patterns[..n], ruleTypes);
    }
  }

  /** With no blank pattern there are no gaps: row k is the k-th pattern, trimmed. */
  lemma {:induction false} SavedRulesAllKept(patterns: seq<string>, ruleTypes: seq<string>)
    requires forall i :: 0 <= i < |patterns| ==> Kept(patterns[i])
    ensures |SavedRules(patterns, ruleTypes)| == |patterns|
    ensures forall k :: 0 <= k < |patterns| ==> SavedRules(patterns, ruleTypes)[k] == RuleAt(patterns, ruleTypes, k)
    decreases |patterns|
  {
    if patterns != [] {
      var n := |patterns| - 1;
      var p := patterns[..n];
      SavedRulesAllKept(p, ruleTypes);
      var front := SavedRules(p, ruleTypes);
      assert Kept(patterns[n]);
      assert SavedRules(patterns, ruleTypes) == front + [RuleAt(patterns, ruleTypes, n)];
      forall k | 0 <= k < n ensures front[k] == RuleAt(patterns, ruleTypes, k) {
        assert p[k] == patterns[k];
      }
    }
  }

  /**
   * `actionSave`: delete every rule, then insert one row per kept pattern.
   * The new table does not depend on the old one.
   */
  method SavePageRules(table: PageRuleTable, patterns: seq<string>, ruleTypes: seq<string>)
    modifies table
    ensures table.rows == SavedRules(patterns, ruleTypes)
  {
    table.DeleteAll();
    for i := 0 to |patterns|
      invariant table.rows == SavedRules(patterns[..i], ruleTypes)
    {
      assert patterns[..i + 1][..i] == patterns[..i];
      var pattern := Trim(patterns[i]);
      if PhpEmpty(pattern) {
        continue;
      }
      table.Insert(PageRule(pattern, RuleTypeAt(ruleTypes, i), i));
    }
    assert patterns[..|patterns|] == patterns;
  }
}
