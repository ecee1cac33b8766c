/** The report helpers: counting findings by severity and by rule, grouping them by rule,
    file or level while keeping their order, and attaching the numbered source lines around
    each finding. Reading a file is left to the caller: the lines of each file come from a
    `readLines` function the caller supplies. */
module Report {
  import opened Text
  import opened Findings

  // ---------------------------------------------------------------------------------------
  // Counting

  /** The map every severity count starts from. */
  const Zeroes: map<string, nat> := map["ERROR" := 0, "WARN" := 0, "INFO" := 0]

  /** The entry for `k`, or 0 when there is none (`d.get(k, 0)`). */
  function Get(m: map<string, nat>, k: string): nat {
    if k in m then m[k] else 0
  }

  /** The counter a counting loop leaves behind: starting from `base`, add one under each
      key of `ks`, in order. */
  function Tally(base: map<string, nat>, ks: seq<string>): map<string, nat> {
    if ks == [] then base
    else
      var m := Tally(base, ks[..|ks| - 1]);
      var k := ks[|ks| - 1];
      m[k := Get(m, k) + 1]
  }

  lemma TallyStep(base: map<string, nat>, ks: seq<string>, k: string)
    ensures Tally(base, ks + [k]) == Tally(base, ks)[k := Get(Tally(base, ks), k) + 1]
  {
    assert (ks + [k])[..|ks|] == ks;
  }

  /** A counter holds the keys of `base` and of `ks`, and under each key its base value plus
      the number of times the key occurs in `ks`. */
  lemma {:induction false} TallyCounts(base: map<string, nat>, ks: seq<string>)
    ensures forall k :: k in Tally(base, ks) <==> k in base || k in ks
    ensures forall k :: k in Tally(base, ks) ==> Tally(base, ks)[k] == Get(base, k) + multiset(ks)[k]
  {
    if ks != [] {
      var init := ks[..|ks| - 1];
      TallyCounts(base, init);
      assert ks == init + [ks[|ks| - 1]];
    }
  }

  /** The sum of the values of `m` under `keys`, absent keys counting 0. */
  function SumOver(m: map<string, nat>, keys: seq<string>): nat {
    if keys == [] then 0 else Get(m, keys[0]) + SumOver(m, keys[1..])
  }

  predicate Distinct(keys: seq<string>) {
    forall i, j :: 0 <= i < j < |keys| ==> keys[i] != keys[j]
  }

  lemma {:induction false} SumBump(m: map<string, nat>, keys: seq<string>, x: string)
    requires Distinct(keys)
    ensures SumOver(m[x := Get(m, x) + 1], keys) == SumOver(m, keys) + (if x in keys then 1 else 0)
  {
    if keys != [] {
      assert Distinct(keys[1..]) by {
        forall i, j | 0 <= i < j < |keys| - 1 ensures keys[1..][i] != keys[1..][j] {
          assert keys[1..][i] == keys[i + 1] && keys[1..][j] == keys[j + 1];
        }
      }
      SumBump(m, keys[1..], x);
      assert x in keys[1..] ==> keys[0] != x;
      assert x in keys <==> x == keys[0] || x in keys[1..];
    }
  }

  lemma {:induction false} SumZero(m: map<string, nat>, keys: seq<string>)
    requires forall k :: k in m ==> m[k] == 0
    ensures SumOver(m, keys) == 0
  {
    if keys != [] {
      SumZero(m, keys[1..]);
    }
  }

  /** Counting from all-zero entries: the counts over any list of distinct keys that covers
      every counted key add up to the number of keys counted. */
  lemma {:induction false} TallySum(base: map<string, nat>, ks: seq<string>, keys: seq<string>)
    requires forall k :: k in base ==> base[k] == 0
    requires Distinct(keys)
    requires forall k :: k in ks ==> k in keys
    ensures SumOver(Tally(base, ks), keys) == |ks|
  {
    if ks == [] {
      SumZero(base, keys);
    } else {
      var init := ks[..|ks| - 1];
      assert forall k :: k in init ==> k in ks;
      TallySum(base, init, keys);
      SumBump(Tally(base, init), keys, ks[|ks| - 1]);
    }
  }

  /** What a finding is counted or grouped under. */
  datatype Field = RuleId | FileName | RawLevel | SeverityKey {
    function Of(f: Finding): string {
      match this
      case RuleId => f.ruleId
      case FileName => f.filename
      case RawLevel => f.level
      // `(f.level or "WARN").upper()`
      case SeverityKey => Upper(if f.level == "" then "WARN" else f.level)
    }
  }

  /** The key of each finding, in order. */
  function Keys(findings: seq<Finding>, field: Field): (r: seq<string>)
    ensures |r| == |findings|
  {
    if findings == [] then [] else Keys(findings[..|findings| - 1], field) + [field.Of(findings[|findings| - 1])]
  }

  lemma {:induction false} KeysIndex(findings: seq<Finding>, field: Field)
    ensures forall i :: 0 <= i < |findings| ==> Keys(findings, field)[i] == field.Of(findings[i])
  {
    if findings != [] {
      KeysIndex(findings[..|findings| - 1], field);
    }
  }

  lemma KeysStep(findings: seq<Finding>, field: Field, i: nat)
    requires i < |findings|
    ensures Keys(findings[..i + 1], field) == Keys(findings[..i], field) + [field.Of(findings[i])]
  {
    assert findings[..i + 1][..i] == findings[..i];
  }

  /** A counter started from `base` holds the keys of `base` and the keys some finding has,
      and under each key its base value plus the number of findings with that key. */
  lemma CountsMeaning(base: map<string, nat>, findings: seq<Finding>, field: Field)
    ensures var counts := Tally(base, Keys(findings, field));
      && (forall k :: k in counts <==> k in base || exists i :: 0 <= i < |findings| && field.Of(findings[i]) == k)
      && forall k :: k in counts ==> counts[k] == Get(base, k) + multiset(Keys(findings, field))[k]
  {
    var ks := Keys(findings, field);
    TallyCounts(base, ks);
    KeysIndex(findings, field);
    forall k ensures k in ks <==> exists i :: 0 <= i < |findings| && field.Of(findings[i]) == k {
      if k in ks {
        var i :| 0 <= i < |ks| && ks[i] == k;
      }
    }
  }

  /** Counted from all-zero entries, the counts over distinct keys covering every finding's
      key add up to the number of findings. */
  lemma CountsTotal(base: map<string, nat>, findings: seq<Finding>, field: Field, keys: seq<string>)
    requires forall k :: k in base ==> base[k] == 0
    requires Distinct(keys)
    requires forall i :: 0 <= i < |findings| ==> field.Of(findings[i]) in keys
    ensures SumOver(Tally(base, Keys(findings, field)), keys) == |findings|
  {
    var ks := Keys(findings, field);
    KeysIndex(findings, field);
    assert forall k :: k in ks ==> k in keys;
    TallySum(base, ks, keys);
  }

  /** `severity_counts`: ERROR, WARN and INFO are always present, any other key only when
      some finding has it; each finding is counted once, under its upper-cased level with an
      empty level read as WARN; and the counts add up to the number of findings. */
  lemma SeverityCountsMeaning(findings: seq<Finding>, keys: seq<string>)
    requires Distinct(keys)
    requires forall i :: 0 <= i < |findings| ==> SeverityKey.Of(findings[i]) in keys
    ensures var counts := Tally(Zeroes, Keys(findings, SeverityKey));
      && (forall k :: k in counts <==>
            k in {"ERROR", "WARN", "INFO"} || exists i :: 0 <= i < |findings| && SeverityKey.Of(findings[i]) == k)
      && (forall k :: k in counts ==> counts[k] == multiset(Keys(findings, SeverityKey))[k])
      && SumOver(counts, keys) == |findings|
  {
    assert forall k :: k in Zeroes <==> k in {"ERROR", "WARN", "INFO"};
    assert forall k :: Get(Zeroes, k) == 0;
    CountsMeaning(Zeroes, findings, SeverityKey);
    CountsTotal(Zeroes, findings, SeverityKey, keys);
  }

  /** `rule_counts`: exactly the rule ids that occur, each with its number of occurrences,
      and the counts add up to the number of findings. */
  lemma RuleCountsMeaning(findings: seq<Finding>, keys: seq<string>)
    requires Distinct(keys)
    requires forall i :: 0 <= i < |findings| ==> findings[i].ruleId in keys
    ensures var counts := Tally(map[], Keys(findings, RuleId));
      && (forall k :: k in counts <==> exists i :: 0 <= i < |findings| && findings[i].ruleId == k)
      && (forall k :: k in counts ==> counts[k] == multiset(Keys(findings, RuleId))[k])
      && SumOver(counts, keys) == |findings|
  {
    CountsMeaning(map[], findings, RuleId);
    CountsTotal(map[], findings, RuleId, keys);
  }

  /** The counting loop shared by the counters: one more under the key of each finding, a
      missing key starting from zero. */
  method CountInto(base: map<string, nat>, findings: seq<Finding>, field: Field) returns (counts: map<string, nat>)
    ensures counts == Tally(base, Keys(findings, field))
  {
    counts := base;
    for i := 0 to |findings|
      invariant counts == Tally(base, Keys(findings[..i], field))
    {
      var k := field.Of(findings[i]);
      counts := counts[k := Get(counts, k) + 1];
      KeysStep(findings, field, i);
      TallyStep(base, Keys(findings[..i], field), k);
    }
    assert findings[..|findings|] == findings;
  }

  /** `severity_counts`: each level upper-cased, an empty level counted as "WARN", starting
      from ERROR, WARN and INFO at zero. */
  method SeverityCounts(findings: seq<Finding>) returns (counts: map<string, nat>)
    ensures counts == Tally(Zeroes, Keys(findings, SeverityKey))
  {
    counts := CountInto(Zeroes, findings, SeverityKey);
  }

  /** The per-rule counter. */
  method RuleCounts(findings: seq<Finding>) returns (out: map<string, nat>)
    ensures out == Tally(map[], Keys(findings, RuleId))
  {
    out := CountInto(map[], findings, RuleId);
  }

  // ---------------------------------------------------------------------------------------
  // Context lines

  /** One numbered source line shown around a finding. */
  datatype ContextLine = ContextLine(n: int, text: string, isHit: bool)

  /** A finding together with the source lines around it. */
  datatype Enriched = Enriched(finding: Finding, context: seq<ContextLine>)

  function Max(a: int, b: int): int { if a < b then b else a }
  function Min(a: int, b: int): int { if a < b then a else b }

  /** The lines numbered `max(1, ln - ctx)` to `min(|lines|, ln + ctx)`, in increasing order
      and without gaps, each with its trailing newlines removed and marked as the hit exactly
      when it is line `ln`. */
  function Context(lines: seq<string>, ln: int, ctx: int): (r: seq<ContextLine>)
    ensures var start, end := Max(1, ln - ctx), Min(|lines|, ln + ctx);
      && |r| == Max(0, end - start + 1)
      && forall j :: 0 <= j < |r| ==>
           && r[j].n == start + j
           && 1 <= r[j].n <= |lines|
           && r[j].text == RStripChars(lines[r[j].n - 1], {'\n'})
           && (r[j].isHit <==> r[j].n == ln)
  {
    var start, end := Max(1, ln - ctx), Min(|lines|, ln + ctx);
    seq(Max(0, end - start + 1), j requires 0 <= j < Max(0, end - start + 1) =>
      ContextLine(start + j, RStripChars(lines[start + j - 1], {'\n'}), start + j == ln))
  }

  /** A finding on a line of its file, with a non-negative context, is shown together with
      exactly one hit line: its own. */
  lemma ContextHasOneHit(lines: seq<string>, ln: int, ctx: int)
    requires 1 <= ln <= |lines| && 0 <= ctx
    ensures var r := Context(lines, ln, ctx);
      exists j :: 0 <= j < |r| && r[j].isHit && r[j].n == ln && forall k :: 0 <= k < |r| && r[k].isHit ==> k == j
  {
    var r := Context(lines, ln, ctx);
    var j := ln - Max(1, ln - ctx);
    assert r[j].n == ln;
  }

  /** The finding with the lines of its file around it. */
  function Enrich(f: Finding, readLines: string -> seq<string>, ctx: int): Enriched {
    Enriched(f, Context(readLines(f.filename), f.lineno, ctx))
  }

  /** `_with_context`: collects the window line by line. */
  method WithContext(f: Finding, readLines: string -> seq<string>, ctx: int) returns (d: Enriched)
    ensures d == Enrich(f, readLines, ctx)
  {
    var lines := readLines(f.filename);
    var ln := f.lineno;
    var start := Max(1, ln - ctx);
    var end := Min(|lines|, ln + ctx);
    var chunk: seq<ContextLine> := [];
    var i := start;
    while i < end + 1
      invariant start <= i <= Max(start, end + 1)
      invariant chunk == Context(lines, ln, ctx)[..i - start]
    {
      if 0 <= i - 1 < |lines| {
        chunk := chunk + [ContextLine(i, RStripChars(lines[i - 1], {'\n'}), i == ln)];
      }
      i := i + 1;
    }
    assert chunk == Context(lines, ln, ctx);
    d := Enriched(f, chunk);
  }

  // ---------------------------------------------------------------------------------------
  // Grouping

  /** The grouping a `setdefault(key, []).append(...)` loop leaves behind. */
  function Group(findings: seq<Finding>, field: Field, readLines: string -> seq<string>, ctx: int)
    : map<string, seq<Enriched>>
  {
    if findings == [] then map[]
    else
      var m := Group(findings[..|findings| - 1], field, readLines, ctx);
      var f := findings[|findings| - 1];
      var k := field.Of(f);
      m[k := (if k in m then m[k] else []) + [Enrich(f, readLines, ctx)]]
  }

  lemma GroupStep(findings: seq<Finding>, field: Field, readLines: string -> seq<string>, ctx: int, i: nat)
    requires i < |findings|
    ensures var m := Group(findings[..i], field, readLines, ctx);
      var k := field.Of(findings[i]);
      Group(findings[..i + 1], field, readLines, ctx) == m[k := (if k in m then m[k] else []) + [Enrich(findings[i], readLines, ctx)]]
  {
    assert findings[..i + 1][..i] == findings[..i];
  }

  /** The findings whose key is `k`, in their original order. */
  function Select(findings: seq<Finding>, field: Field, k: string): (r: seq<Finding>)
    ensures |r| <= |findings|
    ensures forall i :: 0 <= i < |r| ==> field.Of(r[i]) == k
  {
    if findings == [] then []
    else
      var f := findings[|findings| - 1];
      Select(findings[..|findings| - 1], field, k) + (if field.Of(f) == k then [f] else [])
  }

  function EnrichAll(findings: seq<Finding>, readLines: string -> seq<string>, ctx: int): (r: seq<Enriched>)
    ensures |r| == |findings| && forall i :: 0 <= i < |r| ==> r[i] == Enrich(findings[i], readLines, ctx)
  {
    seq(|findings|, i requires 0 <= i < |findings| => Enrich(findings[i], readLines, ctx))
  }

  /** Each group is keyed by a key some finding has, every key some finding has has a group,
      and the group under `k` is exactly the findings with key `k`, in their original order,
      each with its context. */
  lemma {:induction false} GroupMeaning(findings: seq<Finding>, field: Field, readLines: string -> seq<string>, ctx: int)
    ensures var g := Group(findings, field, readLines, ctx);
      && (forall k :: k in g <==> k in Keys(findings, field))
      && forall k :: k in g ==> g[k] == EnrichAll(Select(findings, field, k), readLines, ctx)
  {
    if findings != [] {
      var init := findings[..|findings| - 1];
      var f := findings[|findings| - 1];
      GroupMeaning(init, field, readLines, ctx);
      assert Keys(findings, field) == Keys(init, field) + [field.Of(f)];
      var g0 := Group(init, field, readLines, ctx);
      forall k | k in Group(findings, field, readLines, ctx)
        ensures Group(findings, field, readLines, ctx)[k] == EnrichAll(Select(findings, field, k), readLines, ctx)
      {
        if k !in g0 {
          SelectAbsent(init, field, k);
        }
        GroupEntry(findings, field, readLines, ctx, k);
      }
    }
  }

  /** The last finding extends its own group and leaves the others as they were. */
  lemma GroupEntry(findings: seq<Finding>, field: Field, readLines: string -> seq<string>, ctx: int, k: string)
    requires findings != []
    requires var init := findings[..|findings| - 1];
      k in Group(init, field, readLines, ctx) ==>
        Group(init, field, readLines, ctx)[k] == EnrichAll(Select(init, field, k), readLines, ctx)
    requires var init := findings[..|findings| - 1];
      k !in Group(init, field, readLines, ctx) ==> Select(init, field, k) == []
    requires k in Group(findings, field, readLines, ctx)
    ensures Group(findings, field, readLines, ctx)[k] == EnrichAll(Select(findings, field, k), readLines, ctx)
  {
    var init := findings[..|findings| - 1];
    var f := findings[|findings| - 1];
    if k == field.Of(f) {
      EnrichAllSnoc(Select(init, field, k), f, readLines, ctx);
    } else {
      assert Select(findings, field, k) == Select(init, field, k) + [];
    }
  }

  lemma PrefixSnoc<T>(s: seq<T>, i: nat)
    requires i < |s|
    ensures s[..i + 1] == s[..i] + [s[i]]
  {
  }

  lemma EnrichAllSnoc(a: seq<Finding>, f: Finding, readLines: string -> seq<string>, ctx: int)
    ensures EnrichAll(a + [f], readLines, ctx) == EnrichAll(a, readLines, ctx) + [Enrich(f, readLines, ctx)]
  {
    assert forall i :: 0 <= i < |a| ==> (a + [f])[i] == a[i];
  }

  lemma {:induction false} SelectAbsent(findings: seq<Finding>, field: Field, k: string)
    requires k !in Keys(findings, field)
    ensures Select(findings, field, k) == []
  {
    if findings != [] {
      var init := findings[..|findings| - 1];
      assert Keys(findings, field) == Keys(init, field) + [field.Of(findings[|findings| - 1])];
      SelectAbsent(init, field, k);
    }
  }

  lemma {:induction false} SelectCount(findings: seq<Finding>, field: Field, k: string)
    ensures |Select(findings, field, k)| == multiset(Keys(findings, field))[k]
  {
    if findings != [] {
      var init := findings[..|findings| - 1];
      assert Keys(findings, field) == Keys(init, field) + [field.Of(findings[|findings| - 1])];
      SelectCount(init, field, k);
    }
  }

  /** Every finding lands in exactly one group: the size of each group is the count of its
      key, so the group sizes are the per-key counts and add up to the number of findings. */
  lemma GroupSizes(findings: seq<Finding>, field: Field, readLines: string -> seq<string>, ctx: int)
    ensures var g := Group(findings, field, readLines, ctx);
      (map k | k in g :: |g[k]|) == Tally(map[], Keys(findings, field))
  {
    var g := Group(findings, field, readLines, ctx);
    var t := Tally(map[], Keys(findings, field));
    GroupKeys(findings, field, readLines, ctx);
    forall k | k in g ensures |g[k]| == t[k] {
      GroupSize(findings, field, readLines, ctx, k);
    }
  }

  lemma GroupKeys(findings: seq<Finding>, field: Field, readLines: string -> seq<string>, ctx: int)
    ensures forall k :: k in Group(findings, field, readLines, ctx) <==> k in Tally(map[], Keys(findings, field))
  {
    GroupMeaning(findings, field, readLines, ctx);
    TallyCounts(map[], Keys(findings, field));
  }

  lemma GroupSize(findings: seq<Finding>, field: Field, readLines: string -> seq<string>, ctx: int, k: string)
    requires k in Group(findings, field, readLines, ctx)
    ensures k in Tally(map[], Keys(findings, field))
    ensures |Group(findings, field, readLines, ctx)[k]| == Tally(map[], Keys(findings, field))[k]
  {
    GroupMeaning(findings, field, readLines, ctx);
    TallyCounts(map[], Keys(findings, field));
    SelectCount(findings, field, k);
  }

  /** The shared body of `_group_by_rule` and `_group_by_file`. */
  method GroupBy(findings: seq<Finding>, field: Field, readLines: string -> seq<string>, ctx: int)
    returns (out: map<string, seq<Enriched>>)
    ensures out == Group(findings, field, readLines, ctx)
  {
    out := map[];
    for i := 0 to |findings|
      invariant out == Group(findings[..i], field, readLines, ctx)
    {
      var f := findings[i];
      var d := WithContext(f, readLines, ctx);
      var k := field.Of(f);
      out := out[k := (if k in out then out[k] else []) + [d]];
      GroupStep(findings, field, readLines, ctx, i);
    }
    assert findings[..|findings|] == findings;
  }

  /** `_group_by_rule`, with its default context of two lines. */
  method GroupByRule(findings: seq<Finding>, readLines: string -> seq<string>) returns (out: map<string, seq<Enriched>>)
    ensures out == Group(findings, RuleId, readLines, 2)
  {
    out := GroupBy(findings, RuleId, readLines, 2);
  }

  /** `_group_by_file`, with its default context of two lines. */
  method GroupByFile(findings: seq<Finding>, readLines: string -> seq<string>) returns (out: map<string, seq<Enriched>>)
    ensures out == Group(findings, FileName, readLines, 2)
  {
    out := GroupBy(findings, FileName, readLines, 2);
  }

  // ---------------------------------------------------------------------------------------
  // HTML report data

  /** What the HTML template is rendered with, apart from the repository root and the
      context width. */
  datatype HtmlData = HtmlData(
    counts: map<string, nat>,
    countsByRule: map<string, nat>,
    grouped: map<string, seq<Enriched>>)

  /** The counting and grouping part of `render_html_report`. It counts raw levels with a
      counter and `setdefault`, where `severity_counts` upper-cases each level and reads an
      empty one as WARN. */
  method HtmlReportData(findings: seq<Finding>, readLines: string -> seq<string>, contextLines: int)
    returns (data: HtmlData)
    ensures data.counts == Tally(Zeroes, Keys(findings, RawLevel))
    ensures data.countsByRule == Tally(map[], Keys(findings, RuleId))
    ensures data.grouped == Group(findings, RawLevel, readLines, contextLines)
  {
    var counts := Counter(findings);
    var byRule := RuleCounts(findings);
    var enriched: seq<Enriched> := [];
    for i := 0 to |findings|
      invariant enriched == EnrichAll(findings[..i], readLines, contextLines)
    {
      var d := WithContext(findings[i], readLines, contextLines);
      enriched := enriched + [d];
      PrefixSnoc(findings, i);
      EnrichAllSnoc(findings[..i], findings[i], readLines, contextLines);
    }
    assert findings[..|findings|] == findings;
    var grouped: map<string, seq<Enriched>> := map[];
    for i := 0 to |enriched|
      invariant grouped == Group(findings[..i], RawLevel, readLines, contextLines)
    {
      var lvl := enriched[i].finding.level;
      grouped := grouped[lvl := (if lvl in grouped then grouped[lvl] else []) + [enriched[i]]];
      GroupStep(findings, RawLevel, readLines, contextLines, i);
    }
    assert findings[..|findings|] == findings;
    data := HtmlData(counts, byRule, grouped);
  }

  /** `Counter(levels)` followed by `setdefault(k, 0)` for ERROR, WARN and INFO: the same map
      as counting the raw levels from the all-zero start. */
  method Counter(findings: seq<Finding>) returns (counts: map<string, nat>)
    ensures counts == Tally(Zeroes, Keys(findings, RawLevel))
  {
    var ks := Keys(findings, RawLevel);
    counts := CountInto(map[], findings, RawLevel);
    ghost var raw := counts;
    var defaults := ["ERROR", "WARN", "INFO"];
    for j := 0 to |defaults|
      invariant forall k :: k in counts <==> k in raw || k in defaults[..j]
      invariant forall k :: k in counts ==> counts[k] == Get(raw, k)
    {
      if defaults[j] !in counts {
        counts := counts[defaults[j] := 0];
      }
    }
    assert defaults[..3] == defaults;
    ZeroDefaults(ks, counts);
  }

  lemma ZeroDefaults(ks: seq<string>, counts: map<string, nat>)
    requires forall k :: k in counts <==> k in Tally(map[], ks) || k in ["ERROR", "WARN", "INFO"]
    requires forall k :: k in counts ==> counts[k] == Get(Tally(map[], ks), k)
    ensures counts == Tally(Zeroes, ks)
  {
    TallyCounts(map[], ks);
    TallyCounts(Zeroes, ks);
    var t := Tally(Zeroes, ks);
    assert forall k :: k in counts <==> k in t;
    forall k | k in counts ensures counts[k] == t[k] {
      assert k !in Tally(map[], ks) ==> k !in ks;
    }
  }
}
