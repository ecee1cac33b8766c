/** What the visitor's specification promises: how dotted names read an attribute chain,
    how suppression comments decide, which rules a statement can produce, and when the
    missing-hooks meta-finding appears. */
module RuleProperties {
  import opened Wrappers
  import opened Text
  import opened Syntax
  import opened RuleIds
  import opened Findings
  import opened Rules

  // ---------------------------------------------------------------------------------------
  // Dotted names

  /** `root.a1.....an`: the attribute chain with the given names on top of `root`. */
  function Chain(root: Expr, attrs: seq<string>): Expr {
    if attrs == [] then root else Attribute(Chain(root, attrs[..|attrs| - 1]), attrs[|attrs| - 1])
  }

  lemma {:induction false} SegmentsOfChain(root: Expr, attrs: seq<string>)
    ensures Segments(Chain(root, attrs)) == Segments(root) + attrs
  {
    if attrs != [] {
      SegmentsOfChain(root, attrs[..|attrs| - 1]);
      assert attrs == attrs[..|attrs| - 1] + [attrs[|attrs| - 1]];
    }
  }

  /** A chain rooted at a plain name reads as the name and the attributes, dotted. */
  lemma DottedNameOfNameChain(r: string, attrs: seq<string>)
    ensures DottedName(Chain(Name(r), attrs)) == Join([r] + attrs, ".")
  {
    SegmentsOfChain(Name(r), attrs);
  }

  /** A chain whose root is neither a name nor an attribute (a call, a subscript, ...) keeps
      only its attribute names: the root contributes nothing, and the result is not empty
      as soon as there is an attribute. */
  lemma DottedNameOfInterruptedChain(root: Expr, attrs: seq<string>)
    requires !root.Name? && !root.Attribute?
    ensures DottedName(Chain(root, attrs)) == Join(attrs, ".")
  {
    SegmentsOfChain(root, attrs);
    assert [] + attrs == attrs;
  }

  /** `f().a.b` reads as "a.b". */
  lemma DottedNameExample()
    ensures DottedName(Attribute(Attribute(Call(Name("f"), []), "a"), "b")) == "a.b"
  {
    var e := Attribute(Attribute(Call(Name("f"), []), "a"), "b");
    assert Segments(e) == ["a", "b"];
    assert Join(["a", "b"], ".") == "a" + "." + Join(["b"], ".");
  }

  // ---------------------------------------------------------------------------------------
  // Suppression comments

  /** Without a directive, nothing is silenced. */
  lemma {:induction false} NoDirectiveNoIgnore(comments: seq<Option<string>>, ruleId: string)
    requires forall j :: 0 <= j < |comments| ==> !IsDirective(comments[j])
    ensures FirstDirective(comments) == None && !Ignores(comments, ruleId)
  {
    if comments != [] {
      forall j | 0 <= j < |comments| - 1 ensures !IsDirective(comments[1..][j]) {
        assert comments[1..][j] == comments[j + 1];
      }
      NoDirectiveNoIgnore(comments[1..], ruleId);
    }
  }

  predicate HasDirective(comments: seq<Option<string>>) {
    exists j :: 0 <= j < |comments| && IsDirective(comments[j])
  }

  /** Appending comments changes nothing once a directive has been seen; before that, the
      appended comments supply the first directive. */
  lemma {:induction false} FirstDirectiveAppend(a: seq<Option<string>>, b: seq<Option<string>>)
    ensures FirstDirective(a + b) == if HasDirective(a) then FirstDirective(a) else FirstDirective(b)
  {
    if a == [] {
      assert a + b == b;
    } else {
      TailAppend(a, b);
      HasDirectiveTail(a);
      if !IsDirective(a[0]) {
        FirstDirectiveAppend(a[1..], b);
      }
    }
  }

  lemma HasDirectiveTail(a: seq<Option<string>>)
    requires a != []
    ensures HasDirective(a) <==> IsDirective(a[0]) || HasDirective(a[1..])
  {
    if HasDirective(a) && !IsDirective(a[0]) {
      var j :| 0 <= j < |a| && IsDirective(a[j]);
      DirectiveInTail(a, j);
    }
    if HasDirective(a[1..]) {
      var j :| 0 <= j < |a[1..]| && IsDirective(a[1..][j]);
      DirectiveFromTail(a, j);
    }
  }

  lemma DirectiveInTail(a: seq<Option<string>>, j: nat)
    requires 0 < j < |a| && IsDirective(a[j])
    ensures HasDirective(a[1..])
  {
    assert a[1..][j - 1] == a[j];
  }

  lemma DirectiveFromTail(a: seq<Option<string>>, j: nat)
    requires a != [] && j < |a| - 1 && IsDirective(a[1..][j])
    ensures HasDirective(a)
  {
    assert a[j + 1] == a[1..][j];
  }

  lemma IgnoresAppend(a: seq<Option<string>>, b: seq<Option<string>>, ruleId: string)
    ensures Ignores(a + b, ruleId) == if HasDirective(a) then Ignores(a, ruleId) else Ignores(b, ruleId)
  {
    FirstDirectiveAppend(a, b);
  }

  /** The first directive among the comments decides, whatever follows it. */
  lemma FirstDirectiveDecides(pre: seq<Option<string>>, c: Option<string>, post: seq<Option<string>>, ruleId: string)
    requires !HasDirective(pre) && IsDirective(c)
    ensures Ignores(pre + [c] + post, ruleId) == Decides(DirectiveText(c.value), ruleId)
  {
    FirstDirectiveAt(pre, c, post);
  }

  lemma FirstDirectiveAt(pre: seq<Option<string>>, c: Option<string>, post: seq<Option<string>>)
    requires !HasDirective(pre) && IsDirective(c)
    ensures FirstDirective(pre + [c] + post) == Some(DirectiveText(c.value))
    ensures HasDirective(pre + [c] + post)
  {
    FirstDirectiveAppend(pre, [c] + post);
    AppendAssoc(pre, [c], post);
    assert ([c] + post)[0] == c;
    assert (pre + [c] + post)[|pre|] == c;
  }

  /** A directive without a bracket pair: it silences every rule. */
  predicate Blanket(c: Option<string>) {
    IsDirective(c) && !('[' in DirectiveText(c.value) && ']' in DirectiveText(c.value))
  }

  lemma AfterPrefix(p: string, c: char, q: string)
    requires c !in p
    ensures After(p + [c] + q, c) == q
  {
    if p != [] {
      assert (p + [c] + q)[1..] == p[1..] + [c] + q;
      AfterPrefix(p[1..], c, q);
    }
  }

  /** Dropping the comment mark and the space before a text that starts with a letter. */
  lemma LeadingMarkStripped(txt: string)
    requires txt != "" && txt[0] !in {'#', ' '}
    ensures LStripChars("# " + txt, {'#', ' '}) == txt
  {
    var comment := "# " + txt;
    assert comment[1..] == " " + txt;
    assert LStripChars(comment, {'#', ' '}) == LStripChars(" " + txt, {'#', ' '});
    assert (" " + txt)[1..] == txt;
    assert LStripChars(" " + txt, {'#', ' '}) == LStripChars(txt, {'#', ' '});
  }

  /** The directive text of `# txt` is `txt` when `txt` has no mark, space or whitespace at
      either end. */
  lemma MarkedText(txt: string)
    requires txt != "" && txt[0] !in {'#', ' '} && txt[0] !in Whitespace && txt[|txt| - 1] !in Whitespace
    ensures DirectiveText("# " + txt) == txt
  {
    LeadingMarkStripped(txt);
    StripUnchanged(txt);
  }

  /** The shape of the ignore token that the directive lemmas rely on. */
  lemma IgnoreTokenShape()
    ensures IgnoreToken != "" && IgnoreToken[0] == 's' && IgnoreToken[|IgnoreToken| - 1] == 'e'
    ensures '[' !in IgnoreToken && StartsWith(IgnoreToken, IgnoreToken)
  {
    assert IgnoreToken[0] == 's';
    assert IgnoreToken[..|IgnoreToken|] == IgnoreToken;
  }

  lemma Regroup<T>(a: seq<T>, b: seq<T>, c: seq<T>, d: seq<T>)
    ensures a + b + c + d == a + b + (c + d) == a + (b + c + d)
  {
  }

  lemma AroundPiece<T>(p: seq<T>, x: T, q: seq<T>)
    ensures |p + [x] + q| > |p| && (p + [x] + q)[..|p|] == p && (p + [x] + q)[|p|] == x
    ensures q + [x] == q + [x] + []
    ensures (q + [x])[|q|] == x
  {
  }

  /** Text of the form `token[inside]`: both brackets are there, and the listed ids are the
      trimmed non-empty comma-separated pieces of `inside`. */
  lemma BracketedIds(token: string, inside: string)
    requires '[' !in token && ']' !in inside
    ensures var txt := token + "[" + (inside + "]");
      && StartsWith(txt, token) && '[' in txt && ']' in txt
      && ListedIds(txt) == StrippedNonEmpty(Split(inside, ','))
  {
    var txt := token + "[" + (inside + "]");
    AroundPiece(token, '[', inside + "]");
    AroundPiece([], ']', inside);
    assert txt[|txt| - 1] == ']';
    AfterPrefix(token, '[', inside + "]");
    SplitAfterPiece(inside, ']', "");
  }

  /** A bracketed directive silences exactly the rules named by the comma-separated,
      trimmed, non-empty pieces between the brackets. */
  lemma BracketDirectiveDecides(inside: string, ruleId: string)
    requires ']' !in inside
    ensures Ignores([Some("# " + IgnoreToken + "[" + inside + "]")], ruleId) <==>
      ruleId in StrippedNonEmpty(Split(inside, ','))
  {
    var txt := IgnoreToken + "[" + (inside + "]");
    IgnoreTokenShape();
    Regroup("# ", IgnoreToken, "[", inside + "]");
    Regroup("# " + IgnoreToken, "[", inside, "]");
    AroundPiece(IgnoreToken, '[', inside + "]");
    AroundPiece(inside, ']', []);
    assert txt[|txt| - 1] == ']';
    MarkedText(txt);
    BracketedIds(IgnoreToken, inside);
    SingleDirective("# " + IgnoreToken + "[" + inside + "]", txt, ruleId);
  }

  /** A lone comment whose text starts with the ignore token decides by that text. */
  lemma SingleDirective(comment: string, txt: string, ruleId: string)
    requires comment != "" && DirectiveText(comment) == txt && StartsWith(txt, IgnoreToken)
    ensures Ignores([Some(comment)], ruleId) == Decides(txt, ruleId)
  {
    FirstDirectiveSingle(Some(comment));
  }

  lemma FirstDirectiveSingle(c: Option<string>)
    requires IsDirective(c)
    ensures FirstDirective([c]) == Some(DirectiveText(c.value))
  {
    assert [c][0] == c;
  }

  /** Joining clean ids with commas and reading them back gives the ids. */
  lemma ListedIdsJoin(ids: seq<string>)
    requires forall k :: 0 <= k < |ids| ==>
      Trimmed(ids[k]) && ',' !in ids[k]
    ensures StrippedNonEmpty(Split(Join(ids, ","), ',')) == ids
  {
    if ids == [] {
      assert Split(Join(ids, ","), ',') == [""];
    } else {
      SplitJoin(ids, ',');
      StrippedUnchanged(ids);
    }
  }

  /** A directive written as `# snapstart: ignore[id1,...,idn]` silences exactly the listed
      rules, when the ids are trimmed, non-empty and hold no comma or bracket. */
  lemma DirectiveListsIds(ids: seq<string>, ruleId: string)
    requires forall k :: 0 <= k < |ids| ==>
      Trimmed(ids[k]) && ',' !in ids[k] && ']' !in ids[k]
    ensures Ignores([Some("# " + IgnoreToken + "[" + Join(ids, ",") + "]")], ruleId) <==> ruleId in ids
  {
    JoinKeepsOut(ids, ',', ']');
    BracketDirectiveDecides(Join(ids, ","), ruleId);
    ListedIdsJoin(ids);
  }

  /** A joined string holds a character only if a part or the separator does. */
  lemma {:induction false} JoinKeepsOut(parts: seq<string>, sep: char, c: char)
    requires c != sep
    requires forall k :: 0 <= k < |parts| ==> c !in parts[k]
    ensures c !in Join(parts, [sep])
  {
    if |parts| > 1 {
      forall k | 0 <= k < |parts| - 1 ensures c !in parts[1..][k] {
        assert parts[1..][k] == parts[k + 1];
      }
      JoinKeepsOut(parts[1..], sep, c);
    }
  }

  /** A bare `# snapstart: ignore` silences every rule. */
  lemma BareDirectiveSilencesAll(ruleId: string)
    ensures Ignores([Some("# " + IgnoreToken)], ruleId)
  {
    IgnoreTokenShape();
    MarkedText(IgnoreToken);
    SingleDirective("# " + IgnoreToken, IgnoreToken, ruleId);
  }

  /** The text `token[inside`: it starts with the token, holds no `]`, and its first
      character is neither a mark, a space nor whitespace. */
  lemma UnclosedShape(inside: string)
    requires ']' !in inside
    ensures var t := IgnoreToken + "[" + inside;
      && |t| > |IgnoreToken| && t[..|IgnoreToken|] == IgnoreToken && t[|IgnoreToken|] == '['
      && t[0] !in {'#', ' '} && t[0] !in Whitespace && ']' !in t
  {
    var t := IgnoreToken + "[" + inside;
    IgnoreTokenShape();
    assert ']' !in IgnoreToken;
    assert t[0] == IgnoreToken[0];
    assert t[..|IgnoreToken|] == IgnoreToken;
    assert forall k :: 0 <= k < |t| ==>
      t[k] == (if k < |IgnoreToken| + 1 then (IgnoreToken + "[")[k] else inside[k - |IgnoreToken| - 1]);
  }

  /** Stripping whitespace from text that starts with `token[` keeps `token[` and adds no
      character, so the result still starts with the token and holds no `]`. */
  lemma UnclosedStripped(t: string)
    requires |t| > |IgnoreToken| && t[..|IgnoreToken|] == IgnoreToken && t[|IgnoreToken|] == '['
    requires t[0] !in Whitespace && ']' !in t
    ensures StartsWith(Strip(t), IgnoreToken) && ']' !in Strip(t)
  {
    assert LStripChars(t, Whitespace) == t;
    var r := RStripChars(t, Whitespace);
    assert Strip(t) == r;
    assert '[' !in Whitespace;
    assert |r| > |IgnoreToken|;
    assert r[..|IgnoreToken|] == t[..|IgnoreToken|];
  }

  /** The directive text of `# token[inside`, for any `inside` without `]`. */
  lemma UnclosedText(inside: string)
    requires ']' !in inside
    ensures var txt := DirectiveText("# " + IgnoreToken + "[" + inside);
      StartsWith(txt, IgnoreToken) && ']' !in txt
  {
    var t := IgnoreToken + "[" + inside;
    UnclosedShape(inside);
    LeadingMarkStripped(t);
    AppendAssoc("# ", IgnoreToken + "[", inside);
    AppendAssoc("# ", IgnoreToken, "[");
    assert "# " + IgnoreToken + "[" + inside == "# " + t;
    UnclosedStripped(t);
  }

  /** A directive that opens a bracket but never closes it lists nothing and silences
      every rule: restriction needs both `[` and `]`. This holds whatever follows the
      bracket, nothing or whitespace included. */
  lemma UnclosedBracketSilencesAll(inside: string, ruleId: string)
    requires ']' !in inside
    ensures Ignores([Some("# " + IgnoreToken + "[" + inside)], ruleId)
  {
    var comment := "# " + IgnoreToken + "[" + inside;
    UnclosedText(inside);
    SingleDirective(comment, DirectiveText(comment), ruleId);
  }

  /** `# snapstart: ignore[PY001` silences every rule, PY002 included. */
  lemma UnclosedBracketExample(ruleId: string)
    ensures Ignores([Some("# " + IgnoreToken + "[" + "PY001")], ruleId)
  {
    assert ']' !in "PY001";
    UnclosedBracketSilencesAll("PY001", ruleId);
  }

  // ---------------------------------------------------------------------------------------
  // Which rules a statement can produce

  /** Every hit has one of the given rules. */
  predicate HitRulesIn(hits: seq<Hit>, rules: set<string>) {
    forall i :: 0 <= i < |hits| ==> hits[i].rule in rules
  }

  lemma HitRulesAppend(a: seq<Hit>, b: seq<Hit>, rules: set<string>)
    requires HitRulesIn(a, rules) && HitRulesIn(b, rules)
    ensures HitRulesIn(a + b, rules)
  {
    forall i | |a| <= i < |a + b| ensures (a + b)[i].rule in rules {
      assert (a + b)[i] == b[i - |a|];
    }
  }

  lemma HitRulesWiden(hits: seq<Hit>, rules: set<string>, wider: set<string>)
    requires HitRulesIn(hits, rules) && rules <= wider
    ensures HitRulesIn(hits, wider)
  {
  }

  lemma {:induction false} SideEffectRules(dname: string, comments: seq<Option<string>>, n: nat)
    requires n <= |SideEffectFuncs|
    ensures HitRulesIn(SideEffectHits(dname, comments, n), {PY002})
  {
    if n > 0 {
      SideEffectRules(dname, comments, n - 1);
      var (mname, funcs) := SideEffectFuncs[n - 1];
      HitRulesAppend(SideEffectHits(dname, comments, n - 1),
        Fire(LeadingSegment(dname) == mname && TrailingSegment(dname) in funcs, PY002, SideEffect(dname), comments), {PY002});
    }
  }

  lemma FireRules(cond: bool, rule: string, message: Message, comments: seq<Option<string>>, rules: set<string>)
    requires rule in rules
    ensures HitRulesIn(Fire(cond, rule, message, comments), rules)
  {
  }

  lemma HitRulesAppend3(a: seq<Hit>, b: seq<Hit>, c: seq<Hit>, rules: set<string>)
    requires HitRulesIn(a, rules) && HitRulesIn(b, rules) && HitRulesIn(c, rules)
    ensures HitRulesIn(a + b + c, rules)
  {
    HitRulesAppend(a, b, rules);
    HitRulesAppend(a + b, c, rules);
  }

  lemma ResourceRules(dname: string, comments: seq<Option<string>>)
    ensures HitRulesIn(ResourceHits(dname, comments), StatementRules)
  {
    FireRules(dname in Boto3Names, PY006, Boto3Client, comments, StatementRules);
    FireRules(dname in SocketNames, PY004, SocketOpened, comments, StatementRules);
    FireRules(dname in OpenNames, PY004, FileOpened, comments, StatementRules);
    HitRulesAppend3(Fire(dname in Boto3Names, PY006, Boto3Client, comments),
      Fire(dname in SocketNames, PY004, SocketOpened, comments),
      Fire(dname in OpenNames, PY004, FileOpened, comments), StatementRules);
  }

  lemma SnapshotStateRules(dname: string, args: seq<Expr>, comments: seq<Option<string>>)
    ensures HitRulesIn(SnapshotStateHits(dname, args, comments), StatementRules)
  {
    FireRules(dname in NondeterministicNames, PY005, Nondeterministic(dname), comments, StatementRules);
    FireRules(dname == "open" && OpensTmp(args), PY007, TmpAccess, comments, StatementRules);
    FireRules(StartsWith(dname, "tempfile."), PY007, TempfileCreated, comments, StatementRules);
    HitRulesAppend3(Fire(dname in NondeterministicNames, PY005, Nondeterministic(dname), comments),
      Fire(dname == "open" && OpensTmp(args), PY007, TmpAccess, comments),
      Fire(StartsWith(dname, "tempfile."), PY007, TempfileCreated, comments), StatementRules);
  }

  lemma CallRules(call: Expr, comments: seq<Option<string>>)
    requires call.Call?
    ensures HitRulesIn(CallHits(call, comments), StatementRules)
  {
    var dname := DottedName(call.func);
    SideEffectRules(dname, comments, |SideEffectFuncs|);
    HitRulesWiden(SideEffectHits(dname, comments, |SideEffectFuncs|), {PY002}, StatementRules);
    ResourceRules(dname, comments);
    SnapshotStateRules(dname, call.args, comments);
    HitRulesAppend3(SideEffectHits(dname, comments, |SideEffectFuncs|), ResourceHits(dname, comments),
      SnapshotStateHits(dname, call.args, comments), StatementRules);
  }

  lemma FirstPassRules(small: SmallStmt, comments: seq<Option<string>>)
    ensures HitRulesIn(FirstPassHits(small, comments), StatementRules)
  {
    if small.ExprStmt? && small.value.Call? {
      CallRules(small.value, comments);
    }
    var mutable := Fire(small.Assign? && IsMutableValue(small.value), PY001, MutableState, comments);
    HitRulesAppend(mutable, BareCallHits(small, comments), StatementRules);
    HitRulesAppend(mutable + BareCallHits(small, comments), ThreadAssignHits(small, comments), StatementRules);
  }

  /** A pass whose every statement only yields hits from `rules` yields only those. */
  lemma {:induction false} PassAllRules(body: seq<SmallStmt>, pass: SmallStmt -> seq<Hit>, n: nat, rules: set<string>)
    requires n <= |body|
    requires forall j :: 0 <= j < n ==> HitRulesIn(pass(body[j]), rules)
    ensures HitRulesIn(PassAll(body, pass, n), rules)
  {
    if n > 0 {
      PassAllRules(body, pass, n - 1, rules);
      HitRulesAppend(PassAll(body, pass, n - 1), pass(body[n - 1]), rules);
    }
  }

  /** Every hit is `h`. */
  predicate OnlyHit(hits: seq<Hit>, h: Hit) {
    forall i :: 0 <= i < |hits| ==> hits[i] == h
  }

  lemma {:induction false} PassAllOnly(body: seq<SmallStmt>, pass: SmallStmt -> seq<Hit>, n: nat, h: Hit)
    requires n <= |body|
    requires forall j :: 0 <= j < n ==> OnlyHit(pass(body[j]), h)
    ensures OnlyHit(PassAll(body, pass, n), h)
  {
    if n > 0 {
      PassAllOnly(body, pass, n - 1, h);
      var a, b := PassAll(body, pass, n - 1), pass(body[n - 1]);
      forall i | |a| <= i < |a + b| ensures (a + b)[i] == h {
        assert (a + b)[i] == b[i - |a|];
      }
    }
  }

  /** A pass that yields nothing on each statement yields nothing. */
  lemma {:induction false} PassAllEmpty(body: seq<SmallStmt>, pass: SmallStmt -> seq<Hit>, n: nat)
    requires n <= |body|
    requires forall j :: 0 <= j < n ==> pass(body[j]) == []
    ensures PassAll(body, pass, n) == []
  {
    if n > 0 {
      PassAllEmpty(body, pass, n - 1);
    }
  }

  /** Two passes that agree on each statement agree on the line. */
  lemma {:induction false} PassAllSame(body: seq<SmallStmt>, pass: SmallStmt -> seq<Hit>, other: SmallStmt -> seq<Hit>, n: nat)
    requires n <= |body|
    requires forall j :: 0 <= j < n ==> pass(body[j]) == other(body[j])
    ensures PassAll(body, pass, n) == PassAll(body, other, n)
  {
    if n > 0 {
      PassAllSame(body, pass, other, n - 1);
    }
  }

  lemma FirstPassAllRules(body: seq<SmallStmt>, comments: seq<Option<string>>, n: nat)
    requires n <= |body|
    ensures HitRulesIn(FirstPassAll(body, comments, n), StatementRules)
  {
    forall j | 0 <= j < n ensures HitRulesIn(FirstPassOf(comments)(body[j]), StatementRules) {
      FirstPassRules(body[j], comments);
    }
    PassAllRules(body, FirstPassOf(comments), n, StatementRules);
  }

  lemma StartPassAllRules(body: seq<SmallStmt>, leading: seq<Option<string>>, n: nat)
    requires n <= |body|
    ensures OnlyHit(StartPassAll(body, leading, n), Hit(PY003, ThreadStarted))
  {
    PassAllOnly(body, StartPassOf(leading), n, Hit(PY003, ThreadStarted));
  }

  /** A top-level statement only ever produces rules PY001 to PY007, and a compound
      statement (a definition, a class, an `if`, a loop, ...) produces nothing, whatever it
      contains. */
  lemma LineRules(stmt: Stmt)
    ensures HitRulesIn(LineHits(stmt), StatementRules)
    ensures !stmt.SimpleLine? ==> LineHits(stmt) == []
  {
    if stmt.SimpleLine? {
      FirstPassAllRules(stmt.body, CommentsOf(stmt), |stmt.body|);
      StartPassAllRules(stmt.body, stmt.leadingLines, |stmt.body|);
      HitRulesAppend(FirstPassAll(stmt.body, CommentsOf(stmt), |stmt.body|),
        StartPassAll(stmt.body, stmt.leadingLines, |stmt.body|), StatementRules);
    }
  }

  /** An assignment is only ever flagged as mutable state or as a thread construction: the
      call rules need a bare call statement, and the start rule an expression statement. */
  lemma AssignmentRules(value: Expr, comments: seq<Option<string>>, leading: seq<Option<string>>)
    ensures HitRulesIn(FirstPassHits(Assign(value), comments), {PY001, PY003})
    ensures StartPassHits(Assign(value), leading) == []
  {
    var small := Assign(value);
    var mutable := Fire(IsMutableValue(value), PY001, MutableState, comments);
    assert BareCallHits(small, comments) == [];
    HitRulesAppend(mutable, ThreadAssignHits(small, comments), {PY001, PY003});
  }

  /** A dotted name that none of the bare-call tables mentions. */
  predicate InNoTable(dname: string) {
    && LeadingSegment(dname) !in {"requests", "subprocess", "os"}
    && dname !in Boto3Names && dname !in SocketNames && dname !in OpenNames
    && dname !in NondeterministicNames && dname != "open" && !StartsWith(dname, "tempfile.")
  }

  /** The lengths of the names in the bare-call tables. */
  lemma ModuleNameLengths()
    ensures forall t :: t in {"requests", "subprocess", "os"} ==> |t| in {2, 8, 10}
  {
  }

  lemma CallNameLengths()
    ensures forall t :: t in Boto3Names ==> |t| >= 9
    ensures forall t :: t in SocketNames ==> |t| >= 9
    ensures forall t :: t in OpenNames ==> |t| == 4 || |t| >= 9
  {
  }

  lemma NondeterministicNameLengths()
    ensures forall t :: t in NondeterministicNames ==> |t| >= 9
  {
  }

  /** A name shorter than every table entry but `open`, with a leading segment of a length
      no side-effect module has, is in no table. */
  lemma ShortName(dname: string)
    requires |dname| < 9 && |dname| != 4 && |LeadingSegment(dname)| !in {2, 8, 10}
    ensures InNoTable(dname)
  {
    ModuleNameLengths();
    CallNameLengths();
    NondeterministicNameLengths();
  }

  /** A name whose leading segment is none of the side-effect modules gets no PY002. */
  lemma {:induction false} NoSideEffectModule(dname: string, comments: seq<Option<string>>, n: nat)
    requires n <= |SideEffectFuncs|
    requires LeadingSegment(dname) !in {"requests", "subprocess", "os"}
    ensures SideEffectHits(dname, comments, n) == []
  {
    if n > 0 {
      NoSideEffectModule(dname, comments, n - 1);
      assert SideEffectFuncs[n - 1].0 in {"requests", "subprocess", "os"};
    }
  }

  /** A bare call of a name outside every table produces nothing. */
  lemma PlainCall(call: Expr, comments: seq<Option<string>>)
    requires call.Call? && InNoTable(DottedName(call.func))
    ensures CallHits(call, comments) == []
  {
    NoSideEffectModule(DottedName(call.func), comments, |SideEffectFuncs|);
  }

  /** A line holding one small statement and no comments yields that statement's first
      pass, then its second pass. */
  lemma SingleSmallLine(small: SmallStmt)
    ensures LineHits(SimpleLine([small], [], None)) == FirstPassHits(small, []) + StartPassHits(small, [])
  {
    var line := SimpleLine([small], [], None);
    assert CommentsOf(line) == [];
    PassAllSingle(small, FirstPassOf([]));
    PassAllSingle(small, StartPassOf([]));
  }

  lemma PassAllSingle(small: SmallStmt, pass: SmallStmt -> seq<Hit>)
    ensures PassAll([small], pass, 1) == pass(small)
  {
    assert PassAll([small], pass, 1) == PassAll([small], pass, 0) + pass(small);
  }

  lemma OpenName()
    ensures DottedName(Name("open")) == "open" && LeadingSegment("open") == "open"
  {
    assert '.' !in "open";
    SplitWithoutSeparator("open", '.');
  }

  /** `open("/tmp/x")` as a bare statement is reported twice: PY004 for opening a file,
      then PY007 for touching /tmp. */
  lemma OpenTmpFile()
    ensures FirstPassHits(ExprStmt(Call(Name("open"), [SimpleString("/tmp/x", false)])), [])
      == [Hit(PY004, FileOpened), Hit(PY007, TmpAccess)]
  {
    var args := [SimpleString("/tmp/x", false)];
    NoDirectiveNoIgnore([], PY004);
    NoDirectiveNoIgnore([], PY007);
    OpenName();
    NoSideEffectModule("open", [], |SideEffectFuncs|);
    assert ResourceHits("open", []) == [Hit(PY004, FileOpened)];
    assert OpensTmp(args) by { assert "/tmp/x"[..5] == "/tmp/"; }
    assert SnapshotStateHits("open", args, []) == [Hit(PY007, TmpAccess)];
  }

  lemma ThreadingThreadName()
    ensures DottedName(Attribute(Name("threading"), "Thread")) == "threading.Thread"
    ensures IsThreadConstructor("threading.Thread") && EndsWith("threading.Thread", "Thread")
  {
    assert Segments(Attribute(Name("threading"), "Thread")) == ["threading", "Thread"];
    assert "Thread" in ThreadNames[0].1;
    assert EndsWith("threading.Thread", "." + "Thread");
  }

  /** `x = threading.Thread()` is reported once, as a thread created at module level. */
  lemma ThreadAssignLine()
    ensures LineHits(SimpleLine([Assign(Call(Attribute(Name("threading"), "Thread"), []))], [], None))
      == [Hit(PY003, ThreadCreated("threading.Thread"))]
  {
    var small := Assign(Call(Attribute(Name("threading"), "Thread"), []));
    NoDirectiveNoIgnore([], PY003);
    ThreadingThreadName();
    assert FirstPassHits(small, []) == [Hit(PY003, ThreadCreated("threading.Thread"))];
    SingleSmallLine(small);
  }

  lemma XStartName()
    ensures DottedName(Attribute(Name("x"), "start")) == "x.start" && InNoTable("x.start")
  {
    XStartDotted();
    XStartLeading();
    ShortName("x.start");
  }

  lemma XStartDotted()
    ensures DottedName(Attribute(Name("x"), "start")) == "x.start"
  {
    assert Segments(Attribute(Name("x"), "start")) == ["x", "start"];
  }

  lemma XStartLeading()
    ensures LeadingSegment("x.start") == "x"
  {
    assert '.' !in "x" && '.' !in "start";
    SplitWithoutSeparator("start", '.');
    SplitAfterPiece("x", '.', "start");
    assert "x.start" == "x" + ['.'] + "start";
  }

  /** `x.start()` is not reported: the receiver of `start` is a name, not a call, so the
      second PY003 path does not apply, and `x.start` is in no table. */
  lemma NameStartLine()
    ensures LineHits(SimpleLine([ExprStmt(Call(Attribute(Name("x"), "start"), []))], [], None)) == []
  {
    var small := ExprStmt(Call(Attribute(Name("x"), "start"), []));
    XStartName();
    PlainCall(small.value, []);
    SingleSmallLine(small);
  }

  lemma StartName(receiver: Expr)
    requires !receiver.Name? && !receiver.Attribute?
    ensures DottedName(Attribute(receiver, "start")) == "start" && InNoTable("start")
  {
    assert Segments(Attribute(receiver, "start")) == ["start"];
    assert '.' !in "start";
    SplitWithoutSeparator("start", '.');
    ShortName("start");
  }

  /** `C().start()`, with `C`'s dotted name ending in "Thread", passes no first-pass rule
      and fires the second PY003 path. */
  lemma ConstructedStart(ctor: Expr)
    requires EndsWith(DottedName(ctor), "Thread")
    ensures var small := ExprStmt(Call(Attribute(Call(ctor, []), "start"), []));
      FirstPassHits(small, []) == [] && StartPassHits(small, []) == [Hit(PY003, ThreadStarted)]
  {
    var small := ExprStmt(Call(Attribute(Call(ctor, []), "start"), []));
    NoDirectiveNoIgnore([], PY003);
    StartName(Call(ctor, []));
    PlainCall(small.value, []);
  }

  /** `C().start()`, with `C`'s dotted name ending in "Thread", is reported by the second
      path, once. */
  lemma ConstructedStartLine(ctor: Expr)
    requires EndsWith(DottedName(ctor), "Thread")
    ensures LineHits(SimpleLine([ExprStmt(Call(Attribute(Call(ctor, []), "start"), []))], [], None))
      == [Hit(PY003, ThreadStarted)]
  {
    ConstructedStart(ctor);
    SingleSmallLine(ExprStmt(Call(Attribute(Call(ctor, []), "start"), [])));
  }

  /** `threading.Thread().start()` is reported by the second path, once. */
  lemma ThreadStartLine()
    ensures LineHits(SimpleLine([ExprStmt(Call(Attribute(Call(Attribute(Name("threading"), "Thread"), []), "start"), []))], [], None))
      == [Hit(PY003, ThreadStarted)]
  {
    ThreadingThreadName();
    ConstructedStartLine(Attribute(Name("threading"), "Thread"));
  }

  /** The findings for a run of hits carry the hits' rules and messages, in order. */
  lemma {:induction false} EmittedHits(env: ScanEnv, hits: seq<Hit>, node: NodeRef)
    ensures var fs := Emitted(env, hits, node);
      |fs| == |hits| && forall i :: 0 <= i < |hits| ==> fs[i] == MakeFinding(env, hits[i].rule, hits[i].message.Rendered(), node)
  {
    if hits != [] {
      EmittedHits(env, hits[1..], node);
    }
  }

  /** Every finding has one of the given rules. */
  predicate AllIn(fs: seq<Finding>, rules: set<string>) {
    forall i :: 0 <= i < |fs| ==> fs[i].ruleId in rules
  }

  lemma {:induction false} EmittedRules(env: ScanEnv, hits: seq<Hit>, node: NodeRef, rules: set<string>)
    requires HitRulesIn(hits, rules)
    ensures AllIn(Emitted(env, hits, node), rules)
  {
    if hits != [] {
      assert HitRulesIn(hits[1..], rules) by {
        forall i | 0 <= i < |hits[1..]| ensures hits[1..][i].rule in rules {
          assert hits[1..][i] == hits[i + 1];
        }
      }
      EmittedRules(env, hits[1..], node, rules);
    }
  }

  /** The findings of one top-level statement have rules from PY001 to PY007. */
  lemma LineFindingsRules(env: ScanEnv, stmt: Stmt, node: NodeRef)
    ensures AllIn(Emitted(env, LineHits(stmt), node), StatementRules)
  {
    LineRules(stmt);
    EmittedRules(env, LineHits(stmt), node, StatementRules);
  }

  /** Every finding of the statement pass has a rule from PY001 to PY007. */
  lemma BodyFindingsRules(env: ScanEnv, stmts: seq<Stmt>, n: nat)
    requires n <= |stmts|
    ensures AllIn(BodyFindings(env, stmts, n), StatementRules)
  {
    forall i | 0 <= i < |BodyFindings(env, stmts, n)| ensures BodyFindings(env, stmts, n)[i].ruleId in StatementRules {
      BodyFindingRule(env, stmts, n, i);
    }
  }

  lemma {:induction false} BodyFindingRule(env: ScanEnv, stmts: seq<Stmt>, n: nat, i: nat)
    requires 0 < n <= |stmts| && i < |BodyFindings(env, stmts, n)|
    ensures BodyFindings(env, stmts, n)[i].ruleId in StatementRules
  {
    if 1 < n && i < |BodyFindings(env, stmts, n - 1)| {
      BodyFindingRule(env, stmts, n - 1, i);
    }
    BodyFindingRuleStep(env, stmts, n, i);
  }

  lemma BodyFindingRuleStep(env: ScanEnv, stmts: seq<Stmt>, n: nat, i: nat)
    requires 0 < n <= |stmts| && i < |BodyFindings(env, stmts, n)|
    requires i < |BodyFindings(env, stmts, n - 1)| ==> BodyFindings(env, stmts, n - 1)[i].ruleId in StatementRules
    ensures BodyFindings(env, stmts, n)[i].ruleId in StatementRules
  {
    var prefix := BodyFindings(env, stmts, n - 1);
    var line := Emitted(env, LineHits(stmts[n - 1]), TopLevel(n - 1));
    if i >= |prefix| {
      LineFindingsRules(env, stmts[n - 1], TopLevel(n - 1));
      assert line[i - |prefix|].ruleId in StatementRules;
    }
  }

  lemma {:induction false} CompoundOnlyBody(env: ScanEnv, stmts: seq<Stmt>, n: nat)
    requires n <= |stmts|
    requires forall i :: 0 <= i < |stmts| ==> !stmts[i].SimpleLine?
    ensures BodyFindings(env, stmts, n) == []
  {
    if n > 0 {
      CompoundOnlyBody(env, stmts, n - 1);
      CompoundLine(env, stmts[n - 1], TopLevel(n - 1));
    }
  }

  lemma CompoundLine(env: ScanEnv, stmt: Stmt, node: NodeRef)
    requires !stmt.SimpleLine?
    ensures Emitted(env, LineHits(stmt), node) == []
  {
  }

  /** A module made only of compound statements yields no findings at all, the
      meta-finding included. */
  lemma CompoundOnlyModule(env: ScanEnv, hookNames: set<string>, m: Module)
    requires forall i :: 0 <= i < |m.body| ==> !m.body[i].SimpleLine?
    ensures ScanModule(env, hookNames, m) == []
  {
    CompoundOnlyBody(env, m.body, |m.body|);
  }

  // ---------------------------------------------------------------------------------------
  // Suppression at the level of a line

  /** The first directive among the comments has no bracket pair. */
  predicate SilencesAll(comments: seq<Option<string>>) {
    match FirstDirective(comments)
    case None => false
    case Some(txt) => !('[' in txt && ']' in txt)
  }

  /** Such comments silence every rule. */
  lemma SilencesAllIgnores(comments: seq<Option<string>>, ruleId: string)
    requires SilencesAll(comments)
    ensures Ignores(comments, ruleId)
  {
  }

  lemma {:induction false} SilencedSideEffects(dname: string, comments: seq<Option<string>>, n: nat)
    requires n <= |SideEffectFuncs|
    requires SilencesAll(comments)
    ensures SideEffectHits(dname, comments, n) == []
  {
    if n > 0 {
      SilencedSideEffects(dname, comments, n - 1);
    }
  }

  lemma SilencedBareCall(small: SmallStmt, comments: seq<Option<string>>)
    requires SilencesAll(comments)
    ensures BareCallHits(small, comments) == []
  {
    if small.ExprStmt? && small.value.Call? {
      SilencedSideEffects(DottedName(small.value.func), comments, |SideEffectFuncs|);
    }
  }

  lemma SilencedSmall(small: SmallStmt, comments: seq<Option<string>>)
    requires SilencesAll(comments)
    ensures FirstPassHits(small, comments) == []
  {
    SilencedBareCall(small, comments);
  }

  lemma SilencedFirstPass(body: seq<SmallStmt>, comments: seq<Option<string>>, n: nat)
    requires n <= |body|
    requires SilencesAll(comments)
    ensures FirstPassAll(body, comments, n) == []
  {
    forall j | 0 <= j < n ensures FirstPassOf(comments)(body[j]) == [] {
      SilencedSmall(body[j], comments);
    }
    PassAllEmpty(body, FirstPassOf(comments), n);
  }

  lemma SilencedStartPass(body: seq<SmallStmt>, leading: seq<Option<string>>, n: nat)
    requires n <= |body|
    requires SilencesAll(leading)
    ensures StartPassAll(body, leading, n) == []
  {
    SilencesAllIgnores(leading, PY003);
    PassAllEmpty(body, StartPassOf(leading), n);
  }

  lemma UnsilencedStartPass(body: seq<SmallStmt>, leading: seq<Option<string>>, n: nat)
    requires n <= |body|
    requires forall j :: 0 <= j < |leading| ==> !IsDirective(leading[j])
    ensures StartPassAll(body, leading, n) == StartPassAll(body, [], n)
  {
    NoDirectiveNoIgnore(leading, PY003);
    NoDirectiveNoIgnore([], PY003);
    PassAllSame(body, StartPassOf(leading), StartPassOf([]), n);
  }

  /** A blanket directive as the first directive of the leading comment lines silences the
      whole line: both passes. */
  lemma LeadingBlanketSilencesLine(stmt: Stmt, pre: seq<Option<string>>, c: Option<string>, post: seq<Option<string>>)
    requires stmt.SimpleLine? && stmt.leadingLines == pre + [c] + post
    requires !HasDirective(pre) && Blanket(c)
    ensures LineHits(stmt) == []
  {
    LeadingBlanketSilences(stmt, pre, c, post);
    SilencedFirstPass(stmt.body, CommentsOf(stmt), |stmt.body|);
    SilencedStartPass(stmt.body, stmt.leadingLines, |stmt.body|);
  }

  lemma LeadingBlanketSilences(stmt: Stmt, pre: seq<Option<string>>, c: Option<string>, post: seq<Option<string>>)
    requires stmt.SimpleLine? && stmt.leadingLines == pre + [c] + post
    requires !HasDirective(pre) && Blanket(c)
    ensures SilencesAll(stmt.leadingLines) && SilencesAll(CommentsOf(stmt))
  {
    FirstDirectiveAt(pre, c, post);
    FirstDirectiveAppend(stmt.leadingLines, if stmt.trailing.Some? then [stmt.trailing] else []);
  }

  /** A blanket directive in the trailing comment, with no directive on the leading lines,
      silences the first pass but not the start rule: the line yields exactly the
      thread-start findings it would yield without any comment. */
  lemma TrailingBlanketKeepsStartPass(stmt: Stmt)
    requires stmt.SimpleLine? && Blanket(stmt.trailing)
    requires forall j :: 0 <= j < |stmt.leadingLines| ==> !IsDirective(stmt.leadingLines[j])
    ensures LineHits(stmt) == StartPassAll(stmt.body, [], |stmt.body|)
  {
    TrailingBlanketSilences(stmt);
    SilencedFirstPass(stmt.body, CommentsOf(stmt), |stmt.body|);
    UnsilencedStartPass(stmt.body, stmt.leadingLines, |stmt.body|);
  }

  lemma TrailingBlanketSilences(stmt: Stmt)
    requires stmt.SimpleLine? && Blanket(stmt.trailing)
    requires forall j :: 0 <= j < |stmt.leadingLines| ==> !IsDirective(stmt.leadingLines[j])
    ensures SilencesAll(CommentsOf(stmt))
  {
    FirstDirectiveAppend(stmt.leadingLines, [stmt.trailing]);
    assert !HasDirective(stmt.leadingLines);
    FirstDirectiveSingle(stmt.trailing);
  }

  // ---------------------------------------------------------------------------------------
  // The missing-hooks meta-finding

  /** No configured hook name among the definitions. */
  predicate NoHooks(hookNames: set<string>, defs: seq<string>) {
    forall i :: 0 <= i < |defs| ==> defs[i] !in hookNames
  }

  lemma HooksSeenEmpty(hookNames: set<string>, defs: seq<string>)
    ensures HooksSeen(hookNames, defs) == {} <==> NoHooks(hookNames, defs)
  {
    if !NoHooks(hookNames, defs) {
      var i :| 0 <= i < |defs| && defs[i] in hookNames;
      assert defs[i] in HooksSeen(hookNames, defs);
    }
  }

  /** The scan of a module is the statement findings, in document order, followed by the
      meta-finding, anchored at the module node, exactly when some statement finding is
      hazardous (PY002, PY003, PY004, PY006 or PY007) and no function definition anywhere is
      named after a hook. */
  lemma MetaFinding(env: ScanEnv, hookNames: set<string>, m: Module)
    ensures var fs := ScanModule(env, hookNames, m);
      var body := BodyFindings(env, m.body, |m.body|);
      var fire := AnyHazardous(body) && NoHooks(hookNames, DefNames(m.body));
      && (fire ==> fs == body + [MakeFinding(env, PY008, MissingHooks.Rendered(), ModuleNode)])
      && (!fire ==> fs == body)
  {
    HooksSeenEmpty(hookNames, DefNames(m.body));
    assert [] + BodyFindings(env, m.body, |m.body|) == BodyFindings(env, m.body, |m.body|);
  }

  /** How many findings have the rule. */
  function RuleCount(fs: seq<Finding>, rule: string): nat {
    if fs == [] then 0 else RuleCount(fs[..|fs| - 1], rule) + (if fs[|fs| - 1].ruleId == rule then 1 else 0)
  }

  lemma {:induction false} RuleCountAbsent(fs: seq<Finding>, rule: string, rules: set<string>)
    requires AllIn(fs, rules) && rule !in rules
    ensures RuleCount(fs, rule) == 0
  {
    if fs != [] {
      RuleCountAbsent(fs[..|fs| - 1], rule, rules);
    }
  }

  /** Appending, exactly when `fire` holds, a finding of a rule the others lack: that rule
      then occurs once when `fire` holds and not at all otherwise. */
  lemma OnlyLast(fs: seq<Finding>, body: seq<Finding>, f: Finding, fire: bool, rule: string, rules: set<string>)
    requires AllIn(body, rules) && f.ruleId == rule && rule !in rules
    requires fire ==> fs == body + [f]
    requires !fire ==> fs == body
    ensures RuleCount(fs, rule) == if fire then 1 else 0
  {
    RuleCountAbsent(body, rule, rules);
    if fire {
      assert fs[..|fs| - 1] == body;
    }
  }

  /** The meta-finding occurs exactly once when the condition above holds, as the last
      finding, and not at all otherwise: no statement finding has its rule. */
  lemma MetaFindingOnceLast(env: ScanEnv, hookNames: set<string>, m: Module)
    ensures RuleCount(ScanModule(env, hookNames, m), PY008) ==
      if AnyHazardous(BodyFindings(env, m.body, |m.body|)) && NoHooks(hookNames, DefNames(m.body)) then 1 else 0
  {
    MetaFinding(env, hookNames, m);
    BodyFindingsRules(env, m.body, |m.body|);
    MetaRuleSeparate();
    OnlyLast(ScanModule(env, hookNames, m), BodyFindings(env, m.body, |m.body|),
      MakeFinding(env, PY008, MissingHooks.Rendered(), ModuleNode),
      AnyHazardous(BodyFindings(env, m.body, |m.body|)) && NoHooks(hookNames, DefNames(m.body)), PY008, StatementRules);
  }
}
