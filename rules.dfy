/** The module-level hazard visitor: resolves call targets to dotted names, reads
    suppression comments, checks every direct top-level simple statement against the fixed
    rule table, records hook-named function definitions at any depth and, after the walk,
    adds the missing-hooks meta-finding.

    The pure functions below are the specification; `ModuleLevelVisitor` is the stateful
    visitor, proved to append exactly what they describe. */
module Rules {
  import opened Wrappers
  import opened Text
  import opened Syntax
  import opened RuleIds
  import opened Findings
  import Config

  const IgnoreToken := "snapstart: ignore"

  /** Module name, and the function names in it that have side effects. */
  const SideEffectFuncs: seq<(string, set<string>)> := [
    ("requests", {"get", "post", "put", "patch", "delete", "head", "request"}),
    ("subprocess", {"run", "Popen", "call", "check_call", "check_output"}),
    ("os", {"system"})]

  /** Module name, and the constructors in it that start threads or executors. */
  const ThreadNames: seq<(string, set<string>)> := [
    ("threading", {"Thread", "Timer"}),
    ("concurrent.futures", {"ThreadPoolExecutor", "ProcessPoolExecutor"}),
    ("apscheduler.schedulers.background", {"BackgroundScheduler"}),
    ("sched", {"scheduler"})]

  const Boto3Names: set<string> := {"boto3.client", "boto3.resource"}
  const SocketNames: set<string> := {"socket.socket"}
  const OpenNames: set<string> := {"open", "pathlib.Path.open"}
  const NondeterministicNames: set<string> :=
    {"random.seed", "random.random", "uuid.uuid4", "uuid.uuid1", "time.time",
     "datetime.datetime.now", "datetime.datetime.utcnow"}
  const MutableConstructors: set<string> := {"set", "list", "dict"}

  /** The message of a finding: which rule text it is, with the dotted name where the
      text quotes it. */
  datatype Message =
    | MutableState
    | SideEffect(dname: string)
    | Boto3Client
    | SocketOpened
    | FileOpened
    | Nondeterministic(dname: string)
    | TmpAccess
    | TempfileCreated
    | ThreadCreated(dname: string)
    | ThreadStarted
    | MissingHooks
  {
    /** The message text the scanner reports. */
    function Rendered(): string {
      match this
      case MutableState => "Mutable object created at module level; consider making immutable or moving to handler."
      case SideEffect(d) => "Potential non-idempotent side-effect call '" + d + "' at module import."
      case Boto3Client => "boto3 client/resource created at module level; recreate per invocation or in restore hook."
      case SocketOpened => "Socket opened at module level; reopen per invocation or in restore hook."
      case FileOpened => "File opened at module level; use context manager in handler or reopen in restore hook."
      case Nondeterministic(d) => "Non-deterministic value computed at module import via '" + d + "'."
      case TmpAccess => "Writing/reading in /tmp at module import; defer to handler or restore hook."
      case TempfileCreated => "Temporary file created at module import; may not survive snapshot/restore."
      case ThreadCreated(d) => "Background thread/executor '" + d + "' created at module level."
      case ThreadStarted => "Thread started at module level."
      case MissingHooks =>
        "Hazardous init detected but no runtime restore hooks found. Define restore hooks (e.g., after_restore)."
    }
  }

  // ---------------------------------------------------------------------------------------
  // Dotted names

  /** The names along an attribute chain, root first. The root counts only when it is a
      plain name; anything else ends the chain without contributing a segment. */
  function Segments(e: Expr): seq<string> {
    match e
    case Name(id) => [id]
    case Attribute(v, a) => Segments(v) + [a]
    case _ => []
  }

  /** The dotted name an expression denotes: its segments joined with ".". */
  function DottedName(e: Expr): (r: string)
    ensures e.Name? ==> r == e.id
    ensures !e.Name? && !e.Attribute? ==> r == ""
  {
    Join(Segments(e), ".")
  }

  function Reversed(s: seq<string>): (r: seq<string>)
    ensures |r| == |s|
  {
    if s == [] then [] else [s[|s| - 1]] + Reversed(s[..|s| - 1])
  }

  lemma ReversedSnoc(s: seq<string>, x: string)
    ensures Reversed(s + [x]) == [x] + Reversed(s)
  {
    assert (s + [x])[..|s|] == s;
  }

  /** Walks the attribute chain outward, collecting attribute names, adds the root name if
      the chain ends in one, then reverses and joins. */
  method ComputeDottedName(node: Expr) returns (s: string)
    ensures s == DottedName(node)
  {
    var names: seq<string> := [];
    var cur := node;
    while cur.Attribute?
      invariant Segments(node) == Segments(cur) + Reversed(names)
      decreases cur
    {
      ReversedSnoc(names, cur.attr);
      AppendAssoc(Segments(cur.value), [cur.attr], Reversed(names));
      names := names + [cur.attr];
      cur := cur.value;
    }
    if cur.Name? {
      ReversedSnoc(names, cur.id);
      names := names + [cur.id];
    } else {
      assert Segments(cur) + Reversed(names) == Reversed(names);
    }
    names := Reversed(names);
    s := Join(names, ".");
  }

  // ---------------------------------------------------------------------------------------
  // Suppression comments

  /** A comment's text after dropping its leading `#` and space characters, then any
      surrounding whitespace. */
  function DirectiveText(comment: string): string {
    Strip(LStripChars(comment, {'#', ' '}))
  }

  /** A comment that is present, non-empty, and whose text starts with the ignore token. */
  predicate IsDirective(c: Option<string>) {
    c.Some? && c.value != "" && StartsWith(DirectiveText(c.value), IgnoreToken)
  }

  /** The text after the first occurrence of `c` (all of `s` if there is none). */
  function After(s: string, c: char): (r: string)
    ensures |r| <= |s|
    ensures c in s ==> |r| < |s| && r == s[|s| - |r|..] && s[|s| - |r| - 1] == c && c !in s[..|s| - |r| - 1]
    decreases |s|
  {
    if |s| == 0 then s
    else if s[0] == c then s[1..]
    else After(s[1..], c)
  }

  /** The ids a bracketed directive lists: between the first `[` and the next `]`, split on
      commas, trimmed, empty ones dropped. */
  function ListedIds(txt: string): seq<string> {
    var inside := Split(After(txt, '['), ']')[0];
    StrippedNonEmpty(Split(inside, ','))
  }

  /** What a directive decides for `ruleId`: a directive without both brackets silences
      every rule; otherwise only the listed ones. */
  predicate Decides(txt: string, ruleId: string) {
    if '[' in txt && ']' in txt then ruleId in ListedIds(txt) else true
  }

  /** The text of the first directive among the comments, if there is one. */
  function FirstDirective(comments: seq<Option<string>>): Option<string> {
    if comments == [] then None
    else if IsDirective(comments[0]) then Some(DirectiveText(comments[0].value))
    else FirstDirective(comments[1..])
  }

  /** Whether the comments silence `ruleId`: the first directive among them decides;
      with no directive nothing is silenced. */
  predicate Ignores(comments: seq<Option<string>>, ruleId: string) {
    match FirstDirective(comments)
    case None => false
    case Some(txt) => Decides(txt, ruleId)
  }

  method HasInlineIgnore(comments: seq<Option<string>>, ruleId: string) returns (ignored: bool)
    ensures ignored == Ignores(comments, ruleId)
  {
    for k := 0 to |comments|
      invariant FirstDirective(comments[k..]) == FirstDirective(comments)
    {
      assert comments[k..][1..] == comments[k + 1..];
      var c := comments[k];
      if c.None? || c.value == "" {
        continue;
      }
      var txt := DirectiveText(c.value);
      if StartsWith(txt, IgnoreToken) {
        if '[' in txt && ']' in txt {
          var inside := Split(After(txt, '['), ']')[0];
          var ids := StrippedNonEmpty(Split(inside, ','));
          return ruleId in ids;
        }
        return true;
      }
    }
    assert comments[|comments|..] == [];
    return false;
  }

  // ---------------------------------------------------------------------------------------
  // The rule table, as the hits each small statement produces

  /** A rule that fired: its id and its message. */
  datatype Hit = Hit(rule: string, message: Message)

  /** One hit for `rule` when `cond` holds and the comments do not silence the rule. */
  function Fire(cond: bool, rule: string, message: Message, comments: seq<Option<string>>): seq<Hit> {
    if cond && !Ignores(comments, rule) then [Hit(rule, message)] else []
  }

  /** A list, dict or set literal, or a call of the bare name `list`, `set` or `dict`. */
  predicate IsMutableValue(v: Expr) {
    v.ListLit? || v.DictLit? || v.SetLit? || (v.Call? && v.func.Name? && v.func.id in MutableConstructors)
  }

  /** The first argument is a (non-bytes) string literal whose value starts with "/tmp/". */
  predicate OpensTmp(args: seq<Expr>) {
    |args| > 0 && args[0].SimpleString? && !args[0].isBytes && StartsWith(args[0].evaluated, "/tmp/")
  }

  /** Some entry of the thread table names a constructor that `dname` ends with, dot included. */
  predicate IsThreadConstructor(dname: string) {
    exists k, n :: 0 <= k < |ThreadNames| && n in ThreadNames[k].1 && EndsWith(dname, "." + n)
  }

  /** The leading and trailing segments of a dotted name ("" for the empty name). */
  function LeadingSegment(dname: string): string {
    if dname != "" then Split(dname, '.')[0] else ""
  }

  function TrailingSegment(dname: string): string {
    var parts := Split(dname, '.');
    if dname != "" then parts[|parts| - 1] else ""
  }

  /** The side-effect hits contributed by the first `n` entries of the side-effect table. */
  function SideEffectHits(dname: string, comments: seq<Option<string>>, n: nat): seq<Hit>
    requires n <= |SideEffectFuncs|
  {
    if n == 0 then []
    else
      var (mname, funcs) := SideEffectFuncs[n - 1];
      SideEffectHits(dname, comments, n - 1)
        + Fire(LeadingSegment(dname) == mname && TrailingSegment(dname) in funcs, PY002, SideEffect(dname), comments)
  }

  lemma SideEffectStep(env: ScanEnv, base: seq<Finding>, dname: string, comments: seq<Option<string>>,
                       node: NodeRef, k: nat)
    requires k < |SideEffectFuncs|
    ensures var (mname, funcs) := SideEffectFuncs[k];
      base + Emitted(env, SideEffectHits(dname, comments, k), node)
        + Emitted(env, Fire(LeadingSegment(dname) == mname && TrailingSegment(dname) in funcs, PY002, SideEffect(dname), comments), node)
      == base + Emitted(env, SideEffectHits(dname, comments, k + 1), node)
  {
    var (mname, funcs) := SideEffectFuncs[k];
    Extend(env, base, SideEffectHits(dname, comments, k),
           Fire(LeadingSegment(dname) == mname && TrailingSegment(dname) in funcs, PY002, SideEffect(dname), comments), node);
  }

  /** The socket, file and boto3 rules for a bare call of `dname`, in table order. */
  function ResourceHits(dname: string, comments: seq<Option<string>>): seq<Hit> {
    Fire(dname in Boto3Names, PY006, Boto3Client, comments)
      + Fire(dname in SocketNames, PY004, SocketOpened, comments)
      + Fire(dname in OpenNames, PY004, FileOpened, comments)
  }

  /** The non-determinism and temporary-file rules for a bare call of `dname`. */
  function SnapshotStateHits(dname: string, args: seq<Expr>, comments: seq<Option<string>>): seq<Hit> {
    Fire(dname in NondeterministicNames, PY005, Nondeterministic(dname), comments)
      + Fire(dname == "open" && OpensTmp(args), PY007, TmpAccess, comments)
      + Fire(StartsWith(dname, "tempfile."), PY007, TempfileCreated, comments)
  }

  /** The hits of a call made as a bare expression statement, in table order: side
      effects, boto3, sockets, files, non-determinism, temporary files. */
  function CallHits(call: Expr, comments: seq<Option<string>>): seq<Hit>
    requires call.Call?
  {
    var dname := DottedName(call.func);
    SideEffectHits(dname, comments, |SideEffectFuncs|)
      + ResourceHits(dname, comments)
      + SnapshotStateHits(dname, call.args, comments)
  }

  /** The bare-call rules, for a small statement that is a call expression. */
  function BareCallHits(small: SmallStmt, comments: seq<Option<string>>): seq<Hit> {
    if small.ExprStmt? && small.value.Call? then CallHits(small.value, comments) else []
  }

  /** Thread or executor construction, for an assignment whose value is a call. */
  function ThreadAssignHits(small: SmallStmt, comments: seq<Option<string>>): seq<Hit> {
    if small.Assign? && small.value.Call?
    then Fire(IsThreadConstructor(DottedName(small.value.func)), PY003,
              ThreadCreated(DottedName(small.value.func)), comments)
    else []
  }

  /** The first pass over one small statement: mutable state, then the bare-call rules,
      then thread or executor construction by assignment. */
  function FirstPassHits(small: SmallStmt, comments: seq<Option<string>>): seq<Hit> {
    Fire(small.Assign? && IsMutableValue(small.value), PY001, MutableState, comments)
      + BareCallHits(small, comments)
      + ThreadAssignHits(small, comments)
  }

  /** `C(...).start()` as a bare statement, where `C`'s dotted name ends with "Thread". */
  predicate IsThreadStart(small: SmallStmt) {
    && small.ExprStmt? && small.value.Call?
    && small.value.func.Attribute? && small.value.func.attr == "start"
    && small.value.func.value.Call?
    && var dname := DottedName(small.value.func.value.func);
       EndsWith(dname, "threading.Thread") || EndsWith(dname, "Thread")
  }

  /** The second pass over one small statement; only leading-line comments are consulted. */
  function StartPassHits(small: SmallStmt, leading: seq<Option<string>>): seq<Hit> {
    Fire(IsThreadStart(small), PY003, ThreadStarted, leading)
  }

  /** The hits of `pass` over the first `n` small statements of a line, in order. */
  function PassAll(body: seq<SmallStmt>, pass: SmallStmt -> seq<Hit>, n: nat): seq<Hit>
    requires n <= |body|
  {
    if n == 0 then [] else PassAll(body, pass, n - 1) + pass(body[n - 1])
  }

  function FirstPassOf(comments: seq<Option<string>>): SmallStmt -> seq<Hit> {
    small => FirstPassHits(small, comments)
  }

  function StartPassOf(leading: seq<Option<string>>): SmallStmt -> seq<Hit> {
    small => StartPassHits(small, leading)
  }

  function FirstPassAll(body: seq<SmallStmt>, comments: seq<Option<string>>, n: nat): seq<Hit>
    requires n <= |body|
  {
    PassAll(body, FirstPassOf(comments), n)
  }

  function StartPassAll(body: seq<SmallStmt>, leading: seq<Option<string>>, n: nat): seq<Hit>
    requires n <= |body|
  {
    PassAll(body, StartPassOf(leading), n)
  }

  /** The comments attached to a simple line: its leading lines, then its trailing comment. */
  function CommentsOf(stmt: Stmt): seq<Option<string>>
    requires stmt.SimpleLine?
  {
    stmt.leadingLines + (if stmt.trailing.Some? then [stmt.trailing] else [])
  }

  /** Everything one top-level statement produces: for a simple line, the first pass over
      all its small statements, then the second pass; nothing for a compound statement. */
  function LineHits(stmt: Stmt): seq<Hit> {
    if stmt.SimpleLine?
    then FirstPassAll(stmt.body, CommentsOf(stmt), |stmt.body|) + StartPassAll(stmt.body, stmt.leadingLines, |stmt.body|)
    else []
  }

  // ---------------------------------------------------------------------------------------
  // Emission

  /** What the visitor knows of the file: its name, the severity map, its source lines
      and the position provider. */
  datatype ScanEnv = ScanEnv(
    filename: string,
    severities: map<string, string>,
    sourceLines: seq<string>,
    position: NodeRef -> Option<Position>)

  /** The stripped source line `lineno` (1-based), at most 160 characters: a longer line
      keeps its first 157 and ends in "..."; a line number out of range gives "". */
  function Snippet(sourceLines: seq<string>, lineno: int): (r: string)
    ensures |r| <= 160
    ensures !(1 <= lineno <= |sourceLines|) ==> r == ""
    ensures 1 <= lineno <= |sourceLines| ==>
      var t := Strip(sourceLines[lineno - 1]);
      && (|t| <= 160 ==> r == t)
      && (|t| > 160 ==> r == t[..157] + "..." && |r| == 160)
  {
    if 1 <= lineno <= |sourceLines| then
      var t := Strip(sourceLines[lineno - 1]);
      if |t| > 160 then t[..157] + "..." else t
    else ""
  }

  /** The finding for a rule fired at `node`: the node's position, or (1, 0) when the
      provider has none; the snippet of that line; the configured level, or "WARN". */
  function MakeFinding(env: ScanEnv, rule: string, message: string, node: NodeRef): (f: Finding)
    ensures f.ruleId == rule && f.message == message && f.filename == env.filename
    ensures f.level == Config.SeverityOf(env.severities, rule)
    ensures env.position(node).None? ==> f.lineno == 1 && f.col == 0
    ensures env.position(node).Some? ==>
      f.lineno == env.position(node).value.line && f.col == env.position(node).value.column
    ensures f.code == Snippet(env.sourceLines, f.lineno) && |f.code| <= 160
  {
    var (lineno, col) := match env.position(node)
      case Some(p) => (p.line, p.column)
      case None => (1, 0);
    Finding(rule, Config.SeverityOf(env.severities, rule), message, env.filename, lineno, col,
            Snippet(env.sourceLines, lineno))
  }

  /** The findings for a run of hits fired at one node, in the same order. */
  function Emitted(env: ScanEnv, hits: seq<Hit>, node: NodeRef): seq<Finding> {
    if hits == [] then [] else [MakeFinding(env, hits[0].rule, hits[0].message.Rendered(), node)] + Emitted(env, hits[1..], node)
  }

  lemma EmittedSingle(env: ScanEnv, rule: string, message: Message, node: NodeRef)
    ensures Emitted(env, [Hit(rule, message)], node) == [MakeFinding(env, rule, message.Rendered(), node)]
  {
    assert [Hit(rule, message)][1..] == [];
  }

  lemma {:induction false} EmittedAppend(env: ScanEnv, a: seq<Hit>, b: seq<Hit>, node: NodeRef)
    ensures Emitted(env, a + b, node) == Emitted(env, a, node) + Emitted(env, b, node)
  {
    if a != [] {
      TailAppend(a, b);
      EmittedAppend(env, a[1..], b, node);
      AppendAssoc([MakeFinding(env, a[0].rule, a[0].message.Rendered(), node)], Emitted(env, a[1..], node), Emitted(env, b, node));
    } else {
      assert a + b == b;
    }
  }

  lemma Extend(env: ScanEnv, base: seq<Finding>, done: seq<Hit>, more: seq<Hit>, node: NodeRef)
    ensures base + Emitted(env, done, node) + Emitted(env, more, node) == base + Emitted(env, done + more, node)
  {
    EmittedAppend(env, done, more, node);
    AppendAssoc(base, Emitted(env, done, node), Emitted(env, more, node));
  }

  lemma TailAppend<T>(a: seq<T>, b: seq<T>)
    requires a != []
    ensures (a + b)[0] == a[0] && (a + b)[1..] == a[1..] + b
  {
  }

  lemma AppendAssoc<T>(a: seq<T>, b: seq<T>, c: seq<T>)
    ensures a + b + c == a + (b + c)
  {
  }

  /** The findings of the first `n` top-level statements, in document order. */
  function BodyFindings(env: ScanEnv, stmts: seq<Stmt>, n: nat): seq<Finding>
    requires n <= |stmts|
  {
    if n == 0 then [] else BodyFindings(env, stmts, n - 1) + Emitted(env, LineHits(stmts[n - 1]), TopLevel(n - 1))
  }

  lemma BodyFindingsStep(env: ScanEnv, base: seq<Finding>, stmts: seq<Stmt>, i: nat)
    requires i < |stmts|
    ensures base + BodyFindings(env, stmts, i) + Emitted(env, LineHits(stmts[i]), TopLevel(i))
         == base + BodyFindings(env, stmts, i + 1)
  {
    AppendAssoc(base, BodyFindings(env, stmts, i), Emitted(env, LineHits(stmts[i]), TopLevel(i)));
  }

  predicate AnyHazardous(findings: seq<Finding>) {
    exists i :: 0 <= i < |findings| && findings[i].ruleId in HazardousRules
  }

  /** What leaving the module appends: every statement's findings, then the meta-finding
      when some finding so far is hazardous and no hook was seen. */
  function LeaveFindings(env: ScanEnv, stmts: seq<Stmt>, prior: seq<Finding>, seenHooks: set<string>): seq<Finding> {
    var body := BodyFindings(env, stmts, |stmts|);
    body + (if AnyHazardous(prior + body) && seenHooks == {}
            then [MakeFinding(env, PY008, MissingHooks.Rendered(), ModuleNode)] else [])
  }

  /** The configured hook names among the given function names. */
  function HooksSeen(hookNames: set<string>, defs: seq<string>): set<string> {
    set i | 0 <= i < |defs| && defs[i] in hookNames :: defs[i]
  }

  /** Seeing one more definition adds its name when it is a hook name. */
  lemma HooksSeenSnoc(hookNames: set<string>, defs: seq<string>, name: string)
    ensures HooksSeen(hookNames, defs + [name])
      == HooksSeen(hookNames, defs) + (if name in hookNames then {name} else {})
  {
    var extended := defs + [name];
    assert forall i :: 0 <= i < |defs| ==> extended[i] == defs[i];
    assert extended[|defs|] == name;
  }

  /** The findings a fresh visitor produces for a whole module. */
  function ScanModule(env: ScanEnv, hookNames: set<string>, m: Module): seq<Finding> {
    LeaveFindings(env, m.body, [], HooksSeen(hookNames, DefNames(m.body)))
  }

  // ---------------------------------------------------------------------------------------
  // The visitor

  class ModuleLevelVisitor {
    const filename: string
    const sev: map<string, string>
    const hookNames: set<string>
    const sourceLines: seq<string>
    const position: NodeRef -> Option<Position>
    var findings: seq<Finding>
    var seenHooks: set<string>
    var moduleLevelNodes: seq<Stmt>

    function Env(): ScanEnv {
      ScanEnv(filename, sev, sourceLines, position)
    }

    constructor (filename: string, severities: map<string, string>, hookNames: seq<string>,
                 sourceLines: seq<string>, position: NodeRef -> Option<Position>)
      ensures Env() == ScanEnv(filename, severities, sourceLines, position)
      ensures this.hookNames == set h | h in hookNames
      ensures findings == [] && seenHooks == {} && moduleLevelNodes == []
    {
      this.filename := filename;
      this.sev := severities;
      this.hookNames := set h | h in hookNames;
      this.sourceLines := sourceLines;
      this.position := position;
      findings := [];
      seenHooks := {};
      moduleLevelNodes := [];
    }

    /** Entering the module captures its direct top-level statements, nothing deeper. */
    method VisitModule(node: Module)
      modifies this`moduleLevelNodes
      ensures moduleLevelNodes == node.body
    {
      moduleLevelNodes := node.body;
    }

    /** Every function definition, at any depth, is recorded when its name is a hook name. */
    method VisitFunctionDef(name: string)
      modifies this`seenHooks
      ensures seenHooks == old(seenHooks) + (if name in hookNames then {name} else {})
    {
      if name in hookNames {
        seenHooks := seenHooks + {name};
      }
    }

    /** Appends one finding and changes nothing else. */
    method Emit(ruleId: string, message: string, node: NodeRef)
      modifies this`findings
      ensures findings == old(findings) + [MakeFinding(Env(), ruleId, message, node)]
    {
      var lineno: int, col: int;
      match position(node) {
        case Some(p) => lineno, col := p.line, p.column;
        case None => lineno, col := 1, 0;
      }
      var codeSnippet := CodeSnippet(lineno);
      var f := Finding(ruleId, Config.SeverityOf(sev, ruleId), message, filename, lineno, col, codeSnippet);
      assert f == MakeFinding(Env(), ruleId, message, node);
      findings := findings + [f];
    }

    /** The stripped source line `lineno`, cut to 157 characters plus "..." when longer
        than 160; empty when `lineno` is outside the file. */
    method CodeSnippet(lineno: int) returns (code: string)
      ensures code == Snippet(sourceLines, lineno)
    {
      code := "";
      if 1 <= lineno <= |sourceLines| {
        code := Strip(sourceLines[lineno - 1]);
        if |code| > 160 {
          code := code[..157] + "...";
        }
      }
    }

    /** When `cond` holds, emits `rule` at `node` unless the comments silence it. */
    method EmitWhen(cond: bool, comments: seq<Option<string>>, rule: string, message: Message, node: NodeRef)
      modifies this`findings
      ensures findings == old(findings) + Emitted(Env(), Fire(cond, rule, message, comments), node)
    {
      if cond {
        var ignored := HasInlineIgnore(comments, rule);
        if !ignored {
          Emit(rule, message.Rendered(), node);
          EmittedSingle(Env(), rule, message, node);
        }
      }
    }

    /** The bare-call rules for one expression-statement call. */
    method CheckCall(call: Expr, comments: seq<Option<string>>, node: NodeRef)
      requires call.Call?
      modifies this`findings
      ensures findings == old(findings) + Emitted(Env(), CallHits(call, comments), node)
    {
      var dname := ComputeDottedName(call.func);
      CheckSideEffects(dname, comments, node);
      ghost var done := SideEffectHits(dname, comments, |SideEffectFuncs|);
      CheckResources(dname, comments, node);
      Extend(Env(), old(findings), done, ResourceHits(dname, comments), node);
      done := done + ResourceHits(dname, comments);
      CheckSnapshotState(dname, call.args, comments, node);
      Extend(Env(), old(findings), done, SnapshotStateHits(dname, call.args, comments), node);
    }

    /** Network and process calls: one check per entry of the side-effect table. */
    method CheckSideEffects(dname: string, comments: seq<Option<string>>, node: NodeRef)
      modifies this`findings
      ensures findings == old(findings) + Emitted(Env(), SideEffectHits(dname, comments, |SideEffectFuncs|), node)
    {
      var mod := LeadingSegment(dname);
      var func := TrailingSegment(dname);
      for k := 0 to |SideEffectFuncs|
        invariant findings == old(findings) + Emitted(Env(), SideEffectHits(dname, comments, k), node)
      {
        var (mname, funcs) := SideEffectFuncs[k];
        EmitWhen(mod == mname && func in funcs, comments, PY002, SideEffect(dname), node);
        SideEffectStep(Env(), old(findings), dname, comments, node, k);
      }
    }

    /** boto3 clients, sockets and opened files. */
    method CheckResources(dname: string, comments: seq<Option<string>>, node: NodeRef)
      modifies this`findings
      ensures findings == old(findings) + Emitted(Env(), ResourceHits(dname, comments), node)
    {
      ghost var done := Fire(dname in Boto3Names, PY006, Boto3Client, comments);
      EmitWhen(dname in Boto3Names, comments, PY006, Boto3Client, node);
      ghost var hit := Fire(dname in SocketNames, PY004, SocketOpened, comments);
      EmitWhen(dname in SocketNames, comments, PY004, SocketOpened, node);
      Extend(Env(), old(findings), done, hit, node);
      done := done + hit;
      hit := Fire(dname in OpenNames, PY004, FileOpened, comments);
      EmitWhen(dname in OpenNames, comments, PY004, FileOpened, node);
      Extend(Env(), old(findings), done, hit, node);
    }

    /** Non-deterministic values and temporary files. */
    method CheckSnapshotState(dname: string, args: seq<Expr>, comments: seq<Option<string>>, node: NodeRef)
      modifies this`findings
      ensures findings == old(findings) + Emitted(Env(), SnapshotStateHits(dname, args, comments), node)
    {
      ghost var done := Fire(dname in NondeterministicNames, PY005, Nondeterministic(dname), comments);
      EmitWhen(dname in NondeterministicNames, comments, PY005, Nondeterministic(dname), node);
      var opensTmp := false;
      if dname == "open" && |args| > 0 && args[0].SimpleString? {
        var s := args[0];
        opensTmp := !s.isBytes && StartsWith(s.evaluated, "/tmp/");
      }
      ghost var hit := Fire(opensTmp, PY007, TmpAccess, comments);
      EmitWhen(opensTmp, comments, PY007, TmpAccess, node);
      Extend(Env(), old(findings), done, hit, node);
      done := done + hit;
      hit := Fire(StartsWith(dname, "tempfile."), PY007, TempfileCreated, comments);
      EmitWhen(StartsWith(dname, "tempfile."), comments, PY007, TempfileCreated, node);
      Extend(Env(), old(findings), done, hit, node);
    }

    /** The first pass over one small statement of a top-level simple line. */
    method CheckSmall(small: SmallStmt, comments: seq<Option<string>>, node: NodeRef)
      modifies this`findings
      ensures findings == old(findings) + Emitted(Env(), FirstPassHits(small, comments), node)
    {
      ghost var mutable := Fire(small.Assign? && IsMutableValue(small.value), PY001, MutableState, comments);
      EmitWhen(small.Assign? && IsMutableValue(small.value), comments, PY001, MutableState, node);
      CheckBareCall(small, comments, node);
      Extend(Env(), old(findings), mutable, BareCallHits(small, comments), node);
      CheckThreadAssign(small, comments, node);
      Extend(Env(), old(findings), mutable + BareCallHits(small, comments), ThreadAssignHits(small, comments), node);
    }

    /** A call made as a bare expression statement goes through the bare-call rules. */
    method CheckBareCall(small: SmallStmt, comments: seq<Option<string>>, node: NodeRef)
      modifies this`findings
      ensures findings == old(findings) + Emitted(Env(), BareCallHits(small, comments), node)
    {
      if small.ExprStmt? && small.value.Call? {
        CheckCall(small.value, comments, node);
      }
    }

    /** An assignment whose value constructs a thread or an executor. */
    method CheckThreadAssign(small: SmallStmt, comments: seq<Option<string>>, node: NodeRef)
      modifies this`findings
      ensures findings == old(findings) + Emitted(Env(), ThreadAssignHits(small, comments), node)
    {
      if small.Assign? && small.value.Call? {
        var dname := ComputeDottedName(small.value.func);
        EmitWhen(IsThreadConstructor(dname), comments, PY003, ThreadCreated(dname), node);
      }
    }

    /** The second pass over one small statement: `C(...).start()` with a thread-like `C`. */
    method CheckStart(small: SmallStmt, leading: seq<Option<string>>, node: NodeRef)
      modifies this`findings
      ensures findings == old(findings) + Emitted(Env(), StartPassHits(small, leading), node)
    {
      var starts := false;
      if small.ExprStmt? && small.value.Call? {
        var call := small.value;
        if call.func.Attribute? && call.func.attr == "start" {
          var recv := call.func.value;
          if recv.Call? {
            var dname := ComputeDottedName(recv.func);
            starts := EndsWith(dname, "threading.Thread") || EndsWith(dname, "Thread");
          }
        }
      }
      EmitWhen(starts, leading, PY003, ThreadStarted, node);
    }

    /** The first pass over every small statement of one simple line, in order. */
    method FirstPass(body: seq<SmallStmt>, comments: seq<Option<string>>, node: NodeRef)
      modifies this`findings
      ensures findings == old(findings) + Emitted(Env(), FirstPassAll(body, comments, |body|), node)
    {
      for j := 0 to |body|
        invariant findings == old(findings) + Emitted(Env(), FirstPassAll(body, comments, j), node)
      {
        CheckSmall(body[j], comments, node);
        Extend(Env(), old(findings), FirstPassAll(body, comments, j), FirstPassHits(body[j], comments), node);
      }
    }

    /** The second pass over every small statement of one simple line, in order. */
    method StartPass(body: seq<SmallStmt>, leading: seq<Option<string>>, node: NodeRef)
      modifies this`findings
      ensures findings == old(findings) + Emitted(Env(), StartPassAll(body, leading, |body|), node)
    {
      for j := 0 to |body|
        invariant findings == old(findings) + Emitted(Env(), StartPassAll(body, leading, j), node)
      {
        CheckStart(body[j], leading, node);
        Extend(Env(), old(findings), StartPassAll(body, leading, j), StartPassHits(body[j], leading), node);
      }
    }

    /** One top-level statement: only a simple line is checked. */
    method CheckLine(stmt: Stmt, node: NodeRef)
      modifies this`findings
      ensures findings == old(findings) + Emitted(Env(), LineHits(stmt), node)
    {
      if stmt.SimpleLine? {
        var comments := stmt.leadingLines;
        if stmt.trailing.Some? {
          comments := comments + [stmt.trailing];
        }
        assert comments == CommentsOf(stmt);
        ghost var first := FirstPassAll(stmt.body, comments, |stmt.body|);
        ghost var second := StartPassAll(stmt.body, stmt.leadingLines, |stmt.body|);
        assert LineHits(stmt) == first + second;
        FirstPass(stmt.body, comments, node);
        StartPass(stmt.body, stmt.leadingLines, node);
        Extend(Env(), old(findings), first, second, node);
      }
    }

    /** Runs the rules over the captured top-level statements in document order. */
    method CheckStatements()
      modifies this`findings
      ensures findings == old(findings) + BodyFindings(Env(), moduleLevelNodes, |moduleLevelNodes|)
    {
      var stmts := moduleLevelNodes;
      for i := 0 to |stmts|
        invariant findings == old(findings) + BodyFindings(Env(), stmts, i)
      {
        CheckLine(stmts[i], TopLevel(i));
        BodyFindingsStep(Env(), old(findings), stmts, i);
      }
    }

    /** Leaving the module checks its top-level statements, then adds the meta-finding
        when some finding is hazardous and no hook was seen. */
    method LeaveModule()
      modifies this`findings
      ensures findings == old(findings) + LeaveFindings(Env(), moduleLevelNodes, old(findings), seenHooks)
    {
      CheckStatements();
      ghost var body := BodyFindings(Env(), moduleLevelNodes, |moduleLevelNodes|);
      ghost var meta := MakeFinding(Env(), PY008, MissingHooks.Rendered(), ModuleNode);
      var hazardous := AnyHazardous(findings);
      if hazardous && seenHooks == {} {
        Emit(PY008, MissingHooks.Rendered(), ModuleNode);
        AppendAssoc(old(findings), body, [meta]);
      } else {
        assert body + [] == body;
      }
    }

    /** The traversal the syntax-tree library performs: enter the module, visit every
        function definition in the tree, leave the module. */
    method Walk(m: Module)
      modifies this`moduleLevelNodes, this`seenHooks, this`findings
      ensures moduleLevelNodes == m.body
      ensures seenHooks == old(seenHooks) + HooksSeen(hookNames, DefNames(m.body))
      ensures findings == old(findings) + LeaveFindings(Env(), m.body, old(findings), seenHooks)
    {
      VisitModule(m);
      var defs := DefNames(m.body);
      for k := 0 to |defs|
        invariant moduleLevelNodes == m.body
        invariant seenHooks == old(seenHooks) + HooksSeen(hookNames, defs[..k])
        invariant findings == old(findings)
      {
        assert defs[..k + 1] == defs[..k] + [defs[k]];
        HooksSeenSnoc(hookNames, defs[..k], defs[k]);
        VisitFunctionDef(defs[k]);
      }
      assert defs[..|defs|] == defs;
      LeaveModule();
    }
  }

  /** Scans one parsed module with a fresh visitor and returns its findings. */
  method Scan(filename: string, severities: map<string, string>, hookNames: seq<string>,
              sourceLines: seq<string>, position: NodeRef -> Option<Position>, m: Module)
    returns (findings: seq<Finding>)
    ensures findings == ScanModule(ScanEnv(filename, severities, sourceLines, position), (set h | h in hookNames), m)
  {
    var visitor := new ModuleLevelVisitor(filename, severities, hookNames, sourceLines, position);
    visitor.Walk(m);
    findings := visitor.findings;
  }
}
