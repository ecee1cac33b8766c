/** The part of a parsed Python module the scanner looks at, as a closed set of node shapes.
    Everything the rules do not distinguish is folded into an "other" variant. */
module Syntax {
  import opened Wrappers

  /** Expressions. `Attribute(value, attr)` is `value.attr`; a call keeps the values of its
      arguments in order (keyword or positional alike); a simple string literal carries its
      already-decoded value and whether it is a bytes literal. */
  datatype Expr =
    | Name(id: string)
    | Attribute(value: Expr, attr: string)
    | Call(func: Expr, args: seq<Expr>)
    | ListLit
    | DictLit
    | SetLit
    | SimpleString(evaluated: string, isBytes: bool)
    | OtherExpr

  /** The small statements of one simple line (`a = 1; f()`). */
  datatype SmallStmt =
    | Assign(value: Expr)
    | ExprStmt(value: Expr)
    | OtherSmall

  /** Statements. A simple line carries the comments of its leading lines (`None` for a
      blank line without a comment) and its same-line trailing comment. Compound statements
      are kept only for the function definitions they may contain. */
  datatype Stmt =
    | SimpleLine(body: seq<SmallStmt>, leadingLines: seq<Option<string>>, trailing: Option<string>)
    | FunctionDef(name: string, suite: seq<Stmt>)
    | OtherCompound(suite: seq<Stmt>)

  datatype Module = Module(body: seq<Stmt>)

  /** The nodes a finding can be anchored at: the module itself or one of its direct
      top-level statements, by index. */
  datatype NodeRef = ModuleNode | TopLevel(index: nat)

  /** A 1-based line and 0-based column, as the position provider reports them. */
  datatype Position = Position(line: int, column: int)

  /** The names of all function definitions in `stmts`, at any depth, in pre-order. */
  function DefNames(stmts: seq<Stmt>): seq<string>
    decreases stmts
  {
    if stmts == [] then []
    else
      var first := match stmts[0]
        case FunctionDef(n, b) => [n] + DefNames(b)
        case OtherCompound(b) => DefNames(b)
        case SimpleLine(_, _, _) => [];
      first + DefNames(stmts[1..])
  }
}
