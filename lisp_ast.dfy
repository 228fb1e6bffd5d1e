/** Tokens, reserved words and the tagged syntax tree of the LISP-like
    language compiled by Parte_2/codigo_intermediario.py, together with the
    parser actions that build the tree and the operator classification that
    the analyser and the code generator share. */
module LispAst {
  import opened Basics

  /** The closed set of token kinds the lexer declares. */
  datatype TokenKind =
    | LParen | RParen | QuoteTok | NumberTok | Id
    | Plus | Minus | Times | Div
    | Lt | Gt | Le | Ge | EqOp | Ne
    | DefunKw | IfKw | CondKw | CarKw | CdrKw | ConsKw | EqKw | NilKw | TKw
    | DivIntKw | ModKw | ExpKw

  /** The name the lexer gives each token kind. */
  function TokenName(k: TokenKind): string
  {
    match k
    case LParen => "LPAREN"
    case RParen => "RPAREN"
    case QuoteTok => "QUOTE"
    case NumberTok => "NUMBER"
    case Id => "ID"
    case Plus => "PLUS"
    case Minus => "MINUS"
    case Times => "TIMES"
    case Div => "DIV"
    case Lt => "LT"
    case Gt => "GT"
    case Le => "LE"
    case Ge => "GE"
    case EqOp => "EQ_OP"
    case Ne => "NE"
    case DefunKw => "DEFUN"
    case IfKw => "IF"
    case CondKw => "COND"
    case CarKw => "CAR"
    case CdrKw => "CDR"
    case ConsKw => "CONS"
    case EqKw => "EQ"
    case NilKw => "NIL"
    case TKw => "T"
    case DivIntKw => "DIVINT"
    case ModKw => "MOD"
    case ExpKw => "EXP"
  }

  /** The reserved-word table: identifier-shaped words with a token kind of their own. */
  const Reserved: map<string, TokenKind> := map[
    "defun" := DefunKw, "if" := IfKw, "cond" := CondKw, "car" := CarKw,
    "cdr" := CdrKw, "cons" := ConsKw, "eq" := EqKw, "nil" := NilKw,
    "t" := TKw, "div" := DivIntKw, "mod" := ModKw, "exp" := ExpKw
  ]

  /** The kind `t_ID` gives an identifier-shaped lexeme: its reserved kind if it
      is a reserved word (exact, case-sensitive match), otherwise `Id`. */
  function ClassifyWord(lexeme: string): (k: TokenKind)
    ensures k == Id <==> lexeme !in Reserved
    ensures k != Id ==> Reserved[lexeme] == k
  {
    if lexeme in Reserved then Reserved[lexeme] else Id
  }

  /** The word a reserved kind is spelled with, if it has one. */
  function ReservedSpelling(k: TokenKind): Option<string>
  {
    match k
    case DefunKw => Some("defun")
    case IfKw => Some("if")
    case CondKw => Some("cond")
    case CarKw => Some("car")
    case CdrKw => Some("cdr")
    case ConsKw => Some("cons")
    case EqKw => Some("eq")
    case NilKw => Some("nil")
    case TKw => Some("t")
    case DivIntKw => Some("div")
    case ModKw => Some("mod")
    case ExpKw => Some("exp")
    case _ => None
  }

  /** The remapping is a bijection between reserved words and keyword kinds:
      a word is remapped to a keyword kind exactly when that kind is spelled
      with that word. */
  lemma ReservedRoundTrip(lexeme: string, k: TokenKind)
    requires k != Id
    ensures ClassifyWord(lexeme) == k <==> ReservedSpelling(k) == Some(lexeme)
  {
  }

  /** The fixed text matched by each literal token rule of the lexer. */
  function LiteralText(k: TokenKind): Option<string>
  {
    match k
    case LParen => Some("(")
    case RParen => Some(")")
    case QuoteTok => Some("'")
    case Plus => Some("+")
    case Minus => Some("-")
    case Times => Some("*")
    case Div => Some("/")
    case Le => Some("<=")
    case Ge => Some(">=")
    case Ne => Some("!=")
    case Lt => Some("<")
    case Gt => Some(">")
    case EqOp => Some("=")
    case _ => None
  }

  predicate IsArithToken(k: TokenKind)
  {
    k == Plus || k == Minus || k == Times || k == Div
  }

  predicate IsComparisonToken(k: TokenKind)
  {
    k == Lt || k == Gt || k == Le || k == Ge || k == EqOp || k == Ne
  }

  /** `op_token_to_symbol`: the textual operator for an arithmetic or
      comparison token; any other token falls back to its kind's name. */
  function OpTokenToSymbol(k: TokenKind): (s: string)
    ensures IsArithToken(k) || IsComparisonToken(k) ==> Some(s) == LiteralText(k)
    ensures !(IsArithToken(k) || IsComparisonToken(k)) ==> s == TokenName(k)
  {
    match k
    case Plus => "+"
    case Minus => "-"
    case Times => "*"
    case Div => "/"
    case Lt => "<"
    case Gt => ">"
    case Le => "<="
    case Ge => ">="
    case EqOp => "="
    case Ne => "!="
    case _ => TokenName(k)
  }

  /** The syntax tree. */
  datatype Node =
    | Number(value: nat)
    | Symbol(token: TokenKind, lexeme: string)
    | Nil
    | If(cond: Node, thenBranch: Node, elseBranch: Node)
    | Defun(name: string, params: seq<string>, body: Node)
    | Application(operator: Node, args: seq<Node>)

  /** The token kinds the grammar accepts as a bare atom. */
  predicate IsAtomToken(k: TokenKind)
  {
    !(k == LParen || k == RParen || k == QuoteTok || k == NumberTok)
  }

  /** `p_atom_id_or_token`: an atom keeps its token kind and its lexeme. */
  function AtomFromToken(k: TokenKind, lexeme: string): (n: Node)
    requires IsAtomToken(k)
  {
    Symbol(k, lexeme)
  }

  /** Every word the lexer can deliver is accepted as an atom, with the kind
      `t_ID` gives it; and how that atom dispatches as an operator depends on
      the word alone. `cons`, `car`, `cdr` and `eq` always reach their
      builtins (they arrive as keyword tokens, so the `ID`-spelled
      alternatives of the dispatch never fire on parsed input); any other
      reserved word is an operator with no rule; only a word that is not
      reserved can call a user function, so a `defun` can never shadow a
      reserved word. */
  lemma WordAtomDispatch<F>(functions: map<string, F>, w: string)
    ensures IsAtomToken(ClassifyWord(w))
    ensures var c := Classify(functions, AtomFromToken(ClassifyWord(w), w));
      && (c == ConsOp <==> w == "cons")
      && (c == CarOp <==> w == "car")
      && (c == CdrOp <==> w == "cdr")
      && (c == EqBuiltin <==> w == "eq")
      && (w in Reserved && w !in {"cons", "car", "cdr", "eq"} ==> c == OtherToken)
      && (w !in Reserved ==> c == if w in functions then UserFunction(w) else UnknownFunction(w))
  {
    if w in Reserved {
      ReservedKind(w);
      KeywordDispatch(functions, Reserved[w], w);
    }
  }

  /** A reserved word's kind is a keyword kind, and it is one of the four
      builtin keywords exactly for that keyword's word. */
  lemma ReservedKind(w: string)
    requires w in Reserved
    ensures var k := Reserved[w];
      && ReservedSpelling(k) == Some(w)
      && (k == ConsKw <==> w == "cons") && (k == CarKw <==> w == "car")
      && (k == CdrKw <==> w == "cdr") && (k == EqKw <==> w == "eq")
  {
    var k := Reserved[w];
    ReservedRoundTrip(w, k);
  }

  /** How a keyword-kind symbol dispatches, whatever its lexeme. */
  lemma KeywordDispatch<F>(functions: map<string, F>, k: TokenKind, w: string)
    requires ReservedSpelling(k).Some?
    ensures Classify(functions, Symbol(k, w))
      == if k == ConsKw then ConsOp else if k == CarKw then CarOp
         else if k == CdrKw then CdrOp else if k == EqKw then EqBuiltin else OtherToken
  {
  }

  /** `p_list_if`: `(if c t e)`, or `(if c t)` whose missing else is `()`. */
  function IfFromParts(cond: Node, thenBranch: Node, elseBranch: Option<Node>): (n: Node)
  {
    match elseBranch
    case Some(e) => If(cond, thenBranch, e)
    case None => If(cond, thenBranch, Nil)
  }

  /** `p_list_application`: the first element is the operator, the rest the
      arguments; the split loses nothing. */
  function ApplicationFromElements(elements: seq<Node>): (n: Node)
    requires |elements| >= 1
    ensures n.Application? && [n.operator] + n.args == elements
  {
    Application(elements[0], elements[1..])
  }

  /** How an application's operator is dispatched. The analyser and the code
      generator test the same conditions in the same order. */
  datatype OpClass =
    | NotASymbol
    | UserFunction(name: string)
    | Arith
    | Comparison
    | ConsOp
    | CarOp
    | CdrOp
    | EqBuiltin
    | UnknownFunction(name: string)
    | OtherToken

  function Classify<F>(functions: map<string, F>, op: Node): (c: OpClass)
    ensures c.NotASymbol? <==> !op.Symbol?
    ensures c.UserFunction? <==> op.Symbol? && op.token == Id && op.lexeme in functions
    ensures c.UserFunction? || c.UnknownFunction? ==> c.name == op.lexeme
    ensures c.UnknownFunction? ==> op.lexeme !in functions
  {
    if !op.Symbol? then NotASymbol
    else if op.token == Id && op.lexeme in functions then UserFunction(op.lexeme)
    else if IsArithToken(op.token) then Arith
    else if IsComparisonToken(op.token) then Comparison
    else if op.token == ConsKw || (op.token == Id && op.lexeme == "cons") then ConsOp
    else if op.token == CarKw || (op.token == Id && op.lexeme == "car") then CarOp
    else if op.token == CdrKw || (op.token == Id && op.lexeme == "cdr") then CdrOp
    else if op.token == EqKw || (op.token == Id && op.lexeme == "eq") then EqBuiltin
    else if op.token == Id then UnknownFunction(op.lexeme)
    else OtherToken
  }
}
