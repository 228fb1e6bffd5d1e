/** The expression trees the parsers of Parte_1/interpretador.py and
    Projeto/codigo_intermediario.py build: the tuples `('number', n)`,
    `('id', name)`, `('binop', op, left, right)` and `('call', f, arg)`. */
module ExprAst {

  /** One tuple per constructor; `Other` is a tuple with any other tag,
      which neither parser builds but both tree walkers handle. */
  datatype Expr =
    | Number(n: nat)
    | Id(name: string)
    | BinOp(op: string, left: Expr, right: Expr)
    | Call(callee: string, arg: Expr)
    | Other(tag: string)

  /** `p_expression_binop`: the operator token's text and both operands. */
  function BinopRule(lparen: string, op: string, left: Expr, right: Expr, rparen: string): Expr
  {
    BinOp(op, left, right)
  }

  /** The call rule of Projeto/codigo_intermediario.py keeps the identifier. */
  function ProjetoCallRule(lparen: string, id: string, arg: Expr, rparen: string): Expr
  {
    Call(id, arg)
  }

  /** The call rule of Parte_1/interpretador.py keeps `p[1]`, the `(`
      token, as the callee: the identifier is dropped. */
  function InterpreterCallRule(lparen: string, id: string, arg: Expr, rparen: string): Expr
  {
    Call(lparen, arg)
  }
}
