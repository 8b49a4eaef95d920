/**
 * The part of the Babel AST (`@babel/types`) that the mini-program template
 * compiler builds or inspects. Node kinds the compiler never looks into are
 * collapsed into `OtherNode`, which keeps only the node's type name.
 */
module BabelTypes {

  datatype Expr =
    | Identifier(name: string)
    | StringLiteral(value: string)
      /** The `value` of a numeric literal; Babel never produces NaN for one. */
    | NumericLiteral(number: real)
    | BooleanLiteral(truth: bool)
      /** Babel keeps the digits of `0n` or `1.5m` as the string `value`. */
    | BigIntLiteral(digits: string)
    | DecimalLiteral(digits: string)
    | NullLiteral
    | ObjectExpression(properties: seq<ObjectMember>)
    | ConditionalExpression(test: Expr, consequent: Expr, alternate: Expr)
    | CallExpression(callee: Expr, arguments: seq<Expr>)
    | ArrowFunctionExpression(params: seq<Expr>, body: BlockStatement)
    | OtherNode(kind: string)

  /** A member of an object expression: `key: value` or `...argument`. */
  datatype ObjectMember =
    | ObjectProperty(key: Expr, value: Expr)
    | SpreadElement(argument: Expr)

  datatype Statement = ReturnStatement(argument: Expr)

  datatype BlockStatement = BlockStatement(body: seq<Statement>)
}
