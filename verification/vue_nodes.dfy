/**
 * The template-AST nodes of `@vue/compiler-core` that the mini-program
 * compiler creates: expressions, directives, attributes, their source
 * locations, and the compiler errors reported against them.
 */
module VueNodes {
  import opened Wrappers

  datatype Position = Position(offset: nat, line: nat, column: nat)

  datatype SourceLocation = SourceLocation(start: Position, end: Position, source: string)

  /** `locStub`: the location given to nodes that have no place in the template. */
  const LocStub: SourceLocation := SourceLocation(Position(0, 1, 1), Position(0, 1, 1), "")

  /** A template expression: a simple one with its text, or a compound one. */
  datatype ExpressionNode =
    | SimpleExpression(content: string, isStatic: bool, loc: SourceLocation)
    | CompoundExpression(loc: SourceLocation)

  /** `createSimpleExpression(content, isStatic)` with the default location. */
  function CreateSimpleExpression(content: string, isStatic: bool): (r: ExpressionNode)
    ensures r.SimpleExpression? && r.content == content && r.isStatic == isStatic && r.loc == LocStub
  {
    SimpleExpression(content, isStatic, LocStub)
  }

  datatype DirectiveNode = DirectiveNode(
    name: string,
    arg: Option<ExpressionNode>,
    exp: Option<ExpressionNode>,
    modifiers: seq<string>,
    loc: SourceLocation)

  datatype TextNode = TextNode(content: string, loc: SourceLocation)

  datatype AttributeNode = AttributeNode(name: string, value: Option<TextNode>, loc: SourceLocation)

  /** The one error code this compiler reports from here. */
  datatype ErrorCode = InvalidExpression

  /** `createCompilerError(code, loc, undefined, additionalMessage)`. */
  datatype CompilerError = CompilerError(code: ErrorCode, loc: Option<SourceLocation>, additionalMessage: string)
}
