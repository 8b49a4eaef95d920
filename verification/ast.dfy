/**
 * Builders of the mini-program template compiler that lower `v-if` and
 * `v-for` into Babel expressions, classify literal nodes, wrap the Babel
 * expression parser with error reporting, and create directive and
 * attribute nodes.
 *
 * The Babel parser, `genExpr`, `context.helperString` and the scope's id
 * generator are not part of this model: each one is a parameter.
 */
module Ast {
  import opened Wrappers
  import opened BabelTypes
  import opened VueNodes

  /** `CodegenVIfScope`: the branch condition (absent on a `v-else`) and the properties it guards. */
  datatype VIfScope = VIfScope(condition: Option<Expr>, properties: seq<ObjectMember>)

  /** `CodegenVForScope`: the iterated source, the three optional bindings and the body's properties. */
  datatype VForScope = VForScope(
    sourceExpr: Option<Expr>,
    valueExpr: Option<Expr>,
    keyExpr: Option<Expr>,
    indexExpr: Option<Expr>,
    properties: seq<ObjectMember>)

  /** The runtime helpers these builders call; `helperString` gives each one's generated name. */
  datatype RuntimeHelper = VFor

  // ---------------------------------------------------------------- v-if

  /** `createVIfProperty`: `{ [id.next()]: condition }`, where `nextId` is the generator's next id. */
  function CreateVIfProperty(condition: Expr, nextId: string): (r: ObjectMember)
    ensures r.ObjectProperty?
    ensures r.key == Identifier(nextId) && r.value == condition
  {
    ObjectProperty(Identifier(nextId), condition)
  }

  /**
   * The members an object member adds to the object it sits in, once every
   * conditional test has been decided by `holds`: a property adds itself,
   * a spread object adds its members, a spread conditional between two
   * object expressions adds the chosen branch's members. Anything else is
   * not decided here.
   */
  function SpreadMembers(m: ObjectMember, holds: Expr -> bool): Option<seq<ObjectMember>> {
    match m
    case ObjectProperty(_, _) => Some([m])
    case SpreadElement(ObjectExpression(members)) => Some(members)
    case SpreadElement(ConditionalExpression(test, ObjectExpression(yes), ObjectExpression(no))) =>
      Some(if holds(test) then yes else no)
    case SpreadElement(_) => None
  }

  /** `createVIfConditionalExpression`: `condition ? { ...properties } : {}`. */
  function CreateVIfConditionalExpression(scope: VIfScope): (r: Expr)
    requires scope.condition.Some?
    ensures r.ConditionalExpression?
    ensures r.test == scope.condition.value
    ensures r.consequent == ObjectExpression(scope.properties)
    ensures r.alternate == ObjectExpression([])
  {
    ConditionalExpression(scope.condition.value, ObjectExpression(scope.properties), ObjectExpression([]))
  }

  /**
   * `createVIfSpreadElement`: spread into an object, the element adds the
   * scope's properties when the condition holds and nothing otherwise.
   */
  function CreateVIfSpreadElement(scope: VIfScope): (r: ObjectMember)
    requires scope.condition.Some?
    ensures r.SpreadElement?
    ensures forall holds: Expr -> bool ::
      SpreadMembers(r, holds) == Some(if holds(scope.condition.value) then scope.properties else [])
  {
    SpreadElement(CreateVIfConditionalExpression(scope))
  }

  // --------------------------------------------------------------- v-for

  /** Number of callback parameters: up to the last binding present. */
  function VForArity(scope: VForScope): (n: nat)
    ensures n <= 3
  {
    if scope.indexExpr.Some? then 3
    else if scope.keyExpr.Some? then 2
    else if scope.valueExpr.Some? then 1
    else 0
  }

  /**
   * The positional rule for the `v-for` callback's parameters: value,
   * key, index, in this order, with `_` standing for a missing value and
   * `__` for a missing key wherever a later binding needs the position.
   */
  predicate IsVForParams(params: seq<Expr>, scope: VForScope) {
    && |params| == VForArity(scope)
    && (|params| > 0 ==> params[0] == (if scope.valueExpr.Some? then scope.valueExpr.value else Identifier("_")))
    && (|params| > 1 ==> params[1] == (if scope.keyExpr.Some? then scope.keyExpr.value else Identifier("__")))
    && (|params| > 2 ==> params[2] == scope.indexExpr.value)
  }

  /** A `v-for` callback: positional parameters and a body returning the scope's properties. */
  predicate IsVForCallback(arrow: Expr, scope: VForScope) {
    && arrow.ArrowFunctionExpression?
    && IsVForParams(arrow.params, scope)
    && arrow.body == BlockStatement([ReturnStatement(ObjectExpression(scope.properties))])
  }

  /** The positional rule fixes the parameter list: there is one list per scope. */
  lemma {:induction false} VForParamsUnique(params: seq<Expr>, other: seq<Expr>, scope: VForScope)
    requires IsVForParams(params, scope) && IsVForParams(other, scope)
    ensures params == other
  {
  }

  /** `createVForArrowFunctionExpression`: `(value, key, index) => { return { ...properties } }`. */
  method CreateVForArrowFunctionExpression(scope: VForScope) returns (arrow: Expr)
    ensures IsVForCallback(arrow, scope)
    ensures scope.valueExpr.Some? ==> arrow.params[0] == scope.valueExpr.value
    ensures scope.keyExpr.Some? ==> arrow.params[1] == scope.keyExpr.value
    ensures scope.indexExpr.Some? ==> arrow.params[|arrow.params| - 1] == scope.indexExpr.value
    ensures scope.valueExpr.Some? && scope.keyExpr.None? && scope.indexExpr.None? ==> |arrow.params| == 1
    ensures scope.valueExpr.None? && scope.keyExpr.Some? && scope.indexExpr.None? ==> arrow.params == [Identifier("_"), scope.keyExpr.value]
    ensures scope.valueExpr.None? && scope.keyExpr.None? && scope.indexExpr.Some?
      ==> arrow.params == [Identifier("_"), Identifier("__"), scope.indexExpr.value]
    ensures scope.valueExpr.Some? && scope.keyExpr.None? && scope.indexExpr.Some?
      ==> arrow.params == [scope.valueExpr.value, Identifier("__"), scope.indexExpr.value]
    ensures scope.valueExpr.None? && scope.keyExpr.None? && scope.indexExpr.None? ==> arrow.params == []
  {
    var params: seq<Expr> := [];
    if scope.valueExpr.Some? {
      params := params + [scope.valueExpr.value];
    } else if scope.keyExpr.Some? || scope.indexExpr.Some? {
      params := params + [Identifier("_")];
    }
    if scope.keyExpr.Some? {
      params := params + [scope.keyExpr.value];
    } else if scope.indexExpr.Some? {
      params := params + [Identifier("__")];
    }
    if scope.indexExpr.Some? {
      params := params + [scope.indexExpr.value];
    }
    arrow := ArrowFunctionExpression(params, BlockStatement([ReturnStatement(ObjectExpression(scope.properties))]));
  }

  /** `createVForCallExpression`: `helper(source, callback)`, exactly two arguments. */
  method CreateVForCallExpression(scope: VForScope, helperString: RuntimeHelper -> string) returns (call: Expr)
    requires scope.sourceExpr.Some?
    ensures call.CallExpression?
    ensures call.callee == Identifier(helperString(VFor))
    ensures |call.arguments| == 2
    ensures call.arguments[0] == scope.sourceExpr.value
    ensures IsVForCallback(call.arguments[1], scope)
  {
    var arrow := CreateVForArrowFunctionExpression(scope);
    call := CallExpression(Identifier(helperString(VFor)), [scope.sourceExpr.value, arrow]);
  }

  // ------------------------------------------------------------- parsing

  /** What `parseExpr` receives: source text, or a template expression to print first. */
  datatype Code = Source(text: string) | Node(node: ExpressionNode)

  /** What Babel's `parseExpression` does with a text: a node, or a thrown syntax error. */
  datatype ParseOutcome = Parsed(expr: Expr) | SyntaxError(message: string)

  /** A parse result (`undefined` on failure) and the errors passed to `context.onError`, in order. */
  datatype Parsing = Parsing(result: Option<Expr>, errors: seq<CompilerError>)

  /** The try/catch around the parser: on failure, one invalid-expression error at the origin's location. */
  function TryParse(text: string, origin: Option<ExpressionNode>, parse: string -> ParseOutcome): Parsing {
    match parse(text)
    case Parsed(e) => Parsing(Some(e), [])
    case SyntaxError(message) =>
      Parsing(None, [CompilerError(InvalidExpression, if origin.Some? then Some(origin.value.loc) else None, message)])
  }

  /** The text `parseExpr` hands to the parser. */
  function CodeText(code: Code, genExpr: ExpressionNode -> string): string {
    if code.Source? then code.text else genExpr(code.node)
  }

  /** `parseExpr`: a node argument is printed with `genExpr` and becomes the error's origin. */
  function ParseExpr(code: Code, node: Option<ExpressionNode>, parse: string -> ParseOutcome, genExpr: ExpressionNode -> string): (r: Parsing)
    ensures var outcome := parse(CodeText(code, genExpr));
      && (r.result.Some? <==> outcome.Parsed?)
      && (outcome.Parsed? ==> r.result.value == outcome.expr)
      && |r.errors| == (if outcome.Parsed? then 0 else 1)
      && forall k :: 0 <= k < |r.errors| ==>
          && r.errors[k].code == InvalidExpression
          && r.errors[k].additionalMessage == outcome.message
          && r.errors[k].loc == (if code.Node? then Some(code.node.loc) else if node.Some? then Some(node.value.loc) else None)
  {
    if code.Source? then TryParse(code.text, node, parse)
    else TryParse(genExpr(code.node), Some(code.node), parse)
  }

  /**
   * What `parseParam` gives back: the first parameter of the parsed arrow
   * function (`undefined` when it has none), or a `TypeError` thrown by the
   * destructuring when the parser returned `undefined` or a node without
   * `params`.
   */
  datatype ParamOutcome = Param(param: Option<Expr>) | Thrown

  datatype ParamParsing = ParamParsing(outcome: ParamOutcome, errors: seq<CompilerError>)

  /** The text `parseParam` parses: the parameter as the head of an empty arrow function. */
  function ParamText(code: string): string {
    "(" + code + ")=>{}"
  }

  /** `parseParam`: parse `(code)=>{}` and take its first parameter. */
  function ParseParam(code: string, node: ExpressionNode, parse: string -> ParseOutcome): (r: ParamParsing)
    ensures var outcome := parse(ParamText(code));
      && (r.outcome.Thrown? <==> !(outcome.Parsed? && outcome.expr.ArrowFunctionExpression?))
      && (r.outcome.Param? ==> r.outcome.param == if |outcome.expr.params| > 0 then Some(outcome.expr.params[0]) else None)
      && (outcome.Parsed? ==> r.errors == [])
      && (outcome.SyntaxError? ==> r.errors == [CompilerError(InvalidExpression, Some(node.loc), outcome.message)])
  {
    var parsing := TryParse(ParamText(code), Some(node), parse);
    var outcome :=
      match parsing.result
      case Some(ArrowFunctionExpression(params, _)) => Param(if |params| > 0 then Some(params[0]) else None)
      case _ => Thrown;
    ParamParsing(outcome, parsing.errors)
  }

  // ------------------------------------------------------ literal checks

  /** `isUndefined`: the identifier `undefined`, and nothing else. */
  function IsUndefined(e: Expr): (r: bool)
    ensures r <==> e == Identifier("undefined")
  {
    e.Identifier? && e.name == "undefined"
  }

  /** JavaScript values a literal node's `value` property can hold. */
  datatype JsValue = Undefined | Null | Bool(b: bool) | Number(n: real) | Str(s: string)

  /** `ToBoolean` of section 7.1.2 of ECMA-262, on the values above. */
  function ToBoolean(v: JsValue): bool {
    match v
    case Undefined => false
    case Null => false
    case Bool(b) => b
    case Number(n) => n != 0.0
    case Str(s) => s != ""
  }

  /** The literal kinds whose truth `isTrueExpr` reads from the `value` property. */
  predicate HasValueProperty(e: Expr) {
    e.StringLiteral? || e.NumericLiteral? || e.BooleanLiteral? || e.BigIntLiteral? || e.DecimalLiteral?
  }

  /** The `value` property of such a literal; for big-integer and decimal literals it is the digit string. */
  function ValueProperty(e: Expr): JsValue
    requires HasValueProperty(e)
  {
    match e
    case StringLiteral(v) => Str(v)
    case NumericLiteral(n) => Number(n)
    case BooleanLiteral(b) => Bool(b)
    case BigIntLiteral(d) => Str(d)
    case DecimalLiteral(d) => Str(d)
  }

  /**
   * `isTrueExpr`: `null` is false, a valued literal is as true as its
   * `value` property, every other node is true. As the digits of a
   * big-integer or decimal literal are a string, `0n` is true.
   */
  function IsTrueExpr(e: Expr): (r: bool)
    ensures e.NullLiteral? ==> !r
    ensures e.StringLiteral? ==> (r <==> e.value != "")
    ensures e.NumericLiteral? ==> (r <==> e.number != 0.0)
    ensures e.BooleanLiteral? ==> r == e.truth
    ensures e.BigIntLiteral? || e.DecimalLiteral? ==> (r <==> e.digits != "")
    ensures !e.NullLiteral? && !HasValueProperty(e) ==> r
  {
    if e.NullLiteral? then false
    else if HasValueProperty(e) then ToBoolean(ValueProperty(e))
    else true
  }

  /** Zero is false as a number literal but true as a big-integer or decimal literal. */
  lemma ZeroLiterals()
    ensures !IsTrueExpr(NumericLiteral(0.0))
    ensures IsTrueExpr(BigIntLiteral("0")) && IsTrueExpr(DecimalLiteral("0"))
  {
  }

  /** `parseStringLiteral`: an identifier's name, a string's value, otherwise the empty string. */
  function ParseStringLiteral(e: Expr): (r: Expr)
    ensures r.StringLiteral?
    ensures e.Identifier? ==> r.value == e.name
    ensures e.StringLiteral? ==> r == e
    ensures !e.Identifier? && !e.StringLiteral? ==> r.value == ""
  {
    if e.Identifier? then StringLiteral(e.name)
    else if e.StringLiteral? then StringLiteral(e.value)
    else StringLiteral("")
  }

  /** A string literal is its own parse, so parsing twice changes nothing. */
  lemma ParseStringLiteralIdempotent(e: Expr)
    ensures ParseStringLiteral(ParseStringLiteral(e)) == ParseStringLiteral(e)
  {
  }

  // -------------------------------------------------------- node factories

  /**
   * A directive written in a template as `v-name:arg="exp"` with no
   * modifiers and no location: a static argument, a non-static expression.
   */
  predicate IsPlainDirective(d: DirectiveNode, arg: string, exp: string) {
    && d.modifiers == [] && d.loc == LocStub
    && d.arg.Some? && d.arg.value.SimpleExpression? && d.arg.value.isStatic && d.arg.value.content == arg
    && d.exp.Some? && d.exp.value.SimpleExpression? && !d.exp.value.isStatic && d.exp.value.content == exp
  }

  /** `createDirectiveNode`. */
  function CreateDirectiveNode(name: string, arg: string, exp: string): (r: DirectiveNode)
    ensures r.name == name && IsPlainDirective(r, arg, exp)
  {
    DirectiveNode(name, Some(CreateSimpleExpression(arg, true)), Some(CreateSimpleExpression(exp, false)), [], LocStub)
  }

  /** `createOnDirectiveNode`: `v-on:name="value"`. */
  function CreateOnDirectiveNode(name: string, value: string): (r: DirectiveNode)
    ensures r.name == "on" && IsPlainDirective(r, name, value)
  {
    CreateDirectiveNode("on", name, value)
  }

  /** `createBindDirectiveNode`: `v-bind:name="value"`. */
  function CreateBindDirectiveNode(name: string, value: string): (r: DirectiveNode)
    ensures r.name == "bind" && IsPlainDirective(r, name, value)
  {
    CreateDirectiveNode("bind", name, value)
  }

  /** The `on` and `bind` nodes built from the same pair differ in their name alone. */
  lemma OnBindDifferOnlyInName(name: string, value: string)
    ensures CreateOnDirectiveNode(name, value).(name := "bind") == CreateBindDirectiveNode(name, value)
  {
  }

  /** `createAttributeNode`: the content, unchanged, as the attribute's text value. */
  function CreateAttributeNode(name: string, content: string): (r: AttributeNode)
    ensures r.name == name && r.loc == LocStub
    ensures r.value == Some(TextNode(content, LocStub))
  {
    AttributeNode(name, Some(TextNode(content, LocStub)), LocStub)
  }
}
