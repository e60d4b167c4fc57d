/**
 * The slice of the TypeScript syntax tree that a call resolver inspects.
 * Parsing is done elsewhere; a call arrives as a value of CallExpression.
 */
module Ast {

  import opened Wrappers
  import opened Types

  /** Kind of the node that holds a call expression as a child. */
  datatype SyntaxKind =
    | ExpressionStatement
    | VariableDeclaration
    | BinaryExpression
    | ReturnStatement
    | ParenthesizedExpression
    | EnclosingCall

  /** Source expressions, enough to tell a property access from other callees. */
  datatype Expr =
    | Identifier(text: string)
    | Literal(text: string)
    | PropertyAccess(expression: Expr, name: string)
    | ElementAccess(expression: Expr, argumentExpression: Expr)
    | Call(expression: Expr, arguments: seq<Expr>)

  /**
   * The `.expression` child of a node: present on property accesses,
   * element accesses and calls, `undefined` on identifiers and literals.
   */
  function ExpressionChild(e: Expr): (r: Option<Expr>)
    ensures r.Some? <==> e.PropertyAccess? || e.ElementAccess? || e.Call?
    ensures r.Some? ==> r.value < e
  {
    match e
    case PropertyAccess(obj, _) => Some(obj)
    case ElementAccess(obj, _) => Some(obj)
    case Call(callee, _) => Some(callee)
    case _ => None
  }

  /** `<expression>(<arguments>)` together with the kind of its parent node. */
  datatype CallExpression = CallExpression(expression: Expr, arguments: seq<Expr>, parentKind: SyntaxKind)

  /**
   * The type helper's answers, as given by type inference (not modelled);
   * an expression it has no type for yields `null`, here None.
   */
  datatype TypeHelper = TypeHelper(types: map<Expr, CType>) {

    function GetCType(e: Expr): (r: Option<CType>) {
      if e in types then Some(types[e]) else None
    }
  }
}
