/**
 * The lowering of `arr.unshift(a1, ..., an)` on a growable array to C:
 * the resolver that recognises the call, the template object built for it,
 * and the expansion of its two code templates.
 */
module ArrayUnshift {

  import opened Wrappers
  import opened Types
  import opened Ast
  import opened Program
  import opened CTarget

  const MethodName := "unshift"

  // ---------------------------------------------------------------------
  // ArrayUnshiftResolver

  /** The call is `<receiver>.unshift(...)` on a receiver typed as a dynamic array. */
  predicate MatchesNode(typeHelper: TypeHelper, call: CallExpression) {
    match call.expression
    case PropertyAccess(receiver, name) =>
      var objType := typeHelper.GetCType(receiver);
      name == MethodName && objType.Some? && objType.value.ArrayType? && objType.value.isDynamicArray
    case _ => false
  }

  function ReturnType(typeHelper: TypeHelper, call: CallExpression): (r: CType) {
    NumberVarType
  }

  predicate NeedsDisposal(typeHelper: TypeHelper, call: CallExpression) {
    false
  }

  function GetTempVarName(typeHelper: TypeHelper, call: CallExpression): (r: Option<string>) {
    None
  }

  /** The `.expression` of the callee, read without checking the callee's kind. */
  function GetEscapeNode(typeHelper: TypeHelper, call: CallExpression): (r: Option<Expr>) {
    ExpressionChild(call.expression)
  }

  lemma NonPropertyCalleeNeverMatches(typeHelper: TypeHelper, call: CallExpression)
    requires !call.expression.PropertyAccess?
    ensures !MatchesNode(typeHelper, call)
  {
  }

  /** A match is exactly a property named `unshift` on a receiver of some dynamic array type. */
  lemma MatchesNodeExactly(typeHelper: TypeHelper, call: CallExpression)
    ensures MatchesNode(typeHelper, call) <==>
      exists elementType: CType, capacity: nat ::
        && call.expression.PropertyAccess?
        && call.expression.name == MethodName
        && typeHelper.GetCType(call.expression.expression) == Some(ArrayType(elementType, capacity, true))
  {
  }

  /** Receivers typed as numbers, strings or fixed-size arrays are never lowered here. */
  lemma OnlyDynamicArraysMatch(typeHelper: TypeHelper, call: CallExpression, objType: CType)
    requires call.expression.PropertyAccess?
    requires typeHelper.GetCType(call.expression.expression) == Some(objType)
    requires objType == NumberVarType || objType == StringVarType || (objType.ArrayType? && !objType.isDynamicArray)
    ensures !MatchesNode(typeHelper, call)
  {
  }

  /** The resolver's answers that do not depend on the call. */
  lemma ResolverMetadata(typeHelper: TypeHelper, call: CallExpression)
    ensures ReturnType(typeHelper, call) == NumberVarType
    ensures !NeedsDisposal(typeHelper, call)
    ensures GetTempVarName(typeHelper, call) == None
    ensures call.expression.PropertyAccess? ==>
      GetEscapeNode(typeHelper, call) == Some(call.expression.expression)
  {
  }

  // ---------------------------------------------------------------------
  // Templates

  /** `ARRAY_INSERT({varAccess}, 0, {value});` */
  datatype CUnshiftValue = CUnshiftValue(varAccess: string, value: string)

  /** The fields of a CArrayUnshift template object once its constructor has run. */
  datatype CArrayUnshift = CArrayUnshift(
    topExpressionOfStatement: bool,
    tempVarName: string,
    varAccess: string,
    unshiftValues: seq<CUnshiftValue>)

  /** Every insert targets the template's own receiver reference. */
  predicate SharedReceiver(t: CArrayUnshift) {
    forall k :: 0 <= k < |t.unshiftValues| ==> t.unshiftValues[k].varAccess == t.varAccess
  }

  /**
   * The constructor of CArrayUnshift. `tempName` is what the compilation
   * unit's temporary-name allocator returns for the hint "arr_size"; it is
   * only used, and only has to be fresh, when the call's value is used.
   * The emitters are taken as pure, so the frame below describes only the
   * constructor's own changes to the scope and the root.
   */
  method NewCArrayUnshift(scope: Scope, call: CallExpression, emit: Emitters, tempName: string)
    returns (t: CArrayUnshift)
    requires call.expression.PropertyAccess?
    requires call.parentKind != ExpressionStatement ==> tempName !in scope.VariableNames()
    modifies scope, scope.root
    ensures t.varAccess == emit.elementAccess(call.expression.expression)
    ensures |t.unshiftValues| == |call.arguments|
    ensures forall k :: 0 <= k < |call.arguments| ==>
      t.unshiftValues[k] == CUnshiftValue(t.varAccess, emit.expression(call.arguments[k]))
    ensures SharedReceiver(t)
    ensures t.topExpressionOfStatement <==> call.parentKind == ExpressionStatement
    ensures t.topExpressionOfStatement ==>
      t.tempVarName == "" && scope.variables == old(scope.variables)
    ensures !t.topExpressionOfStatement ==>
      && t.tempVarName == tempName
      && scope.variables == old(scope.variables) + [CVariable(tempName, NumberVarType)]
      && scope.VariableNames() == old(scope.VariableNames()) + {tempName}
    ensures old(scope.Valid()) ==> scope.Valid()
    ensures scope.root.headerFlags == old(scope.root.headerFlags) + {ArrayFlag, ArrayInsertFlag}
  {
    var receiver := call.expression.expression;
    var varAccess := emit.elementAccess(receiver);
    var args := seq(|call.arguments|, k requires 0 <= k < |call.arguments| => emit.expression(call.arguments[k]));
    var unshiftValues := seq(|args|, k requires 0 <= k < |args| => CUnshiftValue(varAccess, args[k]));
    var top := call.parentKind == ExpressionStatement;
    var tempVarName := "";
    if !top {
      tempVarName := tempName;
      var declaration := CVariable(tempVarName, NumberVarType);
      if scope.Valid() {
        AppendFreshName(scope.variables, declaration);
      }
      scope.variables := scope.variables + [declaration];
    }
    scope.root.headerFlags := scope.root.headerFlags + {ArrayFlag};
    scope.root.headerFlags := scope.root.headerFlags + {ArrayInsertFlag};
    t := CArrayUnshift(top, tempVarName, varAccess, unshiftValues);
  }

  /** The expansion of `{unshiftValues}`: each value's own template, in list order. */
  function Statements(us: seq<CUnshiftValue>): (r: seq<CStmt>)
    ensures |r| == |us|
    ensures forall k :: 0 <= k < |us| ==> r[k] == ArrayInsert(us[k].varAccess, 0, us[k].value)
  {
    if us == [] then [] else [ArrayInsert(us[0].varAccess, 0, us[0].value)] + Statements(us[1..])
  }

  /** What the template inlines at the call site. */
  datatype InlineCode = InlineStatements(stmts: seq<CStmt>) | InlineValue(name: string)

  /** Statements hoisted before the enclosing statement, then the inline code. */
  datatype Expansion = Expansion(hoisted: seq<CStmt>, inline: InlineCode)

  /** The CArrayUnshift template, in its statement form and in its value form. */
  function Expand(t: CArrayUnshift): (r: Expansion)
    ensures t.topExpressionOfStatement ==>
      && r.hoisted == []
      && r.inline.InlineStatements?
      && |r.inline.stmts| == |t.unshiftValues|
    ensures !t.topExpressionOfStatement ==>
      && |r.hoisted| == |t.unshiftValues| + 1
      && r.hoisted[|t.unshiftValues|] == SizeAssign(t.tempVarName, t.varAccess)
      && r.inline == InlineValue(t.tempVarName)
    ensures SharedReceiver(t) ==>
      forall k :: 0 <= k < |t.unshiftValues| ==>
        var insert := ArrayInsert(t.varAccess, 0, t.unshiftValues[k].value);
        if t.topExpressionOfStatement then r.inline.stmts[k] == insert else r.hoisted[k] == insert
  {
    var inserts := Statements(t.unshiftValues);
    if t.topExpressionOfStatement then
      Expansion([], InlineStatements(inserts))
    else
      Expansion(inserts + [SizeAssign(t.tempVarName, t.varAccess)], InlineValue(t.tempVarName))
  }

  /** The expansion as C text: one line per hoisted statement, and the inline text. */
  datatype TextExpansion = TextExpansion(hoisted: seq<string>, inline: string)

  function ExpandText(t: CArrayUnshift): (r: TextExpansion) {
    var e := Expand(t);
    var inline := match e.inline
      case InlineStatements(ss) => Concat(RenderAll(ss))
      case InlineValue(name) => name;
    TextExpansion(RenderAll(e.hoisted), inline)
  }

  /** The text of the insert lines: `ARRAY_INSERT(<receiver>, 0, <value>);` per argument. */
  function InsertLines(t: CArrayUnshift): (r: seq<string>)
    ensures |r| == |t.unshiftValues|
  {
    seq(|t.unshiftValues|, k requires 0 <= k < |t.unshiftValues| =>
      "ARRAY_INSERT(" + t.varAccess + ", 0, " + t.unshiftValues[k].value + ");\n")
  }

  /**
   * The text both forms produce: the statement form inlines the insert lines
   * and hoists nothing; the value form hoists the same lines followed by the
   * size capture and inlines only the temporary's name.
   */
  lemma {:induction false} ExpandTextForms(t: CArrayUnshift)
    requires SharedReceiver(t)
    ensures t.topExpressionOfStatement ==>
      ExpandText(t) == TextExpansion([], Concat(InsertLines(t)))
    ensures !t.topExpressionOfStatement ==>
      ExpandText(t) == TextExpansion(InsertLines(t) + [t.tempVarName + " = " + t.varAccess + "->size;\n"], t.tempVarName)
  {
    var inserts := Statements(t.unshiftValues);
    assert NatText(0) == "0";
    forall k | 0 <= k < |inserts| ensures RenderAll(inserts)[k] == InsertLines(t)[k] {
      assert inserts[k] == ArrayInsert(t.varAccess, 0, t.unshiftValues[k].value);
    }
    assert RenderAll(inserts) == InsertLines(t);
    if !t.topExpressionOfStatement {
      var tail := [SizeAssign(t.tempVarName, t.varAccess)];
      assert RenderAll(inserts + tail) == RenderAll(inserts) + RenderAll(tail);
    }
  }
}
