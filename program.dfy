/**
 * The emission context a template is built against: a scope with its list
 * of declared variables, and the root compilation unit with its header flags.
 */
module Program {

  import opened Types
  import opened Ast

  /** A runtime-support feature the emitted C code needs. */
  datatype HeaderFlag = ArrayFlag | ArrayInsertFlag | OtherFlag(name: string)

  /** A C variable declaration queued in a scope. */
  datatype CVariable = CVariable(name: string, varType: CType)

  /**
   * The emitters for sub-expressions, which live outside this model:
   * `elementAccess` renders a receiver as an addressable C reference
   * (CElementAccess), `expression` renders any other operand
   * (CodeTemplateFactory.createForNode).
   */
  datatype Emitters = Emitters(elementAccess: Expr -> string, expression: Expr -> string)

  function Names(vs: seq<CVariable>): set<string> {
    set v | v in vs :: v.name
  }

  predicate DistinctNames(vs: seq<CVariable>) {
    forall i, j :: 0 <= i < j < |vs| ==> vs[i].name != vs[j].name
  }

  /** Declaring a variable under a name not yet used keeps the names distinct. */
  lemma AppendFreshName(vs: seq<CVariable>, v: CVariable)
    requires DistinctNames(vs) && v.name !in Names(vs)
    ensures DistinctNames(vs + [v])
    ensures Names(vs + [v]) == Names(vs) + {v.name}
  {
  }

  /** The root compilation unit; a header flag is set when it is in `headerFlags`. */
  class Root {
    var headerFlags: set<HeaderFlag>

    constructor ()
      ensures headerFlags == {}
    {
      headerFlags := {};
    }
  }

  /** A lexical scope: the variables declared in it and its compilation unit. */
  class Scope {
    var variables: seq<CVariable>
    const root: Root

    constructor (root: Root)
      ensures this.root == root && variables == []
      ensures Valid()
    {
      this.root := root;
      variables := [];
    }

    /** Every variable of the scope is declared under its own name. */
    ghost predicate Valid()
      reads this
    {
      DistinctNames(variables)
    }

    function VariableNames(): set<string>
      reads this
    {
      Names(variables)
    }
  }
}
