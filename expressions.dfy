/** The parts of the expression graph library the Sequential Position block talks to.
    The library's operators are opaque here: each is a constructor of `Expr` that
    records which sub-expressions it was given, so that "the same handle" and
    "built with index + 1" become structural equalities. */
module Expressions {
  import opened Wrappers

  /** Per-particle attributes the block reads or writes. */
  datatype Attribute = ParticleId | Position | TargetPosition

  /** Access a block declares for an attribute. */
  datatype AttributeMode = Read | Write | ReadWrite

  /** One attribute requirement: which attribute, and how it is accessed. */
  datatype AttributeInfo = AttributeInfo(attribute: Attribute, mode: AttributeMode)

  /** The name under which an attribute is visible in generated source text. */
  function AttributeName(a: Attribute): (r: string)
    ensures |r| > 0
  {
    match a
    case ParticleId => "particleId"
    case Position => "position"
    case TargetPosition => "targetPosition"
  }

  /** Expression handles. `Input(name)` stands for whatever concrete expression the
      surrounding tool binds to the declared input `name`; the three `Sequential*`
      constructors are the operator library's position builders, kept opaque. */
  datatype Expr =
    | SequentialLine(start: Expr, end: Expr, index: Expr, count: Expr)
    | SequentialCircle(center: Expr, radius: Expr, normal: Expr, up: Expr, index: Expr, count: Expr)
    | Sequential3D(origin: Expr, axisX: Expr, axisY: Expr, axisZ: Expr, index: Expr,
                   countX: Expr, countY: Expr, countZ: Expr)
    | AttributeRead(attribute: Attribute)
    | UintConstant(value: nat)
    | Add(lhs: Expr, rhs: Expr)
    | Input(name: string)

  /** An expression published under a name. */
  datatype NamedExpression = NamedExpression(exp: Expr, name: string)

  /** Raised by a lookup that finds no element with the requested name. */
  datatype LookupError = NoMatch(name: string)

  /** The names of a sequence of named expressions, in order. */
  function NamesOf(exprs: seq<NamedExpression>): (r: seq<string>)
    ensures |r| == |exprs|
    ensures forall i :: 0 <= i < |exprs| ==> r[i] == exprs[i].name
  {
    seq(|exprs|, i requires 0 <= i < |exprs| => exprs[i].name)
  }

  /** The expression of the first element named `name`; the library's `First` throws
      when there is none, which is the `Failure` here. */
  function First(exprs: seq<NamedExpression>, name: string): (r: Result<Expr, LookupError>)
    ensures r.Success? <==> name in NamesOf(exprs)
    ensures r.Failure? ==> r.error == NoMatch(name)
    decreases |exprs|
  {
    if exprs == [] then Failure(NoMatch(name))
    else if exprs[0].name == name then Success(exprs[0].exp)
    else
      assert NamesOf(exprs) == [exprs[0].name] + NamesOf(exprs[1..]);
      First(exprs[1..], name)
  }

  /** A successful lookup returns the expression of the earliest element with that name. */
  lemma {:induction false} FirstIsEarliestMatch(exprs: seq<NamedExpression>, name: string, i: nat)
    requires i < |exprs| && exprs[i].name == name
    requires forall j :: 0 <= j < i ==> exprs[j].name != name
    ensures First(exprs, name) == Success(exprs[i].exp)
    decreases i
  {
    if i > 0 {
      FirstIsEarliestMatch(exprs[1..], name, i - 1);
    }
  }

  /** Every element's expression is the `Input` of its own name. */
  predicate SelfNamed(exprs: seq<NamedExpression>) {
    forall i :: 0 <= i < |exprs| ==> exprs[i].exp == Input(exprs[i].name)
  }

  /** In a self-named binding, looking a bound name up gives that name's `Input`. */
  lemma {:induction false} FirstOfSelfNamed(exprs: seq<NamedExpression>, name: string)
    requires SelfNamed(exprs) && name in NamesOf(exprs)
    ensures First(exprs, name) == Success(Input(name))
    decreases |exprs|
  {
    if exprs[0].name != name {
      assert NamesOf(exprs) == [exprs[0].name] + NamesOf(exprs[1..]);
      FirstOfSelfNamed(exprs[1..], name);
    }
  }
}
