/** The Sequential Position block of the visual effect graph: it places particles one
    after another along a line, around a circle or on a 3D lattice, indexed by the
    particle id or by a custom index, and optionally also sets their target position
    (at the same index, or at the next one). Every getter of the block is a pure
    function of its three settings and, for `parameters`, of the expressions bound
    to the declared inputs; so is every function here. */
module PositionSequential {
  import opened Wrappers
  import opened Expressions
  import opened StatementText

  datatype SequentialShape = Line | Circle | ThreeDimensional

  datatype IndexMode = ParticleID | Custom

  datatype TargetPositionMode = None | Same | Next

  /** The block's settings. */
  datatype Settings = Settings(shape: SequentialShape, index: IndexMode, targetPosition: TargetPositionMode)

  // ---------------------------------------------------------------------------
  // Variants and display name

  /** Position of a shape in the enum's declaration. */
  function DeclarationOrder(shape: SequentialShape): (n: nat)
    ensures n < 3
  {
    match shape
    case Line => 0
    case Circle => 1
    case ThreeDimensional => 2
  }

  /** The variants offered by the authoring tool: one per shape. */
  function Variants(): (r: map<string, seq<SequentialShape>>)
    ensures r.Keys == {"shape"}
    ensures |r["shape"]| == 3
    ensures forall shape :: r["shape"][DeclarationOrder(shape)] == shape
  {
    map["shape" := [Line, Circle, ThreeDimensional]]
  }

  /** How a shape prints (the enum member's name). */
  function ShapeName(shape: SequentialShape): string {
    match shape
    case Line => "Line"
    case Circle => "Circle"
    case ThreeDimensional => "ThreeDimensional"
  }

  const NamePrefix := "Position : Sequential ("

  /** The shape a display name mentions, if it is one of the block's names. */
  function ShapeOfName(text: string): Option<SequentialShape> {
    if |text| > |NamePrefix| && text[..|NamePrefix|] == NamePrefix && text[|text| - 1] == ')' then
      var middle := text[|NamePrefix|..|text| - 1];
      if middle == ShapeName(Line) then Some(Line)
      else if middle == ShapeName(Circle) then Some(Circle)
      else if middle == ShapeName(ThreeDimensional) then Some(ThreeDimensional)
      else Option.None
    else Option.None
  }

  /** The block's display name; it names the current shape and nothing else. */
  function Name(s: Settings): (r: string)
    ensures ShapeOfName(r) == Some(s.shape)
  {
    var r := NamePrefix + ShapeName(s.shape) + ")";
    assert r[..|NamePrefix|] == NamePrefix;
    assert r[|NamePrefix|..|r| - 1] == ShapeName(s.shape);
    r
  }

  // ---------------------------------------------------------------------------
  // Input schema

  /** The declared type of an input. */
  datatype PropertyType = UintType | PositionType | DirectionType | FloatType | Vector3Type

  /** The default of an input: unsigned defaults are kept, geometric ones are not. */
  datatype DefaultValue = UintValue(n: nat) | NotModelled

  /** One declared input: name, type and default. */
  datatype Property = Property(name: string, ty: PropertyType, defaultValue: DefaultValue)

  /** The names of a schema, in order: the projection `Expressions.NamesOf` makes of
      named expressions, here for declared inputs. */
  function PropertyNames(props: seq<Property>): (r: seq<string>)
    ensures |r| == |props|
    ensures forall i :: 0 <= i < |props| ==> r[i] == props[i].name
  {
    seq(|props|, i requires 0 <= i < |props| => props[i].name)
  }

  predicate Distinct(names: seq<string>) {
    forall i, j :: 0 <= i < j < |names| ==> names[i] != names[j]
  }

  /** Inputs every configuration declares: none. */
  function CommonProperties(): seq<Property> {
    []
  }

  const IndexProperty := Property("Index", UintType, UintValue(0))

  function CustomIndexProperties(): seq<Property> {
    [IndexProperty]
  }

  function LineProperties(): seq<Property> {
    [ Property("Count", UintType, UintValue(64)),
      Property("Start", PositionType, NotModelled),
      Property("End", PositionType, NotModelled) ]
  }

  function CircleProperties(): seq<Property> {
    [ Property("Count", UintType, UintValue(64)),
      Property("Center", PositionType, NotModelled),
      Property("Normal", DirectionType, NotModelled),
      Property("Up", DirectionType, NotModelled),
      Property("Radius", FloatType, NotModelled) ]
  }

  function ThreeDimensionalProperties(): seq<Property> {
    [ Property("Origin", PositionType, NotModelled),
      Property("AxisX", Vector3Type, NotModelled),
      Property("AxisY", Vector3Type, NotModelled),
      Property("AxisZ", Vector3Type, NotModelled),
      Property("CountX", UintType, UintValue(8)),
      Property("CountY", UintType, UintValue(8)),
      Property("CountZ", UintType, UintValue(8)) ]
  }

  /** The group of inputs a shape declares. */
  function ShapeProperties(shape: SequentialShape): (r: seq<Property>)
    ensures Distinct(PropertyNames(r))
    ensures "Index" !in PropertyNames(r)
  {
    match shape
    case Line => LineProperties()
    case Circle => CircleProperties()
    case ThreeDimensional => ThreeDimensionalProperties()
  }

  /** The block's inputs: the common group, the current shape's group, then `Index`
      exactly when the index is custom. */
  function InputProperties(s: Settings): (r: seq<Property>)
    ensures |r| == |ShapeProperties(s.shape)| + (if s.index == Custom then 1 else 0)
    ensures r[..|ShapeProperties(s.shape)|] == ShapeProperties(s.shape)
    ensures s.index == Custom ==> r[|r| - 1] == IndexProperty
    ensures "Index" in PropertyNames(r) <==> s.index == Custom
    ensures Distinct(PropertyNames(r))
  {
    var r := CommonProperties() + ShapeProperties(s.shape);
    if s.index == Custom then
      var r' := r + CustomIndexProperties();
      assert PropertyNames(r') == PropertyNames(r) + ["Index"];
      r'
    else r
  }

  // ---------------------------------------------------------------------------
  // Attribute requirements

  /** Order in which the block lists its attributes. */
  function ListingOrder(a: Attribute): nat {
    match a
    case ParticleId => 0
    case Position => 1
    case TargetPosition => 2
  }

  /** The attributes the block reads and writes. */
  function Attributes(s: Settings): (r: seq<AttributeInfo>)
    ensures 1 <= |r| <= 3
    ensures AttributeInfo(ParticleId, Read) in r <==> s.index == ParticleID
    ensures AttributeInfo(Position, ReadWrite) in r
    ensures AttributeInfo(TargetPosition, ReadWrite) in r <==> s.targetPosition != TargetPositionMode.None
    ensures forall i :: 0 <= i < |r| ==>
      r[i].mode == (if r[i].attribute == ParticleId then Read else ReadWrite)
    ensures forall i, j :: 0 <= i < j < |r| ==> ListingOrder(r[i].attribute) < ListingOrder(r[j].attribute)
  {
    (if s.index == ParticleID then [AttributeInfo(ParticleId, Read)] else [])
    + [AttributeInfo(Position, ReadWrite)]
    + (if s.targetPosition != TargetPositionMode.None then [AttributeInfo(TargetPosition, ReadWrite)] else [])
  }

  // ---------------------------------------------------------------------------
  // Expression builder

  /** The names the builder looks up for a shape, in lookup order. */
  function RequiredNames(shape: SequentialShape): seq<string> {
    match shape
    case Line => ["Start", "End", "Count"]
    case Circle => ["Center", "Normal", "Up", "Radius", "Count"]
    case ThreeDimensional => ["Origin", "AxisX", "AxisY", "AxisZ", "CountX", "CountY", "CountZ"]
  }

  /** Which shape's operator built an expression. */
  function ShapeOf(e: Expr): Option<SequentialShape> {
    match e
    case SequentialLine(_, _, _, _) => Some(Line)
    case SequentialCircle(_, _, _, _, _, _) => Some(Circle)
    case Sequential3D(_, _, _, _, _, _, _, _) => Some(ThreeDimensional)
    case _ => Option.None
  }

  /** The index a position operator was given. */
  function IndexArgument(e: Expr): Option<Expr> {
    match e
    case SequentialLine(_, _, index, _) => Some(index)
    case SequentialCircle(_, _, _, _, index, _) => Some(index)
    case Sequential3D(_, _, _, _, index, _, _, _) => Some(index)
    case _ => Option.None
  }

  /** The same position operator with another index. */
  function WithIndex(e: Expr, index: Expr): Expr {
    match e
    case SequentialLine(start, end, _, count) => SequentialLine(start, end, index, count)
    case SequentialCircle(center, radius, normal, up, _, count) =>
      SequentialCircle(center, radius, normal, up, index, count)
    case Sequential3D(origin, axisX, axisY, axisZ, _, countX, countY, countZ) =>
      Sequential3D(origin, axisX, axisY, axisZ, index, countX, countY, countZ)
    case _ => e
  }

  /** The argument a position operator received for the input named `role`. */
  function Argument(e: Expr, role: string): Option<Expr> {
    match e
    case SequentialLine(start, end, _, count) =>
      if role == "Start" then Some(start)
      else if role == "End" then Some(end)
      else if role == "Count" then Some(count)
      else Option.None
    case SequentialCircle(center, radius, normal, up, _, count) =>
      if role == "Center" then Some(center)
      else if role == "Normal" then Some(normal)
      else if role == "Up" then Some(up)
      else if role == "Radius" then Some(radius)
      else if role == "Count" then Some(count)
      else Option.None
    case Sequential3D(origin, axisX, axisY, axisZ, _, countX, countY, countZ) =>
      if role == "Origin" then Some(origin)
      else if role == "AxisX" then Some(axisX)
      else if role == "AxisY" then Some(axisY)
      else if role == "AxisZ" then Some(axisZ)
      else if role == "CountX" then Some(countX)
      else if role == "CountY" then Some(countY)
      else if role == "CountZ" then Some(countZ)
      else Option.None
    case _ => Option.None
  }

  /** All of `names` are bound in `exprs`. */
  predicate AllBound(names: seq<string>, exprs: seq<NamedExpression>) {
    forall n :: n in names ==> n in NamesOf(exprs)
  }

  /** The first of `names` not bound in `exprs`, if any. */
  function FirstUnbound(names: seq<string>, exprs: seq<NamedExpression>): Option<string> {
    if names == [] then Option.None
    else if names[0] !in NamesOf(exprs) then Some(names[0])
    else FirstUnbound(names[1..], exprs)
  }

  /** The position operator for `shape` applied to the bound inputs and `indexExpr`.
      It fails, as the first missing lookup does, exactly when an input the shape
      needs is unbound; otherwise every argument is the input of the same name. */
  function GetPositionFromIndex(shape: SequentialShape, indexExpr: Expr, exprs: seq<NamedExpression>)
    : (r: Result<Expr, LookupError>)
    ensures r.Success? <==> AllBound(RequiredNames(shape), exprs)
    ensures r.Failure? ==> r.error.name in RequiredNames(shape) && r.error.name !in NamesOf(exprs)
    ensures r.Success? ==> ShapeOf(r.value) == Some(shape) && IndexArgument(r.value) == Some(indexExpr)
  {
    match shape
    case Line =>
      var start :- First(exprs, "Start");
      var end :- First(exprs, "End");
      var count :- First(exprs, "Count");
      Success(SequentialLine(start, end, indexExpr, count))
    case Circle =>
      var center :- First(exprs, "Center");
      var normal :- First(exprs, "Normal");
      var up :- First(exprs, "Up");
      var radius :- First(exprs, "Radius");
      var count :- First(exprs, "Count");
      Success(SequentialCircle(center, radius, normal, up, indexExpr, count))
    case ThreeDimensional =>
      var origin :- First(exprs, "Origin");
      var axisX :- First(exprs, "AxisX");
      var axisY :- First(exprs, "AxisY");
      var axisZ :- First(exprs, "AxisZ");
      var countX :- First(exprs, "CountX");
      var countY :- First(exprs, "CountY");
      var countZ :- First(exprs, "CountZ");
      Success(Sequential3D(origin, axisX, axisY, axisZ, indexExpr, countX, countY, countZ))
  }

  /** Each argument of a built position operator is the input bound under that
      argument's name. */
  lemma ArgumentsAreBoundInputs(shape: SequentialShape, indexExpr: Expr, exprs: seq<NamedExpression>, n: string)
    requires GetPositionFromIndex(shape, indexExpr, exprs).Success?
    requires n in RequiredNames(shape)
    ensures var e := GetPositionFromIndex(shape, indexExpr, exprs).value;
      Argument(e, n).Some? && First(exprs, n) == Success(Argument(e, n).value)
  {
    assert AllBound(RequiredNames(shape), exprs);
    match shape
    case Line => LineArguments(indexExpr, exprs, n);
    case Circle => CircleArguments(indexExpr, exprs, n);
    case ThreeDimensional => LatticeArguments(indexExpr, exprs, n);
  }

  /** `ArgumentsAreBoundInputs` for the `Line` shape. */
  lemma LineArguments(indexExpr: Expr, exprs: seq<NamedExpression>, n: string)
    requires AllBound(RequiredNames(Line), exprs) && n in RequiredNames(Line)
    ensures var e := GetPositionFromIndex(Line, indexExpr, exprs).value;
      Argument(e, n).Some? && First(exprs, n) == Success(Argument(e, n).value)
  {
    var e := GetPositionFromIndex(Line, indexExpr, exprs).value;
    assert e.SequentialLine?;
    if n == "Start" {
      assert e.start == First(exprs, n).value;
    } else if n == "End" {
      assert e.end == First(exprs, n).value;
    } else {
      assert e.count == First(exprs, n).value;
    }
  }

  /** `ArgumentsAreBoundInputs` for the `Circle` shape. */
  lemma CircleArguments(indexExpr: Expr, exprs: seq<NamedExpression>, n: string)
    requires AllBound(RequiredNames(Circle), exprs) && n in RequiredNames(Circle)
    ensures var e := GetPositionFromIndex(Circle, indexExpr, exprs).value;
      Argument(e, n).Some? && First(exprs, n) == Success(Argument(e, n).value)
  {
    var e := GetPositionFromIndex(Circle, indexExpr, exprs).value;
    assert e.SequentialCircle?;
    if n == "Center" {
      assert e.center == First(exprs, n).value;
    } else if n == "Normal" {
      assert e.normal == First(exprs, n).value;
    } else if n == "Up" {
      assert e.up == First(exprs, n).value;
    } else if n == "Radius" {
      assert e.radius == First(exprs, n).value;
    } else {
      assert e.count == First(exprs, n).value;
    }
  }

  /** `ArgumentsAreBoundInputs` for the `ThreeDimensional` shape. */
  lemma LatticeArguments(indexExpr: Expr, exprs: seq<NamedExpression>, n: string)
    requires AllBound(RequiredNames(ThreeDimensional), exprs) && n in RequiredNames(ThreeDimensional)
    ensures var e := GetPositionFromIndex(ThreeDimensional, indexExpr, exprs).value;
      Argument(e, n).Some? && First(exprs, n) == Success(Argument(e, n).value)
  {
    var e := GetPositionFromIndex(ThreeDimensional, indexExpr, exprs).value;
    assert e.Sequential3D?;
    if n == "Origin" {
      assert e.origin == First(exprs, n).value;
    } else if n == "AxisX" {
      assert e.axisX == First(exprs, n).value;
    } else if n == "AxisY" {
      assert e.axisY == First(exprs, n).value;
    } else if n == "AxisZ" {
      assert e.axisZ == First(exprs, n).value;
    } else if n == "CountX" {
      assert e.countX == First(exprs, n).value;
    } else if n == "CountY" {
      assert e.countY == First(exprs, n).value;
    } else {
      assert e.countZ == First(exprs, n).value;
    }
  }

  /** `names[k]` is the first unbound name when all names before it are bound. */
  lemma {:induction false} FirstUnboundAt(names: seq<string>, k: nat, exprs: seq<NamedExpression>)
    requires k < |names| && names[k] !in NamesOf(exprs)
    requires forall j :: 0 <= j < k ==> names[j] in NamesOf(exprs)
    ensures FirstUnbound(names, exprs) == Some(names[k])
    decreases k
  {
    if k > 0 {
      FirstUnboundAt(names[1..], k - 1, exprs);
    }
  }

  /** A failed build reports the first required input, in lookup order, that is unbound. */
  lemma ReportsFirstUnbound(shape: SequentialShape, indexExpr: Expr, exprs: seq<NamedExpression>)
    requires GetPositionFromIndex(shape, indexExpr, exprs).Failure?
    ensures FirstUnbound(RequiredNames(shape), exprs) == Some(GetPositionFromIndex(shape, indexExpr, exprs).error.name)
  {
    var names, bound := RequiredNames(shape), NamesOf(exprs);
    var k :| 0 <= k < |names| && names[k] !in bound && forall j :: 0 <= j < k ==> names[j] in bound;
    FirstUnboundAt(names, k, exprs);
  }

  // ---------------------------------------------------------------------------
  // Parameters

  const ComputedPosition := "computedPosition"
  const ComputedTargetPosition := "computedTargetPosition"

  /** The names under which the block publishes its expressions. */
  function ParameterNames(mode: TargetPositionMode): seq<string> {
    [ComputedPosition] + (if mode == TargetPositionMode.None then [] else [ComputedTargetPosition])
  }

  /** The index the sequence is sampled at: the particle id, or the bound `Index` input. */
  function IndexExpression(s: Settings, exprs: seq<NamedExpression>): (r: Result<Expr, LookupError>)
    ensures s.index == ParticleID ==> r == Success(AttributeRead(ParticleId))
    ensures s.index == Custom ==> r == First(exprs, "Index")
    ensures s.index == Custom ==> (r.Success? <==> "Index" in NamesOf(exprs))
    ensures s.index == Custom && r.Failure? ==> r.error == NoMatch("Index")
  {
    if s.index == ParticleID then Success(AttributeRead(ParticleId)) else First(exprs, "Index")
  }

  /** The expressions the block publishes: the position, then the target position
      unless there is none. `Same` publishes the position expression itself, `Next`
      rebuilds it with the index plus one. */
  function Parameters(s: Settings, exprs: seq<NamedExpression>): (r: Result<seq<NamedExpression>, LookupError>)
    ensures r.Success? <==>
      (s.index == Custom ==> "Index" in NamesOf(exprs)) && AllBound(RequiredNames(s.shape), exprs)
    ensures s.index == Custom && "Index" !in NamesOf(exprs) ==> r == Failure(NoMatch("Index"))
    ensures r.Success? ==> NamesOf(r.value) == ParameterNames(s.targetPosition)
    ensures r.Success? ==>
      ShapeOf(r.value[0].exp) == Some(s.shape)
      && IndexArgument(r.value[0].exp) == Some(IndexExpression(s, exprs).value)
    ensures r.Success? ==>
      GetPositionFromIndex(s.shape, IndexExpression(s, exprs).value, exprs) == Success(r.value[0].exp)
    ensures r.Success? && s.targetPosition == Same ==> r.value[1].exp == r.value[0].exp
    ensures r.Success? && s.targetPosition == Next ==>
      r.value[1].exp == WithIndex(r.value[0].exp, Add(IndexExpression(s, exprs).value, UintConstant(1)))
  {
    var indexExpr :- IndexExpression(s, exprs);
    var positionExpr :- GetPositionFromIndex(s.shape, indexExpr, exprs);
    var position := NamedExpression(positionExpr, ComputedPosition);
    match s.targetPosition
    case None => Success([position])
    case Next =>
      // Cannot fail: the same inputs were found for the position.
      var targetExpr := GetPositionFromIndex(s.shape, Add(indexExpr, UintConstant(1)), exprs).value;
      Success([position, NamedExpression(targetExpr, ComputedTargetPosition)])
    case Same => Success([position, NamedExpression(positionExpr, ComputedTargetPosition)])
  }

  /** A failed `Parameters` reports the custom `Index` if that is missing (it is looked
      up first), and otherwise the first missing input of the shape. */
  lemma ParametersReportFirstMissing(s: Settings, exprs: seq<NamedExpression>)
    requires Parameters(s, exprs).Failure?
    ensures var name := Parameters(s, exprs).error.name;
      if s.index == Custom && "Index" !in NamesOf(exprs) then name == "Index"
      else FirstUnbound(RequiredNames(s.shape), exprs) == Some(name)
  {
    if !(s.index == Custom && "Index" !in NamesOf(exprs)) {
      ReportsFirstUnbound(s.shape, IndexExpression(s, exprs).value, exprs);
    }
  }

  /** With `Next`, the target is what the same shape dispatch builds from the same
      inputs at the index plus one. This restates the `Next` branch of `Parameters`
      in the builder's terms, so Dafny needs no proof for it; the contract that says
      the target differs from the position only in its index is the `WithIndex`
      clause of `Parameters`. */
  lemma NextTargetIsRebuilt(s: Settings, exprs: seq<NamedExpression>)
    requires s.targetPosition == Next && Parameters(s, exprs).Success?
    ensures GetPositionFromIndex(s.shape, Add(IndexExpression(s, exprs).value, UintConstant(1)), exprs)
         == Success(Parameters(s, exprs).value[1].exp)
  {
  }

  // ---------------------------------------------------------------------------
  // Schema and builder agree

  /** The surrounding tool's binding of a schema, modelled: every declared input
      becomes the `Input` of its own name. */
  function Bind(schema: seq<Property>): (r: seq<NamedExpression>)
    ensures NamesOf(r) == PropertyNames(schema)
    ensures SelfNamed(r)
  {
    seq(|schema|, i requires 0 <= i < |schema| => NamedExpression(Input(schema[i].name), schema[i].name))
  }

  /** Every input the builder and the index look up is declared by the schema of the
      same settings. */
  lemma SchemaDeclaresLookups(s: Settings)
    ensures forall n :: n in RequiredNames(s.shape) ==> n in PropertyNames(InputProperties(s))
    ensures s.index == Custom ==> "Index" in PropertyNames(InputProperties(s))
  {
    var schema := InputProperties(s);
    var group := ShapeProperties(s.shape);
    assert PropertyNames(schema)[..|group|] == PropertyNames(group);
    forall n | n in RequiredNames(s.shape) ensures n in PropertyNames(schema) {
      var k :| 0 <= k < |RequiredNames(s.shape)| && RequiredNames(s.shape)[k] == n;
      match s.shape
      case Line => assert n == PropertyNames(group)[[1, 2, 0][k]];
      case Circle => assert n == PropertyNames(group)[[1, 2, 3, 4, 0][k]];
      case ThreeDimensional => assert n == PropertyNames(group)[k];
    }
  }

  /** The position operator for `shape` over inputs bound by `Bind`. */
  function Reference(shape: SequentialShape, indexExpr: Expr): Expr {
    match shape
    case Line => SequentialLine(Input("Start"), Input("End"), indexExpr, Input("Count"))
    case Circle => SequentialCircle(Input("Center"), Input("Radius"), Input("Normal"), Input("Up"), indexExpr, Input("Count"))
    case ThreeDimensional =>
      Sequential3D(Input("Origin"), Input("AxisX"), Input("AxisY"), Input("AxisZ"), indexExpr,
                   Input("CountX"), Input("CountY"), Input("CountZ"))
  }

  /** Over its own bound schema the builder never fails, and builds the reference operator. */
  lemma BoundSchemaBuilds(s: Settings, indexExpr: Expr)
    ensures GetPositionFromIndex(s.shape, indexExpr, Bind(InputProperties(s))) == Success(Reference(s.shape, indexExpr))
  {
    var exprs := Bind(InputProperties(s));
    SchemaDeclaresLookups(s);
    forall n | n in RequiredNames(s.shape) ensures First(exprs, n) == Success(Input(n)) {
      FirstOfSelfNamed(exprs, n);
    }
  }

  /** The index every configuration samples at, over its own bound schema. */
  function BoundIndex(s: Settings): Expr {
    if s.index == ParticleID then AttributeRead(ParticleId) else Input("Index")
  }

  /** Over its own bound schema the block's parameters never fail, for all 18 settings. */
  lemma BoundSchemaParameters(s: Settings)
    ensures var position := NamedExpression(Reference(s.shape, BoundIndex(s)), ComputedPosition);
      Parameters(s, Bind(InputProperties(s))) == Success(
        match s.targetPosition
        case None => [position]
        case Same => [position, NamedExpression(position.exp, ComputedTargetPosition)]
        case Next => [position, NamedExpression(Reference(s.shape, Add(BoundIndex(s), UintConstant(1))),
                                                ComputedTargetPosition)])
  {
    var exprs := Bind(InputProperties(s));
    SchemaDeclaresLookups(s);
    if s.index == Custom {
      FirstOfSelfNamed(exprs, "Index");
    }
    BoundSchemaBuilds(s, BoundIndex(s));
    BoundSchemaBuilds(s, Add(BoundIndex(s), UintConstant(1)));
  }

  // ---------------------------------------------------------------------------
  // Source text

  /** The statements handed to the code generator: the text of the emitted
      statements, one per line (read back by `SourceStatements`). */
  function Source(s: Settings): (r: string)
    ensures |EmittedStatements(s)| > 0 && r == RenderAll(EmittedStatements(s))
  {
    var source := "position += " + ComputedPosition + ";";
    if s.targetPosition != TargetPositionMode.None then
      assert EmittedStatements(s)[1..] == [Statement(AttributeName(TargetPosition), ComputedTargetPosition)];
      source + "\n" + "targetPosition += " + ComputedTargetPosition + ";"
    else source
  }

  function Operands(sts: seq<Statement>): (r: seq<string>)
    ensures |r| == |sts|
    ensures forall i :: 0 <= i < |sts| ==> r[i] == sts[i].operand
  {
    seq(|sts|, i requires 0 <= i < |sts| => sts[i].operand)
  }

  /** The source text is one accumulation per published expression: it refers to
      exactly the names `Parameters` publishes, in the same order. */
  lemma SourceReferencesParameters(s: Settings, exprs: seq<NamedExpression>)
    requires Parameters(s, exprs).Success?
    ensures ParseStatements(Source(s)).Some?
    ensures Operands(ParseStatements(Source(s)).value) == NamesOf(Parameters(s, exprs).value)
  {
    SourceStatements(s);
  }

  /** Every statement of the source text accumulates into an attribute the block
      declares as read-write. */
  lemma SourceWritesDeclaredAttributes(s: Settings)
    ensures ParseStatements(Source(s)).Some?
    ensures forall st :: st in ParseStatements(Source(s)).value ==>
      exists a :: st.target == AttributeName(a) && AttributeInfo(a, ReadWrite) in Attributes(s)
  {
    SourceStatements(s);
    var sts := ParseStatements(Source(s)).value;
    forall st | st in sts
      ensures exists a :: st.target == AttributeName(a) && AttributeInfo(a, ReadWrite) in Attributes(s)
    {
      if st.target == AttributeName(Position) {
        assert AttributeInfo(Position, ReadWrite) in Attributes(s);
      } else {
        assert st.target == AttributeName(TargetPosition);
        assert AttributeInfo(TargetPosition, ReadWrite) in Attributes(s);
      }
    }
  }

  /** One accumulation into the position, then one into the target position unless
      there is none. */
  function EmittedStatements(s: Settings): seq<Statement> {
    [Statement(AttributeName(Position), ComputedPosition)]
    + (if s.targetPosition == TargetPositionMode.None then []
       else [Statement(AttributeName(TargetPosition), ComputedTargetPosition)])
  }

  lemma EmittedStatementsWellFormed(s: Settings)
    ensures forall i :: 0 <= i < |EmittedStatements(s)| ==> WellFormed(EmittedStatements(s)[i])
  {
  }

  /** The source text read back as statements. */
  lemma SourceStatements(s: Settings)
    ensures ParseStatements(Source(s)) == Some(EmittedStatements(s))
  {
    EmittedStatementsWellFormed(s);
    ParseRenderAll(EmittedStatements(s));
  }
}
