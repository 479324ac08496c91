# Sequential Position block, modelled in Dafny

This project models the Sequential Position block of the Visual Effect Graph
editor (`PositionSequential` and its variant provider). The block places
particles one after another along a line, around a circle or on a 3D lattice.

It has three settings:

- the shape: `Line`, `Circle` or `ThreeDimensional`;
- the index source: the particle id, or a custom `Index` input;
- the target-position mode: `None`, `Same` or `Next`.

Every getter of the block is a pure function of these settings and, for
`parameters`, of the expressions bound to the declared inputs. The model writes
each getter as a Dafny function over a `Settings` datatype:

- the variants offered to the authoring tool;
- the display name;
- the ordered input schema;
- the attribute requirements;
- the expression builder `GetPositionFromIndex`;
- the published `parameters`;
- the emitted `source` text.

The expression library the block calls is modelled as opaque constructors of
`Expressions.Expr`:

- `SequentialLine`, `SequentialCircle` and `Sequential3D`, the three position builders;
- `AttributeRead`, a read of a particle attribute;
- `UintConstant` and `Add`, for the index-plus-one expression.

The surrounding tool's binding of declared inputs to expressions is a sequence of
`NamedExpression`s. `Bind` builds one binding per declared input, each holding
`Input(name)` under its own name. So "the same handle" and "rebuilt with index + 1"
become structural equalities. LINQ's `First`, which throws when no element matches,
returns a `Result` with a `NoMatch` error.

Files:

- `wrappers.dfy`: `Option` and `Result`.
- `expressions.dfy`: attributes, expression handles, named expressions and the `First` lookup.
- `statement_text.dfy`: the statement text format `<target> += <operand>;`, one per
  line, and a reader for it. The reader is used to state which identifiers the
  emitted source refers to.
- `position_sequential.dfy`: the block itself and the lemmas over all 18 settings.

## Model

| member | source | states |
|---|---|---|
| `PositionSequential.Variants` | com.unity.visualeffectgraph/VisualEffectGraph/Editor/Models/Blocks/Implementations/Position/PositionSequential.cs:11-31 | exactly one key, `"shape"`, mapped to three shapes, each at its declaration position (Line, Circle, ThreeDimensional) |
| `PositionSequential.Name` | com.unity.visualeffectgraph/VisualEffectGraph/Editor/Models/Blocks/Implementations/Position/PositionSequential.cs:63 | the display name reads back as `Position : Sequential (<shape>)` naming the current shape |
| `PositionSequential.ShapeProperties` | com.unity.visualeffectgraph/VisualEffectGraph/Editor/Models/Blocks/Implementations/Position/PositionSequential.cs:77-115 | each shape's input group has distinct names and never declares `Index` |
| `PositionSequential.InputProperties` | com.unity.visualeffectgraph/VisualEffectGraph/Editor/Models/Blocks/Implementations/Position/PositionSequential.cs:117-135 | the schema starts with the current shape's group (the common group is empty); `Index` (uint, default 0) is appended last iff the index is custom; names stay distinct, so `Index` appears at most once |
| `PositionSequential.Attributes` | com.unity.visualeffectgraph/VisualEffectGraph/Editor/Models/Blocks/Implementations/Position/PositionSequential.cs:137-149 | 1 to 3 entries in the order particle id, position, target position; `ParticleId:Read` iff particle-id index; `Position:ReadWrite` always; `TargetPosition:ReadWrite` iff the target mode is not `None` |
| `PositionSequential.GetPositionFromIndex` | com.unity.visualeffectgraph/VisualEffectGraph/Editor/Models/Blocks/Implementations/Position/PositionSequential.cs:151-181 | succeeds iff every name the shape looks up is bound; a failure names an unbound looked-up input; on success the operator is the shape's own and its index argument is the given index |
| `PositionSequential.ArgumentsAreBoundInputs` | com.unity.visualeffectgraph/VisualEffectGraph/Editor/Models/Blocks/Implementations/Position/PositionSequential.cs:153-178 | every argument of the built operator is the first expression bound under that argument's input name |
| `PositionSequential.ReportsFirstUnbound` | com.unity.visualeffectgraph/VisualEffectGraph/Editor/Models/Blocks/Implementations/Position/PositionSequential.cs:153-178 | a failed build reports the first unbound input in lookup order |
| `Expressions.First` | com.unity.visualeffectgraph/VisualEffectGraph/Editor/Models/Blocks/Implementations/Position/PositionSequential.cs:155-157 | a lookup by name succeeds iff the name is bound, and otherwise fails naming it |
| `Expressions.FirstIsEarliestMatch` | com.unity.visualeffectgraph/VisualEffectGraph/Editor/Models/Blocks/Implementations/Position/PositionSequential.cs:155-157 | a lookup returns the expression of the earliest element with that name |
| `PositionSequential.IndexExpression` | com.unity.visualeffectgraph/VisualEffectGraph/Editor/Models/Blocks/Implementations/Position/PositionSequential.cs:191 | particle-id mode reads the `ParticleId` attribute; custom mode gives the expression the first `Index` binding holds, succeeding iff `Index` is bound and otherwise failing on `Index` |
| `PositionSequential.Parameters` | com.unity.visualeffectgraph/VisualEffectGraph/Editor/Models/Blocks/Implementations/Position/PositionSequential.cs:186-209 | succeeds iff `Index` (when custom) and the shape's inputs are bound; a missing custom `Index` is the reported error; names are `computedPosition`, then `computedTargetPosition` iff the mode is not `None`; the position is exactly what `GetPositionFromIndex` builds from the bound inputs at the index expression; `Same` publishes the identical position expression; `Next` publishes the position operator with only its index replaced by index + 1 |
| `PositionSequential.ParametersReportFirstMissing` | com.unity.visualeffectgraph/VisualEffectGraph/Editor/Models/Blocks/Implementations/Position/PositionSequential.cs:190-192 | a failure names `Index` when the custom index is unbound (it is looked up first), and otherwise the shape's first unbound input |
| `PositionSequential.NextTargetIsRebuilt` | com.unity.visualeffectgraph/VisualEffectGraph/Editor/Models/Blocks/Implementations/Position/PositionSequential.cs:198-201 | with `Next`, the target is what `GetPositionFromIndex` builds from the same inputs at index + 1 |
| `PositionSequential.Bind` | com.unity.visualeffectgraph/VisualEffectGraph/Editor/Models/Blocks/Implementations/Position/PositionSequential.cs:190 | the modelled binder publishes exactly the declared names, in order, each bound to the `Input` of its own name |
| `Expressions.FirstOfSelfNamed` | com.unity.visualeffectgraph/VisualEffectGraph/Editor/Models/Blocks/Implementations/Position/PositionSequential.cs:190-191 | in such a binding, looking up a declared name gives that name's `Input` |
| `PositionSequential.SchemaDeclaresLookups` | com.unity.visualeffectgraph/VisualEffectGraph/Editor/Models/Blocks/Implementations/Position/PositionSequential.cs:151-191 | for every setting, each name the builder looks up is declared by the schema of the same settings, and so is `Index` whenever it is looked up |
| `PositionSequential.BoundSchemaBuilds` | com.unity.visualeffectgraph/VisualEffectGraph/Editor/Models/Blocks/Implementations/Position/PositionSequential.cs:151-181 | over its own bound schema the builder never fails (the `First` exceptions and the `NotImplementedException` are unreachable) and builds the shape's operator over the declared inputs |
| `PositionSequential.BoundSchemaParameters` | com.unity.visualeffectgraph/VisualEffectGraph/Editor/Models/Blocks/Implementations/Position/PositionSequential.cs:186-209 | for all 18 settings, over the bound schema, `parameters` succeeds and is exactly: the position; the same expression again for `Same`; the operator rebuilt at index + 1 for `Next` |
| `StatementText.ParseRenderAll` | com.unity.visualeffectgraph/VisualEffectGraph/Editor/Models/Blocks/Implementations/Position/PositionSequential.cs:215-218 | statement text written one `<target> += <operand>;` per line reads back as the same statements |
| `PositionSequential.Source` | com.unity.visualeffectgraph/VisualEffectGraph/Editor/Models/Blocks/Implementations/Position/PositionSequential.cs:211-222 | the text is the emitted statements rendered one per line: `position += computedPosition;`, then `targetPosition += computedTargetPosition;` iff the mode is not `None` |
| `PositionSequential.SourceStatements` | com.unity.visualeffectgraph/VisualEffectGraph/Editor/Models/Blocks/Implementations/Position/PositionSequential.cs:211-222 | the source text is `position += computedPosition;`, followed by `targetPosition += computedTargetPosition;` on a second line iff the mode is not `None` |
| `PositionSequential.SourceReferencesParameters` | com.unity.visualeffectgraph/VisualEffectGraph/Editor/Models/Blocks/Implementations/Position/PositionSequential.cs:183-222 | the identifiers the source text accumulates are exactly the names `parameters` publishes, in the same order |
| `PositionSequential.SourceWritesDeclaredAttributes` | com.unity.visualeffectgraph/VisualEffectGraph/Editor/Models/Blocks/Implementations/Position/PositionSequential.cs:137-222 | every statement of the source text accumulates into an attribute the block declares as read-write |

## Left out

- The expression library's operators (`SequentialLine`, `SequentialCircle`, `Sequential3D`, `OneExpression`) are opaque constructors. Their floating-point and vector math is not modelled, and neither is the 32-bit wrap-around of the index + 1 expression, which is only built and never evaluated here.
- `PropertiesFromType` and `GetExpressionsFromSlots` are reflection and slot binding. The schema is written out as explicit `(name, type, default)` sequences. The bound expressions are a parameter of `Parameters`, and `Bind` is the binder used in the lemmas.
- The default values of the `Position`, `DirectionType` and `Vector3` inputs and of the `Radius` float are `NotModelled`. Only the unsigned defaults (`Count` 64, `CountX/Y/Z` 8, `Index` 0) are kept.
- `compatibleContexts`, `compatibleData` and the `[VFXInfo]`, `[VFXSetting]`, `[SerializeField]` and `[Tooltip]` attributes are metadata, not logic.
- The `yield` sequences of `attributes` and `parameters` are lazy in the source. They are fully built sequences here, because no consumer relies on interleaving.
- `NotImplementedException` (line 180) is unreachable: the shape is a closed datatype and the builder's `match` is exhaustive.
- `VFXAttribute` is not part of this model. The attribute names `position` and `targetPosition` are the identifiers the emitted source text uses. The name `particleId` is the attribute's name in the graph, and no lemma depends on it.
- The initial values of the three setting fields (`Line`, `ParticleID`, `Next`) are not modelled: every member takes the settings as a parameter, so no behaviour depends on them.
- Repeated and concurrent calls give the same results because every member is a Dafny function; no lemma states this.
- com.unity.render-pipelines.high-definition/Editor/PostProcessing/SerializedGlobalPostProcessSettings.cs is serialized-property lookup glue with no behaviour to state.
