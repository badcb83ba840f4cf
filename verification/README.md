# NRules element builders in Dafny

This project models three of the NRules rule-model element builders. Each one
is a small validating state machine. It collects sub-builders or filters and
then builds an immutable rule element:

- `NotBuilder` composes a NOT element (negative existential). It holds one
  source slot: a pattern, a group or a FORALL builder. A second source is
  refused, and so is building without one.
- `ForAllBuilder` composes a FORALL element from one base pattern and an
  ordered list of additional patterns. Each pattern is declared in a new child
  scope, and the base pattern's declaration is named `$$base$$`. Building
  needs the base pattern and at least one additional pattern.
- `FilterGroupBuilder` collects `(filter type, expression)` filters in the
  order they are added. It builds a filter group and never fails.

Each builder is an immutable datatype (`Option` slot, `seq` list). Each
operation is a pure function. A throwing operation returns
`Failure(BuildError)`, and the builder it was called on is still the current
state. An operation that returns a sub-builder returns the new state next to
that sub-builder. `Run` replays a call sequence the way a client that catches
each exception would, so the lemmas can talk about call sequences.

Several collaborators are not defined here: pattern and group builders, the
symbol table, and .NET types and expressions. .NET `Type`, `SymbolTable`,
`GroupType`, `FilterType`, `LambdaExpression`, `PatternElement` and
`GroupElement` are opaque types. These collaborators are passed in as functions:

- `RuleModel.ElementBuilds` builds pattern and group elements and may fail.
- `RuleModel.Scoping` provides `Scope.New()`, `SymbolTable.Declare` and
  `DeclarationName`.

Every property holds for every choice of these functions.

Modules: `Wrappers` (Option, Result, Outcome), `RuleModel` (shared types and
errors), `NotBuilders`, `ForAllBuilders`, `FilterGroupBuilders`.

The two builder files disagree in one place. `NotBuilder.ForAll()`
(src/NRules/NRules.RuleModel/Builders/NotBuilder.cs line 66) calls a
`ForAllBuilder` constructor with no arguments. `ForAllBuilder.cs` declares only
a constructor that takes a `SymbolTable` (line 14). The model follows
`ForAllBuilder.cs`: `NotBuilders.ForAll` takes the new builder's scope as a
parameter.

## Model

| member | source | states |
|---|---|---|
| NotBuilders.New | src/NRules/NRules.RuleModel/Builders/NotBuilder.cs:10-19 | a new NOT builder has no source |
| NotBuilders.AssertSingleSource | src/NRules/NRules.RuleModel/Builders/NotBuilder.cs:88-94 | the guard passes exactly when the slot is empty, and otherwise fails with the single-source error |
| NotBuilders.PatternWith | src/NRules/NRules.RuleModel/Builders/NotBuilder.cs:38-44 | succeeds iff no source is set; on success the source slot holds exactly the returned pattern builder, which carries the given declaration and no scope; otherwise fails with the single-source error |
| NotBuilders.Pattern | src/NRules/NRules.RuleModel/Builders/NotBuilder.cs:27-31 | same success/failure as `PatternWith`; the declaration has the given type and the name `DeclarationName` picks |
| NotBuilders.Group | src/NRules/NRules.RuleModel/Builders/NotBuilder.cs:51-57 | succeeds iff no source is set; on success the slot holds exactly the returned group builder of the given kind; otherwise the single-source error |
| NotBuilders.ForAll | src/NRules/NRules.RuleModel/Builders/NotBuilder.cs:63-69 | succeeds iff no source is set; on success the slot holds exactly the returned FORALL builder, which is empty; otherwise the single-source error |
| NotBuilders.ConfigureForAll | src/NRules/NRules.RuleModel/Builders/NotBuilder.cs:63-69 | calls a client makes on the FORALL builder `ForAll` returned change the stored source. The source stays a FORALL with the same scope and the slot stays set. Its patterns become the earlier ones followed by one per `Pattern` call, in call order. An empty base becomes the first `BasePattern` call's builder; an existing base is kept. A call returns normally iff it is a `Pattern` call, or a `BasePattern` call with no base before it |
| NotBuilders.BuildSource | src/NRules/NRules.RuleModel/Builders/NotBuilder.cs:74-75 | a source builds to an element of its own kind, and fails exactly when its sub-builder's build fails, with that error |
| NotBuilders.Build | src/NRules/NRules.RuleModel/Builders/NotBuilder.cs:71-86 | with no source: the source-missing error; with a source: a NOT element around the source's built element, or the source build's error |
| NotBuilders.BuildAfterRun | src/NRules/NRules.RuleModel/Builders/NotBuilder.cs:71-86 | after any source-setting calls on a new builder: with no calls, the source-missing error; else a NOT around what the first call's source builds, or that build's error |
| NotBuilders.Apply | src/NRules/NRules.RuleModel/Builders/NotBuilder.cs:38-69 | every source-setting call succeeds iff the slot is empty, and then sets the slot to the builder that call creates |
| NotBuilders.RunWithSource | src/NRules/NRules.RuleModel/Builders/NotBuilder.cs:88-94 | once a source is set, every later call fails and the builder is left unchanged |
| NotBuilders.RunOutcomes | src/NRules/NRules.RuleModel/Builders/NotBuilder.cs:38-69 | on any call sequence, a call succeeds iff it is the first call and the builder started empty; the final source is the one that first call set |
| NotBuilders.AtMostOneSource | src/NRules/NRules.RuleModel/Builders/NotBuilder.cs:38-69 | at most one source-setting call succeeds on any call sequence, and none does on a builder that already has a source |
| NotBuilders.PatternByTypeIsPatternByDeclaration | src/NRules/NRules.RuleModel/Builders/NotBuilder.cs:27-31 | `Pattern(type, name)` behaves exactly as `Pattern(declaration)` with the declaration made from that type and name |
| NotBuilders.BuildNotOverForAll | src/NRules/NRules.RuleModel/Builders/NotBuilder.cs:63-78 | for any calls made on the FORALL builder `ForAll` returned, the slot holds that builder after the calls. The NOT builds to a NOT of exactly its FORALL element, or fails with its error: base missing without a `BasePattern` call, no patterns without a `Pattern` call. On success, element i is the build of the i-th `Pattern` call's builder |
| ForAllBuilders.New | src/NRules/NRules.RuleModel/Builders/ForAllBuilder.cs:10-17 | a new FORALL builder keeps its scope and has no base pattern and no additional patterns |
| ForAllBuilders.RunKeepsIdentities | src/NRules/NRules.RuleModel/Builders/ForAllBuilder.cs:24-51 | over any call sequence the pattern builders stay distinct objects: no two additional patterns are equal, and none equals the base, even for the same type |
| ForAllBuilders.BasePattern | src/NRules/NRules.RuleModel/Builders/ForAllBuilder.cs:24-36 | succeeds iff no base pattern is set. It sets the base slot to the returned builder, declared as `$$base$$` in a new child scope. The new builder is distinct from the existing ones, and the pattern list and scope are kept. Otherwise it fails with the FORALL single-source error |
| ForAllBuilders.Pattern | src/NRules/NRules.RuleModel/Builders/ForAllBuilder.cs:43-51 | never fails; appends exactly the returned builder, declared without a name in a new child scope and distinct from the existing builders. The length grows by one; earlier patterns, the base slot and the scope are unchanged |
| ForAllBuilders.Validate | src/NRules/NRules.RuleModel/Builders/ForAllBuilder.cs:69-79 | passes iff a base pattern is set and at least one more pattern exists; the base-missing error wins over the no-patterns error |
| ForAllBuilders.BuildAll | src/NRules/NRules.RuleModel/Builders/ForAllBuilder.cs:59-63 | succeeds iff every pattern builds; the result then has one element per builder, in order; a failure reports the first failing builder's error |
| ForAllBuilders.Build | src/NRules/NRules.RuleModel/Builders/ForAllBuilder.cs:53-67 | no base: base-missing error even with no patterns; base but no patterns: no-patterns error. Otherwise it succeeds iff all sub-builds do, with the built base and element i built from pattern i. A failure reports the base's error first, then the first failing pattern's |
| ForAllBuilders.RunOutcomes | src/NRules/NRules.RuleModel/Builders/ForAllBuilder.cs:24-51 | on any call sequence every `Pattern` call succeeds. A `BasePattern` call succeeds iff the builder started without a base and no earlier call was `BasePattern` |
| ForAllBuilders.RunPatterns | src/NRules/NRules.RuleModel/Builders/ForAllBuilder.cs:43-51 | after any call sequence the pattern list is the starting list followed by one builder per `Pattern` call, in call order |
| ForAllBuilders.RunBase | src/NRules/NRules.RuleModel/Builders/ForAllBuilder.cs:24-36 | after any call sequence the base pattern is the starting one, or else the one from the first `BasePattern` call |
| ForAllBuilders.RunThenValidate | src/NRules/NRules.RuleModel/Builders/ForAllBuilder.cs:69-79 | after calls on a new builder, validation fails with base-missing if no `BasePattern` call was made, else with no-patterns if no `Pattern` call was made, else passes |
| FilterGroupBuilders.New | src/NRules/NRules.RuleModel/Builders/FilterGroupBuilder.cs:11-15 | a new filter group builder holds no filters |
| FilterGroupBuilders.Filter | src/NRules/NRules.RuleModel/Builders/FilterGroupBuilder.cs:22-26 | never fails; appends exactly one filter of the given type and expression at the end and keeps the earlier ones |
| FilterGroupBuilders.Build | src/NRules/NRules.RuleModel/Builders/FilterGroupBuilder.cs:28-32 | always succeeds, with the builder's filters in order; the builder is only an input, so building twice gives equal groups |
| FilterGroupBuilders.RunAppendsInOrder | src/NRules/NRules.RuleModel/Builders/FilterGroupBuilder.cs:22-26 | any sequence of `Filter` calls appends exactly their filters, in call order |
| FilterGroupBuilders.BuildAfterRun | src/NRules/NRules.RuleModel/Builders/FilterGroupBuilder.cs:28-32 | building after calls on a new builder gives exactly the filters of those calls in order |

## Left out

- The engine is not part of this model: the Rete network, agenda, working memory, session fire loop and linked-fact cascade. The builders do not depend on it.
- Pattern and group builder internals, `SymbolTable.New`/`Declare` and `DeclarationName`: these are function parameters, and nothing is assumed about what they return.
- Object identity: a pattern builder's identity is its creation ordinal within the element builder that created it, not a global object identity. `Scope.New()` receives the same ordinal, but the model does not promise that two child scopes are distinct.
- FilterGroupBuilders.Build: the built group is assumed to copy the filter list it is given. FilterGroupBuilder.cs:30 passes the builder's live list to the `FilterGroupElement` constructor, and that constructor is not part of this model. If the element kept the reference, a `Filter` call after `Build` would also change the group already built. The value model cannot express that.
- Configuration of sub-builders: the calls a client makes on a returned pattern or group builder (conditions, child elements) are not operations here. The build functions stand for the configured result. Calls on a returned FORALL builder are modelled, by `NotBuilders.ConfigureForAll`.
- Exception types and message texts: each message is one `BuildError` constructor.
- Expression trees, .NET `Type` reflection and the contents of built pattern and group elements are opaque.
