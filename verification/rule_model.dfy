/**
  The parts of the NRules rule model that the element builders handle but do
  not define. .NET types, symbol tables, group and filter kinds, lambda
  expressions and the elements built by pattern and group builders are opaque.
  Pattern builds, group builds, scope creation and declaration come from
  collaborators this model cannot see, so callers pass them in as functions.
  Every property proved about the builders holds for every choice of them.
 */
module RuleModel {
  import opened Wrappers

  /** A .NET `Type`: the type of fact a pattern matches. */
  type ClrType(==)

  /** A declaration scope: a handle on a `SymbolTable`. */
  type SymbolTable(==)

  /** The kind of a group (AND / OR), `GroupType`. */
  type GroupType(==)

  /** The kind of a rule match filter, `FilterType`. */
  type FilterType(==)

  /** A filter condition: a .NET expression tree. */
  type LambdaExpression(==)

  /** The element a pattern builder builds. */
  type PatternElement(==)

  /** The element a group builder builds. */
  type GroupElement(==)

  /** A named, typed binding introduced by a pattern. */
  datatype Declaration = Declaration(typ: ClrType, name: string)

  /**
    A pattern builder, as created by an element builder: its identity, the
    scope it was given (none, for the constructor that takes only a
    declaration) and the declaration it binds. The identity `id` is the
    ordinal of the builder among the pattern builders its element builder
    created, so two pattern builders one element builder created are never
    equal, even when they match the same type.
   */
  datatype PatternBuilder = PatternBuilder(id: nat, scope: Option<SymbolTable>, declaration: Declaration)

  /** A group builder, as created by an element builder: its group kind. */
  datatype GroupBuilder = GroupBuilder(groupType: GroupType)

  /** Universal quantification: every base match has matches for all patterns. */
  datatype ForAllElement = ForAllElement(basePattern: PatternElement, patterns: seq<PatternElement>)

  /** The element a left-hand-side source builder builds. */
  datatype RuleLeftElement =
    | PatternLeft(pattern: PatternElement)
    | GroupLeft(group: GroupElement)
    | ForAllLeft(forAll: ForAllElement)

  /** Negative existential quantification over one source element. */
  datatype NotElement = NotElement(source: RuleLeftElement)

  /** One rule match filter. */
  datatype FilterElement = FilterElement(filterType: FilterType, expression: LambdaExpression)

  /** An ordered group of rule match filters. */
  datatype FilterGroupElement = FilterGroupElement(filters: seq<FilterElement>)

  /** The `InvalidOperationException`s the element builders throw, one per message. */
  datatype BuildError =
      /** "NOT element can only have a single source" */
    | NotSingleSource
      /** "NOT element source is not provided" */
    | NotSourceMissing
      /** "FORALL element can only have a single source" */
    | ForAllSingleSource
      /** "FORALL element base pattern is not provided" */
    | ForAllBaseMissing
      /** "At least one additional FORALL pattern must be specified" */
    | ForAllNoPatterns
      /** An error thrown by a pattern or group builder outside this model */
    | SubBuilderError(message: string)

  /**
    How the pattern and group builders outside this model build their
    elements. A client configures a sub-builder (its conditions, its
    children) through the reference the element builder returned; that
    configuration is not modelled as operations. These functions stand for
    the element each sub-builder builds once configured, and since a pattern
    builder carries its identity they may give different elements for
    different pattern builders of the same type.
   */
  datatype ElementBuilds = ElementBuilds(
    pattern: PatternBuilder -> Result<PatternElement, BuildError>,
    group: GroupBuilder -> Result<GroupElement, BuildError>)

  /**
    The scope machinery of `RuleElementBuilder` and `SymbolTable`:
    `Scope.New()`, here given the ordinal of the call among the calls one
    element builder makes; `scope.Declare(type, name)` with an optional
    name; and `DeclarationName(name)`, which picks the name of a declaration
    made without a scope.
   */
  datatype Scoping = Scoping(
    newChild: (SymbolTable, nat) -> SymbolTable,
    declare: (SymbolTable, ClrType, Option<string>) -> Declaration,
    declarationName: Option<string> -> string)
}
