/**
  `ForAllBuilder`: composes a FORALL element from one base pattern and an
  ordered list of additional patterns, each declared in its own child scope of
  the builder's scope. The builder is a value; an operation that mutates the
  .NET object returns the builder's next state next to the pattern builder it
  hands back.
 */
module ForAllBuilders {
  import opened Wrappers
  import opened RuleModel

  /** The name under which the base pattern's fact is declared. */
  const BaseName: string := "$$base$$"

  datatype ForAllBuilder = ForAllBuilder(
    scope: SymbolTable,
    basePattern: Option<PatternBuilder>,
    patterns: seq<PatternBuilder>)

  /** A builder over `scope` with neither a base pattern nor additional patterns. */
  function New(scope: SymbolTable): (b: ForAllBuilder)
    ensures b.scope == scope
    ensures b.basePattern.None? && |b.patterns| == 0
    ensures DistinctIds(b)
  {
    ForAllBuilder(scope, None, [])
  }

  /**
    The number of pattern builders `b` has created: each `BasePattern` or
    `Pattern` call that returns normally creates exactly one, in a child scope
    of its own.
   */
  function Created(b: ForAllBuilder): nat
  {
    |b.patterns| + (if b.basePattern.Some? then 1 else 0)
  }

  /**
    The pattern builders of `b` are distinct objects: identities below
    `Created(b)`, no two additional patterns alike, none alike the base.
   */
  predicate DistinctIds(b: ForAllBuilder)
  {
    && (forall i :: 0 <= i < |b.patterns| ==> b.patterns[i].id < Created(b))
    && (b.basePattern.Some? ==> b.basePattern.value.id < Created(b))
    && (forall i, j :: 0 <= i < j < |b.patterns| ==> b.patterns[i].id != b.patterns[j].id)
    && (b.basePattern.Some? ==>
          forall i :: 0 <= i < |b.patterns| ==> b.patterns[i].id != b.basePattern.value.id)
  }

  /**
    The `id`-th pattern builder created over `scope`: a declaration of `typ`
    named `name`, in the child scope of the `id`-th `Scope.New()` call.
   */
  function ScopedPattern(scope: SymbolTable, id: nat, typ: ClrType, name: Option<string>, sc: Scoping): PatternBuilder
  {
    var child := sc.newChild(scope, id);
    PatternBuilder(id, Some(child), sc.declare(child, typ, name))
  }

  /**
    Starts the base pattern. Fails, without touching the builder, when a base
    pattern is already there.
   */
  function BasePattern(b: ForAllBuilder, typ: ClrType, sc: Scoping)
    : (r: Result<(ForAllBuilder, PatternBuilder), BuildError>)
    ensures r.Success? <==> b.basePattern.None?
    ensures r.Failure? ==> r.error == ForAllSingleSource
    ensures r.Success? ==>
      var (b', p) := r.value;
      && b'.basePattern == Some(p)
      && b'.patterns == b.patterns
      && b'.scope == b.scope
      && p.id == Created(b)
      && p.scope == Some(sc.newChild(b.scope, Created(b)))
      && p.declaration == sc.declare(sc.newChild(b.scope, Created(b)), typ, Some("$$base$$"))
      && (DistinctIds(b) ==> DistinctIds(b'))
  {
    if b.basePattern.Some? then
      Failure(ForAllSingleSource)
    else
      var p := ScopedPattern(b.scope, Created(b), typ, Some(BaseName), sc);
      Success((b.(basePattern := Some(p)), p))
  }

  /** Adds one more pattern, declared without a name; never fails. */
  function Pattern(b: ForAllBuilder, typ: ClrType, sc: Scoping): (r: (ForAllBuilder, PatternBuilder))
    ensures |r.0.patterns| == |b.patterns| + 1
    ensures r.0.patterns[..|b.patterns|] == b.patterns
    ensures r.0.patterns[|b.patterns|] == r.1
    ensures r.0.basePattern == b.basePattern && r.0.scope == b.scope
    ensures r.1.id == Created(b)
    ensures r.1.scope == Some(sc.newChild(b.scope, Created(b)))
    ensures r.1.declaration == sc.declare(sc.newChild(b.scope, Created(b)), typ, None)
    ensures DistinctIds(b) ==> DistinctIds(r.0)
  {
    var p := ScopedPattern(b.scope, Created(b), typ, None, sc);
    (b.(patterns := b.patterns + [p]), p)
  }

  /** The checks `Build` makes first: a base pattern, then at least one more pattern. */
  function Validate(b: ForAllBuilder): (o: Outcome<BuildError>)
    ensures o == Pass <==> b.basePattern.Some? && |b.patterns| >= 1
    ensures b.basePattern.None? ==> o == Fail(ForAllBaseMissing)
    ensures b.basePattern.Some? && |b.patterns| == 0 ==> o == Fail(ForAllNoPatterns)
  {
    if b.basePattern.None? then Fail(ForAllBaseMissing)
    else if |b.patterns| < 1 then Fail(ForAllNoPatterns)
    else Pass
  }

  /**
    Builds each pattern builder in order; the first failure stops the loop and
    is what the whole build reports.
   */
  function BuildAll(ps: seq<PatternBuilder>, build: PatternBuilder -> Result<PatternElement, BuildError>)
    : (r: Result<seq<PatternElement>, BuildError>)
    ensures r.Success? <==> forall i :: 0 <= i < |ps| ==> build(ps[i]).Success?
    ensures r.Success? ==>
      && |r.value| == |ps|
      && forall i :: 0 <= i < |ps| ==> build(ps[i]) == Success(r.value[i])
    ensures r.Failure? ==>
      exists i :: 0 <= i < |ps| && build(ps[i]) == Failure(r.error)
                  && forall j :: 0 <= j < i ==> build(ps[j]).Success?
    decreases |ps|
  {
    if |ps| == 0 then
      Success([])
    else
      match build(ps[0])
      case Failure(e) => Failure(e)
      case Success(x) =>
        match BuildAll(ps[1..], build)
        case Failure(e) =>
          Failure(e)
        case Success(xs) =>
          Success([x] + xs)
  }

  /**
    Validates, then builds the base pattern, then the additional patterns in
    order. The first failure is what the build reports: a validation error,
    else the base pattern's error, else the first failing pattern's error.
   */
  function Build(b: ForAllBuilder, builds: ElementBuilds): (r: Result<ForAllElement, BuildError>)
    ensures b.basePattern.None? ==> r == Failure(ForAllBaseMissing)
    ensures b.basePattern.Some? && |b.patterns| == 0 ==> r == Failure(ForAllNoPatterns)
    ensures r.Success? <==>
      && b.basePattern.Some? && |b.patterns| >= 1
      && builds.pattern(b.basePattern.value).Success?
      && forall i :: 0 <= i < |b.patterns| ==> builds.pattern(b.patterns[i]).Success?
    ensures r.Success? ==>
      && Success(r.value.basePattern) == builds.pattern(b.basePattern.value)
      && |r.value.patterns| == |b.patterns|
      && forall i :: 0 <= i < |b.patterns| ==> builds.pattern(b.patterns[i]) == Success(r.value.patterns[i])
    ensures b.basePattern.Some? && |b.patterns| >= 1 && builds.pattern(b.basePattern.value).Failure? ==>
      r == Failure(builds.pattern(b.basePattern.value).error)
    ensures b.basePattern.Some? && |b.patterns| >= 1 && builds.pattern(b.basePattern.value).Success? && r.Failure? ==>
      exists i :: 0 <= i < |b.patterns| && builds.pattern(b.patterns[i]) == Failure(r.error)
                  && forall j :: 0 <= j < i ==> builds.pattern(b.patterns[j]).Success?
  {
    match Validate(b)
    case Fail(e) => Failure(e)
    case Pass =>
      match builds.pattern(b.basePattern.value)
      case Failure(e) => Failure(e)
      case Success(baseElement) =>
        match BuildAll(b.patterns, builds.pattern)
        case Failure(e) => Failure(e)
        case Success(elements) => Success(ForAllElement(baseElement, elements))
  }

  /** A call a client makes on a `ForAllBuilder`. */
  datatype ForAllCall = BasePatternCall(typ: ClrType) | PatternCall(typ: ClrType)

  /** One call: its next state and whether it returned normally. A call that throws leaves the state as it was. */
  function Step(b: ForAllBuilder, c: ForAllCall, sc: Scoping): (ForAllBuilder, bool)
  {
    match c
    case BasePatternCall(t) =>
      (match BasePattern(b, t, sc)
       case Success((b', _)) => (b', true)
       case Failure(_) => (b, false))
    case PatternCall(t) =>
      (Pattern(b, t, sc).0, true)
  }

  /**
    Runs `calls` in order from `b`, as a client that catches each exception
    and goes on would, and records which calls returned normally.
   */
  function Run(b: ForAllBuilder, calls: seq<ForAllCall>, sc: Scoping): (r: (ForAllBuilder, seq<bool>))
    ensures |r.1| == |calls|
    decreases |calls|
  {
    if |calls| == 0 then
      (b, [])
    else
      var (b1, ok) := Step(b, calls[0], sc);
      var (bn, oks) := Run(b1, calls[1..], sc);
      (bn, [ok] + oks)
  }

  /** No `BasePattern` call among the first `n` calls. */
  predicate NoBaseCallBefore(calls: seq<ForAllCall>, n: nat)
    requires n <= |calls|
  {
    forall j :: 0 <= j < n ==> calls[j].PatternCall?
  }

  /**
    Reference definition: the pattern builders the `Pattern` calls create, in
    call order, when `created` pattern builders exist already and `hasBase`
    says whether a base pattern is set. A `BasePattern` call on a builder
    without a base creates one pattern builder too, so it moves the ordinal on.
   */
  function AddedPatterns(scope: SymbolTable, created: nat, hasBase: bool, calls: seq<ForAllCall>, sc: Scoping)
    : seq<PatternBuilder>
    decreases |calls|
  {
    if |calls| == 0 then []
    else if calls[0].PatternCall? then
      [ScopedPattern(scope, created, calls[0].typ, None, sc)] + AddedPatterns(scope, created + 1, hasBase, calls[1..], sc)
    else if hasBase then
      AddedPatterns(scope, created, true, calls[1..], sc)
    else
      AddedPatterns(scope, created + 1, true, calls[1..], sc)
  }

  /**
    Reference definition: the base pattern builder of the first `BasePattern`
    call, if any, on a builder without a base that has created `created`
    pattern builders.
   */
  function FirstBase(scope: SymbolTable, created: nat, calls: seq<ForAllCall>, sc: Scoping): Option<PatternBuilder>
    decreases |calls|
  {
    if |calls| == 0 then None
    else if calls[0].BasePatternCall? then Some(ScopedPattern(scope, created, calls[0].typ, Some(BaseName), sc))
    else FirstBase(scope, created + 1, calls[1..], sc)
  }

  /**
    Every `Pattern` call returns normally; a `BasePattern` call returns
    normally exactly when no base pattern was there at the start and no
    earlier call was a `BasePattern` call.
   */
  lemma {:induction false} RunOutcomes(b: ForAllBuilder, calls: seq<ForAllCall>, sc: Scoping)
    ensures forall i :: 0 <= i < |calls| ==>
      (Run(b, calls, sc).1[i] <==>
        calls[i].PatternCall? || (b.basePattern.None? && NoBaseCallBefore(calls, i)))
    decreases |calls|
  {
    if |calls| > 0 {
      var (b1, ok) := Step(b, calls[0], sc);
      RunOutcomes(b1, calls[1..], sc);
      var oks := Run(b, calls, sc).1;
      forall i | 0 <= i < |calls|
        ensures oks[i] <==> calls[i].PatternCall? || (b.basePattern.None? && NoBaseCallBefore(calls, i))
      {
        if i > 0 {
          assert oks[i] == Run(b1, calls[1..], sc).1[i - 1];
          assert calls[1..][i - 1] == calls[i];
          if calls[0].BasePatternCall? {
            assert b1.basePattern.Some? || !ok;
            assert !NoBaseCallBefore(calls, i);
          } else {
            assert b1.basePattern == b.basePattern;
            assert NoBaseCallBefore(calls, i) <==> NoBaseCallBefore(calls[1..], i - 1) by {
              if NoBaseCallBefore(calls[1..], i - 1) {
                forall j | 0 <= j < i ensures calls[j].PatternCall? {
                  if j > 0 { assert calls[j] == calls[1..][j - 1]; }
                }
              }
              if NoBaseCallBefore(calls, i) {
                forall j | 0 <= j < i - 1 ensures calls[1..][j].PatternCall? {
                  assert calls[1..][j] == calls[j + 1];
                }
              }
            }
          }
        }
      }
    }
  }

  /**
    After any call sequence the additional patterns are the ones there at the
    start followed by one per `Pattern` call, in call order, and the scope is
    unchanged.
   */
  lemma {:induction false} RunPatterns(b: ForAllBuilder, calls: seq<ForAllCall>, sc: Scoping)
    ensures Run(b, calls, sc).0.patterns ==
      b.patterns + AddedPatterns(b.scope, Created(b), b.basePattern.Some?, calls, sc)
    ensures Run(b, calls, sc).0.scope == b.scope
    decreases |calls|
  {
    if |calls| > 0 {
      var (b1, ok) := Step(b, calls[0], sc);
      RunPatterns(b1, calls[1..], sc);
      if calls[0].PatternCall? {
        assert b1.patterns == b.patterns + [ScopedPattern(b.scope, Created(b), calls[0].typ, None, sc)];
      }
    }
  }

  /**
    After any call sequence the base pattern is the one there at the start,
    or else the one the first `BasePattern` call created.
   */
  lemma {:induction false} RunBase(b: ForAllBuilder, calls: seq<ForAllCall>, sc: Scoping)
    ensures b.basePattern.Some? ==> Run(b, calls, sc).0.basePattern == b.basePattern
    ensures b.basePattern.None? ==> Run(b, calls, sc).0.basePattern == FirstBase(b.scope, Created(b), calls, sc)
    decreases |calls|
  {
    if |calls| > 0 {
      var (b1, ok) := Step(b, calls[0], sc);
      RunBase(b1, calls[1..], sc);
      assert b1.scope == b.scope;
    }
  }

  /**
    What `Build` reports after any call sequence on a new builder: the missing
    base pattern when no `BasePattern` call was made (whatever the patterns),
    else the missing patterns when no `Pattern` call was made, else it passes
    validation.
   */
  lemma RunThenValidate(scope: SymbolTable, calls: seq<ForAllCall>, sc: Scoping)
    ensures Validate(Run(New(scope), calls, sc).0) ==
      if FirstBase(scope, 0, calls, sc).None? then Fail(ForAllBaseMissing)
      else if |AddedPatterns(scope, 0, false, calls, sc)| == 0 then Fail(ForAllNoPatterns)
      else Pass
  {
    RunBase(New(scope), calls, sc);
    RunPatterns(New(scope), calls, sc);
  }

  /**
    Pattern builders stay distinct objects over any call sequence: two
    `Pattern` calls for the same type give two builders, which a client
    configures separately.
   */
  lemma {:induction false} RunKeepsIdentities(b: ForAllBuilder, calls: seq<ForAllCall>, sc: Scoping)
    requires DistinctIds(b)
    ensures DistinctIds(Run(b, calls, sc).0)
    decreases |calls|
  {
    if |calls| > 0 {
      var (b1, ok) := Step(b, calls[0], sc);
      assert DistinctIds(b1);
      RunKeepsIdentities(b1, calls[1..], sc);
    }
  }
}
