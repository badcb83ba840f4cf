/**
  `NotBuilder`: composes a NOT element (negative existential) over a single
  source, which is a pattern, a group or a FORALL element. The builder is a
  value holding an optional source slot.
 */
module NotBuilders {
  import opened Wrappers
  import opened RuleModel
  import ForAllBuilders

  /** The builder in the source slot, tagged with its kind. */
  datatype SourceBuilder =
    | PatternSource(pattern: PatternBuilder)
    | GroupSource(group: GroupBuilder)
    | ForAllSource(forAll: ForAllBuilders.ForAllBuilder)

  /** The state of a `NotBuilder`: the `SourceBuilder` slot, empty until a source is set. */
  datatype NotBuilder = NotBuilder(sourceBuilder: Option<SourceBuilder>)

  /** A new builder: no source yet. */
  function New(): (b: NotBuilder)
    ensures b.sourceBuilder.None?
  {
    NotBuilder(None)
  }

  /** The guard every source-setting operation runs before it changes anything. */
  function AssertSingleSource(b: NotBuilder): (o: Outcome<BuildError>)
    ensures o == Pass <==> b.sourceBuilder.None?
    ensures o.Fail? ==> o.error == NotSingleSource
  {
    if b.sourceBuilder.Some? then Fail(NotSingleSource) else Pass
  }

  /**
    Starts a pattern source with the given declaration. It is the only
    pattern builder a `NotBuilder` creates, so its identity is 0.
   */
  function PatternWith(b: NotBuilder, declaration: Declaration)
    : (r: Result<(NotBuilder, PatternBuilder), BuildError>)
    ensures r.Success? <==> b.sourceBuilder.None?
    ensures r.Failure? ==> r.error == NotSingleSource
    ensures r.Success? ==>
      && r.value.0.sourceBuilder == Some(PatternSource(r.value.1))
      && r.value.1.declaration == declaration
      && r.value.1.scope.None?
  {
    match AssertSingleSource(b)
    case Fail(e) => Failure(e)
    case Pass =>
      var p := PatternBuilder(0, None, declaration);
      Success((NotBuilder(Some(PatternSource(p))), p))
  }

  /**
    Starts a pattern source matching `typ`, declared under the name the
    scoping picks for the optional `name`.
   */
  function Pattern(b: NotBuilder, typ: ClrType, name: Option<string>, sc: Scoping)
    : (r: Result<(NotBuilder, PatternBuilder), BuildError>)
    ensures r.Success? <==> b.sourceBuilder.None?
    ensures r.Failure? ==> r.error == NotSingleSource
    ensures r.Success? ==>
      && r.value.0.sourceBuilder == Some(PatternSource(r.value.1))
      && r.value.1.declaration.typ == typ
      && r.value.1.declaration.name == sc.declarationName(name)
  {
    PatternWith(b, Declaration(typ, sc.declarationName(name)))
  }

  /** Starts a group source of the given kind. */
  function Group(b: NotBuilder, groupType: GroupType): (r: Result<(NotBuilder, GroupBuilder), BuildError>)
    ensures r.Success? <==> b.sourceBuilder.None?
    ensures r.Failure? ==> r.error == NotSingleSource
    ensures r.Success? ==>
      && r.value.0.sourceBuilder == Some(GroupSource(r.value.1))
      && r.value.1.groupType == groupType
  {
    match AssertSingleSource(b)
    case Fail(e) => Failure(e)
    case Pass =>
      var g := GroupBuilder(groupType);
      Success((NotBuilder(Some(GroupSource(g))), g))
  }

  /**
    Starts a FORALL source. NotBuilder.cs:66 calls a constructor without
    arguments that ForAllBuilder.cs does not declare, so the scope the new
    builder gets is a parameter here.
   */
  function ForAll(b: NotBuilder, scope: SymbolTable)
    : (r: Result<(NotBuilder, ForAllBuilders.ForAllBuilder), BuildError>)
    ensures r.Success? <==> b.sourceBuilder.None?
    ensures r.Failure? ==> r.error == NotSingleSource
    ensures r.Success? ==>
      && r.value.0.sourceBuilder == Some(ForAllSource(r.value.1))
      && r.value.1.basePattern.None? && |r.value.1.patterns| == 0
      && r.value.1.scope == scope
  {
    match AssertSingleSource(b)
    case Fail(e) => Failure(e)
    case Pass =>
      var f := ForAllBuilders.New(scope);
      Success((NotBuilder(Some(ForAllSource(f))), f))
  }

  /**
    The source slot holds the very FORALL builder `ForAll` returned, so the
    calls a client makes on that builder change the source. This runs them on
    the stored builder and reports which returned normally.
   */
  function ConfigureForAll(b: NotBuilder, calls: seq<ForAllBuilders.ForAllCall>, sc: Scoping)
    : (r: (NotBuilder, seq<bool>))
    requires b.sourceBuilder.Some? && b.sourceBuilder.value.ForAllSource?
    ensures r.0.sourceBuilder.Some? && r.0.sourceBuilder.value.ForAllSource?
    ensures AssertSingleSource(r.0) == Fail(NotSingleSource)
    ensures r.0.sourceBuilder.value.forAll.scope == b.sourceBuilder.value.forAll.scope
    ensures |r.1| == |calls|
    ensures
      var f := b.sourceBuilder.value.forAll;
      var f' := r.0.sourceBuilder.value.forAll;
      && |f'.patterns| >= |f.patterns|
      && f'.patterns[..|f.patterns|] == f.patterns
      && (f.basePattern.Some? ==> f'.basePattern == f.basePattern)
      && f'.patterns == f.patterns + ForAllBuilders.AddedPatterns(f.scope, ForAllBuilders.Created(f), f.basePattern.Some?, calls, sc)
      && (f.basePattern.None? ==> f'.basePattern == ForAllBuilders.FirstBase(f.scope, ForAllBuilders.Created(f), calls, sc))
      && forall i :: 0 <= i < |calls| ==>
           (r.1[i] <==> calls[i].PatternCall? || (f.basePattern.None? && ForAllBuilders.NoBaseCallBefore(calls, i)))
  {
    var f := b.sourceBuilder.value.forAll;
    ForAllBuilders.RunPatterns(f, calls, sc);
    ForAllBuilders.RunBase(f, calls, sc);
    ForAllBuilders.RunOutcomes(f, calls, sc);
    var (f', oks) := ForAllBuilders.Run(f, calls, sc);
    (NotBuilder(Some(ForAllSource(f'))), oks)
  }

  /** Builds the source element, keeping its kind; a sub-builder's failure is passed on. */
  function BuildSource(s: SourceBuilder, builds: ElementBuilds): (r: Result<RuleLeftElement, BuildError>)
    ensures s.PatternSource? ==>
      && (r.Success? <==> builds.pattern(s.pattern).Success?)
      && (r.Success? ==> r.value == PatternLeft(builds.pattern(s.pattern).value))
      && (r.Failure? ==> r.error == builds.pattern(s.pattern).error)
    ensures s.GroupSource? ==>
      && (r.Success? <==> builds.group(s.group).Success?)
      && (r.Success? ==> r.value == GroupLeft(builds.group(s.group).value))
      && (r.Failure? ==> r.error == builds.group(s.group).error)
    ensures s.ForAllSource? ==>
      var f := ForAllBuilders.Build(s.forAll, builds);
      && (r.Success? <==> f.Success?)
      && (r.Success? ==> r.value == ForAllLeft(f.value))
      && (r.Failure? ==> r.error == f.error)
  {
    match s
    case PatternSource(p) =>
      (match builds.pattern(p)
       case Success(e) => Success(PatternLeft(e))
       case Failure(err) => Failure(err))
    case GroupSource(g) =>
      (match builds.group(g)
       case Success(e) => Success(GroupLeft(e))
       case Failure(err) => Failure(err))
    case ForAllSource(f) =>
      (match ForAllBuilders.Build(f, builds)
       case Success(e) => Success(ForAllLeft(e))
       case Failure(err) => Failure(err))
  }

  /** Checks that a source was set, builds it, and wraps it in a NOT element. */
  function Build(b: NotBuilder, builds: ElementBuilds): (r: Result<NotElement, BuildError>)
    ensures b.sourceBuilder.None? ==> r == Failure(NotSourceMissing)
    ensures b.sourceBuilder.Some? ==>
      var s := BuildSource(b.sourceBuilder.value, builds);
      && (r.Success? <==> s.Success?)
      && (r.Success? ==> r.value.source == s.value)
      && (r.Failure? ==> r.error == s.error)
  {
    match b.sourceBuilder
    case None => Failure(NotSourceMissing)
    case Some(s) =>
      match BuildSource(s, builds)
      case Success(e) => Success(NotElement(e))
      case Failure(err) => Failure(err)
  }

  /** A source-setting call a client makes on a `NotBuilder`. */
  datatype SourceCall =
    | PatternCall(typ: ClrType, name: Option<string>)
    | PatternWithCall(declaration: Declaration)
    | GroupCall(groupType: GroupType)
    | ForAllCall(scope: SymbolTable)

  /** The builder a call would put in an empty slot. */
  function SourceOf(c: SourceCall, sc: Scoping): SourceBuilder
  {
    match c
    case PatternCall(t, n) => PatternSource(PatternBuilder(0, None, Declaration(t, sc.declarationName(n))))
    case PatternWithCall(d) => PatternSource(PatternBuilder(0, None, d))
    case GroupCall(g) => GroupSource(GroupBuilder(g))
    case ForAllCall(s) => ForAllSource(ForAllBuilders.New(s))
  }

  /** One call, dispatched to its operation; the returned builder is dropped. */
  function Apply(b: NotBuilder, c: SourceCall, sc: Scoping): (r: Result<NotBuilder, BuildError>)
    ensures r.Success? <==> b.sourceBuilder.None?
    ensures r.Failure? ==> r.error == NotSingleSource
    ensures r.Success? ==> r.value.sourceBuilder == Some(SourceOf(c, sc))
  {
    match c
    case PatternCall(t, n) =>
      (match Pattern(b, t, n, sc) case Success((b', _)) => Success(b') case Failure(e) => Failure(e))
    case PatternWithCall(d) =>
      (match PatternWith(b, d) case Success((b', _)) => Success(b') case Failure(e) => Failure(e))
    case GroupCall(g) =>
      (match Group(b, g) case Success((b', _)) => Success(b') case Failure(e) => Failure(e))
    case ForAllCall(s) =>
      (match ForAll(b, s) case Success((b', _)) => Success(b') case Failure(e) => Failure(e))
  }

  /**
    Runs `calls` in order from `b`, as a client that catches each exception
    and goes on would, and records which calls returned normally. A call that
    throws leaves the builder as it was.
   */
  function Run(b: NotBuilder, calls: seq<SourceCall>, sc: Scoping): (r: (NotBuilder, seq<bool>))
    ensures |r.1| == |calls|
    decreases |calls|
  {
    if |calls| == 0 then
      (b, [])
    else
      var (b1, ok) := match Apply(b, calls[0], sc)
                      case Success(b') => (b', true)
                      case Failure(_) => (b, false);
      var (bn, oks) := Run(b1, calls[1..], sc);
      (bn, [ok] + oks)
  }

  /** The number of calls that returned normally. */
  function Successes(oks: seq<bool>): nat
    decreases |oks|
  {
    if |oks| == 0 then 0 else (if oks[0] then 1 else 0) + Successes(oks[1..])
  }

  /** Once a source is set, every further call throws and the builder stays as it is. */
  lemma {:induction false} RunWithSource(b: NotBuilder, calls: seq<SourceCall>, sc: Scoping)
    requires b.sourceBuilder.Some?
    ensures Run(b, calls, sc).0 == b
    ensures forall i :: 0 <= i < |calls| ==> !Run(b, calls, sc).1[i]
    ensures Successes(Run(b, calls, sc).1) == 0
    decreases |calls|
  {
    if |calls| > 0 {
      RunWithSource(b, calls[1..], sc);
      var oks := Run(b, calls, sc).1;
      assert oks == [false] + Run(b, calls[1..], sc).1;
      assert oks[1..] == Run(b, calls[1..], sc).1;
    }
  }

  /**
    Over any call sequence exactly the first call on an empty builder
    succeeds, and the source is the one that call set; on a builder that has
    a source no call succeeds and the source stays.
   */
  lemma {:induction false} RunOutcomes(b: NotBuilder, calls: seq<SourceCall>, sc: Scoping)
    ensures forall i :: 0 <= i < |calls| ==>
      (Run(b, calls, sc).1[i] <==> i == 0 && b.sourceBuilder.None?)
    ensures Run(b, calls, sc).0 ==
      if b.sourceBuilder.None? && |calls| > 0 then NotBuilder(Some(SourceOf(calls[0], sc))) else b
  {
    if b.sourceBuilder.Some? {
      RunWithSource(b, calls, sc);
    } else if |calls| > 0 {
      var b1 := NotBuilder(Some(SourceOf(calls[0], sc)));
      assert Apply(b, calls[0], sc) == Success(b1);
      RunWithSource(b1, calls[1..], sc);
      var oks := Run(b, calls, sc).1;
      assert oks == [true] + Run(b1, calls[1..], sc).1;
      forall i | 1 <= i < |calls| ensures !oks[i] {
        assert oks[i] == Run(b1, calls[1..], sc).1[i - 1];
      }
    }
  }

  /** At most one source-setting call succeeds over any call sequence. */
  lemma {:induction false} AtMostOneSource(b: NotBuilder, calls: seq<SourceCall>, sc: Scoping)
    ensures Successes(Run(b, calls, sc).1) <= 1
    ensures b.sourceBuilder.Some? ==> Successes(Run(b, calls, sc).1) == 0
  {
    if b.sourceBuilder.Some? {
      RunWithSource(b, calls, sc);
    } else if |calls| > 0 {
      var b1 := NotBuilder(Some(SourceOf(calls[0], sc)));
      assert Apply(b, calls[0], sc) == Success(b1);
      RunWithSource(b1, calls[1..], sc);
      var oks := Run(b, calls, sc).1;
      assert oks[1..] == Run(b1, calls[1..], sc).1;
    }
  }

  /**
    Starting a pattern by type and name behaves, success and failure alike,
    as starting it with the declaration built from that type and name.
   */
  lemma PatternByTypeIsPatternByDeclaration(b: NotBuilder, typ: ClrType, name: Option<string>, sc: Scoping)
    ensures Apply(b, PatternCall(typ, name), sc)
         == Apply(b, PatternWithCall(Declaration(typ, sc.declarationName(name))), sc)
  {
  }

  /**
    Building after any source-setting calls on a new builder: with no call,
    the source-missing error; otherwise the NOT element around what the
    source the first call set builds, or that build's error.
   */
  lemma BuildAfterRun(calls: seq<SourceCall>, sc: Scoping, builds: ElementBuilds)
    ensures |calls| == 0 ==> Build(Run(New(), calls, sc).0, builds) == Failure(NotSourceMissing)
    ensures |calls| > 0 ==>
      var r := Build(Run(New(), calls, sc).0, builds);
      var s := BuildSource(SourceOf(calls[0], sc), builds);
      && (r.Success? <==> s.Success?)
      && (r.Success? ==> r.value == NotElement(s.value))
      && (r.Failure? ==> r.error == s.error)
  {
    RunOutcomes(New(), calls, sc);
  }

  /**
    End to end: a NOT over a FORALL that a client configured, through the
    builder `ForAll` returned, by any call sequence. The slot holds that
    builder after the calls, and the NOT builds to a NOT of exactly the
    FORALL element it builds, or fails with its error. The FORALL errors
    follow the calls: no `BasePattern` call, base missing; no `Pattern` call,
    no patterns. On success the base element is the build of the first
    `BasePattern` call's builder and element i the build of the i-th
    `Pattern` call's builder.
   */
  lemma BuildNotOverForAll(b: NotBuilder, scope: SymbolTable, calls: seq<ForAllBuilders.ForAllCall>,
                           sc: Scoping, builds: ElementBuilds)
    requires b.sourceBuilder.None?
    ensures
      var (n, f) := ForAll(b, scope).value;
      var m := ConfigureForAll(n, calls, sc).0;
      var fr := ForAllBuilders.Run(f, calls, sc).0;
      var fb := ForAllBuilders.Build(fr, builds);
      var r := Build(m, builds);
      var base := ForAllBuilders.FirstBase(scope, 0, calls, sc);
      var added := ForAllBuilders.AddedPatterns(scope, 0, false, calls, sc);
      && m.sourceBuilder == Some(ForAllSource(fr))
      && (r.Success? <==> fb.Success?)
      && (r.Success? ==> r.value == NotElement(ForAllLeft(fb.value)))
      && (r.Failure? ==> r.error == fb.error)
      && (base.None? ==> r == Failure(ForAllBaseMissing))
      && (base.Some? && |added| == 0 ==> r == Failure(ForAllNoPatterns))
      && (r.Success? ==>
            && Success(r.value.source.forAll.basePattern) == builds.pattern(base.value)
            && |r.value.source.forAll.patterns| == |added|
            && forall i :: 0 <= i < |added| ==>
                 builds.pattern(added[i]) == Success(r.value.source.forAll.patterns[i]))
  {
    var (n, f) := ForAll(b, scope).value;
    assert f == ForAllBuilders.New(scope);
    var fr := ForAllBuilders.Run(f, calls, sc).0;
    var m := ConfigureForAll(n, calls, sc).0;
    assert m.sourceBuilder == Some(ForAllSource(fr));
    ForAllBuilders.RunBase(f, calls, sc);
    ForAllBuilders.RunPatterns(f, calls, sc);
    var base := ForAllBuilders.FirstBase(scope, 0, calls, sc);
    var added := ForAllBuilders.AddedPatterns(scope, 0, false, calls, sc);
    assert fr.basePattern == base && fr.patterns == added;
  }
}
