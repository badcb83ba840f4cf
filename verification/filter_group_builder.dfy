/**
  `FilterGroupBuilder`: collects rule match filters, in the order they are
  added, into a filter group element. It has no checks: adding and building
  never fail.
 */
module FilterGroupBuilders {
  import opened RuleModel

  /** The state of a `FilterGroupBuilder`: the filters added so far, oldest first. */
  datatype FilterGroupBuilder = FilterGroupBuilder(filters: seq<FilterElement>)

  /** A new builder holds no filters. */
  function New(): (b: FilterGroupBuilder)
    ensures |b.filters| == 0
  {
    FilterGroupBuilder([])
  }

  /** Adds one filter after the ones already there. */
  function Filter(b: FilterGroupBuilder, filterType: FilterType, expression: LambdaExpression)
    : (r: FilterGroupBuilder)
    ensures |r.filters| == |b.filters| + 1
    ensures r.filters[..|b.filters|] == b.filters
    ensures r.filters[|b.filters|] == FilterElement(filterType, expression)
  {
    FilterGroupBuilder(b.filters + [FilterElement(filterType, expression)])
  }

  /**
    Builds the group element. The result type has no failure case, and the
    builder is an input only, so building twice from one state gives equal
    elements.
   */
  function Build(b: FilterGroupBuilder): (r: FilterGroupElement)
    ensures |r.filters| == |b.filters|
    ensures forall i :: 0 <= i < |b.filters| ==> r.filters[i] == b.filters[i]
  {
    FilterGroupElement(b.filters)
  }

  /** A `Filter` call a client makes. */
  datatype FilterCall = FilterCall(filterType: FilterType, expression: LambdaExpression)

  /** Runs the `Filter` calls in order from `b`. */
  function Run(b: FilterGroupBuilder, calls: seq<FilterCall>): FilterGroupBuilder
    decreases |calls|
  {
    if |calls| == 0 then b
    else Run(Filter(b, calls[0].filterType, calls[0].expression), calls[1..])
  }

  /** Reference definition: the filter element of each call, in call order. */
  function Expected(calls: seq<FilterCall>): (fs: seq<FilterElement>)
  {
    seq(|calls|, i requires 0 <= i < |calls| => FilterElement(calls[i].filterType, calls[i].expression))
  }

  /** Any sequence of `Filter` calls appends exactly their filters, in call order. */
  lemma {:induction false} RunAppendsInOrder(b: FilterGroupBuilder, calls: seq<FilterCall>)
    ensures Run(b, calls).filters == b.filters + Expected(calls)
    decreases |calls|
  {
    if |calls| > 0 {
      var b1 := Filter(b, calls[0].filterType, calls[0].expression);
      RunAppendsInOrder(b1, calls[1..]);
      assert Expected(calls) == [Expected(calls)[0]] + Expected(calls[1..]);
    }
  }

  /**
    Building after any sequence of `Filter` calls on a new builder gives the
    group of exactly those filters, in call order.
   */
  lemma BuildAfterRun(calls: seq<FilterCall>)
    ensures Build(Run(New(), calls)) == FilterGroupElement(Expected(calls))
  {
    RunAppendsInOrder(New(), calls);
  }
}
