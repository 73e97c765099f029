/**
 * `CapturingConstruct`: a capturing group that may capture any span of the
 * user input as a string. Its matching pass runs over the input backwards,
 * keeping the end of the capturing group currently being grown, and for each
 * start position decides between skipping the group, continuing the group
 * up to that end, and closing the group so that a new one may start there.
 */
module CapturingConstructs {
  import opened Wrappers
  import opened Scoring
  import opened MatchHelpers

  /** `.name.`, with the weight a capture earns (by default nothing). */
  datatype CapturingConstruct = CapturingConstruct(name: string, weight: real)

  const DEFAULT_WEIGHT: real := 0.0

  /** `toString`: the name between two dots. */
  function ToString(c: CapturingConstruct): (s: string)
    ensures |s| == |c.name| + 2
    ensures s[0] == '.' && s[|s| - 1] == '.' && s[1..|s| - 1] == c.name
  {
    "." + c.name + "."
  }

  /** Two constructs print alike exactly when their names agree: the weight does not show. */
  lemma ToStringShowsNameOnly(a: CapturingConstruct, b: CapturingConstruct)
    ensures ToString(a) == ToString(b) <==> a.name == b.name
  {
    if ToString(a) == ToString(b) {
      var s := ToString(a);
      assert a.name == s[1..|s| - 1] == b.name;
    }
  }

  /**
   * What one matching pass reads: the score algebra, the cumulative weight and
   * whitespace tables of the input, and `memToEnd` as it was before the pass.
   */
  datatype Pass<!S, !D> = Pass(
    ops: ScoreOps<S, D>,
    cumulativeWeight: seq<real>,
    cumulativeWhitespace: seq<int>,
    original: seq<S>)
  {
    /** One slot per input position, plus one for the end of the input. */
    predicate Valid() {
      1 <= |original| && |cumulativeWeight| == |original| && |cumulativeWhitespace| == |original|
    }

    /** The length of the user input. */
    function InputLength(): nat
      requires Valid()
    {
      |original| - 1
    }

    /** Every character of `[start, end)` is whitespace. */
    predicate OnlyWhitespace(start: int, end: int)
      requires Valid() && 0 <= start <= end <= InputLength()
    {
      end - start == cumulativeWhitespace[end] - cumulativeWhitespace[start]
    }
  }

  /** Which way one start position went. */
  datatype Choice = SkipWhitespace | Skip | Continue

  /** The decision at one start position: the choice, the new `memToEnd` value and the group end after it. */
  datatype Step<S> = Step(choice: Choice, value: S, lastEnd: int)

  /** The score when the capturing group does not cover `start`. */
  function IfSkipping<S, D>(p: Pass<S, D>, c: CapturingConstruct, start: int): S
    requires p.Valid() && 0 <= start <= p.InputLength()
  {
    p.ops.plus(p.original[start], RefWeightOnly(c.weight))
  }

  /** The score when the capturing group captures `[start, end)`. */
  function IfContinuing<S, D>(p: Pass<S, D>, c: CapturingConstruct, start: int, end: int): S
    requires p.Valid() && 0 <= start <= end <= p.InputLength()
  {
    var userWeight := p.cumulativeWeight[end] - p.cumulativeWeight[start];
    p.ops.plus(p.original[end],
      Increment(userWeight, userWeight, c.weight, c.weight, Some(StringCapture(c.name, start, end))))
  }

  /** The score of the capturing group ending at `start`, with a new group beginning there. */
  function IfCreating<S, D>(p: Pass<S, D>, c: CapturingConstruct, start: int): S
    requires p.Valid() && 0 <= start <= p.InputLength()
  {
    p.ops.plus(p.original[start], Increment(0.0, 0.0, c.weight, c.weight, None))
  }

  /** One iteration of the backwards loop, at `start` with the group ending at `end`. */
  function Decide<S, D>(p: Pass<S, D>, c: CapturingConstruct, start: int, end: int): Step<S>
    requires p.Valid() && 0 <= start < end <= p.InputLength()
  {
    if p.OnlyWhitespace(start, end) then
      Step(SkipWhitespace, IfSkipping(p, c, start), end)
    else if p.ops.score(IfContinuing(p, c, start, end)) >= p.ops.score(IfSkipping(p, c, start)) then
      var newEnd :=
        if p.ops.score(IfCreating(p, c, start)) > p.ops.score(IfContinuing(p, c, start, end)) then start else end;
      Step(Continue, IfContinuing(p, c, start, end), newEnd)
    else
      Step(Skip, IfSkipping(p, c, start), start)
  }

  /**
   * The group end once the positions from the end of the input down to `k`
   * have been decided; it always lies after the next position to decide.
   */
  function LastEndFrom<S, D>(p: Pass<S, D>, c: CapturingConstruct, k: int): (e: int)
    requires p.Valid() && 0 <= k <= p.InputLength()
    ensures k <= e <= p.InputLength()
    decreases p.InputLength() - k
  {
    if k == p.InputLength() then p.InputLength()
    else Decide(p, c, k, LastEndFrom(p, c, k + 1)).lastEnd
  }

  /** The decision taken at start position `k`. */
  function StepAt<S, D>(p: Pass<S, D>, c: CapturingConstruct, k: int): Step<S>
    requires p.Valid() && 0 <= k < p.InputLength()
  {
    Decide(p, c, k, LastEndFrom(p, c, k + 1))
  }

  /** `memToEnd` after the pass (before `normalizeMemToEnd`). */
  function Result<S, D>(p: Pass<S, D>, c: CapturingConstruct): (r: seq<S>)
    requires p.Valid()
    ensures |r| == |p.original|
  {
    seq(|p.original|, i requires 0 <= i < |p.original| =>
      if i < p.InputLength() then StepAt(p, c, i).value
      else p.ops.plus(p.original[i], RefWeightOnly(c.weight)))
  }

  /** A position where a capturing group may end: the end of the input, or a position that closed a group. */
  predicate IsGroupEnd<S, D>(p: Pass<S, D>, c: CapturingConstruct, e: int)
    requires p.Valid() && 0 <= e <= p.InputLength()
  {
    e == p.InputLength() || LastEndFrom(p, c, e) == e
  }

  /**
   * What each start position gets: a span holding only whitespace is never
   * captured; otherwise the capture `[k, e)` up to the current group end is
   * taken when it scores at least as well as skipping (ties favour the
   * capture), and the group end moves to `k` only when skipping, or when
   * closing the group there would score strictly better.
   */
  lemma StepShape<S, D>(p: Pass<S, D>, c: CapturingConstruct, k: int)
    requires p.Valid() && 0 <= k < p.InputLength()
    ensures var e := LastEndFrom(p, c, k + 1);
      var d := StepAt(p, c, k);
      && k < e
      && (d.choice == SkipWhitespace <==> p.OnlyWhitespace(k, e))
      && (d.choice == Continue <==>
          !p.OnlyWhitespace(k, e) && p.ops.score(IfContinuing(p, c, k, e)) >= p.ops.score(IfSkipping(p, c, k)))
      && Result(p, c)[k] == (if d.choice == Continue then IfContinuing(p, c, k, e) else IfSkipping(p, c, k))
      && (LastEndFrom(p, c, k) == k <==>
          d.choice == Skip
          || (d.choice == Continue && p.ops.score(IfCreating(p, c, k)) > p.ops.score(IfContinuing(p, c, k, e))))
      && (LastEndFrom(p, c, k) != k ==> LastEndFrom(p, c, k) == e)
  {
  }

  /** The slot for the end of the input only gains the construct's reference weight. */
  lemma EndSlot<S, D>(p: Pass<S, D>, c: CapturingConstruct)
    requires p.Valid()
    ensures Result(p, c)[p.InputLength()] == p.ops.plus(p.original[p.InputLength()], RefWeightOnly(c.weight))
  {
  }

  /** The group end in force at any point is a place where a group may end. */
  lemma {:induction false} LastEndIsGroupEnd<S, D>(p: Pass<S, D>, c: CapturingConstruct, k: int)
    requires p.Valid() && 0 <= k <= p.InputLength()
    ensures IsGroupEnd(p, c, LastEndFrom(p, c, k))
    decreases p.InputLength() - k
  {
    if k < p.InputLength() && LastEndFrom(p, c, k) != k {
      LastEndIsGroupEnd(p, c, k + 1);
    }
  }

  /** Every position inside the group that `k` sees shares its end: one group, one end. */
  lemma {:induction false} GroupSharesEnd<S, D>(p: Pass<S, D>, c: CapturingConstruct, k: int, j: int)
    requires p.Valid() && 0 <= k <= p.InputLength() && k <= j < LastEndFrom(p, c, k)
    ensures LastEndFrom(p, c, j) == LastEndFrom(p, c, k)
    decreases j - k
  {
    if k < j {
      GroupSharesEnd(p, c, k + 1, j);
    }
  }

  /**
   * A capture is a non-empty span `[k, e)` that is not all whitespace, and it
   * runs up to a group end; no group end lies strictly inside it.
   */
  lemma CaptureSpansToGroupEnd<S, D>(p: Pass<S, D>, c: CapturingConstruct, k: int)
    requires p.Valid() && 0 <= k < p.InputLength()
    requires StepAt(p, c, k).choice == Continue
    ensures var e := LastEndFrom(p, c, k + 1);
      && k < e <= p.InputLength()
      && !p.OnlyWhitespace(k, e)
      && Result(p, c)[k] == IfContinuing(p, c, k, e)
      && IsGroupEnd(p, c, e)
      && (forall j :: k < j < e ==> LastEndFrom(p, c, j) == e)
  {
    var e := LastEndFrom(p, c, k + 1);
    LastEndIsGroupEnd(p, c, k + 1);
    forall j | k < j < e
      ensures LastEndFrom(p, c, j) == e
    {
      GroupSharesEnd(p, c, k + 1, j);
    }
  }

  /** The body of one iteration of `matchToEnd`: the value for `start` and the group end after it. */
  method DecideAt<S, D>(p: Pass<S, D>, c: CapturingConstruct, start: int, lastEnd: int) returns (value: S, newEnd: int)
    requires p.Valid() && 0 <= start < lastEnd <= p.InputLength()
    ensures value == Decide(p, c, start, lastEnd).value && newEnd == Decide(p, c, start, lastEnd).lastEnd
  {
    var userWeight := p.cumulativeWeight[lastEnd] - p.cumulativeWeight[start];
    var hasOnlyWhitespace := lastEnd - start == p.cumulativeWhitespace[lastEnd] - p.cumulativeWhitespace[start];

    var ifSkipping := p.ops.plus(p.original[start], RefWeightOnly(c.weight));
    newEnd := lastEnd;
    if hasOnlyWhitespace {
      value := ifSkipping;
    } else {
      var ifContinuing := p.ops.plus(p.original[lastEnd],
        Increment(userWeight, userWeight, c.weight, c.weight, Some(StringCapture(c.name, start, lastEnd))));
      if p.ops.score(ifContinuing) >= p.ops.score(ifSkipping) {
        value := ifContinuing;
        var ifCreating := p.ops.plus(p.original[start], Increment(0.0, 0.0, c.weight, c.weight, None));
        if p.ops.score(ifCreating) > p.ops.score(ifContinuing) {
          newEnd := start;
        }
      } else {
        newEnd := start;
        value := ifSkipping;
      }
    }
  }

  /** `matchToEnd`: the backwards pass over `memToEnd`, in place. */
  method MatchToEnd<S, D, V>(c: CapturingConstruct, ops: ScoreOps<S, D>, memToEnd: array<S>, helper: MatchHelper<V>)
    requires helper.Valid() && memToEnd.Length == |helper.userInput| + 1
    modifies memToEnd
    ensures memToEnd[..] ==
      Result(Pass(ops, helper.cumulativeWeight, helper.cumulativeWhitespace, old(memToEnd[..])), c)
  {
    var p := Pass(ops, helper.cumulativeWeight, helper.cumulativeWhitespace, memToEnd[..]);
    var n := |helper.userInput|;

    var lastEnd := n;
    var start := n;
    while start > 0
      invariant 0 <= start <= n
      invariant lastEnd == LastEndFrom(p, c, start)
      invariant forall j :: start <= j < n ==> memToEnd[j] == StepAt(p, c, j).value
      invariant forall j :: (0 <= j < start || j == n) ==> memToEnd[j] == p.original[j]
    {
      start := start - 1;
      var value;
      value, lastEnd := DecideAt(p, c, start, lastEnd);
      memToEnd[start] := value;
    }

    memToEnd[n] := ops.plus(memToEnd[n], RefWeightOnly(c.weight));
  }
}
