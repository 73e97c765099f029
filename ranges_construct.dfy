/**
 * `RangesConstruct`: a capturing group that only captures intervals of the
 * input that dicio-numbers parses into a value (a number, a duration, a date
 * and time). The intervals come through the match helper's cache; each one
 * offers a capture at its start slot, and the slot keeps the better score.
 */
module RangesConstructs {
  import opened Wrappers
  import opened Scoring
  import opened MatchHelpers

  /** One parsed interval `[start, end)` with its value, and whether no larger interval around it parses. */
  datatype PossibleRange<D> = PossibleRange(start: int, end: int, parsedData: D, largestPossible: bool)

  /**
   * A ranges construct. `simpleName` is the name of the concrete construct
   * class; `parse` stands for `parserParams(helper)?.parsePossibleIntervals()`,
   * which is `None` when dicio-numbers does not support the language.
   */
  datatype RangesConstruct<!D> = RangesConstruct(
    name: string,
    weight: real,
    bonusIfLargestPossible: real,
    simpleName: Option<string>,
    uniqueKeyForCaching: string,
    parse: string -> Option<seq<PossibleRange<D>>>)

  /** The reference weight that rules out every path through an unsupported construct. */
  const UNSUPPORTED_REF_WEIGHT: real := 1000000000.0

  /** Every interval lies within the input, whose length is `n`. */
  ghost predicate RangesFit<D>(ranges: seq<PossibleRange<D>>, n: int) {
    forall r :: r in ranges ==> 0 <= r.start <= n && 0 <= r.end <= n
  }

  ghost predicate PossibleFits<D>(possible: Option<seq<PossibleRange<D>>>, n: int) {
    possible.Some? ==> RangesFit(possible.value, n)
  }

  /** The reference weight a range earns: the bonus is added exactly when the range is largest-possible. */
  function RefWeightFor<D>(c: RangesConstruct<D>, r: PossibleRange<D>): (w: real)
    ensures r.largestPossible ==> w == c.weight + c.bonusIfLargestPossible
    ensures !r.largestPossible ==> w == c.weight
  {
    c.weight + (if r.largestPossible then c.bonusIfLargestPossible else 0.0)
  }

  /** The score of capturing range `r`, built from `memToEnd[r.end]` as it was before the pass. */
  function RangeOption<S, D>(ops: ScoreOps<S, D>, c: RangesConstruct<D>, cumulativeWeight: seq<real>,
                             original: seq<S>, r: PossibleRange<D>): S
    requires 0 <= r.start < |cumulativeWeight| && 0 <= r.end < |cumulativeWeight| && |original| == |cumulativeWeight|
  {
    var userWeight := cumulativeWeight[r.end] - cumulativeWeight[r.start];
    var refWeight := RefWeightFor(c, r);
    ops.plus(original[r.end],
      Increment(userWeight, userWeight, refWeight, refWeight, Some(ParsedDataCapture(c.name, r.start, r.end, r.parsedData))))
  }

  /** `mem` after the ranges have been tried in order, each at its start slot. */
  function ApplyRanges<S, D>(ops: ScoreOps<S, D>, c: RangesConstruct<D>, cumulativeWeight: seq<real>,
                             original: seq<S>, mem: seq<S>, ranges: seq<PossibleRange<D>>): (r: seq<S>)
    requires |original| == |cumulativeWeight| == |mem| && RangesFit(ranges, |mem| - 1)
    ensures |r| == |mem|
  {
    if |ranges| == 0 then mem
    else
      var prev := ApplyRanges(ops, c, cumulativeWeight, original, mem, ranges[..|ranges| - 1]);
      var last := ranges[|ranges| - 1];
      prev[last.start := ops.keepBest(RangeOption(ops, c, cumulativeWeight, original, last), prev[last.start])]
  }

  /** `memToEnd` after the pass (before `normalizeMemToEnd`), given the ranges found. */
  function Result<S, D>(ops: ScoreOps<S, D>, c: RangesConstruct<D>, cumulativeWeight: seq<real>,
                        original: seq<S>, possible: Option<seq<PossibleRange<D>>>): (r: seq<S>)
    requires 1 <= |original| == |cumulativeWeight| && PossibleFits(possible, |original| - 1)
    ensures |r| == |original|
  {
    if possible.None? then AddedEverywhere(ops, original, UNSUPPORTED_REF_WEIGHT)
    else if |possible.value| == 0 then AddedEverywhere(ops, original, c.weight)
    else ApplyRanges(ops, c, cumulativeWeight, original, AddedEverywhere(ops, original, c.weight), possible.value)
  }

  /** The ranges that start at slot `i`, in their original order. */
  ghost function StartingAt<D>(ranges: seq<PossibleRange<D>>, i: int): (rs: seq<PossibleRange<D>>)
    ensures |rs| <= |ranges|
    ensures forall k :: 0 <= k < |rs| ==> rs[k].start == i
    ensures forall r :: r in rs ==> r in ranges
  {
    if |ranges| == 0 then []
    else
      var last := ranges[|ranges| - 1];
      StartingAt(ranges[..|ranges| - 1], i) + (if last.start == i then [last] else [])
  }

  /** `acc` combined by `keepBest` with the capture of each range in turn. */
  ghost function BestOf<S, D>(ops: ScoreOps<S, D>, c: RangesConstruct<D>, cumulativeWeight: seq<real>,
                        original: seq<S>, acc: S, ranges: seq<PossibleRange<D>>): S
    requires |original| == |cumulativeWeight| && RangesFit(ranges, |original| - 1)
  {
    if |ranges| == 0 then acc
    else
      var last := ranges[|ranges| - 1];
      ops.keepBest(RangeOption(ops, c, cumulativeWeight, original, last),
        BestOf(ops, c, cumulativeWeight, original, acc, ranges[..|ranges| - 1]))
  }

  /** Slot `i` after the ranges: its value before them, combined with the captures of exactly the ranges starting at `i`. */
  lemma {:induction false} ApplyRangesAt<S, D>(ops: ScoreOps<S, D>, c: RangesConstruct<D>, cumulativeWeight: seq<real>,
                                                original: seq<S>, mem: seq<S>, ranges: seq<PossibleRange<D>>, i: int)
    requires |original| == |cumulativeWeight| == |mem| && RangesFit(ranges, |mem| - 1) && 0 <= i < |mem|
    ensures ApplyRanges(ops, c, cumulativeWeight, original, mem, ranges)[i]
         == BestOf(ops, c, cumulativeWeight, original, mem[i], StartingAt(ranges, i))
  {
    if |ranges| != 0 {
      var front := ranges[..|ranges| - 1];
      var last := ranges[|ranges| - 1];
      ApplyRangesAt(ops, c, cumulativeWeight, original, mem, front, i);
      var s := StartingAt(ranges, i);
      if last.start == i {
        assert s[..|s| - 1] == StartingAt(front, i);
      } else {
        assert s == StartingAt(front, i);
      }
    }
  }

  /**
   * Every slot after the pass: for an unsupported language the huge reference
   * weight; otherwise the construct's weight first, then the better of that
   * and the capture of each range starting at the slot (so a slot where no
   * range starts only gains the weight).
   */
  lemma ResultAt<S, D>(ops: ScoreOps<S, D>, c: RangesConstruct<D>, cumulativeWeight: seq<real>,
                       original: seq<S>, possible: Option<seq<PossibleRange<D>>>, i: int)
    requires 1 <= |original| == |cumulativeWeight| && PossibleFits(possible, |original| - 1)
    requires 0 <= i < |original|
    ensures possible.None? ==>
      Result(ops, c, cumulativeWeight, original, possible)[i] == ops.plus(original[i], RefWeightOnly(UNSUPPORTED_REF_WEIGHT))
    ensures possible.Some? ==>
      Result(ops, c, cumulativeWeight, original, possible)[i]
      == BestOf(ops, c, cumulativeWeight, original, ops.plus(original[i], RefWeightOnly(c.weight)), StartingAt(possible.value, i))
    ensures possible.Some? && |StartingAt(possible.value, i)| == 0 ==>
      Result(ops, c, cumulativeWeight, original, possible)[i] == ops.plus(original[i], RefWeightOnly(c.weight))
  {
    if possible.Some? && |possible.value| != 0 {
      ApplyRangesAt(ops, c, cumulativeWeight, original, AddedEverywhere(ops, original, c.weight), possible.value, i);
    }
  }

  /** The ranges the pass will use: the cached ones, or a fresh parse of the input. */
  function CachedOrParsed<D>(helper: MatchHelper<Option<seq<PossibleRange<D>>>>, c: RangesConstruct<D>): Option<seq<PossibleRange<D>>>
    reads helper
  {
    if c.uniqueKeyForCaching in helper.tokenizations then helper.tokenizations[c.uniqueKeyForCaching]
    else c.parse(helper.userInput)
  }

  /** `matchToEnd`: fetches the ranges through the cache, then updates `memToEnd` in place. */
  method MatchToEnd<S, D>(c: RangesConstruct<D>, ops: ScoreOps<S, D>, memToEnd: array<S>,
                          helper: MatchHelper<Option<seq<PossibleRange<D>>>>)
    requires helper.Valid() && memToEnd.Length == |helper.userInput| + 1
    requires PossibleFits(CachedOrParsed(helper, c), |helper.userInput|)
    modifies memToEnd, helper
    ensures helper.Valid()
    ensures helper.tokenizations == old(helper.tokenizations)[c.uniqueKeyForCaching := old(CachedOrParsed(helper, c))]
    ensures memToEnd[..] == Result(ops, c, helper.cumulativeWeight, old(memToEnd[..]), old(CachedOrParsed(helper, c)))
  {
    var possibleRanges := helper.GetOrTokenize(c.uniqueKeyForCaching, c.parse);
    if possibleRanges.None? {
      AddRefWeightEverywhere(ops, memToEnd, UNSUPPORTED_REF_WEIGHT);
      return;
    }
    var ranges := possibleRanges.value;
    if |ranges| == 0 {
      AddRefWeightEverywhere(ops, memToEnd, c.weight);
      return;
    }

    var originalMemToEnd := memToEnd[..];
    AddRefWeightEverywhere(ops, memToEnd, c.weight);
    TryRanges(c, ops, memToEnd, helper.cumulativeWeight, originalMemToEnd, ranges);
  }

  /**
   * The loop of `matchToEnd` over the ranges: each range offers its capture,
   * built from the slot at its end in `originalMemToEnd`, to the slot at its
   * start, which keeps the better of the two.
   */
  method TryRanges<S, D>(c: RangesConstruct<D>, ops: ScoreOps<S, D>, memToEnd: array<S>,
                         cumulativeWeight: seq<real>, originalMemToEnd: seq<S>, ranges: seq<PossibleRange<D>>)
    requires memToEnd.Length == |cumulativeWeight| == |originalMemToEnd|
    requires RangesFit(ranges, memToEnd.Length - 1)
    modifies memToEnd
    ensures memToEnd[..] == ApplyRanges(ops, c, cumulativeWeight, originalMemToEnd, old(memToEnd[..]), ranges)
  {
    ghost var added := memToEnd[..];
    for i := 0 to |ranges|
      invariant memToEnd[..] == ApplyRanges(ops, c, cumulativeWeight, originalMemToEnd, added, ranges[..i])
    {
      var r := ranges[i];
      var userWeight := cumulativeWeight[r.end] - cumulativeWeight[r.start];
      var refWeight := c.weight + (if r.largestPossible then c.bonusIfLargestPossible else 0.0);
      memToEnd[r.start] := ops.keepBest(
        ops.plus(originalMemToEnd[r.end],
          Increment(userWeight, userWeight, refWeight, refWeight, Some(ParsedDataCapture(c.name, r.start, r.end, r.parsedData)))),
        memToEnd[r.start]);
      assert ranges[..i + 1][..i] == ranges[..i];
    }
    assert ranges[..|ranges|] == ranges;
  }

  /** `removeSuffix`: drops `suffix` from the end of `s` when it is there. */
  function RemoveSuffix(s: string, suffix: string): (r: string)
    ensures |suffix| <= |s| && s[|s| - |suffix|..] == suffix ==> r + suffix == s
    ensures !(|suffix| <= |s| && s[|s| - |suffix|..] == suffix) ==> r == s
  {
    if |suffix| <= |s| && s[|s| - |suffix|..] == suffix then s[..|s| - |suffix|] else s
  }

  /** `toString`: `.name:Kind.`, the kind being the class name without `Construct` (or `null`). */
  function ToString<D>(c: RangesConstruct<D>): (s: string)
    ensures forall kind :: c.simpleName == Some(kind + "Construct") ==> s == "." + c.name + ":" + kind + "."
    ensures c.simpleName.None? ==> s == "." + c.name + ":null."
  {
    var kind := if c.simpleName.Some? then RemoveSuffix(c.simpleName.value, "Construct") else "null";
    "." + c.name + ":" + kind + "."
  }
}
