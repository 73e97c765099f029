/**
 * The score algebra the intent-matching constructs work with. `StandardScore`
 * itself is not part of this model: its `plus`, `score` and `keepBest` are
 * supplied as functions, over any score type, with weights as reals.
 */
module Scoring {
  import opened Wrappers

  /**
   * What a capturing group captured: the interval `[start, end)` of the user
   * input, and for capturing groups backed by a parser the parsed value too.
   */
  datatype Capture<D> =
    | StringCapture(name: string, start: int, end: int)
    | ParsedDataCapture(name: string, start: int, end: int, parsedData: D)

  /** The named arguments of `StandardScore.plus`; an omitted weight is 0 and an omitted capture is null. */
  datatype Increment<D> = Increment(
    userMatched: real,
    userWeight: real,
    refMatched: real,
    refWeight: real,
    capturingGroup: Option<Capture<D>>)

  /** `plus(refWeight = w)`. */
  function RefWeightOnly<D>(w: real): Increment<D> {
    Increment(0.0, 0.0, 0.0, w, None)
  }

  /** `StandardScore.plus`, `StandardScore.score` and `StandardScore.keepBest`. */
  datatype ScoreOps<!S, !D> = ScoreOps(
    plus: (S, Increment<D>) -> S,
    score: S -> real,
    keepBest: (S, S) -> S)

  /** Every slot of `memToEnd` after `addRefWeightEverywhere(memToEnd, refWeight = w)`. */
  function AddedEverywhere<S, D>(ops: ScoreOps<S, D>, mem: seq<S>, w: real): (r: seq<S>)
    ensures |r| == |mem|
  {
    seq(|mem|, i requires 0 <= i < |mem| => ops.plus(mem[i], RefWeightOnly(w)))
  }

  /** `addRefWeightEverywhere`: adds a reference weight to every slot, in place. */
  method AddRefWeightEverywhere<S, D>(ops: ScoreOps<S, D>, memToEnd: array<S>, w: real)
    modifies memToEnd
    ensures memToEnd[..] == AddedEverywhere(ops, old(memToEnd[..]), w)
  {
    ghost var original := memToEnd[..];
    for i := 0 to memToEnd.Length
      invariant forall j :: 0 <= j < i ==> memToEnd[j] == ops.plus(original[j], RefWeightOnly(w))
      invariant forall j :: i <= j < memToEnd.Length ==> memToEnd[j] == original[j]
    {
      memToEnd[i] := ops.plus(memToEnd[i], RefWeightOnly(w));
    }
  }
}
