/**
 * Greedy decoding of a Token-and-Duration Transducer (TDT): walks the
 * encoder frames, asks the decoder-joint network for token and duration
 * logits, emits non-blank tokens and skips ahead by the predicted duration.
 *
 * The decoder-joint network is an oracle `joint(frame, target, state)`; it
 * answers None when the inference call throws. Its two LSTM state buffers
 * are one value of the type parameter `S`.
 */
module TdtDecoding {
  import opened Wrappers
  import Text

  /** The most tokens the decoder may emit while staying on one encoder frame. */
  const MAX_TOKENS_PER_STEP: nat := 10

  /** What one decoder-joint call returns: the logits and the new LSTM state. */
  datatype JointOutput<S> = JointOutput(outputs: seq<real>, newState: S)

  datatype DecodeError =
    | JointFailed
      /** `copyOfRange(0, vocabSize)` on fewer than `vocabSize` logits throws. */
    | LogitsTooShort(outputCount: nat, vocabSize: nat)

  /** Kotlin's `Long.toInt()`: the low 32 bits as a signed value. */
  function ToInt32(x: int): (r: int)
    ensures Text.INT_MIN <= r <= Text.INT_MAX
    ensures (x - r) % 0x1_0000_0000 == 0
    ensures Text.INT_MIN <= x <= Text.INT_MAX ==> r == x
  {
    var m := x % 0x1_0000_0000;
    if m > Text.INT_MAX then m - 0x1_0000_0000 else m
  }

  /** `encodedLength.toInt().coerceAtMost(frameCount)`: the frame index the loop stops at. */
  function FrameBound(encodedLength: int, frameCount: nat): (r: int)
    ensures r <= frameCount && r <= ToInt32(encodedLength)
    ensures r == frameCount || r == ToInt32(encodedLength)
  {
    var n := ToInt32(encodedLength);
    if n <= frameCount then n else frameCount
  }

  /**
   * `indices.maxByOrNull { s[it] }` on a non-empty sequence: scans from the
   * left and keeps the earlier index on ties.
   */
  function ArgMax(s: seq<real>): (i: nat)
    requires |s| > 0
    ensures i < |s|
  {
    if |s| == 1 then 0
    else
      var k := ArgMax(s[..|s| - 1]);
      if s[k] < s[|s| - 1] then |s| - 1 else k
  }

  /** `ArgMax` picks a maximal element, and the first one when several are maximal. */
  lemma {:induction false} ArgMaxIsFirstMax(s: seq<real>)
    requires |s| > 0
    ensures forall j :: 0 <= j < |s| ==> s[j] <= s[ArgMax(s)]
    ensures forall j :: 0 <= j < ArgMax(s) ==> s[j] < s[ArgMax(s)]
  {
    if |s| > 1 {
      var p := s[..|s| - 1];
      ArgMaxIsFirstMax(p);
      assert forall j :: 0 <= j < |p| ==> s[j] == p[j];
    }
  }

  /** The decoding problem: frames, the loop bound, the blank id, the vocabulary size and the network. */
  datatype Decoder<!S> = Decoder(
    frames: seq<seq<real>>,
    maxT: int,
    blankIdx: int,
    vocabSize: nat,
    joint: (seq<real>, int, S) -> Option<JointOutput<S>>)

  /**
   * The loop variables: the frame index `t`, the tokens emitted on the
   * current frame, the LSTM state and the tokens so far; `frameOf[k]` records
   * the frame at which `tokens[k]` was emitted.
   */
  datatype Cursor<S> = Cursor(t: int, emitted: nat, state: S, tokens: seq<int>, frameOf: seq<int>)

  function Start<S>(init: S): Cursor<S> {
    Cursor(0, 0, init, [], [])
  }

  /** The target token fed to the network: the last emitted token, or blank before any. */
  function Target<S>(d: Decoder<S>, c: Cursor<S>): int {
    if c.tokens != [] then c.tokens[|c.tokens| - 1] else d.blankIdx
  }

  /** The greedy token: the first maximal token logit, or blank when there are no token logits. */
  function ChooseToken(tokenLogits: seq<real>, blankIdx: int): (token: int)
    ensures tokenLogits == [] ==> token == blankIdx
    ensures tokenLogits != [] ==> 0 <= token < |tokenLogits|
  {
    if tokenLogits == [] then blankIdx else ArgMax(tokenLogits)
  }

  /** The greedy duration: the first maximal duration logit, or -1 without a duration head. */
  function ChooseStep(durationLogits: seq<real>): (step: int)
    ensures durationLogits == [] <==> step == -1
    ensures durationLogits != [] ==> 0 <= step < |durationLogits|
  {
    if durationLogits == [] then -1 else ArgMax(durationLogits)
  }

  function Last(s: seq<int>): int
    requires |s| > 0
  {
    s[|s| - 1]
  }

  /**
   * The loop variables after one iteration that chose `token` and `step`:
   * a non-blank token is emitted and the state updated; a positive step
   * skips ahead, a blank or the per-frame cap moves to the next frame, and
   * otherwise the loop stays on the frame.
   */
  function Advance<S>(c: Cursor<S>, token: int, step: int, blankIdx: int, newState: S): Cursor<S> {
    var c1 :=
      if token != blankIdx
      then Cursor(c.t, c.emitted + 1, newState, c.tokens + [token], c.frameOf + [c.t])
      else c;
    if step > 0 then c1.(t := c.t + step, emitted := 0)
    else if token == blankIdx || c1.emitted >= MAX_TOKENS_PER_STEP then c1.(t := c.t + 1, emitted := 0)
    else c1
  }

  /** One iteration of the decoding loop. */
  function Step<S>(d: Decoder<S>, c: Cursor<S>): (r: Result<Cursor<S>, DecodeError>)
    requires 0 <= c.t < d.maxT <= |d.frames|
    ensures r.Failure? <==>
      match d.joint(d.frames[c.t], Target(d, c), c.state)
      case None => true
      case Some(out) => |out.outputs| < d.vocabSize
  {
    match d.joint(d.frames[c.t], Target(d, c), c.state)
    case None => Failure(JointFailed)
    case Some(out) =>
      if |out.outputs| < d.vocabSize then Failure(LogitsTooShort(|out.outputs|, d.vocabSize))
      else
        Success(Advance(c, ChooseToken(out.outputs[..d.vocabSize], d.blankIdx),
          ChooseStep(out.outputs[d.vocabSize..]), d.blankIdx, out.newState))
  }

  /**
   * Each iteration makes progress (the frame index grows and the counter
   * resets, or a token is emitted on this frame under the cap of ten), and
   * either emits nothing and keeps the state or emits one non-blank token
   * of the vocabulary and takes the decoder state the joint call returned.
   */
  lemma StepShape<S>(d: Decoder<S>, c: Cursor<S>)
    requires 0 <= c.t < d.maxT <= |d.frames|
    requires c.emitted < MAX_TOKENS_PER_STEP
    requires Step(d, c).Success?
    ensures var n := Step(d, c).value;
      ((n.t > c.t && n.emitted == 0) || (n.t == c.t && n.emitted == c.emitted + 1 < MAX_TOKENS_PER_STEP))
      && (n.tokens == c.tokens ==> n.t > c.t && n.frameOf == c.frameOf && n.state == c.state)
      && (n.tokens != c.tokens ==>
            |n.tokens| == |c.tokens| + 1 && n.tokens == c.tokens + [Last(n.tokens)]
            && Last(n.tokens) != d.blankIdx && 0 <= Last(n.tokens) < d.vocabSize
            && n.frameOf == c.frameOf + [c.t]
            && n.state == d.joint(d.frames[c.t], Target(d, c), c.state).value.newState)
  {
    var out := d.joint(d.frames[c.t], Target(d, c), c.state).value;
    var token := ChooseToken(out.outputs[..d.vocabSize], d.blankIdx);
    var n := Step(d, c).value;
    if token != d.blankIdx {
      assert n.tokens == c.tokens + [token];
      assert Last(n.tokens) == token;
    }
  }

  /** The whole loop, from cursor `c` until `t` reaches `maxT` or a call fails. */
  function Run<S>(d: Decoder<S>, c: Cursor<S>): Result<Cursor<S>, DecodeError>
    requires d.maxT <= |d.frames|
    requires 0 <= c.t && c.emitted < MAX_TOKENS_PER_STEP
    decreases d.maxT - c.t, MAX_TOKENS_PER_STEP - c.emitted
  {
    if c.t >= d.maxT then Success(c)
    else
      match Step(d, c)
      case Failure(e) => Failure(e)
      case Success(next) =>
        StepShape(d, c);
        Run(d, next)
  }

  // ---------------------------------------------------------------------------
  // Properties of the loop

  /** A token the decoder may emit: not blank and inside the vocabulary. */
  ghost predicate Emittable<S>(d: Decoder<S>, tok: int) {
    tok != d.blankIdx && 0 <= tok < d.vocabSize
  }

  ghost predicate AllEmittable<S>(d: Decoder<S>, tokens: seq<int>) {
    forall k :: 0 <= k < |tokens| ==> Emittable(d, tokens[k])
  }

  lemma AllEmittableCons<S>(d: Decoder<S>, tok: int, tokens: seq<int>)
    requires Emittable(d, tok) && AllEmittable(d, tokens)
    ensures AllEmittable(d, [tok] + tokens)
  {
    forall k | 0 <= k < |tokens| + 1 ensures Emittable(d, ([tok] + tokens)[k]) {
      if k > 0 {
        assert ([tok] + tokens)[k] == tokens[k - 1];
      }
    }
  }

  /** Every token emitted after `c` is non-blank and a valid vocabulary index; earlier tokens are kept. */
  lemma {:induction false} RunEmitsValidTokens<S>(d: Decoder<S>, c: Cursor<S>)
    requires d.maxT <= |d.frames|
    requires 0 <= c.t && c.emitted < MAX_TOKENS_PER_STEP
    requires Run(d, c).Success?
    ensures var r := Run(d, c).value;
      |c.tokens| <= |r.tokens| && r.tokens[..|c.tokens|] == c.tokens
      && AllEmittable(d, r.tokens[|c.tokens|..])
    decreases d.maxT - c.t, MAX_TOKENS_PER_STEP - c.emitted
  {
    if c.t < d.maxT {
      StepShape(d, c);
      var next := Step(d, c).value;
      assert Run(d, c) == Run(d, next);
      RunEmitsValidTokens(d, next);
      var r := Run(d, next).value;
      var n := |c.tokens|;
      if next.tokens != c.tokens {
        var tok := Last(next.tokens);
        assert r.tokens[..n + 1] == c.tokens + [tok];
        assert r.tokens[..n] == r.tokens[..n + 1][..n];
        assert r.tokens[n..] == [tok] + r.tokens[n + 1..];
        AllEmittableCons(d, tok, r.tokens[n + 1..]);
      }
    } else {
      assert c.tokens[|c.tokens|..] == [];
    }
  }

  /** The LSTM state changes only when a token is emitted: a run that emits nothing keeps the state. */
  lemma {:induction false} RunKeepsStateWithoutEmission<S>(d: Decoder<S>, c: Cursor<S>)
    requires d.maxT <= |d.frames|
    requires 0 <= c.t && c.emitted < MAX_TOKENS_PER_STEP
    requires Run(d, c).Success?
    ensures |Run(d, c).value.tokens| >= |c.tokens|
    ensures Run(d, c).value.tokens == c.tokens ==> Run(d, c).value.state == c.state
    decreases d.maxT - c.t, MAX_TOKENS_PER_STEP - c.emitted
  {
    if c.t < d.maxT {
      StepShape(d, c);
      var next := Step(d, c).value;
      RunKeepsStateWithoutEmission(d, next);
      if next.tokens != c.tokens {
        assert |next.tokens| == |c.tokens| + 1;
      }
    }
  }

  /** Bookkeeping of the emission trace at the loop head. */
  ghost predicate TraceInv<S>(d: Decoder<S>, c: Cursor<S>) {
    var f := c.frameOf;
    |f| == |c.tokens|
    && c.emitted <= |f|
    && (forall i :: 0 <= i < |f| ==> 0 <= f[i] < d.maxT)
    && (forall i :: 0 <= i < |f| - c.emitted ==> f[i] < c.t)
    && (forall i :: |f| - c.emitted <= i < |f| ==> f[i] == c.t)
    && FrameOrdered(f)
    && AtMostTenPerFrame(f)
  }

  /** Tokens are emitted in frame order. */
  ghost predicate FrameOrdered(f: seq<int>) {
    forall i, j :: 0 <= i < j < |f| ==> f[i] <= f[j]
  }

  /** Tokens ten or more positions apart come from different frames: no frame yields more than ten. */
  ghost predicate AtMostTenPerFrame(f: seq<int>) {
    forall i, j :: 0 <= i < j < |f| && j - i >= MAX_TOKENS_PER_STEP ==> f[i] < f[j]
  }

  lemma StepKeepsTraceInv<S>(d: Decoder<S>, c: Cursor<S>)
    requires 0 <= c.t < d.maxT <= |d.frames|
    requires c.emitted < MAX_TOKENS_PER_STEP
    requires TraceInv(d, c)
    requires Step(d, c).Success?
    ensures TraceInv(d, Step(d, c).value)
  {
    StepShape(d, c);
    var next := Step(d, c).value;
    var f, g := c.frameOf, next.frameOf;
    if g != f {
      assert g == f + [c.t];
      forall i, j | 0 <= i < j < |g| && j - i >= MAX_TOKENS_PER_STEP ensures g[i] < g[j] {
        if j == |f| {
          assert i < |f| - c.emitted;
        }
      }
    }
  }

  lemma {:induction false} RunKeepsTraceInv<S>(d: Decoder<S>, c: Cursor<S>)
    requires d.maxT <= |d.frames|
    requires 0 <= c.t && c.emitted < MAX_TOKENS_PER_STEP
    requires TraceInv(d, c)
    requires Run(d, c).Success?
    ensures TraceInv(d, Run(d, c).value)
    decreases d.maxT - c.t, MAX_TOKENS_PER_STEP - c.emitted
  {
    if c.t < d.maxT {
      StepShape(d, c);
      StepKeepsTraceInv(d, c);
      RunKeepsTraceInv(d, Step(d, c).value);
    }
  }

  /**
   * The decoder's result: the emitted tokens, or the error of the first
   * failing network call.
   */
  function Decode<S>(
    frames: seq<seq<real>>, encodedLength: int, blankIdx: int, vocabSize: nat,
    joint: (seq<real>, int, S) -> Option<JointOutput<S>>, init: S): (r: Result<seq<int>, DecodeError>)
  {
    var d := Decoder(frames, FrameBound(encodedLength, |frames|), blankIdx, vocabSize, joint);
    match Run(d, Start(init))
    case Failure(e) => Failure(e)
    case Success(c) => Success(c.tokens)
  }

  /** Nothing is decoded when the loop bound is zero or negative (including a wrapped-around length). */
  lemma DecodeEmptyWithoutFrames<S>(
    frames: seq<seq<real>>, encodedLength: int, blankIdx: int, vocabSize: nat,
    joint: (seq<real>, int, S) -> Option<JointOutput<S>>, init: S)
    requires FrameBound(encodedLength, |frames|) <= 0
    ensures Decode(frames, encodedLength, blankIdx, vocabSize, joint, init) == Success([])
  {
  }

  /**
   * The decoded tokens never contain blank, are all vocabulary indices, and
   * can be assigned to frames in order so that no frame yields more than ten.
   */
  lemma DecodeOutputProperties<S>(
    frames: seq<seq<real>>, encodedLength: int, blankIdx: int, vocabSize: nat,
    joint: (seq<real>, int, S) -> Option<JointOutput<S>>, init: S)
    requires Decode(frames, encodedLength, blankIdx, vocabSize, joint, init).Success?
    ensures var tokens := Decode(frames, encodedLength, blankIdx, vocabSize, joint, init).value;
      (forall k :: 0 <= k < |tokens| ==> tokens[k] != blankIdx && 0 <= tokens[k] < vocabSize)
      && exists frameOf: seq<int> :: |frameOf| == |tokens|
           && (forall k :: 0 <= k < |frameOf| ==> 0 <= frameOf[k] < |frames|)
           && FrameOrdered(frameOf) && AtMostTenPerFrame(frameOf)
  {
    var d := Decoder(frames, FrameBound(encodedLength, |frames|), blankIdx, vocabSize, joint);
    RunEmitsValidTokens(d, Start(init));
    RunKeepsTraceInv(d, Start(init));
    var c := Run(d, Start(init)).value;
    assert c.tokens[0..] == c.tokens;
    assert forall k :: 0 <= k < |c.frameOf| ==> 0 <= c.frameOf[k] < |frames|;
  }

  // ---------------------------------------------------------------------------
  // The loop as the source writes it

  /** `tdtGreedyDecode`: the while loop over frames, computing exactly `Decode`. */
  method TdtGreedyDecode<S>(
    frames: seq<seq<real>>, encodedLength: int, blankIdx: int, vocabSize: nat,
    joint: (seq<real>, int, S) -> Option<JointOutput<S>>, init: S) returns (r: Result<seq<int>, DecodeError>)
    ensures r == Decode(frames, encodedLength, blankIdx, vocabSize, joint, init)
  {
    var maxT := FrameBound(encodedLength, |frames|);
    ghost var d := Decoder(frames, maxT, blankIdx, vocabSize, joint);
    var state := init;
    var tokens: seq<int> := [];
    ghost var frameOf: seq<int> := [];
    var t := 0;
    var emittedTokens := 0;
    while t < maxT
      invariant 0 <= t && emittedTokens < MAX_TOKENS_PER_STEP
      invariant Run(d, Cursor(t, emittedTokens, state, tokens, frameOf)) == Run(d, Start(init))
      decreases maxT - t, MAX_TOKENS_PER_STEP - emittedTokens
    {
      ghost var before := Cursor(t, emittedTokens, state, tokens, frameOf);
      var targetToken := if |tokens| > 0 then tokens[|tokens| - 1] else blankIdx;
      assert targetToken == Target(d, before);
      var result := joint(frames[t], targetToken, state);
      if result.None? {
        assert Run(d, before) == Failure(JointFailed);
        return Failure(JointFailed);
      }
      var outputs := result.value.outputs;
      if |outputs| < vocabSize {
        assert Run(d, before) == Failure(LogitsTooShort(|outputs|, vocabSize));
        return Failure(LogitsTooShort(|outputs|, vocabSize));
      }
      var token := ChooseToken(outputs[..vocabSize], blankIdx);
      var step := ChooseStep(outputs[vocabSize..]);
      if token != blankIdx {
        state := result.value.newState;
        tokens := tokens + [token];
        frameOf := frameOf + [t];
        emittedTokens := emittedTokens + 1;
      }
      if step > 0 {
        t := t + step;
        emittedTokens := 0;
      } else if token == blankIdx || emittedTokens >= MAX_TOKENS_PER_STEP {
        t := t + 1;
        emittedTokens := 0;
      }
      assert Cursor(t, emittedTokens, state, tokens, frameOf) == Advance(before, token, step, blankIdx, result.value.newState);
      assert Step(d, before) == Success(Cursor(t, emittedTokens, state, tokens, frameOf));
      StepShape(d, before);
    }
    return Success(tokens);
  }
}
