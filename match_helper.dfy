/**
 * The per-input matching context: the user input, its cumulative word
 * weights and whitespace counts (computed by helpers that are not part of
 * this model, so they are given), and a memo of tokenizations keyed by
 * string.
 */
module MatchHelpers {

  class MatchHelper<V> {
    const userInput: string
    /** `cumulativeWeight[i]`: the weight of the words before position `i`. */
    const cumulativeWeight: seq<real>
    /** `cumulativeWhitespace[i]`: the number of whitespace characters before position `i`. */
    const cumulativeWhitespace: seq<int>
    /** The memo; a value of `V` may itself stand for null, which is stored like any other. */
    var tokenizations: map<string, V>
    /** The keys the tokenizer ran for, in order. */
    ghost var tokenized: seq<string>

    /** The tables cover every position, and the tokenizer ran exactly once for each stored key. */
    ghost predicate Valid()
      reads this
    {
      |cumulativeWeight| == |userInput| + 1
      && |cumulativeWhitespace| == |userInput| + 1
      && (forall k :: k in tokenizations <==> k in tokenized)
      && (forall i, j :: 0 <= i < j < |tokenized| ==> tokenized[i] != tokenized[j])
    }

    constructor(userInput: string, cumulativeWeight: seq<real>, cumulativeWhitespace: seq<int>)
      requires |cumulativeWeight| == |userInput| + 1 && |cumulativeWhitespace| == |userInput| + 1
      ensures Valid()
      ensures this.userInput == userInput && this.cumulativeWeight == cumulativeWeight
      ensures this.cumulativeWhitespace == cumulativeWhitespace
      ensures tokenizations == map[]
    {
      this.userInput := userInput;
      this.cumulativeWeight := cumulativeWeight;
      this.cumulativeWhitespace := cumulativeWhitespace;
      tokenizations := map[];
      tokenized := [];
    }

    /**
     * `getOrTokenize`: a stored value (null included) is returned as is and
     * the memo is left alone; for a new key the tokenizer runs once and its
     * result is stored, every other entry unchanged.
     */
    method GetOrTokenize(key: string, tokenizer: string -> V) returns (r: V)
      requires Valid()
      modifies this
      ensures Valid()
      ensures key in old(tokenizations) ==>
        r == old(tokenizations)[key] && tokenizations == old(tokenizations) && tokenized == old(tokenized)
      ensures key !in old(tokenizations) ==>
        r == tokenizer(userInput) && tokenizations == old(tokenizations)[key := r]
        && tokenized == old(tokenized) + [key]
    {
      if key in tokenizations {
        return tokenizations[key];
      }
      r := tokenizer(userInput);
      tokenizations := tokenizations[key := r];
      tokenized := tokenized + [key];
    }
  }
}
