/**
 * The navigation skill's output: the place the user asked for, cleaned up
 * before it is handed to a map application. With a number parser, the
 * spoken place is split into text and numbers, the text is further split
 * into letter runs and single other characters, and the pieces are joined
 * back with the space between two single digits (or single letters) dropped.
 */
module Navigation {
  import opened Wrappers
  import opened Text

  /**
   * A dicio-numbers number: an integer (a Kotlin `Long`) or a decimal. A
   * decimal is kept as its rendering: floating point is not modelled.
   */
  datatype Number = Integer(value: int) | Decimal(rendered: string)

  /** An item of `mixedWithText`: text, a number, or any other object (described by its `toString`). */
  datatype Item = Str(text: string) | Num(number: Number) | Other(description: string)

  /** The skill's output: the cleaned place, or none when the query named no place. */
  datatype NavigationOutput = NavigationOutput(place: Option<string>)

  /** The message of the exception thrown for an item that is neither text nor a number. */
  function NotStringOrNumber(description: string): string {
    "Item " + description + " is neither String nor Number"
  }

  /** What `StringBuilder.append` writes for a number. */
  function NumberText(n: Number): string {
    match n
    case Integer(v) => IntToDecimal(v)
    case Decimal(r) => r
  }

  /**
   * `isSingleDigit`: text whose `length` is at most one, or an integer from
   * 0 to 9; any other item is an error. `length` counts UTF-16 units, so a
   * character outside the Basic Multilingual Plane is not single.
   */
  function IsSingleDigit(item: Item): (r: Result<bool, string>)
    ensures r.Success? <==> !item.Other?
    ensures r == Success(true) <==>
      (item.Str? && (item.text == [] || (|item.text| == 1 && item.text[0] as int < 0x1_0000)))
      || (item.Num? && item.number.Integer? && 0 <= item.number.value < 10)
  {
    match item
    case Str(t) =>
      Utf16LengthBounds(t);
      Success(Utf16Length(t) <= 1)
    case Num(n) => Success(n.Integer? && 0 <= n.value < 10)
    case Other(d) => Failure(NotStringOrNumber(d))
  }

  // ---------------------------------------------------------------------------
  // Tokenising text into letter runs and single other characters
  // ---------------------------------------------------------------------------

  /** The length of the longest prefix of `s` made of letters. */
  function LetterRun(s: string, isLetter: char -> bool): (n: nat)
    ensures n <= |s|
    ensures forall k :: 0 <= k < n ==> isLetter(s[k])
    ensures n < |s| ==> !isLetter(s[n])
  {
    if s == [] || !isLetter(s[0]) then 0
    else
      var rest := LetterRun(s[1..], isLetter);
      assert forall k :: 1 <= k < 1 + rest ==> s[k] == s[1..][k - 1];
      1 + rest
  }

  /**
   * The matches of `\p{L}+|[^\p{L}]` in order: maximal runs of letters and
   * single non-letters. Which characters are letters is a parameter, since
   * Unicode categories are not modelled.
   */
  function Tokens(s: string, isLetter: char -> bool): (ts: seq<string>)
    ensures forall j :: 0 <= j < |ts| ==> ts[j] != []
    decreases |s|
  {
    if s == [] then []
    else
      var n := LetterRun(s, isLetter);
      if n == 0 then [s[..1]] + Tokens(s[1..], isLetter)
      else [s[..n]] + Tokens(s[n..], isLetter)
  }

  function Concat(ts: seq<string>): string {
    if ts == [] then [] else ts[0] + Concat(ts[1..])
  }

  /** A token: a single non-letter, or a non-empty run of letters. */
  predicate IsToken(t: string, isLetter: char -> bool) {
    (|t| == 1 && !isLetter(t[0])) || (|t| >= 1 && forall k :: 0 <= k < |t| ==> isLetter(t[k]))
  }

  /** Joining the tokens back gives the text: tokenising drops and reorders nothing. */
  lemma {:induction false} TokensConcat(s: string, isLetter: char -> bool)
    ensures Concat(Tokens(s, isLetter)) == s
    decreases |s|
  {
    if s != [] {
      var n := LetterRun(s, isLetter);
      if n == 0 {
        TokensConcat(s[1..], isLetter);
        assert s == s[..1] + s[1..];
      } else {
        TokensConcat(s[n..], isLetter);
        assert s == s[..n] + s[n..];
      }
    }
  }

  /**
   * Every token is a single non-letter or a run of letters, and letter runs
   * are maximal: a letter run is never followed by a token starting with a
   * letter.
   */
  lemma {:induction false} TokensShape(s: string, isLetter: char -> bool)
    ensures forall j :: 0 <= j < |Tokens(s, isLetter)| ==> IsToken(Tokens(s, isLetter)[j], isLetter)
    ensures s != [] ==> |Tokens(s, isLetter)| > 0 && Tokens(s, isLetter)[0][0] == s[0]
    ensures forall j :: 0 <= j < |Tokens(s, isLetter)| - 1 && isLetter(Tokens(s, isLetter)[j][0]) ==>
      !isLetter(Tokens(s, isLetter)[j + 1][0])
    decreases |s|
  {
    if s != [] {
      var ts := Tokens(s, isLetter);
      var n := LetterRun(s, isLetter);
      var rest := if n == 0 then s[1..] else s[n..];
      TokensShape(rest, isLetter);
      assert ts[1..] == Tokens(rest, isLetter);
      forall j | 0 <= j < |ts| ensures IsToken(ts[j], isLetter) {
        if j > 0 {
          assert ts[j] == Tokens(rest, isLetter)[j - 1];
        }
      }
      forall j | 0 <= j < |ts| - 1 && isLetter(ts[j][0]) ensures !isLetter(ts[j + 1][0]) {
        if j > 0 {
          assert ts[j] == Tokens(rest, isLetter)[j - 1];
          assert ts[j + 1] == Tokens(rest, isLetter)[j];
        } else {
          assert n > 0 && rest == s[n..] && rest != [];
          assert ts[1][0] == rest[0] == s[n];
        }
      }
    }
  }

  // ---------------------------------------------------------------------------
  // Expanding the parser's output
  // ---------------------------------------------------------------------------

  function StrItems(ts: seq<string>): (items: seq<Item>)
    ensures |items| == |ts|
    ensures forall i :: 0 <= i < |ts| ==> items[i] == Str(ts[i])
  {
    seq(|ts|, i requires 0 <= i < |ts| => Str(ts[i]))
  }

  /** The `flatMap` over `mixedWithText`: each text is replaced by its tokens, each other item kept. */
  function Expand(items: seq<Item>, isLetter: char -> bool): seq<Item> {
    if items == [] then []
    else
      var head := if items[0].Str? then StrItems(Tokens(items[0].text, isLetter)) else [items[0]];
      head + Expand(items[1..], isLetter)
  }

  /** The text of an item as appended, with nothing dropped. */
  function ItemText(item: Item): string {
    match item
    case Str(t) => t
    case Num(n) => NumberText(n)
    case Other(d) => d
  }

  /** Every item's text, in order. */
  function Render(items: seq<Item>): string {
    if items == [] then [] else ItemText(items[0]) + Render(items[1..])
  }

  lemma {:induction false} RenderAppend(a: seq<Item>, b: seq<Item>)
    ensures Render(a + b) == Render(a) + Render(b)
  {
    if a == [] {
      assert a + b == b;
    } else {
      calc {
        Render(a + b);
        ItemText(a[0]) + Render((a + b)[1..]);
        { assert (a + b)[1..] == a[1..] + b; }
        ItemText(a[0]) + Render(a[1..] + b);
        { RenderAppend(a[1..], b); }
        ItemText(a[0]) + (Render(a[1..]) + Render(b));
      }
    }
  }

  lemma {:induction false} RenderStrItems(ts: seq<string>)
    ensures Render(StrItems(ts)) == Concat(ts)
  {
    if ts != [] {
      RenderStrItems(ts[1..]);
      assert StrItems(ts)[1..] == StrItems(ts[1..]);
    }
  }

  /** Expanding keeps the text: the items still spell out the same characters, and the same numbers, in order. */
  lemma {:induction false} ExpandKeepsRendering(items: seq<Item>, isLetter: char -> bool)
    ensures Render(Expand(items, isLetter)) == Render(items)
  {
    if items != [] {
      var head := if items[0].Str? then StrItems(Tokens(items[0].text, isLetter)) else [items[0]];
      ExpandKeepsRendering(items[1..], isLetter);
      RenderAppend(head, Expand(items[1..], isLetter));
      if items[0].Str? {
        RenderStrItems(Tokens(items[0].text, isLetter));
        TokensConcat(items[0].text, isLetter);
      } else {
        assert Render(head) == ItemText(items[0]);
      }
    }
  }

  // ---------------------------------------------------------------------------
  // Assembling the address
  // ---------------------------------------------------------------------------

  /**
   * What item `i` appends. A blank text strictly inside the list, between
   * two single-digit items, appends nothing; checking the neighbours can
   * fail like `isSingleDigit` does.
   */
  function Piece(items: seq<Item>, i: int): Result<string, string>
    requires 0 <= i < |items|
  {
    match items[i]
    case Str(t) =>
      if !(1 <= i < |items| - 1) then Success(t)
      else
        var prev := IsSingleDigit(items[i - 1]);
        if prev.Failure? then Failure(prev.error)
        else if !prev.value || !IsBlank(t) then Success(t)
        else
          var next := IsSingleDigit(items[i + 1]);
          if next.Failure? then Failure(next.error)
          else if next.value then Success("")
          else Success(t)
    case Num(n) => Success(NumberText(n))
    case Other(d) => Failure(NotStringOrNumber(d))
  }

  /** The builder's content after the first `k` items, or the first error. */
  function AssembledUpTo(items: seq<Item>, k: int): Result<string, string>
    requires 0 <= k <= |items|
  {
    if k == 0 then Success("")
    else
      var before := AssembledUpTo(items, k - 1);
      if before.Failure? then before
      else
        var piece := Piece(items, k - 1);
        if piece.Failure? then Failure(piece.error) else Success(before.value + piece.value)
  }

  /** The cleaned place: the assembled text trimmed of characters up to the space. */
  function CleanPlace(items: seq<Item>): Result<string, string> {
    var assembled := AssembledUpTo(items, |items|);
    if assembled.Failure? then Failure(assembled.error) else Success(TrimBy(assembled.value, AtMostSpace))
  }

  lemma {:induction false} FailurePersists(items: seq<Item>, k: int, m: int)
    requires 0 <= k <= m <= |items| && AssembledUpTo(items, k).Failure?
    ensures AssembledUpTo(items, m) == AssembledUpTo(items, k)
    decreases m - k
  {
    if k < m {
      FailurePersists(items, k, m - 1);
    }
  }

  /** The error case in both directions: assembling fails exactly when some item is neither text nor a number. */
  lemma {:induction false} FailsIffOther(items: seq<Item>, k: int)
    requires 0 <= k <= |items|
    ensures (exists i :: 0 <= i < k && items[i].Other?) ==> AssembledUpTo(items, k).Failure?
    ensures AssembledUpTo(items, k).Failure? ==> exists i :: 0 <= i < |items| && items[i].Other?
  {
    if k > 0 {
      FailsIffOther(items, k - 1);
      if AssembledUpTo(items, k - 1).Success? && Piece(items, k - 1).Failure? {
        var i := k - 1;
        if items[i].Str? {
          assert items[i - 1].Other? || items[i + 1].Other?;
        }
      }
    }
  }

  /** No blank text between two single-digit items, so nothing is dropped. */
  predicate NoDigitGaps(items: seq<Item>) {
    forall i :: 1 <= i < |items| - 1 && items[i].Str? && IsBlank(items[i].text) ==>
      IsSingleDigit(items[i - 1]) != Success(true) || IsSingleDigit(items[i + 1]) != Success(true)
  }

  /** Without such gaps and without foreign items, the builder holds every item's text in order. */
  lemma {:induction false} AssembledIsRendering(items: seq<Item>, k: int)
    requires 0 <= k <= |items| && NoDigitGaps(items)
    requires forall i :: 0 <= i < |items| ==> !items[i].Other?
    ensures AssembledUpTo(items, k) == Success(Render(items[..k]))
  {
    if k > 0 {
      AssembledIsRendering(items, k - 1);
      var last := items[k - 1];
      if last.Str? && 1 <= k - 1 < |items| - 1 && IsBlank(last.text) {
        assert IsSingleDigit(items[k - 2]) != Success(true) || IsSingleDigit(items[k]) != Success(true);
      }
      assert Piece(items, k - 1) == Success(ItemText(last));
      RenderAppend(items[..k - 1], [last]);
      assert Render([last]) == ItemText(last) + Render([last][1..]);
      assert Render([last]) == ItemText(last);
      assert items[..k] == items[..k - 1] + [last];
      assert Render(items[..k]) == Render(items[..k - 1]) + ItemText(last);
      assert AssembledUpTo(items, k) == Success(AssembledUpTo(items, k - 1).value + Piece(items, k - 1).value);
    }
  }

  /** The reference definition: the cleaned place is the trimmed rendering of the items. */
  lemma CleanPlaceIsTrimmedRendering(items: seq<Item>)
    requires NoDigitGaps(items)
    requires forall i :: 0 <= i < |items| ==> !items[i].Other?
    ensures CleanPlace(items) == Success(TrimBy(Render(items), AtMostSpace))
  {
    AssembledIsRendering(items, |items|);
    assert items[..|items|] == items;
  }

  /** A cleaned place neither starts nor ends with a character up to the space. */
  lemma CleanPlaceIsTrimmed(items: seq<Item>)
    requires CleanPlace(items).Success?
    ensures var p := CleanPlace(items).value;
      p == [] || (!AtMostSpace(p[0]) && !AtMostSpace(p[|p| - 1]))
  {
    var assembled := AssembledUpTo(items, |items|).value;
    TrimStartByShape(assembled, AtMostSpace);
    TrimEndByShape(TrimStartBy(assembled, AtMostSpace), AtMostSpace);
  }

  /** The assembly loop of `generateOutput`, building the address in a string builder. */
  method AssembleAddress(strNums: seq<Item>) returns (r: Result<string, string>)
    ensures r == CleanPlace(strNums)
  {
    var sb := "";
    for i := 0 to |strNums|
      invariant AssembledUpTo(strNums, i) == Success(sb)
    {
      var curr := strNums[i];
      if curr.Str? {
        var skip := false;
        if 1 <= i < |strNums| - 1 {
          var prev := IsSingleDigit(strNums[i - 1]);
          // the previous item has been appended already, so it is text or a number
          assert prev.Success?;
          if prev.value && IsBlank(curr.text) {
            var next := IsSingleDigit(strNums[i + 1]);
            if next.Failure? {
              FailurePersists(strNums, i + 1, |strNums|);
              return Failure(next.error);
            }
            skip := next.value;
          }
        }
        assert Piece(strNums, i) == Success(if skip then "" else curr.text);
        if !skip {
          sb := sb + curr.text;
        } else {
          assert sb + "" == sb;
        }
      } else if curr.Num? {
        if curr.number.Integer? {
          sb := sb + IntToDecimal(curr.number.value);
        } else {
          sb := sb + curr.number.rendered;
        }
      } else {
        FailurePersists(strNums, i + 1, |strNums|);
        return Failure(NotStringOrNumber(curr.description));
      }
    }
    r := Success(TrimBy(sb, AtMostSpace));
  }

  /**
   * `generateOutput`: no place gives an empty output; without a number
   * parser the place is only trimmed; otherwise the parser's items are
   * expanded and assembled. `parse` stands for the number parser's
   * `extractNumber(place).preferOrdinal(true).mixedWithText`.
   */
  method GenerateOutput(place: Option<string>, parse: Option<string -> seq<Item>>, isLetter: char -> bool)
    returns (r: Result<NavigationOutput, string>)
    ensures place.None? ==> r == Success(NavigationOutput(None))
    ensures place.Some? && parse.None? ==>
      r == Success(NavigationOutput(Some(TrimBy(place.value, AtMostSpace))))
    ensures place.Some? && parse.Some? ==>
      var clean := CleanPlace(Expand(parse.value(place.value), isLetter));
      r == if clean.Success? then Success(NavigationOutput(Some(clean.value))) else Failure(clean.error)
  {
    if place.None? {
      return Success(NavigationOutput(None));
    }
    if parse.None? {
      return Success(NavigationOutput(Some(TrimBy(place.value, AtMostSpace))));
    }
    var strNums := Expand(parse.value(place.value), isLetter);
    var clean := AssembleAddress(strNums);
    if clean.Failure? {
      return Failure(clean.error);
    }
    r := Success(NavigationOutput(Some(clean.value)));
  }
}
