/**
 * The sentences compiler plugin's code generation: each construct of a
 * compiled sentence becomes a KotlinPoet `CodeBlock`, a format string whose
 * `%T`, `%S` and `%L` placeholders are filled, in order, by a type, a string
 * and a literal (a boolean, a float or a nested code block).
 */
module GenerateConstructs {
  import opened Wrappers
  import opened CaptureUtils

  /** A construct produced by the sentences compiler. */
  datatype Construct =
    | Word(normalizedValue: string, isDiacriticsSensitive: bool)
      /** `javaRegex` is what `toJavaRegex()` yields for the word's variations. */
    | WordWithVariations(javaRegex: string, isDiacriticsSensitive: bool)
    | OrList(constructs: seq<Construct>)
    | OptionalConstruct
    | CapturingGroup(name: string)
    | SentenceConstructList(constructs: seq<Construct>)
      /** Any other construct class: its simple name and its `toString`. */
    | Unknown(typeName: string, text: string)

  /** A sentence of a skill definition, with the captures it declares. */
  datatype SentenceDefinition = SentenceDefinition(id: string, captures: seq<CaptureDefinition>)

  /** A KotlinPoet `CodeBlock`: its format and the arguments for its placeholders. */
  datatype CodeBlock = CodeBlock(format: string, args: seq<Arg>)

  datatype Arg =
    | TypeArg(t: ClassName)
    | StringArg(s: string)
    | BoolArg(b: bool)
    | FloatArg(f: real)
    | BlockArg(block: CodeBlock)

  const WORD := ClassName(CONSTRUCT_PACKAGE, "WordConstruct")
  const OR := ClassName(CONSTRUCT_PACKAGE, "OrConstruct")
  const OPTIONAL := ClassName(CONSTRUCT_PACKAGE, "OptionalConstruct")
  const COMPOSITE := ClassName(CONSTRUCT_PACKAGE, "CompositeConstruct")

  /** `%T(%S, %L, %L)`, written in pieces so that its placeholders are counted piece by piece. */
  const WORD_FORMAT := "%T(%S" + ", %L" + ", %L" + ")"
  const OPTIONAL_FORMAT := "%T()"
  /** `%T(listOf(`, which `%L,` repeated and `))` follow. */
  const LIST_OPEN := "%T(" + "listOf("
  /** `%T(%S`, which the named arguments and `)` follow. */
  const CAPTURE_OPEN := "%T(%S"

  /** The placeholder kinds this generator uses: a type, a string, a literal. */
  predicate IsKind(c: char) {
    c == 'T' || c == 'S' || c == 'L'
  }

  /** The placeholder kinds KotlinPoet reads from a format, in order: each `%` directly followed by `T`, `S` or `L`. */
  function Placeholders(f: string): seq<char>
    decreases |f|
  {
    if |f| < 2 then []
    else if f[0] == '%' && IsKind(f[1]) then [f[1]] + Placeholders(f[2..])
    else Placeholders(f[1..])
  }

  /** The argument kind each placeholder takes. */
  predicate Fits(kind: char, a: Arg) {
    if kind == 'T' then a.TypeArg?
    else if kind == 'S' then a.StringArg?
    else a.BoolArg? || a.FloatArg? || a.BlockArg?
  }

  /** One argument of the right kind per placeholder, and every nested block well formed too. */
  predicate WellFormed(b: CodeBlock) {
    var kinds := Placeholders(b.format);
    |kinds| == |b.args|
    && (forall i :: 0 <= i < |kinds| ==> Fits(kinds[i], b.args[i]))
    && (forall i :: 0 <= i < |b.args| ==> b.args[i].BlockArg? ==> WellFormed(b.args[i].block))
  }

  /** Sequence concatenation regroups freely. */
  lemma ConcatAssoc<T>(x: seq<T>, y: seq<T>, z: seq<T>)
    ensures x + (y + z) == (x + y) + z
  {
  }

  /** Gluing two formats adds up their placeholders, unless a trailing `%` would pair with a leading `T`, `S` or `L`. */
  lemma {:induction false} PlaceholdersAppend(a: string, b: string)
    requires |a| == 0 || a[|a| - 1] != '%' || |b| == 0 || !IsKind(b[0])
    ensures Placeholders(a + b) == Placeholders(a) + Placeholders(b)
    decreases |a|
  {
    var ab := a + b;
    if |a| == 0 {
      assert ab == b;
    } else if |a| == 1 {
      assert Placeholders(a) == [];
      if |b| >= 1 {
        assert ab[0] == a[0] && ab[1] == b[0] && ab[1..] == b;
        assert !(ab[0] == '%' && IsKind(ab[1]));
      }
    } else if a[0] == '%' && IsKind(a[1]) {
      PlaceholdersAppend(a[2..], b);
      assert ab[0] == a[0] && ab[1] == a[1] && ab[2..] == a[2..] + b;
      calc {
        Placeholders(ab);
        [a[1]] + Placeholders(a[2..] + b);
        [a[1]] + (Placeholders(a[2..]) + Placeholders(b));
        { ConcatAssoc([a[1]], Placeholders(a[2..]), Placeholders(b)); }
        ([a[1]] + Placeholders(a[2..])) + Placeholders(b);
      }
    } else {
      PlaceholdersAppend(a[1..], b);
      assert ab[0] == a[0] && ab[1] == a[1] && ab[1..] == a[1..] + b;
    }
  }

  /** Text without `%` has no placeholder. */
  lemma {:induction false} NoPlaceholders(t: string)
    requires forall i :: 0 <= i < |t| ==> t[i] != '%'
    ensures Placeholders(t) == []
    decreases |t|
  {
    if |t| >= 2 {
      NoPlaceholders(t[1..]);
    }
  }

  /** `n` literal placeholders. */
  function Literals(n: nat): (r: seq<char>)
    ensures |r| == n && forall i :: 0 <= i < n ==> r[i] == 'L'
  {
    if n == 0 then [] else ['L'] + Literals(n - 1)
  }

  /** Kotlin's `repeat`: `n` copies of `s`. */
  function Repeat(s: string, n: nat): (r: string)
    ensures |r| == n * |s|
  {
    if n == 0 then "" else s + Repeat(s, n - 1)
  }

  /** `"%L,".repeat(n)` asks for `n` literals. */
  lemma {:induction false} RepeatLiterals(n: nat)
    ensures Placeholders(Repeat("%L,", n)) == Literals(n)
    ensures n > 0 ==> Repeat("%L,", n)[n * 3 - 1] == ','
  {
    if n > 0 {
      RepeatLiterals(n - 1);
      PlaceholdersAppend("%L,", Repeat("%L,", n - 1));
      assert Placeholders("%L,") == ['L'];
    }
  }

  /** Kotlin's `joinToString(separator)` over strings. */
  function JoinToString(pieces: seq<string>, separator: string): string {
    if |pieces| == 0 then ""
    else if |pieces| == 1 then pieces[0]
    else pieces[0] + separator + JoinToString(pieces[1..], separator)
  }

  /** `firstOrNull { it.id == name }` over a sentence's captures. */
  function FirstWithId(captures: seq<CaptureDefinition>, name: string): (r: Option<CaptureDefinition>)
    ensures r.None? <==> forall i :: 0 <= i < |captures| ==> captures[i].id != name
    ensures r.Some? ==>
      exists i :: 0 <= i < |captures| && captures[i] == r.value && r.value.id == name
        && forall j :: 0 <= j < i ==> captures[j].id != name
  {
    if |captures| == 0 then None
    else if captures[0].id == name then Some(captures[0])
    else
      var r := FirstWithId(captures[1..], name);
      assert forall i :: 1 <= i < |captures| ==> captures[i] == captures[1..][i - 1];
      r
  }

  /** The named argument one parameter adds to a capturing group's format. */
  function ParamFormat(p: Param): string {
    "," + p.name.Text() + "=" + p.spec
  }

  /** The named arguments of a parameter list, in order. */
  function ParamFormats(params: seq<Param>): (r: seq<string>)
    ensures |r| == |params| && forall i :: 0 <= i < |params| ==> r[i] == ParamFormat(params[i])
  {
    if |params| == 0 then [] else [ParamFormat(params[0])] + ParamFormats(params[1..])
  }

  /** The values of a parameter list, in order. */
  function ParamArgs(params: seq<Param>): (r: seq<Arg>)
    ensures |r| == |params| && forall i :: 0 <= i < |params| ==> r[i] == ParamArg(params[i])
  {
    if |params| == 0 then [] else [ParamArg(params[0])] + ParamArgs(params[1..])
  }

  /** The children's code blocks as arguments, in order. */
  function BlockArgs(children: seq<CodeBlock>): (r: seq<Arg>)
    ensures |r| == |children| && forall i :: 0 <= i < |children| ==> r[i] == BlockArg(children[i])
  {
    if |children| == 0 then [] else [BlockArg(children[0])] + BlockArgs(children[1..])
  }

  /** The argument one parameter passes. */
  function ParamArg(p: Param): Arg {
    match p.value
    case FloatValue(f) => FloatArg(f)
    case BoolValue(b) => BoolArg(b)
  }

  /** The `SentencesCompilerPluginException`s the generator throws. */
  datatype GenerateError =
    | MissingCapture(name: string, sentenceId: string)
    | UnexpectedConstruct(typeName: string, text: string)
  {
    /** The exception's message. */
    function Message(): string {
      match this
      case MissingCapture(name, sentenceId) =>
        "BUG in sentences compiler plugin: capturing group named " + name
        + " not found among captures for sentence " + sentenceId
      case UnexpectedConstruct(typeName, text) =>
        "Unexpected construct obtained from sentences compiler: type=" + typeName + ", value=\"" + text + "\""
    }
  }

  /** `generateWord` and `generateWordWithVariations`: a `WordConstruct` of the text, flagged as a regex or not. */
  function WordBlock(text: string, isRegex: bool, isDiacriticsSensitive: bool): CodeBlock {
    CodeBlock(WORD_FORMAT, [TypeArg(WORD), StringArg(text), BoolArg(isRegex), BoolArg(isDiacriticsSensitive)])
  }

  /**
   * `generateCapturingGroup`, with the separator its named arguments are
   * joined with as a parameter: the construct class for the capture's
   * definition, the group's name, then one named argument per parameter.
   */
  function CapturingGroupWith(name: string, sentence: SentenceDefinition, separator: string): Result<CodeBlock, GenerateError> {
    match FirstWithId(sentence.captures, name)
    case None => Failure(MissingCapture(name, sentence.id))
    case Some(d) =>
      var params := ParamsOf(d);
      Success(CodeBlock(
        CAPTURE_OPEN + JoinToString(ParamFormats(params), separator) + ")",
        [TypeArg(GetCapturingGroupClassName(d)), StringArg(name)] + ParamArgs(params)))
  }

  /** The code `generateCapturingGroup` emits, with `joinToString`'s default separator `", "`. */
  function CapturingGroupAsWritten(name: string, sentence: SentenceDefinition): Result<CodeBlock, GenerateError> {
    CapturingGroupWith(name, sentence, ", ")
  }

  /** The code `generateCapturingGroup` is meant to emit: named arguments joined with nothing in between. */
  function GenerateCapturingGroup(name: string, sentence: SentenceDefinition): Result<CodeBlock, GenerateError> {
    CapturingGroupWith(name, sentence, "")
  }

  /** `%T(listOf(%L,%L,…))`: a construct class applied to the list of its children. */
  function ListBlock(t: ClassName, children: seq<CodeBlock>): CodeBlock {
    CodeBlock(LIST_OPEN + Repeat("%L,", |children|) + "))", [TypeArg(t)] + BlockArgs(children))
  }

  /**
   * `generateConstruct`: the code for a construct, or the exception it throws.
   * The separator is the one `generateCapturingGroup` joins named arguments
   * with: the source is `Generate(c, sentence, ", ")`, the corrected generator
   * `Generate(c, sentence, "")`; every property below other than the commas
   * holds for both.
   */
  function Generate(c: Construct, sentence: SentenceDefinition, separator: string): Result<CodeBlock, GenerateError>
    decreases c, 1
  {
    match c
    case Word(v, sensitive) =>
      Success(WordBlock(v, false, sensitive))
    case WordWithVariations(regex, sensitive) =>
      Success(WordBlock(regex, true, sensitive))
    case OrList(cs) =>
      var children :- GenerateAll(cs, sentence, separator, c);
      Success(ListBlock(OR, children))
    case OptionalConstruct =>
      Success(CodeBlock(OPTIONAL_FORMAT, [TypeArg(OPTIONAL)]))
    case CapturingGroup(name) =>
      CapturingGroupWith(name, sentence, separator)
    case SentenceConstructList(cs) =>
      var children :- GenerateAll(cs, sentence, separator, c);
      Success(ListBlock(COMPOSITE, children))
    case Unknown(typeName, text) =>
      Failure(UnexpectedConstruct(typeName, text))
  }

  /** `constructs.map { generateConstruct(it, sentence) }`: each child's code or exception, in order. */
  function GenerateEach(cs: seq<Construct>, sentence: SentenceDefinition, separator: string, ghost parent: Construct)
    : (rs: seq<Result<CodeBlock, GenerateError>>)
    requires forall i :: 0 <= i < |cs| ==> cs[i] < parent
    ensures |rs| == |cs|
    decreases parent, 0, |cs|
  {
    if |cs| == 0 then [] else [Generate(cs[0], sentence, separator)] + GenerateEach(cs[1..], sentence, separator, parent)
  }

  /** The results of a `map` whose first exception propagates: all the values, or the first failure. */
  function Sequence<T, E>(rs: seq<Result<T, E>>): Result<seq<T>, E> {
    if |rs| == 0 then Success([])
    else if rs[0].Failure? then Failure(rs[0].error)
    else
      var rest :- Sequence(rs[1..]);
      Success([rs[0].value] + rest)
  }

  /** The children's code in order; the first failing child's exception stops the rest. */
  function GenerateAll(cs: seq<Construct>, sentence: SentenceDefinition, separator: string, ghost parent: Construct)
    : Result<seq<CodeBlock>, GenerateError>
    requires forall i :: 0 <= i < |cs| ==> cs[i] < parent
    decreases parent, 0, |cs| + 1
  {
    Sequence(GenerateEach(cs, sentence, separator, parent))
  }

  /** A construct the generator can turn into code: no unknown kind and every capturing group declared. */
  ghost predicate Generatable(c: Construct, sentence: SentenceDefinition) {
    match c
    case OrList(cs) => forall i :: 0 <= i < |cs| ==> Generatable(cs[i], sentence)
    case SentenceConstructList(cs) => forall i :: 0 <= i < |cs| ==> Generatable(cs[i], sentence)
    case CapturingGroup(name) => exists i :: 0 <= i < |sentence.captures| && sentence.captures[i].id == name
    case Unknown(_, _) => false
    case _ => true
  }

  /** Each child's result is the child's own code or exception. */
  lemma {:induction false} GenerateEachAt(cs: seq<Construct>, sentence: SentenceDefinition, separator: string, parent: Construct)
    requires forall i :: 0 <= i < |cs| ==> cs[i] < parent
    ensures forall i :: 0 <= i < |cs| ==> GenerateEach(cs, sentence, separator, parent)[i] == Generate(cs[i], sentence, separator)
    decreases |cs|
  {
    if |cs| > 0 {
      GenerateEachAt(cs[1..], sentence, separator, parent);
      assert forall i :: 1 <= i < |cs| ==> cs[1..][i - 1] == cs[i];
    }
  }

  /** Sequencing succeeds exactly when every result does, keeps the values in order, and fails with the first failure. */
  lemma {:induction false} SequenceShape<T, E>(rs: seq<Result<T, E>>)
    ensures var r := Sequence(rs);
      && (r.Success? <==> forall i :: 0 <= i < |rs| ==> rs[i].Success?)
      && (r.Success? ==> |r.value| == |rs| && forall i :: 0 <= i < |rs| ==> r.value[i] == rs[i].value)
      && (r.Failure? ==>
            exists k :: 0 <= k < |rs| && rs[k].Failure? && r.error == rs[k].error
              && forall i :: 0 <= i < k ==> rs[i].Success?)
  {
    if |rs| > 0 {
      SequenceShape(rs[1..]);
      var r := Sequence(rs);
      var rest := Sequence(rs[1..]);
      assert forall i :: 1 <= i < |rs| ==> rs[1..][i - 1] == rs[i];
      if rs[0].Success? && rest.Failure? {
        var k :| 0 <= k < |rs[1..]| && rs[1..][k].Failure? && rest.error == rs[1..][k].error
          && forall i :: 0 <= i < k ==> rs[1..][i].Success?;
        assert r.error == rs[k + 1].error;
      }
    }
  }

  /** The children's code is each child's own code, in order, and a failure is the first failing child's. */
  lemma GenerateAllInOrder(cs: seq<Construct>, sentence: SentenceDefinition, separator: string, parent: Construct)
    requires forall i :: 0 <= i < |cs| ==> cs[i] < parent
    ensures var r := GenerateAll(cs, sentence, separator, parent);
      && (r.Success? <==> forall i :: 0 <= i < |cs| ==> Generate(cs[i], sentence, separator).Success?)
      && (r.Success? ==> |r.value| == |cs| && forall i :: 0 <= i < |cs| ==> r.value[i] == Generate(cs[i], sentence, separator).value)
      && (r.Failure? ==>
            exists k :: 0 <= k < |cs| && Generate(cs[k], sentence, separator).Failure?
              && r.error == Generate(cs[k], sentence, separator).error
              && forall i :: 0 <= i < k ==> Generate(cs[i], sentence, separator).Success?)
  {
    GenerateEachAt(cs, sentence, separator, parent);
    SequenceShape(GenerateEach(cs, sentence, separator, parent));
  }

  /** The placeholders of the fixed formats. */
  lemma WordFormatKinds()
    ensures Placeholders(WORD_FORMAT) == ['T', 'S', 'L', 'L']
  {
    assert Placeholders("%T(%S") == ['T', 'S'];
    assert Placeholders(", %L") == ['L'];
    assert Placeholders(")") == [];
    PlaceholdersAppend("%T(%S", ", %L");
    PlaceholdersAppend("%T(%S" + ", %L", ", %L");
    PlaceholdersAppend("%T(%S" + ", %L" + ", %L", ")");
  }

  lemma ListOpenKinds()
    ensures Placeholders(LIST_OPEN) == ['T'] && LIST_OPEN[|LIST_OPEN| - 1] == '('
  {
    assert Placeholders("%T(") == ['T'];
    NoPlaceholders("listOf(");
    PlaceholdersAppend("%T(", "listOf(");
  }

  /** A list construct with well-formed children is well formed: `n` literals for `n` children. */
  lemma ListBlockWellFormed(t: ClassName, children: seq<CodeBlock>)
    requires forall i :: 0 <= i < |children| ==> WellFormed(children[i])
    ensures WellFormed(ListBlock(t, children))
  {
    ListBlockArgs(t, children);
    var b := ListBlock(t, children);
    assert forall i :: 1 <= i < |b.args| ==> b.args[i] == BlockArg(children[i - 1]);
  }

  /** One named argument asks for exactly one literal and does not end in `%`. */
  lemma ParamFormatShape(p: Param)
    requires p.spec == FLOAT_SPEC || p.spec == BOOL_SPEC
    ensures OneLiteral(ParamFormat(p))
  {
    var head := "," + p.name.Text() + "=";
    ArgumentName(p.name);
    assert forall i :: 0 <= i < |head| ==> head[i] != '%' by {
      assert forall i :: 1 <= i < |head| - 1 ==> head[i] == p.name.Text()[i - 1];
    }
    NoPlaceholders(head);
    PlaceholdersAppend(head, p.spec);
    assert Placeholders(FLOAT_SPEC) == ['L'] && Placeholders(BOOL_SPEC) == ['L'];
  }

  /** A piece of format that asks for one literal and does not end in `%`. */
  predicate OneLiteral(piece: string) {
    Placeholders(piece) == ['L'] && |piece| > 0 && piece[|piece| - 1] != '%'
  }

  /** Joining pieces that each ask for one literal, with a separator free of `%`, asks for one literal per piece. */
  lemma {:induction false} JoinLiterals(pieces: seq<string>, separator: string)
    requires forall i :: 0 <= i < |pieces| ==> OneLiteral(pieces[i])
    requires forall i :: 0 <= i < |separator| ==> separator[i] != '%'
    ensures Placeholders(JoinToString(pieces, separator)) == Literals(|pieces|)
    ensures |JoinToString(pieces, separator)| > 0 ==> JoinToString(pieces, separator)[|JoinToString(pieces, separator)| - 1] != '%'
  {
    if |pieces| > 1 {
      assert forall i :: 1 <= i < |pieces| ==> pieces[1..][i - 1] == pieces[i];
      JoinLiterals(pieces[1..], separator);
      NoPlaceholders(separator);
      PlaceholdersAppend(pieces[0], separator);
      PlaceholdersAppend(pieces[0] + separator, JoinToString(pieces[1..], separator));
      assert JoinToString(pieces, separator) == (pieces[0] + separator) + JoinToString(pieces[1..], separator);
    }
  }

  /** Every parameter of a capture definition is a `%Lf` float or a `%L` boolean. */
  lemma ParamSpecs(d: CaptureDefinition)
    ensures forall i :: 0 <= i < |ParamsOf(d)| ==>
      (ParamsOf(d)[i].spec == FLOAT_SPEC && ParamsOf(d)[i].value.FloatValue?)
      || (ParamsOf(d)[i].spec == BOOL_SPEC && ParamsOf(d)[i].value.BoolValue?)
  {
    ParamsShape(d);
    forall i | 0 <= i < |ParamsOf(d)|
      ensures (ParamsOf(d)[i].spec == FLOAT_SPEC && ParamsOf(d)[i].value.FloatValue?)
        || (ParamsOf(d)[i].spec == BOOL_SPEC && ParamsOf(d)[i].value.BoolValue?)
    {
      var j :| 0 <= j < |Fields(d)| && ParamOfField(ParamsOf(d)[i], Fields(d)[j]);
    }
  }

  lemma CaptureOpenKinds()
    ensures Placeholders(CAPTURE_OPEN) == ['T', 'S'] && |CAPTURE_OPEN| == 5 && CAPTURE_OPEN[4] == 'S'
  {
  }

  /** A closing `)` adds no placeholder. */
  lemma CloseKinds(a: string)
    ensures Placeholders(a + ")") == Placeholders(a)
  {
    assert Placeholders(")") == [];
    PlaceholdersAppend(a, ")");
  }

  /** The capturing group's format asks for a type, a string, then one literal per parameter. */
  lemma CapturingGroupFormat(params: seq<Param>, separator: string)
    requires forall i :: 0 <= i < |separator| ==> separator[i] != '%'
    requires forall i :: 0 <= i < |params| ==> params[i].spec == FLOAT_SPEC || params[i].spec == BOOL_SPEC
    ensures Placeholders(CAPTURE_OPEN + JoinToString(ParamFormats(params), separator) + ")")
      == ['T', 'S'] + Literals(|params|)
  {
    var pieces := ParamFormats(params);
    forall i | 0 <= i < |params|
      ensures OneLiteral(pieces[i])
    {
      ParamFormatShape(params[i]);
    }
    var joined := JoinToString(pieces, separator);
    JoinLiterals(pieces, separator);
    CaptureOpenKinds();
    PlaceholdersAppend(CAPTURE_OPEN, joined);
    CloseKinds(CAPTURE_OPEN + joined);
  }

  /** A block with one fitting argument per placeholder and no nested block is well formed. */
  lemma FlatWellFormed(b: CodeBlock, kinds: seq<char>)
    requires Placeholders(b.format) == kinds && |kinds| == |b.args|
    requires forall i :: 0 <= i < |b.args| ==> Fits(kinds[i], b.args[i]) && !b.args[i].BlockArg?
    ensures WellFormed(b)
  {
  }

  /** The capturing group's arguments fit a type, a string, then one literal per parameter. */
  lemma CaptureArgsFit(t: ClassName, name: string, params: seq<Param>)
    ensures var kinds := ['T', 'S'] + Literals(|params|);
      var args := [TypeArg(t), StringArg(name)] + ParamArgs(params);
      |kinds| == |args| && forall i :: 0 <= i < |args| ==> Fits(kinds[i], args[i]) && !args[i].BlockArg?
  {
    var values := ParamArgs(params);
    var literals := Literals(|params|);
    var kinds := ['T', 'S'] + literals;
    var args := [TypeArg(t), StringArg(name)] + values;
    forall i | 2 <= i < |args|
      ensures Fits(kinds[i], args[i]) && !args[i].BlockArg?
    {
      assert args[i] == values[i - 2] == ParamArg(params[i - 2]);
      assert kinds[i] == literals[i - 2];
    }
  }

  /** A capturing group's block for any construct class, name and parameters is well formed. */
  lemma CaptureBlockWellFormed(t: ClassName, name: string, params: seq<Param>, separator: string)
    requires forall i :: 0 <= i < |separator| ==> separator[i] != '%'
    requires forall i :: 0 <= i < |params| ==> params[i].spec == FLOAT_SPEC || params[i].spec == BOOL_SPEC
    ensures WellFormed(CodeBlock(CAPTURE_OPEN + JoinToString(ParamFormats(params), separator) + ")",
      [TypeArg(t), StringArg(name)] + ParamArgs(params)))
  {
    var kinds := ['T', 'S'] + Literals(|params|);
    var args := [TypeArg(t), StringArg(name)] + ParamArgs(params);
    CaptureArgsFit(t, name, params);
    CapturingGroupFormat(params, separator);
    FlatWellFormed(CodeBlock(CAPTURE_OPEN + JoinToString(ParamFormats(params), separator) + ")", args), kinds);
  }

  /** The capturing group's code is well formed: a type, a string, then one literal per parameter. */
  lemma CapturingGroupWellFormed(name: string, sentence: SentenceDefinition, separator: string)
    requires forall i :: 0 <= i < |separator| ==> separator[i] != '%'
    ensures var r := CapturingGroupWith(name, sentence, separator);
      r.Success? ==> WellFormed(r.value) && |r.value.args| == 2 + |ParamsOf(FirstWithId(sentence.captures, name).value)|
  {
    var r := CapturingGroupWith(name, sentence, separator);
    if r.Success? {
      var d := FirstWithId(sentence.captures, name).value;
      ParamSpecs(d);
      CaptureBlockWellFormed(GetCapturingGroupClassName(d), name, ParamsOf(d), separator);
    }
  }

  /** Every code block the generator emits is well formed, nested blocks included. */
  lemma {:induction false} GenerateWellFormed(c: Construct, sentence: SentenceDefinition, separator: string)
    requires forall i :: 0 <= i < |separator| ==> separator[i] != '%'
    ensures Generate(c, sentence, separator).Success? ==> WellFormed(Generate(c, sentence, separator).value)
    decreases c, 1
  {
    match c
    case Word(_, _) =>
      WordFormatKinds();
    case WordWithVariations(_, _) =>
      WordFormatKinds();
    case OptionalConstruct =>
      assert Placeholders(OPTIONAL_FORMAT) == ['T'];
    case CapturingGroup(name) =>
      CapturingGroupWellFormed(name, sentence, separator);
    case Unknown(_, _) =>
    case OrList(cs) =>
      ChildrenWellFormed(cs, sentence, separator, c);
    case SentenceConstructList(cs) =>
      ChildrenWellFormed(cs, sentence, separator, c);
  }

  /** The list constructs' children are well formed, and so is the list. */
  lemma {:induction false} ChildrenWellFormed(cs: seq<Construct>, sentence: SentenceDefinition, separator: string, parent: Construct)
    requires forall i :: 0 <= i < |separator| ==> separator[i] != '%'
    requires forall i :: 0 <= i < |cs| ==> cs[i] < parent
    ensures var r := GenerateAll(cs, sentence, separator, parent);
      r.Success? ==> WellFormed(ListBlock(OR, r.value)) && WellFormed(ListBlock(COMPOSITE, r.value))
    decreases parent, 0
  {
    var r := GenerateAll(cs, sentence, separator, parent);
    if r.Success? {
      GenerateAllInOrder(cs, sentence, separator, parent);
      forall i | 0 <= i < |r.value|
        ensures WellFormed(r.value[i])
      {
        GenerateWellFormed(cs[i], sentence, separator);
      }
      ListBlockWellFormed(OR, r.value);
      ListBlockWellFormed(COMPOSITE, r.value);
    }
  }

  /** Generation succeeds exactly for constructs without an unknown kind whose capturing groups are all declared. */
  lemma {:induction false} GenerateSucceedsIff(c: Construct, sentence: SentenceDefinition, separator: string)
    ensures Generate(c, sentence, separator).Success? <==> Generatable(c, sentence)
    decreases c
  {
    match c
    case OrList(cs) =>
      GenerateAllInOrder(cs, sentence, separator, c);
      forall i | 0 <= i < |cs| ensures Generate(cs[i], sentence, separator).Success? <==> Generatable(cs[i], sentence) {
        GenerateSucceedsIff(cs[i], sentence, separator);
      }
    case SentenceConstructList(cs) =>
      GenerateAllInOrder(cs, sentence, separator, c);
      forall i | 0 <= i < |cs| ensures Generate(cs[i], sentence, separator).Success? <==> Generatable(cs[i], sentence) {
        GenerateSucceedsIff(cs[i], sentence, separator);
      }
    case _ =>
  }

  /** The exceptions: an unknown construct kind, and a capturing group the sentence does not declare. */
  lemma GenerateFailures(c: Construct, sentence: SentenceDefinition, separator: string)
    ensures c.Unknown? ==> Generate(c, sentence, separator) == Failure(UnexpectedConstruct(c.typeName, c.text))
    ensures c.CapturingGroup? && (forall i :: 0 <= i < |sentence.captures| ==> sentence.captures[i].id != c.name)
      ==> Generate(c, sentence, separator) == Failure(MissingCapture(c.name, sentence.id))
  {
  }

  /** A word becomes a `WordConstruct` of its text, a regex exactly when it has variations. */
  lemma WordIsRegexIffVariations(c: Construct, sentence: SentenceDefinition, separator: string)
    requires c.Word? || c.WordWithVariations?
    ensures var r := Generate(c, sentence, separator);
      && r.Success? && |r.value.args| == 4 && r.value.args[0] == TypeArg(WORD)
      && r.value.args[1] == StringArg(if c.Word? then c.normalizedValue else c.javaRegex)
      && (r.value.args[2] == BoolArg(true) <==> c.WordWithVariations?)
      && r.value.args[3] == BoolArg(c.isDiacriticsSensitive)
  {
  }

  /** A list construct passes its children's code, in order, one literal each, to the matching construct class. */
  lemma ListChildren(c: Construct, sentence: SentenceDefinition, separator: string)
    requires c.OrList? || c.SentenceConstructList?
    requires Generate(c, sentence, separator).Success?
    ensures var b := Generate(c, sentence, separator).value;
      && Placeholders(b.format) == ['T'] + Literals(|c.constructs|)
      && |b.args| == |c.constructs| + 1
      && b.args[0] == TypeArg(if c.OrList? then OR else COMPOSITE)
      && forall i :: 0 <= i < |c.constructs| ==>
           Generate(c.constructs[i], sentence, separator).Success? && b.args[i + 1] == BlockArg(Generate(c.constructs[i], sentence, separator).value)
  {
    GenerateAllInOrder(c.constructs, sentence, separator, c);
    var children := GenerateAll(c.constructs, sentence, separator, c).value;
    var t := if c.OrList? then OR else COMPOSITE;
    assert Generate(c, sentence, separator).value == ListBlock(t, children);
    ListBlockArgs(t, children);
  }

  /** The block of a list: its class, then each child's code as one literal. */
  lemma ListBlockArgs(t: ClassName, children: seq<CodeBlock>)
    ensures var b := ListBlock(t, children);
      && Placeholders(b.format) == ['T'] + Literals(|children|)
      && |b.args| == |children| + 1 && b.args[0] == TypeArg(t)
      && forall i :: 0 <= i < |children| ==> b.args[i + 1] == BlockArg(children[i])
  {
    var b := ListBlock(t, children);
    assert Placeholders(b.format) == ['T'] + Literals(|children|) by {
      ListFormat(|children|);
    }
    var rest := BlockArgs(children);
    assert b.args == [TypeArg(t)] + rest;
    assert forall i :: 0 <= i < |children| ==> b.args[i + 1] == rest[i];
  }

  /** The list format asks for a type and then one literal per child. */
  lemma ListFormat(n: nat)
    ensures Placeholders(LIST_OPEN + Repeat("%L,", n) + "))") == ['T'] + Literals(n)
  {
    RepeatLiterals(n);
    ListOpenKinds();
    PlaceholdersAppend(LIST_OPEN, Repeat("%L,", n));
    assert Placeholders("))") == [];
    PlaceholdersAppend(LIST_OPEN + Repeat("%L,", n), "))");
  }

  /** A capturing group passes its construct class, its name, and the value of each parameter of the first capture with its name. */
  lemma CapturingGroupArguments(name: string, sentence: SentenceDefinition, separator: string)
    requires Generate(CapturingGroup(name), sentence, separator).Success?
    ensures var b := Generate(CapturingGroup(name), sentence, separator).value;
      var d := FirstWithId(sentence.captures, name).value;
      && d.id == name
      && b.args[..2] == [TypeArg(GetCapturingGroupClassName(d)), StringArg(name)]
      && b.args[2..] == ParamArgs(ParamsOf(d))
  {
  }

  /** A letter, which a Kotlin name starts with. */
  predicate IsLetter(c: char) {
    'a' <= c <= 'z' || 'A' <= c <= 'Z'
  }

  /** Every comma is followed by a name: no argument of the call is empty. */
  ghost predicate CommasBeforeNames(f: string) {
    && (|f| > 0 ==> f[|f| - 1] != ',')
    && forall i, j :: 0 <= i < j < |f| && j == i + 1 && f[i] == ',' ==> IsLetter(f[j])
  }

  /** Some argument is empty: a comma, a space, then another comma. */
  predicate HasEmptyArgument(f: string) {
    exists i :: 0 <= i && i + 2 < |f| && f[i] == ',' && f[i + 1] == ' ' && f[i + 2] == ','
  }

  lemma CommasAppend(a: string, b: string)
    requires CommasBeforeNames(a) && CommasBeforeNames(b)
    ensures CommasBeforeNames(a + b)
  {
    var ab := a + b;
    forall i, j | 0 <= i < j < |ab| && j == i + 1 && ab[i] == ','
      ensures IsLetter(ab[j])
    {
      if j < |a| {
        assert a[i] == ',' && ab[j] == a[j];
      } else if i < |a| {
        assert false;
      } else {
        assert b[i - |a|] == ',' && ab[j] == b[j - |a|];
      }
    }
  }

  /** A named argument `,name=%Lf` or `,name=%L` has its one comma right before the name. */
  lemma ParamFormatCommas(p: Param)
    requires p.spec == FLOAT_SPEC || p.spec == BOOL_SPEC
    ensures CommasBeforeNames(ParamFormat(p))
  {
    var f := ParamFormat(p);
    var t := p.name.Text();
    ArgumentName(p.name);
    assert f[1] == t[0];
    assert forall j :: 1 <= j <= |t| ==> f[j] == t[j - 1];
    assert f[|t| + 1] == '=';
    assert forall j :: |t| + 2 <= j < |f| ==> f[j] == p.spec[j - |t| - 2];
    assert forall j :: 0 <= j < |p.spec| ==> p.spec[j] != ',';
  }

  /** Named arguments glued with no separator keep every comma before a name. */
  lemma {:induction false} JoinCommas(pieces: seq<string>)
    requires forall i :: 0 <= i < |pieces| ==> CommasBeforeNames(pieces[i])
    ensures CommasBeforeNames(JoinToString(pieces, ""))
  {
    if |pieces| > 1 {
      assert forall i :: 1 <= i < |pieces| ==> pieces[1..][i - 1] == pieces[i];
      JoinCommas(pieces[1..]);
      assert pieces[0] + "" == pieces[0];
      CommasAppend(pieces[0], JoinToString(pieces[1..], ""));
    }
  }

  lemma CaptureOpenCommas()
    ensures CommasBeforeNames(CAPTURE_OPEN)
  {
    assert CAPTURE_OPEN == ['%', 'T', '(', '%', 'S'];
  }

  /** Named arguments glued together keep a name after every comma. */
  lemma JoinedParamsCommas(params: seq<Param>)
    requires forall i :: 0 <= i < |params| ==> params[i].spec == FLOAT_SPEC || params[i].spec == BOOL_SPEC
    ensures CommasBeforeNames(JoinToString(ParamFormats(params), ""))
  {
    var pieces := ParamFormats(params);
    forall i | 0 <= i < |pieces|
      ensures CommasBeforeNames(pieces[i])
    {
      ParamFormatCommas(params[i]);
    }
    JoinCommas(pieces);
  }

  /** Named arguments joined by nothing leave a name after every comma of the call. */
  lemma CaptureFormatCommas(params: seq<Param>)
    requires forall i :: 0 <= i < |params| ==> params[i].spec == FLOAT_SPEC || params[i].spec == BOOL_SPEC
    ensures CommasBeforeNames(CAPTURE_OPEN + JoinToString(ParamFormats(params), "") + ")")
  {
    var joined := JoinToString(ParamFormats(params), "");
    JoinedParamsCommas(params);
    CaptureOpenCommas();
    CommasAppend(CAPTURE_OPEN, joined);
    CloseCommas();
    CommasAppend(CAPTURE_OPEN + joined, ")");
  }

  lemma CloseCommas()
    ensures CommasBeforeNames(")")
  {
  }

  /** With the named arguments joined by nothing, no argument of the generated call is empty. */
  lemma CorrectedArgumentsNamed(name: string, sentence: SentenceDefinition)
    requires GenerateCapturingGroup(name, sentence).Success?
    ensures CommasBeforeNames(GenerateCapturingGroup(name, sentence).value.format)
  {
    var d := FirstWithId(sentence.captures, name).value;
    ParamSpecs(d);
    CaptureFormatCommas(ParamsOf(d));
  }

  /**
   * As written, `joinToString` puts its default separator `", "` between
   * the named arguments, which already begin with a comma: with two or more
   * parameters the generated call has an empty argument.
   */
  lemma AsWrittenEmptyArgument(name: string, sentence: SentenceDefinition)
    requires CapturingGroupAsWritten(name, sentence).Success?
    requires |ParamsOf(FirstWithId(sentence.captures, name).value)| >= 2
    ensures HasEmptyArgument(CapturingGroupAsWritten(name, sentence).value.format)
    ensures !CommasBeforeNames(CapturingGroupAsWritten(name, sentence).value.format)
  {
    var params := ParamsOf(FirstWithId(sentence.captures, name).value);
    var pieces := ParamFormats(params);
    var rest := JoinToString(pieces[1..], ", ");
    assert pieces[1..][0] == pieces[1];
    assert |pieces[1..]| == 1 || rest == pieces[1..][0] + ", " + JoinToString(pieces[1..][1..], ", ");
    assert rest[0] == ',';
    var f := CAPTURE_OPEN + (pieces[0] + ", " + rest) + ")";
    assert f == CapturingGroupAsWritten(name, sentence).value.format;
    var i := |CAPTURE_OPEN| + |pieces[0]|;
    assert f[i] == ',' && f[i + 1] == ' ' && f[i + 2] == ',';
  }

  /** Such a sentence exists: a number capture with a weight and a short-scale flag gives two parameters. */
  lemma TwoParameters()
    ensures var d := NumberCapture("n", Some(1.0), None, Some(true), None, None);
      |ParamsOf(d)| == 2
      && HasEmptyArgument(CapturingGroupAsWritten("n", SentenceDefinition("s", [d])).value.format)
  {
    var d := NumberCapture("n", Some(1.0), None, Some(true), None, None);
    CollectFive(FloatField(Weight, Some(1.0)), FloatField(BonusIfLargestPossible, None), BoolField(ShortScale, Some(true)),
      BoolField(PreferOrdinal, None), BoolField(IntegerOnly, None));
    assert |ParamsOf(d)| == 2;
    AsWrittenEmptyArgument("n", SentenceDefinition("s", [d]));
  }
}
