/**
 * The sentences compiler plugin's view of a sentence's capture definitions:
 * which Kotlin type a capture produces, which construct class matches it,
 * and which optional constructor parameters the generated code passes.
 */
module CaptureUtils {
  import opened Wrappers

  /** A capture definition from a skill definitions file; absent optional fields are `None`. */
  datatype CaptureDefinition =
    | StringCapture(id: string, weight: Option<real>)
    | NumberCapture(id: string, weight: Option<real>, bonusIfLargestPossible: Option<real>,
                    shortScale: Option<bool>, preferOrdinal: Option<bool>, integerOnly: Option<bool>)
    | DurationCapture(id: string, weight: Option<real>, bonusIfLargestPossible: Option<real>,
                      shortScale: Option<bool>)
    | DateTimeCapture(id: string, weight: Option<real>, bonusIfLargestPossible: Option<real>,
                      shortScale: Option<bool>, preferMonthBeforeDay: Option<bool>)

  /** A fully qualified Kotlin class name. */
  datatype ClassName = ClassName(packageName: string, simpleName: string)

  /** `getTypeName`: the type of the value a capture yields. */
  function GetTypeName(d: CaptureDefinition): (t: ClassName)
    ensures d.StringCapture? <==> t == ClassName("kotlin", "String")
    ensures d.NumberCapture? <==> t == ClassName("org.dicio.numbers.unit", "Number")
    ensures d.DurationCapture? <==> t == ClassName("org.dicio.numbers.unit", "Duration")
    ensures d.DateTimeCapture? <==> t == ClassName("java.time", "LocalDateTime")
  {
    match d
    case StringCapture(_, _) => ClassName("kotlin", "String")
    case NumberCapture(_, _, _, _, _, _) => ClassName("org.dicio.numbers.unit", "Number")
    case DurationCapture(_, _, _, _) => ClassName("org.dicio.numbers.unit", "Duration")
    case DateTimeCapture(_, _, _, _, _) => ClassName("java.time", "LocalDateTime")
  }

  const CONSTRUCT_PACKAGE := "org.dicio.skill.standard.construct"

  /**
   * `getCapturingGroupClassName`: the construct that matches a capture; a
   * string capture uses the free capturing construct, the others the ranges
   * construct parsing their type.
   */
  function GetCapturingGroupClassName(d: CaptureDefinition): (t: ClassName)
    ensures t.packageName == CONSTRUCT_PACKAGE
    ensures d.StringCapture? <==> t.simpleName == "CapturingConstruct"
    ensures d.NumberCapture? <==> t.simpleName == "NumberConstruct"
    ensures d.DurationCapture? <==> t.simpleName == "DurationConstruct"
    ensures d.DateTimeCapture? <==> t.simpleName == "DateTimeConstruct"
  {
    match d
    case StringCapture(_, _) => ClassName(CONSTRUCT_PACKAGE, "CapturingConstruct")
    case NumberCapture(_, _, _, _, _, _) => ClassName(CONSTRUCT_PACKAGE, "NumberConstruct")
    case DurationCapture(_, _, _, _) => ClassName(CONSTRUCT_PACKAGE, "DurationConstruct")
    case DateTimeCapture(_, _, _, _, _) => ClassName(CONSTRUCT_PACKAGE, "DateTimeConstruct")
  }

  /** A parameter's value: a `Float` or a `Boolean`. */
  datatype ParamValue = FloatValue(f: real) | BoolValue(b: bool)

  /** A named constructor parameter, with the KotlinPoet format of its value. */
  datatype Param = Param(name: ParamName, spec: string, value: ParamValue)

  /** The optional constructor parameters of the capturing constructs. */
  datatype ParamName = Weight | BonusIfLargestPossible | ShortScale | PreferOrdinal | IntegerOnly | PreferMonthBeforeDay {
    /** The parameter's name in the generated code. */
    function Text(): string {
      match this
      case Weight => "weight"
      case BonusIfLargestPossible => "bonusIfLargestPossible"
      case ShortScale => "shortScale"
      case PreferOrdinal => "preferOrdinal"
      case IntegerOnly => "integerOnly"
      case PreferMonthBeforeDay => "preferMonthBeforeDay"
    }
  }

  const FLOAT_SPEC := "%Lf"
  const BOOL_SPEC := "%L"

  /** An optional constructor parameter of a capture: its name and its value, if the definition sets it. */
  datatype Field = FloatField(name: ParamName, f: Option<real>) | BoolField(name: ParamName, b: Option<bool>) {
    predicate Present() {
      if FloatField? then f.Some? else b.Some?
    }

    /** The parameter passed for a present field. */
    function ToParam(): Param
      requires Present()
    {
      if FloatField? then Param(name, FLOAT_SPEC, FloatValue(f.value)) else Param(name, BOOL_SPEC, BoolValue(b.value))
    }
  }

  /** The optional parameters of a capture's construct, in the order `getParams` visits them. */
  function Fields(d: CaptureDefinition): seq<Field> {
    match d
    case StringCapture(_, w) => [FloatField(Weight, w)]
    case NumberCapture(_, w, b, s, p, i) =>
      [FloatField(Weight, w), FloatField(BonusIfLargestPossible, b), BoolField(ShortScale, s),
       BoolField(PreferOrdinal, p), BoolField(IntegerOnly, i)]
    case DurationCapture(_, w, b, s) =>
      [FloatField(Weight, w), FloatField(BonusIfLargestPossible, b), BoolField(ShortScale, s)]
    case DateTimeCapture(_, w, b, s, m) =>
      [FloatField(Weight, w), FloatField(BonusIfLargestPossible, b), BoolField(ShortScale, s),
       BoolField(PreferMonthBeforeDay, m)]
  }

  /** The parameter for a field, if present. */
  function Opt(f: Field): seq<Param> {
    if f.Present() then [f.ToParam()] else []
  }

  /** The parameters for the present fields, in order. */
  function Collect(fs: seq<Field>): seq<Param> {
    if fs == [] then [] else Opt(fs[0]) + Collect(fs[1..])
  }

  /** The parameters `getParams` returns. */
  function ParamsOf(d: CaptureDefinition): seq<Param> {
    Collect(Fields(d))
  }

  function PresentNames(fs: seq<Field>): seq<ParamName> {
    if fs == [] then [] else (if fs[0].Present() then [fs[0].name] else []) + PresentNames(fs[1..])
  }

  function Names(ps: seq<Param>): (names: seq<ParamName>)
    ensures |names| == |ps|
    ensures forall i :: 0 <= i < |ps| ==> names[i] == ps[i].name
  {
    seq(|ps|, i requires 0 <= i < |ps| => ps[i].name)
  }

  /** A name the generated code can pass as a named argument: starts with a letter, no comma and no `%`. */
  predicate IsArgumentName(n: string) {
    |n| > 0 && ('a' <= n[0] <= 'z' || 'A' <= n[0] <= 'Z')
    && forall i :: 0 <= i < |n| ==> n[i] != ',' && n[i] != '%'
  }

  /** Parameter `p` is the one for field `f`: same name, and a `%Lf` float or a `%L` boolean carrying its value. */
  predicate ParamOfField(p: Param, f: Field) {
    && p.name == f.name
    && (f.FloatField? ==> f.f.Some? && p.spec == FLOAT_SPEC && p.value == FloatValue(f.f.value))
    && (f.BoolField? ==> f.b.Some? && p.spec == BOOL_SPEC && p.value == BoolValue(f.b.value))
  }

  /** Collecting keeps exactly the present fields, in order. */
  lemma {:induction false} CollectNames(fs: seq<Field>)
    ensures Names(Collect(fs)) == PresentNames(fs)
  {
    if fs != [] {
      CollectNames(fs[1..]);
      var head := Opt(fs[0]);
      var tail := Collect(fs[1..]);
      assert Collect(fs) == head + tail;
      assert Names(head) == (if fs[0].Present() then [fs[0].name] else []);
      assert Names(head + tail) == Names(head) + Names(tail);
    }
  }

  /** Each collected parameter comes from one of the fields, with its format and value. */
  lemma {:induction false} CollectFrom(fs: seq<Field>)
    ensures forall k :: 0 <= k < |Collect(fs)| ==> exists j :: 0 <= j < |fs| && ParamOfField(Collect(fs)[k], fs[j])
  {
    if fs != [] {
      CollectFrom(fs[1..]);
      var head := Opt(fs[0]);
      assert Collect(fs) == head + Collect(fs[1..]);
      forall k | 0 <= k < |Collect(fs)| ensures exists j :: 0 <= j < |fs| && ParamOfField(Collect(fs)[k], fs[j]) {
        if k < |head| {
          assert ParamOfField(Collect(fs)[k], fs[0]);
        } else {
          assert Collect(fs)[k] == Collect(fs[1..])[k - |head|];
          var j :| 0 <= j < |fs[1..]| && ParamOfField(Collect(fs[1..])[k - |head|], fs[1..][j]);
          assert fs[1..][j] == fs[j + 1];
        }
      }
    } else {
      assert Collect(fs) == [];
    }
  }

  /**
   * A present first field leads the parameters; and when no later field
   * shares the first field's name, a first parameter with that name can
   * only come from a present first field.
   */
  lemma {:induction false} CollectHead(fs: seq<Field>)
    ensures |Collect(fs)| > 0 && fs[0].Present() ==> Collect(fs)[0] == fs[0].ToParam()
    ensures |Collect(fs)| > 0 && Collect(fs)[0].name == fs[0].name && (forall j :: 1 <= j < |fs| ==> fs[j].name != fs[0].name)
      ==> fs[0].Present()
  {
    if fs == [] {
    } else if fs[0].Present() {
      assert Collect(fs) == [fs[0].ToParam()] + Collect(fs[1..]);
    } else if |Collect(fs)| > 0 {
      var rest := fs[1..];
      assert Collect(fs) == Collect(rest);
      CollectFrom(rest);
      var j :| 0 <= j < |rest| && ParamOfField(Collect(rest)[0], rest[j]);
      assert rest[j] == fs[j + 1];
    }
  }

  /**
   * What `getParams` promises: exactly the present fields among the
   * construct's parameters, in the construct's order, each float formatted
   * with `%Lf` and each boolean with `%L`, carrying the field's value.
   */
  lemma ParamsShape(d: CaptureDefinition)
    ensures Names(ParamsOf(d)) == PresentNames(Fields(d))
    ensures forall k :: 0 <= k < |ParamsOf(d)| ==>
      exists j :: 0 <= j < |Fields(d)| && ParamOfField(ParamsOf(d)[k], Fields(d)[j])
  {
    CollectNames(Fields(d));
    CollectFrom(Fields(d));
  }

  /** The weight comes first exactly when it is present. */
  lemma WeightFirst(d: CaptureDefinition)
    ensures (|ParamsOf(d)| > 0 && ParamsOf(d)[0].name == Weight) <==> d.weight.Some?
    ensures d.weight.Some? ==> ParamsOf(d)[0] == Param(Weight, FLOAT_SPEC, FloatValue(d.weight.value))
  {
    var fs := Fields(d);
    CollectHead(fs);
    assert fs[0] == FloatField(Weight, d.weight);
    assert forall j :: 1 <= j < |fs| ==> fs[j].name != Weight;
  }

  /** Every parameter name can be written as a named argument. */
  lemma ArgumentName(n: ParamName)
    ensures IsArgumentName(n.Text())
  {
    var t := n.Text();
    match n
    case Weight =>
      assert forall i :: 0 <= i < |t| ==> t[i] != ',' && t[i] != '%';
    case BonusIfLargestPossible =>
      assert forall i :: 0 <= i < |t| ==> t[i] != ',' && t[i] != '%';
    case ShortScale =>
      assert forall i :: 0 <= i < |t| ==> t[i] != ',' && t[i] != '%';
    case PreferOrdinal =>
      assert forall i :: 0 <= i < |t| ==> t[i] != ',' && t[i] != '%';
    case IntegerOnly =>
      assert forall i :: 0 <= i < |t| ==> t[i] != ',' && t[i] != '%';
    case PreferMonthBeforeDay =>
      assert forall i :: 0 <= i < |t| ==> t[i] != ',' && t[i] != '%';
  }

  /** Collecting three fields, unfolded. */
  lemma CollectThree(f0: Field, f1: Field, f2: Field)
    ensures Collect([f0, f1, f2]) == Opt(f0) + Opt(f1) + Opt(f2)
  {
    assert [f0, f1, f2][1..] == [f1, f2];
    assert [f1, f2][1..] == [f2];
    assert [f2][1..] == [];
    assert Collect([f2]) == Opt(f2) + [] == Opt(f2);
    assert Collect([f1, f2]) == Opt(f1) + Opt(f2);
  }

  /** Collecting four fields, unfolded. */
  lemma CollectFour(f0: Field, f1: Field, f2: Field, f3: Field)
    ensures Collect([f0, f1, f2, f3]) == Opt(f0) + Opt(f1) + Opt(f2) + Opt(f3)
  {
    assert [f0, f1, f2, f3][1..] == [f1, f2, f3];
    CollectThree(f1, f2, f3);
    var o0, o1, o2, o3 := Opt(f0), Opt(f1), Opt(f2), Opt(f3);
    assert o0 + (o1 + o2 + o3) == o0 + o1 + o2 + o3;
  }

  /** Collecting five fields, unfolded. */
  lemma CollectFive(f0: Field, f1: Field, f2: Field, f3: Field, f4: Field)
    ensures Collect([f0, f1, f2, f3, f4]) == Opt(f0) + Opt(f1) + Opt(f2) + Opt(f3) + Opt(f4)
  {
    assert [f0, f1, f2, f3, f4][1..] == [f1, f2, f3, f4];
    CollectFour(f1, f2, f3, f4);
    var o0, o1, o2, o3, o4 := Opt(f0), Opt(f1), Opt(f2), Opt(f3), Opt(f4);
    calc {
      Collect([f0, f1, f2, f3, f4]);
      o0 + Collect([f1, f2, f3, f4]);
      o0 + (o1 + o2 + o3 + o4);
      { assert o0 + ((o1 + o2 + o3) + o4) == (o0 + (o1 + o2 + o3)) + o4; }
      (o0 + (o1 + o2 + o3)) + o4;
      { assert o0 + (o1 + o2 + o3) == o0 + o1 + o2 + o3; }
      o0 + o1 + o2 + o3 + o4;
    }
  }

  /** `getParams`: appends one parameter per present field, in the construct's order. */
  method GetParams(d: CaptureDefinition) returns (res: seq<Param>)
    ensures res == ParamsOf(d)
  {
    res := [];
    if d.weight.Some? {
      res := res + [Param(Weight, FLOAT_SPEC, FloatValue(d.weight.value))];
    }
    var f0 := FloatField(Weight, d.weight);
    assert res == Opt(f0);
    match d {
      case StringCapture(_, _) =>
        assert [f0][1..] == [];
        assert ParamsOf(d) == Collect([f0]) == Opt(f0) + [];
      case NumberCapture(_, _, b, s, p, i) =>
        ghost var acc := res;
        if b.Some? { res := res + [Param(BonusIfLargestPossible, FLOAT_SPEC, FloatValue(b.value))]; }
        assert res == acc + Opt(FloatField(BonusIfLargestPossible, b));
        acc := res;
        if s.Some? { res := res + [Param(ShortScale, BOOL_SPEC, BoolValue(s.value))]; }
        assert res == acc + Opt(BoolField(ShortScale, s));
        acc := res;
        if p.Some? { res := res + [Param(PreferOrdinal, BOOL_SPEC, BoolValue(p.value))]; }
        assert res == acc + Opt(BoolField(PreferOrdinal, p));
        acc := res;
        if i.Some? { res := res + [Param(IntegerOnly, BOOL_SPEC, BoolValue(i.value))]; }
        assert res == acc + Opt(BoolField(IntegerOnly, i));
        CollectFive(f0, FloatField(BonusIfLargestPossible, b), BoolField(ShortScale, s),
          BoolField(PreferOrdinal, p), BoolField(IntegerOnly, i));
        assert Fields(d) == [f0, FloatField(BonusIfLargestPossible, b), BoolField(ShortScale, s),
          BoolField(PreferOrdinal, p), BoolField(IntegerOnly, i)];
      case DurationCapture(_, _, b, s) =>
        ghost var acc := res;
        if b.Some? { res := res + [Param(BonusIfLargestPossible, FLOAT_SPEC, FloatValue(b.value))]; }
        assert res == acc + Opt(FloatField(BonusIfLargestPossible, b));
        acc := res;
        if s.Some? { res := res + [Param(ShortScale, BOOL_SPEC, BoolValue(s.value))]; }
        assert res == acc + Opt(BoolField(ShortScale, s));
        CollectThree(f0, FloatField(BonusIfLargestPossible, b), BoolField(ShortScale, s));
        assert Fields(d) == [f0, FloatField(BonusIfLargestPossible, b), BoolField(ShortScale, s)];
      case DateTimeCapture(_, _, b, s, m) =>
        ghost var acc := res;
        if b.Some? { res := res + [Param(BonusIfLargestPossible, FLOAT_SPEC, FloatValue(b.value))]; }
        assert res == acc + Opt(FloatField(BonusIfLargestPossible, b));
        acc := res;
        if s.Some? { res := res + [Param(ShortScale, BOOL_SPEC, BoolValue(s.value))]; }
        assert res == acc + Opt(BoolField(ShortScale, s));
        acc := res;
        if m.Some? { res := res + [Param(PreferMonthBeforeDay, BOOL_SPEC, BoolValue(m.value))]; }
        assert res == acc + Opt(BoolField(PreferMonthBeforeDay, m));
        CollectFour(f0, FloatField(BonusIfLargestPossible, b), BoolField(ShortScale, s),
          BoolField(PreferMonthBeforeDay, m));
        assert Fields(d) == [f0, FloatField(BonusIfLargestPossible, b), BoolField(ShortScale, s),
          BoolField(PreferMonthBeforeDay, m)];
    }
  }
}
