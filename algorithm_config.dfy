/**
 * The validators of an algorithm's configuration (the `[tool.compox]`
 * table of its project file): each additional parameter's default, range
 * and options must agree with its type tag, and the default device must be
 * one of the supported ones. Advice about missing documentation is only a
 * warning and never rejects a configuration.
 *
 * The device fields are subset types of the literals pydantic allows
 * ("cpu", "gpu", "mps", and "" for the default), so a device outside them
 * cannot be written down: pydantic's own rejection of such a literal is
 * not modelled, only the rules that run after it.
 */
module AlgorithmConfig {
  import opened Wrappers

  /** The Python values a parameter's default, options and bounds can hold. */
  datatype PyVal = PStr(s: string) | PInt(i: int) | PBool(b: bool) | PFloat(r: real) | PList(items: seq<PyVal>) | PNone

  /** The classes `isinstance` is asked about. */
  datatype PyType = StrType | IntType | FloatType | BoolType | ListType

  /** `isinstance(v, t)`; a bool is an int, an int is not a float. */
  predicate IsInstance(v: PyVal, t: PyType)
  {
    match t
    case StrType => v.PStr?
    case IntType => v.PInt? || v.PBool?
    case FloatType => v.PFloat?
    case BoolType => v.PBool?
    case ListType => v.PList?
  }

  function TypeName(t: PyType): string
  {
    match t
    case StrType => "str"
    case IntType => "int"
    case FloatType => "float"
    case BoolType => "bool"
    case ListType => "list"
  }

  /** `type(v).__name__`. */
  function ClassName(v: PyVal): string
  {
    match v
    case PStr(_) => "str"
    case PInt(_) => "int"
    case PBool(_) => "bool"
    case PFloat(_) => "float"
    case PList(_) => "list"
    case PNone => "NoneType"
  }

  /** The numeric value of a number; `True` and `False` count as 1 and 0. */
  function Num(v: PyVal): real
    requires v.PInt? || v.PBool? || v.PFloat?
  {
    match v
    case PInt(i) => i as real
    case PBool(b) => if b then 1.0 else 0.0
    case PFloat(r) => r
  }

  predicate IsNumber(v: PyVal)
  {
    v.PInt? || v.PBool? || v.PFloat?
  }

  /** Python's `==`: numbers compare by value across int, bool and float; lists element by element. */
  predicate PyEq(a: PyVal, b: PyVal)
  {
    if IsNumber(a) && IsNumber(b) then Num(a) == Num(b)
    else
      match (a, b)
      case (PStr(x), PStr(y)) => x == y
      case (PNone, PNone) => true
      case (PList(xs), PList(ys)) => |xs| == |ys| && forall i :: 0 <= i < |xs| ==> PyEq(xs[i], ys[i])
      case _ => false
  }

  /** `v in options`. */
  predicate PyIn(v: PyVal, options: seq<PyVal>)
  {
    exists i :: 0 <= i < |options| && PyEq(v, options[i])
  }

  /** The thirteen parameter types of an additional parameter. */
  datatype ParamType =
    | StringParam | IntParam | FloatParam | BoolParam
    | IntRange | FloatRange
    | StringEnum | IntEnum | FloatEnum
    | StringList | IntList | FloatList | BoolList

  function TagName(t: ParamType): string
  {
    match t
    case StringParam => "string"
    case IntParam => "int"
    case FloatParam => "float"
    case BoolParam => "bool"
    case IntRange => "int_range"
    case FloatRange => "float_range"
    case StringEnum => "string_enum"
    case IntEnum => "int_enum"
    case FloatEnum => "float_enum"
    case StringList => "string_list"
    case IntList => "int_list"
    case FloatList => "float_list"
    case BoolList => "bool_list"
  }

  /** The class a parameter type's default must be an instance of. */
  function ExpectedType(t: ParamType): PyType
  {
    match t
    case StringParam => StrType
    case IntParam => IntType
    case FloatParam => FloatType
    case BoolParam => BoolType
    case IntRange => IntType
    case FloatRange => FloatType
    case StringEnum => StrType
    case IntEnum => IntType
    case FloatEnum => FloatType
    case _ => ListType
  }

  predicate IsRange(t: ParamType) { t == IntRange || t == FloatRange }
  predicate IsEnum(t: ParamType) { t == StringEnum || t == IntEnum || t == FloatEnum }
  predicate IsList(t: ParamType) { t == StringList || t == IntList || t == FloatList || t == BoolList }

  datatype ParamConfig = ParamConfig(
    tag: ParamType, default: PyVal, adjustable: bool, options: seq<PyVal>, min: PyVal, max: PyVal, step: PyVal)

  datatype AdditionalParameter = AdditionalParameter(name: string, description: string, config: ParamConfig)

  /** A validated value together with the warnings issued while validating it. */
  datatype Checked<T> = Checked(result: Result<T>, warnings: seq<string>)

  // ---------------------------------------------------------------- messages

  const PrefixHead: string := "Validation error in additional parameter "
  const MismatchHead: string := "Default value type mismatch: Expected "
  const BoundsMissingHead: string := "Min, max, and step values must be provided for range type '"
  const BoundsTypeHead: string := "Min, max, and step values must be of type "
  const BoundsOrderHead: string := "Min value must be less than max value for range type '"
  const NoOptionsHead: string := "Options must be provided for enum type '"
  const OptionTypeHead: string := "All options must be of type "
  const NotAnOptionHead: string := "Default value must be one of the options for enum type '"
  const EmptyDescriptionHead: string := "Description is empty for additional parameter '"
  const EmptyDescriptionTail: string := "'. Consider providing a description for better documentation."
  const NoneDefaultHead: string := "Default value is None for additional parameter '"
  const NoneDefaultTail: string := "'. Consider providing a default value."
  const EmptyOptionsHead: string := "Options are empty for additional parameter "
  const EmptyOptionsMiddle: string := ". This may or may not be intentional. Consider providing options for list type '"
  const DeviceMiddle: string := "' is not in the list of supported devices "

  function Prefix(name: string): string
  {
    PrefixHead + name + ". "
  }

  function MismatchMessage(p: AdditionalParameter): string
  {
    Prefix(p.name) + MismatchHead + TypeName(ExpectedType(p.config.tag))
    + " for type '" + TagName(p.config.tag) + "', but got " + ClassName(p.config.default) + "."
  }

  function BoundsMissingMessage(p: AdditionalParameter): string
  {
    Prefix(p.name) + BoundsMissingHead + TagName(p.config.tag) + "'."
  }

  function BoundsTypeMessage(p: AdditionalParameter): string
  {
    Prefix(p.name) + BoundsTypeHead + TypeName(ExpectedType(p.config.tag))
    + " for range type '" + TagName(p.config.tag) + "'."
  }

  function BoundsOrderMessage(p: AdditionalParameter): string
  {
    Prefix(p.name) + BoundsOrderHead + TagName(p.config.tag) + "'."
  }

  function NoOptionsMessage(p: AdditionalParameter): string
  {
    Prefix(p.name) + NoOptionsHead + TagName(p.config.tag) + "'."
  }

  function OptionTypeMessage(p: AdditionalParameter, kind: string): string
  {
    Prefix(p.name) + OptionTypeHead + TypeName(ExpectedType(p.config.tag))
    + " for " + kind + " type '" + TagName(p.config.tag) + "'."
  }

  /** The message naming a default that is not among the options; the rendering of the values is left out. */
  function NotAnOptionMessage(p: AdditionalParameter): string
  {
    Prefix(p.name) + NotAnOptionHead + TagName(p.config.tag) + "'."
  }

  function EmptyDescriptionWarning(name: string): string
  {
    EmptyDescriptionHead + name + EmptyDescriptionTail
  }

  function NoneDefaultWarning(name: string): string
  {
    NoneDefaultHead + name + NoneDefaultTail
  }

  function EmptyOptionsWarning(p: AdditionalParameter): string
  {
    EmptyOptionsHead + p.name + EmptyOptionsMiddle + TagName(p.config.tag) + "'."
  }

  // ---------------------------------------------------------------- the rules, one by one

  /** A default is None or of the class the type tag names. */
  predicate DefaultTypeOk(c: ParamConfig)
  {
    c.default.PNone? || IsInstance(c.default, ExpectedType(c.tag))
  }

  /** A range has all three bounds, of the expected class, with min below max. */
  predicate RangeOk(c: ParamConfig)
    requires IsRange(c.tag)
  {
    var t := ExpectedType(c.tag);
    IsInstance(c.min, t) && IsInstance(c.max, t) && IsInstance(c.step, t) && Num(c.min) < Num(c.max)
  }

  predicate OptionsOfType(c: ParamConfig)
  {
    forall i :: 0 <= i < |c.options| ==> IsInstance(c.options[i], ExpectedType(c.tag))
  }

  /** An enum has options, all of the expected class, and a default among them or None. */
  predicate EnumOk(c: ParamConfig)
  {
    c.options != [] && OptionsOfType(c) && (c.default.PNone? || PyIn(c.default, c.options))
  }

  /** Every option of a list type is a list; there may be none. */
  predicate ListOk(c: ParamConfig)
  {
    OptionsOfType(c)
  }

  /** Whether the parameter passes its validator. */
  predicate ParameterOk(c: ParamConfig)
  {
    DefaultTypeOk(c) && (IsRange(c.tag) ==> RangeOk(c)) && (IsEnum(c.tag) ==> EnumOk(c)) && (IsList(c.tag) ==> ListOk(c))
  }

  // ---------------------------------------------------------------- the validators

  function DocWarnings(p: AdditionalParameter): seq<string>
  {
    (if p.description == "" then [EmptyDescriptionWarning(p.name)] else [])
    + (if p.config.default.PNone? then [NoneDefaultWarning(p.name)] else [])
  }

  function CheckRange(p: AdditionalParameter): Option<Exc>
    requires IsRange(p.config.tag)
  {
    var c := p.config;
    var t := ExpectedType(c.tag);
    if c.min.PNone? || c.max.PNone? || c.step.PNone? then Some(ValueError(BoundsMissingMessage(p)))
    else if !IsInstance(c.min, t) || !IsInstance(c.max, t) || !IsInstance(c.step, t) then Some(ValueError(BoundsTypeMessage(p)))
    else if Num(c.min) >= Num(c.max) then Some(ValueError(BoundsOrderMessage(p)))
    else None
  }

  /** The enum checks; a None default becomes the first option. */
  function CheckEnum(p: AdditionalParameter): Result<AdditionalParameter>
  {
    var c := p.config;
    if c.options == [] then Err(ValueError(NoOptionsMessage(p)))
    else if !OptionsOfType(c) then Err(ValueError(OptionTypeMessage(p, "enum")))
    else if !PyIn(c.default, c.options) && !c.default.PNone? then Err(ValueError(NotAnOptionMessage(p)))
    else if c.default.PNone? then Ok(p.(config := c.(default := c.options[0])))
    else Ok(p)
  }

  /** `AdditionalParameterSchema.check_default_type`. */
  function CheckParameter(p: AdditionalParameter): Checked<AdditionalParameter>
  {
    var c := p.config;
    var ws := DocWarnings(p);
    if !IsInstance(c.default, ExpectedType(c.tag)) && !c.default.PNone? then Checked(Err(ValueError(MismatchMessage(p))), ws)
    else if IsRange(c.tag) && CheckRange(p).Some? then Checked(Err(CheckRange(p).value), ws)
    else if IsEnum(c.tag) then Checked(CheckEnum(p), ws)
    else if IsList(c.tag) then
      var ws' := ws + (if c.options == [] then [EmptyOptionsWarning(p)] else []);
      if !OptionsOfType(c) then Checked(Err(ValueError(OptionTypeMessage(p, "list"))), ws')
      else Checked(Ok(p), ws')
    else Checked(Ok(p), ws)
  }

  // ---------------------------------------------------------------- the configuration

  type DeviceName = s: string | s == "cpu" || s == "gpu" || s == "mps" witness "cpu"
  type DefaultDeviceName = s: string | s == "cpu" || s == "gpu" || s == "" || s == "mps" witness "cpu"

  const AlgorithmTypes: seq<string> := ["Image2Alignment", "Image2Image", "Image2Segmentation", "Image2Embedding", "Undefined", "Generic"]

  datatype AlgorithmConfigRecord = AlgorithmConfigRecord(
    algorithmType: string, tags: seq<string>, description: string,
    supportedDevices: seq<DeviceName>, defaultDevice: DefaultDeviceName, additionalParameters: seq<AdditionalParameter>)

  /** A configuration with every field left at its default. */
  const DefaultConfig := AlgorithmConfigRecord("Undefined", [], "", ["cpu"], "cpu", [])

  function DeviceMessage(cfg: AlgorithmConfigRecord): string
  {
    "Default device '" + cfg.defaultDevice + DeviceMiddle + DeviceListRepr(cfg.supportedDevices) + "."
  }

  /** `str(list)` of device names. */
  function DeviceListRepr(ds: seq<DeviceName>): string
  {
    "[" + QuotedJoin(ds) + "]"
  }

  function QuotedJoin(ds: seq<DeviceName>): string
  {
    if ds == [] then "" else "'" + ds[0] + "'" + (if |ds| == 1 then "" else ", " + QuotedJoin(ds[1..]))
  }

  const UndefinedWarning: string := "Algorithm type is set to 'Undefined'. Consider specifying a valid algorithm type. Use 'Generic' for generic algorithms."
  const NoTagsWarning: string := "Tags are empty. Consider providing tags for better categorization. Tags are used to filter algorithms in the REST API."
  const NoDescriptionWarning: string := "Description is empty. Consider providing a description for better documentation."
  const NoDevicesWarning: string := "Supported devices are empty. Consider providing supported devices for better compatibility. You can use 'cpu', 'gpu', or both."
  const NoDefaultDeviceWarning: string := "Default device is empty. Consider providing a default device for better compatibility. You can use 'cpu', 'gpu'."

  /** The literal check on `algorithm_type`, made before any validator runs. */
  const TypeLiteralMessage: string :=
    "Input should be 'Image2Alignment', 'Image2Image', 'Image2Segmentation', 'Image2Embedding', 'Undefined' or 'Generic'"

  function ConfigWarnings(cfg: AlgorithmConfigRecord): seq<string>
  {
    (if cfg.algorithmType == "Undefined" then [UndefinedWarning] else [])
    + (if cfg.tags == [] then [NoTagsWarning] else [])
    + (if cfg.description == "" then [NoDescriptionWarning] else [])
    + (if cfg.supportedDevices == [] then [NoDevicesWarning] else [])
    + (if cfg.defaultDevice == "" then [NoDefaultDeviceWarning] else [])
  }

  /** The additional parameters validated in order; the first one refused is reported. */
  function CheckParameters(ps: seq<AdditionalParameter>): Checked<seq<AdditionalParameter>>
  {
    if ps == [] then Checked(Ok([]), [])
    else
      var first := CheckParameter(ps[0]);
      if first.result.Err? then Checked(Err(first.result.exc), first.warnings)
      else
        var rest := CheckParameters(ps[1..]);
        Checked(if rest.result.Err? then Err(rest.result.exc) else Ok([first.result.value] + rest.result.value),
                first.warnings + rest.warnings)
  }

  /** The whole configuration: its parameters first, then `check_algorithm_type`. */
  function CheckConfig(cfg: AlgorithmConfigRecord): Checked<AlgorithmConfigRecord>
  {
    if cfg.algorithmType !in AlgorithmTypes then Checked(Err(ValueError(TypeLiteralMessage)), [])
    else
      var params := CheckParameters(cfg.additionalParameters);
      if params.result.Err? then Checked(Err(params.result.exc), params.warnings)
      else
        var ws := params.warnings + ConfigWarnings(cfg);
        if cfg.defaultDevice !in cfg.supportedDevices then Checked(Err(ValueError(DeviceMessage(cfg))), ws)
        else Checked(Ok(cfg.(additionalParameters := params.result.value)), ws)
  }

  // ---------------------------------------------------------------- properties

  /**
   * A parameter passes iff its default has the class its type names (or is
   * None), a range has three bounds of that class with min below max, an
   * enum has options of that class containing the default, and a list
   * type's options are all lists.
   */
  lemma ParameterIff(p: AdditionalParameter)
    ensures CheckParameter(p).result.Ok? <==> ParameterOk(p.config)
  {
    var c := p.config;
    if !DefaultTypeOk(c) {
    } else if IsRange(c.tag) {
      assert CheckRange(p).None? <==> RangeOk(c);
    } else if IsEnum(c.tag) {
      assert CheckEnum(p).Ok? <==> EnumOk(c);
    }
  }

  /** Each rejection carries the message of the first rule broken, in the order the validator checks them. */
  lemma ParameterErrors(p: AdditionalParameter)
    ensures var c := p.config; var r := CheckParameter(p).result;
      (!DefaultTypeOk(c) ==> r == Err(ValueError(MismatchMessage(p))))
      && (DefaultTypeOk(c) && IsRange(c.tag) && (c.min.PNone? || c.max.PNone? || c.step.PNone?) ==>
            r == Err(ValueError(BoundsMissingMessage(p))))
      && (DefaultTypeOk(c) && IsEnum(c.tag) && c.options == [] ==> r == Err(ValueError(NoOptionsMessage(p))))
      && ((DefaultTypeOk(c) && IsEnum(c.tag) && c.options != [] && OptionsOfType(c) && !c.default.PNone?
           && !PyIn(c.default, c.options)) ==> r == Err(ValueError(NotAnOptionMessage(p))))
  {
  }

  /** `int` is not `float`, but `bool` is `int`: an int default for a float parameter is refused, a bool one for an int parameter is not. */
  lemma DefaultClasses(name: string, d: string, n: int, b: bool)
    ensures CheckParameter(AdditionalParameter(name, d, ParamConfig(FloatParam, PInt(n), false, [], PNone, PNone, PNone))).result.Err?
    ensures CheckParameter(AdditionalParameter(name, d, ParamConfig(IntParam, PBool(b), false, [], PNone, PNone, PNone))).result.Ok?
  {
  }

  /**
   * After validation an enum's default is always one of its options: a None
   * default has become the first option, any other was already there.
   */
  lemma EnumDefaultIsOption(p: AdditionalParameter)
    requires IsEnum(p.config.tag)
    requires CheckParameter(p).result.Ok?
    ensures var q := CheckParameter(p).result.value;
      PyIn(q.config.default, q.config.options) && q.config.options == p.config.options
      && q == p.(config := p.config.(default := q.config.default))
      && (p.config.default.PNone? ==> q.config.default == p.config.options[0])
      && (!p.config.default.PNone? ==> q == p)
  {
    var c := p.config;
    if c.default.PNone? {
      PyEqRefl(c.options[0]);
      assert PyEq(c.options[0], c.options[0]);
    }
  }

  lemma PyEqRefl(v: PyVal)
    ensures PyEq(v, v)
  {
    match v
    case PList(xs) =>
      forall i | 0 <= i < |xs|
        ensures PyEq(xs[i], xs[i])
      {
        PyEqRefl(xs[i]);
      }
    case _ =>
  }

  /** Validation keeps every parameter but an enum's, which may only gain a default. */
  lemma NonEnumUnchanged(p: AdditionalParameter)
    requires !IsEnum(p.config.tag) && CheckParameter(p).result.Ok?
    ensures CheckParameter(p).result.value == p
  {
  }

  /** Documentation only warns: the description never changes whether or how a parameter validates. */
  lemma ParameterDescriptionIrrelevant(p: AdditionalParameter, d: string)
    ensures CheckParameter(p.(description := d)).result.Ok? == CheckParameter(p).result.Ok?
    ensures CheckParameter(p).result.Ok? ==>
      CheckParameter(p.(description := d)).result.value == CheckParameter(p).result.value.(description := d)
    ensures d == "" ==> EmptyDescriptionWarning(p.name) in CheckParameter(p.(description := d)).warnings
  {
    ParameterIff(p);
    ParameterIff(p.(description := d));
    if d == "" {
      assert DocWarnings(p.(description := d))[0] == EmptyDescriptionWarning(p.name);
    }
  }

  /** The parameters pass iff each does, and the validated list keeps their order. */
  lemma {:induction false} ParametersIff(ps: seq<AdditionalParameter>)
    ensures var r := CheckParameters(ps).result;
      (r.Ok? <==> forall i :: 0 <= i < |ps| ==> CheckParameter(ps[i]).result.Ok?)
      && (r.Ok? ==> |r.value| == |ps| && forall i :: 0 <= i < |ps| ==> r.value[i] == CheckParameter(ps[i]).result.value)
  {
    if ps != [] {
      ParametersIff(ps[1..]);
      assert forall i :: 1 <= i < |ps| ==> ps[i] == ps[1..][i - 1];
    }
  }

  /**
   * A configuration of a known type whose parameters pass is refused iff
   * its default device is not among its supported devices.
   */
  lemma DeviceRule(cfg: AlgorithmConfigRecord)
    requires cfg.algorithmType in AlgorithmTypes && CheckParameters(cfg.additionalParameters).result.Ok?
    ensures CheckConfig(cfg).result.Err? <==> cfg.defaultDevice !in cfg.supportedDevices
    ensures CheckConfig(cfg).result.Err? ==> CheckConfig(cfg).result.exc == ValueError(DeviceMessage(cfg))
  {
  }

  /** An empty default device is never supported, so such a configuration is always refused. */
  lemma EmptyDefaultDeviceRefused(cfg: AlgorithmConfigRecord)
    requires cfg.defaultDevice == ""
    ensures CheckConfig(cfg).result.Err?
  {
    assert cfg.defaultDevice !in cfg.supportedDevices;
  }

  /** The defaults (cpu as the default and only supported device) pass, with warnings about everything left empty. */
  lemma DefaultConfigPasses()
    ensures CheckConfig(DefaultConfig) == Checked(Ok(DefaultConfig), [UndefinedWarning, NoTagsWarning, NoDescriptionWarning])
  {
    assert "cpu" in DefaultConfig.supportedDevices;
    assert ConfigWarnings(DefaultConfig) == [UndefinedWarning, NoTagsWarning, NoDescriptionWarning];
  }

  /** Tags and description only warn: they never change whether a configuration passes or what it becomes. */
  lemma DocumentationIrrelevant(cfg: AlgorithmConfigRecord, tags: seq<string>, d: string)
    ensures var cfg' := cfg.(tags := tags, description := d);
      CheckConfig(cfg').result.Ok? == CheckConfig(cfg).result.Ok?
      && (CheckConfig(cfg).result.Ok? ==> CheckConfig(cfg').result.value == CheckConfig(cfg).result.value.(tags := tags, description := d))
  {
  }
}
