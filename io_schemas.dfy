/**
 * The data schemas algorithm inputs and outputs are validated against.
 *
 * An array is abstracted to its element type and its shape; a dataset is a
 * dict from field names to values. Validating a dataset against a schema
 * checks each field's type (an optional field may be missing, and then
 * takes its default, or given as None, which it keeps), runs the field's
 * validator, and keeps only the schema's fields, as `model_validate`
 * followed by `model_dump` does.
 */
module IoSchemas {
  import opened Wrappers
  import opened PyStr

  /** numpy element types; `float` and `int` compare equal to Float64 and Int64. */
  datatype DType = UInt8 | UInt16 | Int32 | Int64 | Float16 | Float32 | Float64 | BoolType | StringType

  datatype NdArray = NdArray(dtype: DType, shape: seq<nat>)
  {
    function Ndim(): nat { |shape| }
  }

  /** The values a dataset field can hold. */
  datatype Value =
    | Arr(arr: NdArray)
    | ArrList(arrs: seq<NdArray>)
    | Reals(xs: seq<real>)
    | Text(s: string)
    | IntTuple(ns: seq<int>)
    | NoneValue

  type DataDict = map<string, Value>

  /** The declared type of a schema field. */
  datatype FieldType = ArrayField | ArrayListField | RealListField | TextField | TupleField

  /** A field: its name, its type, and for an optional field its default. */
  datatype Field = Field(name: string, ftype: FieldType, default: Option<Value>)

  datatype Schema = GenericSchema | SegmentationSchema | ImageSchema | VolumeSchema | MeshSchema | AlignmentSchema | EmbeddingSchema

  function Fields(s: Schema): seq<Field>
  {
    match s
    case GenericSchema => [Field("data", ArrayField, None)]
    case SegmentationSchema => [Field("mask", ArrayField, None)]
    case ImageSchema =>
      [Field("image", ArrayField, None), Field("mask", ArrayField, Some(NoneValue)), Field("points", ArrayListField, Some(NoneValue))]
    case VolumeSchema =>
      [Field("volume", ArrayField, None), Field("mask", ArrayField, Some(NoneValue)),
       Field("points", ArrayListField, Some(NoneValue)), Field("stats", TextField, Some(NoneValue))]
    case MeshSchema =>
      [Field("vertices", ArrayField, None), Field("faces", ArrayField, None), Field("stats", TextField, Some(NoneValue))]
    case AlignmentSchema =>
      [Field("points1", ArrayListField, Some(ArrList([]))), Field("points2", ArrayListField, Some(ArrList([]))),
       Field("confidence", RealListField, Some(Reals([]))), Field("transform_matrix", ArrayField, Some(NoneValue)),
       Field("translation_matrix", ArrayField, Some(NoneValue))]
    case EmbeddingSchema =>
      [Field("features", ArrayField, None), Field("input_size", TupleField, None), Field("original_size", TupleField, None)]
  }

  /** Whether a value has the field's declared type; `None` is accepted only for an optional field. */
  predicate HasType(f: Field, v: Value)
  {
    if v.NoneValue? then f.default.Some?
    else match f.ftype
      case ArrayField => v.Arr?
      case ArrayListField => v.ArrList?
      case RealListField => v.Reals?
      case TextField => v.Text?
      case TupleField => v.IntTuple?
  }

  const ImageDTypes: seq<DType> := [UInt8, UInt16, Float64, Float32, Float16]

  const ImageNdimHead: string := "Image must be 2D (got "
  const ImageNdimMiddle: string := " dimensions), grayscale or RGB (got "
  const ImageDTypeHead: string := "Image must be uint8, uint16, float64, float32 or float16 (got "
  const VolumeMessage: string := "Volume must be a 3 dimensional array."
  const VertsMessage: string := "Mesh vertices must be Nx3 numpy array of floats"
  const FacesMessage: string := "Mesh vertices must be Nx3 numpy array of integers pointing into vertices array."

  /**
   * `str(dtype)`. A string array's dtype prints with its item length
   * (`<U5`), which the abstraction does not keep, so only its prefix is given.
   */
  function DTypeName(t: DType): string
  {
    match t
    case UInt8 => "uint8"
    case UInt16 => "uint16"
    case Int32 => "int32"
    case Int64 => "int64"
    case Float16 => "float16"
    case Float32 => "float32"
    case Float64 => "float64"
    case BoolType => "bool"
    case StringType => "<U"
  }

  /** `ImageSchema.check_image`: the shape is checked first, then the element type. */
  function CheckImage(v: NdArray): (r: Result<NdArray>)
  {
    if v.Ndim() != 2 && (v.Ndim() != 3 || v.shape[0] != 3) then
      // the message reads `v.shape[0]`, which a 0-d array does not have
      if v.Ndim() == 0 then Err(IndexError)
      else Err(ValueError(ImageNdimHead + NatToString(v.Ndim()) + ImageNdimMiddle
                          + NatToString(v.shape[0]) + " channels)."))
    else if v.dtype !in ImageDTypes then
      Err(ValueError(ImageDTypeHead + DTypeName(v.dtype) + ")."))
    else Ok(v)
  }

  /** `VolumeSchema.check_volume`. */
  function CheckVolume(v: NdArray): Result<NdArray>
  {
    if v.Ndim() != 3 then Err(ValueError(VolumeMessage)) else Ok(v)
  }

  /** `MeshSchema.check_verts`. */
  function CheckVerts(v: NdArray): Result<NdArray>
  {
    if v.Ndim() != 2 || v.shape[1] != 3 || v.dtype != Float64 then Err(ValueError(VertsMessage))
    else Ok(v)
  }

  /** `MeshSchema.check_faces`. */
  function CheckFaces(v: NdArray): Result<NdArray>
  {
    if v.Ndim() != 2 || v.shape[1] != 3 || v.dtype != Int64 then
      Err(ValueError(FacesMessage))
    else Ok(v)
  }

  /** The field validator a schema runs on a well-typed value of one of its fields. */
  function RunValidator(s: Schema, name: string, v: Value): Result<Value>
  {
    if v.Arr? && s.ImageSchema? && name == "image" then
      var a :- CheckImage(v.arr); Ok(Arr(a))
    else if v.Arr? && s.VolumeSchema? && name == "volume" then
      var a :- CheckVolume(v.arr); Ok(Arr(a))
    else if v.Arr? && s.MeshSchema? && name == "vertices" then
      var a :- CheckVerts(v.arr); Ok(Arr(a))
    else if v.Arr? && s.MeshSchema? && name == "faces" then
      var a :- CheckFaces(v.arr); Ok(Arr(a))
    else Ok(v)
  }

  const ValidationFailed: string := "validation error"

  /**
   * One field of `model_validate`: a missing field takes its default or
   * fails when it has none; a given value is type-checked (an explicit None
   * passes only for an optional field, and stays None) and then validated.
   */
  function ValidateField(s: Schema, f: Field, d: DataDict): Result<Value>
  {
    if f.name !in d then
      if f.default.Some? then Ok(f.default.value) else Err(ValueError(ValidationFailed))
    else if !HasType(f, d[f.name]) then Err(ValueError(ValidationFailed))
    else RunValidator(s, f.name, d[f.name])
  }

  function ValidateFields(s: Schema, fs: seq<Field>, d: DataDict): Result<DataDict>
  {
    if fs == [] then Ok(map[])
    else
      var v :- ValidateField(s, fs[0], d);
      var rest :- ValidateFields(s, fs[1..], d);
      Ok(rest[fs[0].name := v])
  }

  /** `schema.model_validate(d).model_dump()`. */
  function Validate(s: Schema, d: DataDict): Result<DataDict>
  {
    ValidateFields(s, Fields(s), d)
  }

  // ---------------------------------------------------------------- properties

  predicate ImageShapeOk(a: NdArray)
  {
    a.Ndim() == 2 || (a.Ndim() == 3 && a.shape[0] == 3)
  }

  /** An image passes iff it is 2-D, or 3-D with three channels, and of one of the five element types. */
  lemma CheckImageIff(v: NdArray)
    ensures CheckImage(v).Ok? <==> ImageShapeOk(v) && v.dtype in ImageDTypes
    ensures CheckImage(v).Ok? ==> CheckImage(v).value == v
  {
  }

  /** The element type is looked at only after the shape passes: a bad shape is reported whatever the type. */
  lemma CheckImageShapeFirst(v: NdArray)
    requires !ImageShapeOk(v) && v.Ndim() > 0
    ensures CheckImage(v).Err? && CheckImage(v).exc.ValueError?
    ensures StartsWith(CheckImage(v).exc.msg, "Image must be 2D")
  {
  }

  lemma CheckVolumeIff(v: NdArray)
    ensures CheckVolume(v).Ok? <==> v.Ndim() == 3
  {
  }

  lemma CheckMeshIff(v: NdArray)
    ensures CheckVerts(v).Ok? <==> v.Ndim() == 2 && v.shape[1] == 3 && v.dtype == Float64
    ensures CheckFaces(v).Ok? <==> v.Ndim() == 2 && v.shape[1] == 3 && v.dtype == Int64
  {
  }

  /** A successful validation yields exactly the schema's fields. */
  lemma {:induction false} ValidateFieldsKeys(s: Schema, fs: seq<Field>, d: DataDict)
    requires ValidateFields(s, fs, d).Ok?
    ensures forall k :: k in ValidateFields(s, fs, d).value <==> exists f :: f in fs && f.name == k
  {
    if fs != [] {
      ValidateFieldsKeys(s, fs[1..], d);
      assert forall f :: f in fs <==> f == fs[0] || f in fs[1..];
    }
  }

  /** Fields with distinct names each get the value their own validation produced. */
  lemma {:induction false} ValidateFieldsAt(s: Schema, fs: seq<Field>, d: DataDict, i: nat)
    requires ValidateFields(s, fs, d).Ok? && i < |fs|
    requires forall j :: 0 <= j < |fs| && j != i ==> fs[j].name != fs[i].name
    ensures ValidateField(s, fs[i], d).Ok?
    ensures fs[i].name in ValidateFields(s, fs, d).value
    ensures ValidateFields(s, fs, d).value[fs[i].name] == ValidateField(s, fs[i], d).value
  {
    if i > 0 {
      ValidateFieldsAt(s, fs[1..], d, i - 1);
    }
  }

  /** Validation fails iff some field fails. */
  lemma {:induction false} ValidateFieldsIff(s: Schema, fs: seq<Field>, d: DataDict)
    ensures ValidateFields(s, fs, d).Ok? <==> forall i :: 0 <= i < |fs| ==> ValidateField(s, fs[i], d).Ok?
  {
    if fs != [] {
      ValidateFieldsIff(s, fs[1..], d);
      assert forall i :: 1 <= i < |fs| ==> fs[i] == fs[1..][i - 1];
    }
  }

  /**
   * An optional field with no validator accepts exactly a missing value,
   * None, or a value of its type; only a missing one takes the default, an
   * explicit None is kept as None.
   */
  lemma OptionalField(s: Schema, f: Field, d: DataDict)
    requires f.default.Some? && (f.name in d && !d[f.name].NoneValue? ==> RunValidator(s, f.name, d[f.name]) == Ok(d[f.name]))
    ensures ValidateField(s, f, d).Ok? <==> (f.name in d ==> d[f.name].NoneValue? || HasType(f, d[f.name]))
    ensures f.name !in d ==> ValidateField(s, f, d) == Ok(f.default.value)
    ensures f.name in d && d[f.name].NoneValue? ==> ValidateField(s, f, d) == Ok(NoneValue)
  {
  }

  /** An alignment dataset that gives "points1" as None keeps it None rather than taking the empty default. */
  lemma AlignmentNoneKept(d: DataDict)
    requires Validate(AlignmentSchema, d).Ok? && "points1" in d && d["points1"].NoneValue?
    ensures Validate(AlignmentSchema, d).value["points1"] == NoneValue
    ensures Fields(AlignmentSchema)[0].default == Some(ArrList([]))
  {
    var fs := Fields(AlignmentSchema);
    ValidateFieldsAt(AlignmentSchema, fs, d, 0);
  }

  /**
   * An image dataset is accepted iff its "image" is a valid image and its
   * optional "mask" and "points" have their types; the result keeps the
   * image, and a missing mask or points reads None.
   */
  lemma ImageSchemaSpec(d: DataDict)
    ensures var r := Validate(ImageSchema, d);
      (r.Ok? <==>
        "image" in d && d["image"].Arr? && ImageShapeOk(d["image"].arr) && d["image"].arr.dtype in ImageDTypes
        && ("mask" in d ==> d["mask"].NoneValue? || d["mask"].Arr?)
        && ("points" in d ==> d["points"].NoneValue? || d["points"].ArrList?))
      && (r.Ok? ==> (r.value.Keys == {"image", "mask", "points"} && r.value["image"] == d["image"]
            && ("mask" !in d ==> r.value["mask"] == NoneValue) && ("points" !in d ==> r.value["points"] == NoneValue)))
  {
    var fs := Fields(ImageSchema);
    ValidateFieldsIff(ImageSchema, fs, d);
    assert |fs| == 3;
    OptionalField(ImageSchema, fs[1], d);
    OptionalField(ImageSchema, fs[2], d);
    if "image" in d && d["image"].Arr? {
      CheckImageIff(d["image"].arr);
    }
    assert ValidateField(ImageSchema, fs[0], d).Ok? <==>
      "image" in d && d["image"].Arr? && ImageShapeOk(d["image"].arr) && d["image"].arr.dtype in ImageDTypes;
    var r := Validate(ImageSchema, d);
    if r.Ok? {
      ValidateFieldsKeys(ImageSchema, fs, d);
      assert forall f :: f in fs <==> f == fs[0] || f == fs[1] || f == fs[2];
      assert r.value.Keys == {"image", "mask", "points"};
      ValidateFieldsAt(ImageSchema, fs, d, 0);
      ValidateFieldsAt(ImageSchema, fs, d, 1);
      ValidateFieldsAt(ImageSchema, fs, d, 2);
    }
  }

  /** A volume dataset is accepted iff "volume" is a 3-D array and the optional fields have their types. */
  lemma VolumeSchemaSpec(d: DataDict)
    ensures Validate(VolumeSchema, d).Ok? <==>
      "volume" in d && d["volume"].Arr? && d["volume"].arr.Ndim() == 3
      && ("mask" in d ==> d["mask"].NoneValue? || d["mask"].Arr?)
      && ("points" in d ==> d["points"].NoneValue? || d["points"].ArrList?)
      && ("stats" in d ==> d["stats"].NoneValue? || d["stats"].Text?)
  {
    var fs := Fields(VolumeSchema);
    ValidateFieldsIff(VolumeSchema, fs, d);
    assert |fs| == 4;
    OptionalField(VolumeSchema, fs[1], d);
    OptionalField(VolumeSchema, fs[2], d);
    OptionalField(VolumeSchema, fs[3], d);
  }

  /** Every alignment field is optional: an empty dataset validates to the defaults. */
  lemma AlignmentDefaults()
    ensures Validate(AlignmentSchema, map[]) == Ok(map["points1" := ArrList([]), "points2" := ArrList([]),
      "confidence" := Reals([]), "transform_matrix" := NoneValue, "translation_matrix" := NoneValue])
  {
    var fs := Fields(AlignmentSchema);
    var d: DataDict := map[];
    var s := AlignmentSchema;
    assert fs[4..][1..] == fs[5..] == [];
    assert fs[3..][1..] == fs[4..];
    assert fs[2..][1..] == fs[3..];
    assert fs[1..][1..] == fs[2..];
    var m4 := map["translation_matrix" := NoneValue];
    var m3 := m4["transform_matrix" := NoneValue];
    var m2 := m3["confidence" := Reals([])];
    var m1 := m2["points2" := ArrList([])];
    assert ValidateFields(s, fs[4..], d) == Ok(m4);
    assert ValidateFields(s, fs[3..], d) == Ok(m3);
    assert ValidateFields(s, fs[2..], d) == Ok(m2);
    assert ValidateFields(s, fs[1..], d) == Ok(m1);
    assert ValidateFields(s, fs, d) == Ok(m1["points1" := ArrList([])]);
    var want := map["points1" := ArrList([]), "points2" := ArrList([]),
      "confidence" := Reals([]), "transform_matrix" := NoneValue, "translation_matrix" := NoneValue];
    assert m1["points1" := ArrList([])].Keys == want.Keys;
    assert m1["points1" := ArrList([])] == want;
  }

  /** A schema field missing from the dataset is filled with its default when it has one, and rejected when it has none. */
  lemma {:induction false} MissingField(s: Schema, d: DataDict, i: nat)
    requires i < |Fields(s)| && Fields(s)[i].name !in d
    ensures Fields(s)[i].default.Some? ==> ValidateField(s, Fields(s)[i], d) == Ok(Fields(s)[i].default.value)
    ensures Fields(s)[i].default.None? ==> Validate(s, d).Err?
  {
    ValidateFieldsIff(s, Fields(s), d);
  }
}
