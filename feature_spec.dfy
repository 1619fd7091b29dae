/** What the admission script computes, step by step, from the applicant's
    form to the row handed to the classifier (app.py:18-27 and 63-110). Each
    step is a function of the frame before it; the imperative script in
    module FeaturePipeline is proved to compute exactly these. */
module FeatureSpec {
  import opened Frames

  // The column groups, as the script hard-codes them (app.py:18-27).
  const LABEL_COLUMNS: seq<string> := ["SEXO", "CICLO_POSTULA"]
  const ROBUST_COLUMNS: seq<string> := ["CALIF_FINAL"]
  /** Declared, but overwritten by the min-max scaler's own fitted column list
      before it is used. */
  const MIN_MAX_COLUMNS: seq<string> := ["ANIO_NACIMIENTO", "COLEGIO_ANIO_EGRESO"]
  const ONE_HOT_COLUMNS: seq<string> := ["MODALIDAD", "ANIO_POSTULA"]
  const PASS_THROUGH_COLUMNS: seq<string> :=
    ["NACIMIENTO_PAIS", "DOMICILIO_DEPA", "COLEGIO_DEPA", "NACIMIENTO_DEPA",
     "ESPECIALIDAD", "DOMICILIO_PROV", "COLEGIO_PROV", "NACIMIENTO_PROV",
     "DOMICILIO_DIST", "COLEGIO_DIST", "NACIMIENTO_DIST", "COLEGIO"]

  /** The input frame's columns, in the order the script builds it. */
  const RECORD_COLUMNS: seq<string> :=
    ["SEXO", "CICLO_POSTULA", "MODALIDAD", "ANIO_POSTULA", "ANIO_NACIMIENTO",
     "COLEGIO_ANIO_EGRESO", "CALIF_FINAL",
     "NACIMIENTO_PAIS", "DOMICILIO_DEPA", "COLEGIO_DEPA", "NACIMIENTO_DEPA",
     "ESPECIALIDAD", "DOMICILIO_PROV", "COLEGIO_PROV", "NACIMIENTO_PROV",
     "DOMICILIO_DIST", "COLEGIO_DIST", "NACIMIENTO_DIST", "COLEGIO"]

  /** The nineteen form fields. The first seven come from fixed widgets; the
      other twelve are picked from the stored catalogue of seen values. */
  datatype Applicant = Applicant(
    sex: string, cycle: int, modality: string, applicationYear: int,
    birthYear: int, graduationYear: int, finalScore: real,
    birthCountry: Value, homeRegion: Value, schoolRegion: Value, birthRegion: Value,
    specialty: Value, homeProvince: Value, schoolProvince: Value, birthProvince: Value,
    homeDistrict: Value, schoolDistrict: Value, birthDistrict: Value, school: Value)
  {
    /** The fields as cells, in the order of RECORD_COLUMNS. */
    function Cells(): (vs: seq<Value>)
      ensures |vs| == |RECORD_COLUMNS|
    {
      [Text(sex), Int(cycle), Text(modality), Int(applicationYear), Int(birthYear),
       Int(graduationYear), Float(finalScore),
       birthCountry, homeRegion, schoolRegion, birthRegion, specialty, homeProvince,
       schoolProvince, birthProvince, homeDistrict, schoolDistrict, birthDistrict, school]
    }
  }

  /** An exception raised inside a fitted encoder, with its message. */
  datatype Fallible<+T> = Done(value: T) | Raised(message: string)

  /** A fitted label encoder applied to one cell. */
  type LabelEncoder = Value -> Fallible<Value>

  /** A fitted scaler: the columns it was fitted on, and its transform of a
      named one-row frame into one row of numbers. */
  datatype Scaler = Scaler(
    featureNamesIn: seq<string>,
    transform: (seq<string>, seq<Value>) -> Fallible<seq<Value>>)

  /** A fitted one-hot encoder: its transform into an indicator row, and the
      names it gives to that row's columns for the given input columns. */
  datatype OneHotEncoder = OneHotEncoder(
    transform: (seq<string>, seq<Value>) -> Fallible<seq<Value>>,
    featureNamesOut: seq<string> -> Fallible<seq<string>>)

  /** The artifacts loaded at start-up; `schema` is the classifier's
      `feature_names_in_`. */
  datatype Artifacts = Artifacts(
    labelEncoders: map<string, LabelEncoder>,
    robust: Scaler,
    minMax: Scaler,
    oneHot: OneHotEncoder,
    schema: seq<string>)

  /** A single row given as its column names and its values, one per name:
      the one-hot indicator frame, and the row given to the classifier. */
  datatype Row = Row(columns: seq<string>, values: seq<Value>) {
    predicate Valid() {
      |columns| == |values|
    }
  }

  /** Building the input frame from the form (app.py:63-83). */
  function Record(a: Applicant): (t: Table)
    ensures t.Valid() && t.columns == RECORD_COLUMNS
  {
    FromColumns(RECORD_COLUMNS, a.Cells())
  }

  /** The label-encoding loop (app.py:87-88): each column in turn is replaced
      by its own encoder's code for the cell. */
  function LabelEncode(t: Table, cols: seq<string>, encoders: map<string, LabelEncoder>): (r: Result<Table>)
    ensures t.Valid() && r.Ok? ==> r.value.Valid() && r.value.columns == t.columns
    decreases |cols|
  {
    if cols == [] then Ok(t)
    else
      var c := cols[0];
      if c !in encoders then Err(MissingEncoder(c))
      else if c !in t.cells then Err(MissingColumn(c))
      else
        match encoders[c](t.cells[c])
        case Raised(m) => Err(UnknownCategory(c, m))
        case Done(v) => LabelEncode(t.With(c, v), cols[1..], encoders)
  }

  /** `df[cols] = scaler.transform(df[cols])` (app.py:91 and 93). */
  function Scale(t: Table, cols: seq<string>, s: Scaler): (r: Result<Table>)
    ensures t.Valid() && r.Ok? ==> r.value.Valid() && r.value.columns == t.columns
  {
    var vs :- t.Select(cols);
    match s.transform(cols, vs)
    case Raised(m) => Err(TransformFailed(m))
    case Done(out) =>
      if |out| != |cols| then Err(ShapeMismatch(|cols|, |out|))
      else Ok(t.WithAll(cols, out))
  }

  /** Every cell as its text. */
  function Texts(vs: seq<Value>, showFloat: real -> string): seq<Value> {
    seq(|vs|, i requires 0 <= i < |vs| => AsText(vs[i], showFloat))
  }

  /** `df[cols] = df[cols].astype(str)` (app.py:96). */
  function TextColumns(t: Table, cols: seq<string>, showFloat: real -> string): (r: Result<Table>)
    ensures t.Valid() && r.Ok? ==> r.value.Valid() && r.value.columns == t.columns
  {
    var vs :- t.Select(cols);
    Ok(t.WithAll(cols, Texts(vs, showFloat)))
  }

  /** The indicator frame built from the one-hot columns (app.py:97-98). */
  function OneHotBlock(t: Table, cols: seq<string>, oh: OneHotEncoder): (r: Result<Row>)
    ensures r.Ok? ==> r.value.Valid()
    ensures r.Ok? ==> oh.featureNamesOut(cols) == Done(r.value.columns)
    ensures r.Ok? ==> t.Select(cols).Ok? && oh.transform(cols, t.Select(cols).value) == Done(r.value.values)
  {
    var vs :- t.Select(cols);
    match oh.transform(cols, vs)
    case Raised(m) => Err(TransformFailed(m))
    case Done(arr) =>
      match oh.featureNamesOut(cols)
      case Raised(m) => Err(TransformFailed(m))
      case Done(names) =>
        if |arr| != |names| then Err(ShapeMismatch(|names|, |arr|))
        else Ok(Row(names, arr))
  }

  /** The columns taken from the transformed input frame, in concatenation
      order (app.py:102). */
  function HeadColumns(minMaxColumns: seq<string>): seq<string> {
    LABEL_COLUMNS + ROBUST_COLUMNS + minMaxColumns
  }

  /** `pd.concat([df[label + robust + minMax], block], axis=1)` (app.py:101-104). */
  function Combine(t: Table, minMaxColumns: seq<string>, block: Row): (r: Result<Table>)
    requires block.Valid()
    ensures r.Ok? <==>
              (forall c :: c in HeadColumns(minMaxColumns) ==> c in t.cells) &&
              Distinct(HeadColumns(minMaxColumns) + block.columns)
    ensures r.Ok? ==> r.value.Valid() && r.value.columns == HeadColumns(minMaxColumns) + block.columns
    ensures r.Ok? ==> forall c :: c in HeadColumns(minMaxColumns) ==> r.value.cells[c] == t.cells[c]
    ensures r.Ok? ==> forall i :: 0 <= i < |block.columns| ==>
                        block.columns[i] in r.value.cells && r.value.cells[block.columns[i]] == block.values[i]
  {
    var head := HeadColumns(minMaxColumns);
    var vs :- t.Select(head);
    var names := head + block.columns;
    if !Distinct(names) then Err(DuplicateColumns(names))
    else
      var r := FromColumns(names, vs + block.values);
      assert forall i :: 0 <= i < |block.columns| ==> names[|head| + i] == block.columns[i];
      assert forall c :: c in head ==> exists i :: 0 <= i < |head| && head[i] == c && names[i] == c;
      Ok(r)
  }

  /** The loop that adds every schema column the row lacks, as NaN (app.py:107-109). */
  function FillMissing(t: Table, schema: seq<string>): (r: Table)
    ensures forall c :: c in t.cells ==> c in r.cells && r.cells[c] == t.cells[c]
    ensures forall c :: c in schema && c !in t.cells ==> c in r.cells && r.cells[c] == Missing
    ensures forall c :: c in r.cells ==> c in t.cells || c in schema
    ensures t.columns <= r.columns
    ensures t.Valid() ==> r.Valid()
    decreases |schema|
  {
    if schema == [] then t
    else
      var next := if schema[0] in t.cells then t else t.With(schema[0], Missing);
      assert forall c :: c in schema <==> c == schema[0] || c in schema[1..];
      FillMissing(next, schema[1..])
  }

  /** `df[schema]` after the fill (app.py:110): exactly the schema's columns,
      in its order. */
  function Align(t: Table, schema: seq<string>): (r: Row)
    ensures r.columns == schema && |r.values| == |schema|
    ensures forall i :: 0 <= i < |schema| ==>
              r.values[i] == if schema[i] in t.cells then t.cells[schema[i]] else Missing
  {
    var filled := FillMissing(t, schema);
    Row(schema, filled.Select(schema).value)
  }

  /** The in-place transformations of the input frame, group by group
      (app.py:87-96). */
  function Transformed(art: Artifacts, showFloat: real -> string, t: Table): (r: Result<Table>)
    ensures t.Valid() && r.Ok? ==> r.value.Valid() && r.value.columns == t.columns
  {
    var labelled :- LabelEncode(t, LABEL_COLUMNS, art.labelEncoders);
    var robust :- Scale(labelled, ROBUST_COLUMNS, art.robust);
    var scaled :- Scale(robust, art.minMax.featureNamesIn, art.minMax);
    TextColumns(scaled, ONE_HOT_COLUMNS, showFloat)
  }

  /** The input frame's transformations and the concatenation of its
      groups (app.py:87-104). */
  function Combined(art: Artifacts, showFloat: real -> string, entrada: Table): (r: Result<Table>)
    ensures r.Ok? ==> r.value.Valid()
  {
    var texts :- Transformed(art, showFloat, entrada);
    var block :- OneHotBlock(texts, ONE_HOT_COLUMNS, art.oneHot);
    Combine(texts, art.minMax.featureNamesIn, block)
  }

  /** The row handed to the classifier (app.py:63-110). */
  function FeatureRow(art: Artifacts, showFloat: real -> string, a: Applicant): (r: Result<Row>)
    ensures r.Ok? ==> r.value.Valid() && r.value.columns == art.schema
  {
    var combined :- Combined(art, showFloat, Record(a));
    Ok(Align(combined, art.schema))
  }
}
