/** The admission script as it runs: it builds the input frame, changes it
    column group by column group, concatenates the groups into a second frame,
    adds the schema columns that frame lacks and selects the schema
    (app.py:63-110). Each method is proved to compute the matching function of
    module FeatureSpec. */
module FeaturePipeline {
  import opened Frames
  import opened FeatureSpec

  /** The label-encoding loop (app.py:87-88). */
  method EncodeLabels(f: Frame, cols: seq<string>, encoders: map<string, LabelEncoder>) returns (s: Result<()>)
    requires f.Valid()
    modifies f
    ensures f.Valid()
    ensures s.Ok? ==> LabelEncode(old(f.View()), cols, encoders) == Ok(f.View())
    ensures s.Err? ==> LabelEncode(old(f.View()), cols, encoders) == Err(s.error)
  {
    assert cols[0..] == cols;
    for i := 0 to |cols|
      invariant f.Valid()
      invariant LabelEncode(f.View(), cols[i..], encoders) == LabelEncode(old(f.View()), cols, encoders)
    {
      var c := cols[i];
      assert cols[i..][0] == c && cols[i..][1..] == cols[i + 1..];
      if c !in encoders {
        return Err(MissingEncoder(c));
      }
      if c !in f.cells {
        return Err(MissingColumn(c));
      }
      match encoders[c](f.cells[c]) {
        case Raised(m) =>
          return Err(UnknownCategory(c, m));
        case Done(v) =>
          f.Set(c, v);
      }
    }
    assert cols[|cols|..] == [];
    return Ok(());
  }

  /** `f[cols] = scaler.transform(f[cols])` (app.py:91 and 93). */
  method ScaleColumns(f: Frame, cols: seq<string>, scaler: Scaler) returns (s: Result<()>)
    requires f.Valid()
    modifies f
    ensures f.Valid()
    ensures s.Ok? ==> Scale(old(f.View()), cols, scaler) == Ok(f.View())
    ensures s.Err? ==> Scale(old(f.View()), cols, scaler) == Err(s.error) && f.View() == old(f.View())
  {
    var vs := f.Select(cols);
    if vs.Err? {
      return Err(vs.error);
    }
    match scaler.transform(cols, vs.value) {
      case Raised(m) =>
        return Err(TransformFailed(m));
      case Done(out) =>
        if |out| != |cols| {
          return Err(ShapeMismatch(|cols|, |out|));
        }
        f.SetAll(cols, out);
        return Ok(());
    }
  }

  /** `f[cols] = f[cols].astype(str)` (app.py:96). */
  method ConvertToText(f: Frame, cols: seq<string>, showFloat: real -> string) returns (s: Result<()>)
    requires f.Valid()
    modifies f
    ensures f.Valid()
    ensures s.Ok? ==> TextColumns(old(f.View()), cols, showFloat) == Ok(f.View())
    ensures s.Err? ==> TextColumns(old(f.View()), cols, showFloat) == Err(s.error) && f.View() == old(f.View())
  {
    var vs := f.Select(cols);
    if vs.Err? {
      return Err(vs.error);
    }
    f.SetAll(cols, Texts(vs.value, showFloat));
    return Ok(());
  }

  /** The loop over the classifier's feature names that adds each absent one
      as a NaN column (app.py:107-109). */
  method AddMissingColumns(f: Frame, schema: seq<string>)
    requires f.Valid()
    modifies f
    ensures f.Valid() && f.View() == FillMissing(old(f.View()), schema)
  {
    assert schema[0..] == schema;
    for i := 0 to |schema|
      invariant f.Valid()
      invariant FillMissing(f.View(), schema[i..]) == FillMissing(old(f.View()), schema)
    {
      assert schema[i..][0] == schema[i] && schema[i..][1..] == schema[i + 1..];
      if schema[i] !in f.columns {
        f.Set(schema[i], Missing);
      }
    }
    assert schema[|schema|..] == [];
  }

  /** The in-place transformations of the input frame (app.py:87-96). */
  method TransformColumns(f: Frame, art: Artifacts, showFloat: real -> string) returns (s: Result<()>)
    requires f.Valid()
    modifies f
    ensures f.Valid()
    ensures s.Ok? ==> Transformed(art, showFloat, old(f.View())) == Ok(f.View())
    ensures s.Err? ==> Transformed(art, showFloat, old(f.View())) == Err(s.error)
  {
    s := EncodeLabels(f, LABEL_COLUMNS, art.labelEncoders);
    if s.Err? {
      return;
    }
    s := ScaleColumns(f, ROBUST_COLUMNS, art.robust);
    if s.Err? {
      return;
    }
    var minMaxColumns := art.minMax.featureNamesIn;
    s := ScaleColumns(f, minMaxColumns, art.minMax);
    if s.Err? {
      return;
    }
    s := ConvertToText(f, ONE_HOT_COLUMNS, showFloat);
  }

  /** Transforming the input frame's column groups and concatenating them
      (app.py:87-104). */
  method CombineGroups(art: Artifacts, showFloat: real -> string, t: Table) returns (r: Result<Table>)
    requires t.Valid()
    ensures r == Combined(art, showFloat, t)
  {
    var entrada := new Frame(t);
    var s := TransformColumns(entrada, art, showFloat);
    if s.Err? {
      return Err(s.error);
    }
    var block := OneHotBlock(entrada.View(), ONE_HOT_COLUMNS, art.oneHot);
    if block.Err? {
      return Err(block.error);
    }
    r := Combine(entrada.View(), art.minMax.featureNamesIn, block.value);
  }

  /** Adding the absent schema columns and selecting the schema
      (app.py:107-110). */
  method AlignToSchema(t: Table, schema: seq<string>) returns (row: Row)
    requires t.Valid()
    ensures row == Align(t, schema)
  {
    var entradaFinal := new Frame(t);
    AddMissingColumns(entradaFinal, schema);
    var values := entradaFinal.Select(schema);
    row := Row(schema, values.value);
  }

  /** The whole transformation, from the form to the row given to the
      classifier (app.py:63-110). */
  method BuildFeatureRow(art: Artifacts, showFloat: real -> string, a: Applicant) returns (r: Result<Row>)
    ensures r == FeatureRow(art, showFloat, a)
  {
    var combined := CombineGroups(art, showFloat, Record(a));
    if combined.Err? {
      return Err(combined.error);
    }
    var row := AlignToSchema(combined.value, art.schema);
    r := Ok(row);
  }
}
