/** What the transformation promises about the row the classifier receives
    (app.py:18-27 and 63-110), proved of the functions of FeatureSpec, which
    the script in FeaturePipeline computes. */
module PipelineProperties {
  import opened Frames
  import opened FeatureSpec
  import Decimal

  /** The indicator columns the one-hot encoder names, or none when naming
      them raises. */
  function OneHotNames(art: Artifacts): seq<string> {
    match art.oneHot.featureNamesOut(ONE_HOT_COLUMNS)
    case Done(names) => names
    case Raised(_) => []
  }

  /** The input frame lists the groups one after the other (label, one-hot,
      min-max, robust, pass-through), so every form field belongs to exactly
      one column group. */
  lemma GroupsPartitionRecord()
    ensures RECORD_COLUMNS ==
            LABEL_COLUMNS + ONE_HOT_COLUMNS + MIN_MAX_COLUMNS + ROBUST_COLUMNS + PASS_THROUGH_COLUMNS
    ensures multiset(RECORD_COLUMNS) ==
            multiset(LABEL_COLUMNS + ROBUST_COLUMNS + MIN_MAX_COLUMNS + ONE_HOT_COLUMNS + PASS_THROUGH_COLUMNS)
  {
    var r := RECORD_COLUMNS;
    assert r == r[..2] + r[2..4] + r[4..6] + r[6..7] + r[7..];
    assert r[..2] == LABEL_COLUMNS;
    assert r[2..4] == ONE_HOT_COLUMNS;
    assert r[4..6] == MIN_MAX_COLUMNS;
    assert r[6..7] == ROBUST_COLUMNS;
    assert r[7..] == PASS_THROUGH_COLUMNS;
    SwapGroups(LABEL_COLUMNS, ONE_HOT_COLUMNS, MIN_MAX_COLUMNS, ROBUST_COLUMNS, PASS_THROUGH_COLUMNS);
  }

  /** Exchanging two of five concatenated groups keeps the same columns. */
  lemma SwapGroups(l: seq<string>, o: seq<string>, m: seq<string>, ro: seq<string>, p: seq<string>)
    ensures multiset(l + o + m + ro + p) == multiset(l + ro + m + o + p)
  {
  }

  /** The label, robust and one-hot groups have no column in common, and
      none repeats a column. */
  lemma GroupsDisjoint()
    ensures Distinct(LABEL_COLUMNS) && Distinct(ONE_HOT_COLUMNS)
    ensures forall c :: c in LABEL_COLUMNS ==> c !in ROBUST_COLUMNS && c !in ONE_HOT_COLUMNS
    ensures forall c :: c in ONE_HOT_COLUMNS ==> c !in ROBUST_COLUMNS && c !in LABEL_COLUMNS
  {
  }

  /** The input frame holds each form field, unmodified, under its column. */
  lemma RecordHoldsForm(a: Applicant)
    ensures forall i :: 0 <= i < |RECORD_COLUMNS| ==> Record(a).cells[RECORD_COLUMNS[i]] == a.Cells()[i]
  {
  }

  /** The cells the label and one-hot stages read are the form's own values. */
  lemma RecordEncodedCells(a: Applicant)
    ensures "SEXO" in Record(a).cells && Record(a).cells["SEXO"] == Text(a.sex)
    ensures "CICLO_POSTULA" in Record(a).cells && Record(a).cells["CICLO_POSTULA"] == Int(a.cycle)
    ensures "MODALIDAD" in Record(a).cells && Record(a).cells["MODALIDAD"] == Text(a.modality)
    ensures "ANIO_POSTULA" in Record(a).cells && Record(a).cells["ANIO_POSTULA"] == Int(a.applicationYear)
  {
    var t := Record(a);
    var cs := a.Cells();
    assert RECORD_COLUMNS[0] == "SEXO" && cs[0] == Text(a.sex);
    assert RECORD_COLUMNS[1] == "CICLO_POSTULA" && cs[1] == Int(a.cycle);
    assert RECORD_COLUMNS[2] == "MODALIDAD" && cs[2] == Text(a.modality);
    assert RECORD_COLUMNS[3] == "ANIO_POSTULA" && cs[3] == Int(a.applicationYear);
  }

  /** The cell the robust scaler reads is the form's final score. */
  lemma RecordScoreCell(a: Applicant)
    ensures "CALIF_FINAL" in Record(a).cells && Record(a).cells["CALIF_FINAL"] == Float(a.finalScore)
  {
    assert RECORD_COLUMNS[6] == "CALIF_FINAL" && a.Cells()[6] == Float(a.finalScore);
  }

  /** No label of `cols` occurs again after its own position. */
  lemma DistinctTail(cols: seq<string>, i: nat)
    requires Distinct(cols) && i < |cols|
    ensures cols[i] !in cols[i + 1..]
  {
  }

  /** The label loop needs an encoder and a cell for each of its columns,
      and keeps every cell the frame had. */
  lemma {:induction false} LabelEncodeDomain(t: Table, cols: seq<string>, encoders: map<string, LabelEncoder>, r: Table)
    requires LabelEncode(t, cols, encoders) == Ok(r)
    ensures forall c :: c in cols ==> c in encoders && c in t.cells
    ensures forall c :: c in t.cells <==> c in r.cells
    decreases |cols|
  {
    if cols != [] {
      var c := cols[0];
      var next := t.With(c, encoders[c](t.cells[c]).value);
      LabelEncodeDomain(next, cols[1..], encoders, r);
      assert forall x :: x in cols ==> x == c || x in cols[1..];
    }
  }

  /** The label loop leaves every other column as it was. */
  lemma {:induction false} LabelEncodeKeeps(t: Table, cols: seq<string>, encoders: map<string, LabelEncoder>, r: Table)
    requires LabelEncode(t, cols, encoders) == Ok(r)
    ensures forall c :: c !in cols && c in t.cells ==> c in r.cells && r.cells[c] == t.cells[c]
    decreases |cols|
  {
    if cols != [] {
      var c := cols[0];
      var next := t.With(c, encoders[c](t.cells[c]).value);
      LabelEncodeKeeps(next, cols[1..], encoders, r);
    }
  }

  /** Each label column ends up holding its own encoder's code for the value
      it held before. */
  lemma {:induction false} LabelEncodeCodes(t: Table, cols: seq<string>, encoders: map<string, LabelEncoder>, r: Table)
    requires Distinct(cols) && LabelEncode(t, cols, encoders) == Ok(r)
    ensures forall c :: c in cols ==> c in encoders && c in t.cells && c in r.cells
    ensures forall c :: c in cols ==> encoders[c](t.cells[c]) == Done(r.cells[c])
    decreases |cols|
  {
    LabelEncodeDomain(t, cols, encoders, r);
    if cols != [] {
      var c := cols[0];
      var v := encoders[c](t.cells[c]).value;
      var next := t.With(c, v);
      assert Distinct(cols[1..]) by {
        forall i, j | 0 <= i < j < |cols[1..]| ensures cols[1..][i] != cols[1..][j] {
          assert cols[1..][i] == cols[i + 1] && cols[1..][j] == cols[j + 1];
        }
      }
      LabelEncodeCodes(next, cols[1..], encoders, r);
      DistinctTail(cols, 0);
      LabelEncodeKeeps(next, cols[1..], encoders, r);
      assert forall x :: x in cols ==> x == c || x in cols[1..];
    }
  }

  /** A scaler leaves every column it is not given as it was. */
  lemma ScaleKeeps(t: Table, cols: seq<string>, s: Scaler, r: Table, c: string)
    requires Scale(t, cols, s) == Ok(r)
    requires c !in cols && c in t.cells
    ensures c in r.cells && r.cells[c] == t.cells[c]
  {
  }

  /** A scaler replaces the columns it is given with its own output, in
      their order. */
  lemma ScaleEffect(t: Table, cols: seq<string>, s: Scaler, r: Table)
    requires Distinct(cols) && Scale(t, cols, s) == Ok(r)
    ensures forall c :: c in cols ==> c in t.cells
    ensures forall c :: c in t.cells <==> c in r.cells
    ensures s.transform(cols, t.Select(cols).value).Done?
    ensures |s.transform(cols, t.Select(cols).value).value| == |cols|
    ensures forall i :: 0 <= i < |cols| ==> r.cells[cols[i]] == s.transform(cols, t.Select(cols).value).value[i]
  {
    var out := s.transform(cols, t.Select(cols).value).value;
    forall i | 0 <= i < |cols| ensures r.cells[cols[i]] == out[i] {
      DistinctTail(cols, i);
      WithAllLastWins(t, cols, out, i);
    }
  }

  /** The one-hot inputs become text, each the `str` of what was there. */
  lemma TextColumnsEffect(t: Table, cols: seq<string>, showFloat: real -> string, r: Table)
    requires Distinct(cols) && TextColumns(t, cols, showFloat) == Ok(r)
    ensures forall c :: c in cols ==> c in t.cells && c in r.cells && r.cells[c] == AsText(t.cells[c], showFloat)
  {
    var texts := Texts(t.Select(cols).value, showFloat);
    forall c | c in cols ensures c in r.cells && r.cells[c] == AsText(t.cells[c], showFloat) {
      var i :| 0 <= i < |cols| && cols[i] == c;
      DistinctTail(cols, i);
      WithAllLastWins(t, cols, texts, i);
    }
  }

  /** Converting to text leaves every other column as it was. */
  lemma TextColumnsKeeps(t: Table, cols: seq<string>, showFloat: real -> string, r: Table, c: string)
    requires TextColumns(t, cols, showFloat) == Ok(r)
    requires c !in cols && c in t.cells
    ensures c in r.cells && r.cells[c] == t.cells[c]
  {
  }

  /** Before alignment the row holds, in this order, the label columns, the
      robust-scaled column, the columns the min-max scaler was fitted on (not
      the hard-coded list) and the one-hot indicator columns. */
  lemma CombinedLayout(art: Artifacts, showFloat: real -> string, t: Table, c: Table)
    requires Combined(art, showFloat, t) == Ok(c)
    ensures art.oneHot.featureNamesOut(ONE_HOT_COLUMNS).Done?
    ensures c.columns == LABEL_COLUMNS + ROBUST_COLUMNS + art.minMax.featureNamesIn + OneHotNames(art)
  {
    var texts := Transformed(art, showFloat, t).value;
    var block := OneHotBlock(texts, ONE_HOT_COLUMNS, art.oneHot).value;
    assert Combine(texts, art.minMax.featureNamesIn, block) == Ok(c);
  }

  /** The tables between the in-place stages of a run that finished. */
  lemma TransformedSteps(art: Artifacts, showFloat: real -> string, t: Table, r: Table)
    returns (labelled: Table, robust: Table, scaled: Table)
    requires Transformed(art, showFloat, t) == Ok(r)
    ensures LabelEncode(t, LABEL_COLUMNS, art.labelEncoders) == Ok(labelled)
    ensures Scale(labelled, ROBUST_COLUMNS, art.robust) == Ok(robust)
    ensures Scale(robust, art.minMax.featureNamesIn, art.minMax) == Ok(scaled)
    ensures TextColumns(scaled, ONE_HOT_COLUMNS, showFloat) == Ok(r)
  {
    labelled := LabelEncode(t, LABEL_COLUMNS, art.labelEncoders).value;
    robust := Scale(labelled, ROBUST_COLUMNS, art.robust).value;
    scaled := Scale(robust, art.minMax.featureNamesIn, art.minMax).value;
  }

  /** After the in-place stages, a label column holds its encoder's code for
      the value it held, unless the min-max scaler also claims it. */
  lemma TransformedLabel(art: Artifacts, showFloat: real -> string, t: Table, r: Table, col: string)
    requires Transformed(art, showFloat, t) == Ok(r)
    requires col in LABEL_COLUMNS && col !in art.minMax.featureNamesIn
    ensures col in art.labelEncoders && col in t.cells && col in r.cells
    ensures art.labelEncoders[col](t.cells[col]) == Done(r.cells[col])
  {
    var t1, t2, t3 := TransformedSteps(art, showFloat, t, r);
    GroupsDisjoint();
    LabelEncodeCodes(t, LABEL_COLUMNS, art.labelEncoders, t1);
    ScaleKeeps(t1, ROBUST_COLUMNS, art.robust, t2, col);
    ScaleKeeps(t2, art.minMax.featureNamesIn, art.minMax, t3, col);
    TextColumnsKeeps(t3, ONE_HOT_COLUMNS, showFloat, r, col);
  }

  /** After the in-place stages, a one-hot input column holds the text of
      the value it held, unless the min-max scaler also claims it. */
  lemma TransformedOneHot(art: Artifacts, showFloat: real -> string, t: Table, r: Table, col: string)
    requires t.Valid() && Transformed(art, showFloat, t) == Ok(r)
    requires col in ONE_HOT_COLUMNS && col !in art.minMax.featureNamesIn
    ensures col in t.cells && col in r.cells && r.cells[col] == AsText(t.cells[col], showFloat)
  {
    var t1, t2, t3 := TransformedSteps(art, showFloat, t, r);
    GroupsDisjoint();
    TextColumnsEffect(t3, ONE_HOT_COLUMNS, showFloat, r);
    assert col in r.columns;
    LabelEncodeKeeps(t, LABEL_COLUMNS, art.labelEncoders, t1);
    ScaleKeeps(t1, ROBUST_COLUMNS, art.robust, t2, col);
    ScaleKeeps(t2, art.minMax.featureNamesIn, art.minMax, t3, col);
  }

  /** A label column reaches the combined row as its encoder's code for the
      input value; once the concatenation succeeded, the min-max scaler
      cannot have claimed it. */
  lemma CombinedLabel(art: Artifacts, showFloat: real -> string, t: Table, c: Table, col: string)
    requires Combined(art, showFloat, t) == Ok(c)
    requires col in LABEL_COLUMNS
    ensures col in art.labelEncoders && col in t.cells && col in c.cells
    ensures art.labelEncoders[col](t.cells[col]) == Done(c.cells[col])
  {
    var texts, block := CombinedBlock(art, showFloat, t, c);
    assert Combine(texts, art.minMax.featureNamesIn, block) == Ok(c);
    FittedApart(art.minMax.featureNamesIn, block.columns);
    TransformedLabel(art, showFloat, t, texts, col);
    assert col in HeadColumns(art.minMax.featureNamesIn);
  }

  /** The applicant's sex and cycle reach the classifier as their encoders'
      codes. */
  lemma CombinedLabelCodes(art: Artifacts, showFloat: real -> string, a: Applicant, c: Table)
    requires Combined(art, showFloat, Record(a)) == Ok(c)
    ensures "SEXO" in art.labelEncoders && "SEXO" in c.cells
    ensures art.labelEncoders["SEXO"](Text(a.sex)) == Done(c.cells["SEXO"])
    ensures "CICLO_POSTULA" in art.labelEncoders && "CICLO_POSTULA" in c.cells
    ensures art.labelEncoders["CICLO_POSTULA"](Int(a.cycle)) == Done(c.cells["CICLO_POSTULA"])
  {
    RecordEncodedCells(a);
    assert LABEL_COLUMNS[0] == "SEXO" && LABEL_COLUMNS[1] == "CICLO_POSTULA";
    CombinedLabel(art, showFloat, Record(a), c, "SEXO");
    CombinedLabel(art, showFloat, Record(a), c, "CICLO_POSTULA");
  }

  /** A label value the encoder rejects ends the request with
      UnknownCategory: it is never replaced by a default code. */
  lemma UnknownSexFails(art: Artifacts, showFloat: real -> string, a: Applicant)
    requires "SEXO" in art.labelEncoders && art.labelEncoders["SEXO"](Text(a.sex)).Raised?
    ensures FeatureRow(art, showFloat, a) == Err(UnknownCategory("SEXO", art.labelEncoders["SEXO"](Text(a.sex)).message))
  {
    RecordEncodedCells(a);
    var e := UnknownCategory("SEXO", art.labelEncoders["SEXO"](Text(a.sex)).message);
    assert LabelEncode(Record(a), LABEL_COLUMNS, art.labelEncoders) == Err(e);
    assert Transformed(art, showFloat, Record(a)) == Err(e);
    assert Combined(art, showFloat, Record(a)) == Err(e);
  }

  lemma UnknownCycleFails(art: Artifacts, showFloat: real -> string, a: Applicant)
    requires "SEXO" in art.labelEncoders && art.labelEncoders["SEXO"](Text(a.sex)).Done?
    requires "CICLO_POSTULA" in art.labelEncoders && art.labelEncoders["CICLO_POSTULA"](Int(a.cycle)).Raised?
    ensures FeatureRow(art, showFloat, a) ==
            Err(UnknownCategory("CICLO_POSTULA", art.labelEncoders["CICLO_POSTULA"](Int(a.cycle)).message))
  {
    RecordEncodedCells(a);
    var t0 := Record(a);
    var e := UnknownCategory("CICLO_POSTULA", art.labelEncoders["CICLO_POSTULA"](Int(a.cycle)).message);
    var t1 := t0.With("SEXO", art.labelEncoders["SEXO"](Text(a.sex)).value);
    assert t1.cells["CICLO_POSTULA"] == Int(a.cycle);
    assert LABEL_COLUMNS[1..] == ["CICLO_POSTULA"];
    assert LabelEncode(t1, ["CICLO_POSTULA"], art.labelEncoders) == Err(e);
    assert LabelEncode(t0, LABEL_COLUMNS, art.labelEncoders) == Err(e);
    assert Transformed(art, showFloat, t0) == Err(e);
    assert Combined(art, showFloat, t0) == Err(e);
  }

  /** The one-hot encoder is given text: the modality as entered and the
      application year as its decimal digits, unless the min-max scaler has
      claimed those columns. */
  lemma OneHotSeesFormText(art: Artifacts, showFloat: real -> string, a: Applicant, t: Table)
    requires Transformed(art, showFloat, Record(a)) == Ok(t)
    requires "MODALIDAD" !in art.minMax.featureNamesIn && "ANIO_POSTULA" !in art.minMax.featureNamesIn
    ensures "MODALIDAD" in t.cells && t.cells["MODALIDAD"] == Text(a.modality)
    ensures "ANIO_POSTULA" in t.cells && t.cells["ANIO_POSTULA"] == Text(Decimal.IntText(a.applicationYear))
  {
    RecordEncodedCells(a);
    assert ONE_HOT_COLUMNS[0] == "MODALIDAD" && ONE_HOT_COLUMNS[1] == "ANIO_POSTULA";
    TransformedOneHot(art, showFloat, Record(a), t, "MODALIDAD");
    TransformedOneHot(art, showFloat, Record(a), t, "ANIO_POSTULA");
  }

  /** Selecting two present columns gives their two cells. */
  lemma SelectTwo(t: Table, x: string, y: string)
    requires x in t.cells && y in t.cells
    ensures t.Select([x, y]) == Ok([t.cells[x], t.cells[y]])
  {
    var r := t.Select([x, y]);
    assert |r.value| == 2 && r.value == [r.value[0], r.value[1]];
  }

  /** The indicator block of a finished run is the one-hot encoder's output
      for the converted frame, and it reaches the concatenated row cell by
      cell under the encoder's names. */
  lemma CombinedBlock(art: Artifacts, showFloat: real -> string, t: Table, c: Table)
    returns (texts: Table, block: Row)
    requires Combined(art, showFloat, t) == Ok(c)
    ensures Transformed(art, showFloat, t) == Ok(texts)
    ensures OneHotBlock(texts, ONE_HOT_COLUMNS, art.oneHot) == Ok(block)
    ensures block.columns == OneHotNames(art) && |block.values| == |block.columns|
    ensures forall i :: 0 <= i < |block.columns| ==>
              block.columns[i] in c.cells && c.cells[block.columns[i]] == block.values[i]
  {
    texts := Transformed(art, showFloat, t).value;
    block := OneHotBlock(texts, ONE_HOT_COLUMNS, art.oneHot).value;
    assert Combine(texts, art.minMax.featureNamesIn, block) == Ok(c);
  }

  /** The one-hot encoder is given the modality as entered and the
      application year as its decimal text, and its output is what the
      concatenated row holds under the encoder's column names. */
  lemma CombinedOneHot(art: Artifacts, showFloat: real -> string, a: Applicant, c: Table)
    requires Combined(art, showFloat, Record(a)) == Ok(c)
    requires "MODALIDAD" !in art.minMax.featureNamesIn && "ANIO_POSTULA" !in art.minMax.featureNamesIn
    ensures art.oneHot.transform(ONE_HOT_COLUMNS, [Text(a.modality), Text(Decimal.IntText(a.applicationYear))]).Done?
    ensures var out := art.oneHot.transform(ONE_HOT_COLUMNS, [Text(a.modality), Text(Decimal.IntText(a.applicationYear))]).value;
            |out| == |OneHotNames(art)| &&
            forall i :: 0 <= i < |out| ==> OneHotNames(art)[i] in c.cells && c.cells[OneHotNames(art)[i]] == out[i]
  {
    var texts, block := CombinedBlock(art, showFloat, Record(a), c);
    OneHotSeesFormText(art, showFloat, a, texts);
    assert ONE_HOT_COLUMNS == ["MODALIDAD", "ANIO_POSTULA"];
    SelectTwo(texts, "MODALIDAD", "ANIO_POSTULA");
    assert texts.Select(ONE_HOT_COLUMNS).value == [Text(a.modality), Text(Decimal.IntText(a.applicationYear))];
  }

  /** A concatenation that succeeded had a min-max list with no repeated
      column and no label or robust column. */
  lemma FittedApart(fitted: seq<string>, rest: seq<string>)
    requires Distinct(HeadColumns(fitted) + rest)
    ensures Distinct(fitted)
    ensures forall f :: f in fitted ==> f !in LABEL_COLUMNS && f !in ROBUST_COLUMNS
  {
    var names := HeadColumns(fitted) + rest;
    var k := |LABEL_COLUMNS + ROBUST_COLUMNS|;
    assert k == 3;
    assert forall i :: 0 <= i < |fitted| ==> names[k + i] == fitted[i];
    assert names[0] == "SEXO" && names[1] == "CICLO_POSTULA" && names[2] == "CALIF_FINAL";
    forall i, j | 0 <= i < j < |fitted| ensures fitted[i] != fitted[j] {
      assert names[k + i] != names[k + j];
    }
    forall f | f in fitted ensures f !in LABEL_COLUMNS && f !in ROBUST_COLUMNS {
      var i :| 0 <= i < |fitted| && fitted[i] == f;
      assert names[k + i] != names[0] && names[k + i] != names[1] && names[k + i] != names[2];
    }
  }

  /** After the in-place stages, the final score holds the robust scaler's
      output for the value it held, unless the min-max scaler also claims it. */
  lemma TransformedRobust(art: Artifacts, showFloat: real -> string, t: Table, r: Table)
    requires Transformed(art, showFloat, t) == Ok(r)
    requires "CALIF_FINAL" in t.cells && "CALIF_FINAL" !in art.minMax.featureNamesIn
    ensures art.robust.transform(ROBUST_COLUMNS, [t.cells["CALIF_FINAL"]]).Done?
    ensures var out := art.robust.transform(ROBUST_COLUMNS, [t.cells["CALIF_FINAL"]]).value;
            |out| == 1 && "CALIF_FINAL" in r.cells && r.cells["CALIF_FINAL"] == out[0]
  {
    var t1, t2, t3 := TransformedSteps(art, showFloat, t, r);
    GroupsDisjoint();
    LabelEncodeKeeps(t, LABEL_COLUMNS, art.labelEncoders, t1);
    assert t1.Select(ROBUST_COLUMNS).value == [t.cells["CALIF_FINAL"]];
    ScaleEffect(t1, ROBUST_COLUMNS, art.robust, t2);
    ScaleKeeps(t2, art.minMax.featureNamesIn, art.minMax, t3, "CALIF_FINAL");
    TextColumnsKeeps(t3, ONE_HOT_COLUMNS, showFloat, r, "CALIF_FINAL");
  }

  /** The final score reaches the combined row as the robust scaler's output
      for the score as entered; once the concatenation succeeded, the
      min-max scaler cannot have claimed it. */
  lemma CombinedRobust(art: Artifacts, showFloat: real -> string, a: Applicant, c: Table)
    requires Combined(art, showFloat, Record(a)) == Ok(c)
    ensures art.robust.transform(ROBUST_COLUMNS, [Float(a.finalScore)]).Done?
    ensures var out := art.robust.transform(ROBUST_COLUMNS, [Float(a.finalScore)]).value;
            |out| == 1 && "CALIF_FINAL" in c.cells && c.cells["CALIF_FINAL"] == out[0]
  {
    var texts, block := CombinedBlock(art, showFloat, Record(a), c);
    assert Combine(texts, art.minMax.featureNamesIn, block) == Ok(c);
    FittedApart(art.minMax.featureNamesIn, block.columns);
    RecordScoreCell(a);
    TransformedRobust(art, showFloat, Record(a), texts);
    assert "CALIF_FINAL" in HeadColumns(art.minMax.featureNamesIn);
  }

  /** After the in-place stages, the columns the min-max scaler was fitted
      on hold its output for the values they held, when no label, robust or
      one-hot column is among them. */
  lemma TransformedMinMax(art: Artifacts, showFloat: real -> string, t: Table, r: Table)
    requires Transformed(art, showFloat, t) == Ok(r)
    requires Distinct(art.minMax.featureNamesIn)
    requires forall f :: f in art.minMax.featureNamesIn ==>
               f !in LABEL_COLUMNS && f !in ROBUST_COLUMNS && f !in ONE_HOT_COLUMNS
    ensures t.Select(art.minMax.featureNamesIn).Ok?
    ensures art.minMax.transform(art.minMax.featureNamesIn, t.Select(art.minMax.featureNamesIn).value).Done?
    ensures var fitted := art.minMax.featureNamesIn;
            var out := art.minMax.transform(fitted, t.Select(fitted).value).value;
            |out| == |fitted| &&
            forall i :: 0 <= i < |fitted| ==> fitted[i] in r.cells && r.cells[fitted[i]] == out[i]
  {
    var fitted := art.minMax.featureNamesIn;
    var t1, t2, t3 := TransformedSteps(art, showFloat, t, r);
    ScaleEffect(t2, fitted, art.minMax, t3);
    UntouchedBeforeMinMax(art, t, t1, t2);
    var out := art.minMax.transform(fitted, t2.Select(fitted).value).value;
    TextKeepsAll(t3, fitted, showFloat, r);
    assert forall i :: 0 <= i < |fitted| ==> fitted[i] in r.cells && r.cells[fitted[i]] == out[i];
  }

  /** Converting the one-hot inputs to text leaves the cells of `others` as
      they were, when none of them is a one-hot input. */
  lemma TextKeepsAll(t: Table, others: seq<string>, showFloat: real -> string, r: Table)
    requires TextColumns(t, ONE_HOT_COLUMNS, showFloat) == Ok(r)
    requires forall f :: f in others ==> f in t.cells && f !in ONE_HOT_COLUMNS
    ensures forall i :: 0 <= i < |others| ==> others[i] in r.cells && r.cells[others[i]] == t.cells[others[i]]
  {
    forall i | 0 <= i < |others| ensures others[i] in r.cells && r.cells[others[i]] == t.cells[others[i]] {
      TextColumnsKeeps(t, ONE_HOT_COLUMNS, showFloat, r, others[i]);
    }
  }

  /** The label and robust stages leave the min-max scaler's columns as the
      input had them. */
  lemma UntouchedBeforeMinMax(art: Artifacts, t: Table, t1: Table, t2: Table)
    requires LabelEncode(t, LABEL_COLUMNS, art.labelEncoders) == Ok(t1)
    requires Scale(t1, ROBUST_COLUMNS, art.robust) == Ok(t2)
    requires forall f :: f in art.minMax.featureNamesIn ==> f in t2.cells && f !in LABEL_COLUMNS && f !in ROBUST_COLUMNS
    ensures t.Select(art.minMax.featureNamesIn) == t2.Select(art.minMax.featureNamesIn)
  {
    var fitted := art.minMax.featureNamesIn;
    LabelEncodeDomain(t, LABEL_COLUMNS, art.labelEncoders, t1);
    LabelEncodeKeeps(t, LABEL_COLUMNS, art.labelEncoders, t1);
    ScaleEffect(t1, ROBUST_COLUMNS, art.robust, t2);
    forall f | f in fitted ensures f in t.cells && t2.cells[f] == t.cells[f] {
      ScaleKeeps(t1, ROBUST_COLUMNS, art.robust, t2, f);
    }
    assert t.Select(fitted).value == t2.Select(fitted).value;
  }

  /** The min-max scaler is given the input's own cells for the columns it
      was fitted on, and its output reaches the combined row under those
      columns, provided none of them is a one-hot input. */
  lemma CombinedMinMax(art: Artifacts, showFloat: real -> string, t: Table, c: Table)
    requires Combined(art, showFloat, t) == Ok(c)
    requires forall f :: f in art.minMax.featureNamesIn ==> f !in ONE_HOT_COLUMNS
    ensures t.Select(art.minMax.featureNamesIn).Ok?
    ensures art.minMax.transform(art.minMax.featureNamesIn, t.Select(art.minMax.featureNamesIn).value).Done?
    ensures var fitted := art.minMax.featureNamesIn;
            var out := art.minMax.transform(fitted, t.Select(fitted).value).value;
            |out| == |fitted| &&
            forall i :: 0 <= i < |fitted| ==> fitted[i] in c.cells && c.cells[fitted[i]] == out[i]
  {
    var fitted := art.minMax.featureNamesIn;
    var texts, block := CombinedBlock(art, showFloat, t, c);
    assert Combine(texts, fitted, block) == Ok(c);
    FittedApart(fitted, block.columns);
    TransformedMinMax(art, showFloat, t, texts);
    var out := art.minMax.transform(fitted, t.Select(fitted).value).value;
    forall i | 0 <= i < |fitted| ensures fitted[i] in c.cells && c.cells[fitted[i]] == out[i] {
      assert HeadColumns(fitted)[|LABEL_COLUMNS + ROBUST_COLUMNS| + i] == fitted[i];
    }
  }

  /** A pass-through field never enters the combined row, unless a fitted
      encoder itself names it. */
  lemma PassThroughDropped(art: Artifacts, showFloat: real -> string, t: Table, c: Table, p: string)
    requires Combined(art, showFloat, t) == Ok(c)
    requires p in PASS_THROUGH_COLUMNS && p !in art.minMax.featureNamesIn && p !in OneHotNames(art)
    ensures p !in c.cells
  {
    CombinedLayout(art, showFloat, t, c);
    PassThroughNotHead(p);
    var head := LABEL_COLUMNS + ROBUST_COLUMNS;
    assert c.columns == head + art.minMax.featureNamesIn + OneHotNames(art);
    assert p !in head + art.minMax.featureNamesIn;
  }

  /** No pass-through field is a label or robust column. */
  lemma PassThroughNotHead(p: string)
    requires p in PASS_THROUGH_COLUMNS
    ensures p !in LABEL_COLUMNS + ROBUST_COLUMNS
  {
  }

  /** After alignment the row has exactly the schema's columns in the
      schema's order; a column the combined row has keeps its value, and one
      it lacks is NaN. */
  lemma RowFollowsSchema(art: Artifacts, showFloat: real -> string, a: Applicant)
    ensures FeatureRow(art, showFloat, a).Ok? <==> Combined(art, showFloat, Record(a)).Ok?
    ensures FeatureRow(art, showFloat, a).Ok? ==>
              var row := FeatureRow(art, showFloat, a).value;
              var c := Combined(art, showFloat, Record(a)).value;
              row.columns == art.schema && |row.values| == |art.schema| &&
              forall i :: 0 <= i < |art.schema| ==>
                row.values[i] == if art.schema[i] in c.cells then c.cells[art.schema[i]] else Missing
  {
    var combined := Combined(art, showFloat, Record(a));
    if combined.Ok? {
      assert FeatureRow(art, showFloat, a) == Ok(Align(combined.value, art.schema));
    }
  }

  /** A pass-through field that the schema asks for reaches the classifier
      as NaN. */
  lemma PassThroughReachesModelAsMissing(art: Artifacts, showFloat: real -> string, a: Applicant, row: Row, i: nat)
    requires FeatureRow(art, showFloat, a) == Ok(row) && i < |art.schema|
    requires art.schema[i] in PASS_THROUGH_COLUMNS
    requires art.schema[i] !in art.minMax.featureNamesIn && art.schema[i] !in OneHotNames(art)
    ensures row.columns[i] == art.schema[i] && row.values[i] == Missing
  {
    var c := Combined(art, showFloat, Record(a)).value;
    PassThroughDropped(art, showFloat, Record(a), c, art.schema[i]);
    RowFollowsSchema(art, showFloat, a);
  }
}
