# Admission predictor: the feature pipeline

`app.py` is a Streamlit page. It predicts whether an applicant to the
university will be admitted. The applicant fills in nineteen form fields.
The script then:

1. builds a one-row DataFrame `entrada` from the fields;
2. changes `entrada` in place, one column group at a time:
   - each label column goes through its own label encoder;
   - `CALIF_FINAL` goes through the robust scaler;
   - the min-max scaler's own fitted columns go through the min-max scaler;
   - the one-hot inputs become text;
3. expands the one-hot inputs into an indicator block;
4. concatenates the label, robust and min-max columns with that block;
5. adds every column of the classifier's `feature_names_in_` that is still
   absent, as NaN, and selects exactly those columns in that order;
6. labels the predicted class "ADMITIDO" or "NO ADMITIDO".

The model is written in Dafny and has six modules:

- `Decimal` is Python's `str()` of an integer, which is what `astype(str)`
  makes of an integer application year. It is proved to round-trip.
- `Frames` models a one-row DataFrame in two forms:
  - the value `Table`: an ordered list of distinct column labels, with one
    cell per label;
  - the class `Frame`: the same data as mutable fields, with the in-place
    operations `df[cols]`, `df[col] = v` and `df[cols] = row`.

  Each `Frame` method is proved to compute the matching `Table` function.
- `FeatureSpec` states each step of the script as a function of the frame
  before it. It covers the record, the label loop, the two scalers,
  `astype(str)`, the one-hot block, the concatenation, the NaN fill and the
  final selection.
- `FeaturePipeline` is the script itself, written imperatively: one `Frame`
  changed step by step, with loops over the label columns and over the
  schema. Every method is proved equal to its `FeatureSpec` function.
- `PipelineProperties` proves what the pipeline promises about the row the
  classifier receives.
- `Outcome` maps the predicted class to the label and the message shown.

The fitted artifacts are parameters that the model does not look inside:
the label encoders, the two scalers, the one-hot encoder, the classifier
and the classifier's schema. Every call into an encoder, a scaler or the
classifier may raise, and a raise is carried as an error. The two
`feature_names_in_` lists are plain values (see "Left out").

## Model

| member | source | states |
|---|---|---|
| Decimal.NatText | app.py:96 | the decimal text of a natural number is all digits, and it starts with '0' exactly when the number is zero |
| Decimal.IntText | app.py:96 | Python's `str()` of an int is well-formed integer text: it starts with a minus sign exactly when the number is negative, and with '0' exactly when it is zero; a negative number's digits never start with '0' |
| Decimal.NatTextRoundTrip | app.py:96 | reading back the decimal digits of a natural number gives the number |
| Decimal.IntTextRoundTrip | app.py:96 | `str()` of an integer is a well-formed integer text, and parsing it gives the integer back |
| Decimal.IntTextInjective | app.py:96 | two integers have the same text exactly when they are equal, so distinct years stay distinct one-hot categories |
| Frames.AsText | app.py:96 | `astype(str)` always gives text; text is kept as it is; an integer becomes text that parses back to it; NaN becomes "nan" |
| Frames.Table.Select | app.py:102 | `df[cols]` succeeds exactly when every label is present; it then gives the cells in the order asked, and otherwise a KeyError naming an absent label |
| Frames.Table.With | app.py:88 | `df[col] = v`: `col` holds `v`; every other cell and label is unchanged; a new label is appended at the end; validity is kept |
| Frames.Table.WithAll | app.py:91-96 | `df[cols] = row`: the labels become the old labels plus `cols`; cells outside `cols` are unchanged; the column order is kept when every label already exists; validity is kept |
| Frames.WithAllLastWins | app.py:91-93 | after `df[cols] = row`, a label holds the row value at its last position in `cols` |
| Frames.FromColumns | app.py:63-83 | a frame built from distinct names and one value per name is valid, has those columns in that order, and holds each value under its name |
| Frames.Frame.Select | app.py:91-93 | reading `df[cols]` cell by cell gives exactly the result of `Table.Select` |
| Frames.Frame.Set | app.py:88 | assigning one column changes the frame exactly as `Table.With` and keeps it valid |
| Frames.Frame.SetAll | app.py:91-96 | assigning the columns one after another changes the frame exactly as `Table.WithAll` and keeps it valid |
| FeatureSpec.Record | app.py:63-83 | the input frame is valid and has the nineteen columns in the order the script lists them |
| FeatureSpec.LabelEncode | app.py:87-88 | on a valid frame, a finished label loop gives a valid frame with the same columns in the same order |
| FeatureSpec.Scale | app.py:91-93 | on a valid frame, a finished scaling gives a valid frame with the same columns in the same order |
| FeatureSpec.TextColumns | app.py:96 | on a valid frame, the text conversion gives a valid frame with the same columns in the same order |
| FeatureSpec.OneHotBlock | app.py:97-98 | a built indicator block has one value per column; its columns are the names the encoder gives for the one-hot inputs; its values are the encoder's output for exactly the cells of those inputs |
| FeatureSpec.Combine | app.py:101-104 | the concatenation succeeds exactly when the label, robust and min-max columns are all present and no label repeats; it then has those columns followed by the block's, with their cells copied |
| FeatureSpec.FillMissing | app.py:107-109 | the fill keeps every existing cell, adds each absent schema column as NaN, adds nothing else, only appends columns and keeps validity |
| FeatureSpec.Align | app.py:107-110 | the aligned row has exactly the schema's columns in its order; a present column keeps its value and an absent one is NaN |
| FeatureSpec.Transformed | app.py:87-96 | on a valid frame, the in-place stages give a valid frame with the same columns in the same order |
| FeatureSpec.Combined | app.py:87-104 | a finished concatenation is a valid frame |
| FeatureSpec.FeatureRow | app.py:63-110 | a finished transformation gives a row with one value per column, whose columns are the classifier's schema; `RowFollowsSchema` states its values |
| FeaturePipeline.EncodeLabels | app.py:87-88 | the label loop on the frame ends, or raises, exactly as `LabelEncode` says, and keeps the frame valid |
| FeaturePipeline.ScaleColumns | app.py:91-93 | the in-place scaling ends, or raises, as `Scale` says; when it raises the frame is unchanged |
| FeaturePipeline.ConvertToText | app.py:96 | the in-place `astype(str)` ends, or raises, as `TextColumns` says; when it raises the frame is unchanged |
| FeaturePipeline.AddMissingColumns | app.py:107-109 | the loop over the schema leaves the frame equal to `FillMissing` of the frame before it |
| FeaturePipeline.TransformColumns | app.py:87-96 | the four in-place stages together end, or raise, as `Transformed` says |
| FeaturePipeline.CombineGroups | app.py:87-104 | transforming the input frame and concatenating its groups gives exactly `Combined` |
| FeaturePipeline.AlignToSchema | app.py:107-110 | filling and selecting the schema gives exactly `Align` |
| FeaturePipeline.BuildFeatureRow | app.py:63-110 | the whole script, from the form to the classifier's row, gives exactly `FeatureRow` |
| PipelineProperties.GroupsPartitionRecord | app.py:18-27 | the input frame lists the label, one-hot, min-max, robust and pass-through groups one after the other, so the five groups together hold each of the nineteen form columns exactly once |
| PipelineProperties.GroupsDisjoint | app.py:18-21 | the label, robust and one-hot groups share no column and repeat none |
| PipelineProperties.RecordHoldsForm | app.py:63-83 | the input frame holds each form field, unchanged, under its own column |
| PipelineProperties.RecordEncodedCells | app.py:64-67 | the sex, cycle, modality and application-year cells are the form's own values |
| PipelineProperties.RecordScoreCell | app.py:70 | the `CALIF_FINAL` cell is the form's final score |
| PipelineProperties.LabelEncodeDomain | app.py:87-88 | a finished label loop had an encoder and a cell for each label column, and the frame has the same labels before and after |
| PipelineProperties.LabelEncodeKeeps | app.py:87-88 | the label loop leaves every column outside its list unchanged |
| PipelineProperties.LabelEncodeCodes | app.py:87-88 | each label column ends up holding its own encoder's code for the value it held |
| PipelineProperties.ScaleKeeps | app.py:91-93 | a scaler leaves every column it is not given unchanged |
| PipelineProperties.ScaleEffect | app.py:91-93 | a scaler's columns were all present and no label is added; its transform succeeded with one value per column; each column holds the output at its own position |
| PipelineProperties.TextColumnsEffect | app.py:96 | each one-hot input column ends up holding `astype(str)` of the value it held |
| PipelineProperties.TextColumnsKeeps | app.py:96 | the text conversion leaves every other column unchanged |
| PipelineProperties.TransformedLabel | app.py:87-96 | after the in-place stages, a label column holds its encoder's code for its input value, unless the min-max scaler also claims the column |
| PipelineProperties.TransformedOneHot | app.py:87-96 | after the in-place stages, a one-hot input column holds the text of its input value, unless the min-max scaler also claims the column |
| PipelineProperties.CombinedLayout | app.py:92-104 | before alignment the columns are the label columns, then `CALIF_FINAL`, then the min-max scaler's own fitted columns (not the hard-coded list), then the indicator columns |
| PipelineProperties.FittedApart | app.py:92-104 | when the concatenation succeeds, the min-max scaler's fitted list repeats no column and names no label column and not `CALIF_FINAL` |
| PipelineProperties.CombinedLabel | app.py:87-104 | a label column reaches the concatenated row as its encoder's code for its input value, for every fitted min-max list the concatenation accepts |
| PipelineProperties.CombinedLabelCodes | app.py:63-104 | the applicant's sex and cycle reach the concatenated row as their own encoders' codes |
| PipelineProperties.UnknownSexFails | app.py:87-88 | a sex the encoder rejects ends the request with that encoder's error; no default code is used |
| PipelineProperties.UnknownCycleFails | app.py:87-88 | a cycle the encoder rejects, after an accepted sex, ends the request with that encoder's error |
| PipelineProperties.OneHotSeesFormText | app.py:63-96 | after the in-place stages, `MODALIDAD` holds the modality as entered and `ANIO_POSTULA` the application year's decimal text, unless the min-max scaler claims them |
| PipelineProperties.CombinedBlock | app.py:97-104 | a finished run built its indicator block from the converted frame; the block's columns are the encoder's names; each block cell reaches the concatenated row under its name |
| PipelineProperties.CombinedOneHot | app.py:96-104 | the one-hot encoder is given exactly the modality as entered and the application year as its decimal text; its output fills the concatenated row, one value under each of the encoder's column names |
| PipelineProperties.TransformedRobust | app.py:87-96 | after the in-place stages, `CALIF_FINAL` holds the robust scaler's single output for the value it held, unless the min-max scaler also claims it |
| PipelineProperties.CombinedRobust | app.py:63-104 | the robust scaler is given the final score as entered, and its single output is the concatenated row's `CALIF_FINAL` |
| PipelineProperties.UntouchedBeforeMinMax | app.py:87-93 | the label loop and the robust scaler leave the min-max scaler's columns as the input frame had them, when the fitted list names no label or robust column |
| PipelineProperties.TransformedMinMax | app.py:87-96 | after the in-place stages, the min-max scaler's fitted columns hold its output for the input frame's own cells, one value per column, when the fitted list has no repeat and no label, robust or one-hot column |
| PipelineProperties.CombinedMinMax | app.py:87-104 | the min-max scaler is given the input frame's cells for exactly its own fitted columns (not the hard-coded list), and its output reaches the concatenated row under those columns, when none of them is a one-hot input |
| PipelineProperties.PassThroughNotHead | app.py:18-27 | no pass-through column is a label or robust column |
| PipelineProperties.PassThroughDropped | app.py:101-104 | a pass-through field is not in the concatenated row unless a fitted encoder names it |
| PipelineProperties.RowFollowsSchema | app.py:107-110 | the row exists exactly when the concatenation succeeded; it then has the schema's columns in order, with present values kept and absent ones NaN |
| PipelineProperties.PassThroughReachesModelAsMissing | app.py:101-110 | a pass-through field that the schema names reaches the classifier as NaN |
| Outcome.OutcomeLabel | app.py:117 | the label is "ADMITIDO" exactly when the predicted class is 1, and "NO ADMITIDO" exactly when it is not |
| Outcome.Announce | app.py:114-123 | the success message appears exactly when the class is 1 and both calls finish; the rejection message exactly when the class is not 1; the error message exactly when a call raises |

## Left out

- The Streamlit page, its widgets, their bounds and the rendering of the result (app.py:30-60, 118-121) are not modelled; the form is a parameter of type `Applicant`.
- Loading the artifacts with joblib (app.py:7-15) is file I/O. The artifacts are parameters, and `trg_encoder` (app.py:12), which the script never uses, does not appear.
- The encoders' internals are not modelled: label vocabularies, scaling arithmetic, one-hot categories and naming. Each is an opaque function that returns a value or raises.
- The classifier's `predict` and `predict_proba` (app.py:115-116) are opaque functions. The percentage formatting of the probability is not modelled.
- Floating-point values are Dafny reals, and no arithmetic is performed on them.
- Frames.AsText: a float's text comes from a formatter parameter, because Python's float `repr` is not modelled.
- FeatureSpec.Combine: pandas builds a frame with a repeated label when two groups share a column. The model ends with a `DuplicateColumns` error instead.
- Frames.Table.Select: the KeyError names the first absent label, not the full list pandas reports.
- The DataFrame index is not modelled: every frame has the single row 0, so the indicator block always shares the input row's index (app.py:98).
- `MIN_MAX_COLUMNS` mirrors the hard-coded list (app.py:20), which the script overwrites before use. The model uses the scaler's fitted list, as the code does. A mismatch between the two lists would be a configuration defect. The code never checks for it, so the model does not either.
- Reading `feature_names_in_` from the min-max scaler (app.py:92) and from the classifier (app.py:107) is assumed to succeed. Each list is a plain field of the artifact. On an estimator fitted without column names, these reads raise AttributeError and the script stops; the model does not capture that failure.
- The fitted min-max list may name any column. A successful concatenation rules out a repeated column, a label column and `CALIF_FINAL` in that list (`FittedApart`), so the lemmas about the concatenated row need no premise for those. A one-hot input in the list is not ruled out: `CombinedOneHot` and `CombinedMinMax` assume that the list has none. The `Transformed…` lemmas stop before the concatenation, so they assume the list claims none of the columns they describe.
- Determinism needs no lemma: every step is a function of its inputs.
