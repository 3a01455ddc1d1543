# Vehicle insurance fraud detection: feature alignment and request decision

This project models the two pure pieces of the fraud-detection web
application's `app.py`.

- **The feature aligner (`preprocess_input`).** It turns one raw claim record
  into the fixed, ordered feature row the trained classifier expects. A field
  named in the numeric-column list passes through unchanged. Every other field
  is one-hot encoded into an indicator column labelled `field_value`. Every
  expected column that is still missing is added with value 0. Finally the
  row is projected onto the expected columns in their order, which silently
  drops every produced column the classifier does not expect.
- **The `/predict` decision logic, without the web framework.** Policy number
  1517 is rejected before any lookup. The policy table is filtered on the
  number and the first matching row is taken; no match goes to the same error
  view. The raw record is built from the form and the matched row. It is
  aligned and classified, and the classifier's raw output becomes the verdict
  "Legitimate" (output 0) or "Fraudulent" (any other output). The verdict is
  returned with six display blocks.

Modules, one per component:

- `records.dfy` (`Records`): scalar values (`Num`/`Cat`), named fields, one-row
  records, Python's decimal spelling of integers used in column labels.
- `feature_aligner.dfy` (`FeatureAligner`): the aligner as the three pandas
  steps it performs (`GetDummies`, `AddMissing`, `Select`, composed in
  `Align`). It also defines an independent per-column reading of a record
  (`Produced`) and proves that the two agree on every input.
- `policy_store.dfy` (`PolicyStore`): the policy row and the first-match
  lookup.
- `request_handler.dfy` (`RequestHandler`): the submitted form, the raw
  record, the display blocks, the verdict and the handler outcome
  (`ErrorView | ResultView(verdict, groups)`).

The classifier is a function parameter `FeatureVector -> int`. The expected
columns are a parameter, and so is the policy table. Both are fixed once at
start-up in the application.

Modelling assumptions, stated as `FeatureAligner.Unambiguous`: field names are
distinct, because the record is a dictionary, and no field name contains `_`.
Under these assumptions indicator labels never collide with each other or
with numeric column names (`IndicatorNameInjective`, `EncodedNamesDistinct`).
The handler's own record satisfies both (`BuildRecordMergesSources`). The
expected-column list may contain duplicates: each copy is read independently,
so no assumption is needed there.

## Model

| member | source | states |
|---|---|---|
| FeatureAligner.Select | app.py:36-37 | Given a frame holding every expected column, the projected row has exactly one entry per expected column, and entry `i` is labelled `expected[i]` and carries that column's value from the frame; any other frame column is dropped |
| FeatureAligner.Align | app.py:21-39 | For any record, the aligned row has exactly one column per expected column, column `i` is labelled with the `i`-th expected column, a column no field produces is 0, and a non-zero column carries the exact label and value some field produced |
| FeatureAligner.GetDummies | app.py:26-29 | One-hot encoding gives every field a column: numeric fields under their own name, others as an indicator; every column of the encoded frame is the encoding of some field |
| FeatureAligner.AddMissing | app.py:31-34 | After the fill every expected column is present; columns the encoding produced keep their values; the added columns are 0, and no column outside the encoded frame and the expected list is added |
| FeatureAligner.Produced | app.py:26-29 | Reference per-column reading: no value exactly when no field encodes to that label; otherwise the value of a field that encodes to it |
| FeatureAligner.GetDummiesMatchesProduced | app.py:26-29 | The encoded frame contains a label exactly when the reference reading finds a value for it, and holds that same value |
| FeatureAligner.AlignMatchesProduced | app.py:26-37 | For every input, aligned column `i` equals the reference reading of the `i`-th expected column, and 0 when nothing produces it |
| FeatureAligner.IndicatorNameInjective | app.py:29 | When field names contain no `_`, an indicator label determines its field and the text of the value that fired it |
| FeatureAligner.EncodedNamesDistinct | app.py:26-29 | In an unambiguous record, two different fields never produce the same column label |
| FeatureAligner.AlignKeepsProducedColumn | app.py:29-37 | In an unambiguous record, wherever a field's produced label is expected, the aligned column is exactly that field's encoding |
| FeatureAligner.AlignPassesNumericThrough | app.py:26-37 | A field listed as numeric that is also expected reaches the aligned row with its raw value unchanged |
| FeatureAligner.AlignIndicatorFires | app.py:26-29 | For a categorical field `f` with value `v`, the expected column `f_v` is 1 |
| FeatureAligner.AlignOtherIndicatorsSilent | app.py:29-34 | For a categorical field `f` with value `v`, every expected column `f_w` whose value text differs from `v` is 0, so exactly one indicator per field fires |
| FeatureAligner.ProducedIgnoresUnexpected | app.py:36-37 | Removing one field leaves the reference reading of every label that field did not produce unchanged |
| FeatureAligner.AlignDropsUnexpectedColumn | app.py:36-37 | A field whose produced column is not expected, for example a value outside the training vocabulary, changes nothing: the row equals the row of the record without it |
| PolicyStore.FindPolicy | app.py:56-59 | The lookup finds nothing exactly when no row carries the number; otherwise it returns a row that carries it with no earlier row carrying it |
| PolicyStore.FindPolicyIsFirstMatch | app.py:57-63 | Whatever row is the first to carry the number is the row returned; later duplicates are never seen |
| RequestHandler.BuildRecordMergesSources | app.py:66-99 | The raw record is unambiguous; each of its fields holds the value of the form field of that name when the form has one, else the row column of that name; exactly the numeric-list fields hold integers |
| RequestHandler.BuildRecordCoversSources | app.py:66-99 | Every name the form or the matched row offers a value under appears as a field of the raw record, so no form field or row column the handler reads is left out |
| RequestHandler.DisplayShowsMergedRecord | app.py:101-153 | Every displayed value is the merged form-or-row value of the field it shows: row columns in the policy, holder, vehicle and agent blocks, form fields in the accident and claim blocks |
| RequestHandler.Handle | app.py:48-63 | Policy number 1517 always ends in the error view, even when the table holds it; otherwise the outcome is a result exactly when some row carries the number |
| RequestHandler.HandleUsesFirstMatch | app.py:55-160 | For an admitted number the result is built from the first matching row; the verdict is Legitimate exactly when the classifier returns 0 on that row's aligned features, with label "Legitimate" or "Fraudulent" accordingly |
| RequestHandler.NumericFeatureFromSources | app.py:66-156 | Each expected numeric column the classifier receives holds the merged integer from the form or the row, unchanged |
| RequestHandler.CategoricalFeatureFromSources | app.py:75-156 | Every record field after the eight numeric ones is a text field with a merged form-or-row value `v`; an expected indicator column `name_w` for it that the classifier receives is 1 when `w` reads as `v` and 0 otherwise |

## Left out

- Flask routing, templates, redirects and the session secret are web plumbing. The error redirect and the rendered result page are the two `Outcome` constructors.
- Loading the pickled XGBoost model is left out: the classifier is an uninterpreted function parameter, and `expected_columns` is a parameter.
- Reading the policy CSV is file I/O: the table is a given immutable sequence.
- Parsing form strings with `int(...)` is left out: the form arrives with its integer fields parsed. A parse failure raises in the application, which the handler does not catch; it is not modelled.
- Truncation of float CSV values by `int(...)` is left out: integer row columns are modelled as integers.
- pandas dtypes are left out: indicator columns are modelled as the integers 1 and 0, not booleans. Missing or NaN categorical values, which `get_dummies` would turn into no indicator, are not representable in `Value`.
- FeatureAligner.GetDummies: when two fields produce the same label, the later one is kept. pandas instead keeps both columns under one label, and when that label is expected the projected frame would be wider than expected and the classifier would fail; when it is not expected both copies are dropped, as in the model. All aligner properties are stated under `Unambiguous`, which rules this out; the handler's own record satisfies it.
- FeatureAligner.Align: an empty record makes pandas' get_dummies raise (nothing to concatenate); the model returns the all-zero row instead, and `AlignDropsUnexpectedColumn` likewise covers records that become empty. The handler always passes 32 fields (`RecordNamesInOrder`), so the case does not arise in the application.
- Exceptions raised while aligning or predicting (a shape mismatch) are not modelled: the classifier is total.
- The second, identical table query (app.py:63) repeats the first one; it is modelled once.
- The captions of the display blocks are presentation. Only which value each entry shows is stated.
- Determinism of `preprocess_input` (same record, same row) holds because every member is a pure function; it has no separate lemma.
- Policy numbers are not assumed unique: like the code, the lookup takes the first matching row.
