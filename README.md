# HeartRisk Predictor: the prediction form handler, modelled in Dafny

This project models the core of the heart-disease risk web application:

- how the prediction form (the `home()` handler in `app.py`) turns the submitted text into a feature row;
- how it reports missing inputs;
- how it asks the pretrained classifier for a label, picks the risk message and stores one prediction record;
- the one-off data preparation in `updating_csv.py`, which turns the multi-class `target` column into a binary one.

Modules, one per concern:

- `Wrappers` (`wrappers.dfy`): `Option` and `Result`.
- `Text` (`text.dfy`): the ASCII behaviour of `str.strip()`, `str.lower()`, `str.isdigit()`, `str.startswith()`, and `int()` on a digit string.
- `FeatureRow` (`feature_row.dfy`): the row-building loop, lines 62-90.
  - The row dict is an insertion-ordered list of (column, cell) entries.
  - `Assign` gives it the semantics of `row[col] = value`.
  - `FindMatch` and `BuildRow` are the loops, and `ResolveColumn` is the body of the outer one. They are proved equal to the functions `FirstMatch`, `BuildRowSpec` and `Resolve`, and the properties are lemmas about those functions.
- `Home` (`home.dfy`): what happens after the loop, lines 88-111.
  - `Respond` is the outcome of one submission: the three template values `prediction`, `proba` and `error`, and the record stored, if any.
  - `PredictionTable` is the predictions table, a class whose `Insert` appends a row or raises.
  - `Submit` is the imperative handler, proved to render `Respond`'s view and to append exactly its record.
- `HeartDisease` (`heart_disease.dfy`): the metadata the application loads, namely the column lists and mappings written by `train_model.py`, lines 16-46, plus worked examples of how the builder treats them.
- `TargetBinarisation` (`binarise.dfy`): `updating_csv.py`, line 6.

Things the handler depends on but that are not visible here are parameters:

- `float(v)` is a `NumberParser` (`string -> Option<real>`, where `None` means it raised).
- The pipeline is a `Classifier`:
  - `predict` gives the class label, or `None` when it raises;
  - `probability` gives the high-risk percentage, `Ok(None)` when there is no `predict_proba`, or `Err` when `predict_proba` raises (for example an `IndexError` on `[0][1]` from a one-class model). Either raise comes before `prediction` is assigned, so the page shows only the generic error and nothing is stored (`Home.ClassifierFailureGivesGenericError`).
- Whether the INSERT succeeds is the table's `writable` flag.
- The logged-in user is a plain string.

Behaviour of the code that a reader might not expect, all modelled as written:

- A digit string on a mapped column is stored as its integer with no check against the mapping. Sex `"7"` is stored as code 7 (`HeartDisease.SexSeven`).
- A non-digit input takes the code of the first label, in mapping order, that starts with it. Chest pain `"a"` gives "atypical angina", never "asymptomatic" (`HeartDisease.ChestPainA`).
- An input that fails to resolve (no label matches, or `float` raises) does not give a specific validation message. It raises, and the generic "Something went wrong. Please check your inputs." replaces everything, even when other columns were blank (`Home.BadColumnGivesGenericError`). Unparseable input gets no message of its own; the model follows the code.
- `create_db.py` creates only the `users` and `contacts` tables, so the INSERT into `predictions` can raise.
  - `prediction` and `proba` are assigned before the INSERT. A failed insert therefore shows the risk message and probability together with the generic error, and stores nothing.
  - `Respond` models both cases.
  - Only a submission with no error stores a record (`Home.StoredOnlyOnSuccess`).

## Model

| member | source | states |
|---|---|---|
| Text.IsSpace | app.py:66 | the definition: the ASCII characters `str.isspace()` accepts (space, 9-13, 0x1C-0x1F) |
| Text.Lower | app.py:76 | the definition: `str.lower()` on ASCII, changing only A-Z |
| Text.IsDigits | app.py:73 | the definition: `str.isdigit()` on ASCII, false on the empty string |
| Text.StartsWith | app.py:79 | the definition: `str.startswith(prefix)` |
| Text.TrimStart | app.py:66 | leading whitespace is dropped, all of it and nothing else |
| Text.TrimEnd | app.py:66 | trailing whitespace is dropped, all of it and nothing else |
| Text.Strip | app.py:66 | the stripped text is empty exactly when the input is all whitespace, and otherwise starts and ends with a non-whitespace character |
| Text.DigitsValue | app.py:74 | `int(v)` of a digit string of length n is below 10^n |
| Text.ShowNat | app.py:73-74 | the decimal text of a number is a non-empty digit string |
| Text.DigitsValueShowNat | app.py:73-74 | `int()` reads back the decimal text of every natural number |
| Text.StripLower | app.py:66-76 | stripping and lower-casing commute |
| Text.IsDigitsUpToCase | app.py:73-76 | texts equal up to letter case are both digit strings or both not |
| FeatureRow.Columns | app.py:65 | the definition: the columns in visit order, categorical then numeric |
| FeatureRow.FormGet | app.py:66 | the definition: `form.get(col, "")` |
| FeatureRow.Assign | app.py:63-86 | `row[col] = v`: a new key is appended at the end; an existing key keeps its position and takes the new value, and every other entry is unchanged |
| FeatureRow.FirstWhere | app.py:78-81 | the index found is the first element satisfying the test, or the length when none does |
| FeatureRow.FirstMatch | app.py:77-81 | the definition of the label search: the code of the first entry whose lower-cased label starts with the input; its meaning is proved in `FeatureRow.MappedInputResolution` and `FeatureRow.FindMatch` |
| FeatureRow.FindMatch | app.py:77-81 | the inner loop with `break` returns the code of the first matching label, in mapping order, and returns `None` exactly when no label matches |
| FeatureRow.Resolve | app.py:66-86 | the definition of one turn of the loop body: blank gives `None`; a mapped column takes digits as their value or the first matching label's code, or raises; an unmapped column is parsed, or raises. Its properties are the lemmas below |
| FeatureRow.ResolveColumn | app.py:66-86 | the loop body for one column returns the cell `Resolve` gives, or the error it raises |
| FeatureRow.BuildFrom | app.py:65-86 | the definition of the loop over the columns from a partial row: the first raise aborts it, otherwise each cell is assigned in turn |
| FeatureRow.BuildRowSpec | app.py:63-86 | the definition of the whole build from the empty dict over categorical then numeric columns; its properties are `FeatureRow.BuiltRowFollowsColumns` and `FeatureRow.BuildRowFailsAtFirstBadColumn` |
| FeatureRow.BuildFromStep | app.py:65-86 | one turn of the loop: a failing column aborts the build with its error, a resolved one is assigned and the loop continues with the next column |
| FeatureRow.BuildRow | app.py:63-86 | the row-building loop returns the row `BuildRowSpec` defines, or its first error |
| FeatureRow.AnyMissing | app.py:88 | the definition: `any(v is None for v in row.values())` |
| FeatureRow.MissingColumns | app.py:88-89 | the missing-column list is empty exactly when no value is `None` |
| FeatureRow.Where | app.py:89 | a filtered list is no longer than its input and holds only elements that pass the test |
| FeatureRow.WhereKeepsPassing | app.py:89 | the filter drops nothing: every element that passes the test is in the result |
| FeatureRow.BlankIsMissing | app.py:66-69 | a column becomes `None` exactly when its text is all whitespace or absent, whatever the number parser does |
| FeatureRow.DigitsPassThrough | app.py:71-74 | on a mapped column, every digit string (leading zeros included) with any whitespace before and after it is stored as its decimal value, with no check against the mapping's codes |
| FeatureRow.NumberPassThrough | app.py:71-74 | in particular, the decimal text of any number n, padded with any whitespace, is stored as n |
| FeatureRow.StripAround | app.py:66 | stripping removes exactly the whitespace before and after a text that neither starts nor ends with whitespace |
| FeatureRow.MappedInputResolution | app.py:75-84 | on a mapped column, non-digit input fails with an invalid-value error exactly when no lower-cased label starts with the lower-cased input; otherwise it gets the code of the first such label |
| FeatureRow.FirstMatchingLabelResolves | app.py:76-84 | when label j is the first label the normalised input matches, the column gets label j's code |
| FeatureRow.LongerThanEveryLabelFails | app.py:79-83 | input longer than every label of its mapping is rejected |
| FeatureRow.CaseInsensitive | app.py:76-79 | on a mapped column, inputs equal up to case both fail, or both give the same code |
| FeatureRow.UnmappedColumnIsParsed | app.py:85-86 | an unmapped column fails exactly when `float` rejects its stripped text, and otherwise stores the parsed number |
| FeatureRow.BuildFromFailsAtFirstBadColumn | app.py:65-83 | the loop fails exactly when some column fails, and then with the first failing column's error |
| FeatureRow.BuildRowFailsAtFirstBadColumn | app.py:61-83 | the whole build fails exactly when some configured column fails to resolve, and with the error of the first one in column order |
| FeatureRow.Cells | app.py:65-86 | one (column, cell) entry per column, in column order, each holding that column's resolution |
| FeatureRow.BuildFromSucceeds | app.py:63-86 | over distinct columns that all resolve, the loop appends exactly their entries to the partial row |
| FeatureRow.BuiltRowIsCells | app.py:63-86 | a successful build means every column resolved, and the row is their entries in column order |
| FeatureRow.BuiltRowFollowsColumns | app.py:63-90 | a built row has exactly one entry per column of categorical plus numeric columns, in that order, each the resolution of that column's text |
| FeatureRow.MissingOfCells | app.py:88-89 | the missing-column list of the built entries is exactly the columns whose resolution is `None` |
| FeatureRow.MissingMeansBlank | app.py:66-69 | a column resolves to `None` exactly when its submitted text strips to empty |
| FeatureRow.MissingReportListsBlankColumns | app.py:65-90 | the "Missing inputs" list names every blank column, in column order, and no other |
| Home.Classify | app.py:88-107 | the definition of the branch after the loop for a built row: the missing-inputs report, or `predict`, `predict_proba`, the message and the insert, each raise becoming the generic error |
| Home.Respond | app.py:60-111 | the definition of one POST: a failed build gives the generic error, otherwise `Home.Classify`; its properties are the lemmas below |
| Home.RiskMessage | app.py:96-99 | the high-risk message exactly for class 1, the low-risk message for every other class |
| Home.PredictionTable.constructor | app.py:101-107 | an empty predictions table |
| Home.PredictionTable.Insert | app.py:101-107 | the INSERT appends the record when the table accepts it, and otherwise raises and changes nothing |
| Home.Submit | app.py:60-111 | the POST branch renders `Respond`'s view, and appends to the table exactly the record `Respond` stores |
| Home.StoredOnlyOnSuccess | app.py:88-111 | a record is stored exactly when no error is shown. It then holds the user, the complete built row without missing values, the shown message for the classifier's label, and the probability `predict_proba` returned, which is also the one shown. Every complete row for which neither `predict` nor `predict_proba` raises is stored when the insert succeeds |
| Home.MessageFollowsLabel | app.py:93-99 | a shown prediction is the high-risk text exactly when the classifier returned 1, and the low-risk text exactly when it returned another label |
| Home.MissingInputsSkipClassifier | app.py:88-91 | a row with blank columns shows the list of blank columns, stores nothing, and does not depend on the classifier |
| Home.ClassifierFailureGivesGenericError | app.py:93-111 | when `predict` or `predict_proba` raises on a complete row, the page shows only the generic error, with no prediction and no probability, and nothing is stored |
| Home.BadColumnGivesGenericError | app.py:82-111 | any column that fails to resolve yields only the generic error and no record |
| HeartDisease.ColumnsAreDistinct | train_model.py:16-17 | the 13 feature columns are distinct |
| HeartDisease.MetaMappings | train_model.py:21-46 | exactly the categorical columns are mapped, each to its declared mapping |
| HeartDisease.SexM | train_model.py:22 | sex input that strips and lower-cases to `"m"` (e.g. `" M "`) gives male, code 1 |
| HeartDisease.ChestPainTypical | train_model.py:23-27 | chest pain input normalising to `"typical"` gives typical angina, code 0, not atypical angina |
| HeartDisease.ChestPainA | train_model.py:23-27 | chest pain input normalising to `"a"` gives atypical angina (code 1), the first label starting with "a", not asymptomatic |
| HeartDisease.ChestPainAs | train_model.py:23-27 | chest pain input normalising to `"as"` (e.g. `"AS"`) gives asymptomatic, code 3 |
| HeartDisease.SexFem | train_model.py:22 | sex input normalising to `"fem"` (e.g. `" FEM "`) gives female, code 0 |
| HeartDisease.SexSeven | train_model.py:22 | sex `"7"` is stored as 7, a code the mapping does not have |
| HeartDisease.SexZeroSeven | train_model.py:22 | sex `"07"` is stored as 7: leading zeros are read as a decimal number |
| HeartDisease.BooleanFalse | train_model.py:29-35 | for `fbs` and `exang`, input normalising to `"false"` gives code 0 |
| HeartDisease.RestEcgNormal | train_model.py:30-34 | resting ECG input normalising to `"normal"` gives code 0 |
| HeartDisease.SlopeFlat | train_model.py:36-40 | slope input normalising to `"flat"` gives code 1, not upsloping |
| HeartDisease.ThalNormal | train_model.py:41-45 | thal input normalising to `"normal"` gives code 0 |
| HeartDisease.SexMales | train_model.py:22 | sex input normalising to `"males"` matches no label and is rejected with an invalid-value error naming the column and the stripped input |
| TargetBinarisation.Binarize | updating_csv.py:6 | each target becomes 0 or 1, and it is 0 exactly when it was 0 |
| TargetBinarisation.Targets | updating_csv.py:6 | the target column holds each row's target, in row order |
| TargetBinarisation.BinarizeColumn | updating_csv.py:6 | the new column has the same length, is binary, and is 0 exactly where the old one was 0 |
| TargetBinarisation.BinarizeTable | updating_csv.py:6-8 | same number of rows, in the same order, with the other columns untouched and a binary target that is 0 exactly where it was 0 |
| TargetBinarisation.TableRewritesTargetColumn | updating_csv.py:6 | the new table's target column is the binarised old target column |
| TargetBinarisation.BinaryColumnUnchanged | updating_csv.py:6 | an already binary column is left unchanged |
| TargetBinarisation.TableIdempotent | updating_csv.py:6 | running the conversion twice is the same as running it once |
| TargetBinarisation.Count | updating_csv.py:9 | a value's count is at most the column length |
| TargetBinarisation.BinaryDistribution | updating_csv.py:6-9 | after conversion the count of 0 is unchanged, the count of 1 is the number of non-zero targets, and no other value occurs |

## Left out

- Flask plumbing is left out because it is framework machinery: routing, the login check and redirect at the top of `home()`, `flash`, `render_template`, the GET branch, and the login, logout and contact handlers.
- SQLite connections, commit and close are left out, as are the row's identifier and timestamp. The INSERT is modelled only as an append to `PredictionTable.rows` that fails when `writable` is false.
- `json.dumps` of the row is left out, because text serialisation of the row adds nothing to the model. The stored record holds the row itself.
- The text of the missing-inputs error (`f"Missing inputs: {missing}"`, Python's list repr) is left out. The error keeps the list of column names.
- `print` of the exception to the console is left out because it is I/O.
- The probability is an opaque `Option<real>`. `round(float(...) * 100, 2)` and its range are floating-point behaviour of the pipeline, which is not part of this model.
- `float(v)` is an abstract parser, because Python's float syntax (exponents, `inf`, `nan`, underscores) is not modelled.
- `pipe.predict` and `predict_proba` are uninterpreted functions of the row. The trained model and `pd.DataFrame` are opaque.
- The metadata is shown as the constants `train_model.py` writes. Loading `model_meta.json` is file I/O. The model assumes the JSON preserves the mapping order.
- The training script itself (`train_model.py` apart from its column lists and mappings), `query_db.py` and `test_user.py` are not part of this model.
- Reading and writing the CSV file in `updating_csv.py` (lines 3, 8, 9) is I/O. The printed class distribution is modelled as counts (`TargetBinarisation.BinaryDistribution`).
- NaN or non-integer targets are left out; targets are integers.
- Text.DigitsValue: `int()` is unbounded here. Recent CPython versions (3.11 and the 3.10.7 / 3.9.14 security releases) raise `ValueError` on a string of more than 4300 digits by default, which the handler would turn into the generic error. The limit depends on the interpreter and is configurable, and the repository does not pin one.
- FeatureRow.DigitsPassThrough: for the same reason it promises a stored code for digit strings of any length, where such an interpreter would raise on more than 4300 digits.
- `Text.Strip`, `Text.Lower`, `Text.IsDigits`: only ASCII is modelled. Python's Unicode whitespace, case mapping and Unicode digits (which `isdigit` accepts and `int` may reject) are not.
- `FeatureRow.BuiltRowFollowsColumns`, `FeatureRow.MissingReportListsBlankColumns`, `Home.MissingInputsSkipClassifier`: these require distinct column names, which holds for the metadata (`HeartDisease.ColumnsAreDistinct`). With a repeated column the builder overwrites the earlier entry (`FeatureRow.Assign` models that), and these lemmas say nothing about that case.
