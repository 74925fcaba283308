# Employee attrition predictor: feature encoder and inference gate

This project models the core of a small Streamlit app. The app predicts
whether an employee will leave ("attrition") from twelve form fields. The
core is the feature encoder inside `get_user_inputs`. It turns the form's
values into the one-row table that the fitted scaler and classifier expect:

1. It starts from a dictionary that holds every classifier feature name with value 0.
2. It copies six numeric fields verbatim.
3. It maps Gender and OverTime to 0/1.
4. It sets one-hot flags for JobRole, EducationField, BusinessTravel and MaritalStatus.
5. It projects the dictionary back onto the feature names, in their order.

The scaler's transform runs inside a try/except, so the step yields either
a scaled row or an error message. The predict button then shows the error
or runs the classifier.

Modules:

- `Optional` (option.dfy): Python's `None`, as `Option`.
- `EmployeeForm` (employee.dfy): the input record. The categorical fields
  are closed enumerations whose labels are the form's option texts. The
  widget bounds are the predicate `WithinFormBounds`.
- `FeatureEncoder` (encoder.dfy):
  - `ColumnValue` is the reference definition of what each named column
    holds, and `Encode` applies it across the schema.
  - The imperative encoder mirrors the dictionary mutation. `CopyFields`
    covers steps 1-3, `SetOneHotFlags` step 4, `BuildInputDict` steps 1-4,
    and `ToFrame` is the projection loop. `EncodeInputs` is the whole
    encoder and is proved equal to `Encode`.
  - Lemmas state the encoder's invariants: schema alignment, zero-fill,
    verbatim copy, the binary mappings, one-hot exclusivity and baselines.
- `Inference` (pipeline.dfy):
  - The loaded scaler and classifier are an `Artifacts` value. Its
    `featureNames` field is the classifier's ordered feature names. Its
    other three fields are opaque functions: the scaler's transform, the
    predicted class and the positive-class probability.
  - `GetUserInputs` is the encoder followed by the try/except.
  - `RespondAsWritten` is the button handler as the code has it, and
    `RunAsWritten` is one run of the page with it.
  - `Respond` is the corrected handler (see "## Findings"), and `Run` is one
    run of the page with the corrected handler.

Three facts about the code that the model keeps:

- A selected JobRole or EducationField value with no column leaves its
  family at 0 and raises nothing.
- Only BusinessTravel ("Non-Travel") and MaritalStatus ("Divorced") have a
  baseline that writes nothing.
- The code never checks the predicted class against a probability
  threshold, and the model claims no such agreement.

## Model

| member | source | states |
|---|---|---|
| EmployeeForm.GenderLabel | app.py:272 | the value is one of the Gender options, and it equals "Male" exactly for Male |
| EmployeeForm.OverTimeLabel | app.py:274 | the value is one of the OverTime options, and it equals "Yes" exactly for Yes |
| EmployeeForm.JobRoleLabel | app.py:281-283 | the value is one of the eight Job Role options |
| EmployeeForm.EducationFieldLabel | app.py:284-285 | the value is one of the five Education Field options |
| EmployeeForm.BusinessTravelLabel | app.py:286-287 | the value is one of the Business Travel options; it equals "Travel_Rarely" exactly for TravelRarely and "Travel_Frequently" exactly for TravelFrequently |
| EmployeeForm.MaritalStatusLabel | app.py:288 | the value is one of the Marital Status options; it equals "Married" exactly for Married and "Single" exactly for Single |
| EmployeeForm.WithinFormBounds | app.py:271-280 | the widget bounds (Age 18-70, MonthlyIncome at least 1000, the three scores 1-4, YearsAtCompany 0-40); a record within them has no negative numeric field |
| EmployeeForm.LabelsDistinct | app.py:281-285 | distinct job roles, and distinct education fields, have distinct option labels |
| FeatureEncoder.ColumnValue | app.py:293-320 | the value a column holds, by name: a selected one-hot column holds 1, and a column that is neither one of the eight written names nor selected holds 0 |
| FeatureEncoder.SelectedDistinguishesOptions | app.py:304-310 | two inputs select the same `JobRole_` column iff they have the same job role, and the same `EducationField_` column iff they have the same education field |
| FeatureEncoder.Selected | app.py:304-320 | the column an input selects in a family lies in that family; there is none exactly for the baselines Non-Travel and Divorced |
| FeatureEncoder.Encode | app.py:292-322 | the encoded frame has the schema as its columns and one value per column |
| FeatureEncoder.FixedKeyInNoFamily | app.py:294-301 | none of the eight always-written names starts with a one-hot family prefix |
| FeatureEncoder.FamiliesDisjoint | app.py:304-320 | no column name belongs to two one-hot families |
| FeatureEncoder.FamilyColumnValue | app.py:303-320 | a column of a one-hot family holds 1 if it is the input's selected column for that family and 0 otherwise |
| FeatureEncoder.CopyFields | app.py:293-301 | the dictionary's keys are the schema names plus the eight written names; those eight hold the copied value or the 0/1 mapping; every other key holds 0 |
| FeatureEncoder.SetOneHotFlags | app.py:303-320 | the dictionary afterwards equals the one before with 1 written at the selected JobRole and EducationField names that were already keys, and at the selected BusinessTravel and MaritalStatus names whether or not they were keys; nothing else changes |
| FeatureEncoder.BuildInputDict | app.py:292-320 | the dictionary's keys are the schema names plus the always-written ones, and every key holds its reference value |
| FeatureEncoder.ToFrame | app.py:322 | the projected frame has exactly the schema's columns in order, each holding the dictionary's value for that name; other keys are dropped |
| FeatureEncoder.EncodeInputs | app.py:292-322 | the imperative encoder's frame equals the column-wise reference encoding |
| FeatureEncoder.EncodeFollowsNames | app.py:322 | a column's value depends only on its name, so equal names in two schemas hold equal values |
| FeatureEncoder.EncodeZeroFill | app.py:293-320 | a column is non-zero only if it is one of the eight written names or a selected one-hot column |
| FeatureEncoder.EncodeCopiesNumericFields | app.py:294-299 | Age, MonthlyIncome, JobSatisfaction, EnvironmentSatisfaction, YearsAtCompany and WorkLifeBalance are copied verbatim into their columns |
| FeatureEncoder.EncodeBinaryFields | app.py:300-301 | the Gender column is 0 iff the input is Male and 1 otherwise; the OverTime column is 1 iff the input is Yes and 0 otherwise |
| FeatureEncoder.EncodeFamilyColumns | app.py:303-320 | every column of a one-hot family equals 1 at the selected column and 0 elsewhere |
| FeatureEncoder.EncodeFlagPresent | app.py:304-320 | a family has a column at 1 iff the input selects a column for it and the schema contains that column; otherwise the family is all 0 and nothing fails |
| FeatureEncoder.EncodeAtMostOneFlag | app.py:304-320 | for every schema, all columns of a family that are 1 carry the same name; with distinct feature names, at most one column of each family is 1 |
| FeatureEncoder.EncodeJobRoleAndEducation | app.py:304-310 | a JobRole or EducationField column is a 0/1 flag that is 1 iff its name is `JobRole_<role>` or `EducationField_<field>` for the chosen option |
| FeatureEncoder.EncodeBusinessTravel | app.py:312-315 | Non-Travel sets no BusinessTravel column; Travel_Rarely and Travel_Frequently each set only their own column; every BusinessTravel column is 0 or 1 |
| FeatureEncoder.EncodeMaritalStatus | app.py:317-320 | Divorced sets no MaritalStatus column; Married and Single each set only their own column; every MaritalStatus column is 0 or 1 |
| FeatureEncoder.EncodeWithinBounds | app.py:271-280 | for inputs within the form's bounds, every column is non-negative and only MonthlyIncome can exceed 70 |
| FeatureEncoder.ExampleEncoding | app.py:292-322 | a male, single manager with an "Other" education who does not travel encodes to the expected row against a schema without Gender or an "Other" column |
| Inference.Preprocess | app.py:323-328 | the preprocessing result is exclusive: a scaled row with no message when the transform succeeds, no row and the exception's message when it raises |
| Inference.GetUserInputs | app.py:292-330 | encoding against the classifier's feature names and then scaling returns exactly the exclusive preprocessing pair |
| Inference.RespondAsWritten | app.py:344-349 | as written: nothing happens iff the button is not pressed; the error is shown iff the button is pressed and the message is truthy, and it is that message; a prediction is made iff the button is pressed, the message is falsy and there is a row, and it is the classifier's class and probability for that row; the classifier is called on no row iff the button is pressed, the message is falsy and there is no row |
| Inference.Respond | app.py:335-349 | the intended handler never calls the classifier without a row; it predicts iff the button is pressed and there is no error; it shows the error iff there is one |
| Inference.Truthy | app.py:345 | Python's truth test on the error message: no message is false, the empty message is false, and any other message is true |
| Inference.RunAsWritten | app.py:332-349 | one run of the page as written predicts from the transform's row when it succeeds; when it raises, it shows a non-empty message, but for an empty message it calls the classifier with no row; nothing happens without the button |
| Inference.Run | app.py:332-349 | one run with the corrected handler predicts from exactly the transform's row when the transform succeeds and shows exactly its message when it raises, empty or not; nothing happens without the button |
| Inference.EmptyMessageReachesClassifier | app.py:323-349 | a transform that raises with an empty message yields no row and an empty message; the as-written handler then calls the classifier on no row, and the intended one shows the error |
| Inference.RespondAsWrittenAgrees | app.py:344-349 | for every preprocessing result other than an empty message, the as-written and intended handlers agree |

## Findings

| source | as written | input that shows it | evidently intended | confidence | as-written member | corrected member |
|---|---|---|---|---|---|---|
| app.py:345 | `if error_message:` tests the message's truth, so an exception whose text is empty counts as no error and `predict_attrition(None)` runs | `scaler.transform` raising an exception with an empty message (such as a bare `ValueError()`), so preprocessing returns no row and the message `""` | show the preprocessing error whenever the transform raised (`error_message is not None`), and predict only from a scaled row | low; not executed | Inference.RespondAsWritten, Inference.RunAsWritten, Inference.EmptyMessageReachesClassifier | Inference.Respond, Inference.Run |

## Left out

- Loading the scaler and classifier with `pickle` and caching them once per process (app.py:47-55) is file I/O and framework caching. The artifacts are a parameter, and `list(model.feature_names_in_)` is their `featureNames` field.
- The internals of `scaler.transform`, `model.predict` and `model.predict_proba` are opaque functions. The transform's one-row matrix is a single `seq<real>`. `predict(...)[0]` and `predict_proba(...)[0][1]` are one integer and one real per row.
- Floating point is modelled as `real`. The probability's range, its formatting and `1 - probability` are not modelled.
- The Streamlit page is not modelled. This covers the page config, backgrounds, sidebar, CSS, header, cards and columns, and footer. It also covers choosing the result card by `prediction == 1`.
- The progress bar and its `time.sleep` loop (app.py:336-339) only affect timing and display.
- Form values outside the option lists cannot be represented, because the categorical fields are enumerations. The select boxes offer nothing else.
- The widget bounds are not preconditions of the encoder, which accepts any integers. They appear only as the requirement of `EncodeWithinBounds`.
- Exceptions from the classifier are not modelled. The code does not catch them, and the classifier is a total function here.
- ToFrame: requires every schema name to be a dictionary key. It does not model pandas filling a missing column with NaN, which cannot happen after the zero-fill.
- Concurrent first use of the cached artifacts is not modelled; loading them once is left to the caching framework.
