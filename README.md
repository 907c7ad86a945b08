# Healthcare outcome form: feature encoder model

A Dafny model of the prediction logic of a single-page Streamlit form
(`app.py`). The form collects one patient's answers, the submit branch turns
them into the 15-column row a pickled classifier was trained on, and the page
reports the predicted outcome with a confidence.

The model covers:

- **Schema** (`schema.dfy`): the declared column list `features`, the widget
  choices as datatypes (`Gender`, `YesNo`, `Residence`, `WorkType`,
  `SmokingStatus`, with the widget strings as `Label()`), the numeric inputs as
  subset types matching the widget bounds (`Age` 0..120, `Flag` 0/1, `Measure`
  a non-negative real), and `FeatureVector`, the row the classifier is meant to
  receive, defined column by column by what each column means.
- **Encoder** (`encoder.dfy`): the submit branch as it is written: a dictionary
  (`map<string, real>`) built with every declared name at 0, overwritten by
  direct assignments, then by the two guarded updates that set
  `work_type_<choice>` and `smoking_status_<choice>` only when that name is
  already a key, and finally laid out in declared column order. `Encode` is
  proved to produce exactly `FeatureVector(a)` and to leave the key set equal to
  the declared names.
- **Decode** (`decode.dfy`): an inverse of the encoding, used to prove that the
  encoding is lossless: two different submissions never reach the classifier
  as the same row.
- **Prediction** (`prediction.dfy`): the label-to-confidence rule and one whole
  submission, with the classifier's `predict` and `predict_proba` passed in as
  functions.

Because `Encode` is specified by the function `FeatureVector`, encoding the
same answers twice gives the same row.

Notes on the code as written:

- Unknown smoking status works as a reference category only because the name
  `smoking_status_Unknown` is not declared, so the guard at app.py:188 skips
  it. Every work type, on the other hand, has a declared column, so the
  work_type group has no reference category.
- The guards silently skip any name that is not declared. There is no
  validation error for an unexpected choice. The widgets only offer the listed
  choices, and the datatypes do the same.

## Model

| member | source | states |
|---|---|---|
| `Schema.FeaturesDistinct` | app.py:140-145 | the 15 declared column names are pairwise distinct, so each value has a slot of its own |
| `Schema.WorkTypeSlotDeclared` | app.py:186-187 | for every work type, `work_type_` + its widget string is a declared column, at that type's position in the work_type group |
| `Schema.SmokingSlotDeclared` | app.py:188-189 | `smoking_status_` + the widget string is the declared column of that status; it is undeclared exactly when the status is Unknown |
| `Schema.GenderColumn` | app.py:177 | the row has 15 columns; gender column is 1 iff Male, 0 iff Female, 2 iff Other |
| `Schema.CopiedColumns` | app.py:178-184 | age, hypertension, heart_disease, avg_glucose_level and bmi reach their columns unchanged |
| `Schema.BinaryColumns` | app.py:181-182 | ever_married and Residence_type are in {0,1}, 1 exactly for Yes and for Urban |
| `Schema.WorkTypeOneHot` | app.py:186-187 | the four work_type columns hold a single 1, in the chosen type's column, and 0 elsewhere |
| `Schema.SmokingOneHot` | app.py:188-189 | the smoking_status columns hold a single 1 in the chosen status's column; they are all zero if and only if the status is Unknown |
| `Schema.ExampleRow` | app.py:176-191 | a married urban male aged 50 with hypertension, glucose 105.5, BMI 27.3, private work, never smoked, gives [1, 50, 1, 0, 1, 1, 105.5, 27.3, 0, 1, 0, 0, 0, 1, 0] |
| `Encoder.ZeroSlots` | app.py:176 | the dictionary comprehension yields exactly the declared names as keys, each mapped to 0 |
| `Encoder.AssignAnswers` | app.py:177-184 | after the direct assignments the key set is unchanged, the first eight columns hold their final values and the categorical groups are still 0 |
| `Encoder.SetIfDeclared` | app.py:186-189 | the guarded update never adds a key; if the name is a key its slot becomes 1, otherwise the dictionary is unchanged; no other slot changes |
| `Encoder.SmokingGuardFills` | app.py:188-189 | applying the smoking guard to a dictionary whose first twelve columns are final completes the whole row, including the all-zero Unknown case |
| `Encoder.LayOut` | app.py:191 | the row has one cell per declared column, in the declared order, holding the value stored under that name |
| `Encoder.Encode` | app.py:176-191 | the dictionary's keys are exactly the declared names and the row handed to the classifier equals the reference vector `FeatureVector(a)` |
| `Decode.DecodeEncode` | app.py:176-191 | decoding the encoded row of any submission gives that submission back |
| `Decode.EncodeDecode` | app.py:176-191 | any row that decodes is exactly the encoding of what it decodes to |
| `Decode.EncodeInjective` | app.py:176-191 | two submissions with the same encoded row are the same submission |
| `Prediction.Report` | app.py:198-201 | label 1 is reported Positive and any other label Negative; the confidence is the probability of the reported class; a distribution too short for that index gives an error |
| `Prediction.ReportOnDistribution` | app.py:198-201 | on a two-class probability distribution the report always succeeds, its confidence lies in [0,1], and the other class holds the remaining probability |
| `Prediction.Submit` | app.py:175-208 | the row sent to the classifier is `FeatureVector(a)`; an error raised by either classifier call becomes the reported error; otherwise the result is the report for the returned label and distribution |

## Left out

- Page setup, CSS, the form and column layout, and the radio label callbacks (app.py:8-122, 150-170): presentation only. The widget choices and bounds become the datatypes and subset types.
- Loading the pickled classifier and the `st.stop()` error paths (app.py:127-135): file I/O and deserialisation of an opaque artifact.
- The classifier's `predict` and `predict_proba` (app.py:194-195): a foreign library on an opaque model. `Submit` takes them as function parameters. Each returns the entry for the single input row, so the `[0]` row index is not modelled.
- Value types: Python stores ints for gender, age, the flags and the 0/1 columns, and floats for glucose and BMI. The model stores every column as a `real`, with ints converted exactly.
- Percentage formatting of the confidence, the message text, and displaying the input table (app.py:199-205): library formatting and output. `Verdict` keeps only the outcome and the confidence value.
- A scaled variant with a binary gender column and a dropped `Private` reference: no such code appears in `app.py`, so only the three-way-gender, unscaled encoding is modelled.
