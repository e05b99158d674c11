# Insurance risk assessment: feature alignment and risk policy

This project is a Dafny model of the logic inside the Streamlit dashboard `app.py`. The dashboard scores a vehicle insurance policy with a pre-trained scikit-learn pipeline. The model covers four pieces:

- **Feature alignment** (`alignment.dfy`, `schema.dfy`, `values.dfy`). The raw record of policy inputs is reshaped to the preprocessing step's fit-time schema.
  - The categorical columns come from the last sub-transformer whose lower-cased name starts with `"cat"`.
  - A missing expected column is filled with `"No"` if it is categorical, and with `0` otherwise.
  - Categorical cells are cast to text.
  - Every other expected cell is coerced to a number. A value that does not parse becomes `0`.
  - Finally the columns are selected in the schema's order.

  Each loop of the source is one left fold over a map from column name to cell. `Alignment.ExpectedValue` is an independent per-column reference, and `Alignment.Align` is proved equal to it.
- **Risk policy** (`risk_policy.dfy`). The claim probability in percent is mapped to one of four ordered tiers, with cut-offs at 5, 10 and 20. Each tier has its own level text, recommended action and badge style. The model proves the bands, monotonicity, and that a tier's rank is the number of cut-offs reached.
- **Claim text** (`risk_policy.dfy`). The hard label `1` reads "Claim Expected". Every other label reads "No Claim Expected".
- **One assessment** (`assessment.dfy`). This module builds the raw record from the nine sidebar inputs and aligns it. The classifier is modelled as two opaque functions over the aligned row. The module then applies the policy to their output. It also proves a worked scenario: the default sidebar inputs aligned against a schema that expects an extra categorical `region_code` and an extra numeric `airbags`.

Some pandas behaviour is library internals. These parts are parameters:

- `show: Value -> string` is what `astype(str)` prints for a non-string value.
- `parse: Value -> Option<real>` is how `pd.to_numeric` reads a non-numeric value. `None` stands for NaN.

Edge behaviour of the code, as the model keeps it:

- **Missing categorical column.** The code never checks that the categorical columns are expected columns. If one is neither expected nor supplied, `df[col]` at app.py:143 raises `KeyError`. The model returns `Failure(MissingColumn(col))` in that case. `Alignment.AlignSucceedsOnFittedSchema` proves this cannot happen when every categorical column is expected, as for a fitted pipeline.
- **Range of the probability.** The if/elif chain at app.py:157-164 accepts any number, not only values in [0, 100], and `RiskPolicy.TierOf` is total over the reals.
- **Column check before inference.** The dashboard never checks the aligned row's columns before `predict_proba`. `Assessment.Assess` proves that the classifier only ever receives rows whose columns are exactly the fit-time columns, in order.
- **Finite numbers.** Infinities pass through `to_numeric`, so a numeric cell is not guaranteed to be finite. The model says nothing about finiteness (see Left out).

## Model

| member | source | states |
|---|---|---|
| Values.AsText | app.py:142-143 | Casting a cell to text keeps a string as it is and prints any other value with the printer. |
| Values.AsNumber | app.py:145-147 | Coercing a cell keeps a number, takes the parse of any other value, and gives 0 when the parse fails. |
| Schema.CategoricalNameIgnoresCase | app.py:135 | A transformer name counts as categorical exactly when it has at least three characters and they are c/C, a/A, t/T in that order. |
| Schema.LastCategoricalColumnsIsLastMatch | app.py:133-136 | The loop over `transformers_` ends with its starting value when no name matches. Otherwise it ends with the columns of a matching transformer that no later transformer overrides. |
| Schema.CategoricalColumns | app.py:133-136 | The categorical columns are empty when no transformer name starts with "cat". Otherwise they are the columns of the last transformer whose name does. |
| Alignment.FillMissing | app.py:138-140 | After the fill loop, the frame holds its old columns plus every expected column. Supplied cells are unchanged. Each added column holds "No" if categorical and 0 otherwise. |
| Alignment.CastCategorical | app.py:142-143 | The cast succeeds exactly when every categorical column is in the frame. On success, categorical cells become their text and other cells are untouched. On failure it reports the first categorical column the frame lacks. |
| Alignment.CoerceNumeric | app.py:145-147 | Every expected, non-categorical column holds the numeric coercion of its previous cell. All other cells and the key set are unchanged. |
| Alignment.SelectColumns | app.py:149 | Selecting by the expected list gives exactly those columns, in that order, each with its frame value. |
| Alignment.StagesYieldExpectedValues | app.py:138-147 | After fill, cast and coerce, every expected column holds the per-column reference value. |
| Alignment.Align | app.py:130-149 | Alignment succeeds exactly when every categorical column is expected or supplied; a failure names such a column. A success has exactly the expected columns in expected order, each holding the reference value (text for categorical, a number otherwise). |
| Alignment.AlignMatchesReference | app.py:130-149 | A row equals the aligned row exactly when it has the expected columns in order and the reference value in each column. The reference alone determines the result. |
| Alignment.AlignSucceedsOnFittedSchema | app.py:142-143 | When every categorical column is expected, as for a fitted pipeline, alignment never fails. |
| Alignment.AlignDropsExtraFields | app.py:149 | A raw field that is not an expected column appears nowhere in the aligned row. |
| Alignment.AlignFillsDefaults | app.py:138-140 | An expected column missing from the raw record holds "No" if categorical and 0 otherwise. |
| Alignment.AlignCategoricalCellsAreText | app.py:140-143 | Every categorical cell is text. A supplied string is kept verbatim, and any other supplied value becomes its printed form. |
| Alignment.AlignNumericCoercionIsTotal | app.py:145-147 | Every non-categorical cell is a number. A supplied number is kept, a value that parses becomes its parse, and a value that does not parse becomes 0. No failure arises. |
| Alignment.AlignIsIdempotent | app.py:138-149 | On a fitted schema, aligning the aligned row again (read back as a record) yields the same row. A cast or coerced cell is unchanged by a second cast or coercion. |
| Alignment.AlignWithoutCategoricalTransformer | app.py:133-147 | With no transformer named "cat…", alignment succeeds and every cell is numeric. |
| RiskPolicy.TierOf | app.py:157-164 | Every probability gets the tier whose band it lies in: Low below 5, Moderate in [5, 10), High in [10, 20), VeryHigh from 20. |
| RiskPolicy.TierOfIsBand | app.py:157-164 | A probability gets tier t exactly when it lies in t's band: Low below 5, Moderate in [5, 10), High in [10, 20), VeryHigh from 20. The bands partition the reals. |
| RiskPolicy.TierRankCountsThresholds | app.py:157-164 | The tier's rank equals the number of cut-offs (5, 10, 20) the probability has reached. |
| RiskPolicy.TierMonotone | app.py:157-164 | A higher probability never gets a lower tier. |
| RiskPolicy.Recommend | app.py:157-164 | Each band yields its level, action and badge: "Standard premium", "Monitor customer", "Higher premium" and "Manual underwriting review" in turn. |
| RiskPolicy.ActionIdentifiesTier | app.py:158-164 | Distinct tiers recommend distinct actions. |
| RiskPolicy.TierBoundaries | app.py:157-164 | 0 and 4.999 are Low. 5 and 9.999 are Moderate. 10 and 19.999 are High. 20 and 100 are VeryHigh. |
| RiskPolicy.ClaimText | app.py:212-217 | The text is "Claim Expected" exactly when the label is 1, and "No Claim Expected" exactly when it is not. |
| RiskPolicy.ClaimBadge | app.py:212-217 | The badge is "badge-high" exactly when the label is 1, and "badge-low" otherwise. |
| Assessment.ToRecord | app.py:116-128 | The raw record has exactly the nine input columns. Tenure, ages, density, make and NCAP rating are numbers with the input values; area cluster, segment and fuel type are the selected strings. |
| Assessment.Assess | app.py:128-217 | An assessment fails exactly when alignment fails. On success the classifier sees the aligned row, whose columns are the fit-time columns in order. The percentage is 100 times the positive-class probability, and the tier is the band it lies in. Level, action and badge are the risk policy's for that percentage. The claim text and claim badge are those for the hard label: "Claim Expected" exactly when the label is 1. |
| Assessment.ScenarioCategoricalColumns | app.py:133-136 | For a schema with a "num" and a "cat" transformer, the categorical columns are those of "cat". |
| Assessment.ScenarioAlignment | app.py:116-149 | The default sidebar inputs (NCAP rating 0, the first option) align to the schema's eleven columns in order. The supplied values keep their types, `region_code` is "No" and `airbags` is 0. |

## Left out

- The page: its configuration, CSS, images, sidebar widgets, the gauge chart, the KPI cards, the marquee and the thank-you text. All of this is presentation. The widget ranges (for example 18–90 for the policyholder age) belong to the widgets, so `PolicyInputs` does not restrict them.
- Loading the pipeline with `joblib.load` is file I/O plus foreign deserialisation. The loaded pipeline is the `Model` parameter.
- `predict_proba` and `predict` are a black-box classifier. They are modelled as opaque functions over the aligned row.
- Floating point: the ×100 scaling is exact real multiplication here. NaN and infinities are not modelled. A NaN probability would fall through to "Very High Risk" in the code.
- pandas dtypes are not modelled: integers and floats are one `Num(real)`. What `astype(str)` prints for non-strings, and how `to_numeric` parses non-numbers, are the parameters `show` and `parse`. A number is kept as it is, without consulting `parse`.
- Schema.Lower: it lower-cases only ASCII letters, unlike Python's Unicode `str.lower()`. This does not change the prefix test: a name's lower-cased form starts with "cat" only if its first three characters are c/C, a/A, t/T.
- Schema.Transformer: `transformers_` entries whose column selector is a slice, a mask or a callable are not modelled. Each entry's columns are a list of names. The fitted transformer objects are not modelled either.
- Logging or counting of silently filled defaults: the code does none.
