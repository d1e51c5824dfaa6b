# GDM risk calculator: a verified model of the scoring rules

The calculator is a Streamlit page, `app.py`, with three risk models for gestational diabetes
(GDM). It also has a final tab that merges their labels.

1. **Clinical model** (`base_risk`): a logistic regression on BMI and a first-degree family
   history of diabetes.
2. **Lipid model** (`lipid_risk`): a logistic regression on triglycerides and HDL.
3. **Metabolomic model** (`meta_predict`): a logistic regression without intercept on five amino
   acids.
   - Each value is log10-transformed and centred on the training mean.
   - It is then divided by the square root of the training sample standard deviation (Pareto
     scaling, as the code does).
   - The statistics come from a fixed ten-value training sample, computed once at start-up.

Each tab turns its probability into one of three labels: Низкий (Low), Промежуточный
(Intermediate) or Высокий (High). `extended_category` does this with the tab's own cutoffs:

| tab | cutoffs |
|---|---|
| clinical | 0.388 / 0.607 |
| lipid | 0.35 / 0.689 |
| metabolomic | 0.05 / 0.1 |

The final tab combines the stored labels with `combine_categories`, which picks the most severe.
`color_class` maps a label to its CSS class.

The Dafny project has one module per concern:

- `wrappers.dfy` — `Option`, `Result` and the two error outcomes:
  - an invalid metabolomic input;
  - `max` over nothing.
- `numerics.dfy` — the transcendental functions are parameters, each with the laws the proofs
  need:
  - logistic: values in (0, 1), strictly increasing, 1/2 at 0, slope at most 1/4;
  - log10: increasing on the positives;
  - sqrt: the non-negative root.

  A rational sigmoid shows that the logistic laws can be met.
- `categories.dfy`:
  - the label datatype, with `Other(text)` for any other string;
  - the rank used by the combiner;
  - the CSS mapping;
  - the categorizer.
- `combiner.dfy`:
  - `filter(None, …)` (which drops `None` and the empty string);
  - `max` with a rank key, which returns the first maximal element;
  - `combine_categories`;
  - the final tab.
- `parsing.dfy` — `parse_num`. It replaces commas, strips Python whitespace, and converts with
  a decimal reader in place of `float`.
- `predictors.dfy` — the clinical and lipid models and their two tabs.
- `metabolomics.dfy`:
  - the training statistics loop, as a method over maps;
  - `normalize_raw_df`, as a method with a loop, specified by a function;
  - the dot-product predictor;
  - the guarded third tab.

Click handlers become total functions or methods that return the tab's result. Values that
Streamlit keeps in `st.session_state` become parameters of the final tab.

## Model

| member | source | states |
|---|---|---|
| Categories.FromText | app.py:66-69 | a stored string becomes a label whose text is that string; the label is one of the three known labels exactly when the string is one of the three label texts |
| Categories.RankOfText | app.py:68-69 | `order.get(x, 0)`: rank 2 exactly for Высокий, 1 exactly for Промежуточный, 0 for everything else |
| Categories.Rank | app.py:68-69 | the ranks of Low, Intermediate and High are 0, 1 and 2; any other label ranks 0 |
| Categories.KnownRankInjective | app.py:68 | two of the three known labels have the same rank only when they are the same label |
| Categories.ColorClass | app.py:65-66 | risk-low exactly for Низкий, risk-high exactly for Высокий, risk-mid for Промежуточный and for every other string |
| Categories.ColorClassOfLabels | app.py:65-66 | the class of each of the three labels, and risk-mid for any unknown label |
| Categories.Categorize | app.py:61-64 | always one of the three labels; Low iff p < low; Intermediate iff low <= p < high; High iff low <= p and high <= p |
| Categories.CategorizeBands | app.py:61-64 | with low <= high the label is High iff p >= high; with equal cutoffs the Intermediate band is empty |
| Categories.CategorizeBoundaries | app.py:61-64 | a probability equal to a cutoff goes to the upper band |
| Categories.CategorizeMonotone | app.py:61-64 | with low <= high, a larger probability never gets a lower-ranked label |
| Combiner.Truthy | app.py:69 | the truthiness `filter(None, ...)` tests: None and the empty string are dropped; stated through Present, PresentSingle and CombineIgnoresFalsy |
| Combiner.Present | app.py:69 | `filter(None, cats)`: keeps exactly the labels that are present and non-empty, and is never longer than its input; order and repetitions are fixed by PresentSingle and PresentAppend |
| Combiner.PresentSingle | app.py:69 | one argument filters to its label when truthy and to nothing otherwise; with PresentAppend this determines the filtered list, order and repetitions included |
| Combiner.PresentAppend | app.py:69 | filtering a concatenation is the concatenation of the filtered parts |
| Combiner.MaxByRankStep | app.py:69 | one step of the left-to-right scan: the next element replaces the candidate only when its rank is strictly greater |
| Combiner.MaxByRank | app.py:69 | `max(..., key=rank)` on a non-empty list: an element of the list whose rank is at least every element's rank, and the first element that has this rank |
| Combiner.Combine | app.py:67-69 | fails (with the `max` error) iff no argument is present and non-empty; otherwise returns a present argument whose rank dominates every present argument |
| Combiner.CombineFirstMaximal | app.py:67-69 | the combined label is the FIRST truthy argument of maximal rank: every truthy argument before it ranks strictly lower, so with equal ranks the earlier argument wins |
| Combiner.CombineSnocTruthy | app.py:67-69 | a truthy argument added at the end becomes the result exactly when there was no result or it outranks the result so far |
| Combiner.CombineSnocFalsy | app.py:67-69 | a None or empty argument added at the end leaves the result unchanged |
| Combiner.CombineIgnoresFalsy | app.py:69 | inserting None or an empty label anywhere among the arguments leaves the result unchanged |
| Combiner.CombineOfSamePresent | app.py:69 | argument lists that filter to the same labels combine alike |
| Combiner.CombineSingle | app.py:67-69 | a single label combines to itself |
| Combiner.CombineEmpty | app.py:67-69 | with no arguments the combiner fails |
| Combiner.CombineKnownIsWorst | app.py:67-69 | over the three labels the result equals the reference "worst label present": High if any, else Intermediate if any, else Low if any, else the `max` error |
| Combiner.CombineDependsOnlyOnMembers | app.py:67-69 | over the three labels, arguments with the same members (any order, repetition or None entries) combine to the same result |
| Combiner.Collected | app.py:190-191 | the collected list holds exactly the stored (non-None) slots, at most three |
| Combiner.FinalTab | app.py:186-198 | shows the "compute at least one component" message iff no slot is stored; a verdict's CSS class is the class of its label |
| Combiner.FinalTabCombinesAllSlots | app.py:190-196 | when some slot is stored, the tab shows the combination of all three slots, None included, so dropping None first changes nothing |
| Combiner.FinalTabOfKnownLabels | app.py:186-198 | when every stored label came from the categorizer, the tab never fails; it shows the worst stored label with its class, or the message when nothing is stored |
| Parsing.IsSpace | app.py:71 | the characters Python's `str.isspace` accepts, which `strip` removes; used by the StripLeft and StripRight rows |
| Parsing.ReplaceCommas | app.py:71 | `replace(",", ".")`: same length; every ',' becomes '.', every other character is kept |
| Parsing.ReplaceCommasIdempotent | app.py:71 | replacing commas twice is replacing them once |
| Parsing.ReplaceCommasAppend | app.py:71 | comma replacement works piecewise over a concatenation |
| Parsing.StripLeft | app.py:71 | `lstrip()`: a suffix of the input; everything removed is whitespace; the result does not start with whitespace |
| Parsing.StripRight | app.py:71 | `rstrip()`: a prefix of the input; everything removed is whitespace; the result does not end with whitespace |
| Parsing.Strip | app.py:71 | `strip()`: a contiguous slice of the input with only whitespace outside it, beginning and ending with a non-whitespace character when non-empty |
| Parsing.StripIgnoresSurroundingSpace | app.py:71 | stripping ignores any whitespace added around a string |
| Parsing.StripKeepsNonSpace | app.py:71 | stripping never removes a character that is not whitespace |
| Parsing.StripWithoutSpaceEnds | app.py:71 | stripping a non-empty string whose first and last characters are not whitespace leaves it unchanged |
| Parsing.DotIndex | app.py:71 | the position of the first '.', or the length when there is none |
| Parsing.FloatValue | app.py:71 | the decimal reader standing in for `float`: an optional sign before digits with at most one '.'; its properties are stated by FloatValueCharacters, FloatValueOfDigits and FloatValueOfDecimal |
| Parsing.UnsignedValueCharacters | app.py:71 | a number the decimal reader accepts without sign is written only with digits and '.' |
| Parsing.FloatValueCharacters | app.py:71 | a number the decimal reader accepts is written only with digits, '.', '+' and '-' |
| Parsing.ParseNum | app.py:70-72 | `parse_num`: comma replacement, strip, then the decimal reader, with None for a rejected string; its properties are stated by ParseNumCommaAsDot, ParseNumIgnoresSurroundingSpace, ParseNumWithComma, ParseNumOfNat and ParseNumRejectsEmptyAndWords |
| Parsing.ParseNumCommaAsDot | app.py:70-72 | a string and the same string with every ',' replaced by '.' parse to the same result |
| Parsing.ParseNumIgnoresSurroundingSpace | app.py:70-72 | whitespace added before and after the input does not change the result |
| Parsing.ParseNumRejectsForeignCharacter | app.py:70-72 | with the decimal reader, any character other than a digit, ',', '.', a sign or whitespace makes the result None |
| Parsing.DigitsOfNat | app.py:71 | the decimal digits of n read back as n |
| Parsing.FloatValueOfDigits | app.py:71 | a run of digits converts to the number it denotes |
| Parsing.ParseNumOfNat | app.py:70-72 | the decimal text of any natural number parses back to that number |
| Parsing.FloatValueOfDecimal | app.py:71 | `w.f` with digit runs w (non-empty) and f converts to w + f / 10^len(f) |
| Parsing.ParseNumWithComma | app.py:70-72 | `w,f` (a decimal comma) parses to the same number as `w.f` |
| Parsing.ParseNumRejectsEmptyAndWords | app.py:70-72 | the empty string and a word give None, not an exception |
| Numerics.LogisticLaws | app.py:60 | the laws of 1 / (1 + exp(-z)) the proofs use: values in (0, 1), strictly increasing, 1/2 at 0, slope at most 1/4; shown consistent by LogisticLawsSatisfiable |
| Numerics.Log10Laws | app.py:97 | the stand-in for `np.log10`: strictly increasing on the positive reals, which NormalizedValueIncreasing and TrainingSdPositive use |
| Numerics.SqrtLaws | app.py:104 | the stand-in for `np.sqrt`: the non-negative root of a non-negative real; SqrtPositive makes it a positive divisor |
| Numerics.SqrtPositive | app.py:104 | the square root of a positive number is positive, so the divisor of the normalization is never zero for a positive deviation |
| Numerics.LogisticLawsSatisfiable | app.py:60 | the laws required of `logistic` are met by a function (a rational sigmoid), so they are consistent |
| Predictors.BaseScore | app.py:75-78 | the clinical linear predictor -2.8830 + 0.1043 bmi + 0.8860 fam_dm; its monotonicity is stated by BaseScoreIncreasing |
| Predictors.LipidScore | app.py:80-81 | the lipid linear predictor -2.837 + 2.431 tg - 1.323 hdl; its monotonicity is stated by LipidScoreMonotone |
| Predictors.BaseRisk | app.py:75-78 | the clinical probability lies strictly between 0 and 1 |
| Predictors.LipidRisk | app.py:80-81 | the lipid probability lies strictly between 0 and 1 |
| Predictors.BaseScoreIncreasing | app.py:75-78 | the clinical score is non-decreasing in BMI and the family flag together, and strictly increasing when either grows |
| Predictors.LipidScoreMonotone | app.py:80-81 | the lipid score is strictly increasing in triglycerides and strictly decreasing in HDL |
| Predictors.BaseRiskIncreasing | app.py:75-78 | the same monotonicity for the clinical probability |
| Predictors.LipidRiskMonotone | app.py:80-81 | the same monotonicity for the lipid probability |
| Predictors.ClinicalTab | app.py:130-135 | the probability is base_risk with the flag 1 exactly for the answer Да; the label is the categorizer's band of that probability under the cutoffs 0.388 / 0.607 |
| Predictors.LipidTab | app.py:149-151 | the probability is lipid_risk; the label is the categorizer's band of that probability under the cutoffs 0.35 / 0.689 |
| Predictors.ClinicalCategoryMonotone | app.py:130-135 | a larger BMI, or switching to a family history, never lowers the clinical label |
| Predictors.LipidCategoryMonotone | app.py:149-151 | more triglycerides, or less HDL, never lowers the lipid label |
| Predictors.ClinicalDefaultIsIntermediate | app.py:128-135 | the tab's default inputs (BMI 27, no family history) give the Intermediate label |
| Predictors.LipidDefaultIsIntermediate | app.py:145-151 | the tab's default inputs (triglycerides 2, HDL 1.2) give the Intermediate label |
| Metabolomics.FeaturesAreTheModelKeys | app.py:83-94 | FEATURES is duplicate-free and lists exactly the keys of COEFFS and of TRAIN_RAW |
| Metabolomics.Mean | app.py:98 | `np.mean`; stated by MeanWithinBounds |
| Metabolomics.MeanWithinBounds | app.py:98 | the mean lies between any lower and upper bound of the sample |
| Metabolomics.SampleVariance | app.py:99 | the squared deviations from the mean over n - 1: never negative |
| Metabolomics.SampleSd | app.py:99 | `np.std` with one delta degree of freedom: the root of SampleVariance; positive for the training data by TrainingSdPositive |
| Metabolomics.LogAll | app.py:97 | `np.log10` of a vector: same length, log10 of each entry |
| Metabolomics.ComputeTrainingStats | app.py:95-99 | the loop fills MEAN_LOG and SD_LOG with exactly the listed keys, each holding the mean and the sample (n - 1) deviation of that feature's log10 values |
| Metabolomics.LoadTrainingStats | app.py:95-99 | the start-up loop run on TRAIN_RAW in FEATURES order yields, for every feature, the mean and deviation of its training logarithms, and statistics fit for normalization (a positive deviation everywhere) |
| Metabolomics.TrainingMean | app.py:96-98 | MEAN_LOG[k]: the mean of the log10 training values of feature k; LoadTrainingStats proves the start-up loop yields it |
| Metabolomics.TrainingSd | app.py:96-99 | SD_LOG[k]: the ddof=1 deviation of the log10 training values of feature k; positive by TrainingSdPositive, and yielded by the start-up loop by LoadTrainingStats |
| Metabolomics.TrainingSdPositive | app.py:88-99 | for every feature of the fixed training sample the standard deviation of the log10 values is strictly positive |
| Metabolomics.TrainingStatsReady | app.py:95-104 | the statistics the start-up loop computes give every feature a mean and a positive deviation, so normalization never divides by zero |
| Metabolomics.NormalizedValue | app.py:104 | one normalized feature: scaling it back by the square root of the deviation gives the log10 of the value less the training mean |
| Metabolomics.Normalized | app.py:101-105 | the normalized row has exactly the FEATURES keys; computed by NormalizeRawDf |
| Metabolomics.NormalizedValueAtMean | app.py:104 | a value whose log10 equals the training mean normalizes to 0 |
| Metabolomics.NormalizedValueIncreasing | app.py:104 | normalization preserves the strict order of positive measurements |
| Metabolomics.NormalizeRawDf | app.py:101-105 | the column loop produces exactly the normalized value of every feature and no other column |
| Metabolomics.NormalizedUpdate | app.py:103-104 | changing one raw value changes only that feature's normalized entry |
| Metabolomics.Column | app.py:108 | the normalized row, in FEATURES order |
| Metabolomics.Beta | app.py:109 | the coefficients, in FEATURES order |
| Metabolomics.Dot | app.py:110 | `np.dot` of equal-length vectors; stated by DotUpdate and DotZero |
| Metabolomics.DotUpdate | app.py:110 | changing one entry changes the dot product by the change times the matching weight |
| Metabolomics.DotZero | app.py:110 | a zero vector has dot product 0 |
| Metabolomics.MetaScore | app.py:108-110 | the intercept-free linear score of a normalized row; stated by MetaScoreUpdate and MetaPredictNoIntercept |
| Metabolomics.MetaPredict | app.py:107-110 | the metabolomic probability lies strictly between 0 and 1 |
| Metabolomics.MetaPredictNoIntercept | app.py:107-110 | an all-zero normalized row scores 0 and has probability logistic(0) = 1/2 (no intercept) |
| Metabolomics.MetaScoreUpdate | app.py:107-110 | changing one normalized feature moves the score by its coefficient times the change |
| Metabolomics.MetaScoreFollowsCoefficient | app.py:107-110 | raising one normalized feature raises the score when its coefficient is positive and lowers it when negative |
| Metabolomics.Vals | app.py:169-170 | the input dictionary has exactly the five feature keys, each holding its own input: tyrosine under Tyrosine, alphaaaa under AlphaAminoadipicAcid, mh3 under MH3, pe under Phosphoethanolamine, ps under Phosphoserine |
| Metabolomics.Usable | app.py:171 | a value the guard lets through: present and strictly positive, the negation of `v is None or v <= 0`; stated by GuardRejectsExactlyTheUnusable |
| Metabolomics.RawRow | app.py:174 | the one-row frame: the same keys, each the positive value that was entered |
| Metabolomics.MetaRisk | app.py:174-177 | the probability is `meta_predict` of the normalized row, strictly between 0 and 1; the label is the categorizer's band of that probability under the cutoffs 0.05 / 0.1 |
| Metabolomics.GuardRejectsExactlyTheUnusable | app.py:169-171 | the guard finds a missing or non-positive value among the five exactly when one of them is not usable |
| Metabolomics.MetabolomicTab | app.py:168-179 | succeeds iff all five values are present and strictly positive; otherwise the invalid-input error and nothing computed; on success the normalized row's probability and its label under 0.05 / 0.1 |
| Metabolomics.MetaRiskAtTrainingMeans | app.py:101-110 | with every feature at its training mean the result is probability 1/2 and High |
| Metabolomics.MetaRiskMonotoneInFeature | app.py:101-110 | raising one raw measurement raises the probability when its coefficient is positive and lowers it when it is negative |
| Metabolomics.MetaRiskFeatureDirections | app.py:83-86 | more Tyrosine, AlphaAminoadipicAcid or MH3 raises the metabolomic probability; more Phosphoethanolamine or Phosphoserine lowers it |
| Metabolomics.CoefficientSigns | app.py:83-86 | Tyrosine, AlphaAminoadipicAcid and MH3 have positive coefficients; Phosphoethanolamine and Phosphoserine negative |

## Left out

- User interface: the CSS block, page configuration, titles, tabs, widgets and HTML markup (app.py:1-57 and the `st.*` calls) are presentation. The formatted percentage in each message is not modelled.
- Widget ranges: the BMI and lipid `number_input` bounds and defaults are enforced by the widgets, not by the code. The models accept any real input, and the defaults appear only in the two default-scenario lemmas.
- Session state: the writes to `st.session_state` are the caller's persistence. The final tab receives the three stored labels (or None) as parameters.
- Floating point: every number is an exact Dafny `real`. Rounding of the IEEE doubles is not modelled. In particular the logistic of a double rounds to exactly 1.0 for scores above about 36.7 and to 0.0 below about -709.8, where `exp(-z)` overflows to infinity (triglycerides 20 with HDL 0.1, inside the widget range, give a lipid score of about 45.65). So the strict bounds 0 < p < 1 of Predictors.BaseRisk, Predictors.LipidRisk and Metabolomics.MetaPredict, and the strict monotonicity lemmas, hold for the exact-real model and not for the doubles at those extremes.
- `np.exp`, `np.log10` and `np.sqrt` are parameters constrained by the laws in `Numerics`; no values are computed. The logistic laws are true of 1 / (1 + exp(-z)); a rational sigmoid shows they are consistent.
- pandas: `normalize_raw_df` and `meta_predict` work on a one-row DataFrame; the model uses a map from feature names to reals.
- Parsing.FloatValue: the decimal reader accepts a smaller language than Python's `float`, as the Parsing.ParseNum line below describes.
- Parsing.ParseNum: Python's `float` is replaced by a decimal reader (optional sign, digits, at most one '.', at least one digit). Exponents, `inf`, `nan`, underscores between digits and non-ASCII digits are rejected where `float` would accept them. A `nan` would get through the guard at app.py:171, because `nan <= 0` is false; the model does not capture this. Parsing.ParseNumRejectsForeignCharacter, Parsing.FloatValueCharacters and Parsing.UnsignedValueCharacters are therefore properties of the decimal reader: `parse_num` accepts `1e5`, `inf` and `1_0`, which these lemmas exclude.
- Zero-deviation guard: the code divides by `np.sqrt(SD_LOG[k])` with no guard. The model requires a positive deviation and proves the fixed training data provides one (Metabolomics.TrainingSdPositive). The code has no fallback divisor for a zero deviation.
- Metabolomics.MetabolomicTab: takes the statistics as parameters with a positive deviation for every feature, rather than the module-level MEAN_LOG and SD_LOG. Metabolomics.TrainingStatsReady proves that the start-up loop's results meet this requirement.
- Label canonicity: a label built directly as `Other` with one of the three label texts is not ruled out by the type. Lemmas about unknown labels state `Canonical` where they need it.
