# FICO-style credit scorers in Dafny

This project models a family of rule-based credit scorers and one credit
decision rule.

Each scorer maps the fields of a customer record to sub-scores on a 0-100
scale through fixed step tables: payment delays, utilization, length of
history, credit mix, inquiries and, in some variants, debt and income. It
then sums the sub-scores with fixed weights and maps the 0-100 total
linearly onto 300-850. Depending on the variant, the result is truncated with
`int()` or left unrounded, and the two binary variants cut it into a bad (0)
and a good (1) category.

The variants are:

- `Traditional.py`: the reference scorer (`FICOScoreModel` and `analyze_credit_improvement`).
- `traditional_borrador.py`: a draft with a list-or-scalar delay input and a
  comma-separated loan-type credit mix.
- `ASAS.py`: alternative tables, a 15/30/45/60-day payment scorer that
  returns a trace, and a map over customer rows.
- `borrador_New.py`: element-wise (column) scorers, a string credit-mix
  label, a batch scorer and the improvement advice keyed on `*_score` columns.
- `credit_model_traditional.py` and `credit_model_binary.py`: five- and
  six-column table scorers with an unrounded score and a 590 / 580 cut-off.
- `Classes.py`: `credit_decision`, which reads an Altman Z-score and a
  default probability and returns Approve, Review or Deny.

## Layout

| file | module | contents |
|---|---|---|
| basics.dfy | `Basics` | `Option`, `Result`, the Python errors raised (`TypeError`, `AttributeError`, `KeyError`), `dict.get`, `min`, `max`, `int()` as truncation toward zero |
| step_table.dfy | `StepTable` | first-match `if / elif` tables, last-match `np.where` overlays, monotonicity, and the theorem that an overlay of disjoint bands equals the `if / elif` table |
| text.dfy | `Text` | `strip`, `lower`, `in` on strings, `split` and `join` |
| payment_history.dfy | `PaymentHistory` | delay buckets, counts, deductions, and the short-history factor `0.5 + months / 24` |
| composite.dfy | `Composite` | weighted sums, the 300-850 map, `int()`, `pd.cut` |
| advice.dfy | `Advice` | the improvement messages and their thresholds |
| traditional.dfy | `Traditional` | `Traditional.py` |
| traditional_borrador.dfy | `TraditionalDraft` | `traditional_borrador.py` |
| asas.dfy | `Asas` | `ASAS.py` |
| borrador_new.dfy | `NewDraft` | `borrador_New.py` |
| credit_model_traditional.dfy | `CreditModelTraditional` | `credit_model_traditional.py` |
| credit_model_binary.dfy | `CreditModelBinary` | `credit_model_binary.py` |
| credit_decision.dfy | `CreditDecision` | `credit_decision` in `Classes.py` |

## Modelling choices

- **Numbers.** Every numeric field is a `real`, because Python mixes `int`
  and `float` freely. `int()` is truncation toward zero, written out in
  `Basics.Trunc`.
- **Tables.** Each `if / elif` chain is a `StepTable.Table`, and
  a lemma named `…Steps` reads it back as the chain. `borrador_New.py`
  builds its tables as `np.where` chains in which the last matching mask
  wins. Those are `StepTable.Overlay`, proved equal to the reference tables
  where the two agree.
- **Profiles.** A dictionary with `.get(key, default)` is a
  `map<string, real>` read through `Basics.Get`.
  - `ASAS.py` reads `avg_delay` without a default and then compares the
    resulting `None` with a number. That `TypeError` is an `Err`.
  - The draft's profile holds a list, a string or a number per field, so it
    is a record of `Option` fields.
- **Missing attributes.** `borrador_New.py` names its initializer `_init_`,
  so a freshly constructed model has no `weights` attribute and the batch
  scorer fails with `AttributeError`. A model is
  `Model(config: Option<Config>)`: `Construct` leaves the config empty, and
  `CallInit` stands for an explicit `_init_()` call.
- **Quirks kept as written:**
  - In `ASAS.py`, a scalar delay's fourth bucket is (50, 60], while the
    list branch counts everything above 45.
  - In `traditional_borrador.py`, one loan type that mentions both a
    revolving and an installment keyword makes a good mix on its own.
  - In `borrador_New.py`, an inquiry count that no mask catches (a negative
    count, or a fraction below 2) scores 0.
  - In `credit_model_binary.py`, the comments give debt 20% and mix 15%,
    but the code multiplies by 0.15 and 0.20. The model uses the code's
    factors.
  - `credit_decision` is monotone in neither input.

## Model

| member | source | states |
|---|---|---|
| Basics.Trunc | Traditional.py:257 | `int()` of a real truncates toward zero: for a non-negative value the greatest integer not above it, for a negative value the least integer not below it |
| StepTable.Lookup | Traditional.py:71-92 | an `if / elif / else` chain returns the score of the first condition that holds, the `else` score when none does, and always one of the listed scores |
| StepTable.LookupNonIncreasing | Traditional.py:71-92 | a table of upper bounds with falling scores, or of lower bounds with rising scores, never rewards a larger input |
| StepTable.LookupNonDecreasing | Traditional.py:105-118 | a table of upper bounds with rising scores, or of lower bounds with falling scores, never penalises a larger input |
| StepTable.OverlayIsLastHit | borrador_New.py:102-111 | a chain of `np.where` masks yields the score of the last mask that matches, or the initial value when none does |
| StepTable.UpperBandsAgree | borrador_New.py:102-111 | masks written as disjoint bands `lo < x <= hi` of an ascending `<=` chain give the same score as the chain |
| StepTable.LowerBandsAgree | borrador_New.py:132-138 | masks written as disjoint bands `lo <= x < hi` of a descending `>=` chain give the same score as the chain |
| Text.ContainsIffOccurs | borrador_New.py:161 | Python's `needle in text` holds exactly when the needle occurs at some position of the text |
| Text.LowerIdempotent | borrador_New.py:160 | lower-casing twice is lower-casing once |
| Text.SplitJoin | traditional_borrador.py:141 | splitting on a separator undoes joining pieces that do not contain it |
| Text.JoinSplit | traditional_borrador.py:141 | joining the pieces of a split on a separator gives the original string back |
| PaymentHistory.Count | traditional_borrador.py:57-59 | `np.sum` of a mask counts the delays that satisfy the bucket condition: zero exactly when none does, the full length exactly when all do |
| PaymentHistory.CountsPermutation | traditional_borrador.py:55-59 | bucket counts, and therefore the score, depend only on the multiset of delays, not on their order |
| PaymentHistory.ExtraDelayNeverHelps | traditional_borrador.py:56-78 | adding one more delay to the list never raises the score, for any non-negative deduction table and a history of at least -12 months |
| PaymentHistory.Score | Traditional.py:53-60 | at most 100, and non-negative from -12 months on. For a deduction in [0, 100] it is `100 - deductions` on a file of a year or more, and `(100 - deductions) · (0.5 + months / 24)` on a younger one. A deduction of 100 or more gives 0 |
| PaymentHistory.ShortHistoryBounds | Traditional.py:57-58 | the short-history factor leaves files of 12 months or more alone and never raises a non-negative score |
| PaymentHistory.ScoreNonIncreasing | Traditional.py:46-60 | from -12 months on file, a larger deduction never gives a higher payment score |
| PaymentHistory.ScoreNonDecreasingInMonths | Traditional.py:57-60 | a longer file never gives a lower payment score |
| Composite.Rescale | Traditional.py:257 | `min + base / 100 * (max - min)` sends a total of 0 to the minimum and a total of 100 to the maximum |
| Composite.RescaleWithin | Traditional.py:257 | a total in [0, 100] lands in [min, max] whenever min <= max |
| Composite.RescaleMonotone | Traditional.py:257 | a larger total never lands lower |
| Composite.Combine | Traditional.py:245-257 | with weights that are non-negative and sum to one and components in [0, 100], `int(300 + base / 100 * 550)` lies in [300, 850]; all-100 components give 850 and all-0 components give 300 |
| Composite.CombineMonotone | Traditional.py:245-257 | raising any component never lowers the FICO score |
| Composite.Cut | credit_model_traditional.py:83-87 | `pd.cut` with right-closed bins gives label `i` exactly for `edges[i] < x <= edges[i + 1]`, and no label outside every bin |
| Composite.Category | credit_model_traditional.py:83-87 | the bins `[0, cutoff, 850]` give 0 exactly on (0, cutoff], 1 exactly on (cutoff, 850], and no label otherwise |
| Advice.Recommend | Traditional.py:329-350 | a tip is present exactly when its threshold is crossed (payment, amounts owed and new credit below 90; mix and history below 80), tips appear in the order of the checks, and the list is empty exactly when no threshold is crossed |
| Advice.Recommendations | Traditional.py:329-350 | the messages are the triggered tips' texts, in the same order |
| Traditional.PaymentHistoryScore | Traditional.py:30-60 | at most 100, and non-negative from -12 months on. With `d = 10·c30 + 20·c60 + 40·c90` in [0, 100], it is `100 - d` on a file of a year or more and `(100 - d) · (0.5 + months / 24)` on a younger one |
| Traditional.PaymentHistoryNonIncreasing | Traditional.py:46-60 | from -12 months on file, more late payments in any bucket never raise the score |
| Traditional.UtilizationScore | Traditional.py:62-94 | the score is one of 10…100; it is 100 exactly at a ratio up to 0.10 and 10 exactly above 0.90 |
| Traditional.UtilizationSteps | Traditional.py:71-92 | the table is the source's chain with `<=` edges every 0.10 |
| Traditional.UtilizationNonIncreasing | Traditional.py:71-94 | a higher ratio never scores better |
| Traditional.HistoryScore | Traditional.py:96-124 | the score lies in [30, 100]; it is 100 exactly from 240 months and 30 exactly below 12 |
| Traditional.HistorySteps | Traditional.py:105-118 | the table is the source's chain with `>=` edges at 240, 180, 120, 60, 24 and 12 months |
| Traditional.HistoryNonDecreasing | Traditional.py:105-124 | a longer history never scores worse |
| Traditional.TypeCount | Traditional.py:144-152 | the number of account kinds with a positive count: 0 exactly when all four counts are at most 0, 4 exactly when all are positive |
| Traditional.Blend | Traditional.py:154-178 | `0.6 · diversity + 0.4 · (100 or 70)` equals 52 plus 12 points for every account kind up to three and 12 more for a good mix. It is 100 exactly for a good mix with three or more kinds |
| Traditional.CreditMixScore | Traditional.py:126-178 | 30 when there are no accounts. Otherwise it is 52 plus 12 points per kind with a positive count, up to three, plus 12 for a good mix. That makes it at least 88 with a good mix, at most 88 without one, and 100 exactly for a good mix with three or more kinds |
| Traditional.GoodMixHasTwoTypes | Traditional.py:145-171 | a good mix always involves at least two account kinds |
| Traditional.FractionalKinds | Traditional.py:145-171 | half-accounts count as kinds (`> 0`) but not toward a good mix (`>= 1`) |
| Traditional.NewCreditScore | Traditional.py:180-204 | 100 exactly at zero inquiries, 40 exactly above four |
| Traditional.NewCreditSteps | Traditional.py:189-198 | the table is the source's chain: `== 0`, `== 1`, `== 2`, `<= 4`, else |
| Traditional.NewCreditNonIncreasing | Traditional.py:189-204 | for whole inquiry counts, more inquiries never score better |
| Traditional.NewCreditOffGrid | Traditional.py:189-198 | a negative count, or a fractional count up to 4, falls through the equality tests to the `<= 4` branch and scores 60 (0.5 and -1 are shown); a fractional count above 4, such as 4.5, scores 40 |
| Traditional.ComponentScores | Traditional.py:217-242 | each component is its scorer applied to its own profile keys, each defaulting to 0: the three late-payment counts and `months_on_file`, the utilization ratio, the history age, the four account counts with `total_accounts`, and the inquiries. All five are in [0, 100] from -12 months on file |
| Traditional.FicoScore | Traditional.py:206-271 | the result carries the component scores and a FICO score in [300, 850] from -12 months on file |
| Traditional.CleanComponents | Traditional.py:217-242 | a file with no late payments over at least twelve months, utilization at most 10%, at least 240 months of history, cards plus installment and mortgage loans, and no inquiries has every component at 100 |
| Traditional.PerfectProfile | Traditional.py:245-257 | such a clean file scores the top of the scale, 850 |
| Composite.ScoreOfPerfect | Traditional.py:245-257 | all components at 100 under the published weights give exactly 850 |
| Traditional.EmptyComponents | Traditional.py:217-242 | every key missing gives components 50, 100, 30, 30, 100: half of a perfect payment score for a zero-month file, the lowest history score, and the no-account mix score |
| Traditional.EmptyProfile | Traditional.py:217-257 | an empty profile scores 657 |
| Traditional.SampleCombine | Traditional.py:245-257 | components 100, 100, 80, 100, 75 have base 94.5 and score 819 |
| Traditional.SampleScore | Traditional.py:278-303 | the example profile scores 819 |
| Traditional.AnalyzeCreditImprovement | Traditional.py:316-350 | one message per triggered tip, in check order, with each tip's own message text (the tips are characterised by `Advice.Recommend`). There are at most six, and none exactly when no threshold is crossed |
| TraditionalDraft.PaymentHistoryScore | traditional_borrador.py:42-80 | the score is the reference payment score of the three bucket counts, at most 100, and non-negative from -12 months on |
| TraditionalDraft.ScalarAsList | traditional_borrador.py:55-65 | a single delay scores as the one-element list |
| TraditionalDraft.DelayOrderIrrelevant | traditional_borrador.py:55-59 | reordering the delays does not change the score |
| TraditionalDraft.UncountedDelay | traditional_borrador.py:57-65 | a delay of at most 0 or above 90 days adds no deduction |
| TraditionalDraft.ExtraDelay | traditional_borrador.py:55-78 | from -12 months on file, appending a delay never raises the score |
| TraditionalDraft.BucketEdges | traditional_borrador.py:57-65 | 30 days is in the first bucket, 30.5 in the second, 90 in the third, and 0 and 91 in none |
| TraditionalDraft.NormalizeFixed | traditional_borrador.py:141-143 | a type name with no leading or trailing whitespace and no capitals is left unchanged by `strip().lower()` |
| TraditionalDraft.NormalizedSet | traditional_borrador.py:141-149 | de-duplication never yields more types than pieces |
| TraditionalDraft.NormalizedSetMembers | traditional_borrador.py:141-149 | a type is in the set exactly when some piece strips and lower-cases to it |
| TraditionalDraft.CreditMixScore | traditional_borrador.py:122-179 | 30 with no loans. Otherwise it is 52 plus 12 points per distinct normalized type, up to three, plus 12 for a good mix: one of 52, 64, 76, 88, 100. It is 52 when the loan types are neither a string nor a list; 100 exactly for a good mix with three or more types |
| TraditionalDraft.OneTypeGoodMix | traditional_borrador.py:166-179 | the single type "card mortgage" is a good mix on its own and scores 76 |
| TraditionalDraft.RepeatedType | traditional_borrador.py:142-149 | repeating a listed type does not change the score |
| TraditionalDraft.JoinedAsItems | traditional_borrador.py:139-143 | a comma-joined string scores as the list of its pieces |
| TraditionalDraft.RepeatedText | traditional_borrador.py:139-149 | repeating the whole type string after a comma does not change the score |
| TraditionalDraft.EmptyText | traditional_borrador.py:139-160 | the empty string splits into one empty type, which counts for diversity: a score of 64 |
| TraditionalDraft.ComponentScores | traditional_borrador.py:200-217 | each component is its scorer applied to its own field, with the source's defaults: a missing delay is the empty list, `credit_history_age` (default 0) feeds both the payment scaling and the history score, utilization reads `credit_utilization_ratio`, the mix reads `num_of_loan` with `type_of_loan`, and new credit reads `num_credit_inquiries`. All five components are in [0, 100] from -12 months on |
| TraditionalDraft.FicoScore | traditional_borrador.py:194-237 | the FICO score lies in [300, 850] from -12 months on |
| TraditionalDraft.OlderFileNeverWorse | traditional_borrador.py:200-226 | a longer credit history never lowers the FICO score, although it feeds two components |
| TraditionalDraft.EmptyComponents | traditional_borrador.py:200-217 | an empty profile scores components 50, 100, 30, 30, 100 |
| TraditionalDraft.EmptyProfile | traditional_borrador.py:194-226 | an empty profile scores 657 |
| Asas.LateCounts | ASAS.py:11-21 | four non-negative counts: the list branch or the scalar branch |
| Asas.PaymentHistoryScore | ASAS.py:5-47 | the score is the bucket deduction `10, 30, 50, 70` passed through the short-history factor and capped at 100. The trace holds, in order: the two inputs, the four counts, 100, the deduction, the raw score `max(0, 100 - deduction)`, the raw score scaled by the short-history factor when the file is under a year, and the final score |
| Asas.ShortFileTrace | ASAS.py:40-42 | under a year on file, the tenth trace entry is the raw score times `0.5 + months / 24` |
| Asas.ListDeduction | ASAS.py:31-34 | the deduction is `10·c15 + 30·c30 + 50·c45 + 70·c60` |
| Asas.ScalarVersusList | ASAS.py:11-21 | at every file age except exactly -12 months, a single delay scores as the one-element list exactly when it lies outside (45, 50] and is at most 60 |
| Asas.ScalarGapExample | ASAS.py:16-21 | a scalar 47-day delay scores 100, the list `[47]` scores 30 |
| Asas.DelayOrderIrrelevant | ASAS.py:11-16 | reordering the delays does not change the score |
| Asas.ExtraDelay | ASAS.py:11-37 | from -12 months on file, appending a delay never raises the score |
| Asas.UtilizationScore | ASAS.py:49-68 | 100 exactly up to 0.30, 20 exactly above 0.90 |
| Asas.UtilizationNonIncreasing | ASAS.py:49-68 | a higher ratio never scores better |
| Asas.HistoryScore | ASAS.py:70-86 | the score lies in [30, 100]; it is 100 exactly from 120 months and 30 exactly below 12 |
| Asas.HistoryNonDecreasing | ASAS.py:70-86 | a longer history never scores worse |
| Asas.CreditMixScore | ASAS.py:88-96 | 20 exactly at 0, 60 exactly at 1, otherwise 100 |
| Asas.InquiriesScore | ASAS.py:98-110 | 100 exactly at 0, and 40 exactly strictly between 5 and 6 |
| Asas.WholeInquiries | ASAS.py:98-110 | for whole counts the 40 branch is unreachable and more inquiries never score better |
| Asas.FractionalInquiries | ASAS.py:104-109 | 5.5 inquiries score 40, below the 50 that 6 score |
| Asas.ComponentScores | ASAS.py:112-129 | no components exactly when `avg_delay` is missing. Otherwise payment history scores `avg_delay` against `avg_credit_history`. Utilization reads `avg_outstanding_debt`, history reads `avg_credit_history`, the mix reads `avg_credit_mix` and inquiries read `avg_num_inquires`, each defaulting to 0. All five are in [0, 100] from -12 months on |
| Asas.FicoScore | ASAS.py:112-150 | a `TypeError` exactly when `avg_delay` is missing; otherwise a FICO score in [300, 850] from -12 months on |
| Basics.FirstError | ASAS.py:157-161 | a loop whose body may raise returns every value when nothing fails, and otherwise the first error, with every earlier element a success |
| Asas.Run | ASAS.py:152-177 | a `TypeError` that ends the whole run exactly when some row lacks `avg_delay`; otherwise one score per row, in order, each the row's own score |
| Asas.RunFails | ASAS.py:112-161 | the run fails exactly when some row lacks `avg_delay`, and then with a `TypeError` |
| NewDraft.DelayDeduction | borrador_New.py:65-75 | 0 exactly for a delay of at most 0 or above 90, 10 exactly on (0, 30], 40 exactly on (60, 90] |
| NewDraft.ExtraDeduction | borrador_New.py:78 | five points per delayed payment, never more than 30 |
| NewDraft.PaymentHistoryScore | borrador_New.py:43-83 | always in [0, 100]; with no scaling by months, it is `100 - delay deduction - extra deduction` whenever that lies in [0, 100] |
| NewDraft.ExtraDeductionCapped | borrador_New.py:78 | from six delayed payments on, more of them change nothing |
| NewDraft.MoreDelayedPayments | borrador_New.py:78-83 | more delayed payments never raise the score |
| NewDraft.NoDelayedPayments | borrador_New.py:65-83 | with no delayed payments the score is the draft scorer's score for the same single delay on a file of a year or more |
| NewDraft.UtilizationMasksAreBands | borrador_New.py:102-111 | the ten masks are exactly the bands of the reference utilization chain |
| NewDraft.UtilizationScore | borrador_New.py:85-113 | the element-wise score equals the reference utilization score |
| NewDraft.HistoryMasksAreBands | borrador_New.py:132-138 | the seven masks are exactly the bands of the reference history chain |
| NewDraft.HistoryScore | borrador_New.py:115-140 | the element-wise score equals the reference history score |
| NewDraft.MixScore | borrador_New.py:142-168 | after lower-casing, checked in order: 100 exactly when "good" occurs; 70 exactly when "std" or "standard" occurs without "good"; 40 exactly when "bad" or "poor" occurs without the earlier keywords; 60 exactly when no keyword occurs |
| NewDraft.MixIgnoresCase | borrador_New.py:160 | a lower-cased label scores as the original |
| NewDraft.MixLabels | borrador_New.py:156-166 | "Good" scores 100, "Bad" 40, an unknown label 60 |
| NewDraft.NewCreditScore | borrador_New.py:170-193 | 0 exactly for a count below 2 other than 0 and 1, 100 exactly at 0, and 40 exactly above 4 |
| NewDraft.NewCreditSteps | borrador_New.py:184-191 | the masks read back as their last-match chain |
| NewDraft.NewCreditWholeNumbers | borrador_New.py:187-191 | for whole counts the masks agree with the reference new-credit table |
| NewDraft.NewCreditOffGrid | borrador_New.py:184-191 | -1 and 1.5 inquiries score 0 here but 60 in the reference table |
| NewDraft.RowComponents | borrador_New.py:208-236 | each component is its own column's scorer: payment history from the delay and the number of delayed payments, utilization and history (equal to the reference tables), the mix label, and the inquiries. All five are in [0, 100] |
| NewDraft.ScoreRow | borrador_New.py:238-256 | the weighted columns add up to the base score |
| NewDraft.DefaultRowScore | borrador_New.py:239-256 | with the weights `_init_` sets, each row's score is the reference combiner's and lies in [300, 850] |
| NewDraft.MapRows | borrador_New.py:210-229 | an element-wise evaluation over a column keeps its length and scores each element on its own |
| NewDraft.ScoreBatch | borrador_New.py:195-259 | an `AttributeError` on `weights` exactly when `_init_` was never called; otherwise one scored row per input row, each scored on its own |
| NewDraft.GetScoresArray | borrador_New.py:261-272 | the score column of the batch, one entry per row, failing exactly when the batch does |
| NewDraft.ConstructedModel | borrador_New.py:29-41 | construction leaves the weights unset; an explicit `_init_()` sets them |
| NewDraft.AnalyzeCreditImprovement | borrador_New.py:275-308 | a `KeyError` exactly when a `*_score` key is missing, naming the first missing key in the order the checks read them; otherwise the reference advice for those scores |
| NewDraft.SameAdviceAsReference | borrador_New.py:288-306 | on a scored row the advice equals the reference scorer's advice |
| CreditModelTraditional.HistoryScore | credit_model_traditional.py:31-36 | 20 exactly below 12 months, 100 exactly from 96 |
| CreditModelTraditional.HistoryNonDecreasing | credit_model_traditional.py:31-36 | a longer history never scores worse |
| CreditModelTraditional.DelayScore | credit_model_traditional.py:39-44 | 100 exactly at a delay of at most 0, 10 exactly from 30 days |
| CreditModelTraditional.DelayNonIncreasing | credit_model_traditional.py:39-44 | a longer delay never scores better |
| CreditModelTraditional.InquiriesScore | credit_model_traditional.py:47-52 | 100 exactly at 0 inquiries, 10 exactly above 10 |
| CreditModelTraditional.InquiriesNonIncreasing | credit_model_traditional.py:47-52 | over non-negative counts, more inquiries never score better |
| CreditModelTraditional.DebtScore | credit_model_traditional.py:55-60 | 100 exactly at no debt, 20 exactly from 3000 |
| CreditModelTraditional.DebtNonIncreasing | credit_model_traditional.py:55-60 | over non-negative amounts, more debt never scores better |
| CreditModelTraditional.MixScore | credit_model_traditional.py:63-66 | 30 exactly at 0, 65 exactly at 1, otherwise 100 |
| CreditModelTraditional.MixNonDecreasing | credit_model_traditional.py:63-66 | starting from label 0 or any value of at least 1, a larger mix never scores worse |
| CreditModelTraditional.MixBetweenLabels | credit_model_traditional.py:63-66 | a mix of 0.5 scores 100, above the 65 of label 1 |
| CreditModelTraditional.Subscore | credit_model_traditional.py:31-66 | each sub-score lies between its table's lowest and highest score |
| CreditModelTraditional.ScoreApplicant | credit_model_traditional.py:71-87 | the total lies in [17, 100], the unrounded score in [393.5, 850] and is 850 exactly at a total of 100; the category is 0 exactly up to 590 and 1 exactly above it |
| CreditModelTraditional.TopScore | credit_model_traditional.py:31-80 | 850 exactly when every column is at its table's top row |
| CreditModelTraditional.ScoreMonotone | credit_model_traditional.py:31-87 | improving any column never lowers the score or turns good into bad |
| CreditModelTraditional.CategoryExamples | credit_model_traditional.py:71-87 | a clean record with a short history scores good; the worst row of every table scores 393.5 and bad |
| CreditModelBinary.IncomeScore | credit_model_binary.py:71-76 | 20 exactly below 1000, 100 exactly from 10000 |
| CreditModelBinary.IncomeNonDecreasing | credit_model_binary.py:71-76 | more income never scores worse |
| CreditModelBinary.Subscore | credit_model_binary.py:33-76 | the five shared tables as in the five-column model, and income in [20, 100] |
| CreditModelBinary.ScoreApplicant | credit_model_binary.py:80-97 | the total lies in [18, 100], the unrounded score in [399, 850] and is 850 exactly at a total of 100; the category is 0 exactly up to 580 and 1 exactly above it |
| CreditModelBinary.TopScore | credit_model_binary.py:33-90 | 850 exactly when the five-column model gives 850 and income is at least 10000 |
| CreditModelBinary.ScoreMonotone | credit_model_binary.py:33-97 | improving any column, income included, never lowers the score or turns good into bad |
| CreditModelBinary.ExampleGoodThere | credit_model_traditional.py:71-87 | an eight-year history, ten days late, eight inquiries, 5000 of debt and mix 0 score 599.75 and are good under the five-column model |
| CreditModelBinary.ExampleBadHere | credit_model_binary.py:80-97 | the same columns with no income score 558.5 and are bad under the six-column model |
| CreditModelBinary.ModelsDisagree | credit_model_binary.py:80-97 | the same five columns can be good under the five-column model and bad under the six-column one |
| CreditDecision.Decide | Classes.py:158-179 | approval needs a safe Z-score and a low default probability; a denial is never in the grey zone or the elevated band |
| CreditDecision.DecideIsGrid | Classes.py:172-179 | the chain equals a three-by-three table over the Altman zones and the default-probability bands |
| CreditDecision.DenyExactly | Classes.py:172-179 | denied exactly when a safe company has a default probability above 10%, or a distressed one has a probability of at most 5% or above 10% |
| CreditDecision.GreyAlwaysReviewed | Classes.py:175-176 | every grey-zone company is reviewed, whatever its default probability |
| CreditDecision.LowerPdCanBeWorse | Classes.py:172-179 | a distressed company with a 1% default probability is denied, but at 7% it is reviewed |
| CreditDecision.HigherZCanBeWorse | Classes.py:172-179 | at a 20% default probability a grey-zone company is reviewed, but a safe one is denied |
| CreditDecision.FromLabel | Classes.py:173-179 | a recognised label names a decision whose label it is |
| CreditDecision.LabelRoundTrip | Classes.py:173-179 | each decision is recovered from its label, so the three labels differ |
| CreditDecision.LabelWords | Classes.py:173-179 | the labels start with "Approve", "Needs Further Review" and "Deny" |

## Left out

- Reading CSV files (`cargar_datos_csv`, `clean_data_trad`) and the pandas group-by, mean, round and `first` aggregation that builds the customer averages: this is I/O and library plumbing. The models take the averaged columns as inputs.
- `ASAS.run`: only its scoring loop is modelled (`Asas.Run`), including the `TypeError` that ends it. Grouping by `customer_id`, taking each group's first row and renaming the output columns are left out.
- The `__main__` example blocks, `example_usage` and all printing.
- `ML_Model.py` and the rest of `Classes.py` (`Get_Historical_Data`, `Merton_BS_Model`, `Altman_Zscore`): model training, plotting, network access and floating-point numerics over library functions. `credit_decision` takes the Z-score and the default probability as inputs.
- IEEE-754 rounding: weighted sums are exact reals here, so a Python product that lands just below an integer could truncate differently.
- IEEE-754 thresholds: table thresholds such as 0.30, 0.05 or 2.99 are exact decimals here. Python compares binary doubles, so an input at or near a decimal threshold may fall on the other side.
- NaN and missing values inside numpy and pandas columns. `pd.cut` outside its bins gives `None` here, where pandas gives NaN.
- numpy arrays: the element-wise scorers are scalar functions, and a column is a sequence mapped element by element (`NewDraft.MapRows`).
- `TraditionalDraft.CreditMixScore`: `str(t)` of a non-string list item is not modelled. A list holds strings, and any other input is `Other`.
- `strip()` and `lower()` act on ASCII whitespace and ASCII letters only.
- Non-numeric values in a numeric profile field (a Python `TypeError` on comparison) are not modelled, except the missing `avg_delay` in `ASAS.py`.
- Traditional.PaymentHistoryScore: non-negativity is stated only from -12 months on file. Below that the factor `0.5 + months / 24` is negative, and the source then returns a negative score.
- PaymentHistory.ScoreNonIncreasing, Traditional.PaymentHistoryNonIncreasing, TraditionalDraft.ExtraDelay, Asas.ExtraDelay: monotonicity in the late payments is stated only from -12 months on file. Below that the negative factor reverses the order, so more late payments give a higher (less negative) score.
- TraditionalDraft.CreditMixScore: "a good mix scores at least 88" is stated only for at least two distinct types, because one type can name both kinds.
- NewDraft.ScoreBatch: the [300, 850] range of each row is stated for the weights `_init_` sets (`NewDraft.DefaultRowScore`), not for an arbitrary weight record.
- CreditModelTraditional.InquiriesNonIncreasing: holds only over non-negative counts. A negative count misses `== 0` and scores 90, below the 100 of zero.
- CreditModelTraditional.DebtNonIncreasing: holds only over non-negative amounts, for the same reason.
- CreditModelTraditional.MixNonDecreasing: holds only from label 0 or from values of at least 1. Between 0 and 1 the table gives 100.
- Traditional.NewCreditNonIncreasing: holds only for whole counts. Off the integers the `== 1` and `== 2` rows do not apply.
