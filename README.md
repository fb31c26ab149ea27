# Credit-risk scoring and loan-approval post-processing

This project models the logic in `pages/prediction.py` of the Credit Risk Prediction and Automated Loan Approval dashboard. That logic sits around the two model calls:

- **Encoding.** The risk form becomes a 14-column row. The loan form becomes a 10-column row. "Yes"/"No" flags become 1/0 and the employment status becomes three one-hot columns, in the declared column order (module `Encoding`).
- **Risk score.** The regressor's prediction is clipped to [0, 100]. The score is bucketed Low (< 40), Medium (40 to < 70) or High (≥ 70). The two features with the largest global importance are named in the bucket's sentence (modules `Prediction` and `Narrative`).
- **Approval.** The verdict comes from the predicted label alone. The positive-class SHAP row is picked: the second matrix when the explainer returns one per class. The three features with the largest |SHAP| are named, lower-cased, in the verdict's sentence (modules `Prediction` and `Narrative`).
- **Ranking.** `sort_values(..., ascending=False)` followed by `head(k)` is modelled as a descending ranking of column indices (module `Ranking`). Every property of the chosen drivers is proved from a predicate that leaves the order of ties open. A separate lemma shows that the scores at each position do not depend on that order.

The fitted scaler, `predict`, `predict_proba` and the SHAP explainer are parameters of type `seq<real> -> …`, and `feature_importances_` is a `seq<real>`. Only what the page does with their outputs is modelled. Python's exceptions become `Failure` values. These cover a frame built from columns and values of different lengths, and an index out of range.

Behaviour of the code that the model keeps:
- The code validates no input. The widgets bound the values, and there is no error for a missing, out-of-range or unknown value.
- An employment status outside the three categories gives three zero columns.
- Any flag other than exactly "Yes" encodes as 0, including "yes".
- The risk drivers are ranked by the regressor's global, signed feature importance. The approval drivers are ranked by |SHAP|.
- Rows with equal scores come out in whatever order the sort leaves them.

## Model

| member | source | states |
|---|---|---|
| Encoding.YesNoEncode | pages/prediction.py:30-31 | the flag is 0 or 1, and 1 exactly when the value is the string "Yes" (case-sensitive) |
| Encoding.EmploymentOneHot | pages/prediction.py:54-56 | three 0/1 columns, column k is 1 exactly when the status is the k-th category; a listed status sets exactly one (sum 1), any other string sets none |
| Encoding.OneHotColumnNames | pages/prediction.py:24 | each one-hot column is named `EmploymentStatus_` followed by the status that sets it |
| Encoding.RiskColsDistinct | pages/prediction.py:23-28 | the 14 risk columns are pairwise distinct names |
| Encoding.ApprovalColsDistinct | pages/prediction.py:108-111 | the 10 approval columns are pairwise distinct names |
| Encoding.RiskRecord | pages/prediction.py:58-73 | the dictionary's keys are exactly the risk `cols`, in the same order |
| Encoding.ApprovalRecord | pages/prediction.py:132-143 | the dictionary's keys are exactly the approval `cols`, in the same order |
| Encoding.LookupAt | pages/prediction.py:58-73 | with distinct keys, looking up the key at position i yields the value at position i |
| Encoding.RelabelKeepsValues | pages/prediction.py:75 | relabelling a row with its own keys in order puts every value under its own key |
| Encoding.RiskRow | pages/prediction.py:53-73 | the risk row has one entry per risk column; employment column k is 1 exactly for the k-th status, and the block sums to 1 for a listed status, 0 otherwise; the two history flags are 1 exactly for "Yes", else 0 |
| Encoding.RiskRowAligned | pages/prediction.py:58-75 | after relabelling with `cols`, entry i of the risk row is the value the dictionary holds under `cols[i]` |
| Encoding.ApprovalRow | pages/prediction.py:132-143 | the approval row has one entry per approval column; the risk score is entry 0; the two history flags are 1 exactly for "Yes", else 0 |
| Encoding.ApprovalRowAligned | pages/prediction.py:132-145 | after relabelling with `cols`, entry i of the approval row is the value the dictionary holds under `cols[i]` |
| Ranking.SortDescending | pages/prediction.py:82-85 | the sorted frame lists every row exactly once, in non-increasing score order |
| Ranking.Head | pages/prediction.py:86 | `head(k)` keeps the first k rows, or all when there are fewer |
| Ranking.AbsAll | pages/prediction.py:160 | `key=abs` replaces every score by its absolute value |
| Ranking.TopKOfRanking | pages/prediction.py:85-86 | the first k rows of any descending ranking are distinct, non-increasing, and no row left out scores above the k-th |
| Ranking.RankingScoresUnique | pages/prediction.py:85 | two descending rankings of the same scores agree on the score at every position, whatever order they give ties |
| Prediction.Clip | pages/prediction.py:76 | the clipped value lies in [lo, hi], equals the input when it is in range, lo below it and hi above it |
| Prediction.RiskDrivers | pages/prediction.py:81-86 | two distinct columns in non-increasing importance; every other column's importance is at most the second's |
| Prediction.RiskDriversTieInsensitive | pages/prediction.py:81-86 | any descending sort of the importances puts the same importances in its first two rows as the chosen drivers |
| Prediction.PositiveClassRow | pages/prediction.py:154-159 | for a per-class list, row 0 of the second matrix, failing when there is no second matrix or no row; for a single matrix, its row 0, failing when there is none |
| Prediction.ApprovalDrivers | pages/prediction.py:157-162 | three distinct columns in non-increasing \|SHAP\|; no other column has a larger \|SHAP\| than the third |
| Prediction.ApprovalDriversTieInsensitive | pages/prediction.py:157-162 | any descending sort of the \|SHAP\| values puts the same magnitudes in its first three rows as the chosen drivers |
| Prediction.ScoreRisk | pages/prediction.py:51-95 | fails exactly on a width mismatch of the scaled row or the importances. Otherwise: the score lies in [0,100] and is the raw prediction when that is in range, 0 below and 100 above. The bucket is the score's, and High means 70 ≤ score ≤ 100. The two drivers are distinct. The sentence is the bucket's, naming them |
| Prediction.DecideApproval | pages/prediction.py:130-176 | on success: approved exactly when the label is 1; the probability is the positive class's; three drivers ranked by positive-class \|SHAP\|, the main factor being the first; the three driver names are distinct; the sentence is the verdict's, naming them. On failure, one of the width/index conditions holds |
| Prediction.ApprovalIgnoresProbability | pages/prediction.py:146-149 | two classifiers that agree on the label but not on the probability (each giving both class probabilities) succeed or fail alike, and give the same verdict, verdict line, drivers, main factor and sentence |
| Narrative.BucketOf | pages/prediction.py:88-93 | Low iff score < 40, Medium iff 40 ≤ score < 70, High iff score ≥ 70: exhaustive and disjoint |
| Narrative.Lower | pages/prediction.py:89-93 | lower-casing keeps the length and maps each character to its lower-case form |
| Narrative.LowerIdempotent | pages/prediction.py:89-93 | lower-casing an already lower-cased name changes nothing |
| Narrative.RiskReason | pages/prediction.py:88-93 | the bucket can be read back from the sentence's leading marker, and the sentence names both drivers, lower-cased, in rank order |
| Narrative.ResultText | pages/prediction.py:149 | "Approved" exactly when the label is 1, "Denied" otherwise; the verdict can be read back from the line's leading mark |
| Narrative.ApprovalReason | pages/prediction.py:165-174 | the verdict can be read back from the sentence's opening words, and the sentence names the three drivers, lower-cased, in rank order |

## Left out

- Streamlit presentation is not modelled: tabs, forms, widgets, spinners, `st.info`/`st.metric`/`st.subheader` output and number formatting (`:.2f`, `:.2%`). The widgets' minimum and maximum bounds are enforced by the UI library, so the model accepts any real.
- Output already shown before an error is not kept. The page shows the risk score (pages/prediction.py:78) before the importance frame can raise (82-85), and shows the verdict and probability (150-151) before the SHAP steps can raise (153-160). In both cases `ScoreRisk`/`DecideApproval` return only a `Failure`.
- `joblib.load` of the models and scalers is file I/O over opaque artifacts.
- `scaler.transform`, the regressor's and classifier's `predict`/`predict_proba`, `feature_importances_` and `shap.TreeExplainer` are library numerics. They are parameters, and no property of their values is assumed. In particular, nothing ties the label to the probability and SHAP additivity is not checked, because the code checks neither.
- Floating point is not modelled: scores are `real`, so NaN and infinities do not arise. With NaN the code's comparisons would select the High bucket, and `sort_values` would put NaN rows last.
- Narrative.Lower: only ASCII letters are lower-cased; all column names are ASCII.
- Ranking.SortDescending: it breaks ties by column order. pandas does not promise any tie order, so every driver property is proved from `IsDescendingRanking`, which leaves ties open.
- Prediction.DecideApproval: on failure, its contract says which conditions can cause it, not which error value each one returns.
- The emoji and dash characters of the sentences are written as Unicode escapes; the sentences are otherwise the code's templates.
- `app.py` (navigation and routing) and the static pages `home.py`, `analysis.py`, `loan_approval.py` and `risk_scoring.py` hold no logic.
