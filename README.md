# pj_otaku core in Dafny

This project models two parts of the pj_otaku anime recommender.

1. The content-based recommender `ContentBasedFiltering`, in `Doyoung/cbfilter.py`.
   - It builds a title-by-title similarity table from a table of title features. The metric is cosine similarity, Manhattan distance or Euclidean distance.
   - `check_sanity` lists the titles most similar to one title.
   - `evaluate_rmse` scores a predicted rating for every eligible test review and returns the root mean squared error.
   - `evaluate_precision_recall` recommends, for every test user, the `num_push` nearest titles of each title the user liked. It scores those recommendations against the titles the user liked in the test set.
2. The `process_*` flatteners of the AniList crawler, in `anilist_api_caller.py`. Each one walks a nested GraphQL response and appends one flat row (a dict) per node to lists owned by its caller.

Modules:

| file | module | contents |
|---|---|---|
| `wrappers.dfy` | `Wrappers` | `Option`, and `Result` for raised exceptions |
| `seqs.dfy` | `Seqs` | map, filter, flat-map and set-of-sequence helpers with their algebra |
| `similarity.dfy` | `Similarity` | metric names, the three pairwise metrics, the labelled table, symmetry |
| `ranking.dfy` | `Ranking` | `sort_values` on a table row, and Python's `[1:n+1]` slice |
| `evaluation.dfy` | `Evaluation` | the specification functions of `evaluate_rmse` and `evaluate_precision_recall`, and their lemmas |
| `cbfilter.dfy` | `CbFilter` | the titles table, `create_sim_mat`, `check_sanity`, the imperative loops, and the class `ContentBasedFiltering` |
| `anilist_rows.dfy` | `AniListRows` | response shapes, the row dicts each `process_*` builds, and lemmas about them |
| `anilist_api_caller.dfy` | `AniListApiCaller` | the class `RowList` (a caller-owned Python list) and the `process_*` methods |

How the source maps onto Dafny:

- The recommender object is a `class`. Its fields are the ones its methods assign: `sim_mat`, `titles_df`, `title_romaji_map`, `popular_titles` and `similarity_metric`.
  - `create_sim_mat`, `evaluate_rmse` and `evaluate_precision_recall` are methods. Each is proved equal to a specification function in `Evaluation` or `CbFilter`, and the properties are proved about those functions.
  - `check_sanity` has no loop and changes nothing, so it is a function of the object.
- An exception is an `Err` of `Evaluation.Error`. The order in which the source raises is kept.
- A crawler list is a `RowList` object, appended to in place.
  - `process_title` and `process_users` write to several lists, and the caller could pass one list for two parameters. Each list is therefore bound to the set of parameter roles ("sinks") it was passed as. It receives, in program order, every append addressed to one of those roles.

External inputs become parameters:

- `pd.read_csv` of the titles file becomes the `titlesTable` argument of the constructor.
- `np.sqrt`, and the square root inside scikit-learn's cosine and Euclidean metrics, become a parameter `sqrt: real -> real`.
  - Symmetry and the error behaviour hold for any `sqrt`.
  - `Evaluation.RmseRoot` assumes only that `sqrt` is a square root.
- The HTTP responses the crawler flattens are datatype values mirroring the GraphQL query shapes.

## Model

A row whose third column begins with "definition of" names a specification function; the members it lists state its properties.

| member | source | states |
|---|---|---|
| CbFilter.ContentBasedFiltering.constructor | Doyoung/cbfilter.py:9-14 | no table and no metric yet; the name map and the popular list are those of the given titles table (`Valid`) |
| CbFilter.Popular | Doyoung/cbfilter.py:13 | definition of `popular_titles`: the ids of the rows with popularity above 10000, in table order; its properties are `CbFilter.PopularIff` |
| CbFilter.RomajiMap | Doyoung/cbfilter.py:12 | definition of `title_romaji_map`, a later row of a repeated id overwriting an earlier one; its properties are `CbFilter.RomajiMapLookup` |
| CbFilter.PopularIff | Doyoung/cbfilter.py:13 | an id is popular iff some title row with that id has popularity above 10000; there are never more popular ids than rows |
| CbFilter.RomajiMapLookup | Doyoung/cbfilter.py:12 | the name map is keyed by exactly the ids of the titles table; a repeated id maps to the romaji of its last row |
| CbFilter.ContentBasedFiltering.CreateSimMat | Doyoung/cbfilter.py:31-42 | an unknown method name raises and an empty feature table raises, both with nothing assigned; otherwise the metric and a square table of exactly the feature rows whose id is a known title are stored together, and `Valid` is kept |
| CbFilter.KnownRows | Doyoung/cbfilter.py:31 | definition of the `isin` filter on the feature frame; its properties are `CbFilter.KnownRowsIff` |
| CbFilter.KnownRowsIff | Doyoung/cbfilter.py:31 | a feature row is kept iff its id is a title id, with its multiplicity unchanged |
| CbFilter.TableOf | Doyoung/cbfilter.py:42 | the stored table is square and labelled on both axes with the kept rows' ids, in row order |
| Similarity.ParseMetric | Doyoung/cbfilter.py:32-39 | exactly the three method names are accepted, each naming its metric; any other string is refused |
| Similarity.ParseMetricName | Doyoung/cbfilter.py:32-37 | each metric's name selects that metric |
| Similarity.SafeNorm | Doyoung/cbfilter.py:33 | the norm cosine similarity divides by is never zero: a non-zero Euclidean norm is kept and a zero one is replaced by 1 |
| Similarity.Build | Doyoung/cbfilter.py:33-37 | the table is square, labelled with the ids, and entry (i, j) is the metric applied to feature rows i and j |
| Similarity.Kernel | Doyoung/cbfilter.py:33-37 | definition of entry (i, j) under each metric, with sklearn's zero-norm and zero-diagonal conventions; its properties are `Similarity.KernelSymmetric`, `CosineDiagonal`, `EuclideanNonNegative` and `BuildShape` |
| Similarity.KernelSymmetric | Doyoung/cbfilter.py:33-37 | every metric gives the same value for (i, j) and (j, i), whatever the square root |
| Similarity.L1 | Doyoung/cbfilter.py:35 | definition of the Manhattan distance of two rows; its properties are `Similarity.L1Distance` |
| Similarity.L1Distance | Doyoung/cbfilter.py:35 | Manhattan distance is never negative and is zero between a row and itself |
| Similarity.BuildShape | Doyoung/cbfilter.py:33-37 | the stored table is symmetric; both distance tables have a zero diagonal; the Manhattan table has no negative entry |
| Similarity.CosineDiagonal | Doyoung/cbfilter.py:33 | with a square root that is genuine at the row's squared norm, the cosine diagonal is 1 for a non-zero row and 0 for an all-zero row |
| Similarity.EuclideanNonNegative | Doyoung/cbfilter.py:37 | a Euclidean entry is never negative when the square root is not |
| Similarity.IndexOf | Doyoung/cbfilter.py:67 | `.loc` finds the first position holding the label, and fails exactly when the label is absent |
| CbFilter.ContentBasedFiltering.CheckSanity | Doyoung/cbfilter.py:58-71 | raises NoMatrix iff no table was created; for `max_num >= 0` returns at most `max_num` titles; with `only_popular`, every returned title is a title of the table with popularity above 10000, under its id or, with `in_romaji`, under its romaji name (never NaN) |
| CbFilter.SimilarTitles | Doyoung/cbfilter.py:58-70 | definition of check_sanity on the object's fields, erring in the source's order; its properties are `CbFilter.SimilarTitlesErrors`, `SimilarTitlesOk`, `SimilarTitlesRanked`, `SimilarTitlesOrdered` and `SimilarTitlesPopular` |
| CbFilter.SimilarTitlesOk | Doyoung/cbfilter.py:58-69 | an answer means every popular id is a column and the query id a row; its header is the query's id or romaji name, and its entries are the labelled ranking of the query row over the queried columns |
| CbFilter.SimilarTitlesErrors | Doyoung/cbfilter.py:58-70 | the error conditions in raising order: no table; a popular id that is not a column; a query id that is not a row; a query id with no romaji name; with a table, every error is a KeyError |
| CbFilter.QueryColumns | Doyoung/cbfilter.py:58-60 | definition of the columns ranked: the popular titles with `only_popular`, otherwise every column; its properties are `CbFilter.SimilarTitlesOk`, `SimilarTitlesRanked` and `SimilarTitlesPopular` |
| CbFilter.FirstMissing | Doyoung/cbfilter.py:60 | no id is reported iff every popular id is a column; a reported id is popular and not a column |
| CbFilter.ColumnCells | Doyoung/cbfilter.py:60-67 | the query row restricted to the chosen columns, in column order, each entry the table value at (title, column) |
| CbFilter.Relabel | Doyoung/cbfilter.py:69 | definition of `index.map(title_romaji_map)` on one entry, NaN for an id with no name; its properties are `CbFilter.LabelCell` and `LabelledTitles` |
| CbFilter.LabelCell | Doyoung/cbfilter.py:69 | relabelling an entry by romaji keeps its value |
| CbFilter.RankedOrder | Doyoung/cbfilter.py:67 | the returned values are in the sort direction |
| CbFilter.LabelledTitles | Doyoung/cbfilter.py:67-69 | every returned label belongs to a queried column: its id, or with `in_romaji` its romaji name, and NaN only when that column has no name |
| CbFilter.SimilarTitlesRanked | Doyoung/cbfilter.py:67-69 | for `max_num >= 0`, the result has min(`max_num`, columns - 1) entries, and those entries are sorted positions 1 to that count of the query row, relabelled; an empty row gives an empty result |
| CbFilter.SimilarTitlesOrdered | Doyoung/cbfilter.py:62-67 | a cosine table lists values in descending order, a distance table in ascending order |
| CbFilter.SimilarTitlesPopular | Doyoung/cbfilter.py:59-69 | with `only_popular`, every returned title is a table title with popularity above 10000, given by its id or, with `in_romaji`, by its romaji name; since every popular id has a name, NaN never appears |
| Ranking.Sort | Doyoung/cbfilter.py:67 | `sort_values` returns the row's entries in order of value, as a permutation of the row |
| Ranking.Insert | Doyoung/cbfilter.py:67 | inserting into a sorted row keeps it sorted and adds exactly that entry |
| Ranking.ConsOrdered | Doyoung/cbfilter.py:67 | a sorted row stays sorted under a first entry that may precede each of its entries |
| Ranking.Clamp | Doyoung/cbfilter.py:67 | Python's normalised slice bound: an in-range bound is kept, a negative one counts from the end, and one beyond either end is cut to that end |
| Ranking.PySlice | Doyoung/cbfilter.py:67 | a Python slice is never longer than the sequence, is `s[start..stop]` for in-range bounds, and otherwise reads the sequence from the normalised start on |
| Ranking.Rank | Doyoung/cbfilter.py:67 | definition of `sort_values(...)[1:max_num + 1]`; its properties are `Ranking.RankPositions`, `RankSlice` and `RankFromRow` |
| Ranking.RankPositions | Doyoung/cbfilter.py:67 | `[1:n+1]` of the sorted row has min(n, length - 1) entries, entry k being sorted position k + 1 |
| Ranking.RankSlice | Doyoung/cbfilter.py:67 | the query result is a run of the sorted row that starts right after position 0 |
| Ranking.RankFromRow | Doyoung/cbfilter.py:67 | the query's entries are a sub-multiset of the row, in sorted order |
| CbFilter.ContentBasedFiltering.EvaluateRmse | Doyoung/cbfilter.py:89-117 | the loop over test users builds `test_result` user by user; the outcome equals `Evaluation.Rmse` of the object's table and metric |
| Evaluation.Rmse | Doyoung/cbfilter.py:89-117 | definition of evaluate_rmse with its errors; its properties are `Evaluation.RmseErrors`, `RmseRoot`, `RmseRowsAreEligible` and `RmseRowsPredicted` |
| Evaluation.Mse | Doyoung/cbfilter.py:114 | definition of mean_squared_error with its refusals; its properties are `Evaluation.MseOutcome` |
| Evaluation.TestUsers | Doyoung/cbfilter.py:100 | definition of `test_mod.user_id.unique()`, in first-appearance order and without repeats, by the ensures of `Seqs.Unique`; used by `Evaluation.TestResultPermutation` and `PrecisionRecallBounds` |
| Evaluation.TestResult | Doyoung/cbfilter.py:100-113 | definition of `test_result` after the user loop; its properties are `Evaluation.TestResultCount`, `TestResultPermutation` and `TestResultPredictions` |
| Evaluation.HasReviewColumns | Doyoung/cbfilter.py:92-96 | definition of the column selection that must not raise; its properties are `Evaluation.RmseErrors` |
| Evaluation.RmseRows | Doyoung/cbfilter.py:98-113 | definition of `test_result` from the two frames; its properties are `Evaluation.RmseRowsAreEligible` and `RmseRowsPredicted` |
| Evaluation.RmseOf | Doyoung/cbfilter.py:114-117 | definition of the mean squared error's root, returned with `test_result`; its properties are `Evaluation.RmseRoot` |
| Evaluation.RmseErrors | Doyoung/cbfilter.py:89-114 | the errors of evaluate_rmse in raising order (not cosine, then a missing column, then no table, then no eligible test row), each an iff; on success the rows returned are `test_result` |
| Evaluation.RmseRoot | Doyoung/cbfilter.py:114-117 | with a genuine square root, the rmse is defined iff the MSE is, is non-negative, and squares to the MSE of the returned rows |
| Evaluation.MseOutcome | Doyoung/cbfilter.py:114 | mean_squared_error raises on zero rows and on an infinite prediction (each an iff), is otherwise non-negative, and is 0 when every prediction is exact |
| Evaluation.SquaredErrorsBounds | Doyoung/cbfilter.py:114 | the sum of squared errors is non-negative, and zero when every prediction is exact |
| Evaluation.InTable | Doyoung/cbfilter.py:98 | definition of the training rows on titles of the table; its properties are `Evaluation.EligibleIff` |
| Evaluation.Eligible | Doyoung/cbfilter.py:99 | definition of `test_mod`; its properties are `Evaluation.EligibleIff` |
| Evaluation.EligibleIff | Doyoung/cbfilter.py:98-99 | a test row is evaluated iff its user has a training row on a known title and its own title is known |
| Evaluation.FillNa | Doyoung/cbfilter.py:113 | fillna(0) removes NaN and leaves every other value alone |
| Evaluation.PredictionDict | Doyoung/cbfilter.py:104-108 | definition of `score_prediction_dict`: each table id mapped to its prediction; its properties are `Evaluation.TestResultPredictions` |
| Evaluation.UserResult | Doyoung/cbfilter.py:109-113 | definition of `temp_df` for one user; its properties are `Evaluation.UserResultRows` |
| Evaluation.UserResultRows | Doyoung/cbfilter.py:109-113 | a user's block keeps the user's test rows in order, each predicted by its title's entry of the prediction dict |
| Evaluation.TestResultCount | Doyoung/cbfilter.py:100-113 | for distinct users, each test row of a listed user occurs in `test_result` exactly as often as in the test rows |
| Evaluation.TestResultPermutation | Doyoung/cbfilter.py:100-113 | looping over the unique test users puts every test row into `test_result` exactly once |
| Evaluation.TestResultPredictions | Doyoung/cbfilter.py:104-113 | every `test_result` row carries the NaN-filled weighted prediction of its own user and title |
| Evaluation.RmseRowsAreEligible | Doyoung/cbfilter.py:98-113 | the rows scored are exactly the eligible test rows, as a multiset |
| Evaluation.RmseRowsPredicted | Doyoung/cbfilter.py:104-113 | every scored row's prediction is the weighted prediction for its user and title |
| Evaluation.Predict | Doyoung/cbfilter.py:104-107 | definition of one entry of `score_prediction`; its properties are `Evaluation.PredictZeroWeight`, `WeightedMean` and `PredictInRange` |
| Evaluation.SimColumn | Doyoung/cbfilter.py:104 | definition of `user_title_sim`'s column for the target title; its properties are `Evaluation.SimColumnEntries` |
| Evaluation.Total | Doyoung/cbfilter.py:106 | definition of `weight_sum`'s entry, the sum of the column; its properties are `Evaluation.WeightedSumBounds` and `PredictZeroWeight` |
| Evaluation.SimColumnEntries | Doyoung/cbfilter.py:104 | the weight column holds the similarity of each of the user's training titles to the target title |
| Evaluation.DivZero | Doyoung/cbfilter.py:107 | numpy division is finite iff the divisor is non-zero, and becomes 0 after fillna iff the numerator is 0 |
| Evaluation.PredictZeroWeight | Doyoung/cbfilter.py:106-113 | with zero total weight the prediction is not finite, and becomes 0 after fillna exactly when the weighted sum is 0 |
| Evaluation.WeightedStep | Doyoung/cbfilter.py:106-107 | adding one non-negative weight and an in-range score keeps the weighted sum between lo and hi times the total weight |
| Evaluation.WeightedSumBounds | Doyoung/cbfilter.py:106-107 | with non-negative weights and scores in [lo, hi], the weighted sum lies between lo and hi times the total weight |
| Evaluation.QuotientBounds | Doyoung/cbfilter.py:107 | such a sum divided by a positive total weight lies in [lo, hi] |
| Evaluation.WeightedMean | Doyoung/cbfilter.py:106-107 | a weighted mean with non-negative weights and a non-zero total lies within the range of the scores |
| Evaluation.PredictInRange | Doyoung/cbfilter.py:104-107 | with non-negative similarities and a non-zero weight sum, a prediction is finite and within the range of the user's training scores |
| CbFilter.ContentBasedFiltering.EvaluatePrecisionRecall | Doyoung/cbfilter.py:135-164 | checks columns and the table in the source's order, loops over test users, and equals `Evaluation.PrecisionRecall` of the object's table and metric |
| Evaluation.PrecisionRecall | Doyoung/cbfilter.py:135-164 | definition of evaluate_precision_recall with its errors; its properties are `Evaluation.PrecisionRecallErrors` and `PrecisionRecallBounds` |
| Evaluation.PrDicts | Doyoung/cbfilter.py:135-160 | definition of the two dicts after the loop; its properties are `Evaluation.PrecisionsFacts`, `RecallsFacts` and `RecallUsersHavePrecision` |
| Evaluation.PrecisionRecallErrors | Doyoung/cbfilter.py:135-158 | NoMatrix iff the train frame has `title_id` and there is no table; otherwise only a missing column raises, and a missing score column only when there is a test user; on success the dicts are the loop's |
| Evaluation.PrecisionRecallBounds | Doyoung/cbfilter.py:137-164 | every precision and recall is in [0, 1]; each average is absent iff its dict is empty and otherwise lies in [0, 1]; each dict has distinct user keys, all of them test users, and every user with a recall has a precision |
| CbFilter.EvaluateUsers | Doyoung/cbfilter.py:147-160 | the loop over test users yields exactly the precision and recall dicts of the specification |
| CbFilter.EvaluateUser | Doyoung/cbfilter.py:148-160 | one user's iteration adds that user's precision entry and recall entry, computed from the pushed titles minus the user's seeds |
| CbFilter.PushedTitles | Doyoung/cbfilter.py:150-152 | the inner loop builds `rec_title`: each seed's ranked neighbours, concatenated in seed order |
| CbFilter.RecordScores | Doyoung/cbfilter.py:156-160 | the `try` block adds a precision entry iff something was recommended, and a recall entry iff the user also liked a test title |
| Evaluation.RowCells | Doyoung/cbfilter.py:152 | `.loc[title]` has one entry per column, labelled with the columns in order, each the value in the first row labelled `title` |
| Evaluation.Ascending | Doyoung/cbfilter.py:62-65 | definition of the sort direction, descending only for cosine similarity (also lines 142-145); its properties are `CbFilter.SimilarTitlesOrdered` |
| Evaluation.Neighbours | Doyoung/cbfilter.py:152 | definition of one seed's `[1:num_push + 1]` neighbours; its properties are `Evaluation.NeighboursShape` |
| Evaluation.RecList | Doyoung/cbfilter.py:150-152 | definition of `rec_title` before the set difference; its properties are `Evaluation.RecListMembership` and `CbFilter.PushedTitles` |
| Evaluation.NeighboursShape | Doyoung/cbfilter.py:152 | a seed pushes min(`num_push`, titles - 1) titles, never more than `num_push`, all from the table |
| Evaluation.RecListMembership | Doyoung/cbfilter.py:150-152 | a title is in `rec_title` iff it is a ranked neighbour of some seed |
| Evaluation.Recommended | Doyoung/cbfilter.py:150-154 | definition of `rec_title` after the set difference; its properties are `Evaluation.RecommendedIff` and `RecListMembership` |
| Evaluation.RecommendedIff | Doyoung/cbfilter.py:148-154 | a title is recommended iff it is a neighbour of some seed and not itself a seed; recommended titles are in the table |
| Evaluation.Seeds | Doyoung/cbfilter.py:148 | definition of `user_title_sim.index`; its properties are `Evaluation.SeedsInTable` |
| Evaluation.SeedsInTable | Doyoung/cbfilter.py:135-148 | every seed title of a user is a row of the table |
| Evaluation.Liked | Doyoung/cbfilter.py:155 | definition of `user_test_titles`, keeping repeats; used by `Evaluation.ScoreFacts` |
| Evaluation.Score | Doyoung/cbfilter.py:156-160 | definition of the `try` block's outcome; its properties are `Evaluation.ScoreFacts` and `Ratio` |
| Evaluation.UserEval | Doyoung/cbfilter.py:148-160 | definition of one user's iteration; its properties are `Evaluation.UserEvalInUnit`, `PrecisionEntry` and `RecallEntry` |
| Evaluation.ScoreFacts | Doyoung/cbfilter.py:156-160 | nothing scored iff nothing recommended; precision only iff no liked test title; both in [0, 1]; precision 1 iff every recommendation was liked; recall 1 iff every liked title was recommended and the liked list has no repeat |
| Evaluation.Ratio | Doyoung/cbfilter.py:157-158 | a hit count over a larger non-zero count lies in [0, 1], and is 1 iff the counts are equal |
| Evaluation.UserEvalInUnit | Doyoung/cbfilter.py:156-160 | a user's precision and recall, when present, lie in [0, 1] |
| Evaluation.PrecisionEntry | Doyoung/cbfilter.py:157 | the precision dict gains the user iff something was recommended, with the user's precision |
| Evaluation.RecallEntry | Doyoung/cbfilter.py:158 | the recall dict gains the user iff the user also has a liked test title, with the user's recall |
| Evaluation.DictionariesStep | Doyoung/cbfilter.py:147-160 | one more user extends both dicts by exactly that user's entries |
| Evaluation.Precisions | Doyoung/cbfilter.py:147-157 | definition of the precision dict after the users in turn; its properties are `Evaluation.PrecisionsFacts` and `DictionariesStep` |
| Evaluation.Recalls | Doyoung/cbfilter.py:147-158 | definition of the recall dict after the users in turn; its properties are `Evaluation.RecallsFacts` and `DictionariesStep` |
| Evaluation.PrecisionsFacts | Doyoung/cbfilter.py:147-160 | the precision dict holds values in [0, 1], has distinct keys when the users are distinct (as `unique()` makes them), and has a user iff the user is a test user to whom something was recommended |
| Evaluation.RecallsFacts | Doyoung/cbfilter.py:147-160 | the recall dict holds values in [0, 1], has distinct keys when the users are distinct, and has a user iff the user is a test user who was recommended something and liked a test title |
| Evaluation.RecallUsersHavePrecision | Doyoung/cbfilter.py:157-158 | every user with a recall also has a precision |
| Evaluation.SumBounds | Doyoung/cbfilter.py:162-163 | a sum of values in [0, 1] lies between 0 and the number of values |
| Evaluation.MeanBounds | Doyoung/cbfilter.py:162-163 | the mean of values in [0, 1] is absent iff there are none, and otherwise lies in [0, 1] |
| AniListApiCaller.RowList.Append | anilist_api_caller.py:215 | `list.append` adds the row at the end and changes nothing else |
| AniListApiCaller.ProcessReviews | anilist_api_caller.py:191-215 | the list gains one review row per edge, in edge order, after its earlier rows |
| AniListRows.ReviewRow | anilist_api_caller.py:200-214 | definition of `dict_r`; its properties are `AniListRows.ReviewRowsShape` |
| AniListRows.ReviewRows | anilist_api_caller.py:198-215 | definition of the rows process_reviews appends, one `ReviewRow` per edge; its properties are `AniListRows.ReviewRowsShape` |
| AniListRows.ReviewRowsShape | anilist_api_caller.py:198-215 | one row per edge; row i carries its review id and title id; its user_id is "Unknown" exactly when the review has no user |
| AniListApiCaller.ProcessTags | anilist_api_caller.py:218-237 | the list gains one tag row per tag, in order |
| AniListApiCaller.ProcessStudios | anilist_api_caller.py:240-256 | the list gains one studio row per studio node, in order |
| AniListApiCaller.ProcessStaff | anilist_api_caller.py:259-276 | the list gains one staff row per staff node, in order |
| AniListRows.TagRow | anilist_api_caller.py:228-236 | definition of `dict_tags`; its properties are `AniListRows.ChildRowsShape` |
| AniListRows.StudioRow | anilist_api_caller.py:250-255 | definition of `dict_sd`; its properties are `AniListRows.ChildRowsShape` |
| AniListRows.StaffRow | anilist_api_caller.py:269-275 | definition of `dict_st`; its properties are `AniListRows.ChildRowsShape` |
| AniListRows.TagRows | anilist_api_caller.py:227-237 | definition of the rows process_tags appends; its properties are `AniListRows.ChildRowsShape` |
| AniListRows.StudioRows | anilist_api_caller.py:249-256 | definition of the rows process_studios appends; its properties are `AniListRows.ChildRowsShape` |
| AniListRows.StaffRows | anilist_api_caller.py:268-276 | definition of the rows process_staff appends; its properties are `AniListRows.ChildRowsShape` |
| AniListRows.ChildRowsShape | anilist_api_caller.py:227-276 | for any given title id and title, tags, studios and staff each give one row per element, and each row carries that title id, the romaji title and its element's id |
| AniListApiCaller.PutScores | anilist_api_caller.py:308-310 | the loop leaves the dict the score_<score> assignments produce, in distribution order |
| AniListApiCaller.PutStatuses | anilist_api_caller.py:311-313 | the loop leaves the dict the count_<status> assignments produce, in order |
| AniListApiCaller.PutRankings | anilist_api_caller.py:314-316 | the loop leaves the dict the ranking_<type> assignments produce, in order |
| AniListRows.Put | anilist_api_caller.py:308-316 | definition of a run of dict assignments in order; its properties are `AniListRows.PutEachStep`, `PutSnoc` and `PutLookup` |
| AniListRows.ScoreKey | anilist_api_caller.py:310 | definition of `"score_%s" % score`; its properties are `AniListRows.ScoreKeyInjective`, `GeneratedKeysStart` and `TitleRowScore` |
| AniListRows.StatusKey | anilist_api_caller.py:313 | definition of `"count_%s" % status`; its properties are `AniListRows.GeneratedKeysStart` |
| AniListRows.RankingKey | anilist_api_caller.py:316 | definition of `"ranking_%s" % rank_type`; its properties are `AniListRows.GeneratedKeysStart` |
| AniListRows.PutEachStep | anilist_api_caller.py:308-316 | one more loop step makes exactly one more assignment |
| AniListRows.PutSnoc | anilist_api_caller.py:308-316 | one more assignment after a run of assignments |
| AniListRows.PutLookup | anilist_api_caller.py:308-316 | after a run of assignments a key is present iff it was before or some field set it; the last field to set it wins |
| AniListRows.NatToString | anilist_api_caller.py:310 | definition of the decimal `%s` of a natural; its properties are `AniListRows.NatToStringDigits`, `NatToStringLength` and `NatToStringInjective` |
| AniListRows.IntToString | anilist_api_caller.py:310 | definition of the `%s` of an int, a '-' before a negative one; its properties are `AniListRows.IntToStringSign` and `IntToStringInjective` |
| AniListRows.NatToStringDigits | anilist_api_caller.py:310 | the decimal form of a natural has only digits |
| AniListRows.NatToStringLength | anilist_api_caller.py:310 | a natural's decimal form has one character iff the natural is below 10 |
| AniListRows.NatToStringInjective | anilist_api_caller.py:310 | two naturals with the same decimal form are equal |
| AniListRows.IntToStringSign | anilist_api_caller.py:310 | `str` of an int starts with '-' iff the int is negative |
| AniListRows.IntToStringInjective | anilist_api_caller.py:310 | `str` of an int is one-to-one |
| AniListRows.ScoreKeyInjective | anilist_api_caller.py:310 | distinct scores fill distinct score_<score> columns |
| AniListRows.GeneratedKeysStart | anilist_api_caller.py:308-316 | the three loops' column names start with 's', 'c' and 'r' |
| AniListRows.KeyOfRun | anilist_api_caller.py:308-316 | a key a run sets starts with the run's common first character |
| AniListRows.TitleBase | anilist_api_caller.py:291-307 | definition of `dict_t`'s fixed columns, set before the loops; its properties are `AniListRows.FinishedRunsLookup` and `TitleRowColumns` |
| AniListRows.FinishedRunsLookup | anilist_api_caller.py:308-318 | score, status and ranking columns survive the later assignments, and title_id survives all of them |
| AniListRows.TitleRow | anilist_api_caller.py:291-318 | definition of `dict_t`; its properties are `AniListRows.TitleRowColumns`, `TitleRowScore` and `AniListApiCaller.TitleDict` |
| AniListRows.TitleRowColumns | anilist_api_caller.py:292-318 | a title row's title_id is the media id; each score_, count_ and ranking_ column holds the amount or rank of the last entry with that label |
| AniListRows.TitleRowScore | anilist_api_caller.py:308-310 | for a score in the distribution, the score_<score> column holds the amount of the last entry with that score, since distinct scores give distinct column names |
| AniListApiCaller.TitleDict | anilist_api_caller.py:291-318 | the dict built for one media element is its title row |
| AniListApiCaller.TitleSinksOf | anilist_api_caller.py:279 | a list is bound to a parameter role of process_title iff it is the object passed for that role |
| AniListApiCaller.ProcessMedia | anilist_api_caller.py:291-323 | for one media element, every list (however aliased) gains that element's reviews, tags, studios, staff and title row addressed to its roles, in that order |
| AniListApiCaller.ProcessTitle | anilist_api_caller.py:279-323 | every list gains, element after element, the rows addressed to its roles |
| AniListRows.MediaRouted | anilist_api_caller.py:319-323 | definition of the rows one media element sends to a list bound to given roles; its properties are `AniListRows.MediaListStep`, `MediaRoutedReviewsOnly`, `MediaRoutedTitleLast` and `MediaRoutedAll` |
| AniListRows.TitleRouted | anilist_api_caller.py:290-323 | definition of the rows process_title sends to such a list; its properties are `AniListRows.TitleRoutedStep`, `TitleRoutedAppend`, `TitleRoutedTitles` and `TitleRoutedReviews` |
| AniListRows.GuardedAppend | anilist_api_caller.py:319-323 | an append made or skipped adds the block or nothing |
| AniListRows.MediaListStep | anilist_api_caller.py:319-323 | the five aliased appends of one element add exactly its routed rows |
| AniListRows.AppendsInTurn | anilist_api_caller.py:319-323 | five appends in turn add their concatenation |
| AniListRows.TitleRoutedStep | anilist_api_caller.py:290-323 | one more media element extends each list by that element's routed rows |
| AniListRows.TitleRoutedAppend | anilist_api_caller.py:290-323 | processing a concatenation is processing each part in turn |
| AniListRows.TitleRoutedTitles | anilist_api_caller.py:290-323 | an unaliased titles list gains exactly one title row per media element, in order |
| AniListRows.MediaRoutedReviewsOnly | anilist_api_caller.py:319 | an unaliased reviews list gains exactly a media element's review rows |
| AniListRows.TitleRoutedReviews | anilist_api_caller.py:290-323 | an unaliased reviews list gains every element's reviews in turn |
| AniListRows.MediaRoutedTitleLast | anilist_api_caller.py:319-323 | however aliased, the title row is the last row a titles list gains for an element, and the only one when unaliased |
| AniListRows.MediaRoutedAll | anilist_api_caller.py:319-323 | a list passed for all five roles gains reviews, tags, studios, staff, then the title row |
| AniListApiCaller.AppendFavorites | anilist_api_caller.py:335-342 | one favourites loop appends one row per node, in order |
| AniListApiCaller.ProcessFavorites | anilist_api_caller.py:326-351 | the list gains the anime favourites' rows, then the manga favourites' rows |
| AniListRows.FavoriteRow | anilist_api_caller.py:336-341 | definition of `dict_f`; its properties are `AniListRows.FavoriteRowsShape` and `FavoriteNodeRowsUser` |
| AniListRows.FavoriteNodeRows | anilist_api_caller.py:335-342 | definition of the rows one favourites loop appends; its properties are `AniListRows.FavoriteNodeRowsUser` |
| AniListRows.FavoriteRows | anilist_api_caller.py:334-351 | definition of the rows process_favorites appends, anime then manga; its properties are `AniListRows.FavoriteRowsShape` |
| AniListRows.FavoriteRowsShape | anilist_api_caller.py:334-351 | len(anime) + len(manga) rows, anime first and position by position, each carrying the user id |
| AniListRows.FavoriteNodeRowsUser | anilist_api_caller.py:337 | every favourite row of one list carries the user id |
| AniListApiCaller.UserSinksOf | anilist_api_caller.py:354 | a list is bound to the users or favourites role iff it is the object passed for that role |
| AniListApiCaller.ProcessUsers | anilist_api_caller.py:354-368 | every list (however aliased) gains, user after user, that user's favourite rows and then its user row, for the roles it is bound to |
| AniListRows.UserRow | anilist_api_caller.py:363-366 | definition of `dict_u`; its properties are `AniListRows.UsersRoutedUsers` |
| AniListRows.UserRouted | anilist_api_caller.py:367-368 | definition of the rows one user sends to a list bound to given roles; its properties are `AniListRows.UserListStep` |
| AniListRows.UsersRouted | anilist_api_caller.py:362-368 | definition of the rows process_users sends to such a list; its properties are `AniListRows.UsersRoutedStep`, `UsersRoutedUsers` and `UsersRoutedFavorites` |
| AniListRows.UserListStep | anilist_api_caller.py:367-368 | one user's two appends add exactly its routed rows |
| AniListRows.UsersRoutedStep | anilist_api_caller.py:362-368 | one more user extends each list by that user's routed rows |
| AniListRows.UsersRoutedUsers | anilist_api_caller.py:362-368 | an unaliased users list gains exactly one row per user, in order |
| AniListRows.UsersRoutedFavorites | anilist_api_caller.py:362-368 | an unaliased favourites list gains every user's favourites in turn |
| AniListApiCaller.ProcessLists | anilist_api_caller.py:371-380 | the list gains one row per entry of every list, in nested order |
| AniListRows.ListRow | anilist_api_caller.py:374-379 | definition of `dict_l`; `AniListRows.ListRowsShape` states its list_id, user_id and title_id within each block |
| AniListRows.ListBlock | anilist_api_caller.py:373-380 | definition of one list's rows, one `ListRow` per entry; its properties are `AniListRows.ListRowsShape` |
| AniListRows.ListRows | anilist_api_caller.py:372-380 | definition of the rows process_lists appends, the blocks in list order; its properties are `AniListRows.ListRowsShape` |
| AniListRows.ListRowsShape | anilist_api_caller.py:371-380 | list i's entries form one contiguous block between the blocks of the lists before and after it, each row carrying its entry's list_id, user_id and title_id; the total is the sum of the entry counts |
| AniListApiCaller.ProcessCharacters | anilist_api_caller.py:383-393 | the list gains one row per character of every media element, in nested order |
| AniListRows.CharacterRow | anilist_api_caller.py:386-392 | definition of `dict_ch`; `AniListRows.CharacterRowsShape` states its title_id and character_id within each block |
| AniListRows.CharacterBlock | anilist_api_caller.py:385-393 | definition of one media element's rows, one `CharacterRow` per node; its properties are `AniListRows.CharacterRowsShape` |
| AniListRows.CharacterRows | anilist_api_caller.py:384-393 | definition of the rows process_characters appends, the blocks in media order; its properties are `AniListRows.CharacterRowsShape` |
| AniListRows.CharacterRowsShape | anilist_api_caller.py:383-393 | media element i gives one contiguous block with one row per character node, each row carrying element i's id as title_id |

## Left out

- File and network I/O: in `__init__` the titles CSV is a constructor argument; the crawler's HTTP loop, its GraphQL query strings, the `sleep` pacing and `data_to_csv` are not part of this model. `tqdm` progress bars are not part of it either.
- Floating point: values are exact reals.
  - `np.sqrt` and the square roots inside scikit-learn are the parameter `sqrt`.
  - Rounding, and the floating-point order of summation, are not modelled.
  - Division follows numpy for a zero divisor: infinity when the numerator is non-zero, NaN when it is 0.
- Data frames are modelled only through the columns the core reads.
  - A review frame is its column names and rows of (`user_id`, `title_id`, `score`).
  - A feature frame is rows of an id and a feature vector.
  - Each frame is assumed rectangular, which a data frame always is.
  - Other columns, dtypes, and index objects are not modelled.
- CbFilter.ContentBasedFiltering.CheckSanity: when a popular id is missing from the table, the KeyError reports the first missing id; pandas reports all of them in one message. A returned ranking is a `SimRank` value holding its header label and its entries, not a DataFrame.
- Evaluation.RmseErrors: pandas' KeyError for a missing column inside the `try` becomes the one `MissingColumns` error, as the source re-raises it as a single ValueError. The precision/recall errors use the same kind for a missing column.
- Ranking.Sort: the order among equal values is insertion order. pandas' default quicksort does not fix an order for equal values. When two columns tie for the last place kept, the model may keep a different title than pandas would. The length and sortedness properties hold for any tie order.
- CbFilter.KnownRowsIff: feature rows with a repeated id are kept, as in the source. The table then has a repeated label, and `.loc` of that label is read at its first occurrence (`Similarity.IndexOf`); pandas would return several rows.
- Evaluation.TestResultPermutation: `test_result` rows are ordered by user, in the order users first appear; pandas' `unique` gives that same order. The concatenation's index and the `fillna(0)` of columns other than the prediction are not modelled.
- The order of a Python dict or set is not modelled. Recommended titles are a set and the precision/recall dicts are sequences of (user, value) in user order; `pd.Series(precision)` keeps that order. Which seed a title is first pushed by does not change the set.
- Default arguments are not modelled as defaults: `method='cosine_similarity'`, `max_num=20`, `in_romaji=True`, `only_popular=True`, `relevant_threshold=70` and `num_push=10` are explicit parameters, so a caller passes them; `relevant_threshold` is a real, which compares with the scores as the integer would.
- User ids in the recommender are integers.
- The crawler's response objects are assumed to have the fields the queries ask for. A missing field raises a KeyError in Python; that is not modelled.
- Concurrency is not part of this model.
- The rest of the repository is not part of this model: the user-based and image-based filters, the Streamlit front end (`streamlit_app.py`, `stfe.py`, `stte.py`), the data cleaner and the image collector.

## Where the code decides

In these edge cases the code does something narrower than a quick reading of it suggests. The model follows the code.

- A prediction whose weight sum is zero does not simply default to 0. In the code, only NaN (a zero weighted sum over a zero weight sum) becomes 0 through `fillna(0)`. A non-zero sum over zero weight is infinite, and `mean_squared_error` then raises (`Evaluation.PredictZeroWeight`, `Evaluation.MseOutcome`).
- The error message of `create_sim_mat` names 'euclidean distances' with a space. The accepted string is 'euclidean_distances' (`Similarity.ParseMetric`).
- scikit-learn refuses a feature table with no rows or no columns. `create_sim_mat` then raises before assigning anything (`EmptyFeatures`).
- `evaluate_precision_recall` reads `self.sim_mat.index` only after `train_df.title_id`, so a missing `title_id` column in the train frame raises before a missing table (`Evaluation.PrecisionRecallErrors`).
- With no test user left after filtering, `evaluate_precision_recall` returns empty dicts and NaN averages. The averages are the absent values of `Mean` here.
