# ai-review-backend in Dafny

A model of the three pieces of logic in the review-analysis backend:

- **Classifier** (`classifier.dfy`) models `SentimentAnalyzer.analyze`. It cuts a review to its first 512 characters and hands that to the pretrained sentiment pipeline. The pipeline is an opaque, possibly failing function. The raw label `LABEL_1` becomes `긍정` (positive) and every other label becomes `부정` (negative). The score is rounded to hundredths. The full text is echoed back.
- **BatchImport** (`batch_import.dfy`) models `process_data`. It is imperative: a `Session` class holds the staged records and the log of committed transactions. `ProcessData` runs the loop over the rows:
  - it classifies each row;
  - it appends each success to a buffer;
  - it commits the buffer as one transaction when it reaches ten, then clears it;
  - it logs and skips each row whose classification raised;
  - after the loop it commits a non-empty remainder.

  The method is proved against pure functions:
  - `Head` gives the rows processed under `limit`;
  - `Imported` gives the records of the successful rows;
  - `Batches` gives the commits they make;
  - `FailedIndices` gives the logged error indices.

  Lemmas prove conservation, ordering and batch sizes of those functions.
- **Analytics** (`analytics.dfy`) models `get_stats` and `get_ranking`. They are pure functions over the `reviews` table, taken as its rows in storage order. Both are functions in Dafny, so they cannot change the table, which makes the endpoints read-only. The `긍정`/`부정` strings they filter on are the constants from which `Sentiment.Label` builds the stored strings. A row the importer inserts is a committed `NewReview` plus the store-assigned `id` and `created_at`; `StoredAs` states that link. Rows from the single-review endpoint (not modelled) are built the same way (routers/reviews.py:47-51). For a table filled only by the importer, `ImportedTableCounts` uses that link to carry the importer's two-valued sentiments into the counts of `get_stats`.

Confidences are exact `real`s, not floats.

## Model

| member | source | states |
|---|---|---|
| Classifier.Truncate | ai_model.py:19 | the text given to the pipeline is a prefix of the input of length min(\|text\|, 512) |
| Classifier.SentimentOf | ai_model.py:24-31 | positive exactly when the raw label is `LABEL_1`, negative for every other label |
| Classifier.Sentiment.Label | ai_model.py:28-31 | the stored string is `긍정` or `부정`, and `긍정` exactly for the positive sentiment |
| Classifier.LabelInjective | ai_model.py:28-31 | the two sentiments have different stored strings |
| Classifier.Hundredths | ai_model.py:36 | the stored confidence is a whole number of hundredths within half a hundredth of the score |
| Classifier.HundredthsInUnitRange | ai_model.py:36 | a score in [0, 1] stays in [0, 1] after rounding |
| Classifier.Analyze | ai_model.py:14-38 | fails exactly when the pipeline fails on the truncated text; otherwise echoes the full text, passes the raw label through unchanged, rounds the score, and the sentiment string is `긍정` iff the raw label is `LABEL_1` (`부정` iff it is not) |
| Classifier.TruncationDeterminism | ai_model.py:19 | texts that reach the pipeline as the same truncated text, of any lengths, both fail or get the same sentiment, confidence and raw label |
| Classifier.SharedPrefixTruncates | ai_model.py:19 | two texts of at least 512 characters that agree on their first 512 reach the pipeline as the same text |
| Classifier.SuffixIgnored | ai_model.py:19-34 | replacing everything after the first 512 characters changes only the echoed text |
| BatchImport.ToRecord | batch_process.py:47-51 | the record's content is the analysis text, its sentiment the analysis' sentiment string, its confidence the analysis' confidence |
| BatchImport.Head | batch_process.py:29-30 | the processed rows form a prefix of the input; all rows when `limit` is `None` or 0; min(limit, \|rows\|) rows for a positive limit; all but the last \|limit\| rows for a negative one |
| BatchImport.RecordOf | batch_process.py:42-63 | one row gives at most one record |
| BatchImport.SuccessIndices | batch_process.py:42-53 | no more successful rows than rows, each a valid row index |
| BatchImport.FailedIndices | batch_process.py:61-63 | the error log holds no more entries than rows, each a valid row index |
| BatchImport.Imported | batch_process.py:39-63 | there are no more records than rows |
| BatchImport.FailedIndicesExact | batch_process.py:61-63 | the logged indices are in range, strictly increasing, and are exactly the rows whose analysis raised (combining the three lemmas below) |
| BatchImport.FailedIndicesSound | batch_process.py:61-63 | each logged index is a row whose analysis raised |
| BatchImport.FailedIndicesIncreasing | batch_process.py:61-63 | the error log is strictly increasing |
| BatchImport.FailedIndicesComplete | batch_process.py:61-63 | every row whose analysis raised is logged |
| BatchImport.SuccessIndicesExact | batch_process.py:42-53 | the successful row indices are in range, strictly increasing, and are exactly the rows whose analysis succeeded (combining the three lemmas below) |
| BatchImport.SuccessIndicesSound | batch_process.py:42-53 | each listed index is a row whose analysis succeeded |
| BatchImport.SuccessIndicesIncreasing | batch_process.py:42-53 | the successful indices are strictly increasing |
| BatchImport.SuccessIndicesComplete | batch_process.py:42-53 | every row whose analysis succeeded is listed |
| BatchImport.RowsAccounted | batch_process.py:39-63 | logged failures plus imported records equal the number of rows processed |
| BatchImport.ImportedFromRows | batch_process.py:39-53 | the k-th imported record is the record of the k-th successful row, so nothing is invented, dropped or reordered |
| BatchImport.ImportedSentiments | batch_process.py:47-51 | every imported record's sentiment is `긍정` or `부정` |
| BatchImport.ImportedStep | batch_process.py:53 | a further row appends its record, if any, after the earlier ones |
| BatchImport.FailedStep | batch_process.py:61-63 | a further row's index is logged exactly when its analysis raised |
| BatchImport.Batches | batch_process.py:55-68 | the commit sequence: no more commits than records, each holding between 1 and 10 records |
| BatchImport.BatchesFlatten | batch_process.py:55-68 | the commits, concatenated in order, are exactly the successful records |
| BatchImport.BatchesSizes | batch_process.py:55-68 | there are ceil(successes / 10) commits; all but the last hold exactly 10 records; each holds 1 to 10; the last holds the remainder |
| BatchImport.BatchSizeExamples | batch_process.py:55-68 | 10, 11 and 25 successes give commit sizes [10], [10, 1] and [10, 10, 5] |
| BatchImport.FullBatchFirst | batch_process.py:56-59 | ten records followed by more are committed as one batch first, before the rest |
| BatchImport.BatchesOfFull | batch_process.py:65-68 | full in-loop commits followed by a short remainder are the batching of all successes, the remainder committed only when non-empty |
| BatchImport.Buffered | batch_process.py:53-59 | one row's effect on the buffer: the buffer ends below 10, any commit it makes holds at least 10 records, and the commits followed by the new buffer are the old buffer followed by the row's records |
| BatchImport.BufferedBounds | batch_process.py:53-59 | starting from a buffer that is not full, a step commits batches of exactly 10 records; a row that yields no record (a failed row) changes neither the buffer nor the store |
| BatchImport.LoadedStep | batch_process.py:39-63 | one more row keeps the loop state: full commits, commits plus buffer equal the records so far, buffer below 10 (from the two lemmas below) |
| BatchImport.LoadedRecords | batch_process.py:39-59 | after one more row, the commits followed by the buffer are still the records of the successful rows so far, in order |
| BatchImport.LoadedSizes | batch_process.py:56-59 | after one more row, every commit made in the loop still holds exactly 10 records |
| BatchImport.LoadedDone | batch_process.py:65-68 | at the end, the in-loop commits plus the non-empty remainder are the batches of all successes |
| BatchImport.Session.constructor | batch_process.py:17 | a new session has nothing staged over the existing store |
| BatchImport.Session.AddAll | batch_process.py:57 | `add_all` stages the records after those already staged and commits nothing |
| BatchImport.Session.Commit | batch_process.py:58 | `commit` appends everything staged to the store as one transaction and clears the staging |
| BatchImport.Flush | batch_process.py:66-68 | `add_all` then `commit` of a buffer appends exactly that buffer as one transaction |
| BatchImport.ImportRow | batch_process.py:42-63 | one loop iteration: reports a raise exactly when the analysis fails; the store and the buffer change as the one-step buffering function says |
| BatchImport.ProcessData | batch_process.py:10-71 | the store gains exactly the batches of the records of the successful rows among the rows `limit` selects; the logged indices are exactly the failed rows; nothing is left staged |
| Analytics.WithSentiment | routers/analytics.py:42-43 | the filtered rows are the table's rows with that sentiment, each as many times as it occurs in the table and no other row, so the length is the SQL count |
| Analytics.TotalConfidence | routers/analytics.py:44 | the sum of confidences inside `avg`; it is non-negative when every confidence is |
| Analytics.AverageConfidence | routers/analytics.py:44 | SQL AVG: null exactly on an empty table, otherwise the sum of confidences over the row count |
| Analytics.GetStats | routers/analytics.py:32-52 | all zeros on an empty table; total is the row count; positive and negative counts are the lengths of the `긍정` and `부정` filters (the number of such rows, counted with multiplicity), each at most the total; otherwise the ratio is pos / total × 100 and the average is the mean confidence |
| Analytics.RatioInRange | routers/analytics.py:50 | the positive ratio lies in [0, 100] |
| Analytics.CountsPartition | routers/analytics.py:34-43 | when every stored sentiment is `긍정` or `부정`, the positive and negative counts add up to the total |
| Analytics.SplitCount | routers/analytics.py:42-43 | the two filters split a table of two-valued sentiments |
| Analytics.TotalConfidenceBounds | routers/analytics.py:44 | with confidences in [0, 1], the sum of confidences lies in [0, row count] |
| Analytics.AverageInUnitRange | routers/analytics.py:44-51 | with confidences in [0, 1], the reported average lies in [0, 1] |
| Analytics.ImportedTableCounts | batch_process.py:47-51 | a table filled only by the importer, whose rows are the imported records as stored (store-assigned `id` and `created_at`) has positive and negative counts adding up to the total, as `get_stats` (routers/analytics.py:42-43) reports them |
| Analytics.MaxIndex | routers/analytics.py:57 | the chosen row is at least as confident as every row |
| Analytics.IsTop | routers/analytics.py:57 | the specification of `order_by(desc(confidence)).limit(n)`; any answer it admits has at most n rows, all from the pool |
| Analytics.TopMembers | routers/analytics.py:57 | every row of a sub-multiset of the pool is a row of the pool |
| Analytics.RemoveOne | routers/analytics.py:57 | taking out one row leaves exactly the other rows, counted with multiplicity |
| Analytics.SortedCons | routers/analytics.py:57 | putting a row at least as confident as all others in front keeps the list in non-increasing order |
| Analytics.DominatesCons | routers/analytics.py:57 | putting a most confident row in front keeps every omitted row no more confident than any returned row |
| Analytics.OthersBounded | routers/analytics.py:57 | every row chosen from the other rows is no more confident than a most confident row |
| Analytics.TopStep | routers/analytics.py:57 | a most confident row followed by a valid top k-1 of the other rows is a valid top k |
| Analytics.TopK | routers/analytics.py:57 | `order_by(desc(confidence)).limit(k)`: min(k, \|rows\|) of the rows (as a sub-multiset), in non-increasing confidence, with no omitted row more confident than a returned one |
| Analytics.GetRanking | routers/analytics.py:54-62 | best and worst are valid top 3 lists of the `긍정` and `부정` rows: each is a sub-multiset of those rows (so no row is repeated beyond its occurrences, and no padding), of length min(3, number of such rows), in non-increasing confidence, with no omitted row more confident; they hold only table rows of that sentiment |

## Left out

- The pretrained `transformers` pipeline and its loading (ai_model.py:4-12) are an opaque function from the truncated text to an optional raw label and score. `None` stands for any exception raised by the call, and only its first answer (`[0]`) is modelled.
- Classifier.Hundredths: rounds half up on an exact tie of the real score; Python's `.2f` rounds the binary double's exact value, so the two can disagree on a score that sits exactly on a tie.
- The `float(...)` parse of the formatted confidence is the identity on a whole number of hundredths; float rounding is not modelled, and all arithmetic is on exact reals.
- Reading the TSV file with pandas, the `tqdm` progress bar and every `print` are I/O. The input is the sequence of review texts, and the error log is the returned list of failed indices.
- A review cell that is not a string (a missing value read as NaN) would raise in `text[:512]` and be logged like a classifier failure; rows are modelled as strings only.
- BatchImport.ProcessData: assumes every `add_all`/`commit` succeeds. A failing in-loop commit would be caught as a row error and leave the buffer uncleared, and a failing final commit would propagate; neither is modelled.
- SQLAlchemy session lifecycle (`SessionLocal()`, `db.close()`), the database-assigned `id` and `created_at`, and transaction isolation are not modelled; a commit appends one batch to the session's log.
- The default `limit=100` of `process_data` is the caller's choice; `ProcessData` takes the limit as an argument.
- Analytics.TopK: the order among equally confident rows is left open by `IsTop`, as the SQL query leaves it to the database; the function itself picks the first stored row among equals.
- NULL `confidence` or `sentiment` values are not modelled: every writer sets both. A NULL would sort and average differently in SQL.
- dashboard.py, routers/reviews.py, main.py, database.py, test_data.py and check_db.py are not part of this model: they are UI, HTTP routing and ad-hoc scripts.
- Concurrent request handling by the web server is not modelled.
- Each endpoint is modelled over a single state of the table. `get_stats` issues four separate queries (routers/analytics.py:34, 42, 43, 44) outside one transaction, so a batch import that commits between them could make `pos_count` exceed `total_count` and the ratio exceed 100; that interleaving is not modelled.
- The pipeline, including whether it raises, is a deterministic function of the truncated text; transient failures (running out of memory, say) that do not depend on the text are not modelled.
