# Sentiment dashboard: state, history and aggregates

A Dafny model of the logic of a review-sentiment dashboard. The model covers two parts.

The first is the React component `App` in `frontend/src/App.js`. It holds the review being typed, the bulk input, the current result, the analysis history, a loading flag, an error message and the active tab. Two handlers send text to a classification server and commit what comes back:

- `analyzeSentiment` sends one review.
- `analyzeBulk` sends one review per non-blank line.

The history is newest-first and capped at 50. New records go in front and the list is cut with `slice(0, 50)`. Several pure views are derived from it:

- the label tally;
- the ten-entry trend;
- the five-bucket confidence histogram;
- the radar averages;
- the label icon;
- the downloadable report.

The second part is `clean_text` in `backend/train_model.py`, the text normaliser used before training. It lower-cases the text, then deletes everything outside `[a-z\s]`.

Modules, one per concern:

- `Text` (text.dfy): ASCII character classes, lower-casing, JavaScript `trim`, and the blank-input guard.
- `Preprocess` (clean_text.dfy): `clean_text` and its properties.
- `Records` (records.dfy): the stored record, the raw batch result, and the batch coercion.
- `ResultLog` (result_log.dfy): the capped, newest-first history update.
- `BulkInput` (bulk_input.dfy): `split('\n').filter(r => r.trim())`.
- `Aggregates` (aggregates.dfy): the derived views. The confidence histogram is a method with a local array, because the source builds and mutates `ranges`.
- `Dashboard` (dashboard.dfy): class `App`, with the component's state as fields and the handlers as methods.

Probabilities are integer hundredths. The backend rounds every probability to two decimals (backend/app.py:43-45 and 77-79). In binary64, `k/100 * 100` is not always exactly `k`: `0.57 * 100` is `56.99999999999999` and `0.29 * 100` is `28.999999999999996`, and the same happens for k = 7, 14, 28, 55, 56 and 58. The error is below 1e-13, so it never moves a value across a bucket boundary. The boundaries 20, 40, 60 and 80 themselves come out exact, and `toFixed(0)` rounds every such product back to `k`. Whole percentages therefore give the same buckets and the same trend strings. The network call of each handler is replaced by a parameter: the server's outcome, `Ok(payload)` or `Failed`. Each handler returns the request body it would send, or `None` when its guard stops it first.

Two behaviours of the code worth knowing:

- **Label tally.** The tally is case-sensitive: it counts only `'Positive'`/`'positive'` (likewise for the other classes), while `getSentimentIcon` lower-cases the label. `IconCoarserThanStats` shows `"POSITIVE"` getting the positive icon while counted nowhere.
- **Empty history.** On an empty history `getSentimentStats` returns `null`, modelled as `None`.

## Model

| member | source | states |
|---|---|---|
| Preprocess.CleanText | backend/train_model.py:14-17 | `clean_text` lower-cases, then substitutes: the output is never longer than the input, and every character of it is `a`-`z` or white space. |
| Preprocess.RemoveDisallowed | backend/train_model.py:16 | The substitution never lengthens its input, and every character it keeps is `a`-`z` or white space. |
| Preprocess.CleanTextAlphabet | backend/train_model.py:14-17 | Every character of `clean_text`'s output is a lower-case ASCII letter or white space. |
| Preprocess.CleanTextIdempotent | backend/train_model.py:14-17 | Cleaning an already cleaned text changes nothing. |
| Preprocess.CleanTextAppend | backend/train_model.py:15-16 | Cleaning distributes over concatenation, so kept characters stay in their original relative order. |
| Preprocess.CleanTextChar | backend/train_model.py:15-16 | A letter or white-space character becomes its lower-case form; a digit, punctuation or any other character is deleted. |
| Preprocess.CleanTextLength | backend/train_model.py:16 | The output is no longer than the input, and equally long exactly when every input character is a letter or white space. |
| Text.TrimStart | frontend/src/App.js:25 | The result is no longer than the input and does not start with white space. |
| Text.TrimEnd | frontend/src/App.js:25 | The result is no longer than the input, keeps its first character and does not end with white space. |
| Text.Trim | frontend/src/App.js:25 | `trim()` is no longer than its input and neither starts nor ends with white space. |
| Text.BlankIff | frontend/src/App.js:25 | The contract of IsBlank: `!s.trim()` holds exactly when every character of `s` is white space. |
| Text.TrimStartSpec | frontend/src/App.js:25 | Trimming the start removes a white-space prefix and stops at the first other character. |
| Text.TrimEndSpec | frontend/src/App.js:25 | Trimming the end removes a white-space suffix and stops at the last other character. |
| Records.OrDefault | frontend/src/App.js:81-83 | `p || d`: a truthy value is kept, a falsy one (absent or zero) becomes `d`, so the result is never zero when `d` is not. |
| Records.Coerce | frontend/src/App.js:79-84 | Review, label and timestamp are copied. A missing or zero probability becomes 0.33/0.33/0.34. A non-zero one passes unchanged. No coerced probability is zero. |
| Records.CoerceLift | frontend/src/App.js:81-83 | A record with no zero probability comes through coercion unchanged. |
| Records.CoerceAll | frontend/src/App.js:79 | The batch coercion gives one record per result, each the coercion of the result at the same position. |
| ResultLog.Prepend | frontend/src/App.js:86 | The new history has length `min(50, k + n)`, where `n` is the old length. The `k` new records come first in their order, and `old[i]` moves to index `k + i` while that is below 50. When `k >= 50`, only the first 50 new records remain. |
| ResultLog.PrependTwice | frontend/src/App.js:46 | Two successive prepends equal one prepend of both batches, the later batch first. Truncating in between loses nothing. |
| BulkInput.SplitLines | frontend/src/App.js:64 | `split('\n')` always gives at least one piece; JoinSplit and SplitJoin make it the inverse of joining with line feeds. |
| BulkInput.JoinSplit | frontend/src/App.js:64 | Joining the pieces of `split('\n')` with line feeds gives back the input. |
| BulkInput.SplitJoin | frontend/src/App.js:64 | Splitting the join of line-feed-free pieces gives back those pieces. |
| BulkInput.SplitLinesNoNewline | frontend/src/App.js:64 | No piece of the split contains a line feed. |
| BulkInput.KeepNonBlank | frontend/src/App.js:64 | `filter(r => r.trim())` never yields more lines than it is given. |
| BulkInput.KeepNonBlankMembers | frontend/src/App.js:64 | Every line the filter keeps is a line of its input and is not blank. |
| BulkInput.KeepNonBlankAppend | frontend/src/App.js:64 | The filter keeps order: filtering a concatenation concatenates the filtered parts. |
| BulkInput.KeepNonBlankLine | frontend/src/App.js:64 | A single line survives the filter exactly when it is not blank. |
| BulkInput.ReviewList | frontend/src/App.js:56-64 | The list of reviews sent is empty exactly when the whole input is blank. |
| BulkInput.ReviewListEmpty | frontend/src/App.js:56-64 | The filtered split is empty exactly when the whole input is blank, so a request that passed the guard never carries an empty list. |
| BulkInput.ReviewListLines | frontend/src/App.js:64 | Every review sent is a whole input line, free of line feeds, not blank and not trimmed. |
| BulkInput.RequestReviews | frontend/src/App.js:56-64 | Past the guard, the list sent is the filtered split, and it is non-empty. |
| Aggregates.Count | frontend/src/App.js:107-109 | A class count never exceeds the history length. |
| Aggregates.SentimentStats | frontend/src/App.js:103-117 | `None` exactly on an empty history. Otherwise three bars, in the order Positive, Negative, Neutral, carrying the counts of the two accepted spellings. |
| Aggregates.CountsBounded | frontend/src/App.js:107-109 | The three counts sum to at most the history length. They sum to exactly the length iff every label is one of the six accepted spellings. |
| Aggregates.StatsTotal | frontend/src/App.js:106-116 | The tally's total is at most the history length, with equality iff every label is recognised. |
| Aggregates.StatsAllPositive | frontend/src/App.js:103-117 | A non-empty history labelled all "Positive" tallies to `[N, 0, 0]`. |
| Aggregates.IconAgreesWithStats | frontend/src/App.js:168-175 | Every label the tally counts under a class is shown with that class's icon. |
| Aggregates.IconCoarserThanStats | frontend/src/App.js:168-175 | The converse fails: `"POSITIVE"` gets the positive icon but is not counted. |
| Aggregates.SentimentIcon | frontend/src/App.js:168-175 | The check icon goes exactly to labels equal to "positive" in any letter case, the cross icon exactly to "negative" in any letter case; every other label gets the neutral icon. |
| Aggregates.ReverseAt | frontend/src/App.js:122 | `reverse()` keeps the length and puts the element at index `n-1-k` (`n` the length) at index `k`. |
| Aggregates.TrendData | frontend/src/App.js:119-129 | The trend has `min(10, n)` entries (`n` the history length), numbered 1, 2, ... in order. |
| Aggregates.TrendDataAt | frontend/src/App.js:119-129 | The trend has `m = min(10, n)` (`n` the history length) entries. Entry `i` has index `i + 1` and the percentages of `h[m-1-i]`, so the oldest of the newest ten comes first; an empty history gives `[]`. |
| Aggregates.MaxConfidence | frontend/src/App.js:143 | The confidence is at least each of the three probabilities and equal to one of them. |
| Aggregates.BucketOf | frontend/src/App.js:144-148 | The bucket the `if` chain picks is one whose range `(20b, 20(b+1)]` holds the confidence. |
| Aggregates.BucketOfUnique | frontend/src/App.js:143-148 | Each confidence falls in exactly one bucket `(20b, 20(b+1)]`, the one the `if` chain picks. Boundary values go to the lower bucket. |
| Aggregates.CountBucket | frontend/src/App.js:142-149 | A bucket count never exceeds the history length. |
| Aggregates.BucketTotalIsLength | frontend/src/App.js:142-149 | The five bucket counts sum to the history length. |
| Aggregates.ConfidenceDistribution | frontend/src/App.js:131-152 | The result is `[]` exactly on an empty history. Otherwise five ranges in fixed order, with labels `0-20%` to `81-100%`, each counting exactly the records whose maximum probability lands in that bucket. |
| Aggregates.Sum | frontend/src/App.js:157-159 | The `reduce` over one class's probabilities. It has no contract of its own; SumBounds bounds it and Average divides it. |
| Aggregates.Average | frontend/src/App.js:157-159 | The average times the history length gives back the class sum. |
| Aggregates.RadarData | frontend/src/App.js:154-166 | An empty history gives `[]`. A non-empty one gives three points, in the order Positive, Negative, Neutral, each carrying the average of its own class. |
| Aggregates.SumBounds | frontend/src/App.js:157-159 | The sum of `n` values in `[lo, hi]` lies in `[n*lo, n*hi]`. |
| Aggregates.RadarBounds | frontend/src/App.js:157-159 | For each class, if every record's probability of that class lies in `[lo, hi]`, so does the class average. |
| Aggregates.RadarConstant | frontend/src/App.js:157-159 | A history whose probability of a class is always `p` averages to exactly `p` for that class. |
| Aggregates.BuildReport | frontend/src/App.js:177-183 | The report carries the history as its reviews and `totalReviews` equals their number. Its `sentiment` is exactly the tally of those reviews: absent exactly when there are none, and otherwise three bars totalling at most `totalReviews`. |
| Dashboard.App.constructor | frontend/src/App.js:6-12 | The component starts on the single tab with empty inputs, no result, an empty history, no error and not loading. |
| Dashboard.App.AnalyzeSentiment | frontend/src/App.js:24-53 | A blank review sets only the validation message and sends nothing. Success stores the record as result and at history index 0 (`[data, ...prev].slice(0, 50)`), clears the review, loading flag and error. Failure sets the error and clears loading, leaving history, result and review as they were. The history never exceeds 50. |
| Dashboard.App.AnalyzeBulk | frontend/src/App.js:55-93 | A blank input sets only the validation message and sends nothing. Otherwise the non-empty list of non-blank lines is sent. Success prepends the coerced results in response order and clears the input. Failure sets the error and clears loading, leaving history and input untouched. The history never exceeds 50. |
| Dashboard.App.SetReview | frontend/src/App.js:256 | Typing in the review box sets the review and nothing else. |
| Dashboard.App.SetBulkReviews | frontend/src/App.js:454 | Typing in the bulk box sets the bulk input and nothing else. |
| Dashboard.App.SetActiveTab | frontend/src/App.js:229 | A tab button changes the active view and nothing else. |

## Left out

- Rendering: the JSX tree, the chart and icon components, styling, and the chart animation effect (frontend/src/App.js:17-22, 192-700). This is presentation.
- The network: `fetch`, JSON parsing and the `response.ok` check become the outcome parameter. A successful status whose body cannot be parsed, or has no `results` array, ends in the `catch` branch; the model folds it into `Failed`.
- Overlapping requests and React's batching of state updates. Each handler runs to completion as one step, so the state visible while a request is pending (`loading` true) is not observable in the model.
- `toFixed` formatting. Trend entries carry the whole-percent numbers the strings denote. Radar values are the exact real averages before rounding to a whole percent.
- Floating point: the products `k/100 * 100` that are off by less than 1e-13 are modelled as exactly `k`. As explained above, this changes no bucket and no rounded string.
- NaN and other falsy non-numbers in a batch result: the model's probability is an optional integer, so falsy means absent or zero.
- Dashboard.App.AnalyzeSentiment: a single response missing a probability field is not modelled, because backend/app.py:43-45 always sends all three keys. The component stores such a response without defaulting.
- A `null` label in `getSentimentIcon` (`label?.toLowerCase()`): labels are always strings in the model.
- Unicode: lower-casing, JavaScript `trim` white space and Python's `\s` are modelled on ASCII only. JavaScript `trim` white space is tab through carriage return and space. Python's `\s` adds 0x1C-0x1F. A non-ASCII character is never lower-cased, never trimmed and always deleted by `CleanText`; Python would keep the non-ASCII spaces and the letters that lower-case to `a`-`z`.
- `downloadReport`: the Blob, the anchor element, `Date.now()` and `toISOString` are browser I/O. The export time is a parameter of `BuildReport`.
- The rest of backend/train_model.py: CSV loading, TF-IDF, Naive Bayes training, accuracy printing and pickling. These are library calls and I/O.
- backend/app.py: Flask routing, model loading and prediction. These are library calls.
