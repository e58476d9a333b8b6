# github-prstat-to-bigquery: pull request extraction and ingestion, modelled in Dafny

This project models the core of a GitHub Action that reads one pull request and appends
it to two BigQuery tables. The action writes one row for the pull request itself. It then
writes one row for each issue comment, inline review comment and review.

- `Wrappers.dfy` holds `Option`, which stands for JavaScript's `null`/`undefined`. It also
  holds `Result`, which stands for a call that may throw.
- `Decimal.dfy` models how a template literal writes an integral number. It proves that
  two different numbers are never written alike.
- `GitHub.dfy` models `src/github.ts`:
  - the `PRInfo` and `PRComment` shapes;
  - resolving the PR number from the override or the event payload;
  - the `|| null` coercions;
  - `getPRInfo`'s field mapping;
  - `getPRComments`, as an imperative method with three push loops, proved against the
    specification function `CollectComments`.

  The hosting API is an input. Each of its four calls is a function from
  `(owner, repo, number)` to the fully paginated answer or to the message of the error it
  throws. `PRInfoRequests` and `CommentRequests` give the calls each function makes, in
  order.
- `BigQuery.dfy` models `src/bigquery.ts` as a class.
  - `datasetId`, `tableId` and `commentsTableId` are `const` fields, set once by the
    constructor.
  - A ghost `log` records every `insert` call as `(dataset, table, rows)`.
  - The warehouse service is an input: a function from `(dataset, table, rows)` to the
    error the insert throws, if any.
- `Pipeline.dfy` models `run` in `src/index.ts`:
  - the two insert-id templates;
  - row assembly with the run-wide `inserted_at`;
  - the empty-batch guard;
  - the step order, with every error caught and reported.

  `RunSpec` is the specification: it gives the outcome and a trace of every API call and
  every insert, in order. The method `Run` carries out the steps against a real client. It
  is proved to produce that outcome and trace, and to leave `client.log` equal to the
  trace's inserts. `Run` hands the comments half to the method `RunActivity`, which is
  proved against the matching part of the specification, `ActivityStage`.

Details of the code's behaviour that the model keeps:

- An empty string, and a commit count of `0`, also become `null`: `|| null` treats every
  falsy value alike, not only absent or null ones.
- `PRInfo.pr_number` is the `number` of the fetched pull request. The comment records use
  the resolved number.
- Each of the two GitHub functions resolves the number itself, with its own error message.
  When `run` calls them, the comments function's message cannot occur: `getPRInfo` runs
  first and fails on the same missing number.
- Any non-zero number is accepted as a PR number, negative ones included: the guard is
  `!prNumber`, which rejects only 0 and a missing number.

## Model

| member | source | states |
|---|---|---|
| Decimal.NatToDecimal | src/index.ts:29 | `${n}` of a natural number is a non-empty run of decimal digits, and starts with `0` only for 0 |
| Decimal.DecimalRoundTrip | src/index.ts:29 | reading the digits written for n back as a decimal number gives n |
| Decimal.IntToString | src/index.ts:49 | the text of an integer starts with `-` exactly when it is negative, and is all digits otherwise |
| Decimal.IntToStringInjective | src/index.ts:49 | two integers written alike are equal |
| GitHub.ResolvePRNumber | src/github.ts:24-27 | a number resolves exactly when the override or the payload number is truthy (present and non-zero); the override wins when truthy; the result is never 0 |
| GitHub.OrNull | src/github.ts:41-44 | coercing a string field to null is null exactly when the value is null, absent or empty, and otherwise is the value unchanged |
| GitHub.NumberOrNull | src/github.ts:45 | coercing a number field to null is null exactly when the value is null, absent or 0, and otherwise is the value unchanged |
| GitHub.LoginOrNull | src/github.ts:73 | the author's login coerced to null is null exactly when the user is missing or its login is null, absent or empty, and otherwise is the login |
| GitHub.PRInfoOf | src/github.ts:38-46 | repository is `owner/repo`; pr_number is the fetched pull's number; each optional field is null exactly when the upstream value is null, absent, empty or 0, and otherwise equals it |
| GitHub.GetPRInfo | src/github.ts:23-47 | fails with the "No pull_request number found. This action must…" message when neither number is truthy; succeeds exactly when a number resolves and the fetch of that number succeeds; a failed fetch's error is passed on unchanged; on success the result is the mapping (`PRInfoOf`) of the fetched pull request, so its repository is `owner/repo` |
| GitHub.PRInfoRequests | src/github.ts:24-36 | getPRInfo makes at most one call, a `pulls.get` on the context's owner and repo, and makes none exactly when no number resolves |
| GitHub.Normalize | src/github.ts:58-114 | the record list is exactly as long as the three source lists together |
| GitHub.CommentRecord | src/github.ts:67-94 | an issue comment or inline comment becomes a record with the given repository, number and type, the comment's id, its author's login or null when missing or empty, and its created_at uncoerced |
| GitHub.ReviewRecord | src/github.ts:103-112 | a review becomes a record typed review with the review's id, its author's login or null, and its submitted_at or null when falsy |
| GitHub.CollectComments | src/github.ts:49-115 | fails with "No pull_request number found." when neither number is truthy; its success condition, its success value and its other errors are stated in `CollectCommentsAllOrNothing`, and the numbers in its records in `PRNumberProvenance` |
| GitHub.CommentRequests | src/github.ts:52-101 | getPRComments makes no call exactly when no number resolves, otherwise at most three, in the order issue comments, review comments, reviews, all on the context's owner and repo |
| GitHub.GetPRComments | src/github.ts:49-115 | the three fetch-and-push loops return exactly `CollectComments`, and make exactly the calls of `CommentRequests`, in order |
| GitHub.NormalizeOrder | src/github.ts:67-112 | issue comments come first, then review comments, then reviews, and each group is in its source list's order |
| GitHub.NormalizeFields | src/github.ts:68-111 | for every record: its comment_type is fixed by its group; comment_id is the source id; comment_author is null exactly when the user is missing or the login is empty, and otherwise is the login; comment_time is created_at uncoerced for both comment kinds, and submitted_at (null when falsy) for reviews; all records share repository and pr_number |
| GitHub.MissingPRNumberNoRequest | src/github.ts:52-56 | with neither number truthy, both functions throw their messages and make no API call |
| GitHub.PRNumberProvenance | src/github.ts:32-40 | the pull is fetched by the resolved number; the PR row's number is the fetched object's number, but every comment record carries `owner/repo` and the resolved number |
| GitHub.CollectCommentsAllOrNothing | src/github.ts:58-114 | the collection succeeds exactly when all three fetches succeed, and its value is then `Normalize` of the three fetched lists, so the order and fields of `NormalizeOrder` and `NormalizeFields` hold for it; when one fetch fails, the result is that fetch's error, unchanged, with no partial list, and the calls made are exactly the fetches up to and including the failing one |
| GitHub.NoActivityNoRecords | src/github.ts:58-114 | three empty lists give an empty result, not an error |
| GitHub.FourRecordScenario | src/github.ts:67-112 | 2 issue comments, 1 review comment and 1 review give 4 records whose comment_type columns read `issue_comment`, `issue_comment`, `review_comment`, `review` |
| BigQuery.BigQueryClient.constructor | src/bigquery.ts:9-17 | the dataset and table ids are stored as given (as `const`, never changed afterwards), and the log starts empty |
| BigQuery.BigQueryClient.InsertPRInfo | src/bigquery.ts:19-24 | exactly one insert is logged, into datasetId/tableId, holding the one-row batch `[row]`; its error is the warehouse's |
| BigQuery.BigQueryClient.InsertPRComments | src/bigquery.ts:26-32 | an empty batch logs nothing and succeeds; a non-empty batch logs exactly one insert into datasetId/commentsTableId, with the rows unchanged and in order |
| Pipeline.PRInsertId | src/index.ts:29 | the PR insert id starts with the repository followed by `_pr_` and ends with the run's timestamp |
| Pipeline.CommentInsertId | src/index.ts:49 | a comment insert id starts with the repository followed by `_comment_` and ends with the run's timestamp |
| Pipeline.PRRow | src/index.ts:29-37 | the PR row's insert id is exactly `PRInsertId` of the record and the run's timestamp, so the key lemmas apply to it; its json is the PR record plus `inserted_at` |
| Pipeline.PRInsertIdTimestampInjective | src/index.ts:29 | for the same PR record, different `insertedAt` values give different PR insert ids |
| Pipeline.CommentInsertIdTimestampInjective | src/index.ts:49 | for the same comment record, different `insertedAt` values give different comment insert ids |
| Pipeline.PRInsertIdNumberInjective | src/index.ts:29 | in one repository and run, equal PR insert ids mean equal PR numbers |
| Pipeline.CommentInsertIdIffSameId | src/index.ts:49 | in one repository and run, two comment insert ids are equal exactly when the comment ids are equal, whatever the comment types |
| Pipeline.CrossTypeKeyCollision | src/index.ts:49 | an issue comment and a review with the same id get different comment_type values but the same insert id (the key omits the type) |
| Pipeline.CommentRows | src/index.ts:48-54 | one row per comment, in order; each row's json is the comment plus `inserted_at`, and its insertId is the comment's insert id |
| Pipeline.CommentRowKeys | src/index.ts:48-54 | within one batch, two rows share an insert id exactly when their comment ids are equal |
| Pipeline.Run | src/index.ts:6-66 | the step sequence produces exactly `RunSpec`'s outcome and trace; the client's log is the trace's inserts; the client gets the configured ids |
| Pipeline.RunActivity | src/index.ts:43-61 | the comments half of the run produces exactly `ActivityStage`'s outcome and trace, and adds to the client's log exactly the trace's new inserts |
| Pipeline.RunSpec | src/index.ts:17-65 | an empty token gives an empty trace; the run reaches Done only after the token check and getPRInfo succeeded |
| Pipeline.ActivityStageWrites | src/index.ts:45-61 | the comments half of the run (`ActivityStage`) adds exactly one insert, of the whole comment batch into commentsTableId, when the collection succeeded and is non-empty, and none otherwise |
| Pipeline.MissingTokenFailsFirst | src/index.ts:20-22 | an empty GitHub token fails the run with "github_token is required…" before any fetch or insert |
| Pipeline.MissingPRNumberFailsBeforeAnyCall | src/index.ts:23 | without a payload number (run passes no override), the run fails with getPRInfo's message before any fetch or insert |
| Pipeline.RunWrites | src/index.ts:40-61 | a run makes no insert until the pull request is mapped; its first insert is the single PR row into tableId; a second insert, of `CommentRows` into commentsTableId, happens exactly when the first succeeded and the comment list is non-empty |
| Pipeline.RunRowsShareInsertedAt | src/index.ts:33-53 | every row a run submits goes to the configured dataset and carries the run's one `inserted_at` |
| Pipeline.NoActivitySkipsCommentWrite | src/index.ts:47-61 | with no activity, the run succeeds and its only insert is the PR row |
| Pipeline.ActivityFailureKeepsPRWrite | src/index.ts:45-65 | when the activity fetch fails after the PR row was written, the error is reported and the PR insert is the run's only insert |
| Pipeline.RunReportsFailingStep | src/index.ts:23-65 | a failed PR fetch, a failed PR insert, a failed activity fetch and a failed comments insert each end the run as Failed with that step's own error, unchanged |
| Pipeline.RunDoneIff | src/index.ts:7-65 | the run reaches Done exactly when every step it reaches succeeds; otherwise the error is reported as Failed and not rethrown |
| Pipeline.PRWriteBeforeActivityFetch | src/index.ts:40-45 | every activity fetch in the trace comes after the PR insert, which is the trace's second event and which succeeded |

## Left out

- Octokit transport, authentication and `paginate` are not modelled. The hosting API is an input that returns fully paginated lists. The token's effect on what the API answers is inside that input.
- Of each upstream record, the model keeps only the fields the mapping reads. `pr.user` is taken to be always present, as the API types it. A null there would throw a TypeError, which the model does not capture.
- The `@google-cloud/bigquery` client is not modelled: network, authentication, retries and the `raw: true` wire format. `projectId` and `accessToken` only configure that client, so the client constructor takes the warehouse service (`Warehouse`) in their place.
- `core.getInput`, including its errors for missing required inputs, is left out, and so is the `process.env.GITHUB_TOKEN` fallback. `run` receives the token as already resolved, and only its emptiness matters.
- `core.info` logging is left out. `core.setFailed` becomes the `Failed(error)` outcome, where `error.Message()` is the text `setFailed` receives. The process exit code is not modelled.
- The clock `new Date().toISOString()` becomes the opaque parameter `insertedAt`. Its ISO format is not constrained. In the source, the clock is read after the PR is fetched; because it is a parameter here, that timing does not matter.
- `async`/`await` scheduling is left out. The pipeline is strictly sequential, and the methods run in source order.
- JavaScript numbers are modelled as unbounded integers. Floating point, `NaN` (which is also falsy) and the exponent notation for numbers of 1e21 and above are left out.
- `run` never passes the override to the GitHub functions, so `Run` passes `None`.
