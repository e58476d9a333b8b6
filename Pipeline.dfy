/**
 * The `run` entry point of src/index.ts: fetch the pull request, write its row,
 * fetch the activity, write the activity rows, reporting the first error.
 * The run's clock reading is the parameter insertedAt. A ghost trace records
 * every hosting API call and every warehouse insert in the order they happen.
 */
module Pipeline {
  import opened Wrappers
  import opened Decimal
  import opened GitHub
  import opened BigQuery


  /** The dataset and the two table ids the client is constructed with. */
  datatype Config = Config(datasetId: string, tableId: string, commentsTableId: string)

  datatype Event = Fetch(request: Request) | Write(call: InsertCall)

  /** What a run can fail with. */
  datatype RunError = GitHubTokenRequired | GitHubFailed(error: GitHubError) | InsertFailed(insertMessage: string)
  {
    /** The message the run passes to setFailed. */
    function Message(): string
    {
      match this
      case GitHubTokenRequired => "github_token is required to fetch PR details."
      case GitHubFailed(e) => e.Message()
      case InsertFailed(m) => m
    }
  }

  /** Done, or Failed with the caught error. */
  datatype Outcome = Done | Failed(error: RunError)

  datatype RunResult = RunResult(outcome: Outcome, trace: seq<Event>)

  // ---------------------------------------------------------------- insert ids

  /** The pull request row's key: repository, number and run timestamp. */
  function PRInsertId(info: PRInfo, insertedAt: string): (id: string)
    ensures info.repository + "_pr_" <= id
    ensures |insertedAt| < |id| && id[|id| - |insertedAt|..] == insertedAt
  {
    info.repository + "_pr_" + IntToString(info.pr_number) + "_" + insertedAt
  }

  /** A comment row's key: repository, comment id and run timestamp; the comment type is not part of it. */
  function CommentInsertId(c: PRComment, insertedAt: string): (id: string)
    ensures c.repository + "_comment_" <= id
    ensures |insertedAt| < |id| && id[|id| - |insertedAt|..] == insertedAt
  {
    c.repository + "_comment_" + IntToString(c.comment_id) + "_" + insertedAt
  }

  lemma PrefixCancel(p: string, a: string, b: string)
    requires p + a == p + b
    ensures a == b
  {
    assert a == (p + a)[|p|..];
    assert b == (p + b)[|p|..];
  }

  lemma SuffixCancel(a: string, b: string, q: string)
    requires a + q == b + q
    ensures a == b
  {
    assert a == (a + q)[..|a|];
    assert b == (b + q)[..|b|];
  }

  /** Runs at different times give different ids to the same pull request. */
  lemma PRInsertIdTimestampInjective(info: PRInfo, t1: string, t2: string)
    requires PRInsertId(info, t1) == PRInsertId(info, t2)
    ensures t1 == t2
  {
    var p := info.repository + "_pr_" + IntToString(info.pr_number) + "_";
    PrefixCancel(p, t1, t2);
  }

  /** Runs at different times give different ids to the same comment record. */
  lemma CommentInsertIdTimestampInjective(c: PRComment, t1: string, t2: string)
    requires CommentInsertId(c, t1) == CommentInsertId(c, t2)
    ensures t1 == t2
  {
    var p := c.repository + "_comment_" + IntToString(c.comment_id) + "_";
    PrefixCancel(p, t1, t2);
  }

  /** Within one repository and run, pull request ids tell pull request numbers apart. */
  lemma PRInsertIdNumberInjective(a: PRInfo, b: PRInfo, insertedAt: string)
    requires a.repository == b.repository
    requires PRInsertId(a, insertedAt) == PRInsertId(b, insertedAt)
    ensures a.pr_number == b.pr_number
  {
    var sa, sb := IntToString(a.pr_number), IntToString(b.pr_number);
    var q := "_" + insertedAt;
    assert PRInsertId(a, insertedAt) == (a.repository + "_pr_") + (sa + q);
    assert PRInsertId(b, insertedAt) == (a.repository + "_pr_") + (sb + q);
    PrefixCancel(a.repository + "_pr_", sa + q, sb + q);
    SuffixCancel(sa, sb, q);
    IntToStringInjective(a.pr_number, b.pr_number);
  }

  /**
   * Within one repository and run, two comment ids are equal exactly when the
   * comment ids are equal, whatever the comment types.
   */
  lemma CommentInsertIdIffSameId(a: PRComment, b: PRComment, insertedAt: string)
    requires a.repository == b.repository
    ensures CommentInsertId(a, insertedAt) == CommentInsertId(b, insertedAt) <==> a.comment_id == b.comment_id
  {
    if CommentInsertId(a, insertedAt) == CommentInsertId(b, insertedAt) {
      var sa, sb := IntToString(a.comment_id), IntToString(b.comment_id);
      var q := "_" + insertedAt;
      assert CommentInsertId(a, insertedAt) == (a.repository + "_comment_") + (sa + q);
      assert CommentInsertId(b, insertedAt) == (a.repository + "_comment_") + (sb + q);
      PrefixCancel(a.repository + "_comment_", sa + q, sb + q);
      SuffixCancel(sa, sb, q);
      IntToStringInjective(a.comment_id, b.comment_id);
    }
  }

  /** An issue comment and a review that share an id get the same insert id in one run. */
  lemma CrossTypeKeyCollision(repository: string, n: int, c: CommentData, r: ReviewData, insertedAt: string)
    requires c.id == r.id
    ensures var ic := CommentRecord(IssueComment, repository, n, c);
            var rv := ReviewRecord(repository, n, r);
            ic.comment_type != rv.comment_type
            && CommentInsertId(ic, insertedAt) == CommentInsertId(rv, insertedAt)
  {
  }

  // ---------------------------------------------------------------- rows

  /** The single row written for the pull request. */
  function PRRow(info: PRInfo, insertedAt: string): (row: Row)
    ensures row.json.PRJson? && row.json.info == info && row.json.inserted_at == insertedAt
    ensures row.insertId == PRInsertId(info, insertedAt)
    ensures info.repository + "_pr_" <= row.insertId
  {
    Row(PRInsertId(info, insertedAt), PRJson(info, insertedAt))
  }

  function CommentRow(c: PRComment, insertedAt: string): Row
  {
    Row(CommentInsertId(c, insertedAt), CommentJson(c, insertedAt))
  }

  /** `comments.map(...)`: one row per comment, in order. */
  function CommentRows(comments: seq<PRComment>, insertedAt: string): (rows: seq<Row>)
    ensures |rows| == |comments|
    ensures forall i :: 0 <= i < |rows| ==>
              rows[i].json == CommentJson(comments[i], insertedAt)
              && rows[i].insertId == CommentInsertId(comments[i], insertedAt)
    ensures forall row :: row in rows ==> row.json.inserted_at == insertedAt
  {
    seq(|comments|, i requires 0 <= i < |comments| => CommentRow(comments[i], insertedAt))
  }

  /** Rows of one batch collide on insert id exactly when their comment ids are equal. */
  lemma CommentRowKeys(comments: seq<PRComment>, repository: string, insertedAt: string)
    requires forall c :: c in comments ==> c.repository == repository
    ensures var rows := CommentRows(comments, insertedAt);
      forall i, j :: 0 <= i < |rows| && 0 <= j < |rows| ==>
        (rows[i].insertId == rows[j].insertId <==> comments[i].comment_id == comments[j].comment_id)
  {
    var rows := CommentRows(comments, insertedAt);
    forall i, j | 0 <= i < |rows| && 0 <= j < |rows|
      ensures rows[i].insertId == rows[j].insertId <==> comments[i].comment_id == comments[j].comment_id
    {
      CommentInsertIdIffSameId(comments[i], comments[j], insertedAt);
    }
  }

  // ---------------------------------------------------------------- traces

  function Fetches(requests: seq<Request>): (events: seq<Event>)
  {
    seq(|requests|, i requires 0 <= i < |requests| => Fetch(requests[i]))
  }

  /** The warehouse inserts of a trace, in order. */
  function Writes(trace: seq<Event>): (calls: seq<InsertCall>)
    ensures |calls| <= |trace|
  {
    if trace == [] then []
    else
      var last := trace[|trace| - 1];
      Writes(trace[..|trace| - 1]) + if last.Write? then [last.call] else []
  }

  lemma {:induction false} WritesAppend(a: seq<Event>, b: seq<Event>)
    ensures Writes(a + b) == Writes(a) + Writes(b)
    decreases |b|
  {
    if b == [] {
      assert a + b == a;
    } else {
      var b' := b[..|b| - 1];
      assert (a + b)[..|a + b| - 1] == a + b';
      WritesAppend(a, b');
    }
  }

  lemma {:induction false} WritesOfFetches(requests: seq<Request>)
    ensures Writes(Fetches(requests)) == []
    decreases |requests|
  {
    if requests != [] {
      var front := requests[..|requests| - 1];
      assert Fetches(requests)[..|Fetches(requests)| - 1] == Fetches(front);
      WritesOfFetches(front);
    }
  }

  lemma WritesOfWrite(call: InsertCall)
    ensures Writes([Write(call)]) == [call]
  {
  }

  // ---------------------------------------------------------------- the run

  /** What `run` does, given the hosting API's and the warehouse's answers. */
  function RunSpec(config: Config, githubToken: string, ctx: Context, api: Api, bq: Warehouse, insertedAt: string)
    : (r: RunResult)
    ensures githubToken == "" ==> r.trace == []
    ensures r.outcome == Done ==> githubToken != "" && GetPRInfo(api, ctx, None).Success?
  {
    if githubToken == "" then RunResult(Failed(GitHubTokenRequired), [])
    else
      var fetchPR := Fetches(PRInfoRequests(ctx, None));
      match GetPRInfo(api, ctx, None)
      case Failure(e) => RunResult(Failed(GitHubFailed(e)), fetchPR)
      case Success(info) =>
        var prRows := [PRRow(info, insertedAt)];
        var afterPR := fetchPR + [Write(InsertCall(config.datasetId, config.tableId, prRows))];
        match bq.insert(config.datasetId, config.tableId, prRows)
        case Some(e) => RunResult(Failed(InsertFailed(e)), afterPR)
        case None => ActivityStage(config, ctx, api, bq, insertedAt, afterPR)
  }

  /** The run from the comments fetch on, after the events `before`. */
  function ActivityStage(config: Config, ctx: Context, api: Api, bq: Warehouse, insertedAt: string, before: seq<Event>)
    : RunResult
  {
    var afterFetch := before + Fetches(CommentRequests(api, ctx, None));
    match CollectComments(api, ctx, None)
    case Failure(e) => RunResult(Failed(GitHubFailed(e)), afterFetch)
    case Success(comments) =>
      if |comments| == 0 then RunResult(Done, afterFetch)
      else
        var rows := CommentRows(comments, insertedAt);
        var afterWrite := afterFetch + [Write(InsertCall(config.datasetId, config.commentsTableId, rows))];
        match bq.insert(config.datasetId, config.commentsTableId, rows)
        case Some(e) => RunResult(Failed(InsertFailed(e)), afterWrite)
        case None => RunResult(Done, afterWrite)
  }

  /** The activity stage adds at most the one comments insert, of the whole non-empty batch. */
  lemma ActivityStageWrites(config: Config, ctx: Context, api: Api, bq: Warehouse, insertedAt: string, before: seq<Event>)
    ensures var comments := CollectComments(api, ctx, None);
      Writes(ActivityStage(config, ctx, api, bq, insertedAt, before).trace)
      == Writes(before)
         + if comments.Success? && comments.value != []
           then [InsertCall(config.datasetId, config.commentsTableId, CommentRows(comments.value, insertedAt))]
           else []
  {
    var afterFetch := before + Fetches(CommentRequests(api, ctx, None));
    WritesAppend(before, Fetches(CommentRequests(api, ctx, None)));
    WritesOfFetches(CommentRequests(api, ctx, None));
    var stage := ActivityStage(config, ctx, api, bq, insertedAt, before);
    match CollectComments(api, ctx, None)
    case Failure(_) =>
      assert stage.trace == afterFetch;
    case Success(comments) =>
      if |comments| == 0 {
        assert stage.trace == afterFetch;
      } else {
        var call := InsertCall(config.datasetId, config.commentsTableId, CommentRows(comments, insertedAt));
        assert stage.trace == afterFetch + [Write(call)];
        WritesAppend(afterFetch, [Write(call)]);
        WritesOfWrite(call);
      }
  }

  /** `run`: every error is caught and becomes the Failed outcome. */
  method Run(config: Config, githubToken: string, ctx: Context, api: Api, bq: Warehouse, insertedAt: string)
    returns (outcome: Outcome, client: BigQueryClient, ghost trace: seq<Event>)
    ensures fresh(client)
    ensures client.datasetId == config.datasetId && client.tableId == config.tableId
    ensures client.commentsTableId == config.commentsTableId
    ensures RunResult(outcome, trace) == RunSpec(config, githubToken, ctx, api, bq, insertedAt)
    ensures client.log == Writes(trace)
  {
    client := new BigQueryClient(bq, config.datasetId, config.tableId, config.commentsTableId);
    trace := [];

    // 1. The pull request
    if githubToken == "" {
      outcome := Failed(GitHubTokenRequired);
      return;
    }
    var prInfo := GetPRInfo(api, ctx, None);
    WritesOfFetches(PRInfoRequests(ctx, None));
    trace := Fetches(PRInfoRequests(ctx, None));
    if prInfo.Failure? {
      outcome := Failed(GitHubFailed(prInfo.error));
      return;
    }
    var prRow := PRRow(prInfo.value, insertedAt);
    var err := client.InsertPRInfo(prRow);
    WritesAppend(trace, [Write(InsertCall(config.datasetId, config.tableId, [prRow]))]);
    WritesOfWrite(InsertCall(config.datasetId, config.tableId, [prRow]));
    trace := trace + [Write(InsertCall(config.datasetId, config.tableId, [prRow]))];
    if err.Some? {
      outcome := Failed(InsertFailed(err.value));
      return;
    }

    // 2. The comments and reviews
    var before := trace;
    outcome, trace := RunActivity(config, ctx, api, bq, insertedAt, client, before);
  }

  /** The second half of `run`: fetch the activity and insert it as one batch when there is any. */
  method RunActivity(
    config: Config, ctx: Context, api: Api, bq: Warehouse, insertedAt: string,
    client: BigQueryClient, ghost before: seq<Event>)
    returns (outcome: Outcome, ghost trace: seq<Event>)
    requires client.bq == bq && client.datasetId == config.datasetId
    requires client.commentsTableId == config.commentsTableId
    requires client.log == Writes(before)
    modifies client`log
    ensures RunResult(outcome, trace) == ActivityStage(config, ctx, api, bq, insertedAt, before)
    ensures client.log == Writes(trace)
  {
    var comments, requests := GetPRComments(api, ctx, None);
    WritesAppend(before, Fetches(requests));
    WritesOfFetches(requests);
    trace := before + Fetches(requests);
    if comments.Failure? {
      outcome := Failed(GitHubFailed(comments.error));
      return;
    }
    if |comments.value| > 0 {
      var commentRows := CommentRows(comments.value, insertedAt);
      var err := client.InsertPRComments(commentRows);
      WritesAppend(trace, [Write(InsertCall(config.datasetId, config.commentsTableId, commentRows))]);
      WritesOfWrite(InsertCall(config.datasetId, config.commentsTableId, commentRows));
      trace := trace + [Write(InsertCall(config.datasetId, config.commentsTableId, commentRows))];
      if err.Some? {
        outcome := Failed(InsertFailed(err.value));
        return;
      }
    }
    outcome := Done;
  }

  // ---------------------------------------------------------------- properties of a run

  /** A missing GitHub token fails the run before any call. */
  lemma MissingTokenFailsFirst(config: Config, ctx: Context, api: Api, bq: Warehouse, insertedAt: string)
    ensures RunSpec(config, "", ctx, api, bq, insertedAt) == RunResult(Failed(GitHubTokenRequired), [])
  {
  }

  /** Without a pull request number the run fails before any fetch or insert. */
  lemma MissingPRNumberFailsBeforeAnyCall(
    config: Config, githubToken: string, ctx: Context, api: Api, bq: Warehouse, insertedAt: string)
    requires githubToken != ""
    requires FalsyNumber(ctx.payloadPRNumber)
    ensures RunSpec(config, githubToken, ctx, api, bq, insertedAt) == RunResult(Failed(GitHubFailed(MissingPRNumberForInfo)), [])
  {
  }

  /**
   * The inserts of a run: none until the pull request is mapped, then the single
   * pull request row, then at most one comment batch, made only when the first
   * insert succeeded and the activity list is non-empty.
   */
  lemma RunWrites(config: Config, githubToken: string, ctx: Context, api: Api, bq: Warehouse, insertedAt: string)
    ensures var w := Writes(RunSpec(config, githubToken, ctx, api, bq, insertedAt).trace);
      (githubToken == "" || GetPRInfo(api, ctx, None).Failure? ==> w == [])
      && (githubToken != "" && GetPRInfo(api, ctx, None).Success? ==>
            var prRows := [PRRow(GetPRInfo(api, ctx, None).value, insertedAt)];
            var comments := CollectComments(api, ctx, None);
            (1 <= |w| <= 2)
            && w[0] == InsertCall(config.datasetId, config.tableId, prRows)
            && (|w| == 2 <==> bq.insert(config.datasetId, config.tableId, prRows) == None
                              && comments.Success? && comments.value != [])
            && (|w| == 2 ==> w[1] == InsertCall(config.datasetId, config.commentsTableId,
                                                CommentRows(comments.value, insertedAt))))
  {
    if githubToken != "" {
      var fetchPR := Fetches(PRInfoRequests(ctx, None));
      WritesOfFetches(PRInfoRequests(ctx, None));
      var res := RunSpec(config, githubToken, ctx, api, bq, insertedAt);
      match GetPRInfo(api, ctx, None)
      case Failure(_) =>
        assert res.trace == fetchPR;
      case Success(info) =>
        var prRows := [PRRow(info, insertedAt)];
        var prCall := InsertCall(config.datasetId, config.tableId, prRows);
        WritesAppend(fetchPR, [Write(prCall)]);
        WritesOfWrite(prCall);
        if bq.insert(config.datasetId, config.tableId, prRows).Some? {
          assert res.trace == fetchPR + [Write(prCall)];
        } else {
          assert res == ActivityStage(config, ctx, api, bq, insertedAt, fetchPR + [Write(prCall)]);
          ActivityStageWrites(config, ctx, api, bq, insertedAt, fetchPR + [Write(prCall)]);
        }
    }
  }

  /** Every insert goes to dataset and every row in it carries insertedAt. */
  predicate Stamped(calls: seq<InsertCall>, dataset: string, insertedAt: string)
  {
    forall k :: 0 <= k < |calls| ==>
      calls[k].dataset == dataset && forall row :: row in calls[k].rows ==> row.json.inserted_at == insertedAt
  }

  lemma PipelineCallsStamped(
    config: Config, info: PRInfo, comments: Result<seq<PRComment>, GitHubError>, insertedAt: string,
    calls: seq<InsertCall>)
    requires 1 <= |calls| <= 2
    requires calls[0] == InsertCall(config.datasetId, config.tableId, [PRRow(info, insertedAt)])
    requires |calls| == 2 ==>
               comments.Success?
               && calls[1] == InsertCall(config.datasetId, config.commentsTableId, CommentRows(comments.value, insertedAt))
    ensures Stamped(calls, config.datasetId, insertedAt)
  {
  }

  /** Every row a run submits goes to the configured dataset and carries the run's inserted_at. */
  lemma RunRowsShareInsertedAt(
    config: Config, githubToken: string, ctx: Context, api: Api, bq: Warehouse, insertedAt: string)
    ensures Stamped(Writes(RunSpec(config, githubToken, ctx, api, bq, insertedAt).trace), config.datasetId, insertedAt)
  {
    RunWrites(config, githubToken, ctx, api, bq, insertedAt);
    if githubToken != "" && GetPRInfo(api, ctx, None).Success? {
      PipelineCallsStamped(config, GetPRInfo(api, ctx, None).value, CollectComments(api, ctx, None), insertedAt,
                           Writes(RunSpec(config, githubToken, ctx, api, bq, insertedAt).trace));
    }
  }

  /** A pull request without activity gets its row and no comments insert; the run succeeds. */
  lemma NoActivitySkipsCommentWrite(
    config: Config, githubToken: string, ctx: Context, api: Api, bq: Warehouse, insertedAt: string, info: PRInfo)
    requires githubToken != ""
    requires GetPRInfo(api, ctx, None) == Success(info)
    requires bq.insert(config.datasetId, config.tableId, [PRRow(info, insertedAt)]) == None
    requires CollectComments(api, ctx, None) == Success([])
    ensures RunSpec(config, githubToken, ctx, api, bq, insertedAt).outcome == Done
    ensures Writes(RunSpec(config, githubToken, ctx, api, bq, insertedAt).trace)
            == [InsertCall(config.datasetId, config.tableId, [PRRow(info, insertedAt)])]
  {
    RunWrites(config, githubToken, ctx, api, bq, insertedAt);
  }

  /**
   * A failure while collecting the activity is reported, and leaves the pull
   * request insert as the run's only insert.
   */
  lemma ActivityFailureKeepsPRWrite(
    config: Config, githubToken: string, ctx: Context, api: Api, bq: Warehouse, insertedAt: string,
    info: PRInfo, e: GitHubError)
    requires githubToken != ""
    requires GetPRInfo(api, ctx, None) == Success(info)
    requires bq.insert(config.datasetId, config.tableId, [PRRow(info, insertedAt)]) == None
    requires CollectComments(api, ctx, None) == Failure(e)
    ensures RunSpec(config, githubToken, ctx, api, bq, insertedAt).outcome == Failed(GitHubFailed(e))
    ensures Writes(RunSpec(config, githubToken, ctx, api, bq, insertedAt).trace)
            == [InsertCall(config.datasetId, config.tableId, [PRRow(info, insertedAt)])]
  {
    RunWrites(config, githubToken, ctx, api, bq, insertedAt);
  }

  /** A failed step is reported with the error it raised, unchanged. */
  lemma RunReportsFailingStep(
    config: Config, githubToken: string, ctx: Context, api: Api, bq: Warehouse, insertedAt: string)
    ensures githubToken != "" && GetPRInfo(api, ctx, None).Failure? ==>
            RunSpec(config, githubToken, ctx, api, bq, insertedAt).outcome
            == Failed(GitHubFailed(GetPRInfo(api, ctx, None).error))
    ensures githubToken != "" && GetPRInfo(api, ctx, None).Success? ==>
            var prRows := [PRRow(GetPRInfo(api, ctx, None).value, insertedAt)];
            var comments := CollectComments(api, ctx, None);
            (bq.insert(config.datasetId, config.tableId, prRows).Some? ==>
               RunSpec(config, githubToken, ctx, api, bq, insertedAt).outcome
               == Failed(InsertFailed(bq.insert(config.datasetId, config.tableId, prRows).value)))
            && (bq.insert(config.datasetId, config.tableId, prRows) == None && comments.Failure? ==>
               RunSpec(config, githubToken, ctx, api, bq, insertedAt).outcome == Failed(GitHubFailed(comments.error)))
            && (bq.insert(config.datasetId, config.tableId, prRows) == None && comments.Success? && comments.value != []
                && bq.insert(config.datasetId, config.commentsTableId, CommentRows(comments.value, insertedAt)).Some? ==>
               RunSpec(config, githubToken, ctx, api, bq, insertedAt).outcome
               == Failed(InsertFailed(bq.insert(config.datasetId, config.commentsTableId,
                                                CommentRows(comments.value, insertedAt)).value)))
  {
  }

  /** The run succeeds exactly when every step it reaches succeeds. */
  lemma RunDoneIff(config: Config, githubToken: string, ctx: Context, api: Api, bq: Warehouse, insertedAt: string)
    ensures RunSpec(config, githubToken, ctx, api, bq, insertedAt).outcome == Done
            <==> githubToken != ""
                 && GetPRInfo(api, ctx, None).Success?
                 && bq.insert(config.datasetId, config.tableId, [PRRow(GetPRInfo(api, ctx, None).value, insertedAt)]) == None
                 && CollectComments(api, ctx, None).Success?
                 && (CollectComments(api, ctx, None).value == []
                     || bq.insert(config.datasetId, config.commentsTableId,
                                  CommentRows(CollectComments(api, ctx, None).value, insertedAt)) == None)
  {
  }

  predicate IsActivityFetch(e: Event) { e.Fetch? && !e.request.PullsGet? }

  /**
   * Activity is fetched only after the pull request row was inserted, and only
   * when that insert succeeded.
   */
  lemma PRWriteBeforeActivityFetch(
    config: Config, githubToken: string, ctx: Context, api: Api, bq: Warehouse, insertedAt: string)
    ensures var t := RunSpec(config, githubToken, ctx, api, bq, insertedAt).trace;
      forall j :: 0 <= j < |t| && IsActivityFetch(t[j]) ==>
        1 < j && t[1].Write? && t[1].call.table == config.tableId
        && bq.insert(t[1].call.dataset, t[1].call.table, t[1].call.rows) == None
  {
    if githubToken != "" && GetPRInfo(api, ctx, None).Success? {
      var info := GetPRInfo(api, ctx, None).value;
      var n := ResolvePRNumber(None, ctx.payloadPRNumber).value;
      assert PRInfoRequests(ctx, None) == [PullsGet(ctx.owner, ctx.repo, n)];
    }
  }
}
