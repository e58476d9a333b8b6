/**
 * The pull request mapper and the activity normaliser of src/github.ts.
 * The hosting API is an input: each of its four calls is a function from
 * (owner, repo, number) to the fully paginated answer or the error it throws.
 */
module GitHub {
  import opened Wrappers

  /** The errors the two functions throw; the hosting API's own errors keep their message. */
  datatype GitHubError = MissingPRNumberForInfo | MissingPRNumberForComments | ApiError(apiMessage: string)
  {
    /** The thrown error's `message`. */
    function Message(): string
    {
      match this
      case MissingPRNumberForInfo =>
        "No pull_request number found. This action must be triggered by a pull_request event or provided with a pr_number input."
      case MissingPRNumberForComments => "No pull_request number found."
      case ApiError(m) => m
    }
  }

  /** The row shape of the pull request table. */
  datatype PRInfo = PRInfo(
    repository: string,
    pr_number: int,
    branch_name: Option<string>,
    author: Option<string>,
    created_at: Option<string>,
    latest_commit: Option<string>,
    commit_count: Option<int>)

  datatype CommentType = IssueComment | ReviewComment | Review
  {
    /** The value stored in the comment_type column. */
    function Name(): string
    {
      match this
      case IssueComment => "issue_comment"
      case ReviewComment => "review_comment"
      case Review => "review"
    }
  }

  /** The row shape of the comments table: one per comment, inline comment or review. */
  datatype PRComment = PRComment(
    repository: string,
    pr_number: int,
    comment_id: int,
    comment_type: CommentType,
    comment_author: Option<string>,
    comment_time: Option<string>)

  // Upstream records, reduced to the fields the mapping reads; None is null or undefined.
  datatype UserData = UserData(login: Option<string>)
  datatype HeadData = HeadData(branch: Option<string>, sha: Option<string>)
  datatype PullData = PullData(
    number: int, head: HeadData, user: UserData, created_at: Option<string>, commits: Option<int>)
  datatype CommentData = CommentData(id: int, user: Option<UserData>, created_at: string)
  datatype ReviewData = ReviewData(id: int, user: Option<UserData>, submitted_at: Option<string>)

  /** The triggering event: the repository and the payload's pull_request.number, if any. */
  datatype Context = Context(owner: string, repo: string, payloadPRNumber: Option<int>)

  /** A call made to the hosting API. */
  datatype Request =
    | PullsGet(owner: string, repo: string, number: int)
    | ListIssueComments(owner: string, repo: string, number: int)
    | ListReviewComments(owner: string, repo: string, number: int)
    | ListReviews(owner: string, repo: string, number: int)

  /** What the hosting API answers to each call; Failure carries the thrown error's message. */
  datatype Api = Api(
    pullsGet: (string, string, int) -> Result<PullData, string>,
    listIssueComments: (string, string, int) -> Result<seq<CommentData>, string>,
    listReviewComments: (string, string, int) -> Result<seq<CommentData>, string>,
    listReviews: (string, string, int) -> Result<seq<ReviewData>, string>)

  // JavaScript truthiness of the values the mapping coerces with `|| null`.
  predicate FalsyString(v: Option<string>) { v == None || v == Some("") }
  predicate FalsyNumber(v: Option<int>) { v == None || v == Some(0) }
  predicate NoLogin(user: Option<UserData>) { user == None || FalsyString(user.value.login) }

  /** `v || null` on a string-valued field. */
  function OrNull(v: Option<string>): (r: Option<string>)
    ensures r == None <==> FalsyString(v)
    ensures r != None ==> r == v
  {
    if FalsyString(v) then None else v
  }

  /** `v || null` on a number-valued field. */
  function NumberOrNull(v: Option<int>): (r: Option<int>)
    ensures r == None <==> FalsyNumber(v)
    ensures r != None ==> r == v
  {
    if FalsyNumber(v) then None else v
  }

  /** `user?.login || null`. */
  function LoginOrNull(user: Option<UserData>): (r: Option<string>)
    ensures r == None <==> NoLogin(user)
    ensures r != None ==> r == user.value.login
  {
    if user == None then None else OrNull(user.value.login)
  }

  function Repository(owner: string, repo: string): string
  {
    owner + "/" + repo
  }

  /** `prNumberOverride || payload.pull_request?.number`, None when the result is falsy. */
  function ResolvePRNumber(override: Option<int>, payload: Option<int>): (r: Option<int>)
    ensures r.Some? <==> !FalsyNumber(override) || !FalsyNumber(payload)
    ensures r.Some? ==> r.value != 0 && (r == override || r == payload)
    ensures !FalsyNumber(override) ==> r == override
  {
    NumberOrNull(if FalsyNumber(override) then payload else override)
  }

  /** The object literal getPRInfo returns for a fetched pull request. */
  function PRInfoOf(owner: string, repo: string, pr: PullData): (info: PRInfo)
    ensures info.repository == owner + "/" + repo && info.pr_number == pr.number
    ensures info.branch_name == None <==> FalsyString(pr.head.branch)
    ensures info.author == None <==> FalsyString(pr.user.login)
    ensures info.created_at == None <==> FalsyString(pr.created_at)
    ensures info.latest_commit == None <==> FalsyString(pr.head.sha)
    ensures info.commit_count == None <==> FalsyNumber(pr.commits)
    ensures info.branch_name != None ==> info.branch_name == pr.head.branch
    ensures info.author != None ==> info.author == pr.user.login
    ensures info.created_at != None ==> info.created_at == pr.created_at
    ensures info.latest_commit != None ==> info.latest_commit == pr.head.sha
    ensures info.commit_count != None ==> info.commit_count == pr.commits
  {
    PRInfo(
      Repository(owner, repo),
      pr.number,
      OrNull(pr.head.branch),
      OrNull(pr.user.login),
      OrNull(pr.created_at),
      OrNull(pr.head.sha),
      NumberOrNull(pr.commits))
  }

  /** getPRInfo: resolve the number, fetch the pull request, map it. */
  function GetPRInfo(api: Api, ctx: Context, override: Option<int>): (r: Result<PRInfo, GitHubError>)
    ensures FalsyNumber(override) && FalsyNumber(ctx.payloadPRNumber) ==> r == Failure(MissingPRNumberForInfo)
    ensures r.Success? <==>
              ResolvePRNumber(override, ctx.payloadPRNumber).Some?
              && api.pullsGet(ctx.owner, ctx.repo, ResolvePRNumber(override, ctx.payloadPRNumber).value).Success?
    ensures r.Success? ==> r.value.repository == ctx.owner + "/" + ctx.repo
    ensures var n := ResolvePRNumber(override, ctx.payloadPRNumber);
      n.Some? && api.pullsGet(ctx.owner, ctx.repo, n.value).Failure? ==>
        r == Failure(ApiError(api.pullsGet(ctx.owner, ctx.repo, n.value).error))
    ensures r.Success? ==>
      var n := ResolvePRNumber(override, ctx.payloadPRNumber).value;
      r.value == PRInfoOf(ctx.owner, ctx.repo, api.pullsGet(ctx.owner, ctx.repo, n).value)
  {
    match ResolvePRNumber(override, ctx.payloadPRNumber)
    case None => Failure(MissingPRNumberForInfo)
    case Some(n) =>
      match api.pullsGet(ctx.owner, ctx.repo, n)
      case Failure(e) => Failure(ApiError(e))
      case Success(pr) => Success(PRInfoOf(ctx.owner, ctx.repo, pr))
  }

  /** The hosting API calls getPRInfo makes. */
  function PRInfoRequests(ctx: Context, override: Option<int>): (reqs: seq<Request>)
    ensures |reqs| <= 1
    ensures reqs == [] <==> ResolvePRNumber(override, ctx.payloadPRNumber).None?
    ensures forall q :: q in reqs ==> q.PullsGet? && q.owner == ctx.owner && q.repo == ctx.repo
  {
    match ResolvePRNumber(override, ctx.payloadPRNumber)
    case None => []
    case Some(n) => [PullsGet(ctx.owner, ctx.repo, n)]
  }

  /** The record pushed for an issue comment or an inline review comment. */
  function CommentRecord(kind: CommentType, repository: string, n: int, c: CommentData): (rec: PRComment)
    requires kind != Review
    ensures rec.repository == repository && rec.pr_number == n
    ensures rec.comment_id == c.id && rec.comment_type == kind
    ensures rec.comment_author == None <==> NoLogin(c.user)
    ensures rec.comment_author != None ==> rec.comment_author == c.user.value.login
    ensures rec.comment_time == Some(c.created_at)
  {
    PRComment(repository, n, c.id, kind, LoginOrNull(c.user), Some(c.created_at))
  }

  /** The record pushed for a review. */
  function ReviewRecord(repository: string, n: int, r: ReviewData): (rec: PRComment)
    ensures rec.repository == repository && rec.pr_number == n
    ensures rec.comment_id == r.id && rec.comment_type == Review
    ensures rec.comment_author == None <==> NoLogin(r.user)
    ensures rec.comment_author != None ==> rec.comment_author == r.user.value.login
    ensures rec.comment_time == None <==> FalsyString(r.submitted_at)
    ensures rec.comment_time != None ==> rec.comment_time == r.submitted_at
  {
    PRComment(repository, n, r.id, Review, LoginOrNull(r.user), OrNull(r.submitted_at))
  }

  function CommentRecords(kind: CommentType, repository: string, n: int, cs: seq<CommentData>): seq<PRComment>
    requires kind != Review
  {
    seq(|cs|, i requires 0 <= i < |cs| => CommentRecord(kind, repository, n, cs[i]))
  }

  function ReviewRecords(repository: string, n: int, rs: seq<ReviewData>): seq<PRComment>
  {
    seq(|rs|, i requires 0 <= i < |rs| => ReviewRecord(repository, n, rs[i]))
  }

  /** All issue comments, then all inline review comments, then all reviews. */
  function Normalize(repository: string, n: int, ics: seq<CommentData>, rcs: seq<CommentData>, rvs: seq<ReviewData>)
    : (r: seq<PRComment>)
    ensures |r| == |ics| + |rcs| + |rvs|
  {
    CommentRecords(IssueComment, repository, n, ics)
    + CommentRecords(ReviewComment, repository, n, rcs)
    + ReviewRecords(repository, n, rvs)
  }

  /** What getPRComments returns or throws. */
  function CollectComments(api: Api, ctx: Context, override: Option<int>): (r: Result<seq<PRComment>, GitHubError>)
    ensures FalsyNumber(override) && FalsyNumber(ctx.payloadPRNumber) ==> r == Failure(MissingPRNumberForComments)
  {
    match ResolvePRNumber(override, ctx.payloadPRNumber)
    case None => Failure(MissingPRNumberForComments)
    case Some(n) =>
      match api.listIssueComments(ctx.owner, ctx.repo, n)
      case Failure(e) => Failure(ApiError(e))
      case Success(ics) =>
        match api.listReviewComments(ctx.owner, ctx.repo, n)
        case Failure(e) => Failure(ApiError(e))
        case Success(rcs) =>
          match api.listReviews(ctx.owner, ctx.repo, n)
          case Failure(e) => Failure(ApiError(e))
          case Success(rvs) => Success(Normalize(Repository(ctx.owner, ctx.repo), n, ics, rcs, rvs))
  }

  /** The hosting API calls getPRComments makes, in order; it stops at the first that throws. */
  function CommentRequests(api: Api, ctx: Context, override: Option<int>): (reqs: seq<Request>)
    ensures |reqs| <= 3
    ensures reqs == [] <==> ResolvePRNumber(override, ctx.payloadPRNumber).None?
    ensures forall i :: 0 <= i < |reqs| ==>
              reqs[i].owner == ctx.owner && reqs[i].repo == ctx.repo
              && (i == 0 <==> reqs[i].ListIssueComments?)
              && (i == 1 <==> reqs[i].ListReviewComments?)
              && (i == 2 <==> reqs[i].ListReviews?)
  {
    match ResolvePRNumber(override, ctx.payloadPRNumber)
    case None => []
    case Some(n) =>
      [ListIssueComments(ctx.owner, ctx.repo, n)]
      + if api.listIssueComments(ctx.owner, ctx.repo, n).Failure? then []
        else
          [ListReviewComments(ctx.owner, ctx.repo, n)]
          + if api.listReviewComments(ctx.owner, ctx.repo, n).Failure? then []
            else [ListReviews(ctx.owner, ctx.repo, n)]
  }

  /** getPRComments: three fetches, each followed by a loop that pushes one record per item. */
  method GetPRComments(api: Api, ctx: Context, override: Option<int>)
    returns (r: Result<seq<PRComment>, GitHubError>, ghost requests: seq<Request>)
    ensures r == CollectComments(api, ctx, override)
    ensures requests == CommentRequests(api, ctx, override)
  {
    var owner, repo := ctx.owner, ctx.repo;
    requests := [];
    var resolved := ResolvePRNumber(override, ctx.payloadPRNumber);
    if resolved.None? {
      r := Failure(MissingPRNumberForComments);
      return;
    }
    var prNumber := resolved.value;
    var repository := Repository(owner, repo);
    var comments: seq<PRComment> := [];

    // 1. Issue comments
    var issueComments := api.listIssueComments(owner, repo, prNumber);
    requests := requests + [ListIssueComments(owner, repo, prNumber)];
    if issueComments.Failure? {
      r := Failure(ApiError(issueComments.error));
      return;
    }
    var ics := issueComments.value;
    for i := 0 to |ics|
      invariant comments == CommentRecords(IssueComment, repository, prNumber, ics[..i])
    {
      comments := comments + [CommentRecord(IssueComment, repository, prNumber, ics[i])];
    }
    assert ics[..|ics|] == ics;

    // 2. Review comments
    var reviewComments := api.listReviewComments(owner, repo, prNumber);
    requests := requests + [ListReviewComments(owner, repo, prNumber)];
    if reviewComments.Failure? {
      r := Failure(ApiError(reviewComments.error));
      return;
    }
    var rcs := reviewComments.value;
    for j := 0 to |rcs|
      invariant comments == CommentRecords(IssueComment, repository, prNumber, ics)
                             + CommentRecords(ReviewComment, repository, prNumber, rcs[..j])
    {
      comments := comments + [CommentRecord(ReviewComment, repository, prNumber, rcs[j])];
    }
    assert rcs[..|rcs|] == rcs;

    // 3. Reviews
    var reviews := api.listReviews(owner, repo, prNumber);
    requests := requests + [ListReviews(owner, repo, prNumber)];
    if reviews.Failure? {
      r := Failure(ApiError(reviews.error));
      return;
    }
    var rvs := reviews.value;
    for k := 0 to |rvs|
      invariant comments == CommentRecords(IssueComment, repository, prNumber, ics)
                             + CommentRecords(ReviewComment, repository, prNumber, rcs)
                             + ReviewRecords(repository, prNumber, rvs[..k])
    {
      comments := comments + [ReviewRecord(repository, prNumber, rvs[k])];
    }
    assert rvs[..|rvs|] == rvs;

    r := Success(comments);
  }

  /** The groups keep their fixed order and each group keeps the order of its source list. */
  lemma NormalizeOrder(repository: string, n: int, ics: seq<CommentData>, rcs: seq<CommentData>, rvs: seq<ReviewData>)
    ensures var r := Normalize(repository, n, ics, rcs, rvs);
      (forall i :: 0 <= i < |ics| ==> r[i] == CommentRecord(IssueComment, repository, n, ics[i]))
      && (forall i :: 0 <= i < |rcs| ==> r[|ics| + i] == CommentRecord(ReviewComment, repository, n, rcs[i]))
      && (forall i :: 0 <= i < |rvs| ==> r[|ics| + |rcs| + i] == ReviewRecord(repository, n, rvs[i]))
  {
  }

  /** Field provenance of every normalised record, stated against the upstream lists. */
  lemma NormalizeFields(repository: string, n: int, ics: seq<CommentData>, rcs: seq<CommentData>, rvs: seq<ReviewData>)
    ensures var r := Normalize(repository, n, ics, rcs, rvs);
      (forall i :: 0 <= i < |r| ==> r[i].repository == repository && r[i].pr_number == n)
      && (forall i :: 0 <= i < |r| ==>
            (r[i].comment_type == IssueComment <==> i < |ics|)
            && (r[i].comment_type == ReviewComment <==> |ics| <= i < |ics| + |rcs|)
            && (r[i].comment_type == Review <==> |ics| + |rcs| <= i))
      && (forall i :: 0 <= i < |ics| ==>
            r[i].comment_id == ics[i].id
            && (r[i].comment_author == None <==> NoLogin(ics[i].user))
            && (r[i].comment_author != None ==> r[i].comment_author == ics[i].user.value.login)
            && r[i].comment_time == Some(ics[i].created_at))
      && (forall i :: 0 <= i < |rcs| ==>
            r[|ics| + i].comment_id == rcs[i].id
            && (r[|ics| + i].comment_author == None <==> NoLogin(rcs[i].user))
            && (r[|ics| + i].comment_author != None ==> r[|ics| + i].comment_author == rcs[i].user.value.login)
            && r[|ics| + i].comment_time == Some(rcs[i].created_at))
      && (forall i :: 0 <= i < |rvs| ==>
            r[|ics| + |rcs| + i].comment_id == rvs[i].id
            && (r[|ics| + |rcs| + i].comment_author == None <==> NoLogin(rvs[i].user))
            && (r[|ics| + |rcs| + i].comment_author != None ==> r[|ics| + |rcs| + i].comment_author == rvs[i].user.value.login)
            && (r[|ics| + |rcs| + i].comment_time == None <==> FalsyString(rvs[i].submitted_at))
            && (r[|ics| + |rcs| + i].comment_time != None ==> r[|ics| + |rcs| + i].comment_time == rvs[i].submitted_at))
  {
  }

  /** With neither an override nor a payload number both functions throw and call nothing. */
  lemma MissingPRNumberNoRequest(api: Api, ctx: Context, override: Option<int>)
    requires FalsyNumber(override) && FalsyNumber(ctx.payloadPRNumber)
    ensures GetPRInfo(api, ctx, override) == Failure(MissingPRNumberForInfo)
    ensures PRInfoRequests(ctx, override) == []
    ensures CollectComments(api, ctx, override) == Failure(MissingPRNumberForComments)
    ensures CommentRequests(api, ctx, override) == []
  {
  }

  /**
   * The pull request is fetched by the resolved number, but the row takes the
   * number of the fetched object, while every comment record takes the resolved number.
   */
  lemma PRNumberProvenance(api: Api, ctx: Context, override: Option<int>, n: int)
    requires ResolvePRNumber(override, ctx.payloadPRNumber) == Some(n)
    ensures PRInfoRequests(ctx, override) == [PullsGet(ctx.owner, ctx.repo, n)]
    ensures GetPRInfo(api, ctx, override).Success?
            <==> api.pullsGet(ctx.owner, ctx.repo, n).Success?
    ensures GetPRInfo(api, ctx, override).Success? ==>
            GetPRInfo(api, ctx, override).value.pr_number == api.pullsGet(ctx.owner, ctx.repo, n).value.number
            && GetPRInfo(api, ctx, override).value.repository == ctx.owner + "/" + ctx.repo
    ensures CollectComments(api, ctx, override).Success? ==>
            forall c :: c in CollectComments(api, ctx, override).value ==>
              c.pr_number == n && c.repository == ctx.owner + "/" + ctx.repo
  {
  }

  /**
   * getPRComments succeeds exactly when the number resolves and all three fetches
   * succeed; otherwise it reports the first failure and returns no partial list.
   */
  lemma CollectCommentsAllOrNothing(api: Api, ctx: Context, override: Option<int>, n: int)
    requires ResolvePRNumber(override, ctx.payloadPRNumber) == Some(n)
    ensures CollectComments(api, ctx, override).Success?
            <==> api.listIssueComments(ctx.owner, ctx.repo, n).Success?
                 && api.listReviewComments(ctx.owner, ctx.repo, n).Success?
                 && api.listReviews(ctx.owner, ctx.repo, n).Success?
    ensures api.listIssueComments(ctx.owner, ctx.repo, n).Failure? ==>
            CollectComments(api, ctx, override) == Failure(ApiError(api.listIssueComments(ctx.owner, ctx.repo, n).error))
            && CommentRequests(api, ctx, override) == [ListIssueComments(ctx.owner, ctx.repo, n)]
    ensures api.listIssueComments(ctx.owner, ctx.repo, n).Success?
            && api.listReviewComments(ctx.owner, ctx.repo, n).Failure? ==>
            CollectComments(api, ctx, override) == Failure(ApiError(api.listReviewComments(ctx.owner, ctx.repo, n).error))
            && CommentRequests(api, ctx, override)
               == [ListIssueComments(ctx.owner, ctx.repo, n), ListReviewComments(ctx.owner, ctx.repo, n)]
    ensures api.listIssueComments(ctx.owner, ctx.repo, n).Success?
            && api.listReviewComments(ctx.owner, ctx.repo, n).Success? ==>
            CommentRequests(api, ctx, override)
            == [ListIssueComments(ctx.owner, ctx.repo, n), ListReviewComments(ctx.owner, ctx.repo, n),
                ListReviews(ctx.owner, ctx.repo, n)]
    ensures api.listIssueComments(ctx.owner, ctx.repo, n).Success?
            && api.listReviewComments(ctx.owner, ctx.repo, n).Success?
            && api.listReviews(ctx.owner, ctx.repo, n).Failure? ==>
            CollectComments(api, ctx, override) == Failure(ApiError(api.listReviews(ctx.owner, ctx.repo, n).error))
    ensures api.listIssueComments(ctx.owner, ctx.repo, n).Success?
            && api.listReviewComments(ctx.owner, ctx.repo, n).Success?
            && api.listReviews(ctx.owner, ctx.repo, n).Success? ==>
            CollectComments(api, ctx, override)
            == Success(Normalize(ctx.owner + "/" + ctx.repo, n,
                                 api.listIssueComments(ctx.owner, ctx.repo, n).value,
                                 api.listReviewComments(ctx.owner, ctx.repo, n).value,
                                 api.listReviews(ctx.owner, ctx.repo, n).value))
  {
  }

  /** Empty activity of every kind gives an empty list, not an error. */
  lemma NoActivityNoRecords(api: Api, ctx: Context, override: Option<int>, n: int)
    requires ResolvePRNumber(override, ctx.payloadPRNumber) == Some(n)
    requires api.listIssueComments(ctx.owner, ctx.repo, n) == Success([])
    requires api.listReviewComments(ctx.owner, ctx.repo, n) == Success([])
    requires api.listReviews(ctx.owner, ctx.repo, n) == Success([])
    ensures CollectComments(api, ctx, override) == Success([])
  {
  }

  /** Two issue comments, one inline comment and one review give four records in that order. */
  lemma FourRecordScenario(repository: string, n: int, ics: seq<CommentData>, rcs: seq<CommentData>, rvs: seq<ReviewData>)
    requires |ics| == 2 && |rcs| == 1 && |rvs| == 1
    requires ics[0].id != ics[1].id
    ensures var r := Normalize(repository, n, ics, rcs, rvs);
      |r| == 4
      && [r[0].comment_type.Name(), r[1].comment_type.Name(), r[2].comment_type.Name(), r[3].comment_type.Name()]
         == ["issue_comment", "issue_comment", "review_comment", "review"]
      && r[0].comment_id != r[1].comment_id
      && r[2].comment_id == rcs[0].id && r[3].comment_id == rvs[0].id
  {
  }
}
