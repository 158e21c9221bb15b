/** The run's configuration as the action derives it from its environment, and the
    status-code conventions shared by every REST call. */
module Settings {
  import opened Wrappers
  import opened Strings
  import Branches

  /** The environment variables the action reads; `None` is an unset variable. */
  datatype Env = Env(
    pullRequestToken: Option<string>,       // PULL_REQUEST_TOKEN
    githubToken: Option<string>,            // GITHUB_TOKEN
    pullRequestRepository: Option<string>,  // PULL_REQUEST_REPOSITORY
    githubRepository: Option<string>,       // GITHUB_REPOSITORY
    githubEventPath: Option<string>,        // GITHUB_EVENT_PATH
    branchPrefix: Option<string>,           // BRANCH_PREFIX
    pullRequestBranch: Option<string>,      // PULL_REQUEST_BRANCH
    pullRequestDraft: Option<string>,       // PULL_REQUEST_DRAFT
    pullRequestState: Option<string>,       // PULL_REQUEST_STATE
    maintainerCantModify: Option<string>,   // MAINTAINER_CANT_MODIFY
    assignees: Option<string>,              // PULL_REQUEST_ASSIGNEES
    reviewers: Option<string>,              // PULL_REQUEST_REVIEWERS
    teamReviewers: Option<string>,          // PULL_REQUEST_TEAM_REVIEWERS
    fromBranch: Option<string>,             // PULL_REQUEST_FROM_BRANCH
    body: Option<string>,                   // PULL_REQUEST_BODY
    title: Option<string>,                  // PULL_REQUEST_TITLE
    passIfExists: Option<string>,           // PASS_IF_EXISTS
    pullRequestUpdate: Option<string>,      // PULL_REQUEST_UPDATE
    passOnError: Option<string>             // PASS_ON_ERROR
  )

  /** What the run learns from outside its environment: whether the event file exists,
      the `ref` its payload carries ("" when it has none), and the repository's
      default branch. */
  datatype Context = Context(eventFileExists: bool, eventRef: string, defaultBranch: string)

  /** A variable counts as set when it is present and not empty. */
  predicate IsSet(v: Option<string>)
    ensures v.None? ==> !IsSet(v)
    ensures v == Some("") ==> !IsSet(v)
    ensures IsSet(v) ==> |v.value| >= 1
  {
    v.Some? && v.value != []
  }

  /** The REST calls whose status the action checks. */
  datatype Call = ListCall | CreateCall | UpdateCall | AssigneesCall | ReviewersCall

  /** An HTTP status code. */
  type StatusCode = s: int | 100 <= s <= 599 witness 200

  /** Why a run stops with a non-zero exit. */
  datatype Failure =
    | MissingVariable(name: string)
    | EventFileMissing
    | InvalidState
    | NoSourceBranch
    | ApiError(call: Call, status: StatusCode)

  /** How a run ends: exit status 0, or an abort with a message (exit status 1). */
  datatype Exit = Success | Abort(failure: Failure)

  function ExitCode(e: Exit): (code: int)
    ensures code == 0 <==> e.Success?
  {
    if e.Success? then 0 else 1
  }

  /** The first missing piece of context, checked in the order the action reads them:
      the token, the repository, the event path, the event file. */
  function StartupError(env: Env, ctx: Context): (r: Option<Failure>)
    ensures r.None? <==>
      (IsSet(env.pullRequestToken) || IsSet(env.githubToken)) &&
      (IsSet(env.pullRequestRepository) || IsSet(env.githubRepository)) &&
      IsSet(env.githubEventPath) && ctx.eventFileExists
    ensures r.Some? ==> r.value.MissingVariable? || r.value.EventFileMissing?
    ensures !IsSet(env.pullRequestToken) && !IsSet(env.githubToken) ==>
      r == Some(MissingVariable("GITHUB_TOKEN"))
    ensures (IsSet(env.pullRequestToken) || IsSet(env.githubToken)) &&
            !IsSet(env.pullRequestRepository) && !IsSet(env.githubRepository) ==>
      r == Some(MissingVariable("GITHUB_REPOSITORY"))
    ensures (IsSet(env.pullRequestToken) || IsSet(env.githubToken)) &&
            (IsSet(env.pullRequestRepository) || IsSet(env.githubRepository)) &&
            !IsSet(env.githubEventPath) ==>
      r == Some(MissingVariable("GITHUB_EVENT_PATH"))
    ensures r == Some(EventFileMissing) <==>
      (IsSet(env.pullRequestToken) || IsSet(env.githubToken)) &&
      (IsSet(env.pullRequestRepository) || IsSet(env.githubRepository)) &&
      IsSet(env.githubEventPath) && !ctx.eventFileExists
  {
    if !IsSet(env.pullRequestToken) && !IsSet(env.githubToken) then Some(MissingVariable("GITHUB_TOKEN"))
    else if !IsSet(env.pullRequestRepository) && !IsSet(env.githubRepository) then Some(MissingVariable("GITHUB_REPOSITORY"))
    else if !IsSet(env.githubEventPath) then Some(MissingVariable("GITHUB_EVENT_PATH"))
    else if !ctx.eventFileExists then Some(EventFileMissing)
    else None
  }

  /** The target branch: PULL_REQUEST_BRANCH whenever it is present, even empty, and
      the repository's default branch otherwise. */
  function Target(env: Env, ctx: Context): (r: string)
    ensures env.pullRequestBranch.None? ==> r == ctx.defaultBranch
    ensures env.pullRequestBranch.Some? ==> r == env.pullRequestBranch.value
  {
    env.pullRequestBranch.GetOr(ctx.defaultBranch)
  }

  /** The desired state, PULL_REQUEST_STATE or "open" by default, when it is one of
      "open" and "closed"; nothing otherwise (an empty value included). */
  function ValidatedState(env: Env): (r: Option<string>)
    ensures r.Some? ==> r.value == "open" || r.value == "closed"
    ensures env.pullRequestState.None? ==> r == Some("open")
    ensures env.pullRequestState.Some? ==>
      (r.Some? <==> env.pullRequestState.value in ["open", "closed"]) &&
      (r.Some? ==> r.value == env.pullRequestState.value)
  {
    var state := env.pullRequestState.GetOr("open");
    if state in ["open", "closed"] then Some(state) else None
  }

  /** The state sent when updating: the configured state, or "open" when it is empty. */
  function UpdateState(state: string): (r: string)
    ensures r != []
    ensures state != [] ==> r == state
    ensures state == [] ==> r == "open"
  {
    if state == [] then "open" else state
  }

  /** A validated state is sent as it is. */
  lemma UpdateStateOfValidated(env: Env)
    requires ValidatedState(env).Some?
    ensures UpdateState(ValidatedState(env).value) == ValidatedState(env).value
  {
  }

  /** The source branch: PULL_REQUEST_FROM_BRANCH verbatim when set, otherwise the
      branch normalised from the event's ref. */
  function Source(env: Env, ctx: Context): (r: string)
    ensures !IsSet(env.fromBranch) ==> r == Branches.NormaliseRef(ctx.eventRef)
    ensures IsSet(env.fromBranch) ==> r == env.fromBranch.value && r != []
    ensures !IsSet(env.fromBranch) && r != [] ==> r[0] != '/' && r[|r| - 1] != '/'
  {
    if !IsSet(env.fromBranch) then Branches.NormaliseRef(ctx.eventRef) else env.fromBranch.value
  }

  /** The branch prefix filter (BRANCH_PREFIX, "" when unset) lets `source` through. */
  predicate PrefixAdmits(env: Env, source: string)
    ensures !IsSet(env.branchPrefix) ==> PrefixAdmits(env, source)
    ensures IsSet(env.branchPrefix) ==>
      (PrefixAdmits(env, source) <==> |env.branchPrefix.value| <= |source| &&
                                      source[..|env.branchPrefix.value|] == env.branchPrefix.value)
  {
    var prefix := env.branchPrefix.GetOr("");
    prefix == [] || StartsWith(source, prefix)
  }

  /** The pull request body: PULL_REQUEST_BODY when present, else a generated text
      naming the source branch. */
  function Body(env: Env, source: string): (r: string)
    ensures env.body.Some? ==> r == env.body.value
    ensures env.body.None? ==> |source| <= |r| && r[|r| - |source|..] == source
  {
    env.body.GetOr("This is an automated pull request to update from branch " + source)
  }

  /** The pull request title: PULL_REQUEST_TITLE when present, else one naming the
      source branch. */
  function Title(env: Env, source: string): (r: string)
    ensures env.title.Some? ==> r == env.title.value
    ensures env.title.None? ==> |source| <= |r| && r[|r| - |source|..] == source
  {
    env.title.GetOr("Update from " + source)
  }

  /** The reported return code: 0 for 201 Created, and every other status as it is. */
  function ReturnCode(status: StatusCode): (r: int)
    ensures r == 0 <==> status == 201
    ensures status != 201 ==> r == status
  {
    if status == 201 then 0 else status
  }

  /** The policy for a call that did not get its expected status: with PASS_ON_ERROR
      set the run goes on, otherwise it aborts with the call and its status. */
  function AbortIfFail(call: Call, status: StatusCode, passOnError: bool): (halt: Option<Exit>)
    ensures halt.None? <==> passOnError
    ensures halt.Some? ==> halt.value == Abort(ApiError(call, status))
  {
    if passOnError then None else Some(Abort(ApiError(call, status)))
  }

  /** The status a call must get to count as succeeded. */
  function Expected(call: Call): (r: StatusCode)
    ensures r == 200 <==> call.ListCall? || call.UpdateCall?
    ensures r == 200 || r == 201
  {
    match call
    case ListCall => 200
    case CreateCall => 201
    case UpdateCall => 200
    case AssigneesCall => 201
    case ReviewersCall => 201
  }

  /** What a call's status means for the run: nothing when it is the expected one,
      otherwise whatever the error policy decides. */
  function CheckStatus(call: Call, status: StatusCode, passOnError: bool): (halt: Option<Exit>)
    ensures halt.Some? <==> status != Expected(call) && !passOnError
    ensures halt.Some? ==> halt.value == Abort(ApiError(call, status))
  {
    if status == Expected(call) then None else AbortIfFail(call, status, passOnError)
  }

  /** A successful update is reported with return code 200 rather than 0, since only 201
      maps to 0. */
  lemma SuccessfulUpdateReports200()
    ensures CheckStatus(UpdateCall, 200, false).None? && ReturnCode(200) == 200
    ensures CheckStatus(CreateCall, 201, false).None? && ReturnCode(201) == 0
  {
  }
}
