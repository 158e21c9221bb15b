/** The action's procedures, step by step as the action runs them: each sends its
    requests in order against the scripted forge and reports the effects it produced
    and whether it ended the run. */
module Dispatch {
  import opened Wrappers
  import opened Strings
  import opened Settings
  import opened Lookup
  import opened Flow
  import Branches
  import Recipients

  /** `list_pull_requests`: the filtered list query, retried once with credentials on
      401 or 404, then the status check. */
  method ListPullRequests(target: string, source: string, script: Script, passOnError: bool)
    returns (effects: seq<Effect>, listing: seq<PullRequest>, halt: Option<Exit>)
    ensures Outcome(effects, halt) == ListStage(target, source, script, passOnError)
    ensures listing == script.listing
  {
    effects := [Send(ListPulls(target, source, false))];
    var status := script.listStatus;
    if status == 401 || status == 404 {
      effects := effects + [Send(ListPulls(target, source, true))];
      status := script.retryStatus;
    }
    halt := None;
    if status != 200 {
      halt := AbortIfFail(ListCall, status, passOnError);
    }
    listing := script.listing;
  }

  /** `open_pull_request`: one creation request, expecting 201. */
  method OpenPullRequest(title: string, body: string, target: string, source: string,
                         isDraft: bool, canModify: bool, script: Script, passOnError: bool)
    returns (effects: seq<Effect>, halt: Option<Exit>)
    ensures Outcome(effects, halt) == OpenStage(title, body, target, source, isDraft, canModify, script, passOnError)
  {
    effects := [Send(CreatePull(title, body, target, source, isDraft, canModify))];
    halt := None;
    if script.writeStatus != 201 {
      halt := AbortIfFail(CreateCall, script.writeStatus, passOnError);
    }
  }

  /** `update_pull_request`: one update of the existing pull request, expecting 200. */
  method UpdatePullRequest(entry: PullRequest, title: string, body: string, target: string,
                           state: string, script: Script, passOnError: bool)
    returns (effects: seq<Effect>, halt: Option<Exit>)
    ensures Outcome(effects, halt) == UpdateStage(entry, title, body, target, state, script, passOnError)
  {
    var sentState := UpdateState(state);
    effects := [Send(UpdatePull(entry.number, title, body, target, sentState))];
    halt := None;
    if script.writeStatus != 200 {
      halt := AbortIfFail(UpdateCall, script.writeStatus, passOnError);
    }
  }

  /** `set_pull_request_groups`: the number, return code and address of the pull
      request a create or update answered with. */
  method SetPullRequestGroups(status: StatusCode, written: PullRequest) returns (effects: seq<Effect>)
    ensures effects == GroupOutputs(status, written)
  {
    var returnCode := ReturnCode(status);
    effects := [SetOutput("PULL_REQUEST_NUMBER", NumberValue(written.number))];
    effects := effects + [SetOutput("PULL_REQUEST_RETURN_CODE", Number(returnCode))];
    effects := effects + [SetOutput("PULL_REQUEST_URL", TextValue(written.htmlUrl))];
  }

  /** `add_assignees`: one request with every parsed assignee, expecting 201, then its
      return code. */
  method AddAssigneesTo(entry: PullRequest, assignees: Option<string>, status: StatusCode, passOnError: bool)
    returns (effects: seq<Effect>, halt: Option<Exit>)
    ensures Outcome(effects, halt) == AssigneesStage(entry, assignees, status, passOnError)
  {
    var names := Recipients.ParseIntoList(assignees);
    effects := [Send(AddAssignees(entry.number, names))];
    halt := None;
    if status != 201 {
      halt := AbortIfFail(AssigneesCall, status, passOnError);
      if halt.Some? {
        return;
      }
    }
    var returnCode := ReturnCode(status);
    effects := effects + [SetOutput("ASSIGNEES_RETURN_CODE", Number(returnCode))];
  }

  /** `add_reviewers`: one request carrying both reviewer lists, expecting 201, then its
      return code. */
  method AddReviewersTo(entry: PullRequest, reviewers: Option<string>, teamReviewers: Option<string>,
                        status: StatusCode, passOnError: bool)
    returns (effects: seq<Effect>, halt: Option<Exit>)
    ensures Outcome(effects, halt) == ReviewersStage(entry, reviewers, teamReviewers, status, passOnError)
  {
    var teams := Recipients.ParseIntoList(teamReviewers);
    var people := Recipients.ParseIntoList(reviewers);
    effects := [Send(RequestReviewers(entry.number, people, teams))];
    halt := None;
    if status != 201 {
      halt := AbortIfFail(ReviewersCall, status, passOnError);
      if halt.Some? {
        return;
      }
    }
    var returnCode := ReturnCode(status);
    effects := effects + [SetOutput("REVIEWERS_RETURN_CODE", Number(returnCode))];
  }

  /** `create_pull_request`: look the pull request up, pass, update or create it, and
      attach the recipients to the response. */
  method CreatePullRequest(source: string, target: string, body: string, title: string,
                           assignees: Option<string>, reviewers: Option<string>, teamReviewers: Option<string>,
                           isDraft: bool, canModify: bool, state: string, env: Env, script: Script)
    returns (effects: seq<Effect>, halt: Option<Exit>)
    ensures Outcome(effects, halt) ==
      CreateFlow(source, target, body, title, assignees, reviewers, teamReviewers,
                 isDraft, canModify, state, env, script)
  {
    var passOnError := IsSet(env.passOnError);
    var listing;
    effects, listing, halt := ListPullRequests(target, source, script, passOnError);
    if halt.Some? {
      return;
    }
    var entry := FindPullRequest(listing, source);

    if entry.Some? && IsSet(env.passIfExists) {
      return effects, Some(Success);
    }

    var sent: seq<Effect> := [];
    var stop: Option<Exit> := None;
    var wrote := false;
    if entry.Some? && IsSet(env.pullRequestUpdate) {
      sent, stop := UpdatePullRequest(entry.value, title, body, target, state, script, passOnError);
      wrote := true;
    } else if entry.None? {
      sent, stop := OpenPullRequest(title, body, target, source, isDraft, canModify, script, passOnError);
      wrote := true;
    }
    if !wrote {
      return effects, None;
    }
    var rest, restHalt := ReportAndAttach(sent, stop, script, assignees, reviewers, teamReviewers, passOnError);
    effects, halt := effects + rest, restHalt;
  }

  /** The rest of `create_pull_request` once the create or update request is sent: stop
      if its status was refused, report its outputs, and attach the recipients to a
      usable response. */
  method ReportAndAttach(sent: seq<Effect>, stop: Option<Exit>, script: Script, assignees: Option<string>,
                         reviewers: Option<string>, teamReviewers: Option<string>, passOnError: bool)
    returns (effects: seq<Effect>, halt: Option<Exit>)
    ensures Outcome(effects, halt) ==
      WriteStage(Outcome(sent, stop), script, assignees, reviewers, teamReviewers, passOnError)
  {
    effects, halt := sent, stop;
    if stop.Some? {
      return;
    }
    var outputs := SetPullRequestGroups(script.writeStatus, script.written);
    effects := effects + outputs;
    var response: Option<PullRequest> := None;
    if script.writeUsable {
      response := Some(script.written);
    }
    var attached, attachHalt := AttachRecipients(response, assignees, reviewers, teamReviewers, script, passOnError);
    effects, halt := effects + attached, attachHalt;
  }

  /** The end of `create_pull_request`: with a usable response, attach the assignees,
      then the reviewers and team reviewers. */
  method AttachRecipients(response: Option<PullRequest>, assignees: Option<string>, reviewers: Option<string>,
                          teamReviewers: Option<string>, script: Script, passOnError: bool)
    returns (effects: seq<Effect>, halt: Option<Exit>)
    ensures Outcome(effects, halt) ==
      RecipientsStage(response, assignees, reviewers, teamReviewers, script, passOnError)
  {
    effects, halt := [], None;
    if response.Some? && IsSet(assignees) {
      effects, halt := AddAssigneesTo(response.value, assignees, script.assigneesStatus, passOnError);
      if halt.Some? {
        return;
      }
    }
    if response.Some? && (IsSet(reviewers) || IsSet(teamReviewers)) {
      var sent, stop := AddReviewersTo(response.value, reviewers, teamReviewers, script.reviewersStatus, passOnError);
      effects, halt := effects + sent, stop;
    }
  }

  /** `main`: check the context, derive the configuration, resolve the source branch,
      take the early exits, and hand over to `CreatePullRequest`. The resulting trace
      and exit are those of `Run`. */
  method RunAction(env: Env, ctx: Context, script: Script) returns (effects: seq<Effect>, exit: Exit)
    ensures effects == Run(env, ctx, script).effects
    ensures exit == FinalExit(Run(env, ctx, script))
  {
    effects := [];
    if !IsSet(env.pullRequestToken) && !IsSet(env.githubToken) {
      return [], Abort(MissingVariable("GITHUB_TOKEN"));
    }
    if !IsSet(env.pullRequestRepository) && !IsSet(env.githubRepository) {
      return [], Abort(MissingVariable("GITHUB_REPOSITORY"));
    }
    if !IsSet(env.githubEventPath) {
      return [], Abort(MissingVariable("GITHUB_EVENT_PATH"));
    }
    if !ctx.eventFileExists {
      return [], Abort(EventFileMissing);
    }
    assert StartupError(env, ctx).None?;

    var pullRequestBranch := env.pullRequestBranch.GetOr(ctx.defaultBranch);

    var pullRequestDraft := false;
    if IsSet(env.pullRequestDraft) {
      pullRequestDraft := true;
    }

    var pullRequestState := env.pullRequestState.GetOr("open");
    if pullRequestState !in ["open", "closed"] {
      return [], Abort(InvalidState);
    }
    assert ValidatedState(env) == Some(pullRequestState);

    var maintainerCanModify := true;
    if IsSet(env.maintainerCantModify) {
      maintainerCanModify := false;
    }

    var fromBranch: string;
    if !IsSet(env.fromBranch) {
      fromBranch := Branches.NormaliseRef(ctx.eventRef);
    } else {
      fromBranch := env.fromBranch.value;
    }

    assert fromBranch == Source(env, ctx) && pullRequestBranch == Target(env, ctx);
    effects, exit := OpenFromBranch(env, fromBranch, pullRequestBranch, pullRequestDraft,
                                    maintainerCanModify, pullRequestState, script);
  }

  /** The end of `main`, once the source branch is known: it must be non-empty, differ
      from the target and pass the prefix filter before the pull request is created or
      updated. */
  method OpenFromBranch(env: Env, fromBranch: string, pullRequestBranch: string, pullRequestDraft: bool, maintainerCanModify: bool, pullRequestState: string,
                        script: Script)
    returns (effects: seq<Effect>, exit: Exit)
    requires pullRequestDraft == IsSet(env.pullRequestDraft)
    requires maintainerCanModify == !IsSet(env.maintainerCantModify)
    ensures effects == RunFrom(env, fromBranch, pullRequestBranch, pullRequestState, script).effects
    ensures exit == FinalExit(RunFrom(env, fromBranch, pullRequestBranch, pullRequestState, script))
  {
    effects := [];
    if fromBranch == [] {
      return [], Abort(NoSourceBranch);
    }
    if fromBranch == pullRequestBranch {
      return [], Success;
    }

    exit := Success;
    if PrefixAdmits(env, fromBranch) {
      var body := Body(env, fromBranch);
      var title := Title(env, fromBranch);
      var halt;
      effects, halt := CreatePullRequest(fromBranch, pullRequestBranch, body, title,
                                         env.assignees, env.reviewers, env.teamReviewers,
                                         pullRequestDraft, maintainerCanModify, pullRequestState, env, script);
      exit := halt.GetOr(Success);
    }
  }
}
