/** What a run of the action does, as an ordered trace of REST requests and outputs
    ending in an exit, for a given environment, context and set of forge responses. */
module Flow {
  import opened Wrappers
  import opened Settings
  import opened Lookup
  import Recipients

  /** The REST requests the action sends. */
  datatype Request =
    | ListPulls(base: string, head: string, authenticated: bool)
    | CreatePull(title: string, body: string, base: string, head: string, draft: bool, maintainerCanModify: bool)
    | UpdatePull(number: Option<int>, title: string, body: string, base: string, state: string)
    | AddAssignees(issue: Option<int>, assignees: seq<string>)
    | RequestReviewers(pull: Option<int>, reviewers: seq<string>, teamReviewers: seq<string>)

  /** A value written to the run's outputs; `NoneValue` is Python's `None`. */
  datatype OutputValue = Number(n: int) | Text(s: string) | NoneValue

  /** One externally visible step: a request, or an output written (to both the
      environment file and the output file). */
  datatype Effect = Send(request: Request) | SetOutput(name: string, value: OutputValue)

  /** The forge's answers, one per call the action can make: the status of the first
      list query, of its authenticated retry, the listing it returns, the status of the
      create or update call, whether that response is usable and the descriptor it
      carries, and the statuses of the assignees and reviewers calls. */
  datatype Script = Script(
    listStatus: StatusCode,
    retryStatus: StatusCode,
    listing: seq<PullRequest>,
    writeStatus: StatusCode,
    writeUsable: bool,
    written: PullRequest,
    assigneesStatus: StatusCode,
    reviewersStatus: StatusCode)

  /** A stretch of a run: its effects in order, and the exit it ended with, if any. */
  datatype Outcome = Outcome(effects: seq<Effect>, halt: Option<Exit>)

  const Continue: Outcome := Outcome([], None)

  /** `first` followed by `next`, unless `first` ended the run. */
  function Then(first: Outcome, next: Outcome): (r: Outcome)
    ensures first.halt.Some? ==> r == first
    ensures first.halt.None? ==> r.effects == first.effects + next.effects && r.halt == next.halt
  {
    if first.halt.Some? then first else Outcome(first.effects + next.effects, next.halt)
  }

  /** The exit status of a whole run: a run that was not stopped ends successfully. */
  function FinalExit(o: Outcome): Exit {
    o.halt.GetOr(Success)
  }

  function NumberValue(n: Option<int>): OutputValue {
    if n.Some? then Number(n.value) else NoneValue
  }

  function TextValue(s: Option<string>): OutputValue {
    if s.Some? then Text(s.value) else NoneValue
  }

  predicate IsWrite(e: Effect) {
    e.Send? && (e.request.CreatePull? || e.request.UpdatePull?)
  }

  /** The number of create and update requests among `effects`. */
  function Writes(effects: seq<Effect>): nat {
    if effects == [] then 0 else (if IsWrite(effects[0]) then 1 else 0) + Writes(effects[1..])
  }

  lemma {:induction false} WritesAppend(a: seq<Effect>, b: seq<Effect>)
    ensures Writes(a + b) == Writes(a) + Writes(b)
  {
    if a == [] {
      assert a + b == b;
    } else {
      assert (a + b)[1..] == a[1..] + b;
      WritesAppend(a[1..], b);
    }
  }

  // ---------------------------------------------------------------------------
  // The stages of a run

  /** The retry rule: only a 401 or 404 answer to the first list query is retried. */
  predicate Retried(script: Script) {
    script.listStatus == 401 || script.listStatus == 404
  }

  /** The status the listing was finally obtained with. */
  function ListStatus(script: Script): StatusCode {
    if Retried(script) then script.retryStatus else script.listStatus
  }

  /** The list queries: unauthenticated first, then once with credentials after a 401
      or 404. */
  function ListCalls(target: string, source: string, script: Script): seq<Effect> {
    [Send(ListPulls(target, source, false))]
    + (if Retried(script) then [Send(ListPulls(target, source, true))] else [])
  }

  /** `list_pull_requests`: the list queries, ending the run when the final status is
      not 200 and PASS_ON_ERROR is unset. */
  function ListStage(target: string, source: string, script: Script, passOnError: bool): (r: Outcome)
    ensures 1 <= |r.effects| <= 2 && r.effects[0] == Send(ListPulls(target, source, false))
    ensures |r.effects| == 2 <==> Retried(script)
    ensures |r.effects| == 2 ==> r.effects[1] == Send(ListPulls(target, source, true))
    ensures r.halt.Some? <==> ListStatus(script) != 200 && !passOnError
    ensures r.halt.Some? ==> r.halt.value == Abort(ApiError(ListCall, ListStatus(script)))
  {
    Outcome(ListCalls(target, source, script), CheckStatus(ListCall, ListStatus(script), passOnError))
  }

  function OpenStage(title: string, body: string, target: string, source: string,
                     isDraft: bool, canModify: bool, script: Script, passOnError: bool): (r: Outcome)
    ensures |r.effects| == 1 && IsWrite(r.effects[0]) && r.effects[0].request.CreatePull?
    ensures r.halt.Some? <==> script.writeStatus != 201 && !passOnError
    ensures r.halt.Some? ==> r.halt.value == Abort(ApiError(CreateCall, script.writeStatus))
  {
    Outcome([Send(CreatePull(title, body, target, source, isDraft, canModify))],
            CheckStatus(CreateCall, script.writeStatus, passOnError))
  }

  function UpdateStage(entry: PullRequest, title: string, body: string, target: string,
                       state: string, script: Script, passOnError: bool): (r: Outcome)
    ensures |r.effects| == 1 && IsWrite(r.effects[0]) && r.effects[0].request.UpdatePull?
    ensures r.effects[0].request.number == entry.number
    ensures r.effects[0].request.state == (if state == [] then "open" else state)
    ensures r.halt.Some? <==> script.writeStatus != 200 && !passOnError
    ensures r.halt.Some? ==> r.halt.value == Abort(ApiError(UpdateCall, script.writeStatus))
  {
    Outcome([Send(UpdatePull(entry.number, title, body, target, UpdateState(state)))],
            CheckStatus(UpdateCall, script.writeStatus, passOnError))
  }

  /** The three outputs after a create or update: number, return code and address. */
  function GroupOutputs(status: StatusCode, written: PullRequest): (r: seq<Effect>)
    ensures |r| == 3 && forall e :: e in r ==> e.SetOutput?
    ensures r[0].name == "PULL_REQUEST_NUMBER" && r[1].name == "PULL_REQUEST_RETURN_CODE" &&
            r[2].name == "PULL_REQUEST_URL"
    ensures r[1].value == Number(0) <==> status == 201
  {
    [ SetOutput("PULL_REQUEST_NUMBER", NumberValue(written.number)),
      SetOutput("PULL_REQUEST_RETURN_CODE", Number(ReturnCode(status))),
      SetOutput("PULL_REQUEST_URL", TextValue(written.htmlUrl)) ]
  }

  function AssigneesStage(entry: PullRequest, assignees: Option<string>, status: StatusCode,
                          passOnError: bool): (r: Outcome)
    ensures 1 <= |r.effects| && r.effects[0] == Send(AddAssignees(entry.number, Recipients.ParseIntoList(assignees)))
    ensures r.halt.Some? <==> status != 201 && !passOnError
    ensures r.halt.Some? ==> |r.effects| == 1 && r.halt.value == Abort(ApiError(AssigneesCall, status))
    ensures r.halt.None? ==> |r.effects| == 2 && r.effects[1] == SetOutput("ASSIGNEES_RETURN_CODE", Number(ReturnCode(status)))
  {
    Then(Outcome([Send(AddAssignees(entry.number, Recipients.ParseIntoList(assignees)))],
                 CheckStatus(AssigneesCall, status, passOnError)),
         Outcome([SetOutput("ASSIGNEES_RETURN_CODE", Number(ReturnCode(status)))], None))
  }

  function ReviewersStage(entry: PullRequest, reviewers: Option<string>, teamReviewers: Option<string>,
                          status: StatusCode, passOnError: bool): (r: Outcome)
    ensures 1 <= |r.effects| && r.effects[0] == Send(RequestReviewers(entry.number, Recipients.ParseIntoList(reviewers),
                                                  Recipients.ParseIntoList(teamReviewers)))
    ensures r.halt.Some? <==> status != 201 && !passOnError
    ensures r.halt.Some? ==> |r.effects| == 1 && r.halt.value == Abort(ApiError(ReviewersCall, status))
    ensures r.halt.None? ==> |r.effects| == 2 && r.effects[1] == SetOutput("REVIEWERS_RETURN_CODE", Number(ReturnCode(status)))
  {
    Then(Outcome([Send(RequestReviewers(entry.number, Recipients.ParseIntoList(reviewers),
                                        Recipients.ParseIntoList(teamReviewers)))],
                 CheckStatus(ReviewersCall, status, passOnError)),
         Outcome([SetOutput("REVIEWERS_RETURN_CODE", Number(ReturnCode(status)))], None))
  }

  /** Assignees, then reviewers, each only with a usable response to attach them to. */
  function RecipientsStage(response: Option<PullRequest>, assignees: Option<string>,
                           reviewers: Option<string>, teamReviewers: Option<string>,
                           script: Script, passOnError: bool): (r: Outcome)
    ensures response.None? || (!IsSet(assignees) && !IsSet(reviewers) && !IsSet(teamReviewers)) ==> r == Continue
    ensures r.halt.Some? ==> r.halt.value.Abort?
  {
    Then(if response.Some? && IsSet(assignees)
         then AssigneesStage(response.value, assignees, script.assigneesStatus, passOnError)
         else Continue,
         if response.Some? && (IsSet(reviewers) || IsSet(teamReviewers))
         then ReviewersStage(response.value, reviewers, teamReviewers, script.reviewersStatus, passOnError)
         else Continue)
  }

  /** A create or update call, its outputs, then the recipients. */
  function WriteStage(write: Outcome, script: Script, assignees: Option<string>,
                      reviewers: Option<string>, teamReviewers: Option<string>, passOnError: bool): (r: Outcome)
    ensures write.halt.Some? ==> r == write
    ensures write.halt.None? ==>
      |write.effects| + 3 <= |r.effects| &&
      r.effects[..|write.effects| + 3] == write.effects + GroupOutputs(script.writeStatus, script.written)
    ensures r.halt.Some? && write.halt.None? ==> r.halt.value.Abort?
  {
    var response := if script.writeUsable then Some(script.written) else None;
    Then(Then(write, Outcome(GroupOutputs(script.writeStatus, script.written), None)),
         RecipientsStage(response, assignees, reviewers, teamReviewers, script, passOnError))
  }

  /** Look the pull request up, then pass, update, create or do nothing. */
  function CreateFlow(source: string, target: string, body: string, title: string,
                      assignees: Option<string>, reviewers: Option<string>, teamReviewers: Option<string>,
                      isDraft: bool, canModify: bool, state: string, env: Env, script: Script): (r: Outcome)
    ensures |ListCalls(target, source, script)| <= |r.effects|
    ensures r.effects[..|ListCalls(target, source, script)|] == ListCalls(target, source, script)
    ensures r.halt == Some(Success) ==> FirstMatch(script.listing, source).Some? && IsSet(env.passIfExists)
  {
    var passOnError := IsSet(env.passOnError);
    var entry := FirstMatch(script.listing, source);
    Then(ListStage(target, source, script, passOnError),
         if entry.Some? && IsSet(env.passIfExists) then Outcome([], Some(Success))
         else if entry.Some? && IsSet(env.pullRequestUpdate) then
           WriteStage(UpdateStage(entry.value, title, body, target, state, script, passOnError),
                      script, assignees, reviewers, teamReviewers, passOnError)
         else if entry.None? then
           WriteStage(OpenStage(title, body, target, source, isDraft, canModify, script, passOnError),
                      script, assignees, reviewers, teamReviewers, passOnError)
         else Continue)
  }

  /** A whole run. */
  function Run(env: Env, ctx: Context, script: Script): (r: Outcome)
    ensures r.effects != [] ==>
      Proceeds(env, ctx) && r.effects[0] == Send(ListPulls(Target(env, ctx), Source(env, ctx), false))
  {
    if StartupError(env, ctx).Some? then Outcome([], Some(Abort(StartupError(env, ctx).value)))
    else if ValidatedState(env).None? then Outcome([], Some(Abort(InvalidState)))
    else RunFrom(env, Source(env, ctx), Target(env, ctx), ValidatedState(env).value, script)
  }

  /** The run once the source branch is resolved: the branch checks, then the lookup. */
  function RunFrom(env: Env, source: string, target: string, state: string, script: Script): (r: Outcome)
    ensures r.effects != [] ==>
      source != [] && source != target && PrefixAdmits(env, source) &&
      r.effects[0] == Send(ListPulls(target, source, false))
  {
    if source == [] then Outcome([], Some(Abort(NoSourceBranch)))
    else if source == target then Outcome([], Some(Success))
    else if !PrefixAdmits(env, source) then Continue
    else
      CreateFlow(source, target, Body(env, source), Title(env, source),
                 env.assignees, env.reviewers, env.teamReviewers,
                 IsSet(env.pullRequestDraft), !IsSet(env.maintainerCantModify),
                 state, env, script)
  }

  // ---------------------------------------------------------------------------
  // Properties of a run

  /** The run gets past every early exit and reaches the lookup. */
  predicate Proceeds(env: Env, ctx: Context) {
    && StartupError(env, ctx).None?
    && ValidatedState(env).Some?
    && Source(env, ctx) != []
    && Source(env, ctx) != Target(env, ctx)
    && PrefixAdmits(env, Source(env, ctx))
  }

  /** The listing was obtained, or its failure is tolerated. */
  predicate ListingAccepted(env: Env, script: Script) {
    ListStatus(script) == 200 || IsSet(env.passOnError)
  }

  /** Every early exit happens before any request is sent: missing context and a bad
      state abort, an unresolvable source branch aborts, a source equal to the target
      or outside the prefix filter ends successfully. */
  lemma EarlyExits(env: Env, ctx: Context, script: Script)
    ensures StartupError(env, ctx).Some? ==>
      Run(env, ctx, script) == Outcome([], Some(Abort(StartupError(env, ctx).value)))
    ensures StartupError(env, ctx).None? && ValidatedState(env).None? ==>
      Run(env, ctx, script) == Outcome([], Some(Abort(InvalidState)))
    ensures StartupError(env, ctx).None? && ValidatedState(env).Some? && Source(env, ctx) == [] ==>
      Run(env, ctx, script) == Outcome([], Some(Abort(NoSourceBranch)))
    ensures StartupError(env, ctx).None? && ValidatedState(env).Some? && Source(env, ctx) != [] &&
            Source(env, ctx) == Target(env, ctx) ==>
      Run(env, ctx, script).effects == [] && FinalExit(Run(env, ctx, script)) == Success
    ensures StartupError(env, ctx).None? && ValidatedState(env).Some? && Source(env, ctx) != [] &&
            Source(env, ctx) != Target(env, ctx) && !PrefixAdmits(env, Source(env, ctx)) ==>
      Run(env, ctx, script).effects == [] && FinalExit(Run(env, ctx, script)) == Success
    ensures !Proceeds(env, ctx) ==> Run(env, ctx, script).effects == []
  {
  }

  /** A run that gets past the early exits starts with the unauthenticated list query,
      and sends the authenticated one second exactly when the first got 401 or 404. */
  lemma ListQueriesFirst(env: Env, ctx: Context, script: Script)
    requires Proceeds(env, ctx)
    ensures var effects := Run(env, ctx, script).effects;
      var source, target := Source(env, ctx), Target(env, ctx);
      && |effects| >= 1
      && effects[0] == Send(ListPulls(target, source, false))
      && (Retried(script) <==> |effects| >= 2 && effects[1] == Send(ListPulls(target, source, true)))
  {
    var source, target := Source(env, ctx), Target(env, ctx);
    var effects := Run(env, ctx, script).effects;
    var calls := ListCalls(target, source, script);
    assert effects[..|calls|] == calls;
  }

  /** A listing that failed without PASS_ON_ERROR aborts the run right after the list
      queries, with the status it got. */
  lemma ListFailureAborts(env: Env, ctx: Context, script: Script)
    requires Proceeds(env, ctx) && !ListingAccepted(env, script)
    ensures Run(env, ctx, script) ==
      Outcome(ListCalls(Target(env, ctx), Source(env, ctx), script),
              Some(Abort(ApiError(ListCall, ListStatus(script)))))
  {
  }

  /** With a matching pull request and PASS_IF_EXISTS set, the run ends successfully
      after the list queries, whatever PULL_REQUEST_UPDATE says. */
  lemma PassIfExistsWins(env: Env, ctx: Context, script: Script)
    requires Proceeds(env, ctx) && ListingAccepted(env, script)
    requires FirstMatch(script.listing, Source(env, ctx)).Some? && IsSet(env.passIfExists)
    ensures Run(env, ctx, script) ==
      Outcome(ListCalls(Target(env, ctx), Source(env, ctx), script), Some(Success))
    ensures Writes(Run(env, ctx, script).effects) == 0
  {
    ListCallsWriteNothing(Target(env, ctx), Source(env, ctx), script);
  }

  /** With a matching pull request and neither PASS_IF_EXISTS nor PULL_REQUEST_UPDATE,
      nothing is written and the run ends successfully. */
  lemma ExistingLeftAlone(env: Env, ctx: Context, script: Script)
    requires Proceeds(env, ctx) && ListingAccepted(env, script)
    requires FirstMatch(script.listing, Source(env, ctx)).Some?
    requires !IsSet(env.passIfExists) && !IsSet(env.pullRequestUpdate)
    ensures Run(env, ctx, script).effects == ListCalls(Target(env, ctx), Source(env, ctx), script)
    ensures FinalExit(Run(env, ctx, script)) == Success
  {
  }

  /** The request and the rest of the run after a write: the outputs, then the
      recipients; or an abort right after the write when its status is refused. */
  predicate WriteFollowedBy(o: Outcome, prefix: seq<Effect>, write: Request, call: Call,
                            env: Env, script: Script)
  {
    var passOnError := IsSet(env.passOnError);
    var response := if script.writeUsable then Some(script.written) else None;
    var rest := RecipientsStage(response, env.assignees, env.reviewers, env.teamReviewers, script, passOnError);
    if script.writeStatus != Expected(call) && !passOnError then
      o == Outcome(prefix + [Send(write)], Some(Abort(ApiError(call, script.writeStatus))))
    else
      o == Outcome(prefix + [Send(write)] + GroupOutputs(script.writeStatus, script.written) + rest.effects,
                   rest.halt)
  }

  /** With a matching pull request, PULL_REQUEST_UPDATE set and PASS_IF_EXISTS unset,
      exactly one request writes: an update of that pull request's number with the
      configured title, body, target and state. */
  lemma UpdateExisting(env: Env, ctx: Context, script: Script)
    requires Proceeds(env, ctx) && ListingAccepted(env, script)
    requires FirstMatch(script.listing, Source(env, ctx)).Some?
    requires !IsSet(env.passIfExists) && IsSet(env.pullRequestUpdate)
    ensures var source, target := Source(env, ctx), Target(env, ctx);
      var entry := FirstMatch(script.listing, source).value;
      WriteFollowedBy(Run(env, ctx, script), ListCalls(target, source, script),
        UpdatePull(entry.number, Title(env, source), Body(env, source), target, ValidatedState(env).value),
        UpdateCall, env, script)
    ensures Writes(Run(env, ctx, script).effects) == 1
  {
    var source, target := Source(env, ctx), Target(env, ctx);
    var entry := FirstMatch(script.listing, source).value;
    var state := ValidatedState(env).value;
    var write := UpdatePull(entry.number, Title(env, source), Body(env, source), target, state);
    assert Run(env, ctx, script) ==
      CreateFlow(source, target, Body(env, source), Title(env, source), env.assignees, env.reviewers,
                 env.teamReviewers, IsSet(env.pullRequestDraft), !IsSet(env.maintainerCantModify), state, env, script);
    CreateFlowUpdates(source, target, Body(env, source), Title(env, source),
                      IsSet(env.pullRequestDraft), !IsSet(env.maintainerCantModify), state, env, script);
    ListCallsWriteNothing(target, source, script);
    WriteCountAfter(Run(env, ctx, script), ListCalls(target, source, script), write, UpdateCall, env, script);
  }

  /** With no matching pull request, exactly one request writes: a creation from the
      source to the target with the configured title and body, draft exactly when
      PULL_REQUEST_DRAFT is set, and modifiable by maintainers exactly when
      MAINTAINER_CANT_MODIFY is not. */
  lemma CreateWhenMissing(env: Env, ctx: Context, script: Script)
    requires Proceeds(env, ctx) && ListingAccepted(env, script)
    requires FirstMatch(script.listing, Source(env, ctx)).None?
    ensures var source, target := Source(env, ctx), Target(env, ctx);
      WriteFollowedBy(Run(env, ctx, script), ListCalls(target, source, script),
        CreatePull(Title(env, source), Body(env, source), target, source,
                   IsSet(env.pullRequestDraft), !IsSet(env.maintainerCantModify)),
        CreateCall, env, script)
    ensures Writes(Run(env, ctx, script).effects) == 1
  {
    var source, target := Source(env, ctx), Target(env, ctx);
    var isDraft, canModify := IsSet(env.pullRequestDraft), !IsSet(env.maintainerCantModify);
    var write := CreatePull(Title(env, source), Body(env, source), target, source, isDraft, canModify);
    assert Run(env, ctx, script) ==
      CreateFlow(source, target, Body(env, source), Title(env, source), env.assignees, env.reviewers,
                 env.teamReviewers, isDraft, canModify, ValidatedState(env).value, env, script);
    CreateFlowOpens(source, target, Body(env, source), Title(env, source), isDraft, canModify,
                    ValidatedState(env).value, env, script);
    ListCallsWriteNothing(target, source, script);
    WriteCountAfter(Run(env, ctx, script), ListCalls(target, source, script), write, CreateCall, env, script);
  }

  /** `create_pull_request` with a match and PULL_REQUEST_UPDATE set but not
      PASS_IF_EXISTS: the list queries, then the update and what follows it. */
  lemma CreateFlowUpdates(source: string, target: string, body: string, title: string,
                          isDraft: bool, canModify: bool, state: string, env: Env, script: Script)
    requires ListingAccepted(env, script)
    requires FirstMatch(script.listing, source).Some?
    requires !IsSet(env.passIfExists) && IsSet(env.pullRequestUpdate)
    requires state != []
    ensures WriteFollowedBy(
      CreateFlow(source, target, body, title, env.assignees, env.reviewers, env.teamReviewers,
                 isDraft, canModify, state, env, script),
      ListCalls(target, source, script),
      UpdatePull(FirstMatch(script.listing, source).value.number, title, body, target, state),
      UpdateCall, env, script)
  {
    var passOnError := IsSet(env.passOnError);
    var entry := FirstMatch(script.listing, source).value;
    var u := UpdateStage(entry, title, body, target, state, script, passOnError);
    assert u.effects == [Send(UpdatePull(entry.number, title, body, target, state))];
  }

  /** `create_pull_request` without a match: the list queries, then the creation and
      what follows it. */
  lemma CreateFlowOpens(source: string, target: string, body: string, title: string,
                        isDraft: bool, canModify: bool, state: string, env: Env, script: Script)
    requires ListingAccepted(env, script)
    requires FirstMatch(script.listing, source).None?
    ensures WriteFollowedBy(
      CreateFlow(source, target, body, title, env.assignees, env.reviewers, env.teamReviewers,
                 isDraft, canModify, state, env, script),
      ListCalls(target, source, script),
      CreatePull(title, body, target, source, isDraft, canModify),
      CreateCall, env, script)
  {
    var passOnError := IsSet(env.passOnError);
    var open := OpenStage(title, body, target, source, isDraft, canModify, script, passOnError);
    assert CreateFlow(source, target, body, title, env.assignees, env.reviewers, env.teamReviewers,
                      isDraft, canModify, state, env, script) ==
      Then(ListStage(target, source, script, passOnError),
           WriteStage(open, script, env.assignees, env.reviewers, env.teamReviewers, passOnError));
  }

  /** A trace of list queries, one write, its outputs and the recipients holds exactly
      one write. */
  lemma WriteCountAfter(o: Outcome, prefix: seq<Effect>, write: Request, call: Call, env: Env, script: Script)
    requires WriteFollowedBy(o, prefix, write, call, env, script)
    requires Writes(prefix) == 0 && (write.CreatePull? || write.UpdatePull?)
    ensures Writes(o.effects) == 1
  {
    var passOnError := IsSet(env.passOnError);
    var response := if script.writeUsable then Some(script.written) else None;
    var rest := RecipientsStage(response, env.assignees, env.reviewers, env.teamReviewers, script, passOnError);
    var w := [Send(write)];
    assert Writes(w) == 1 by { assert w[1..] == []; }
    WritesAppend(prefix, w);
    if !(script.writeStatus != Expected(call) && !passOnError) {
      var g := GroupOutputs(script.writeStatus, script.written);
      NoWrites(g);
      RecipientsWriteNothing(response, env.assignees, env.reviewers, env.teamReviewers, script, passOnError);
      WritesAppend(prefix + w, g);
      WritesAppend(prefix + w + g, rest.effects);
    }
  }

  /** The list queries write nothing. */
  lemma ListCallsWriteNothing(target: string, source: string, script: Script)
    ensures Writes(ListCalls(target, source, script)) == 0
  {
    NoWrites(ListCalls(target, source, script));
  }

  /** Attaching recipients never creates or updates a pull request. */
  lemma RecipientsWriteNothing(response: Option<PullRequest>, assignees: Option<string>,
                               reviewers: Option<string>, teamReviewers: Option<string>,
                               script: Script, passOnError: bool)
    ensures Writes(RecipientsStage(response, assignees, reviewers, teamReviewers, script, passOnError).effects) == 0
  {
    var o := RecipientsStage(response, assignees, reviewers, teamReviewers, script, passOnError);
    if response.Some? {
      var entry := response.value;
      var a := if IsSet(assignees) then AssigneesStage(entry, assignees, script.assigneesStatus, passOnError) else Continue;
      var r := if IsSet(reviewers) || IsSet(teamReviewers)
               then ReviewersStage(entry, reviewers, teamReviewers, script.reviewersStatus, passOnError) else Continue;
      assert o == Then(a, r);
      NoWrites(a.effects);
      NoWrites(r.effects);
      WritesAppend(a.effects, r.effects);
    }
  }

  lemma {:induction false} NoWrites(effects: seq<Effect>)
    requires forall e :: e in effects ==> !IsWrite(e)
    ensures Writes(effects) == 0
  {
    if effects != [] {
      assert effects[0] in effects;
      assert forall e :: e in effects[1..] ==> e in effects;
      NoWrites(effects[1..]);
    }
  }

  /** The status of a create or update call is reported as its return code: 0 for 201,
      the status itself otherwise, so a successful update reports 200. */
  lemma ReturnCodeReported(status: StatusCode, written: PullRequest)
    ensures GroupOutputs(status, written)[1] == SetOutput("PULL_REQUEST_RETURN_CODE", Number(ReturnCode(status)))
    ensures status == 201 ==> GroupOutputs(status, written)[1].value == Number(0)
    ensures status != 201 ==> GroupOutputs(status, written)[1].value == Number(status)
  {
  }

  /** Without a usable write response, no recipients are attached. */
  lemma NoRecipientsWithoutResponse(assignees: Option<string>, reviewers: Option<string>,
                                    teamReviewers: Option<string>, script: Script, passOnError: bool)
    ensures RecipientsStage(None, assignees, reviewers, teamReviewers, script, passOnError) == Continue
  {
  }

  /** With a usable response and both lists configured, the assignees are attached
      first, in one request, and the reviewers and team reviewers after, together in one
      request; each reports its return code. */
  lemma AssigneesBeforeReviewers(entry: PullRequest, assignees: Option<string>, reviewers: Option<string>,
                                 teamReviewers: Option<string>, script: Script, passOnError: bool)
    requires IsSet(assignees) && (IsSet(reviewers) || IsSet(teamReviewers))
    requires script.assigneesStatus == 201 || passOnError
    ensures var o := RecipientsStage(Some(entry), assignees, reviewers, teamReviewers, script, passOnError);
      o.effects == [
        Send(AddAssignees(entry.number, Recipients.ParseIntoList(assignees))),
        SetOutput("ASSIGNEES_RETURN_CODE", Number(ReturnCode(script.assigneesStatus))),
        Send(RequestReviewers(entry.number, Recipients.ParseIntoList(reviewers),
                              Recipients.ParseIntoList(teamReviewers)))
      ] + (if o.halt.None? then [SetOutput("REVIEWERS_RETURN_CODE", Number(ReturnCode(script.reviewersStatus)))] else [])
    ensures var o := RecipientsStage(Some(entry), assignees, reviewers, teamReviewers, script, passOnError);
      o.halt == CheckStatus(ReviewersCall, script.reviewersStatus, passOnError)
  {
  }

  /** A refused assignees call without PASS_ON_ERROR stops the run before any
      reviewers are requested. */
  lemma AssigneesFailureStops(entry: PullRequest, assignees: Option<string>, reviewers: Option<string>,
                              teamReviewers: Option<string>, script: Script)
    requires IsSet(assignees) && script.assigneesStatus != 201
    ensures RecipientsStage(Some(entry), assignees, reviewers, teamReviewers, script, false) ==
      Outcome([Send(AddAssignees(entry.number, Recipients.ParseIntoList(assignees)))],
              Some(Abort(ApiError(AssigneesCall, script.assigneesStatus))))
  {
  }

  /** The effects hold an assignees request. */
  ghost predicate SendsAssignees(effects: seq<Effect>) {
    exists i :: 0 <= i < |effects| && effects[i].Send? && effects[i].request.AddAssignees?
  }

  /** The effects hold a reviewers request. */
  ghost predicate SendsReviewers(effects: seq<Effect>) {
    exists i :: 0 <= i < |effects| && effects[i].Send? && effects[i].request.RequestReviewers?
  }

  /** With a usable response, the assignees are requested exactly when their setting is
      set, and the reviewers exactly when either reviewer setting is set and the
      assignees call, if any, did not stop the run. */
  lemma RecipientsGating(entry: PullRequest, assignees: Option<string>, reviewers: Option<string>,
                         teamReviewers: Option<string>, script: Script, passOnError: bool)
    ensures var o := RecipientsStage(Some(entry), assignees, reviewers, teamReviewers, script, passOnError);
      SendsAssignees(o.effects) <==> IsSet(assignees)
    ensures var o := RecipientsStage(Some(entry), assignees, reviewers, teamReviewers, script, passOnError);
      SendsReviewers(o.effects) <==>
        (IsSet(reviewers) || IsSet(teamReviewers)) &&
        (!IsSet(assignees) || CheckStatus(AssigneesCall, script.assigneesStatus, passOnError).None?)
  {
    var o := RecipientsStage(Some(entry), assignees, reviewers, teamReviewers, script, passOnError);
    var a := if IsSet(assignees) then AssigneesStage(entry, assignees, script.assigneesStatus, passOnError) else Continue;
    var r := if IsSet(reviewers) || IsSet(teamReviewers)
             then ReviewersStage(entry, reviewers, teamReviewers, script.reviewersStatus, passOnError) else Continue;
    assert o == Then(a, r);
    assert !SendsReviewers(a.effects) by {
      assert forall i :: 0 <= i < |a.effects| ==> !a.effects[i].Send? || !a.effects[i].request.RequestReviewers?;
    }
    assert !SendsAssignees(r.effects);
    if IsSet(assignees) {
      assert o.effects[0] == a.effects[0];
    }
    if a.halt.None? {
      assert o.effects == a.effects + r.effects;
      if IsSet(reviewers) || IsSet(teamReviewers) {
        assert o.effects[|a.effects|] == r.effects[0];
      }
      forall i | 0 <= i < |o.effects| && o.effects[i].Send? && o.effects[i].request.RequestReviewers?
        ensures i >= |a.effects| && r.effects[i - |a.effects|] == o.effects[i]
      {
      }
      forall i | 0 <= i < |o.effects| && o.effects[i].Send? && o.effects[i].request.AddAssignees?
        ensures i < |a.effects| && a.effects[i] == o.effects[i]
      {
      }
    }
  }

  /** With a usable response and only assignees configured, the stage is the assignees
      call alone: its request, then its return code unless it stopped the run. */
  lemma AssigneesOnly(entry: PullRequest, assignees: Option<string>, reviewers: Option<string>,
                      teamReviewers: Option<string>, script: Script, passOnError: bool)
    requires IsSet(assignees) && !IsSet(reviewers) && !IsSet(teamReviewers)
    ensures RecipientsStage(Some(entry), assignees, reviewers, teamReviewers, script, passOnError) ==
      AssigneesStage(entry, assignees, script.assigneesStatus, passOnError)
  {
    var a := AssigneesStage(entry, assignees, script.assigneesStatus, passOnError);
    assert a.effects + [] == a.effects;
  }

  /** With a usable response and reviewers but no assignees configured, the stage is one
      reviewers call carrying both lists, then its return code unless it stopped the
      run. */
  lemma ReviewersOnly(entry: PullRequest, assignees: Option<string>, reviewers: Option<string>,
                      teamReviewers: Option<string>, script: Script, passOnError: bool)
    requires !IsSet(assignees) && (IsSet(reviewers) || IsSet(teamReviewers))
    ensures RecipientsStage(Some(entry), assignees, reviewers, teamReviewers, script, passOnError) ==
      ReviewersStage(entry, reviewers, teamReviewers, script.reviewersStatus, passOnError)
  {
    var r := ReviewersStage(entry, reviewers, teamReviewers, script.reviewersStatus, passOnError);
    assert [] + r.effects == r.effects;
  }
}
