# pull-request-action, modelled in Dafny

This project models `pull-request.py`, the script behind a GitHub Action. When a branch
is pushed, the action opens a pull request from that branch into a target branch, or
updates one that is already open. The model covers five parts:

- the parsing of the assignee and reviewer settings (`parse_into_list`);
- the resolution of the source branch from the event's `ref`;
- the lookup of an open pull request (`find_pull_request`);
- the configuration `main` derives from the environment;
- the order of REST requests and outputs that `main` and `create_pull_request` produce.

The modules follow the script's structure:

- `Strings`: Python's `str.replace(p, "")`, `str.split(" ")`, `str.strip()` and
  `str.startswith`, each with the exact Python semantics the script relies on. `replace`
  is a single left-to-right pass. `strip()` uses Python's full whitespace set.
  `split(" ")` of `""` gives `[""]`. The script never joins. `Join` is there only so that
  the round-trip properties can undo `split`.
- `Recipients`: `parse_into_list`.
- `Branches`: the `refs/heads/` removal and the `/` stripping.
- `Lookup`: the pull request descriptor, `FirstMatch` (the specification), and the loop
  `FindPullRequest` proved against it.
- `Settings`: the environment record and the run's context; the derived draft flag, state,
  maintainer flag, source, target, title and body; the status policy (`abort_if_fail`);
  and the return code.
- `Flow`: a run as a value. `Run` maps an environment, a context and a script of forge
  responses to the ordered effects (requests sent, outputs written) and the exit. The
  lemmas state the action's promises about that trace.
- `Dispatch`: the script's procedures as imperative methods, from `list_pull_requests`
  to `main`. Each method's result is proved equal to the matching `Flow` stage, so the
  `Flow` lemmas hold of the methods too.

An environment variable counts as "set" exactly when Python finds it truthy: present and
non-empty (`Settings.IsSet`). An `os.environ.get(name, default)` keeps an empty value
rather than the default (`Option.GetOr`).

Where the code and its documentation disagree, the model follows the code:

- a whitespace-only list such as `" "` parses to `["", ""]`, not to the empty list;
- a successful update reports `PULL_REQUEST_RETURN_CODE` 200, not 0, because only 201
  maps to 0.

## Model

| member | source | states |
|---|---|---|
| Recipients.Unquoted | pull-request.py:66 | the setting after quote removal holds neither `"` nor `'` and is no longer than the setting |
| Recipients.ParseIntoList | pull-request.py:59-69 | the result is empty exactly when the setting is unset, empty or made only of quotes; otherwise it has one element more than the spaces left after quote removal |
| Recipients.UnquotedIsFiltered | pull-request.py:65-66 | removing `"` then `'` deletes exactly those two characters and keeps the rest in order |
| Recipients.UnquotedAbsent | pull-request.py:65-66 | a setting holding no quotes is not changed by quote removal |
| Recipients.ParsedNamesClean | pull-request.py:59-69 | no parsed name contains `"`, `'` or a space |
| Recipients.ParseJoinRoundTrip | pull-request.py:65-69 | when the only whitespace is the space, joining the parsed list with single spaces gives back the unquoted setting |
| Recipients.ParseOfPieces | pull-request.py:67-69 | space-separated pieces with no whitespace at their ends are returned as they are, in order |
| Recipients.UnquotedQuotedPair | pull-request.py:65-66 | quoting two names with `'` and `"` does not change what remains after quote removal |
| Recipients.ParsePair | pull-request.py:59-69 | two names without spaces or whitespace ends, joined by one space, parse to exactly that pair |
| Recipients.ParseToAliceBob | pull-request.py:59-69 | any setting whose unquoted text is `alice bob` parses to `["alice", "bob"]` |
| Recipients.ParsePlainNames | pull-request.py:59-69 | `alice bob` parses to `["alice", "bob"]` |
| Recipients.ParseQuotedNames | pull-request.py:59-69 | `'alice' "bob"` parses to `["alice", "bob"]` |
| Recipients.ParseQuotesOnly | pull-request.py:65-68 | `''`, the empty setting and an unset one all parse to `[]` |
| Recipients.ParseToTwoBlanks | pull-request.py:67-69 | any setting whose unquoted text is a single space parses to two empty names |
| Recipients.ParseSingleSpace | pull-request.py:67-69 | `" "` parses to `["", ""]` |
| Recipients.ParseToGap | pull-request.py:69 | any setting whose unquoted text is `a  b` parses to `["a", "", "b"]` |
| Recipients.ParseDoubleSpace | pull-request.py:69 | a double space yields an empty name between its neighbours |
| Branches.NormaliseRef | pull-request.py:413-415 | the normalised branch never starts or ends with `/`, and it holds only characters of the ref |
| Branches.NormaliseBranchRef | pull-request.py:415 | `refs/heads/` followed by a name with no `refs/heads/` inside and no slash at either end gives that name |
| Branches.NormaliseFeatureBranch | pull-request.py:415 | `refs/heads/feature/x` gives `feature/x` |
| Branches.NormaliseInnerOccurrence | pull-request.py:415 | the removal is not anchored: `x/refs/heads/y` gives `x/y` |
| Branches.NormaliseSinglePass | pull-request.py:415 | the removal makes one pass: `refs/refs/heads/heads/x` gives `refs/heads/x` |
| Branches.NormaliseNested | pull-request.py:415 | `refs/` + `refs/heads/` + `heads/x` normalises to `refs/heads/x` |
| Branches.RemoveSinglePass | pull-request.py:415 | one left-to-right removal pass over `refs/` + `refs/heads/` + `heads/x` leaves `refs/heads/x` |
| Strings.RemoveAll | pull-request.py:66 | `replace(pat, "")` never lengthens the text |
| Strings.RemoveAllHit | pull-request.py:415 | an occurrence at the front is removed and the scan resumes after it |
| Strings.RemoveAllKeep | pull-request.py:415 | a stretch at the front in which no occurrence starts is kept, and the scan goes on after it |
| Strings.RemoveAllAbsent | pull-request.py:415 | text in which the pattern does not occur is unchanged |
| Strings.RemoveCharIsWithout | pull-request.py:66 | removing a one-character pattern is filtering that character out |
| Strings.WhitespaceClass | pull-request.py:69 | `strip()` removes the space, tab, newline and carriage return, and never removes letters, digits, `/`, `-`, `_` or quotes |
| Strings.Strip | pull-request.py:69 | the result neither starts nor ends with a dropped character, holds only characters of the text, is empty when every character is dropped, and is the text itself when its ends are not dropped |
| Strings.StripSlice | pull-request.py:69 | the result is a slice of the text outside which every character is dropped |
| Strings.StartsWith | pull-request.py:433 | a text starts with a prefix only when it is at least as long, and every text starts with the empty prefix |
| Strings.StartsWithIsPrefix | pull-request.py:433 | a text starts with a prefix exactly when it is that prefix followed by some text |
| Strings.Split | pull-request.py:69 | `split(" ")` gives one piece more than there are spaces, no piece holds a space, and every piece holds only characters of the text |
| Strings.JoinSplit | pull-request.py:69 | joining the pieces of a split with the separator gives the text back |
| Lookup.HeadRef | pull-request.py:230 | the head branch of a descriptor is its `head.ref`, and `""` when that is missing |
| Lookup.FirstMatch | pull-request.py:220-232 | a found descriptor is in the listing and its head branch is the source |
| Lookup.FirstMatchExists | pull-request.py:228-232 | a descriptor is found exactly when some descriptor in the listing has the source as head branch |
| Lookup.FirstMatchIsFirst | pull-request.py:229-232 | the earliest matching descriptor is the one returned |
| Lookup.FindPullRequest | pull-request.py:220-232 | the loop returns what `FirstMatch` specifies |
| Settings.IsSet | pull-request.py:22 | a variable is set only when it is present and non-empty: an unset or empty variable is not set |
| Settings.Target | pull-request.py:360 | the target is PULL_REQUEST_BRANCH whenever it is present, even empty, and the default branch otherwise |
| Settings.PrefixAdmits | pull-request.py:354-433 | an unset or empty BRANCH_PREFIX admits every branch; a set one admits exactly the branches that start with it |
| Settings.Body | pull-request.py:436-439 | the body is PULL_REQUEST_BODY when present, otherwise a text that ends with the source branch |
| Settings.Title | pull-request.py:446-448 | the title is PULL_REQUEST_TITLE when present, otherwise a text that ends with the source branch |
| Settings.UpdateState | pull-request.py:135 | the state sent in an update is never empty: the given state, or "open" for an empty one |
| Settings.Expected | pull-request.py:112-266 | the listing and the update expect 200, the creation, the assignees and the reviewers 201 |
| Settings.ExitCode | pull-request.py:52-56 | the exit status is 0 exactly for a successful run |
| Settings.StartupError | pull-request.py:13-35 | together with the token and repository fallbacks of lines 285-286: nothing is missing exactly when a token, a repository, an event path and the event file all exist; a missing token is reported first, then a missing repository, then a missing event path, and a missing event file only when the three variables are present |
| Settings.ValidatedState | pull-request.py:373-375 | the state is "open" by default and is accepted exactly when it is "open" or "closed" |
| Settings.UpdateStateOfValidated | pull-request.py:135 | a validated state is sent unchanged in an update |
| Settings.Source | pull-request.py:409-418 | the source is PULL_REQUEST_FROM_BRANCH when that is set; otherwise it is the normalised event ref, which has no slash at either end |
| Settings.ReturnCode | pull-request.py:154-156 | the return code is 0 exactly for status 201; any other status is reported as it is |
| Settings.AbortIfFail | pull-request.py:38-56 | a failed call aborts with that call and its status exactly when PASS_ON_ERROR is unset (the response body is taken to be JSON; see "Left out") |
| Settings.CheckStatus | pull-request.py:182-186 | a call halts the run exactly when its status is not the expected one and PASS_ON_ERROR is unset |
| Settings.SuccessfulUpdateReports200 | pull-request.py:141-156 | a successful update is not an error and reports 200; a successful creation reports 0 |
| Flow.ListStage | pull-request.py:169-188 | one or two list queries: the first unauthenticated, the second authenticated and sent exactly after a 401 or 404; the run stops, with the list call and its final status, exactly when that status is not 200 and PASS_ON_ERROR is unset |
| Flow.OpenStage | pull-request.py:87-116 | exactly one request, a creation; the run stops with that call and status exactly when the status is not 201 and PASS_ON_ERROR is unset |
| Flow.UpdateStage | pull-request.py:119-144 | exactly one request, an update of the entry's number whose state is the given one or "open" when empty; the run stops exactly when the status is not 200 and PASS_ON_ERROR is unset |
| Flow.GroupOutputs | pull-request.py:147-166 | three outputs, named PULL_REQUEST_NUMBER, PULL_REQUEST_RETURN_CODE and PULL_REQUEST_URL in that order; the return code is 0 exactly for 201 |
| Flow.AssigneesStage | pull-request.py:191-217 | the assignees request carries the parsed list; the run stops right after it exactly when its status is not 201 and PASS_ON_ERROR is unset, and otherwise ASSIGNEES_RETURN_CODE follows |
| Flow.ReviewersStage | pull-request.py:250-273 | one request carrying both parsed lists; the run stops right after it exactly when its status is not 201 and PASS_ON_ERROR is unset, and otherwise REVIEWERS_RETURN_CODE follows |
| Flow.RecipientsStage | pull-request.py:336-343 | without a usable response, or with no recipient setting, nothing happens; the stage only ever stops the run with an abort |
| Flow.WriteStage | pull-request.py:326-343 | a refused write ends the run as it is; otherwise the write's effects and then the three outputs come first, and any later stop is an abort |
| Flow.CreateFlow | pull-request.py:300-343 | the list queries come first; the only successful stop is PASS_IF_EXISTS with a match |
| Flow.CreateFlowUpdates | pull-request.py:326-329 | with a match and PULL_REQUEST_UPDATE set but not PASS_IF_EXISTS, the list queries are followed by the update and its outputs and recipients |
| Flow.CreateFlowOpens | pull-request.py:331-334 | with no match, the list queries are followed by the creation and its outputs and recipients |
| Flow.Run | pull-request.py:346-433 | any request sent means every early exit was passed, and the first request is the unauthenticated list query for the target and source |
| Flow.RunFrom | pull-request.py:420-465 | any request sent means the source is non-empty, differs from the target and passes the prefix filter, and the first request is the list query |
| Flow.Then | pull-request.py:54-56 | a stage that stopped the run ends it; otherwise the next stage's effects follow |
| Flow.EarlyExits | pull-request.py:352-433 | missing context, an invalid state or an empty source branch aborts; a source equal to the target, or one outside the prefix filter, ends successfully; none of these sends a request |
| Flow.ListQueriesFirst | pull-request.py:178-186 | a run past the early exits first sends the unauthenticated list query, and sends the authenticated retry exactly on 401 or 404 |
| Flow.ListFailureAborts | pull-request.py:185-186 | a listing that was not 200, without PASS_ON_ERROR, aborts right after the list queries |
| Flow.PassIfExistsWins | pull-request.py:316-324 | with a match and PASS_IF_EXISTS set, the run ends successfully after the list queries, whatever PULL_REQUEST_UPDATE says, and writes nothing |
| Flow.ExistingLeftAlone | pull-request.py:326-337 | with a match and neither flag set, only the list queries are sent and the run ends successfully |
| Flow.UpdateExisting | pull-request.py:326-329 | with a match and PULL_REQUEST_UPDATE set, the one write is an update of that pull request's number with the configured title, body, target and state; it is followed by the outputs and the recipients, or by an abort when refused |
| Flow.CreateWhenMissing | pull-request.py:331-334 | with no match, the one write is a creation with the configured title, body, branches and flags; it is followed by the outputs and the recipients, or by an abort when refused |
| Flow.WriteCountAfter | pull-request.py:326-343 | a trace of list queries, a write, its outputs and the recipients holds exactly one write |
| Flow.ListCallsWriteNothing | pull-request.py:169-188 | the list queries neither create nor update |
| Flow.RecipientsWriteNothing | pull-request.py:339-343 | attaching recipients neither creates nor updates |
| Flow.ReturnCodeReported | pull-request.py:154-166 | the second output is PULL_REQUEST_RETURN_CODE: 0 for 201 and the status itself otherwise |
| Flow.NoRecipientsWithoutResponse | pull-request.py:336-343 | without a usable create or update response, no recipients are attached |
| Flow.AssigneesBeforeReviewers | pull-request.py:339-343 | the assignees request and its return code come before the single request carrying both reviewer lists and its return code |
| Flow.RecipientsGating | pull-request.py:340-343 | with a usable response, the assignees are requested exactly when their setting is set, and the reviewers exactly when either reviewer setting is set and the assignees call did not stop the run |
| Flow.AssigneesOnly | pull-request.py:340-341 | with only assignees configured, the stage is the assignees call alone |
| Flow.ReviewersOnly | pull-request.py:342-343 | with reviewers but no assignees configured, the stage is one reviewers call carrying both lists alone |
| Flow.AssigneesFailureStops | pull-request.py:210-211 | a refused assignees call without PASS_ON_ERROR aborts before any reviewer is requested |
| Dispatch.ListPullRequests | pull-request.py:169-188 | the effects and halt are those of the list stage, and the listing is the forge's |
| Dispatch.OpenPullRequest | pull-request.py:87-116 | the effects and halt are those of the creation stage |
| Dispatch.UpdatePullRequest | pull-request.py:119-144 | the effects and halt are those of the update stage |
| Dispatch.SetPullRequestGroups | pull-request.py:147-166 | the outputs are the pull request's number, return code and address, in that order |
| Dispatch.AddAssigneesTo | pull-request.py:191-217 | the effects and halt are those of the assignees stage |
| Dispatch.AddReviewersTo | pull-request.py:250-273 | the effects and halt are those of the reviewers stage |
| Dispatch.CreatePullRequest | pull-request.py:300-343 | the effects and halt are those of `CreateFlow` |
| Dispatch.ReportAndAttach | pull-request.py:326-343 | the effects and halt are those of the stage after a write |
| Dispatch.AttachRecipients | pull-request.py:336-343 | the effects and halt are those of the recipients stage |
| Dispatch.RunAction | pull-request.py:346-418 | the effects and exit are those of `Run` |
| Dispatch.OpenFromBranch | pull-request.py:420-465 | the effects and exit are those of `RunFrom` |

## Left out

- HTTP transport, headers, URLs and `GITHUB_API_URL`: each call is a `Request` value. Its status comes from the `Script` of responses. For the create or update response, `writeUsable` stands for two truthiness tests: that of the `requests.Response` object at line 337, and that of the decoded dictionary at lines 340 and 342.
- Environment access: `os.environ` is the `Env` record of optional strings.
- The event file: only its existence and its `ref` (`""` when absent) are inputs, in `Context`.
- `find_default_branch`: it makes a network request, so the repository's default branch is an input in `Context`. At line 360 the script calls it even when PULL_REQUEST_BRANCH is set. That request, its retry and its possible abort are not modelled.
- `set_env_and_output`: it appends the same line to both GITHUB_ENV and GITHUB_OUTPUT. The model writes one `SetOutput` effect per call, with no file I/O and no text formatting of the value.
- Printing, logging and the text of exit messages: a failure is a `Failure` value, not a string.
- Responses that are not what the script expects. The script raises an exception in these cases, and the run ends with a traceback. The model assumes the expected shapes and goes on instead, as follows.
  - `abort_if_fail` decodes the response body as JSON (line 50) before it reads PASS_ON_ERROR (line 53). A body that is not JSON therefore ends the run even with PASS_ON_ERROR set. `Settings.AbortIfFail` lets the run go on.
  - The create or update response (lines 157 and 337), the assignees response (line 215) and the reviewers response (line 271) are decoded the same way. A body that is not JSON raises there. The model reads these responses only through `Script.written` and `writeUsable`.
  - A refused listing under PASS_ON_ERROR is returned at line 188 as whatever JSON the forge sent. When it is an object (the forge's error shape), the loop at line 230 walks its keys, and `entry.get` raises. The model's listing is always a sequence of descriptors. So with PASS_ON_ERROR set, a refused listing goes on to the lookup, and an empty one leads to a creation.
  - A descriptor whose `head` is JSON `null` makes `.get("ref", "")` raise at line 230. The model reads a missing or null `head` as the head branch `""`.
- A descriptor keeps only `head.ref`, `number` and `html_url`.
- Python's `str.strip()` is modelled for the fixed set of characters that `str.isspace` accepts, with no Unicode database behind it.
