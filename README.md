# Opus10 public Python library template: generation hooks

This project models, in Dafny, the two hooks that run when footing spins a
new project up from the Opus10 public Python library template.

- **The pre-generation hook** (`PreGen`) checks the rendered module name and
  package (repository) name against `^[a-zA-Z][_a-zA-Z0-9]+$` and
  `^[a-zA-Z][-a-zA-Z0-9]+$`. The module name is checked first. The first
  failure prints its message and exits with status 1. Python's `$` also
  matches just before a final newline, so `name\n` passes whenever `name`
  does; the model keeps this.
- **`yesno`** (`Confirm`) is the interactive question. It refuses a default
  other than "yes"/"no" with ValueError before reading anything. It then
  reads stripped lines until one is empty, a yes (`y`/`yes` in any case) or
  a no (`n`/`no`). It returns whether the DEFAULT was chosen. Unrecognised
  lines are asked again. Running out of input is `input()`'s EOFError.
- **The provisioning steps** (`Provision`) each take the answers of the
  outside world as inputs (GitHub's reply, the return code of `git push`,
  the operator's lines). Each yields its effects in order (printed lines,
  prompts, shell commands, HTTP requests), how it ended, and how many lines
  it read. This covers:
  - repository creation and its "already exists" question;
  - the initial push and its question;
  - the team grant;
  - branch protection and the two CircleCI calls;
  - the credential gate;
  - the strings the steps build: the commit command, the SSH remote and the
    API paths.
- **`footing_setup` and the `__main__` guard** (`Setup`) are methods that
  run the steps in order and thread the effect trace. `Requests` and
  `Commands` pick the HTTP requests and the shell commands out of the trace.
  Each method is proved against a specification function (`FootingRun`
  and the stages it is built from) that says how a run ends, how many of
  the planned requests it sent, whether it pushed and how many lines it
  read. The central properties:
  - no request is sent before both tokens are found;
  - the requests sent are always a prefix of the planned four (create,
    protect, follow, configure), and an exception ends that prefix at the
    step that raised it;
  - `footing_setup` returns iff every step returned;
  - nothing is sent unless footing runs the hook in setup mode and the
    operator confirms the names.

`PyText` holds the parts of Python's string and `re` behaviour these rely
on: `str.strip`, the `$` anchor, literal letters under `re.IGNORECASE`
(`s` also matches U+017F), `str.join` and `str(int)`. It also defines
`Split`, which the hooks never call: it is the reference used to show that
the API paths can be read back into their segments.

`github_create_repo` treats a reply other than 201 (and other than "already
exists") by printing the body to stderr and calling `raise_for_status()`.
That call raises only for a 4xx or 5xx status, so a 200 or a 3xx reply
returns normally, and the model keeps this (`Provision.RaisesForStatus`).

## Model

| member | source | states |
|---|---|---|
| PreGen.Matches | hooks/pre_gen_project.py:13-14 | `re.match` of either pattern: a letter, the greedy run of tail-class characters (at least one), then `$`, which also accepts one final newline |
| PreGen.WellFormed | hooks/pre_gen_project.py:13-14 | the naming rule the patterns express, stated without the regex machinery: a letter followed only by tail-class characters, at least two characters in all |
| PreGen.RunEnd | hooks/pre_gen_project.py:13-14 | the greedy run of tail-class characters ends at the first character outside the class |
| PreGen.MatchesIffWellFormed | hooks/pre_gen_project.py:13-14 | a name matches iff it is well formed, or is a well-formed name followed by one newline |
| PreGen.SingleCharacterRejected | hooks/pre_gen_project.py:13-14 | a one-character name never matches either pattern |
| PreGen.WrongSeparatorRejected | hooks/pre_gen_project.py:13-14 | an underscore anywhere makes a package name ill-formed, and a hyphen anywhere makes a module name ill-formed |
| PreGen.Validate | hooks/pre_gen_project.py:19-28 | the module check runs first; the package check runs iff the module name matched; the hook exits 1 with exactly one message iff a check fails; the message names the failing check; nothing is printed on success |
| PreGen.ValidatePassesIffWellFormed | hooks/pre_gen_project.py:13-28 | the hook passes silently iff both names are well formed, up to one trailing newline each |
| PreGen.Examples | hooks/pre_gen_project.py:13-28 | `my_app`/`my-app` pass; `my_pkg` fails as a package; `my-app` fails as a module before the package is checked; a leading digit fails |
| PyText.LStrip | hooks/post_gen_project.py:43 | `str.lstrip()`: drops the leading whitespace (shape proved by LStripShape) |
| PyText.RStrip | hooks/post_gen_project.py:43 | `str.rstrip()`: drops the trailing whitespace (shape proved by RStripShape) |
| PyText.Strip | hooks/post_gen_project.py:43 | `str.strip()` as `get_user_input` applies it to every response |
| PyText.StripShape | hooks/post_gen_project.py:43 | strip removes exactly the leading and trailing whitespace and keeps the middle slice |
| PyText.StripEmptyIffAllSpace | hooks/post_gen_project.py:43 | a stripped response is empty iff the line is all whitespace |
| PyText.MatchesIgnoreCaseIsFold | hooks/post_gen_project.py:68-73 | a pattern letter matches a character under IGNORECASE iff the character case-folds to that letter (so `s` also matches U+017F) |
| PyText.SplitJoin | hooks/post_gen_project.py:201 | splitting a `/`-join gives back its segments when none contains `/` |
| PyText.IntText | hooks/post_gen_project.py:201 | the text of the team id is non-empty, starts with `-` iff the id is negative, and contains no `/` |
| PyText.ParseNatText | hooks/post_gen_project.py:201 | the decimal text of a non-negative team id reads back as the id |
| Confirm.ParseDefault | hooks/post_gen_project.py:51-56 | only "yes" and "no" are valid defaults, each mapped to its choice |
| Confirm.PromptText | hooks/post_gen_project.py:58-61 | the prompt is the message and a space (when there is a message), then the marker naming the default, then the suffix |
| Confirm.SaysYes | hooks/post_gen_project.py:68 | `re.match("^(y)(es)?$", response, re.IGNORECASE)`, characterised by SaysYesIffFolded |
| Confirm.SaysNo | hooks/post_gen_project.py:73 | `re.match("^(n)(o)?$", response, re.IGNORECASE)`, characterised by SaysNoIffFolded |
| Confirm.SaysYesIffFolded | hooks/post_gen_project.py:68 | a response says yes iff its case-folded form is `y`, `yes`, `y\n` or `yes\n` |
| Confirm.SaysNoIffFolded | hooks/post_gen_project.py:73 | a response says no iff its case-folded form is `n`, `no`, `n\n` or `no\n` |
| Confirm.RecognisedSpellings | hooks/post_gen_project.py:68-73 | y, Y, yes, YeS, n, No and NO are recognised; ye, yess, nope and o are not |
| Confirm.YesAndNoDisjoint | hooks/post_gen_project.py:68-73 | no response is both a yes and a no |
| Confirm.Classify | hooks/post_gen_project.py:65-73 | a response is blank iff empty, a yes iff it matches the yes pattern, and a no iff it matches the no pattern |
| Confirm.Reading | hooks/post_gen_project.py:42-43 | one response of the loop: the line stripped, then classified |
| Confirm.ReadingByFold | hooks/post_gen_project.py:42-73 | a line reads as blank iff it strips to empty, as yes or no iff its stripped, case-folded form is one of that answer's spellings, and as unrecognised otherwise |
| Confirm.Resolve | hooks/post_gen_project.py:65-77 | blank returns True; a yes or no returns whether it names the default; anything else asks again |
| Confirm.FirstDecided | hooks/post_gen_project.py:63-77 | an answer after k reads is decision k-1; running out happens only after reading every line |
| Confirm.Answer | hooks/post_gen_project.py:46-77 | what yesno returns or raises for a default and the operator's lines (its properties are the lemmas below) |
| Confirm.BadDefaultReadsNothing | hooks/post_gen_project.py:51-56 | yesno raises ValueError, before reading anything, iff the default is neither "yes" nor "no" |
| Confirm.FirstDecidedIsFirst | hooks/post_gen_project.py:63-77 | the loop returns v after k reads iff line k is the first decisive one and it decides v |
| Confirm.FirstDecidedRunsOut | hooks/post_gen_project.py:63-64 | the loop runs out of input iff no remaining line is decisive |
| Confirm.AnswerIsFirstDecisive | hooks/post_gen_project.py:63-77 | yesno returns v after k lines iff line k is the first blank or recognised line and it reads as v |
| Confirm.RunsOutIffNoneDecisive | hooks/post_gen_project.py:63-64 | with a valid default, yesno ends in EOFError iff no line is decisive |
| Confirm.FirstDecidedPrefix | hooks/post_gen_project.py:63-77 | the answer depends only on the lines up to the deciding one |
| Confirm.AnswerIgnoresLaterLines | hooks/post_gen_project.py:63-77 | replacing every line after the deciding one leaves the answer unchanged |
| Confirm.BlankLineChoosesDefault | hooks/post_gen_project.py:42-66 | an empty or whitespace-only first line returns True for either default |
| Confirm.SaidReturnsDefaultMatch | hooks/post_gen_project.py:68-77 | y/yes returns `default == "yes"`; n/no returns `default == "no"` |
| Confirm.ReadingUnpadded | hooks/post_gen_project.py:42-43 | a line without surrounding whitespace is read as typed |
| Confirm.YesAgainstDefaultNo | hooks/post_gen_project.py:68-72 | with default "no", "y" returns False |
| Confirm.NoWithDefaultNo | hooks/post_gen_project.py:73-75 | with default "no", "n" returns True |
| Confirm.ReadingOfMaybe | hooks/post_gen_project.py:68-73 | "maybe" is unrecognised |
| Confirm.ReadingOfUpperYes | hooks/post_gen_project.py:68 | "YES" is a yes |
| Confirm.UnrecognisedSkipped | hooks/post_gen_project.py:63-77 | "maybe" is skipped and the following "YES" decides, after two reads |
| Confirm.PromptsPerRead | hooks/post_gen_project.py:58-64 | with a valid default the prompt text is shown at least once: once per line read, and once more when the input runs out |
| Confirm.Reprompt | hooks/post_gen_project.py:63-77 | the `while True` loop: its outcome is the first decisive line's answer, or EOFError after every line, and it shows the prompt once per read plus once before EOFError |
| Confirm.Yesno | hooks/post_gen_project.py:46-77 | the whole call: it returns or raises exactly as Answer says, ValueError before any prompt, and the prompts it shows are Prompts |
| Provision.Ask | hooks/post_gen_project.py:46-64 | a question with a valid default shows at least one prompt, is answered or runs out, and reads no more lines than given |
| Provision.RaiseIfChosen | hooks/post_gen_project.py:172-173 | True raises the step's error, False carries on, and running out of input raises EOFError |
| Provision.HandleCreateReply | hooks/post_gen_project.py:160-179 | RemoteRepoExistsError iff 422 with the exact message, `prompt` set and the answer True; HttpError (with the reply's status) iff the reply is neither "exists" nor 201 and is 4xx/5xx; EOFError iff the question ran out of input; it returns iff "exists" was not acted on or the status does not raise; a question only for "exists" with `prompt`; 201 returns with just the request |
| Provision.CreateRepo | hooks/post_gen_project.py:118-179 | a missing token is a KeyError before any request; otherwise one POST comes first, followed only by console traffic; it returns iff the token is present and either "exists" was not acted on or the status does not raise; the RemoteRepoExistsError, HttpError and EOFError conditions as above; when it asks, the prompts shown are those of the default-"no" question and the lines read are that answer's |
| Provision.CommitCommand | hooks/post_gen_project.py:246 | `"git commit " + " ".join(...)` of the `-m` flags (its shape proved by CommitCommandShape) |
| Provision.JoinFlags | hooks/post_gen_project.py:246 | joining the `-m` flags with spaces gives each flag in order, one space apart |
| Provision.CommitCommandShape | hooks/post_gen_project.py:246 | the commit command is `git commit ` followed by `-m "<msg>"` for each message in order |
| Provision.SingleMessageIsList | hooks/post_gen_project.py:241-242 | a lone string commits exactly as the one-element list does: `git commit -m "<msg>"` |
| Provision.DefaultCommitCommand | hooks/post_gen_project.py:227-246 | the default message gives two `-m` paragraphs, in order |
| Provision.RemoteUrl | hooks/post_gen_project.py:240 | the SSH remote of the repository (read back by RemoteUrlNamesRepo) |
| Provision.RemoteUrlNamesRepo | hooks/post_gen_project.py:240 | the remote is the organisation's SSH prefix, the repository name, then `.git` |
| Provision.RemoteUrlInjective | hooks/post_gen_project.py:240 | different repositories get different remotes |
| Provision.PushCommands | hooks/post_gen_project.py:244-249 | the five git commands of the push, in order: init on master, add, commit, add the remote, push |
| Provision.PushInitialRepo | hooks/post_gen_project.py:227-258 | the five git commands run first, in order; GithubPushError iff the push failed, `prompt` is set and the default-"no" answer is True; it returns iff the push succeeded, there is no prompt, or the answer is False; no question after a successful push; after a failed push with `prompt`, the prompts shown are those of the default-"no" question and the lines read are that answer's |
| Provision.RepoApiSegments | hooks/post_gen_project.py:17 | the repository endpoint has the segments orgs / Opus10 / repos |
| Provision.CollaboratorsPath | hooks/post_gen_project.py:201 | the collaborators endpoint of a team and a repository (read back by CollaboratorsPathSegments) |
| Provision.CollaboratorsPathJoin | hooks/post_gen_project.py:201 | the collaborators path is its segments joined by `/` |
| Provision.CollaboratorsPathSegments | hooks/post_gen_project.py:201 | the team id and the repository can be read back from their own segments of the collaborators path |
| Provision.ProtectionPath | hooks/post_gen_project.py:219 | the protection endpoint of a repository's branch (read back by ProtectionPathSegments) |
| Provision.ProtectionPathJoin | hooks/post_gen_project.py:219 | the protection path is its segments joined by `/` |
| Provision.ProtectionPathSegments | hooks/post_gen_project.py:219 | the repository and the branch can be read back from their own segments of the protection path |
| Provision.Grant | hooks/post_gen_project.py:200-204 | the grant is one PUT appended to what came before; it returns True iff the token is present and the status does not raise, raises KeyError iff the token is missing, and raises HttpError with the reply's status iff that status is 4xx/5xx |
| Provision.AddCollaborators | hooks/post_gen_project.py:182-204 | returns False iff prompted and the default-"yes" answer is False; returns True iff agreed (or not asked), the token is present and the PUT succeeded; a PUT is sent iff agreed and the token is present, and it is the last effect; EOFError iff prompted and input runs out; KeyError iff agreed and the token is missing; HttpError with the reply's status iff agreed, the token is present and the status is 4xx/5xx; when prompted, the question's prompts come first and the lines read are the default-"yes" answer's; no question without `prompt` |
| Provision.SetupBranchProtection | hooks/post_gen_project.py:207-224 | one PUT with the preview media type; it returns iff the token is present and the status does not raise |
| Provision.CircleciCall | hooks/post_gen_project.py:261-305 | one CircleCI request with the token as the basic-auth user; it returns iff the token is present and the status does not raise |
| Provision.CircleciFollow | hooks/post_gen_project.py:271-280 | `circleci_follow`: a POST to the project's `/follow`, as CircleciCall states |
| Provision.CircleciConfigure | hooks/post_gen_project.py:283-305 | `circleci_configure_project_settings`: a PUT of the feature flags to `/settings`, as CircleciCall states |
| Provision.CredentialGate | hooks/post_gen_project.py:313-327 | passes iff both tokens are set and non-empty; GitHub is checked first, so a missing GitHub token is reported even when both are missing |
| Setup.CreateRepoTraffic | hooks/post_gen_project.py:145-158 | repository creation sends exactly its one POST and runs no command |
| Setup.PushTraffic | hooks/post_gen_project.py:244-258 | the push step runs exactly the five git commands and sends nothing |
| Setup.Preamble | hooks/post_gen_project.py:310-313 | the announcement, `pip3 install requests` and the credentials notice that precede the gate |
| Setup.PreambleTraffic | hooks/post_gen_project.py:309-312 | before the gate, only `pip3 install requests` runs and nothing is sent |
| Setup.Planned | hooks/post_gen_project.py:329-359 | the four requests a full run sends, in order: create, protect, follow, configure |
| Setup.Creation | hooks/post_gen_project.py:329-332 | `github_create_repo(REPO_NAME, DESCRIPTION)` with its default options |
| Setup.Push | hooks/post_gen_project.py:334-335 | `github_push_initial_repo(REPO_NAME)`: the default commit message, asking before aborting |
| Setup.ServicesResult | hooks/post_gen_project.py:337-359 | the service calls raise the first rejected status, in call order, and return otherwise |
| Setup.ServicesSent | hooks/post_gen_project.py:337-359 | between one and three service requests are sent: up to and including the first rejected one |
| Setup.AfterPush | hooks/post_gen_project.py:337-368 | after the push: two to four requests in all, the push done, and the lines read never fewer than before nor more than given |
| Setup.RepositoryRun | hooks/post_gen_project.py:329-335 | the repository steps send exactly the creation request and read no more lines than given |
| Setup.Provisioned | hooks/post_gen_project.py:329-374 | after the gate, one to four requests are sent and no more lines are read than given |
| Setup.FootingRun | hooks/post_gen_project.py:308-374 | a run sends at most four requests, reads at most the lines given, and sends none iff the credential gate fails |
| Setup.ServicesFirstFailure | hooks/post_gen_project.py:337-359 | the service calls return iff no status is 4xx/5xx; the call at index k fails, with its own status and after k+1 requests, iff it is the first rejected one |
| Setup.FootingReturnsIffEveryStep | hooks/post_gen_project.py:308-374 | `footing_setup` returns iff both tokens are set, the creation returned, the push returned on the lines left, the three service calls returned, and a line was left for the final pause |
| Setup.ReturnedRunIsComplete | hooks/post_gen_project.py:329-374 | a run that returns sent all four requests, pushed, and read at least one line |
| Setup.RepositoryFailureKinds | hooks/post_gen_project.py:329-335 | the repository steps raise only RemoteRepoExistsError or an HTTP error before the push, GithubPushError after it, or EOFError |
| Setup.ProvisionedFailureKinds | hooks/post_gen_project.py:329-374 | after the gate: RemoteRepoExistsError with one request and no push, GithubPushError with one request after the push, a rejected status (one request iff not pushed), or EOFError; never a KeyError, ValueError or CredentialsError |
| Setup.FootingFailureKinds | hooks/post_gen_project.py:313-374 | CredentialsError iff a token is missing, and then no request, no push and no line read; otherwise the run is Provisioned's |
| Setup.HappyPath | hooks/post_gen_project.py:308-374 | both tokens, a 201 creation, a clean push, accepted service calls and one line: the run returns after four requests, pushed, one line read |
| Setup.FinalPauseNeedsALine | hooks/post_gen_project.py:361-368 | the same run with no line left raises EOFError at the final pause, after all four requests |
| Setup.CreateStep | hooks/post_gen_project.py:329-332 | the announcement then exactly Creation's effects, result and reads; it sends only the creation request and runs nothing |
| Setup.PushStep | hooks/post_gen_project.py:334-335 | the announcement then exactly Push's effects, result and reads; it runs the five commands and sends nothing |
| Setup.RepositorySteps | hooks/post_gen_project.py:329-335 | ends and reads as RepositoryRun says; sends exactly the creation request; runs the five git commands iff the creation returned |
| Setup.ConnectServices | hooks/post_gen_project.py:337-359 | ends as ServicesResult says and sends the protect/follow/configure requests up to the first rejected one; runs nothing |
| Setup.FinishSetup | hooks/post_gen_project.py:337-374 | ends and reads as AfterPush says: the service requests up to the first rejected one, then the pause, which raises EOFError when no line is left and otherwise reads one and ends with the completion message |
| Setup.Provisioning | hooks/post_gen_project.py:329-374 | with both tokens: ends and reads as Provisioned says; the requests are the plan up to the step that ended the run; the push commands run iff the push was reached; a returning run ends with the completion message |
| Setup.FootingSetup | hooks/post_gen_project.py:308-374 | ends and reads as FootingRun says; no request when the gate fails, otherwise the plan up to the step that ended the run; `pip3 install requests` then the push commands iff the push was reached; a returning run ends with the completion message |
| Setup.AskNames | hooks/post_gen_project.py:389-398 | the names question is yesno with default "yes": its answer is Answer's, its prompts are Ask's, and it sends nothing |
| Setup.RunSetup | hooks/post_gen_project.py:398-399 | `footing_setup()` under `__main__`: exit 0 iff FootingRun returns, the requests as FootingSetup's, and an escaping exception ends the trace with its traceback |
| Setup.SetupHook | hooks/post_gen_project.py:389-402 | the names question first; nothing sent or run unless the names are confirmed; a "no" aborts with exit 1; once confirmed, exit 0 iff FootingRun on the lines left returns, with its requests |
| Setup.Hook | hooks/post_gen_project.py:377-402 | outside footing: the guidance and exit 1; under another footing command: nothing and exit 0; in setup mode as SetupHook says |

## Left out

- The HTTP client: `GithubClient` and `requests` are not modelled. Each call is a `Request` effect, and its status is an input. The unused `get` and `patch` methods of the client are not modelled, so the model has only the POST and PUT verbs.
- The branch-protection policy and the CircleCI feature flags are fixed JSON literals. They appear only by name (`ProtectionPolicy`, `CiFeatureFlags`).
- Shell commands other than `git push` run with `check=True`. The model treats them as succeeding: a failing `pip3 install`, `git init`, `git add`, `git commit` or `git remote add` would raise CalledProcessError, and the model does not include that.
- `resp.json()` on a body that is not JSON would raise. The model takes the reply's `message` field as an optional input, and takes `body` as the printed form of the JSON.
- Template substitution: the rendered `REPO_NAME`, `MODULE_NAME` and `DESCRIPTION` are the fields of `Setup.Params`, and the rendered names are the inputs of `PreGen.Validate`.
- Console input, output, the environment and the process exit are inputs (`lines`, `env`) and outcomes (effects, status). The wording of a Python traceback is not modelled, only the exception it reports.
- The module-level `import requests` runs before `footing_setup` installs the library and before the guidance printed outside footing; the model assumes the import succeeds.
- Provision.CredentialGate: reports which token is missing (`Provision.Token`), not the wording of the CredentialsError message.
- Setup.FootingSetup: states the requests sent, the commands run and the final message, not every progress line printed.
- Setup.Hook: states the requests and the exit status once the names are confirmed, not the shell commands run after that.
