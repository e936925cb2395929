/** The post-generation hook's provisioning steps, each as the decision it
    takes once the outside world has answered: what GitHub replied to the
    repository creation, what `git push` returned, which lines the operator
    typed. Every step yields the effects it produced, in order (printed
    lines, prompts shown, shell commands, HTTP requests), how it ended and
    how many input lines it read. */
module Provision {
  import opened PyText
  import Confirm

  const OrgName := "Opus10"
  const GithubTokenVar := "GITHUB_API_TOKEN"
  const CircleciTokenVar := "CIRCLECI_API_TOKEN"
  const GithubApiBase := "https://api.github.com"
  const RepoApi := "/orgs/" + OrgName + "/repos"
  const ProtectionPreview := "application/vnd.github.loki-preview+json"
  /** The `message` GitHub answers when the repository already exists. */
  const RepoCreationFailed := "Repository creation failed."
  const DefaultBranch := "master"
  const DefaultCommit := ["Initial scaffolding [skip ci]", "Type: trivial"]
  const StatusCreated := 201
  const StatusUnprocessable := 422

  datatype Verb = Post | Put

  /** GitHub calls send `Authorization: token <token>`; CircleCI calls use
      basic authentication with the token as user name. */
  datatype Auth = TokenHeader(token: string) | Basic(user: string, password: string)

  /** The JSON bodies sent. The branch-protection policy and the CircleCI
      feature flags are fixed literals and appear only by name. */
  datatype Payload =
    | NoPayload
    | NewRepo(name: string, description: string, isPrivate: bool, hasWiki: bool,
              allowSquashMerge: bool, allowMergeCommit: bool, allowRebaseMerge: bool)
    | TeamPermission(permission: string)
    | ProtectionPolicy
    | CiFeatureFlags

  datatype Effect =
    | Print(text: string)
    | PrintErr(text: string)
    | Prompt(text: string)
    | Shell(command: string)
    | Request(verb: Verb, url: string, auth: Auth, accept: Option<string>, payload: Payload)
    | Traceback(failure: Failure)

  /** The exceptions that can leave a step. MissingKey is the KeyError of
      `os.environ[...]`; EOFError is `input()` finding no more input. */
  datatype Failure =
    | CredentialsError(missing: Token)
    | RemoteRepoExistsError(message: string)
    | GithubPushError(message: string)
    | HttpError(status: int)
    | MissingKey(key: string)
    | ValueError
    | EOFError

  datatype Result<T> = Returned(value: T) | Raised(failure: Failure)

  datatype Step<T> = Step(effects: seq<Effect>, result: Result<T>, read: nat)

  /** What a GitHub API call answered: the status, the `message` field of
      the JSON body if any, and the body as printed. */
  datatype Reply = Reply(status: int, message: Option<string>, body: string)

  /** `raise_for_status()`: raises for a 4xx or 5xx status only. */
  predicate RaisesForStatus(status: int) {
    400 <= status < 600
  }

  /** `os.getenv(name)` is truthy: present and not empty. */
  predicate IsSet(env: map<string, string>, name: string) {
    name in env && env[name] != ""
  }

  predicate NoPrompt(es: seq<Effect>) {
    forall i :: 0 <= i < |es| ==> !es[i].Prompt?
  }

  /** Console traffic only: no command run, no request sent. */
  predicate Quiet(es: seq<Effect>) {
    forall i :: 0 <= i < |es| ==> es[i].Print? || es[i].PrintErr? || es[i].Prompt?
  }

  /** One `yesno` call: the prompts it showed and what it came to. */
  datatype Question = Question(shown: seq<Effect>, answer: Confirm.Outcome)

  /** A question asked with a valid default: it shows its prompt at least
      once, and it is answered or runs out of input. */
  predicate Posed(q: Question) {
    (q.answer.Answered? || q.answer.EndOfInput?)
    && |q.shown| >= 1 && forall i :: 0 <= i < |q.shown| ==> q.shown[i].Prompt?
  }

  /** `yesno(message, default)` over the operator's `lines`. */
  function Ask(message: string, default: string, lines: seq<string>): (q: Question)
    requires default == "yes" || default == "no"
    ensures Posed(q) && q.answer == Confirm.Answer(default, lines)
    ensures q.answer.read <= |lines|
  {
    Confirm.BadDefaultReadsNothing(default, lines);
    var ps := Confirm.Prompts(message, default, " ", lines);
    Question(seq(|ps|, i requires 0 <= i < |ps| => Prompt(ps[i])), Confirm.Answer(default, lines))
  }

  /** The question returned True: the default was chosen. */
  predicate Chosen(q: Question) {
    q.answer.Answered? && q.answer.defaultChosen
  }

  /** The question returned False. */
  predicate Declined(q: Question) {
    q.answer.Answered? && !q.answer.defaultChosen
  }

  /** `if yesno(...): raise failure`, after `before`: True raises `failure`,
      False carries on, and running out of input raises EOFError. */
  function RaiseIfChosen(before: seq<Effect>, q: Question, failure: Failure): (r: Step<()>)
    requires Posed(q) && failure != EOFError
    ensures r.effects == before + q.shown && r.read == q.answer.read
    ensures r.result == Raised(failure) <==> Chosen(q)
    ensures r.result == Returned(()) <==> Declined(q)
    ensures r.result.Raised? ==> r.result.failure == failure || r.result.failure == EOFError
  {
    match q.answer
    case Answered(chosen, k) => Step(before + q.shown, if chosen then Raised(failure) else Returned(()), k)
    case EndOfInput(k) => Step(before + q.shown, Raised(EOFError), k)
  }

  /** A default-"no" question over `lines` returns True. */
  predicate ChoseDefaultNo(lines: seq<string>) {
    Confirm.Answer("no", lines).Answered? && Confirm.Answer("no", lines).defaultChosen
  }

  /** A default-"no" question over `lines` returns False. */
  predicate DeclinedDefaultNo(lines: seq<string>) {
    Confirm.Answer("no", lines).Answered? && !Confirm.Answer("no", lines).defaultChosen
  }

  datatype RepoOptions = RepoOptions(disableSquashMerge: bool, disableMergeCommit: bool,
                                     disableRebaseMerge: bool, hasWiki: bool, prompt: bool)

  const DefaultRepoOptions := RepoOptions(true, false, true, false, true)

  function RepoExistsText(repoName: string): string {
    "Remote github repo already exists at https://github.com/" + OrgName + "/" + repoName + ".git."
  }

  const RepoExistsAdvice := " This can be from a previously failed setup run or because someone else already"
    + " created the repository. Continue without creating (y) or abort (n)?"

  function RepoExistsPrompt(repoName: string): string {
    RepoExistsText(repoName) + RepoExistsAdvice
  }

  /** The creation request: a public repository under the organisation, each
      merge strategy allowed unless its `disable_*` option is set. */
  function CreateRequest(token: string, repoName: string, description: string, o: RepoOptions): Effect {
    Request(Post, GithubApiBase + RepoApi, TokenHeader(token), None,
            NewRepo(repoName, description, false, o.hasWiki,
                    !o.disableSquashMerge, !o.disableMergeCommit, !o.disableRebaseMerge))
  }

  /** GitHub's answer says the repository already exists. */
  predicate AlreadyExists(reply: Reply) {
    reply.status == StatusUnprocessable && reply.message == Some(RepoCreationFailed)
  }

  /** What `github_create_repo` does once the request is sent, given
      GitHub's reply and the question it would ask. */
  function HandleCreateReply(request: Effect, prompt: bool, reply: Reply, q: Question,
                             existsText: string): (r: Step<()>)
    requires request.Request? && Posed(q)
    ensures |r.effects| >= 1 && r.effects[0] == request && Quiet(r.effects[1..])
    ensures r.result.Raised? ==>
      r.result.failure.RemoteRepoExistsError? || r.result.failure.HttpError? || r.result.failure == EOFError
    ensures r.result.Raised? && r.result.failure.RemoteRepoExistsError? <==>
      AlreadyExists(reply) && prompt && Chosen(q)
    ensures r.result.Raised? && r.result.failure.HttpError? <==>
      !AlreadyExists(reply) && reply.status != StatusCreated && RaisesForStatus(reply.status)
    ensures r.result.Raised? && r.result.failure.HttpError? ==> r.result.failure.status == reply.status
    ensures AlreadyExists(reply) && prompt ==> r.effects == [request] + q.shown && r.read == q.answer.read
    ensures !(AlreadyExists(reply) && prompt) ==> NoPrompt(r.effects) && r.read == 0
    ensures reply.status == StatusCreated ==> r == Step([request], Returned(()), 0)
    ensures r.result == Returned(()) <==>
      if AlreadyExists(reply) then !prompt || Declined(q) else !RaisesForStatus(reply.status)
    ensures r.result == Raised(EOFError) <==> AlreadyExists(reply) && prompt && q.answer.EndOfInput?
  {
    if AlreadyExists(reply) then
      if prompt then RaiseIfChosen([request], q, RemoteRepoExistsError(existsText))
      else Step([request], Returned(()), 0)
    else if reply.status != StatusCreated then
      Step([request, PrintErr("An error happened during git repo creation - \"" + reply.body + "\"")],
           if RaisesForStatus(reply.status) then Raised(HttpError(reply.status)) else Returned(()), 0)
    else Step([request], Returned(()), 0)
  }

  /** `github_create_repo`. A 422 whose message says the creation failed
      means the repository already exists: with `prompt` the operator is
      asked (default "no") and True aborts; without it the step carries on
      silently. Any other status but 201 prints the body and is raised if it
      is a 4xx or 5xx. */
  function CreateRepo(env: map<string, string>, repoName: string, description: string,
                      o: RepoOptions, reply: Reply, lines: seq<string>): (r: Step<()>)
    ensures GithubTokenVar !in env ==> r == Step([], Raised(MissingKey(GithubTokenVar)), 0)
    ensures GithubTokenVar in env ==>
      |r.effects| >= 1 && r.effects[0] == CreateRequest(env[GithubTokenVar], repoName, description, o)
      && Quiet(r.effects[1..])
    ensures GithubTokenVar in env && r.result.Raised? ==>
      r.result.failure.RemoteRepoExistsError? || r.result.failure.HttpError? || r.result.failure == EOFError
    ensures r.result.Raised? && r.result.failure.RemoteRepoExistsError? <==>
      GithubTokenVar in env && AlreadyExists(reply) && o.prompt && ChoseDefaultNo(lines)
    ensures r.result.Raised? && r.result.failure.HttpError? <==>
      GithubTokenVar in env && !AlreadyExists(reply) && reply.status != StatusCreated
      && RaisesForStatus(reply.status)
    ensures r.result.Raised? && r.result.failure.HttpError? ==> r.result.failure.status == reply.status
    ensures GithubTokenVar in env && AlreadyExists(reply) && o.prompt ==>
      |r.effects| >= 2 && r.effects[1].Prompt?
    ensures GithubTokenVar in env && AlreadyExists(reply) && o.prompt ==>
      r.effects[1..] == Ask(RepoExistsPrompt(repoName), "no", lines).shown
      && r.read == Confirm.Answer("no", lines).read
    ensures !(AlreadyExists(reply) && o.prompt) ==> NoPrompt(r.effects) && r.read == 0
    ensures GithubTokenVar in env && reply.status == StatusCreated ==>
      r == Step([CreateRequest(env[GithubTokenVar], repoName, description, o)], Returned(()), 0)
    ensures r.result == Returned(()) <==>
      GithubTokenVar in env
      && (if AlreadyExists(reply) then !o.prompt || DeclinedDefaultNo(lines) else !RaisesForStatus(reply.status))
    ensures r.result == Raised(EOFError) <==>
      GithubTokenVar in env && AlreadyExists(reply) && o.prompt && Confirm.Answer("no", lines).EndOfInput?
    ensures r.read <= |lines|
  {
    if GithubTokenVar !in env then Step([], Raised(MissingKey(GithubTokenVar)), 0)
    else
      HandleCreateReply(CreateRequest(env[GithubTokenVar], repoName, description, o), o.prompt, reply,
                        Ask(RepoExistsPrompt(repoName), "no", lines), RepoExistsText(repoName))
  }

  /** A commit message argument: one string, or a list of paragraphs. */
  datatype CommitMessage = Single(text: string) | Several(texts: seq<string>)

  /** `isinstance(initial_commit, str)` turns a lone string into a list. */
  function Messages(c: CommitMessage): seq<string> {
    match c
    case Single(m) => [m]
    case Several(ms) => ms
  }

  function MessageFlag(m: string): string {
    "-m \"" + m + "\""
  }

  /** `"git commit " + " ".join(f'-m "{msg}"' for msg in messages)`. */
  function CommitCommand(messages: seq<string>): string {
    "git commit " + Join(" ", seq(|messages|, i requires 0 <= i < |messages| => MessageFlag(messages[i])))
  }

  /** `-m "<msg>"` for each message, in order, one space apart. */
  function FlagsText(messages: seq<string>): string {
    if messages == [] then ""
    else if |messages| == 1 then MessageFlag(messages[0])
    else MessageFlag(messages[0]) + " " + FlagsText(messages[1..])
  }

  lemma {:induction false} JoinFlags(messages: seq<string>)
    ensures var flags := seq(|messages|, i requires 0 <= i < |messages| => MessageFlag(messages[i]));
      Join(" ", flags) == FlagsText(messages)
  {
    var flags := seq(|messages|, i requires 0 <= i < |messages| => MessageFlag(messages[i]));
    if |messages| > 1 {
      JoinFlags(messages[1..]);
      var rest := seq(|messages| - 1, i requires 0 <= i < |messages| - 1 => MessageFlag(messages[1..][i]));
      assert flags[1..] == rest;
    }
  }

  /** The commit command is `git commit ` followed by `-m "<msg>"` for each
      message in order, one space apart; an empty list leaves the bare
      `git commit `. */
  lemma CommitCommandShape(messages: seq<string>)
    ensures CommitCommand(messages) == "git commit " + FlagsText(messages)
  {
    JoinFlags(messages);
  }

  /** A lone string commits exactly as the one-element list does. */
  lemma SingleMessageIsList(m: string)
    ensures CommitCommand(Messages(Single(m))) == CommitCommand(Messages(Several([m])))
    ensures CommitCommand(Messages(Single(m))) == "git commit -m \"" + m + "\""
  {
    CommitCommandShape([m]);
  }

  /** The default message gives two `-m` paragraphs, in order. */
  lemma DefaultCommitCommand()
    ensures CommitCommand(DefaultCommit) == "git commit " + MessageFlag(DefaultCommit[0]) + " " + MessageFlag(DefaultCommit[1])
  {
    CommitCommandShape(DefaultCommit);
    var m0, m1 := DefaultCommit[0], DefaultCommit[1];
    assert DefaultCommit[1..] == [m1];
  }

  /** The SSH remote of the repository. */
  function RemoteUrl(repoName: string): string {
    "git@github.com:" + OrgName + "/" + repoName + ".git"
  }

  /** The repository name can be read back from its remote. */
  lemma RemoteUrlNamesRepo(repoName: string)
    ensures var u, p := RemoteUrl(repoName), "git@github.com:" + OrgName + "/";
      |p| + 4 <= |u| && u[|p|..|u| - 4] == repoName
  {
  }

  /** Different repositories get different remotes. */
  lemma RemoteUrlInjective(a: string, b: string)
    requires RemoteUrl(a) == RemoteUrl(b)
    ensures a == b
  {
    RemoteUrlNamesRepo(a);
    RemoteUrlNamesRepo(b);
  }

  /** The commands `github_push_initial_repo` runs, the push last. */
  function PushCommands(repoName: string, commit: CommitMessage): seq<string> {
    ["git init -b " + DefaultBranch, "git add .", CommitCommand(Messages(commit)),
     "git remote add origin " + RemoteUrl(repoName), "git push origin " + DefaultBranch]
  }

  function Shells(commands: seq<string>): (es: seq<Effect>)
    ensures |es| == |commands|
    ensures forall i :: 0 <= i < |es| ==> es[i] == Shell(commands[i])
  {
    seq(|commands|, i requires 0 <= i < |commands| => Shell(commands[i]))
  }

  const PushErrorText := "There was an error when pushing the initial repository."

  const PushErrorPrompt := PushErrorText
    + " This could be because the initial repository has already been set up or because the"
    + " repository previously existed. Continue without pushing (y) or abort (n)?"

  /** `github_push_initial_repo`: the five git commands, then, when the push
      returned non-zero and `prompt` is set, a default-"no" question whose
      default aborts. */
  function PushInitialRepo(repoName: string, commit: CommitMessage, prompt: bool,
                           pushCode: int, lines: seq<string>): (r: Step<()>)
    ensures |r.effects| >= 5 && r.effects[..5] == Shells(PushCommands(repoName, commit))
    ensures Quiet(r.effects[5..])
    ensures r.result.Raised? ==> r.result.failure.GithubPushError? || r.result.failure == EOFError
    ensures r.result.Raised? && r.result.failure.GithubPushError? <==>
      pushCode != 0 && prompt && ChoseDefaultNo(lines)
    ensures r.result == Returned(()) <==> pushCode == 0 || !prompt || DeclinedDefaultNo(lines)
    ensures pushCode != 0 && prompt ==> |r.effects| >= 6 && r.effects[5].Prompt?
    ensures pushCode != 0 && prompt ==>
      r.effects[5..] == Ask(PushErrorPrompt, "no", lines).shown && r.read == Confirm.Answer("no", lines).read
    ensures pushCode == 0 || !prompt ==> NoPrompt(r.effects) && r.read == 0
    ensures r.read <= |lines|
  {
    var commands := Shells(PushCommands(repoName, commit));
    if pushCode != 0 && prompt then
      RaiseIfChosen(commands, Ask(PushErrorPrompt, "no", lines), GithubPushError(PushErrorText))
    else Step(commands, Returned(()), 0)
  }

  /** `/teams/{team_id}/repos/{org}/{repo}`. */
  function CollaboratorsPath(teamId: int, repoName: string): string {
    "/teams/" + IntText(teamId) + "/repos/" + OrgName + "/" + repoName
  }

  /** `/repos/{org}/{repo}/branches/{branch}/protection`. */
  function ProtectionPath(repoName: string, branch: string): string {
    "/repos/" + OrgName + "/" + repoName + "/branches/" + branch + "/protection"
  }

  lemma JoinCons(sep: string, p: string, rest: seq<string>)
    requires |rest| >= 1
    ensures Join(sep, [p] + rest) == p + sep + Join(sep, rest)
  {
    assert ([p] + rest)[1..] == rest;
  }

  /** The organisation's repository endpoint has the segments orgs/Opus10/repos. */
  lemma RepoApiSegments()
    ensures Split(RepoApi, '/') == ["", "orgs", OrgName, "repos"]
  {
    var parts := ["", "orgs", OrgName, "repos"];
    JoinCons("/", OrgName, ["repos"]);
    JoinCons("/", "orgs", [OrgName, "repos"]);
    JoinCons("/", "", ["orgs", OrgName, "repos"]);
    assert [""] + ["orgs", OrgName, "repos"] == parts;
    assert Join("/", parts) == RepoApi;
    SplitJoin('/', parts);
  }

  /** Joining six segments with `/`. */
  lemma JoinSix(a: string, b: string, c: string, d: string, e: string, f: string)
    ensures Join("/", [a, b, c, d, e, f]) == a + "/" + b + "/" + c + "/" + d + "/" + e + "/" + f
  {
    JoinCons("/", e, [f]);
    JoinCons("/", d, [e, f]);
    JoinCons("/", c, [d, e, f]);
    JoinCons("/", b, [c, d, e, f]);
    JoinCons("/", a, [b, c, d, e, f]);
  }

  /** The collaborators path is its segments joined by `/`. */
  lemma CollaboratorsPathJoin(teamId: int, repoName: string)
    ensures CollaboratorsPath(teamId, repoName) ==
      Join("/", ["", "teams", IntText(teamId), "repos", OrgName, repoName])
  {
    var t := IntText(teamId);
    JoinSix("", "teams", t, "repos", OrgName, repoName);
    assert "" + "/" + "teams" + "/" == "/teams/";
    assert "/" + "repos" + "/" == "/repos/";
  }

  /** The team and the repository stand in their own path segments, so
      they can be read back, as long as the repository name has no `/`. */
  lemma CollaboratorsPathSegments(teamId: int, repoName: string)
    requires '/' !in repoName
    ensures Split(CollaboratorsPath(teamId, repoName), '/') ==
      ["", "teams", IntText(teamId), "repos", OrgName, repoName]
  {
    CollaboratorsPathJoin(teamId, repoName);
    SplitJoin('/', ["", "teams", IntText(teamId), "repos", OrgName, repoName]);
  }

  /** The protection path is its segments joined by `/`. */
  lemma ProtectionPathJoin(repoName: string, branch: string)
    ensures ProtectionPath(repoName, branch) == Join("/", ["", "repos", OrgName, repoName, "branches", branch, "protection"])
  {
    JoinSix("repos", OrgName, repoName, "branches", branch, "protection");
    JoinCons("/", "", ["repos", OrgName, repoName, "branches", branch, "protection"]);
    Regroup("repos", OrgName, repoName, "branches", branch, "protection");
    assert "/" + "repos" + "/" == "/repos/";
    assert "/" + "branches" + "/" == "/branches/";
    assert "/" + "protection" == "/protection";
  }

  lemma Regroup(a: string, b: string, c: string, d: string, e: string, f: string)
    ensures "" + "/" + (a + "/" + b + "/" + c + "/" + d + "/" + e + "/" + f)
      == ("/" + a + "/") + b + "/" + c + ("/" + d + "/") + e + ("/" + f)
  {
  }

  /** The repository and the branch stand in their own path segments, as
      long as neither contains a `/`. */
  lemma ProtectionPathSegments(repoName: string, branch: string)
    requires '/' !in repoName && '/' !in branch
    ensures Split(ProtectionPath(repoName, branch), '/') ==
      ["", "repos", OrgName, repoName, "branches", branch, "protection"]
  {
    ProtectionPathJoin(repoName, branch);
    SplitJoin('/', ["", "repos", OrgName, repoName, "branches", branch, "protection"]);
  }

  function CollaboratorsPrompt(repoName: string, teamName: string, permission: string): string {
    "Add " + permission + " access for the \"" + teamName + "\" team on " + repoName
    + " (if not, permissions will need to be configured later)?"
  }

  predicate HasRequest(es: seq<Effect>) {
    exists i :: 0 <= i < |es| && es[i].Request?
  }

  /** The grant itself, after `before`: a PUT of the permission for the
      team, raised on a 4xx/5xx status, returning True otherwise. */
  function Grant(before: seq<Effect>, env: map<string, string>, repoName: string, teamId: int,
                 permission: string, putStatus: int, k: nat): (r: Step<bool>)
    requires !HasRequest(before)
    ensures |r.effects| >= |before| && r.effects[..|before|] == before && r.read == k
    ensures r.result == Returned(true) <==> GithubTokenVar in env && !RaisesForStatus(putStatus)
    ensures r.result != Returned(false)
    ensures r.result == Raised(MissingKey(GithubTokenVar)) <==> GithubTokenVar !in env
    ensures r.result == Raised(HttpError(putStatus)) <==> GithubTokenVar in env && RaisesForStatus(putStatus)
    ensures HasRequest(r.effects) <==> GithubTokenVar in env
    ensures GithubTokenVar in env ==>
      r.effects == before + [Request(Put, GithubApiBase + CollaboratorsPath(teamId, repoName), TokenHeader(env[GithubTokenVar]),
               None, TeamPermission(permission))]
  {
    if GithubTokenVar !in env then Step(before, Raised(MissingKey(GithubTokenVar)), k)
    else
      var put := Request(Put, GithubApiBase + CollaboratorsPath(teamId, repoName),
                         TokenHeader(env[GithubTokenVar]), None, TeamPermission(permission));
      assert (before + [put])[|before|].Request?;
      Step(before + [put], if RaisesForStatus(putStatus) then Raised(HttpError(putStatus)) else Returned(true), k)
  }

  /** The operator agreed to the grant (or was not asked). */
  predicate GrantAgreed(prompt: bool, lines: seq<string>) {
    !prompt || (Confirm.Answer("yes", lines).Answered? && Confirm.Answer("yes", lines).defaultChosen)
  }

  /** `github_add_collaborators`: with `prompt`, a default-"yes" question
      whose non-default answer skips the grant and returns False; otherwise
      the team is granted `permission` with one PUT and True is returned. */
  function AddCollaborators(env: map<string, string>, repoName: string, teamId: int, teamName: string,
                            permission: string, prompt: bool, putStatus: int,
                            lines: seq<string>): (r: Step<bool>)
    ensures r.result == Returned(false) <==>
      prompt && Confirm.Answer("yes", lines).Answered? && !Confirm.Answer("yes", lines).defaultChosen
    ensures r.result == Returned(true) <==>
      GrantAgreed(prompt, lines) && GithubTokenVar in env && !RaisesForStatus(putStatus)
    ensures r.result == Raised(EOFError) <==> prompt && Confirm.Answer("yes", lines).EndOfInput?
    ensures r.result == Raised(MissingKey(GithubTokenVar)) <==> GrantAgreed(prompt, lines) && GithubTokenVar !in env
    ensures r.result == Raised(HttpError(putStatus)) <==>
      GrantAgreed(prompt, lines) && GithubTokenVar in env && RaisesForStatus(putStatus)
    ensures HasRequest(r.effects) <==> GrantAgreed(prompt, lines) && GithubTokenVar in env
    ensures GrantAgreed(prompt, lines) && GithubTokenVar in env ==>
      r.effects[|r.effects| - 1] == Request(Put, GithubApiBase + CollaboratorsPath(teamId, repoName),
                                            TokenHeader(env[GithubTokenVar]), None, TeamPermission(permission))
    ensures !prompt ==> NoPrompt(r.effects) && r.read == 0
    ensures prompt ==>
      var q := Ask(CollaboratorsPrompt(repoName, teamName, permission), "yes", lines);
      |r.effects| >= |q.shown| && r.effects[..|q.shown|] == q.shown && r.read == q.answer.read
    ensures r.read <= |lines|
  {
    if prompt then
      var q := Ask(CollaboratorsPrompt(repoName, teamName, permission), "yes", lines);
      match q.answer
      case Answered(agreed, k) =>
        if agreed then Grant(q.shown, env, repoName, teamId, permission, putStatus, k)
        else Step(q.shown, Returned(false), k)
      case EndOfInput(k) => Step(q.shown, Raised(EOFError), k)
    else
      Grant([], env, repoName, teamId, permission, putStatus, 0)
  }

  /** The branch-protection PUT, with the preview media type. */
  function ProtectionRequest(token: string, repoName: string, branch: string): Effect {
    Request(Put, GithubApiBase + ProtectionPath(repoName, branch), TokenHeader(token),
            Some(ProtectionPreview), ProtectionPolicy)
  }

  /** `github_setup_branch_protection`: one PUT, raised on a 4xx/5xx
      status, no question asked. */
  function SetupBranchProtection(env: map<string, string>, repoName: string, branch: string,
                                 status: int): (r: Step<()>)
    ensures r.read == 0
    ensures r.result == Returned(()) <==> GithubTokenVar in env && !RaisesForStatus(status)
    ensures GithubTokenVar in env ==> r.effects == [ProtectionRequest(env[GithubTokenVar], repoName, branch)]
    ensures GithubTokenVar !in env ==> r.effects == []
  {
    if GithubTokenVar !in env then Step([], Raised(MissingKey(GithubTokenVar)), 0)
    else
      Step([ProtectionRequest(env[GithubTokenVar], repoName, branch)],
           if RaisesForStatus(status) then Raised(HttpError(status)) else Returned(()), 0)
  }

  /** The CircleCI project of a repository. */
  function CircleciProject(repoName: string): string {
    "https://circleci.com/api/v1.1/project/github/" + OrgName + "/" + repoName
  }

  /** A request on the CircleCI project (`/follow` or `/settings`), with the
      token as basic-auth user and an empty password. */
  function CircleciRequest(token: string, repoName: string, verb: Verb, resource: string,
                           payload: Payload): Effect {
    Request(verb, CircleciProject(repoName) + resource, Basic(token, ""), None, payload)
  }

  /** One CircleCI call, raised on a 4xx/5xx status. */
  function CircleciCall(env: map<string, string>, repoName: string, verb: Verb, resource: string,
                        payload: Payload, status: int): (r: Step<()>)
    ensures r.read == 0
    ensures r.result == Returned(()) <==> CircleciTokenVar in env && !RaisesForStatus(status)
    ensures CircleciTokenVar in env ==>
      r.effects == [CircleciRequest(env[CircleciTokenVar], repoName, verb, resource, payload)]
    ensures CircleciTokenVar !in env ==> r.effects == []
  {
    if CircleciTokenVar !in env then Step([], Raised(MissingKey(CircleciTokenVar)), 0)
    else
      Step([CircleciRequest(env[CircleciTokenVar], repoName, verb, resource, payload)],
           if RaisesForStatus(status) then Raised(HttpError(status)) else Returned(()), 0)
  }

  /** `circleci_follow`. */
  function CircleciFollow(env: map<string, string>, repoName: string, status: int): Step<()> {
    CircleciCall(env, repoName, Post, "/follow", NoPayload, status)
  }

  /** `circleci_configure_project_settings`. */
  function CircleciConfigure(env: map<string, string>, repoName: string, status: int): Step<()> {
    CircleciCall(env, repoName, Put, "/settings", CiFeatureFlags, status)
  }

  /** The two tokens the setup needs. */
  datatype Token = GithubToken | CircleciToken

  function TokenVar(t: Token): string {
    match t
    case GithubToken => GithubTokenVar
    case CircleciToken => CircleciTokenVar
  }

  /** The credential gate of `footing_setup`: the GitHub token is checked
      before the CircleCI token, and the first one missing (or empty) is
      the one reported. */
  function CredentialGate(env: map<string, string>): (r: Option<Failure>)
    ensures r == None <==> IsSet(env, GithubTokenVar) && IsSet(env, CircleciTokenVar)
    ensures !IsSet(env, GithubTokenVar) ==> r == Some(CredentialsError(GithubToken))
    ensures IsSet(env, GithubTokenVar) && !IsSet(env, CircleciTokenVar) ==>
      r == Some(CredentialsError(CircleciToken))
  {
    if !IsSet(env, TokenVar(GithubToken)) then Some(CredentialsError(GithubToken))
    else if !IsSet(env, TokenVar(CircleciToken)) then Some(CredentialsError(CircleciToken))
    else None
  }
}
