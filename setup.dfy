/** The post-generation hook as run: `footing_setup`, which installs the
    HTTP library, checks the two tokens and then provisions the repository
    step by step, and the `__main__` guard, which refuses to run outside
    footing and only sets up when footing asks for it. */
module Setup {
  import opened PyText
  import Confirm
  import opened Provision

  const FootingVar := "_FOOTING"
  const SetupMode := "setup"
  const PipInstall := "pip3 install requests"

  /** The names the template rendered into the hook. */
  datatype Params = Params(repoName: string, moduleName: string, description: string)

  /** What the outside world answers during a setup: GitHub's reply to the
      creation, the exit code of `git push`, and the statuses of the branch
      protection, CircleCI follow and CircleCI settings calls. */
  datatype Remote = Remote(create: Reply, pushCode: int, protectionStatus: int,
                           followStatus: int, settingsStatus: int)

  /** The HTTP requests among the effects, in order. */
  function Requests(es: seq<Effect>): seq<Effect>
  {
    if es == [] then []
    else (if es[0].Request? then [es[0]] else []) + Requests(es[1..])
  }

  /** The shell commands among the effects, in order. */
  function Commands(es: seq<Effect>): seq<string>
  {
    if es == [] then []
    else (if es[0].Shell? then [es[0].command] else []) + Commands(es[1..])
  }

  lemma {:induction false} RequestsAppend(a: seq<Effect>, b: seq<Effect>)
    ensures Requests(a + b) == Requests(a) + Requests(b)
  {
    if a == [] {
      assert a + b == b;
    } else {
      var ab := a + b;
      assert ab[0] == a[0] && ab[1..] == a[1..] + b;
      assert Requests(ab) == (if a[0].Request? then [a[0]] else []) + Requests(a[1..] + b);
      RequestsAppend(a[1..], b);
      assert Requests(a) == (if a[0].Request? then [a[0]] else []) + Requests(a[1..]);
    }
  }

  lemma {:induction false} CommandsAppend(a: seq<Effect>, b: seq<Effect>)
    ensures Commands(a + b) == Commands(a) + Commands(b)
  {
    if a == [] {
      assert a + b == b;
    } else {
      var ab := a + b;
      assert ab[0] == a[0] && ab[1..] == a[1..] + b;
      assert Commands(ab) == (if a[0].Shell? then [a[0].command] else []) + Commands(a[1..] + b);
      CommandsAppend(a[1..], b);
      assert Commands(a) == (if a[0].Shell? then [a[0].command] else []) + Commands(a[1..]);
    }
  }

  /** The five git commands are the only commands of a push step. */
  lemma {:induction false} ShellsCommands(commands: seq<string>)
    ensures Commands(Shells(commands)) == commands
    ensures Requests(Shells(commands)) == []
  {
    if commands != [] {
      ShellsCommands(commands[1..]);
      assert Shells(commands)[1..] == Shells(commands[1..]);
    }
  }

  /** Console traffic sends no request and runs no command. */
  lemma {:induction false} QuietTraffic(es: seq<Effect>)
    requires Quiet(es)
    ensures Requests(es) == [] && Commands(es) == []
  {
    if es != [] {
      QuietTraffic(es[1..]);
    }
  }

  /** What a single effect contributes. */
  lemma OneTraffic(e: Effect)
    ensures Requests([e]) == (if e.Request? then [e] else [])
    ensures Commands([e]) == (if e.Shell? then [e.command] else [])
  {
    assert [e][1..] == [];
  }

  /** Appending one effect adds at most its own request or command. */
  lemma AppendOne(es: seq<Effect>, e: Effect)
    ensures Requests(es + [e]) == Requests(es) + (if e.Request? then [e] else [])
    ensures Commands(es + [e]) == Commands(es) + (if e.Shell? then [e.command] else [])
  {
    OneTraffic(e);
    RequestsAppend(es, [e]);
    CommandsAppend(es, [e]);
  }

  /** Announcing a step with a printed line adds nothing but the step's own
      requests and commands. */
  lemma Extended(es: seq<Effect>, text: string, step: seq<Effect>)
    ensures Requests(es + [Print(text)] + step) == Requests(es) + Requests(step)
    ensures Commands(es + [Print(text)] + step) == Commands(es) + Commands(step)
  {
    AppendOne(es, Print(text));
    RequestsAppend(es + [Print(text)], step);
    CommandsAppend(es + [Print(text)], step);
  }

  /** A step announced by a printed line sends and runs what the step does. */
  lemma Announced(text: string, step: seq<Effect>)
    ensures Requests([Print(text)] + step) == Requests(step)
    ensures Commands([Print(text)] + step) == Commands(step)
  {
    OneTraffic(Print(text));
    RequestsAppend([Print(text)], step);
    CommandsAppend([Print(text)], step);
  }

  /** A step made of one leading effect followed by console traffic. */
  lemma LeadThenQuiet(es: seq<Effect>)
    requires |es| >= 1 && Quiet(es[1..])
    ensures Requests(es) == Requests([es[0]]) && Commands(es) == Commands([es[0]])
  {
    assert es == [es[0]] + es[1..];
    QuietTraffic(es[1..]);
    RequestsAppend([es[0]], es[1..]);
    CommandsAppend([es[0]], es[1..]);
  }

  /** The first planned request is the creation; the others follow it. */
  lemma PlannedSplit(p: Params, env: map<string, string>, k: nat)
    requires GithubTokenVar in env && CircleciTokenVar in env && 1 <= k <= 4
    ensures Planned(p, env)[..1] == [CreateRequest(env[GithubTokenVar], p.repoName, p.description, DefaultRepoOptions)]
    ensures Planned(p, env)[..1] + Planned(p, env)[1..k] == Planned(p, env)[..k]
  {
  }

  /** Appending a non-empty step leaves that step's last effect last. */
  lemma LastOfAppend(a: seq<Effect>, b: seq<Effect>)
    ensures |b| >= 1 ==> (a + b)[|a + b| - 1] == b[|b| - 1]
  {
  }

  /** The repository creation sends its one request and runs nothing. */
  lemma CreateRepoTraffic(env: map<string, string>, repoName: string, description: string,
                          o: RepoOptions, reply: Reply, lines: seq<string>)
    requires GithubTokenVar in env
    ensures var r := CreateRepo(env, repoName, description, o, reply, lines);
      Requests(r.effects) == [CreateRequest(env[GithubTokenVar], repoName, description, o)]
      && Commands(r.effects) == []
  {
    var es := CreateRepo(env, repoName, description, o, reply, lines).effects;
    LeadThenQuiet(es);
    OneTraffic(es[0]);
  }

  /** The push step runs its five git commands and sends nothing. */
  lemma PushTraffic(repoName: string, commit: CommitMessage, prompt: bool, pushCode: int,
                    lines: seq<string>)
    ensures var r := PushInitialRepo(repoName, commit, prompt, pushCode, lines);
      Requests(r.effects) == [] && Commands(r.effects) == PushCommands(repoName, commit)
  {
    var es := PushInitialRepo(repoName, commit, prompt, pushCode, lines).effects;
    assert es == es[..5] + es[5..];
    ShellsCommands(PushCommands(repoName, commit));
    QuietTraffic(es[5..]);
    RequestsAppend(es[..5], es[5..]);
    CommandsAppend(es[..5], es[5..]);
  }

  /** A one-request step: its request and no command. */
  lemma SingleRequestTraffic(r: Effect)
    requires r.Request?
    ensures Requests([r]) == [r] && Commands([r]) == []
  {
    OneTraffic(r);
  }

  /** The requests a complete setup sends, in order: create the repository,
      protect master, follow the project on CircleCI, configure it. */
  function Planned(p: Params, env: map<string, string>): seq<Effect>
    requires GithubTokenVar in env && CircleciTokenVar in env
  {
    [CreateRequest(env[GithubTokenVar], p.repoName, p.description, DefaultRepoOptions),
     ProtectionRequest(env[GithubTokenVar], p.repoName, DefaultBranch),
     CircleciRequest(env[CircleciTokenVar], p.repoName, Post, "/follow", NoPayload),
     CircleciRequest(env[CircleciTokenVar], p.repoName, Put, "/settings", CiFeatureFlags)]
  }

  function CreatingText(repoName: string): string {
    "Creating the github repository at https://github.com/" + OrgName + "/" + repoName
  }

  const FinalStepText := "Final step! Go to https://github.com/Opus10/public-django-app-template"
    + "#readthedocs-setup and read the instructions for ReadTheDocs integration. If you bypass"
    + " this step, your docs will not build properly. Hit \"return\" after you have done this."

  const CompleteAdvice := "\", make a new branch,"
    + " and type \"make docker-setup\" to set up your development environment."

  function CompleteText(repoName: string): string {
    "Setup complete! cd into \"" + repoName + CompleteAdvice
  }


  /** The repository creation as `footing_setup` calls it. */
  function Creation(p: Params, env: map<string, string>, remote: Remote, lines: seq<string>): Step<()> {
    CreateRepo(env, p.repoName, p.description, DefaultRepoOptions, remote.create, lines)
  }

  /** The initial push as `footing_setup` calls it: the default commit
      message, asking before aborting. */
  function Push(p: Params, remote: Remote, lines: seq<string>): Step<()> {
    PushInitialRepo(p.repoName, Several(DefaultCommit), true, remote.pushCode, lines)
  }

  /** How the three service calls end: the first status that
      `raise_for_status` rejects is raised, and the later calls are not made. */
  function ServicesResult(remote: Remote): Result<()> {
    if RaisesForStatus(remote.protectionStatus) then Raised(HttpError(remote.protectionStatus))
    else if RaisesForStatus(remote.followStatus) then Raised(HttpError(remote.followStatus))
    else if RaisesForStatus(remote.settingsStatus) then Raised(HttpError(remote.settingsStatus))
    else Returned(())
  }

  /** How many of the three service requests are sent. */
  function ServicesSent(remote: Remote): (n: nat)
    ensures 1 <= n <= 3
  {
    if RaisesForStatus(remote.protectionStatus) then 1
    else if RaisesForStatus(remote.followStatus) then 2
    else 3
  }

  /** How a run of the setup ends: its result, how many of the planned
      requests it sent, whether it ran the git commands of the push, and how
      many of the operator's lines it read. */
  datatype Run = Run(result: Result<()>, sent: nat, pushed: bool, read: nat)

  /** The end of `footing_setup` once the push returned, `k` of the `n`
      lines read so far: the three service calls, then the final pause,
      which needs one more line. */
  function AfterPush(remote: Remote, k: nat, n: nat): (r: Run)
    requires k <= n
    ensures 2 <= r.sent <= 4 && r.pushed && k <= r.read <= n
  {
    if ServicesResult(remote).Raised? then Run(ServicesResult(remote), 1 + ServicesSent(remote), true, k)
    else if k == n then Run(Raised(EOFError), 4, true, k)
    else Run(Returned(()), 4, true, k + 1)
  }

  /** The repository steps of `footing_setup`: the creation, and the push
      only if the creation returned. */
  function RepositoryRun(p: Params, env: map<string, string>, remote: Remote, lines: seq<string>): (r: Run)
    requires GithubTokenVar in env
    ensures r.sent == 1 && r.read <= |lines|
  {
    var c := Creation(p, env, remote, lines);
    if c.result.Raised? then Run(c.result, 1, false, c.read)
    else
      var ps := Push(p, remote, lines[c.read..]);
      Run(ps.result, 1, true, c.read + ps.read)
  }

  /** The steps of `footing_setup` after the credential gate, in order, each
      run only when the one before it returned: create, push, the three
      service calls, and the final pause. */
  function Provisioned(p: Params, env: map<string, string>, remote: Remote, lines: seq<string>): (r: Run)
    requires GithubTokenVar in env
    ensures 1 <= r.sent <= 4 && r.read <= |lines|
  {
    var repo := RepositoryRun(p, env, remote, lines);
    if repo.result.Raised? then repo else AfterPush(remote, repo.read, |lines|)
  }

  /** `footing_setup` from the start: a missing token stops it before any
      request; otherwise the steps run as Provisioned says. */
  function FootingRun(p: Params, env: map<string, string>, remote: Remote, lines: seq<string>): (r: Run)
    ensures r.sent <= 4 && r.read <= |lines|
    ensures r.sent == 0 <==> CredentialGate(env).Some?
  {
    match CredentialGate(env)
    case Some(f) => Run(Raised(f), 0, false, 0)
    case None => Provisioned(p, env, remote, lines)
  }

  /** The statuses of the three service calls, in the order they are made. */
  function Statuses(remote: Remote): seq<int> {
    [remote.protectionStatus, remote.followStatus, remote.settingsStatus]
  }

  /** The call at index `k` is the first whose status `raise_for_status`
      rejects. */
  predicate FirstRejected(statuses: seq<int>, k: nat) {
    k < |statuses| && RaisesForStatus(statuses[k])
    && forall j :: 0 <= j < k ==> !RaisesForStatus(statuses[j])
  }

  /** The service calls return iff no status is a 4xx/5xx one; otherwise
      the call at index `k` fails, with its own status, after `k + 1`
      requests exactly when it is the first rejected one. */
  lemma ServicesFirstFailure(remote: Remote)
    ensures ServicesResult(remote).Returned? <==>
      forall j :: 0 <= j < 3 ==> !RaisesForStatus(Statuses(remote)[j])
    ensures forall k: nat :: k < 3 ==>
      (ServicesResult(remote) == Raised(HttpError(Statuses(remote)[k])) && ServicesSent(remote) == k + 1
       <==> FirstRejected(Statuses(remote), k))
  {
    var st := Statuses(remote);
    if !RaisesForStatus(st[0]) && !RaisesForStatus(st[1]) && !RaisesForStatus(st[2]) {
      assert forall j :: 0 <= j < 3 ==> !RaisesForStatus(st[j]);
    }
  }

  /** `footing_setup` returns iff every step returned: both tokens are set,
      the creation returned, the push returned on the lines left, the three
      service calls returned, and a line was left for the final pause. */
  lemma FootingReturnsIffEveryStep(p: Params, env: map<string, string>, remote: Remote, lines: seq<string>)
    ensures FootingRun(p, env, remote, lines).result.Returned? <==>
      IsSet(env, GithubTokenVar) && IsSet(env, CircleciTokenVar)
      && Creation(p, env, remote, lines).result.Returned?
      && var k := Creation(p, env, remote, lines).read;
      k <= |lines| && Push(p, remote, lines[k..]).result.Returned?
      && ServicesResult(remote).Returned? && k + Push(p, remote, lines[k..]).read < |lines|
  {
  }

  /** A run that returns has sent all four planned requests, pushed, and
      read the line of the final pause. */
  lemma ReturnedRunIsComplete(p: Params, env: map<string, string>, remote: Remote, lines: seq<string>)
    requires FootingRun(p, env, remote, lines).result.Returned?
    ensures FootingRun(p, env, remote, lines).sent == 4 && FootingRun(p, env, remote, lines).pushed
    ensures FootingRun(p, env, remote, lines).read >= 1
  {
  }

  /** What can stop the repository steps: RemoteRepoExistsError or a
      rejected status from the creation, before the push; GithubPushError
      from the push; EOFError from either question. */
  lemma RepositoryFailureKinds(p: Params, env: map<string, string>, remote: Remote, lines: seq<string>)
    requires GithubTokenVar in env
    ensures var r := RepositoryRun(p, env, remote, lines);
      r.result.Raised? ==>
        match r.result.failure
        case RemoteRepoExistsError(_) => !r.pushed
        case GithubPushError(_) => r.pushed
        case HttpError(s) => RaisesForStatus(s) && !r.pushed
        case EOFError => true
        case _ => false
  {
    var c := Creation(p, env, remote, lines);
    if c.result.Returned? {
      var ps := Push(p, remote, lines[c.read..]);
      assert RepositoryRun(p, env, remote, lines).result == ps.result;
    }
  }

  /** What can stop the steps after the gate, and how far each got: the
      repository failures as above, one request sent; an HTTP error from a
      service call after the push; EOFError. A missing key, a refused
      default or a CredentialsError never escapes them. */
  lemma ProvisionedFailureKinds(p: Params, env: map<string, string>, remote: Remote, lines: seq<string>)
    requires GithubTokenVar in env
    ensures var r := Provisioned(p, env, remote, lines);
      r.result.Raised? ==>
        match r.result.failure
        case RemoteRepoExistsError(_) => r.sent == 1 && !r.pushed
        case GithubPushError(_) => r.sent == 1 && r.pushed
        case HttpError(s) => RaisesForStatus(s) && (r.sent == 1 <==> !r.pushed)
        case EOFError => true
        case _ => false
  {
    var repo := RepositoryRun(p, env, remote, lines);
    if repo.result.Raised? {
      assert Provisioned(p, env, remote, lines) == repo;
      RepositoryFailureKinds(p, env, remote, lines);
    } else {
      assert Provisioned(p, env, remote, lines) == AfterPush(remote, repo.read, |lines|);
    }
  }

  /** Which step an exception comes from: a CredentialsError exactly when a
      token is missing, before any request, push or read; every other
      exception as ProvisionedFailureKinds says. */
  lemma FootingFailureKinds(p: Params, env: map<string, string>, remote: Remote, lines: seq<string>)
    ensures var r := FootingRun(p, env, remote, lines);
      (r.result.Raised? && r.result.failure.CredentialsError? <==> CredentialGate(env).Some?)
      && (CredentialGate(env).Some? ==> r == Run(Raised(CredentialGate(env).value), 0, false, 0))
      && (CredentialGate(env).None? ==> r == Provisioned(p, env, remote, lines))
  {
    if CredentialGate(env).None? {
      ProvisionedFailureKinds(p, env, remote, lines);
    }
  }

  /** With both tokens set, a created repository, a clean push, accepted
      service calls and a line for the final pause, the setup completes. */
  lemma HappyPath(p: Params, env: map<string, string>, remote: Remote, lines: seq<string>)
    requires IsSet(env, GithubTokenVar) && IsSet(env, CircleciTokenVar)
    requires remote.create.status == StatusCreated && remote.pushCode == 0
    requires !RaisesForStatus(remote.protectionStatus) && !RaisesForStatus(remote.followStatus)
    requires !RaisesForStatus(remote.settingsStatus)
    requires |lines| >= 1
    ensures FootingRun(p, env, remote, lines) == Run(Returned(()), 4, true, 1)
  {
  }

  /** The same run with no line left for the final pause raises EOFError
      after all four requests. */
  lemma FinalPauseNeedsALine(p: Params, env: map<string, string>, remote: Remote)
    requires IsSet(env, GithubTokenVar) && IsSet(env, CircleciTokenVar)
    requires remote.create.status == StatusCreated && remote.pushCode == 0
    requires !RaisesForStatus(remote.protectionStatus) && !RaisesForStatus(remote.followStatus)
    requires !RaisesForStatus(remote.settingsStatus)
    ensures FootingRun(p, env, remote, []) == Run(Raised(EOFError), 4, true, 0)
  {
  }

  const InstallingText := "Installing requests library for repository setup..."
  const CheckingText := "Checking credentials."
  const PushingText := "Creating initial repository and pushing to master."
  const ProtectingText := "Setting up default branch protection."
  const FollowingText := "Following the project on CircleCI."
  const ConfiguringText := "Configuring CircleCI project settings."

  /** What `footing_setup` does before the gate: install the HTTP library
      and announce the credential check. */
  function Preamble(): seq<Effect> {
    [Print(InstallingText), Shell(PipInstall), Print(CheckingText)]
  }

  lemma PreambleTraffic()
    ensures Requests(Preamble()) == [] && Commands(Preamble()) == [PipInstall]
  {
    assert Preamble() == [] + [Print(InstallingText)] + [Shell(PipInstall)] + [Print(CheckingText)];
    AppendOne([], Print(InstallingText));
    AppendOne([Print(InstallingText)], Shell(PipInstall));
    AppendOne([Print(InstallingText)] + [Shell(PipInstall)], Print(CheckingText));
  }

  /** The creation step of `footing_setup`, once the gate has passed: the
      announcement, then `github_create_repo`, which sends the creation
      request and runs nothing. */
  method CreateStep(p: Params, env: map<string, string>, remote: Remote, lines: seq<string>)
    returns (effects: seq<Effect>, result: Result<()>, read: nat)
    requires GithubTokenVar in env
    ensures var c := Creation(p, env, remote, lines);
      effects == [Print(CreatingText(p.repoName))] + c.effects && result == c.result && read == c.read
    ensures Requests(effects) == [CreateRequest(env[GithubTokenVar], p.repoName, p.description, DefaultRepoOptions)]
    ensures Commands(effects) == []
  {
    var create := CreateRepo(env, p.repoName, p.description, DefaultRepoOptions, remote.create, lines);
    CreateRepoTraffic(env, p.repoName, p.description, DefaultRepoOptions, remote.create, lines);
    Announced(CreatingText(p.repoName), create.effects);
    effects := [Print(CreatingText(p.repoName))] + create.effects;
    read := create.read;
    result := create.result;
  }

  /** The push step of `footing_setup`: the announcement, then
      `github_push_initial_repo`, which runs the five git commands and sends
      nothing. */
  method PushStep(p: Params, remote: Remote, lines: seq<string>)
    returns (effects: seq<Effect>, result: Result<()>, read: nat)
    ensures var ps := Push(p, remote, lines);
      effects == [Print(PushingText)] + ps.effects && result == ps.result && read == ps.read
    ensures Requests(effects) == []
    ensures Commands(effects) == PushCommands(p.repoName, Several(DefaultCommit))
  {
    var push := PushInitialRepo(p.repoName, Several(DefaultCommit), true, remote.pushCode, lines);
    PushTraffic(p.repoName, Several(DefaultCommit), true, remote.pushCode, lines);
    Announced(PushingText, push.effects);
    effects := [Print(PushingText)] + push.effects;
    read := push.read;
    result := push.result;
  }

  /** The two repository steps of `footing_setup`: create the repository,
      then, only if that returned, push the initial commit. */
  method RepositorySteps(p: Params, env: map<string, string>, remote: Remote, lines: seq<string>)
    returns (effects: seq<Effect>, result: Result<()>, read: nat)
    requires GithubTokenVar in env
    ensures var run := RepositoryRun(p, env, remote, lines);
      result == run.result && read == run.read
      && Requests(effects) == [CreateRequest(env[GithubTokenVar], p.repoName, p.description, DefaultRepoOptions)]
      && Commands(effects) == if run.pushed then PushCommands(p.repoName, Several(DefaultCommit)) else []
  {
    var createResult, createRead;
    effects, createResult, createRead := CreateStep(p, env, remote, lines);
    read := createRead;
    if createResult.Raised? {
      result := createResult;
      return;
    }
    var pushed, pushResult, pushRead := PushStep(p, remote, lines[read..]);
    RequestsAppend(effects, pushed);
    CommandsAppend(effects, pushed);
    effects, read := effects + pushed, read + pushRead;
    result := pushResult;
  }

  /** The service steps of `footing_setup`: protect master, follow the
      project on CircleCI, configure it. Each is sent only when the one
      before it returned, and the first 4xx/5xx status is raised. */
  method ConnectServices(p: Params, env: map<string, string>, remote: Remote)
    returns (effects: seq<Effect>, result: Result<()>)
    requires GithubTokenVar in env && CircleciTokenVar in env
    ensures result == ServicesResult(remote)
    ensures Requests(effects) == Planned(p, env)[1..][..ServicesSent(remote)]
    ensures Commands(effects) == []
  {
    ghost var plan := Planned(p, env)[1..];
    var protect := SetupBranchProtection(env, p.repoName, DefaultBranch, remote.protectionStatus);
    SingleRequestTraffic(protect.effects[0]);
    Announced(ProtectingText, protect.effects);
    effects := [Print(ProtectingText)] + protect.effects;
    assert Requests(effects) == plan[..1];
    if protect.result.Raised? {
      result := protect.result;
      return;
    }
    var follow := CircleciFollow(env, p.repoName, remote.followStatus);
    SingleRequestTraffic(follow.effects[0]);
    Extended(effects, FollowingText, follow.effects);
    effects := effects + [Print(FollowingText)] + follow.effects;
    assert Requests(effects) == plan[..2];
    if follow.result.Raised? {
      result := follow.result;
      return;
    }
    var configure := CircleciConfigure(env, p.repoName, remote.settingsStatus);
    SingleRequestTraffic(configure.effects[0]);
    Extended(effects, ConfiguringText, configure.effects);
    effects := effects + [Print(ConfiguringText)] + configure.effects;
    assert Requests(effects) == plan;
    result := configure.result;
  }

  /** The end of `footing_setup` once the repository is pushed, with `k` of
      the operator's lines read so far: the service steps, then the pause
      for the ReadTheDocs instructions, which reads the next line (EOFError
      when none is left), and the closing message. */
  method FinishSetup(p: Params, env: map<string, string>, remote: Remote, lines: seq<string>, k: nat)
    returns (effects: seq<Effect>, result: Result<()>, read: nat)
    requires GithubTokenVar in env && CircleciTokenVar in env
    requires k <= |lines|
    ensures var run := AfterPush(remote, k, |lines|);
      result == run.result && read == run.read && Requests(effects) == Planned(p, env)[1..run.sent]
    ensures Commands(effects) == []
    ensures result.Returned? ==> effects[|effects| - 1] == Print(CompleteText(p.repoName))
  {
    var servicesResult;
    effects, servicesResult := ConnectServices(p, env, remote);
    read := k;
    if servicesResult.Raised? {
      result := servicesResult;
      return;
    }
    AppendOne(effects, Prompt(FinalStepText));
    effects := effects + [Prompt(FinalStepText)];
    if k == |lines| {
      result := Raised(EOFError);
      return;
    }
    read := k + 1;
    AppendOne(effects, Print(CompleteText(p.repoName)));
    effects := effects + [Print(CompleteText(p.repoName))];
    result := Returned(());
  }

  /** What `footing_setup` does once both tokens are set: create, push,
      protect, follow, configure and finish, as Provisioned says. */
  method Provisioning(p: Params, env: map<string, string>, remote: Remote, lines: seq<string>)
    returns (effects: seq<Effect>, result: Result<()>, read: nat)
    requires IsSet(env, GithubTokenVar) && IsSet(env, CircleciTokenVar)
    ensures var run := Provisioned(p, env, remote, lines);
      result == run.result && read == run.read && Requests(effects) == Planned(p, env)[..run.sent]
    ensures Commands(effects) ==
      if Provisioned(p, env, remote, lines).pushed then PushCommands(p.repoName, Several(DefaultCommit)) else []
    ensures result.Returned? ==> effects[|effects| - 1] == Print(CompleteText(p.repoName))
  {
    var repoResult;
    effects, repoResult, read := RepositorySteps(p, env, remote, lines);
    PlannedSplit(p, env, 1);
    if repoResult.Raised? {
      result := repoResult;
      return;
    }
    var k := read;
    var rest;
    rest, result, read := FinishSetup(p, env, remote, lines, k);
    PlannedSplit(p, env, AfterPush(remote, k, |lines|).sent);
    RequestsAppend(effects, rest);
    CommandsAppend(effects, rest);
    LastOfAppend(effects, rest);
    effects := effects + rest;
  }

  /** `footing_setup`: install the HTTP library, check the tokens, then
      provision; everything it does follows FootingRun. */
  method FootingSetup(p: Params, env: map<string, string>, remote: Remote, lines: seq<string>)
    returns (effects: seq<Effect>, result: Result<()>, read: nat)
    ensures var run := FootingRun(p, env, remote, lines);
      result == run.result && read == run.read
      && Requests(effects) == (if run.sent == 0 then [] else Planned(p, env)[..run.sent])
    ensures Commands(effects) ==
      [PipInstall] + if FootingRun(p, env, remote, lines).pushed then PushCommands(p.repoName, Several(DefaultCommit)) else []
    ensures result.Returned? ==> effects[|effects| - 1] == Print(CompleteText(p.repoName))
  {
    effects := Preamble();
    PreambleTraffic();
    read := 0;
    var gate := CredentialGate(env);
    if gate.Some? {
      result := Raised(gate.value);
      return;
    }
    var steps;
    steps, result, read := Provisioning(p, env, remote, lines);
    LastOfAppend(effects, steps);
    RequestsAppend(effects, steps);
    CommandsAppend(effects, steps);
    effects := effects + steps;
  }

  const NotFootingText := "This template can only be used with footing for project spin up."
    + " Consult the footing docs at https://github.com/Opus10/footing"

  const AbortText := "Setup aborted. Please try again with new parameters."

  const NamesAdvice := " It is very difficult to change these names after the project"
    + " is started, so please be sure these are the names you want!"
    + " Continue (y) or change parameters (n)?"

  /** The question that confirms the rendered names before anything is set up. */
  function NamesPrompt(p: Params): string {
    "Your Opus 10 Github repo name will be \"" + p.repoName
    + "\" and packages will be installed with \"pip install " + p.repoName
    + "\". Python imports will happen as \"import " + p.moduleName + "\"." + NamesAdvice
  }

  /** The operator confirmed the names: `yesno` with default "yes" returned True. */
  predicate NamesConfirmed(lines: seq<string>) {
    Confirm.Answer("yes", lines).Answered? && Confirm.Answer("yes", lines).defaultChosen
  }

  /** The operator asked to change the names: `yesno` returned False. */
  predicate NamesRejected(lines: seq<string>) {
    Confirm.Answer("yes", lines).Answered? && !Confirm.Answer("yes", lines).defaultChosen
  }

  predicate InSetupMode(env: map<string, string>) {
    IsSet(env, FootingVar) && env[FootingVar] == SetupMode
  }

  /** `yesno(NamesPrompt(p))`: the prompts shown, none of them traffic, and
      the answer, read from the operator's lines. */
  method AskNames(p: Params, lines: seq<string>) returns (shown: seq<Effect>, answer: Confirm.Outcome)
    ensures answer == Confirm.Answer("yes", lines)
    ensures shown == Ask(NamesPrompt(p), "yes", lines).shown
    ensures answer.Answered? || answer.EndOfInput?
    ensures answer.read <= |lines|
    ensures |shown| >= 1 && shown[0].Prompt?
    ensures Requests(shown) == [] && Commands(shown) == []
  {
    var prompts;
    answer, prompts := Confirm.Yesno(NamesPrompt(p), "yes", " ", lines);
    shown := seq(|prompts|, i requires 0 <= i < |prompts| => Prompt(prompts[i]));
    ghost var q := Ask(NamesPrompt(p), "yes", lines);
    assert shown == q.shown;
    QuietTraffic(shown);
  }

  /** `footing_setup()` called from `__main__`: an exception that escapes
      it ends the process with a traceback and exit status 1. */
  method RunSetup(p: Params, env: map<string, string>, remote: Remote, lines: seq<string>)
    returns (effects: seq<Effect>, status: nat)
    ensures var run := FootingRun(p, env, remote, lines);
      (status == 0 <==> run.result.Returned?) && status <= 1
      && Requests(effects) == (if run.sent == 0 then [] else Planned(p, env)[..run.sent])
    ensures Commands(effects) != []
    ensures status == 1 ==>
      |effects| >= 1 && effects[|effects| - 1] == Traceback(FootingRun(p, env, remote, lines).result.failure)
  {
    var result, read;
    effects, result, read := FootingSetup(p, env, remote, lines);
    if result.Raised? {
      AppendOne(effects, Traceback(result.failure));
      effects, status := effects + [Traceback(result.failure)], 1;
    } else {
      status := 0;
    }
  }

  /** The setup branch of `__main__`: confirm the names, then run
      `footing_setup` on the lines left, or abort. Nothing is sent and
      nothing is run unless the operator confirms. */
  method SetupHook(p: Params, env: map<string, string>, remote: Remote, lines: seq<string>)
    returns (effects: seq<Effect>, status: nat)
    ensures status == 0 || status == 1
    ensures |effects| >= 1 && effects[0].Prompt?
    ensures Requests(effects) != [] || Commands(effects) != [] ==> NamesConfirmed(lines)
    ensures NamesRejected(lines) ==> status == 1 && effects[|effects| - 1] == Print(AbortText)
    ensures !NamesConfirmed(lines) ==> status == 1
    ensures NamesConfirmed(lines) ==>
      var run := FootingRun(p, env, remote, lines[Confirm.Answer("yes", lines).read..]);
      (status == 0 <==> run.result.Returned?)
      && Requests(effects) == (if run.sent == 0 then [] else Planned(p, env)[..run.sent])
  {
    var answer;
    effects, answer := AskNames(p, lines);
    if answer.Answered? && answer.defaultChosen {
      var setup;
      setup, status := RunSetup(p, env, remote, lines[answer.read..]);
      RequestsAppend(effects, setup);
      CommandsAppend(effects, setup);
      effects := effects + setup;
    } else if answer.Answered? {
      AppendOne(effects, Print(AbortText));
      effects, status := effects + [Print(AbortText)], 1;
    } else {
      AppendOne(effects, Traceback(EOFError));
      effects, status := effects + [Traceback(EOFError)], 1;
    }
  }

  /** The hook's `__main__` block, run with the environment `env` and the
      operator's `lines`; `status` is the process exit status. Outside
      footing it refuses; under footing commands other than setup it does
      nothing; in setup mode nothing is sent before the operator confirms
      the names, and once they are confirmed the exit status and the
      requests are those of `footing_setup` on the lines left. */
  method Hook(p: Params, env: map<string, string>, remote: Remote, lines: seq<string>)
    returns (effects: seq<Effect>, status: nat)
    ensures status == 0 || status == 1
    ensures !IsSet(env, FootingVar) ==> effects == [Print(NotFootingText)] && status == 1
    ensures IsSet(env, FootingVar) && !InSetupMode(env) ==> effects == [] && status == 0
    ensures InSetupMode(env) ==> |effects| >= 1 && effects[0].Prompt?
    ensures Requests(effects) != [] || Commands(effects) != [] ==>
      InSetupMode(env) && NamesConfirmed(lines)
    ensures InSetupMode(env) && NamesRejected(lines) ==>
      status == 1 && effects[|effects| - 1] == Print(AbortText)
    ensures InSetupMode(env) && !NamesConfirmed(lines) ==> status == 1
    ensures InSetupMode(env) && NamesConfirmed(lines) ==>
      var run := FootingRun(p, env, remote, lines[Confirm.Answer("yes", lines).read..]);
      (status == 0 <==> run.result.Returned?)
      && Requests(effects) == (if run.sent == 0 then [] else Planned(p, env)[..run.sent])
  {
    if !IsSet(env, FootingVar) {
      OneTraffic(Print(NotFootingText));
      effects, status := [Print(NotFootingText)], 1;
    } else if env[FootingVar] != SetupMode {
      effects, status := [], 0;
    } else {
      effects, status := SetupHook(p, env, remote, lines);
    }
  }
}
