/** The GitHub Actions normalizer: recognises a GitHub Actions environment and
    maps its variables, together with what the VCS and project collaborators
    report, onto the NCI schema. */
module GitHubActions {
  import opened Wrappers
  import opened Strings
  import opened NciSpec

  /** The normalizer's fixed identity. */
  datatype Normalizer = Normalizer(version: string, name: string, slug: string)

  /** What normalization learns from outside the environment: the repository
      root found from the working directory, that root's directory name, the
      VCS and project lookups, the slug function and the host platform. The
      lookups answer under schema keys; `OfNamed` relates such an answer to
      the string-keyed map the collaborators return. */
  datatype Collaborators = Collaborators(
    repositoryDir: string,
    repositoryDirName: string,
    vcsInfo: string -> Result<KeyedData, string>,
    projectDetails: (string, string) -> Option<KeyedData>,
    slug: string -> string,
    hostOs: string,
    hostArch: string)

  /** Why normalization aborted: the pull-request ref has no id segment, or
      the VCS lookup failed. */
  datatype NormalizeError = MalformedPullRequestRef(ref: string) | VcsUnavailable(cause: string)

  function GetName(n: Normalizer): (name: string)
    ensures name == n.name
  {
    n.name
  }

  function GetSlug(n: Normalizer): (slug: string)
    ensures slug == n.slug
  {
    n.slug
  }

  /** The one normalizer instance the program creates, as its accessors
      report it. */
  function NewNormalizer(): (n: Normalizer)
    ensures n.version == "0.3.0"
    ensures GetName(n) == "GitHub Actions"
    ensures GetSlug(n) == "github-actions"
  {
    Normalizer("0.3.0", "GitHub Actions", "github-actions")
  }

  /** The environment is a GitHub Actions one exactly when GITHUB_ACTIONS is
      present and equal to "true". */
  function Check(n: Normalizer, env: StringMap): (found: bool)
    ensures found <==> "GITHUB_ACTIONS" in env && env["GITHUB_ACTIONS"] == "true"
  {
    Lookup(env, "GITHUB_ACTIONS") == "true"
  }

  /** Detection reads no variable but GITHUB_ACTIONS. */
  lemma CheckReadsOnlyMarker(n: Normalizer, env: StringMap, key: string, value: string)
    requires key != "GITHUB_ACTIONS"
    ensures Check(n, env[key := value]) == Check(n, env)
  {
  }

  /** The GitHub event name narrowed to the closed trigger set: "push" and
      "pull_request" are recognised, everything else (the empty string of an
      absent variable included) is unknown. */
  function ClassifyEvent(event: string): (t: PipelineTrigger)
    ensures t == Push <==> event == "push"
    ensures t == PullRequest <==> event == "pull_request"
    ensures t == Unknown <==> event != "push" && event != "pull_request"
  {
    if event == "push" then Push
    else if event == "pull_request" then PullRequest
    else Unknown
  }

  /** An unrecognised event is reported as "unknown", never blank and never
      as the raw event name (unless that name is itself "unknown"). */
  lemma UnrecognisedEventIsUnknown(event: string)
    requires event != "push" && event != "pull_request"
    ensures TriggerName(ClassifyEvent(event)) == "unknown"
    ensures event != "unknown" ==> TriggerName(ClassifyEvent(event)) != event
  {
  }

  /** The segment at index 2 of GITHUB_REF split on `/`, if there is one
      (`refs/pull/123/merge` gives `123`). */
  function PullRequestId(ref: string): (id: Option<string>)
    ensures id.Some? <==> multiset(ref)['/'] >= 2
    ensures id.Some? ==> '/' !in id.value
  {
    var parts := Split(ref, '/');
    SplitCount(ref, '/');
    if |parts| >= 3 then Some(parts[2]) else None
  }

  /** Any ref of the shape a/b/id, or a/b/id/..., yields id. */
  lemma PullRequestIdOfShapedRef(a: string, b: string, id: string, rest: string)
    requires '/' !in a && '/' !in b && '/' !in id
    requires rest == "" || rest[0] == '/'
    ensures PullRequestId(a + "/" + b + "/" + id + rest) == Some(id)
  {
    var tail := Split(rest, '/');
    if rest == "" {
      assert tail == [""];
    } else {
      assert rest == ['/'] + rest[1..];
      SplitLeadingSeparator(rest[1..], '/');
    }
    SplitSeparatorFreePrefix(id, rest, '/');
    assert Split(id + rest, '/')[0] == id;
    SplitFirstPiece(b, id + rest, '/');
    SplitFirstPiece(a, b + "/" + (id + rest), '/');
    var ref := a + "/" + b + "/" + id + rest;
    assert ref == a + "/" + (b + "/" + (id + rest));
    assert Split(ref, '/')[2] == id;
  }

  /** Conversely, an extracted id is the third piece of the ref: the ref is
      p0/r1, r1 is p1/r2, and r2 is the id, alone or followed by `/` and the
      remaining pieces. */
  lemma PullRequestIdLocation(ref: string)
    requires PullRequestId(ref).Some?
    ensures var p := Split(ref, '/');
            && '/' !in p[0] && '/' !in p[1]
            && ref == p[0] + "/" + Join(p[1..], '/')
            && Join(p[1..], '/') == p[1] + "/" + Join(p[2..], '/')
            && Join(p[2..], '/') == PullRequestId(ref).value
                 + (if |p| == 3 then "" else "/" + Join(p[3..], '/'))
  {
    SplitFirstThreePieces(ref, '/');
  }

  /** The run's page: server URL, repository, "actions/runs", run id. Each
      part sits at a fixed offset, so the three variables can be read back. */
  function PipelineUrl(env: StringMap): (url: string)
    ensures var server, repo, run := Lookup(env, "GITHUB_SERVER_URL"),
                                     Lookup(env, "GITHUB_REPOSITORY"), Lookup(env, "GITHUB_RUN_ID");
            var k := |server| + 1 + |repo|;
            && |url| == k + 14 + |run|
            && url[..|server|] == server
            && url[|server|] == '/'
            && url[|server| + 1..k] == repo
            && url[k..k + 14] == "/actions/runs/"
            && url[k + 14..] == run
  {
    Lookup(env, "GITHUB_SERVER_URL") + "/" + Lookup(env, "GITHUB_REPOSITORY")
      + "/actions/runs/" + Lookup(env, "GITHUB_RUN_ID")
  }

  /** A pull-request event whose ref has fewer than two `/`. */
  predicate PullRequestRefMalformed(env: StringMap)
  {
    Lookup(env, "GITHUB_EVENT_NAME") == "pull_request"
    && multiset(Lookup(env, "GITHUB_REF"))['/'] < 2
  }

  /** The project fields: the nine details from the project data when there
      is any, else as seeded; the directory always from the repository root. */
  function ProjectFields(projectData: Option<KeyedData>, seeded: Project, dir: string): Project
  {
    match projectData
    case None => seeded.(dir := dir)
    case Some(p) =>
      Project(Lookup(p, ProjectId), Lookup(p, ProjectName), Lookup(p, ProjectPath),
              Lookup(p, ProjectSlug), Lookup(p, ProjectDescription), Lookup(p, ProjectTopics),
              Lookup(p, ProjectIssueUrl), Lookup(p, ProjectStargazers), Lookup(p, ProjectForks),
              dir)
  }

  /** Normalize: every field the source writes, from the environment, the
      normalizer's identity and the collaborators; the fields it does not
      write are taken from the seed. A pull-request ref without an id segment
      or a failing VCS lookup aborts, the former first, as in the source. */
  function Normalize(n: Normalizer, env: StringMap, seed: Spec, c: Collaborators)
    : (r: Result<Spec, NormalizeError>)
    // aborts
    ensures r.Failure? <==> PullRequestRefMalformed(env) || c.vcsInfo(c.repositoryDir).Failure?
    ensures PullRequestRefMalformed(env) ==>
              r == Failure(MalformedPullRequestRef(Lookup(env, "GITHUB_REF")))
    ensures !PullRequestRefMalformed(env) && c.vcsInfo(c.repositoryDir).Failure? ==>
              r == Failure(VcsUnavailable(c.vcsInfo(c.repositoryDir).error))
    // common
    ensures r.Success? ==> r.value.common == Common("true", n.version, n.name, n.slug)
    // pipeline
    ensures r.Success? ==>
              r.value.pipeline.trigger == TriggerName(ClassifyEvent(Lookup(env, "GITHUB_EVENT_NAME")))
    ensures r.Success? && Lookup(env, "GITHUB_EVENT_NAME") == "pull_request" ==>
              PullRequestId(Lookup(env, "GITHUB_REF")) == Some(r.value.pipeline.pullRequestId)
    ensures r.Success? && Lookup(env, "GITHUB_EVENT_NAME") != "pull_request" ==>
              r.value.pipeline.pullRequestId == seed.pipeline.pullRequestId
    ensures r.Success? ==> r.value.pipeline.stageName == Lookup(env, "GITHUB_WORKFLOW")
    ensures r.Success? ==> r.value.pipeline.stageSlug == c.slug(Lookup(env, "GITHUB_WORKFLOW"))
    ensures r.Success? ==> r.value.pipeline.jobName == Lookup(env, "GITHUB_ACTION")
    ensures r.Success? ==> r.value.pipeline.jobSlug == c.slug(Lookup(env, "GITHUB_ACTION"))
    ensures r.Success? ==>
              r.value.pipeline.url == Lookup(env, "GITHUB_SERVER_URL") + "/"
                                      + Lookup(env, "GITHUB_REPOSITORY") + "/actions/runs/"
                                      + Lookup(env, "GITHUB_RUN_ID")
    ensures r.Success? ==>
              && r.value.pipeline.id == seed.pipeline.id
              && r.value.pipeline.attempt == seed.pipeline.attempt
              && r.value.pipeline.jobStartedAt == seed.pipeline.jobStartedAt
              && r.value.pipeline.configFile == seed.pipeline.configFile
  {
    var trigger := ClassifyEvent(Lookup(env, "GITHUB_EVENT_NAME"));
    var ref := Lookup(env, "GITHUB_REF");
    var prId := PullRequestId(ref);
    if trigger == PullRequest && prId.None? then
      Failure(MalformedPullRequestRef(ref))
    else
      match c.vcsInfo(c.repositoryDir)
      case Failure(e) => Failure(VcsUnavailable(e))
      case Success(vcs) =>
        var runner := Lookup(env, "RUNNER_TRACKING_ID");
        var workflow := Lookup(env, "GITHUB_WORKFLOW");
        var action := Lookup(env, "GITHUB_ACTION");
        var pullRequestId := if trigger == PullRequest then prId.value else seed.pipeline.pullRequestId;
        var repository := Repository(Lookup(vcs, RepositoryKind), Lookup(vcs, RepositoryRemote),
                                     Lookup(vcs, RepositoryStatus));
        var commit := Commit(Lookup(vcs, CommitRefType), Lookup(vcs, CommitRefName),
                             Lookup(vcs, CommitRefPath), Lookup(vcs, CommitRefSlug),
                             Lookup(vcs, CommitRefVcs), Lookup(vcs, CommitRefRelease),
                             Lookup(vcs, CommitSha), Lookup(vcs, CommitShaShort),
                             Lookup(vcs, CommitTitle), Lookup(vcs, CommitDescription),
                             Lookup(vcs, CommitAuthorName), Lookup(vcs, CommitAuthorEmail),
                             Lookup(vcs, CommitCommitterName), Lookup(vcs, CommitCommitterEmail),
                             Lookup(vcs, CommitCount));
        var lastRelease := LastRelease(Lookup(vcs, LastReleaseRefName), Lookup(vcs, LastReleaseRefSlug),
                                       Lookup(vcs, LastReleaseRefVcs),
                                       Lookup(vcs, LastReleaseCommitAfterCount));
        var projectData := c.projectDetails(repository.kind, repository.remote);
        Success(Spec(
          Common("true", n.version, n.name, n.slug),
          Worker(runner, runner, Lookup(env, "ImageVersion"), c.hostOs + "/" + c.hostArch,
                 seed.worker.os, seed.worker.workerType),
          Pipeline(TriggerName(trigger), workflow, c.slug(workflow), action, c.slug(action),
                   seed.pipeline.id, PipelineUrl(env), seed.pipeline.attempt,
                   seed.pipeline.jobStartedAt, seed.pipeline.configFile, pullRequestId),
          repository,
          commit,
          lastRelease,
          ProjectFields(projectData, seed.project, c.repositoryDir),
          ContainerRegistry("", c.slug(c.repositoryDirName), "", "", commit.refRelease),
          Control("false")))
  }

  /** The common block announces the normalizer that produced it, as its
      accessors report it. */
  lemma NormalizeAnnouncesNormalizer(n: Normalizer, env: StringMap, seed: Spec, c: Collaborators)
    requires Normalize(n, env, seed, c).Success?
    ensures var common := Normalize(n, env, seed, c).value.common;
            && common.found == "true"
            && common.version == n.version
            && common.serviceName == GetName(n)
            && common.serviceSlug == GetSlug(n)
  {
  }

  /** The seed matters only through the fields normalization does not write:
      two seeds that agree on those give the same outcome. */
  lemma NormalizeReadsSeedOnlyWhereUnwritten(n: Normalizer, env: StringMap, s1: Spec, s2: Spec,
                                             c: Collaborators)
    requires s1.worker.os == s2.worker.os && s1.worker.workerType == s2.worker.workerType
    requires && s1.pipeline.id == s2.pipeline.id && s1.pipeline.attempt == s2.pipeline.attempt
             && s1.pipeline.jobStartedAt == s2.pipeline.jobStartedAt
             && s1.pipeline.configFile == s2.pipeline.configFile
             && s1.pipeline.pullRequestId == s2.pipeline.pullRequestId
    requires ProjectDetailsEqual(s1.project, s2.project)
    ensures Normalize(n, env, s1, c) == Normalize(n, env, s2, c)
  {
  }

  /** Worker fields: id and name are the runner tracking id, the version is
      the image version, the architecture is the host's "os/arch"; os and
      type are not written and keep their seeded values. */
  lemma NormalizeWorkerFields(n: Normalizer, env: StringMap, seed: Spec, c: Collaborators)
    requires Normalize(n, env, seed, c).Success?
    ensures var w := Normalize(n, env, seed, c).value.worker;
            && w.id == Lookup(env, "RUNNER_TRACKING_ID")
            && w.name == Lookup(env, "RUNNER_TRACKING_ID")
            && w.version == Lookup(env, "ImageVersion")
            && w.arch == c.hostOs + "/" + c.hostArch
            && w.os == seed.worker.os
            && w.workerType == seed.worker.workerType
  {
  }

  /** Repository, commit and last-release fields are the VCS data's values
      under the same keys; normalization only succeeds when that lookup did. */
  lemma NormalizeCopiesVcsData(n: Normalizer, env: StringMap, seed: Spec, c: Collaborators)
    requires Normalize(n, env, seed, c).Success?
    ensures c.vcsInfo(c.repositoryDir).Success?
    ensures CopiedFromVcs(Normalize(n, env, seed, c).value, c.vcsInfo(c.repositoryDir).value)
  {
  }

  /** Project fields: the directory is always the repository root; the nine
      detail fields come from the project data looked up by the repository
      kind and remote just copied, and keep their seeded values when there is
      none. */
  lemma NormalizeProjectFields(n: Normalizer, env: StringMap, seed: Spec, c: Collaborators)
    requires Normalize(n, env, seed, c).Success?
    ensures var s := Normalize(n, env, seed, c).value;
            var data := c.projectDetails(s.repository.kind, s.repository.remote);
            && s.project.dir == c.repositoryDir
            && (data.None? ==> ProjectDetailsEqual(s.project, seed.project))
            && (data.Some? ==> CopiedFromProjectData(s.project, data.value))
  {
  }

  /** Registry host and credentials are blank, the registry repository is the
      slug of the repository directory's name, the tag is the commit's
      release name, and deploy freeze is off. */
  lemma NormalizeRegistryAndControl(n: Normalizer, env: StringMap, seed: Spec, c: Collaborators)
    requires Normalize(n, env, seed, c).Success?
    ensures var s := Normalize(n, env, seed, c).value;
            && s.containerRegistry.host == ""
            && s.containerRegistry.repository == c.slug(c.repositoryDirName)
            && s.containerRegistry.username == ""
            && s.containerRegistry.password == ""
            && s.containerRegistry.tag == s.commit.refRelease
            && s.control.deployFreeze == "false"
  {
  }

  /** A push run: detected, classified as push, the stage and job slugs are
      the slugs of the workflow and action names, and the run URL follows
      the template. */
  lemma PushRunScenario(env: StringMap, seed: Spec, c: Collaborators)
    requires Lookup(env, "GITHUB_ACTIONS") == "true"
    requires Lookup(env, "GITHUB_EVENT_NAME") == "push"
    requires Lookup(env, "GITHUB_WORKFLOW") == "ci"
    requires Lookup(env, "GITHUB_ACTION") == "__run"
    requires Lookup(env, "GITHUB_SERVER_URL") == "https://github.com"
    requires Lookup(env, "GITHUB_REPOSITORY") == "org/repo"
    requires Lookup(env, "GITHUB_RUN_ID") == "42"
    requires c.vcsInfo(c.repositoryDir).Success?
    ensures Check(NewNormalizer(), env)
    ensures Normalize(NewNormalizer(), env, seed, c).Success?
    ensures var s := Normalize(NewNormalizer(), env, seed, c).value;
            && s.common.found == "true"
            && s.common.version == "0.3.0"
            && s.pipeline.trigger == "push"
            && s.pipeline.stageSlug == c.slug("ci")
            && s.pipeline.jobSlug == c.slug("__run")
            && s.pipeline.url == "https://github.com/org/repo/actions/runs/42"
            && s.pipeline.pullRequestId == seed.pipeline.pullRequestId
  {
  }

  /** A pull-request run whose ref is refs/pull/123/merge reports 123. */
  lemma PullRequestRunScenario(env: StringMap, seed: Spec, c: Collaborators)
    requires Lookup(env, "GITHUB_EVENT_NAME") == "pull_request"
    requires Lookup(env, "GITHUB_REF") == "refs" + "/" + "pull" + "/" + "123" + "/merge"
    requires c.vcsInfo(c.repositoryDir).Success?
    ensures Normalize(NewNormalizer(), env, seed, c).Success?
    ensures var s := Normalize(NewNormalizer(), env, seed, c).value;
            s.pipeline.trigger == "pull-request" && s.pipeline.pullRequestId == "123"
  {
    PullRequestIdOfShapedRef("refs", "pull", "123", "/merge");
    assert PullRequestId(Lookup(env, "GITHUB_REF")) == Some("123");
    assert !PullRequestRefMalformed(env);
  }

  /** A pull-request run with an empty or absent GITHUB_REF aborts on the ref, before the
      VCS lookup is consulted. */
  lemma PullRequestWithoutRefAborts(env: StringMap, seed: Spec, c: Collaborators)
    requires Lookup(env, "GITHUB_EVENT_NAME") == "pull_request"
    requires Lookup(env, "GITHUB_REF") == ""
    ensures Normalize(NewNormalizer(), env, seed, c) == Failure(MalformedPullRequestRef(""))
  {
  }

  /** Every repository, commit and last-release field holds the VCS data's
      value under its own NCI key ("" when the key is missing). */
  predicate CopiedFromVcs(s: Spec, vcs: KeyedData)
  {
    && s.repository.kind == Lookup(vcs, RepositoryKind)
    && s.repository.remote == Lookup(vcs, RepositoryRemote)
    && s.repository.status == Lookup(vcs, RepositoryStatus)
    && s.commit.refType == Lookup(vcs, CommitRefType)
    && s.commit.refName == Lookup(vcs, CommitRefName)
    && s.commit.refPath == Lookup(vcs, CommitRefPath)
    && s.commit.refSlug == Lookup(vcs, CommitRefSlug)
    && s.commit.refVcs == Lookup(vcs, CommitRefVcs)
    && s.commit.refRelease == Lookup(vcs, CommitRefRelease)
    && s.commit.sha == Lookup(vcs, CommitSha)
    && s.commit.shaShort == Lookup(vcs, CommitShaShort)
    && s.commit.title == Lookup(vcs, CommitTitle)
    && s.commit.description == Lookup(vcs, CommitDescription)
    && s.commit.authorName == Lookup(vcs, CommitAuthorName)
    && s.commit.authorEmail == Lookup(vcs, CommitAuthorEmail)
    && s.commit.committerName == Lookup(vcs, CommitCommitterName)
    && s.commit.committerEmail == Lookup(vcs, CommitCommitterEmail)
    && s.commit.count == Lookup(vcs, CommitCount)
    && s.lastRelease.refName == Lookup(vcs, LastReleaseRefName)
    && s.lastRelease.refSlug == Lookup(vcs, LastReleaseRefSlug)
    && s.lastRelease.refVcs == Lookup(vcs, LastReleaseRefVcs)
    && s.lastRelease.commitAfterCount == Lookup(vcs, LastReleaseCommitAfterCount)
  }

  /** The nine detail fields (all project fields but the directory) agree. */
  predicate ProjectDetailsEqual(p: Project, q: Project)
  {
    && p.id == q.id && p.name == q.name && p.path == q.path && p.slug == q.slug
    && p.description == q.description && p.topics == q.topics && p.issueUrl == q.issueUrl
    && p.stargazers == q.stargazers && p.forks == q.forks
  }

  /** The nine detail fields hold the project data's values under their keys. */
  predicate CopiedFromProjectData(p: Project, data: KeyedData)
  {
    && p.id == Lookup(data, ProjectId)
    && p.name == Lookup(data, ProjectName)
    && p.path == Lookup(data, ProjectPath)
    && p.slug == Lookup(data, ProjectSlug)
    && p.description == Lookup(data, ProjectDescription)
    && p.topics == Lookup(data, ProjectTopics)
    && p.issueUrl == Lookup(data, ProjectIssueUrl)
    && p.stargazers == Lookup(data, ProjectStargazers)
    && p.forks == Lookup(data, ProjectForks)
  }

  /** No provider-native variables can be reconstructed: always empty. */
  function Denormalize(n: Normalizer, env: StringMap): (native: StringMap)
    ensures |native| == 0
  {
    map[]
  }
}
