/** The vendor-neutral NCI schema the normalizers fill in. Every field is a
    string, grouped here by the prefix of its `NCI_*` key; absence is the
    empty string. */
module NciSpec {
  import opened Strings

  /** NCI, NCI_VERSION, NCI_SERVICE_NAME, NCI_SERVICE_SLUG. */
  datatype Common = Common(found: string, version: string, serviceName: string, serviceSlug: string)

  /** NCI_WORKER_*. */
  datatype Worker = Worker(id: string, name: string, version: string, arch: string,
                           os: string, workerType: string)

  /** NCI_PIPELINE_*. */
  datatype Pipeline = Pipeline(trigger: string, stageName: string, stageSlug: string,
                               jobName: string, jobSlug: string, id: string, url: string,
                               attempt: string, jobStartedAt: string, configFile: string,
                               pullRequestId: string)

  /** NCI_REPOSITORY_*. */
  datatype Repository = Repository(kind: string, remote: string, status: string)

  /** NCI_COMMIT_REF_* and NCI_COMMIT_*. */
  datatype Commit = Commit(refType: string, refName: string, refPath: string, refSlug: string,
                           refVcs: string, refRelease: string, sha: string, shaShort: string,
                           title: string, description: string, authorName: string,
                           authorEmail: string, committerName: string, committerEmail: string,
                           count: string)

  /** NCI_LASTRELEASE_*. */
  datatype LastRelease = LastRelease(refName: string, refSlug: string, refVcs: string,
                                     commitAfterCount: string)

  /** NCI_PROJECT_*. */
  datatype Project = Project(id: string, name: string, path: string, slug: string,
                             description: string, topics: string, issueUrl: string,
                             stargazers: string, forks: string, dir: string)

  /** NCI_CONTAINERREGISTRY_*. */
  datatype ContainerRegistry = ContainerRegistry(host: string, repository: string,
                                                 username: string, password: string, tag: string)

  /** NCI_DEPLOY_FREEZE. */
  datatype Control = Control(deployFreeze: string)

  datatype Spec = Spec(common: Common, worker: Worker, pipeline: Pipeline,
                       repository: Repository, commit: Commit, lastRelease: LastRelease,
                       project: Project, containerRegistry: ContainerRegistry, control: Control)

  /** The schema keys under which the VCS and project collaborators report
      their data (the `NCI_*` names of `KeyName`). */
  datatype NciKey =
    | RepositoryKind | RepositoryRemote | RepositoryStatus
    | CommitRefType | CommitRefName | CommitRefPath | CommitRefSlug | CommitRefVcs
    | CommitRefRelease | CommitSha | CommitShaShort | CommitTitle | CommitDescription
    | CommitAuthorName | CommitAuthorEmail | CommitCommitterName | CommitCommitterEmail
    | CommitCount
    | LastReleaseRefName | LastReleaseRefSlug | LastReleaseRefVcs | LastReleaseCommitAfterCount
    | ProjectId | ProjectName | ProjectPath | ProjectSlug | ProjectDescription | ProjectTopics
    | ProjectIssueUrl | ProjectStargazers | ProjectForks

  /** The key as it appears in the schema's string-to-string form. */
  function KeyName(k: NciKey): string
  {
    match k
    case RepositoryKind => "NCI_REPOSITORY_KIND"
    case RepositoryRemote => "NCI_REPOSITORY_REMOTE"
    case RepositoryStatus => "NCI_REPOSITORY_STATUS"
    case CommitRefType => "NCI_COMMIT_REF_TYPE"
    case CommitRefName => "NCI_COMMIT_REF_NAME"
    case CommitRefPath => "NCI_COMMIT_REF_PATH"
    case CommitRefSlug => "NCI_COMMIT_REF_SLUG"
    case CommitRefVcs => "NCI_COMMIT_REF_VCS"
    case CommitRefRelease => "NCI_COMMIT_REF_RELEASE"
    case CommitSha => "NCI_COMMIT_SHA"
    case CommitShaShort => "NCI_COMMIT_SHA_SHORT"
    case CommitTitle => "NCI_COMMIT_TITLE"
    case CommitDescription => "NCI_COMMIT_DESCRIPTION"
    case CommitAuthorName => "NCI_COMMIT_AUTHOR_NAME"
    case CommitAuthorEmail => "NCI_COMMIT_AUTHOR_EMAIL"
    case CommitCommitterName => "NCI_COMMIT_COMMITTER_NAME"
    case CommitCommitterEmail => "NCI_COMMIT_COMMITTER_EMAIL"
    case CommitCount => "NCI_COMMIT_COUNT"
    case LastReleaseRefName => "NCI_LASTRELEASE_REF_NAME"
    case LastReleaseRefSlug => "NCI_LASTRELEASE_REF_SLUG"
    case LastReleaseRefVcs => "NCI_LASTRELEASE_REF_VCS"
    case LastReleaseCommitAfterCount => "NCI_LASTRELEASE_COMMIT_AFTER_COUNT"
    case ProjectId => "NCI_PROJECT_ID"
    case ProjectName => "NCI_PROJECT_NAME"
    case ProjectPath => "NCI_PROJECT_PATH"
    case ProjectSlug => "NCI_PROJECT_SLUG"
    case ProjectDescription => "NCI_PROJECT_DESCRIPTION"
    case ProjectTopics => "NCI_PROJECT_TOPICS"
    case ProjectIssueUrl => "NCI_PROJECT_ISSUE_URL"
    case ProjectStargazers => "NCI_PROJECT_STARGAZERS"
    case ProjectForks => "NCI_PROJECT_FORKS"
  }

  /** Every schema key a collaborator can report. */
  const AllKeys: set<NciKey> := {
    RepositoryKind, RepositoryRemote, RepositoryStatus,
    CommitRefType, CommitRefName, CommitRefPath, CommitRefSlug, CommitRefVcs,
    CommitRefRelease, CommitSha, CommitShaShort, CommitTitle, CommitDescription,
    CommitAuthorName, CommitAuthorEmail, CommitCommitterName, CommitCommitterEmail,
    CommitCount,
    LastReleaseRefName, LastReleaseRefSlug, LastReleaseRefVcs, LastReleaseCommitAfterCount,
    ProjectId, ProjectName, ProjectPath, ProjectSlug, ProjectDescription, ProjectTopics,
    ProjectIssueUrl, ProjectStargazers, ProjectForks}

  lemma AllKeysListed(k: NciKey)
    ensures k in AllKeys
  {
  }

  /** A collaborator's string-keyed answer, read under the schema keys. */
  function OfNamed(m: map<string, string>): KeyedData
  {
    map k | k in AllKeys && KeyName(k) in m :: m[KeyName(k)]
  }

  /** Reading a schema key from the converted data is reading its `NCI_*`
      name from the string-keyed map, "" when that name is absent. */
  lemma OfNamedReads(m: map<string, string>, k: NciKey)
    ensures Lookup(OfNamed(m), k) == Lookup(m, KeyName(k))
  {
    AllKeysListed(k);
  }

  /** Data reported by a collaborator, keyed by schema key. */
  type KeyedData = map<NciKey, string>

  /** The closed set of pipeline trigger kinds a normalizer may report. */
  datatype PipelineTrigger = Push | PullRequest | Unknown

  /** The value written to NCI_PIPELINE_TRIGGER for each kind. */
  function TriggerName(t: PipelineTrigger): (name: string)
    ensures name != ""
    ensures name in {"push", "pull-request", "unknown"}
  {
    match t
    case Push => "push"
    case PullRequest => "pull-request"
    case Unknown => "unknown"
  }

  /** Distinct kinds are written as distinct strings, so the field identifies
      the kind it was set from. */
  lemma TriggerNameInjective(a: PipelineTrigger, b: PipelineTrigger)
    requires TriggerName(a) == TriggerName(b)
    ensures a == b
  {
  }
}
