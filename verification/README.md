# GitHub Actions normalizer — a Dafny model

normalizeci turns the environment of a CI system into one common set of
`NCI_*` variables. This project models the GitHub Actions normalizer and the
release-name helper it relies on:

- `Wrappers` — `Option` and `Result`.
- `Strings` — Go's map read (absent key reads as `""`) and `strings.Split` /
  `strings.Join` on one separator, with their round trips.
- `NciSpec` — the NCI schema as records grouped like the variable names
  (common, worker, pipeline, repository, commit, last release, project,
  container registry, control), the keys the VCS and project lookups answer
  with, and the closed set of pipeline triggers.
- `VcsRepository` — `getReleaseName`: replace every `/` by `-`, then strip
  every leading `v`.
- `GitHubActions` — the normalizer record, its constructor and accessors,
  detection (`Check`), `Normalize` and `Denormalize`.

`Normalize` is a pure function of the environment, the normalizer, a *seed*
and a `Collaborators` record. The seed is the record the source builds from
the environment before it overwrites fields, so every field the normalizer
does not write keeps its seeded value. `Collaborators` holds what the source
learns outside the environment:

- the repository root found from the working directory, and that root's
  directory name;
- the VCS lookup and the project-details lookup;
- the slug function;
- the host operating system and architecture.

The source panics in two places: on a pull-request ref with fewer than three
`/`-separated parts (the index `splitRef[2]` is out of range), and when the
VCS lookup fails. The model returns a `Failure` instead, and the ref check
comes first, as in the source.

## Model

| member | source | states |
|---|---|---|
| GitHubActions.NewNormalizer | pkg/githubactions/githubactions.go:142-151 | the instance has version "0.3.0", and its name and slug accessors report "GitHub Actions" and "github-actions" |
| GitHubActions.GetName | pkg/githubactions/githubactions.go:25-28 | returns the normalizer's name |
| GitHubActions.GetSlug | pkg/githubactions/githubactions.go:30-33 | returns the normalizer's slug |
| GitHubActions.Check | pkg/githubactions/githubactions.go:35-42 | detection holds exactly when GITHUB_ACTIONS is present and equals "true"; an absent key does not detect |
| GitHubActions.CheckReadsOnlyMarker | pkg/githubactions/githubactions.go:36-42 | changing any variable other than GITHUB_ACTIONS never changes detection |
| GitHubActions.ClassifyEvent | pkg/githubactions/githubactions.go:61-69 | "push" gives Push and "pull_request" gives PullRequest, in both directions; every other event gives Unknown |
| GitHubActions.UnrecognisedEventIsUnknown | pkg/githubactions/githubactions.go:67-68 | every event other than the two recognised names is classified Unknown |
| NciSpec.TriggerName | pkg/githubactions/githubactions.go:62-69 | the trigger string is one of "push", "pull-request" and "unknown", and never empty |
| NciSpec.TriggerNameInjective | pkg/githubactions/githubactions.go:62-70 | distinct triggers have distinct strings, so the later comparison against the pull-request string recognises exactly the pull-request event |
| GitHubActions.PullRequestId | pkg/githubactions/githubactions.go:70-74 | an id exists exactly when the ref holds at least two `/`, and it never contains a `/` |
| GitHubActions.PullRequestIdOfShapedRef | pkg/githubactions/githubactions.go:72-73 | for a ref `a/b/id` or `a/b/id/...` with `/`-free pieces, the id is exactly the third piece |
| GitHubActions.PullRequestIdLocation | pkg/githubactions/githubactions.go:72-73 | when an id exists, the ref is rebuilt as two `/`-free pieces, `/`, the id, and then nothing or `/` and the rest |
| GitHubActions.PipelineUrl | pkg/githubactions/githubactions.go:79 | the URL is GITHUB_SERVER_URL, `/`, GITHUB_REPOSITORY, `/actions/runs/` and GITHUB_RUN_ID, each at a fixed offset, so each of the three variables can be read back from it |
| GitHubActions.Normalize | pkg/githubactions/githubactions.go:44-136 | aborts exactly on a pull-request event with a malformed ref (reported first) or a failing VCS lookup. On success: found is "true" and carries the normalizer's identity; the trigger follows the event; the PR id is the ref's third piece, and any other event keeps the seeded id; stage and job names come from GITHUB_WORKFLOW and GITHUB_ACTION, slugs are their slugs; the URL is server/repository/actions/runs/run-id; unwritten pipeline fields keep the seed |
| GitHubActions.NormalizeAnnouncesNormalizer | pkg/githubactions/githubactions.go:48-52 | the common block says "true" and the normalizer's version, and its name and slug as the accessors report them |
| GitHubActions.NormalizeReadsSeedOnlyWhereUnwritten | pkg/githubactions/githubactions.go:46-133 | two seeds that agree on the fields normalization never writes give the same outcome |
| GitHubActions.NormalizeWorkerFields | pkg/githubactions/githubactions.go:54-58 | worker id and name are RUNNER_TRACKING_ID, version is ImageVersion, arch is "os/arch" of the host; os and type keep the seed |
| GitHubActions.NormalizeCopiesVcsData | pkg/githubactions/githubactions.go:81-108 | success implies the VCS lookup succeeded, and all 22 repository, commit and last-release fields equal the VCS data under the same key, "" when absent |
| GitHubActions.NormalizeProjectFields | pkg/githubactions/githubactions.go:110-123 | the project dir is always the repository root; the nine details come from the project data looked up by the copied kind and remote when there is any, else keep the seed |
| GitHubActions.NormalizeRegistryAndControl | pkg/githubactions/githubactions.go:125-133 | registry host, username and password are ""; the repository is the slug of the root's directory name; the tag is the commit's release name; deploy freeze is "false" |
| GitHubActions.PushRunScenario | pkg/githubactions/githubactions.go:60-79 | a push run with the new normalizer is detected and succeeds, with trigger "push", version "0.3.0", the slugged names, URL "https://github.com/org/repo/actions/runs/42" and the seeded PR id |
| GitHubActions.PullRequestRunScenario | pkg/githubactions/githubactions.go:65-74 | a pull_request run on refs/pull/123/merge succeeds with trigger "pull-request" and id "123" |
| GitHubActions.PullRequestWithoutRefAborts | pkg/githubactions/githubactions.go:70-74 | a pull_request run with an empty or absent ref aborts on the ref, whatever the VCS lookup would say |
| GitHubActions.Denormalize | pkg/githubactions/githubactions.go:138-140 | the result is always the empty map |
| Strings.Lookup | pkg/githubactions/githubactions.go:55-57 | a map read gives the stored value for a present key and "" for an absent one |
| NciSpec.OfNamedReads | pkg/githubactions/githubactions.go:87-121 | reading a schema key from the converted collaborator data is reading its `NCI_*` name from the string-keyed map, "" when absent |
| Strings.Split | pkg/githubactions/githubactions.go:72 | splitting gives at least one piece and no piece contains the separator |
| Strings.SplitCount | pkg/githubactions/githubactions.go:72-73 | the number of pieces is one more than the number of separators, so index 2 exists exactly when there are two or more |
| Strings.JoinSplit | pkg/githubactions/githubactions.go:72 | joining the pieces with the separator gives back the input |
| Strings.SplitJoin | pkg/githubactions/githubactions.go:72 | splitting a join of separator-free pieces gives back those pieces |
| VcsRepository.ReplaceSlashes | pkg/vcsrepository/util.go:21-23 | the result has the same length, and each character is the input's with `/` replaced by `-` |
| VcsRepository.LeadingCount | pkg/vcsrepository/util.go:25 | the count is the length of the longest prefix made only of the character |
| VcsRepository.TrimLeft | pkg/vcsrepository/util.go:25 | trimming drops exactly that longest prefix |
| VcsRepository.GetReleaseName | pkg/vcsrepository/util.go:20-26 | the name holds no `/` and does not start with `v`; its length is the input's minus its leading `v` run, and each character is the corresponding input character after that run, with `/` replaced by `-` |
| VcsRepository.ReleaseNameIsSuffixOfSubstituted | pkg/vcsrepository/util.go:20-26 | the name is the substituted input with the leading `v` run of the original input dropped |
| VcsRepository.GetReleaseNameIdempotent | pkg/vcsrepository/util.go:20-26 | applying the function to its own result changes nothing |
| VcsRepository.ReleaseNameTrimsEveryLeadingV | pkg/vcsrepository/util.go:25 | "vv1.0" becomes "1.0": every leading `v` goes, not just one |
| VcsRepository.ReleaseNameKeepsInnerV | pkg/vcsrepository/util.go:20-26 | "v1/rev" becomes "1-rev": an inner `v` stays and the slash becomes a dash |

## Left out

- fileExists (pkg/vcsrepository/util.go:10-18): file-system access; nothing in the modelled core calls it.
- FindRepositoryDirectory, GetWorkingDirectory, GetVCSRepositoryInformation and GetProjectDetails are not part of this model. Their results are fields of `Collaborators`: the root directory, a VCS lookup that may fail, and a project lookup that may return nothing.
- `runtime.GOOS` and `runtime.GOARCH` are parameters (`hostOs`, `hostArch`).
- `slug.Make` is an uninterpreted parameter; no property of it is assumed.
- The container-registry repository is derived with `filepath.Join`, `os.PathSeparator` and `GetDirectoryNameFromPath`. That derivation is not modelled: the root's directory name is the parameter `repositoryDirName`.
- `ncispec.OfMap` / `ncispec.ToMap` and the `map[string]string` form of the result are not modelled. The seed record stands for the parsed environment, and the result stays a record.
- pkg/ncispec is not part of this model. `ncispec.PipelineTriggerPullRequest` is not shown; the model writes it as "pull-request" (and the push and unknown triggers as "push" and "unknown").
- VcsRepository.ReplaceSlashes: `slug.Substitute` is modelled as replacing every `/` with `-`. No other substitution is assumed.
- The Go panics are modelled as `Failure` values. Unwinding and recovery are not modelled.
- Go strings are byte strings; the model treats them as sequences of characters. The operations here only compare and split on ASCII characters.
- The normalizer dispatcher and the command line are outside the core.
- pkg/normalizer/githubactions/normalize_test.go tests another variant of the normalizer, in a different directory, which returns a struct and expects version "1.0.0" (line 20). Its assertions are not modelled.
