/** The release-name rule of the VCS collaborator: a git reference such as
    `release/v1.2` or `v1.2.0` becomes a release name by turning every `/`
    into `-` and then trimming every leading `v`. */
module VcsRepository {

  /** The one substitution applied before trimming: `/` becomes `-`. */
  function SubstituteSlash(ch: char): char
  {
    if ch == '/' then '-' else ch
  }

  /** Replace-all of `/` by `-`, character by character. */
  function ReplaceSlashes(s: string): (r: string)
    ensures |r| == |s|
    ensures forall i {:trigger r[i]} :: 0 <= i < |s| ==> r[i] == SubstituteSlash(s[i])
  {
    if |s| == 0 then "" else [SubstituteSlash(s[0])] + ReplaceSlashes(s[1..])
  }

  /** The length of the longest prefix of `s` made only of `c`. */
  function LeadingCount(s: string, c: char): (k: nat)
    ensures k <= |s|
    ensures forall i :: 0 <= i < k ==> s[i] == c
    ensures k < |s| ==> s[k] != c
  {
    if |s| > 0 && s[0] == c then 1 + LeadingCount(s[1..], c) else 0
  }

  /** Go's `strings.TrimLeft(s, string(c))`: drops the whole leading run of
      `c`s, so what is left is a suffix of `s` that does not start with `c`. */
  function TrimLeft(s: string, c: char): (r: string)
    ensures r == s[LeadingCount(s, c)..]
  {
    if |s| > 0 && s[0] == c then TrimLeft(s[1..], c) else s
  }

  /** Any prefix of `c`s followed by a non-`c` (or the end) is the leading run. */
  lemma LeadingCountUnique(s: string, c: char, k: nat)
    requires k <= |s|
    requires forall i :: 0 <= i < k ==> s[i] == c
    requires k < |s| ==> s[k] != c
    ensures LeadingCount(s, c) == k
  {
  }

  /** Substituting `/` does not change the leading run of `v`s, since neither
      `/` nor `-` is a `v`. */
  lemma ReplaceSlashesKeepsLeadingV(s: string)
    ensures LeadingCount(ReplaceSlashes(s), 'v') == LeadingCount(s, 'v')
  {
    var t := ReplaceSlashes(s);
    var k := LeadingCount(s, 'v');
    assert forall i :: 0 <= i < |s| ==> (t[i] == 'v' <==> s[i] == 'v');
    LeadingCountUnique(t, 'v', k);
  }

  /** `getReleaseName`: the result has no `/`, does not start with `v`, is
      the input minus its leading `v`s, and is otherwise the input with every
      `/` read as `-`. */
  function GetReleaseName(input: string): (r: string)
    ensures '/' !in r
    ensures r == [] || r[0] != 'v'
    ensures |r| == |input| - LeadingCount(input, 'v')
    ensures forall i :: 0 <= i < |r| ==>
              r[i] == SubstituteSlash(input[LeadingCount(input, 'v') + i])
  {
    ReleaseNameFacts(input);
    TrimLeft(ReplaceSlashes(input), 'v')
  }

  /** The facts `GetReleaseName` promises, proved of its body. */
  lemma ReleaseNameFacts(input: string)
    ensures var r := TrimLeft(ReplaceSlashes(input), 'v');
            var k := LeadingCount(input, 'v');
            && '/' !in r
            && |r| == |input| - k
            && forall i :: 0 <= i < |r| ==> r[i] == SubstituteSlash(input[k + i])
  {
    var k := LeadingCount(input, 'v');
    ReplaceSlashesKeepsLeadingV(input);
    SubstitutedSuffix(input, k);
    var r := TrimLeft(ReplaceSlashes(input), 'v');
    assert forall i :: 0 <= i < |r| ==> r[i] != '/';
  }

  /** Any suffix of the substituted input is, index for index, the input's
      characters from the same offset with `/` read as `-`. */
  lemma SubstitutedSuffix(input: string, k: nat)
    requires k <= |input|
    ensures var suffix := ReplaceSlashes(input)[k..];
            forall i :: 0 <= i < |suffix| ==> suffix[i] == SubstituteSlash(input[k + i])
  {
    var suffix := ReplaceSlashes(input)[k..];
    forall i | 0 <= i < |suffix|
      ensures suffix[i] == SubstituteSlash(input[k + i])
    {
      assert suffix[i] == ReplaceSlashes(input)[k + i];
    }
  }

  /** The result of the substitution is a suffix of the substituted input:
      only leading `v`s go, interior and trailing ones survive. */
  lemma ReleaseNameIsSuffixOfSubstituted(input: string)
    ensures GetReleaseName(input) == ReplaceSlashes(input)[LeadingCount(input, 'v')..]
  {
    ReplaceSlashesKeepsLeadingV(input);
  }

  /** A release name is already a release name. */
  lemma GetReleaseNameIdempotent(input: string)
    ensures GetReleaseName(GetReleaseName(input)) == GetReleaseName(input)
  {
    var r := GetReleaseName(input);
    assert LeadingCount(r, 'v') == 0;
    var rr := GetReleaseName(r);
    assert |rr| == |r|;
    forall i | 0 <= i < |r|
      ensures rr[i] == r[i]
    {
      assert r[i] != '/' by { assert r[i] in r; }
    }
  }

  /** Every leading `v` goes, not just one. */
  lemma ReleaseNameTrimsEveryLeadingV(input: string)
    requires input == "vv1.0"
    ensures GetReleaseName(input) == "1.0"
  {
    LeadingCountUnique(input, 'v', 2);
    var r := GetReleaseName(input);
    assert r[0] == '1' && r[1] == '.' && r[2] == '0';
  }

  /** A `/` inside becomes `-`, and a `v` that is not leading stays. */
  lemma ReleaseNameKeepsInnerV(input: string)
    requires input == "v1/rev"
    ensures GetReleaseName(input) == "1-rev"
  {
    LeadingCountUnique(input, 'v', 1);
    var r := GetReleaseName(input);
    assert r[0] == SubstituteSlash(input[1]);
    assert r[1] == SubstituteSlash(input[2]);
    assert r[2] == SubstituteSlash(input[3]);
    assert r[3] == SubstituteSlash(input[4]);
    assert r[4] == SubstituteSlash(input[5]);
  }
}
