/** Names of periodic runs (periodicRunName in internal/controller/agenticrun.go). */
module RunNames {

  const MAX_NAME: nat := 253
  const MAX_CLUSTER_PART: nat := 40
  /** Eight bytes of the digest, in hexadecimal. */
  const DIGEST_LENGTH: nat := 16

  predicate Alphanumeric(c: char) { 'a' <= c <= 'z' || '0' <= c <= '9' }

  predicate HexDigit(c: char) { 'a' <= c <= 'f' || '0' <= c <= '9' }

  /** Labels of letters, digits and inner hyphens, joined by single dots. */
  ghost predicate Labels(s: string) {
    && s != "" && Alphanumeric(s[0]) && Alphanumeric(s[|s| - 1])
    && NameCharacters(s)
    && (forall i :: 0 <= i < |s| && s[i] == '.' ==>
         0 < i < |s| - 1 && Alphanumeric(s[i - 1]) && Alphanumeric(s[i + 1]))
  }

  /** What Kubernetes accepts as the name of an object: a subdomain as in section 2.1 of RFC
      1123, in lower case and with at most 253 characters. Kubernetes does not apply the
      limit of 63 characters that the DNS puts on a single label. */
  ghost predicate Subdomain(s: string) {
    |s| <= 253 && Labels(s)
  }

  /** The digest of a cluster name. Only its form is known. */
  ghost predicate HexDigest(digest: string -> string) {
    forall s :: |digest(s)| == DIGEST_LENGTH && forall i :: 0 <= i < DIGEST_LENGTH ==> HexDigit(digest(s)[i])
  }

  function TrimRight(s: string): string {
    if s != "" && (s[|s| - 1] == '-' || s[|s| - 1] == '.') then TrimRight(s[..|s| - 1]) else s
  }

  function ClusterPart(cluster: string): string {
    var part := TrimRight(cluster);
    if |part| > MAX_CLUSTER_PART then TrimRight(part[..MAX_CLUSTER_PART]) else part
  }

  function Suffix(cluster: string, digest: string -> string): string {
    "-" + ClusterPart(cluster) + "-" + digest(cluster)
  }

  lemma {:induction false} TrimRightIsPrefix(s: string)
    ensures TrimRight(s) <= s
  {
    if s != "" && (s[|s| - 1] == '-' || s[|s| - 1] == '.') { TrimRightIsPrefix(s[..|s| - 1]); }
  }

  ghost predicate NameCharacters(s: string) {
    forall i :: 0 <= i < |s| ==> Alphanumeric(s[i]) || s[i] == '-' || s[i] == '.'
  }

  lemma {:induction false} TrimRightEnds(s: string)
    requires s != "" && Alphanumeric(s[0]) && NameCharacters(s)
    ensures TrimRight(s) != "" && Alphanumeric(TrimRight(s)[|TrimRight(s)| - 1])
  {
    if s[|s| - 1] == '-' || s[|s| - 1] == '.' { TrimRightEnds(s[..|s| - 1]); }
  }

  lemma SuffixLength(cluster: string, digest: string -> string)
    requires |digest(cluster)| == DIGEST_LENGTH
    ensures |Suffix(cluster, digest)| <= 2 + MAX_CLUSTER_PART + DIGEST_LENGTH
  {
    TrimRightIsPrefix(cluster);
    var part := TrimRight(cluster);
    if |part| > MAX_CLUSTER_PART { TrimRightIsPrefix(part[..MAX_CLUSTER_PART]); }
  }

  /** What is kept of the prefix beside a suffix of length `n`. */
  function Start(prefix: string, n: nat): string
    requires n <= MAX_NAME
  {
    if |prefix| + n > MAX_NAME then TrimRight(prefix[..MAX_NAME - n]) else prefix
  }

  function RunName(prefix: string, cluster: string, digest: string -> string): string
    requires |digest(cluster)| == DIGEST_LENGTH
  {
    SuffixLength(cluster, digest);
    var suffix := Suffix(cluster, digest);
    Start(prefix, |suffix|) + suffix
  }

  lemma StartFits(prefix: string, n: nat)
    requires n <= MAX_NAME
    ensures Start(prefix, n) <= prefix && |Start(prefix, n)| + n <= MAX_NAME
  {
    if |prefix| + n > MAX_NAME { TrimRightIsPrefix(prefix[..MAX_NAME - n]); }
  }

  lemma PartFits(cluster: string)
    ensures ClusterPart(cluster) <= cluster && |ClusterPart(cluster)| <= MAX_CLUSTER_PART
  {
    TrimRightIsPrefix(cluster);
    var part := TrimRight(cluster);
    if |part| > MAX_CLUSTER_PART { TrimRightIsPrefix(part[..MAX_CLUSTER_PART]); }
  }

  /** `head` is what a limit of `n` characters leaves of `s`: all that fits, up to hyphens
      and dots at its end. */
  ghost predicate HeadOf(head: string, s: string, n: nat) {
    && head <= s && |head| <= n
    && (forall k :: |head| <= k < |s| && k < n ==> s[k] == '-' || s[k] == '.')
    && (head != "" ==> head[|head| - 1] != '-' && head[|head| - 1] != '.')
  }

  /** What fits of the prefix, what fits of the cluster name into 40 characters, and the
      digest. A prefix that fits as a whole is left as it is. */
  ghost predicate Composed(name: string, prefix: string, cluster: string, digest: string) {
    exists start, part ::
      && name == start + "-" + part + "-" + digest
      && HeadOf(part, cluster, 40)
      && var room := 253 - (2 + |part| + |digest|);
      && 0 <= room && if |prefix| <= room then start == prefix else HeadOf(start, prefix, room)
  }

  lemma {:induction false} TrimRightExactly(s: string)
    ensures HeadOf(TrimRight(s), s, |s|)
  {
    if s != "" && (s[|s| - 1] == '-' || s[|s| - 1] == '.') {
      TrimRightExactly(s[..|s| - 1]);
    }
  }

  lemma TrimCut(s: string, n: nat)
    requires n <= |s|
    ensures HeadOf(TrimRight(s[..n]), s, n)
  {
    TrimRightExactly(s[..n]);
  }

  lemma PartExactly(cluster: string)
    ensures HeadOf(ClusterPart(cluster), cluster, 40)
  {
    TrimRightExactly(cluster);
    var part := TrimRight(cluster);
    if |part| > MAX_CLUSTER_PART {
      TrimCut(part, MAX_CLUSTER_PART);
      assert part <= cluster;
    }
  }

  /** For any prefix and any cluster, valid or not, the name is composed of a head of each
      and the whole digest, it is short enough, and a prefix that leaves room for the
      rest is not cut. (Every truncation index is in range.) */
  lemma NameForm(prefix: string, cluster: string, digest: string -> string)
    requires |digest(cluster)| == DIGEST_LENGTH
    ensures var name := RunName(prefix, cluster, digest);
      && |name| <= 253
      && Composed(name, prefix, cluster, digest(cluster))
      && (|prefix| + 2 + 40 + |digest(cluster)| <= 253 ==> prefix <= name)
  {
    SuffixLength(cluster, digest);
    var suffix := Suffix(cluster, digest);
    StartFits(prefix, |suffix|);
    PartFits(cluster);
    PartExactly(cluster);
    var start, part := Start(prefix, |suffix|), ClusterPart(cluster);
    if |prefix| + |suffix| > MAX_NAME { TrimCut(prefix, MAX_NAME - |suffix|); }
    assert start + suffix == start + "-" + part + "-" + digest(cluster);
  }

  /** A valid cluster name of at most 40 characters is kept whole. */
  lemma ShortClusterKept(prefix: string, cluster: string, digest: string -> string)
    requires Labels(cluster) && |cluster| <= 40 && |digest(cluster)| == DIGEST_LENGTH
    ensures exists start :: RunName(prefix, cluster, digest) == start + "-" + cluster + "-" + digest(cluster)
  {
    NameForm(prefix, cluster, digest);
    var start, part :| RunName(prefix, cluster, digest) == start + "-" + part + "-" + digest(cluster)
      && HeadOf(part, cluster, 40);
    assert part == cluster;
  }

  method PeriodicRunName(prefix: string, cluster: string, digest: string -> string) returns (name: string)
    requires |digest(cluster)| == DIGEST_LENGTH
    ensures name == RunName(prefix, cluster, digest)
    ensures |name| <= 253 && Composed(name, prefix, cluster, digest(cluster))
    ensures |name| >= 16 && name[|name| - 16..] == digest(cluster)
    ensures |prefix| + 2 + 40 + |digest(cluster)| <= 253 ==> prefix <= name
  {
    SuffixLength(cluster, digest);
    var start := prefix;
    var clusterPart := TrimRight(cluster);
    if |clusterPart| > MAX_CLUSTER_PART {
      clusterPart := TrimRight(clusterPart[..MAX_CLUSTER_PART]);
    }
    var suffix := "-" + clusterPart + "-" + digest(cluster);
    if |start| + |suffix| > MAX_NAME {
      start := TrimRight(start[..MAX_NAME - |suffix|]);
    }
    name := start + suffix;
    NameForm(prefix, cluster, digest);
    EndsInDigest(prefix, cluster, digest);
  }

  /** A trimmed head of a name is made of labels again. */
  lemma TrimmedHead(s: string, n: nat)
    requires Labels(s) && 0 < n <= |s|
    ensures Labels(TrimRight(s[..n])) && |TrimRight(s[..n])| <= n
  {
    var head := s[..n];
    TrimRightIsPrefix(head);
    TrimRightEnds(head);
    var t := TrimRight(head);
    assert forall i :: 0 <= i < |head| ==> head[i] == s[i];
    assert forall i :: 0 <= i < |t| ==> t[i] == s[i];
  }

  lemma Joined(s: string, t: string)
    requires Labels(s) && Labels(t)
    ensures Labels(s + "-" + t)
  {
    var r := s + "-" + t;
    forall i | 0 <= i < |r|
      ensures Alphanumeric(r[i]) || r[i] == '-' || r[i] == '.'
      ensures r[i] == '.' ==> 0 < i < |r| - 1 && Alphanumeric(r[i - 1]) && Alphanumeric(r[i + 1])
    {
      if i > |s| { assert r[i] == t[i - |s| - 1]; }
    }
  }

  lemma PartIsLabels(cluster: string)
    requires Labels(cluster)
    ensures Labels(ClusterPart(cluster)) && |ClusterPart(cluster)| <= MAX_CLUSTER_PART
  {
    assert cluster[..|cluster|] == cluster;
    TrimmedHead(cluster, |cluster|);
    var part := TrimRight(cluster);
    if |part| > MAX_CLUSTER_PART { TrimmedHead(part, MAX_CLUSTER_PART); }
  }

  lemma StartIsLabels(prefix: string, n: nat)
    requires Labels(prefix) && n < MAX_NAME
    ensures Labels(Start(prefix, n))
  {
    if |prefix| + n > MAX_NAME { TrimmedHead(prefix, MAX_NAME - n); }
  }

  /** A valid prefix and a valid cluster name give a valid name. */
  lemma NameIsSubdomain(prefix: string, cluster: string, digest: string -> string)
    requires Labels(prefix) && Labels(cluster) && HexDigest(digest)
    ensures Subdomain(RunName(prefix, cluster, digest))
  {
    NameForm(prefix, cluster, digest);
    SuffixLength(cluster, digest);
    var n := |Suffix(cluster, digest)|;
    StartIsLabels(prefix, n);
    PartIsLabels(cluster);
    DigestIsLabels(digest(cluster));
    JoinedTwice(Start(prefix, n), ClusterPart(cluster), digest(cluster));
  }

  lemma DigestIsLabels(d: string)
    requires |d| == DIGEST_LENGTH && forall i :: 0 <= i < |d| ==> HexDigit(d[i])
    ensures Labels(d)
  {
  }

  lemma JoinedTwice(s: string, t: string, u: string)
    requires Labels(s) && Labels(t) && Labels(u)
    ensures Labels(s + ("-" + t + "-" + u))
  {
    Joined(s, t);
    Joined(s + "-" + t, u);
    assert s + ("-" + t + "-" + u) == s + "-" + t + "-" + u;
  }

  /** Clusters with different digests never share a name, whatever the prefixes, however
      much of prefix and cluster is cut off. */
  lemma NamesDistinct(prefix: string, cluster: string, otherPrefix: string, other: string, digest: string -> string)
    requires HexDigest(digest) && digest(cluster) != digest(other)
    ensures RunName(prefix, cluster, digest) != RunName(otherPrefix, other, digest)
  {
    EndsInDigest(prefix, cluster, digest);
    EndsInDigest(otherPrefix, other, digest);
  }

  lemma EndsInDigest(prefix: string, cluster: string, digest: string -> string)
    requires |digest(cluster)| == DIGEST_LENGTH
    ensures var name := RunName(prefix, cluster, digest);
      |name| >= DIGEST_LENGTH && name[|name| - DIGEST_LENGTH..] == digest(cluster)
  {
  }
}
