/**
 * Slash-delimited resource names: splitting and joining on '/', the last
 * segment of a path, and the cluster name grammar
 * `projects/{P}/instances/{I}/clusters/{C}`.
 */
module ResourceNames {
  import opened Wrappers

  /** A segment the name grammar accepts: non-empty and free of '/'. */
  predicate ValidSegment(s: string) {
    s != "" && '/' !in s
  }

  /** The parts glued together with '/' between neighbours (`"/".join(parts)`). */
  function Join(parts: seq<string>): string {
    if |parts| == 0 then ""
    else if |parts| == 1 then parts[0]
    else parts[0] + "/" + Join(parts[1..])
  }

  /**
   * Splitting on every '/' (`s.split("/")`): always at least one part, no
   * part holds a '/', and joining the parts gives back `s`.
   */
  function Split(s: string): (parts: seq<string>)
    ensures |parts| >= 1
    ensures forall k :: 0 <= k < |parts| ==> '/' !in parts[k]
    ensures Join(parts) == s
  {
    if s == [] then [""]
    else
      var rest := Split(s[1..]);
      if s[0] == '/' then
        assert ([""] + rest)[1..] == rest;
        [""] + rest
      else
        var parts := [[s[0]] + rest[0]] + rest[1..];
        assert parts[1..] == rest[1..];
        assert |rest| > 1 ==> Join(rest) == rest[0] + "/" + Join(rest[1..]);
        assert Join(parts) == [s[0]] + Join(rest);
        assert s == [s[0]] + s[1..];
        parts
  }

  /** A slash-free string splits into itself alone. */
  lemma {:induction false} SplitNoSlash(p: string)
    requires '/' !in p
    ensures Split(p) == [p]
  {
    if p != [] {
      assert '/' !in p[1..];
      SplitNoSlash(p[1..]);
      assert [p[0]] + p[1..] == p;
    }
  }

  /** A slash-free first segment followed by '/' splits off as the first part. */
  lemma {:induction false} SplitPrefix(p: string, s: string)
    requires '/' !in p
    ensures Split(p + "/" + s) == [p] + Split(s)
  {
    if p == [] {
      assert p + "/" + s == "/" + s;
      assert ("/" + s)[1..] == s;
    } else {
      var t := p + "/" + s;
      assert t[0] == p[0];
      assert t[1..] == p[1..] + "/" + s;
      assert '/' !in p[1..];
      SplitPrefix(p[1..], s);
      assert [p[0]] + p[1..] == p;
    }
  }

  /** Splitting undoes joining, for a non-empty list of slash-free parts. */
  lemma {:induction false} SplitJoin(parts: seq<string>)
    requires |parts| >= 1
    requires forall k :: 0 <= k < |parts| ==> '/' !in parts[k]
    ensures Split(Join(parts)) == parts
  {
    if |parts| == 1 {
      SplitNoSlash(parts[0]);
    } else {
      SplitPrefix(parts[0], Join(parts[1..]));
      SplitJoin(parts[1..]);
      assert [parts[0]] + parts[1..] == parts;
    }
  }

  /**
   * The last part of a join is a suffix of the joined string, and when there
   * is more than one part it is preceded by a '/'.
   */
  lemma {:induction false} JoinEndsWithLast(parts: seq<string>)
    requires |parts| >= 1
    ensures |parts[|parts| - 1]| <= |Join(parts)|
    ensures Join(parts)[|Join(parts)| - |parts[|parts| - 1]|..] == parts[|parts| - 1]
    ensures |parts| > 1 ==> |parts[|parts| - 1]| < |Join(parts)|
    ensures |parts| > 1 ==> Join(parts)[|Join(parts)| - |parts[|parts| - 1]| - 1] == '/'
  {
    if |parts| > 1 {
      var tail := parts[1..];
      JoinEndsWithLast(tail);
      var last := parts[|parts| - 1];
      assert tail[|tail| - 1] == last;
      var t := Join(tail);
      var s := Join(parts);
      var front := parts[0] + "/";
      assert s == front + t;
      assert s[|s| - |last|..] == t[|t| - |last|..];
      if |tail| == 1 {
        assert t == last;
        assert s[|s| - |last| - 1] == front[|front| - 1];
      } else {
        assert s[|s| - |last| - 1] == t[|t| - |last| - 1];
      }
    }
  }

  /**
   * The text after the last '/' (`s.split("/")[-1]`): the longest slash-free
   * suffix of `s`, which is all of `s` when `s` holds no '/'.
   */
  function LastSegment(s: string): (r: string)
    ensures '/' !in r
    ensures |r| <= |s| && s[|s| - |r|..] == r
    ensures |r| == |s| || s[|s| - |r| - 1] == '/'
  {
    var parts := Split(s);
    JoinEndsWithLast(parts);
    parts[|parts| - 1]
  }

  /** The last segment of `prefix/leaf` is `leaf` when `leaf` is slash-free. */
  lemma LastSegmentOfPath(prefix: string, leaf: string)
    requires '/' !in leaf
    ensures LastSegment(prefix + "/" + leaf) == leaf
  {
    var s := prefix + "/" + leaf;
    assert s[|s| - |leaf| - 1] == '/';
    assert s[|s| - |leaf|..] == leaf;
  }

  /** The canonical cluster name `projects/{P}/instances/{I}/clusters/{C}`. */
  function ClusterPath(project: string, instanceId: string, clusterId: string): string {
    "projects/" + project + "/instances/" + instanceId + "/clusters/" + clusterId
  }

  /** The cluster name is the six-part join of its fixed labels and its three ids. */
  lemma PathIsJoin(project: string, instanceId: string, clusterId: string)
    ensures ClusterPath(project, instanceId, clusterId)
         == Join(["projects", project, "instances", instanceId, "clusters", clusterId])
  {
    var parts := ["projects", project, "instances", instanceId, "clusters", clusterId];
    assert parts[1..] == [project, "instances", instanceId, "clusters", clusterId];
    assert parts[2..] == ["instances", instanceId, "clusters", clusterId];
    assert parts[3..] == [instanceId, "clusters", clusterId];
    assert parts[4..] == ["clusters", clusterId];
    assert parts[5..] == [clusterId];
    assert parts[1..][1..] == parts[2..];
    assert parts[2..][1..] == parts[3..];
    assert parts[3..][1..] == parts[4..];
    assert parts[4..][1..] == parts[5..];
    calc {
      Join(parts);
      "projects" + "/" + Join(parts[1..]);
      "projects" + "/" + (project + "/" + Join(parts[2..]));
      "projects" + "/" + (project + "/" + ("instances" + "/" + Join(parts[3..])));
      "projects" + "/" + (project + "/" + ("instances" + "/" + (instanceId + "/" + Join(parts[4..]))));
      "projects" + "/" + (project + "/" + ("instances" + "/" + (instanceId + "/" + ("clusters" + "/" + clusterId))));
      ClusterPath(project, instanceId, clusterId);
    }
  }

  /** The three ids carried by a cluster name. */
  datatype ClusterNameParts = ClusterNameParts(project: string, instanceId: string, clusterId: string)

  /**
   * Matches a name against `projects/{P}/instances/{I}/clusters/{C}` with
   * non-empty slash-free segments. A match gives back ids that rebuild the
   * very same name.
   */
  function ParseClusterName(name: string): (r: Option<ClusterNameParts>)
    ensures r.Some? ==>
      ValidSegment(r.value.project) && ValidSegment(r.value.instanceId) && ValidSegment(r.value.clusterId)
    ensures r.Some? ==> ClusterPath(r.value.project, r.value.instanceId, r.value.clusterId) == name
  {
    var parts := Split(name);
    if |parts| == 6
       && parts[0] == "projects" && ValidSegment(parts[1])
       && parts[2] == "instances" && ValidSegment(parts[3])
       && parts[4] == "clusters" && ValidSegment(parts[5])
    then
      PathIsJoin(parts[1], parts[3], parts[5]);
      assert parts == ["projects", parts[1], "instances", parts[3], "clusters", parts[5]];
      Some(ClusterNameParts(parts[1], parts[3], parts[5]))
    else
      None
  }

  /** Every name built from valid ids is accepted and yields exactly those ids. */
  lemma ParseClusterPath(project: string, instanceId: string, clusterId: string)
    requires ValidSegment(project) && ValidSegment(instanceId) && ValidSegment(clusterId)
    ensures ParseClusterName(ClusterPath(project, instanceId, clusterId))
         == Some(ClusterNameParts(project, instanceId, clusterId))
  {
    var parts := ["projects", project, "instances", instanceId, "clusters", clusterId];
    PathIsJoin(project, instanceId, clusterId);
    SplitJoin(parts);
  }

  /** Cluster names built from valid ids are equal only when all three ids are. */
  lemma ClusterPathInjective(p1: string, i1: string, c1: string, p2: string, i2: string, c2: string)
    requires ValidSegment(p1) && ValidSegment(i1) && ValidSegment(c1)
    requires ValidSegment(p2) && ValidSegment(i2) && ValidSegment(c2)
    ensures ClusterPath(p1, i1, c1) == ClusterPath(p2, i2, c2) <==> p1 == p2 && i1 == i2 && c1 == c2
  {
    ParseClusterPath(p1, i1, c1);
    ParseClusterPath(p2, i2, c2);
  }

  /** A name without any '/' (such as `BAD_NAME`) never matches the grammar. */
  lemma SlashFreeNameRejected(name: string)
    requires '/' !in name
    ensures ParseClusterName(name) == None
  {
    SplitNoSlash(name);
  }
}
