/**
 * The cluster record of a Bigtable instance: its owning instance and client,
 * the derived resource name, construction from a wire-format cluster message
 * (`from_pb`), and identity equality.
 */
module BaseCluster {
  import opened Wrappers
  import opened ResourceNames

  /** The lifecycle state the service reports (an enum code, copied verbatim). */
  datatype State = State(code: int)

  /** The storage medium of a cluster (an enum code, copied verbatim). */
  datatype StorageType = StorageType(code: int)

  /** The owning client: a project id and its resource name. */
  datatype Client = Client(project: string, projectName: string)

  /** A client for `project`, whose project name is `projects/{project}`. */
  function MakeClient(project: string): Client {
    Client(project, "projects/" + project)
  }

  /** A client whose project name is derived from its project, as `MakeClient` builds it. */
  predicate WellFormedClient(c: Client) {
    c.projectName == "projects/" + c.project
  }

  /** Client equality: same project and same project name. */
  predicate ClientEq(a: Client, b: Client) {
    b.project == a.project && b.projectName == a.projectName
  }

  /** The owning instance: its id and its client. */
  datatype Instance = Instance(instanceId: string, client: Client)

  /** Instance equality: same instance id and equal clients. */
  predicate InstanceEq(a: Instance, b: Instance) {
    b.instanceId == a.instanceId && ClientEq(b.client, a.client)
  }

  /**
   * A cluster record. Omitted optional arguments leave the field absent;
   * the constructor validates nothing.
   */
  datatype Cluster = Cluster(
    clusterId: string,
    instance: Instance,
    locationId: Option<string> := None,
    state: Option<State> := None,
    serveNodes: Option<int> := None,
    defaultStorageType: Option<StorageType> := None)

  /** The cluster's resource name, derived from its owners, never stored. */
  function Name(c: Cluster): string {
    ClusterPath(c.instance.client.project, c.instance.instanceId, c.clusterId)
  }

  /**
   * The fields of a wire-format cluster message. A field the sender leaves
   * unset holds its wire default ("" or 0).
   */
  datatype ClusterMessage = ClusterMessage(
    name: string,
    location: string,
    state: State,
    serveNodes: int,
    defaultStorageType: StorageType)

  /** A message with only its name set; every other field holds its wire default. */
  function MessageWithName(name: string): ClusterMessage {
    ClusterMessage(name, "", State(0), 0, StorageType(0))
  }

  /**
   * Why `FromPb` refused a message. The first three are the value errors
   * of the name checks; `MissingInstance` is a well-formed name given no
   * owning instance to check it against.
   */
  datatype FromPbError = MalformedName | InstanceMismatch | ProjectMismatch | MissingInstance

  /**
   * Builds a record from a message and its owning instance. The name is
   * checked first (so a malformed name fails whatever the owner), then its
   * instance segment, then its project segment; a well-formed name with no
   * owner fails as `MissingInstance`. It succeeds exactly when the parsed
   * ids match the owner; then every optional field is filled from the
   * message and the record's derived name is the message's name.
   */
  function FromPb(msg: ClusterMessage, owner: Option<Instance>): (r: Result<Cluster, FromPbError>)
    ensures ParseClusterName(msg.name) == None <==> r == Failure(MalformedName)
    ensures r == Failure(InstanceMismatch) <==>
      ParseClusterName(msg.name).Some? && owner.Some?
      && ParseClusterName(msg.name).value.instanceId != owner.value.instanceId
    ensures r == Failure(ProjectMismatch) <==>
      ParseClusterName(msg.name).Some? && owner.Some?
      && ParseClusterName(msg.name).value.instanceId == owner.value.instanceId
      && ParseClusterName(msg.name).value.project != owner.value.client.project
    ensures ParseClusterName(msg.name).Some? && owner.None? ==> r == Failure(MissingInstance)
    ensures r.Success? <==>
      ParseClusterName(msg.name).Some? && owner.Some?
      && ParseClusterName(msg.name).value.instanceId == owner.value.instanceId
      && ParseClusterName(msg.name).value.project == owner.value.client.project
    ensures r.Success? ==> owner.Some? && r.value.instance == owner.value
    ensures r.Success? ==> Name(r.value) == msg.name && ValidSegment(r.value.clusterId)
    ensures r.Success? ==>
      && r.value.locationId == Some(LastSegment(msg.location))
      && r.value.state == Some(msg.state)
      && r.value.serveNodes == Some(msg.serveNodes)
      && r.value.defaultStorageType == Some(msg.defaultStorageType)
  {
    match ParseClusterName(msg.name)
    case None => Failure(MalformedName)
    case Some(parts) =>
      match owner
      case None => Failure(MissingInstance)
      case Some(instance) =>
        if parts.instanceId != instance.instanceId then Failure(InstanceMismatch)
        else if parts.project != instance.client.project then Failure(ProjectMismatch)
        else
          Success(Cluster(
            parts.clusterId, instance,
            locationId := Some(LastSegment(msg.location)),
            state := Some(msg.state),
            serveNodes := Some(msg.serveNodes),
            defaultStorageType := Some(msg.defaultStorageType)))
  }

  /** Identity of two records: same cluster id under equal instances. */
  predicate SameCluster(a: Cluster, b: Cluster) {
    b.clusterId == a.clusterId && InstanceEq(b.instance, a.instance)
  }

  /** Anything a cluster record can be compared with. */
  datatype Value = ClusterValue(cluster: Cluster) | OtherValue

  /** `a == other`: a value that is not a cluster record is never equal. */
  predicate Eq(a: Cluster, other: Value) {
    match other
    case ClusterValue(b) => SameCluster(a, b)
    case OtherValue => false
  }

  /** `a != other`, the negation of `Eq`. */
  predicate Ne(a: Cluster, other: Value) {
    !Eq(a, other)
  }

  /** Clients built from project ids are equal exactly when the project ids are. */
  lemma ClientEqIffSameProject(p: string, q: string)
    ensures ClientEq(MakeClient(p), MakeClient(q)) <==> p == q
  {
    var prefix := "projects/";
    if ClientEq(MakeClient(p), MakeClient(q)) {
      assert (prefix + p)[|prefix|..] == p;
      assert (prefix + q)[|prefix|..] == q;
    }
  }

  /** Identity equality is an equivalence relation. */
  lemma SameClusterIsEquivalence(a: Cluster, b: Cluster, c: Cluster)
    ensures SameCluster(a, a)
    ensures SameCluster(a, b) <==> SameCluster(b, a)
    ensures SameCluster(a, b) && SameCluster(b, c) ==> SameCluster(a, c)
  {
  }

  /** Location, state, node count and storage type play no part in equality. */
  lemma EqIgnoresDetails(a: Cluster, loc: Option<string>, st: Option<State>,
                         nodes: Option<int>, storage: Option<StorageType>)
    ensures Eq(a, ClusterValue(a.(locationId := loc, state := st, serveNodes := nodes,
                                   defaultStorageType := storage)))
  {
  }

  /** `!=` never holds between a record and itself, and does not depend on the operands' order. */
  lemma NeIrreflexiveSymmetric(a: Cluster, b: Cluster)
    ensures !Ne(a, ClusterValue(a))
    ensures Ne(a, ClusterValue(b)) <==> Ne(b, ClusterValue(a))
  {
  }

  /** Records with different cluster ids are unequal, whatever their instances. */
  lemma DifferentIdsUnequal(a: Cluster, b: Cluster)
    requires a.clusterId != b.clusterId
    ensures Ne(a, ClusterValue(b))
  {
  }

  /**
   * For records with valid ids whose clients carry their derived project
   * names, identity equality coincides with equality of resource names.
   */
  lemma SameClusterIffSameName(a: Cluster, b: Cluster)
    requires WellFormedClient(a.instance.client) && WellFormedClient(b.instance.client)
    requires ValidSegment(a.instance.client.project) && ValidSegment(a.instance.instanceId)
    requires ValidSegment(a.clusterId)
    requires ValidSegment(b.instance.client.project) && ValidSegment(b.instance.instanceId)
    requires ValidSegment(b.clusterId)
    ensures SameCluster(a, b) <==> Name(a) == Name(b)
  {
    ClusterPathInjective(a.instance.client.project, a.instance.instanceId, a.clusterId,
                         b.instance.client.project, b.instance.instanceId, b.clusterId);
  }

  /**
   * For records with valid ids whose clients carry their derived project
   * names, `!=` holds exactly when the derived resource names differ.
   */
  lemma NeIffDifferentName(a: Cluster, b: Cluster)
    requires WellFormedClient(a.instance.client) && WellFormedClient(b.instance.client)
    requires ValidSegment(a.instance.client.project) && ValidSegment(a.instance.instanceId)
    requires ValidSegment(a.clusterId)
    requires ValidSegment(b.instance.client.project) && ValidSegment(b.instance.instanceId)
    requires ValidSegment(b.clusterId)
    ensures Ne(a, ClusterValue(b)) <==> Name(a) != Name(b)
  {
    SameClusterIffSameName(a, b);
  }

  /**
   * Round trip: a message named with a record's derived name, read back under
   * that record's instance, yields a record with the same cluster id and
   * instance, equal to the original, carrying the message's details.
   */
  lemma FromPbOfName(c: Cluster, msg: ClusterMessage)
    requires ValidSegment(c.instance.client.project) && ValidSegment(c.instance.instanceId)
    requires ValidSegment(c.clusterId)
    requires msg.name == Name(c)
    ensures FromPb(msg, Some(c.instance)).Success?
    ensures FromPb(msg, Some(c.instance)).value
         == Cluster(c.clusterId, c.instance, Some(LastSegment(msg.location)), Some(msg.state),
                    Some(msg.serveNodes), Some(msg.defaultStorageType))
    ensures Eq(c, ClusterValue(FromPb(msg, Some(c.instance)).value))
  {
    ParseClusterPath(c.instance.client.project, c.instance.instanceId, c.clusterId);
  }

  /** A name without any '/' is refused as malformed, whatever the owner (even none). */
  lemma FromPbSlashFreeName(msg: ClusterMessage, owner: Option<Instance>)
    requires '/' !in msg.name
    ensures FromPb(msg, owner) == Failure(MalformedName)
  {
    SlashFreeNameRejected(msg.name);
  }

  /** A well-formed name whose instance segment is not the owner's id is refused. */
  lemma FromPbWrongInstance(project: string, instanceId: string, clusterId: string,
                            msg: ClusterMessage, owner: Instance)
    requires ValidSegment(project) && ValidSegment(instanceId) && ValidSegment(clusterId)
    requires msg.name == ClusterPath(project, instanceId, clusterId)
    requires owner.instanceId != instanceId
    ensures FromPb(msg, Some(owner)) == Failure(InstanceMismatch)
  {
    ParseClusterPath(project, instanceId, clusterId);
  }

  /** A well-formed name under the owner's id but another project is refused. */
  lemma FromPbWrongProject(project: string, instanceId: string, clusterId: string,
                           msg: ClusterMessage, owner: Instance)
    requires ValidSegment(project) && ValidSegment(instanceId) && ValidSegment(clusterId)
    requires msg.name == ClusterPath(project, instanceId, clusterId)
    requires owner.instanceId == instanceId && owner.client.project != project
    ensures FromPb(msg, Some(owner)) == Failure(ProjectMismatch)
  {
    ParseClusterPath(project, instanceId, clusterId);
  }

  /** A location path `projects/{P}/locations/{L}` gives the location id `L`. */
  lemma FromPbLocationId(msg: ClusterMessage, owner: Option<Instance>, project: string, locationId: string)
    requires msg.location == "projects/" + project + "/locations/" + locationId
    requires '/' !in locationId
    requires FromPb(msg, owner).Success?
    ensures FromPb(msg, owner).value.locationId == Some(locationId)
  {
    assert msg.location == ("projects/" + project + "/locations") + "/" + locationId;
    LastSegmentOfPath("projects/" + project + "/locations", locationId);
  }
}
