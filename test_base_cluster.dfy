/**
 * The cases of the cluster record's unit tests, stated as lemmas over the
 * model with the tests' own constants. Enum values the tests pick (READY,
 * RESIZING, SSD) are opaque here, so each lemma holds for every state and
 * storage type.
 */
module TestBaseCluster {
  import opened Wrappers
  import opened ResourceNames
  import opened BaseCluster

  const Project := "project"
  const InstanceId := "instance-id"
  const LocationId := "location-id"
  const ClusterId := "cluster-id"
  const ClusterName := "projects/" + Project + "/instances/" + InstanceId + "/clusters/" + ClusterId
  const LocationPath := "projects/" + Project + "/locations/"
  const ServeNodes := 5

  /** The owning instance most tests use. */
  function TestInstance(): Instance {
    Instance(InstanceId, MakeClient(Project))
  }

  /** Default construction keeps the id and instance and leaves every detail absent. */
  lemma ConstructorDefaults()
    ensures var c := Cluster(ClusterId, TestInstance());
      && c.clusterId == ClusterId && c.instance == TestInstance()
      && c.locationId == None && c.state == None
      && c.serveNodes == None && c.defaultStorageType == None
  {
  }

  /** Explicit arguments are stored verbatim. */
  lemma ConstructorNonDefault(st: State, storage: StorageType)
    ensures var c := Cluster(ClusterId, TestInstance(), locationId := Some(LocationId),
                             state := Some(st), serveNodes := Some(ServeNodes),
                             defaultStorageType := Some(storage));
      && c.clusterId == ClusterId && c.instance == TestInstance()
      && c.locationId == Some(LocationId) && c.state == Some(st)
      && c.serveNodes == Some(ServeNodes) && c.defaultStorageType == Some(storage)
  {
  }

  /** The derived name is the literal cluster name of the tests. */
  lemma NameProperty()
    ensures Name(Cluster(ClusterId, TestInstance())) == ClusterName
  {
  }

  /** A complete message under the matching instance is read back field by field. */
  lemma FromPbSuccess(st: State, storage: StorageType)
    ensures var msg := ClusterMessage(ClusterName, LocationPath + LocationId, st, ServeNodes, storage);
      FromPb(msg, Some(TestInstance()))
        == Success(Cluster(ClusterId, TestInstance(), Some(LocationId), Some(st),
                           Some(ServeNodes), Some(storage)))
  {
    var msg := ClusterMessage(ClusterName, LocationPath + LocationId, st, ServeNodes, storage);
    FromPbOfName(Cluster(ClusterId, TestInstance()), msg);
    assert LocationPath + LocationId == "projects/" + Project + "/locations/" + LocationId;
    FromPbLocationId(msg, Some(TestInstance()), Project, LocationId);
  }

  /** `BAD_NAME` is refused with no owning instance at all. */
  lemma FromPbBadClusterName()
    ensures FromPb(MessageWithName("BAD_NAME"), None) == Failure(MalformedName)
  {
    FromPbSlashFreeName(MessageWithName("BAD_NAME"), None);
  }

  /** The tests' name is refused under an instance with another id. */
  lemma FromPbInstanceIdMismatch()
    ensures FromPb(MessageWithName(ClusterName), Some(Instance("ALT_INSTANCE_ID", MakeClient(Project))))
         == Failure(InstanceMismatch)
  {
    FromPbWrongInstance(Project, InstanceId, ClusterId, MessageWithName(ClusterName),
                        Instance("ALT_INSTANCE_ID", MakeClient(Project)));
  }

  /** The tests' name is refused under a client of another project. */
  lemma FromPbProjectMismatch()
    ensures FromPb(MessageWithName(ClusterName), Some(Instance(InstanceId, MakeClient("ALT_PROJECT"))))
         == Failure(ProjectMismatch)
  {
    FromPbWrongProject(Project, InstanceId, ClusterId, MessageWithName(ClusterName),
                       Instance(InstanceId, MakeClient("ALT_PROJECT")));
  }

  /** Two records with the same id and instance are equal and not unequal. */
  lemma EqSameValue()
    ensures var c1 := Cluster(ClusterId, TestInstance(), Some(LocationId));
            var c2 := Cluster(ClusterId, TestInstance(), Some(LocationId));
      Eq(c1, ClusterValue(c2)) && !Ne(c1, ClusterValue(c2))
  {
  }

  /** A record is not equal to a value of another kind. */
  lemma EqTypeDiffer()
    ensures Ne(Cluster(ClusterId, TestInstance(), Some(LocationId)), OtherValue)
  {
  }

  /** Records with different ids under the same instance are unequal. */
  lemma NeDifferentIds()
    ensures Ne(Cluster("cluster_id1", TestInstance(), Some(LocationId)),
               ClusterValue(Cluster("cluster_id2", TestInstance(), Some(LocationId))))
  {
  }
}
