# Bigtable cluster record: resource names, `from_pb` and identity equality

This project models the cluster record of the Bigtable admin client
(`BaseCluster`), as its unit tests in `tests/unit/test_base_cluster.py` fix its
behaviour:

- a record holds a `cluster_id`, its owning instance, and four optional
  details: `location_id`, `state`, `serve_nodes` and `default_storage_type`;
- its resource name is derived, never stored:
  `projects/{project}/instances/{instance_id}/clusters/{cluster_id}`;
- `from_pb` builds a record from a wire-format cluster message and an owning
  instance. It rejects a name not of the form
  `projects/*/instances/*/clusters/*`, then a name whose instance segment is
  not the owner's id, then one whose project segment is not the owner's
  client's project. On success it copies the message's state, node count and
  storage type. It takes `location_id` as the last `/`-segment of the
  message's `location`;
- equality is identity: the same `cluster_id` under an equal instance. An
  instance is equal when it has the same `instance_id` and an equal client. A
  client is equal when it has the same `project` and `project_name`. Comparing
  with a value that is not a cluster record gives "not equal", and `!=` is the
  negation of `==`.

Files:

- `wrappers.dfy` (module `Wrappers`): `Option` and `Result`.
- `resource_names.dfy` (module `ResourceNames`): `Split` and `Join` on `/`,
  which behave as Python's `str.split("/")` and `"/".join`. It also holds
  `LastSegment`, the cluster path and its parser `ParseClusterName`.
- `base_cluster.dfy` (module `BaseCluster`): the client, instance, record and
  message datatypes, `Name`, `FromPb`, and the equality predicates
  `SameCluster`, `Eq` and `Ne`.
- `test_base_cluster.dfy` (module `TestBaseCluster`): the tests' cases,
  stated as lemmas over the tests' own constants.

The implementation module of `BaseCluster` is not part of this model. It is
modelled from what the tests assert. Where the tests' own helper code decides a
detail, the model follows that code:

- Client equality compares `project_name` as well as `project`, as the test
  client's `__eq__` does (lines 241-242). `ClientEqIffSameProject` shows that,
  for clients whose `project_name` is derived as `projects/{project}`, this is
  the same as comparing projects.
- The test passes no instance at all (`None`) with `BAD_NAME`. So `FromPb`
  takes an optional owner. A malformed name fails before the owner is looked
  at. A well-formed name with no owner fails with `MissingInstance`, which
  stands for the attribute lookup that would fail on `None`.
- A message field that is not set holds its wire default (`""` or 0), as in
  `MessageWithName`.

## Model

| member | source | states |
|---|---|---|
| `ResourceNames.Split` | tests/unit/test_base_cluster.py:136-152 | splitting on `/` gives at least one part, no part holds a `/`, and joining the parts with `/` rebuilds the input |
| `ResourceNames.SplitNoSlash` | tests/unit/test_base_cluster.py:157-166 | a string without `/` splits into itself alone |
| `ResourceNames.SplitPrefix` | tests/unit/test_base_cluster.py:29-31 | a slash-free first segment followed by `/` splits off as exactly the first part |
| `ResourceNames.SplitJoin` | tests/unit/test_base_cluster.py:29-31 | splitting undoes joining for any non-empty list of slash-free parts |
| `ResourceNames.JoinEndsWithLast` | tests/unit/test_base_cluster.py:136-152 | the last part of a join is a suffix of the joined string and is preceded by `/` when there are several parts |
| `ResourceNames.LastSegment` | tests/unit/test_base_cluster.py:136-152 | the last segment of a location is its longest slash-free suffix: all of it when it has no `/`, otherwise the text right after the final `/` |
| `ResourceNames.LastSegmentOfPath` | tests/unit/test_base_cluster.py:136-152 | the last segment of `prefix/leaf` is `leaf` for any slash-free `leaf`, so `projects/P/locations/L` gives `L` |
| `ResourceNames.PathIsJoin` | tests/unit/test_base_cluster.py:29-31 | the cluster name is the `/`-join of `projects`, P, `instances`, I, `clusters`, C |
| `ResourceNames.ParseClusterName` | tests/unit/test_base_cluster.py:129-166 | a name the grammar accepts yields three non-empty slash-free ids that rebuild exactly that name |
| `ResourceNames.ParseClusterPath` | tests/unit/test_base_cluster.py:129-155 | every name built from valid ids is accepted and yields exactly those ids (round trip) |
| `ResourceNames.ClusterPathInjective` | tests/unit/test_base_cluster.py:29-31 | names built from valid ids are equal if and only if all three ids are equal |
| `ResourceNames.SlashFreeNameRejected` | tests/unit/test_base_cluster.py:157-166 | a name without `/`, such as `BAD_NAME`, is never accepted |
| `BaseCluster.FromPb` | tests/unit/test_base_cluster.py:129-194 | fails as malformed exactly when the name does not parse, whatever the owner. A well-formed name with no owner fails as `MissingInstance`. It fails on the instance exactly when the name parses but its instance segment differs from the owner's id. It fails on the project exactly when the ids agree but the project segment differs. It succeeds exactly when the parsed project and instance ids match the owner's. On success the record has the owner as its instance and the message's name as its derived name, with location, state, nodes and storage type taken from the message |
| `BaseCluster.FromPbOfName` | tests/unit/test_base_cluster.py:129-155 | reading back a message named with a record's derived name, under that record's instance, succeeds with the same cluster id and instance, and the result is equal to the original |
| `BaseCluster.FromPbSlashFreeName` | tests/unit/test_base_cluster.py:157-166 | a slash-free name fails as malformed for every owner, including no owner |
| `BaseCluster.FromPbWrongInstance` | tests/unit/test_base_cluster.py:168-180 | a well-formed name whose instance segment is not the owner's id fails with `InstanceMismatch` |
| `BaseCluster.FromPbWrongProject` | tests/unit/test_base_cluster.py:182-194 | a well-formed name with the owner's instance id but another project fails with `ProjectMismatch` |
| `BaseCluster.FromPbLocationId` | tests/unit/test_base_cluster.py:136-152 | a location `projects/P/locations/L` gives the parsed record the location id `L` |
| `BaseCluster.ClientEqIffSameProject` | tests/unit/test_base_cluster.py:235-242 | two clients built from project ids are equal if and only if the project ids are equal |
| `BaseCluster.SameClusterIsEquivalence` | tests/unit/test_base_cluster.py:196-201 | identity equality is reflexive, symmetric and transitive |
| `BaseCluster.EqIgnoresDetails` | tests/unit/test_base_cluster.py:196-201 | changing location, state, node count or storage type leaves a record equal to itself |
| `BaseCluster.NeIrreflexiveSymmetric` | tests/unit/test_base_cluster.py:210-223 | `!=` never holds between a record and itself, and `a != b` holds exactly when `b != a` |
| `BaseCluster.NeIffDifferentName` | tests/unit/test_base_cluster.py:210-223 | for records with valid ids and well-formed clients, `!=` holds if and only if the derived names differ |
| `BaseCluster.DifferentIdsUnequal` | tests/unit/test_base_cluster.py:218-223 | records with different cluster ids are unequal whatever their instances |
| `BaseCluster.SameClusterIffSameName` | tests/unit/test_base_cluster.py:226-242 | for records with valid ids and well-formed clients, identity equality holds if and only if the derived names are equal |
| `TestBaseCluster.ConstructorDefaults` | tests/unit/test_base_cluster.py:83-93 | default construction keeps the id and instance and leaves the four details absent |
| `TestBaseCluster.ConstructorNonDefault` | tests/unit/test_base_cluster.py:95-117 | explicit location, state, node count and storage type are stored verbatim |
| `TestBaseCluster.NameProperty` | tests/unit/test_base_cluster.py:119-127 | the derived name of the test record is the tests' literal cluster name |
| `TestBaseCluster.FromPbSuccess` | tests/unit/test_base_cluster.py:129-155 | the tests' full message under the matching instance yields `cluster-id`, `location-id`, and the message's state, 5 nodes and storage type |
| `TestBaseCluster.FromPbBadClusterName` | tests/unit/test_base_cluster.py:157-166 | `BAD_NAME` with no instance fails as malformed |
| `TestBaseCluster.FromPbInstanceIdMismatch` | tests/unit/test_base_cluster.py:168-180 | the tests' name under instance `ALT_INSTANCE_ID` fails with `InstanceMismatch` |
| `TestBaseCluster.FromPbProjectMismatch` | tests/unit/test_base_cluster.py:182-194 | the tests' name under project `ALT_PROJECT` fails with `ProjectMismatch` |
| `TestBaseCluster.EqSameValue` | tests/unit/test_base_cluster.py:196-216 | two records with the same id and instance are equal and not unequal |
| `TestBaseCluster.EqTypeDiffer` | tests/unit/test_base_cluster.py:203-208 | a record compared with a non-record value is unequal |
| `TestBaseCluster.NeDifferentIds` | tests/unit/test_base_cluster.py:218-223 | `cluster_id1` and `cluster_id2` under the same instance are unequal |

## Left out

- The gRPC stubs `MultiCallableStub` and `ChannelStub` (lines 40-61): test transport plumbing that no modelled behaviour uses.
- Construction of the library's real `Client` with credentials and admin access (lines 80-81, 120-123): the client is modelled as a project id plus its derived project name (line 238). Credentials and the operations stub are not modelled.
- `OP_ID` and `OP_NAME` (lines 34-37): defined but never asserted.
- The numeric values of the state and storage-type enums: they are opaque codes copied verbatim, and the test lemmas hold for every value.
- Object identity (`assertIs`, line 89) and run-time type checks (`assertIsInstance`, line 149): values have no identity here, so the record holds its instance as a value.
- ResourceNames.ParseClusterName: accepts any non-empty slash-free cluster segment. The tests pin only the well-formed example and `BAD_NAME`, so any narrower character set the implementation may impose on cluster ids is not modelled.
- The three `from_pb` refusals are all the same value error in the source. The model keeps them apart as `MalformedName`, `InstanceMismatch` and `ProjectMismatch`.
