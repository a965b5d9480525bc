/** The znode paths gafka uses in ZooKeeper: global roots for clusters,
    kateway metrics and ElasticSearch, and, per Kafka cluster, the paths of
    Kafka's own layout under the cluster's chroot. */
module ZkPath {
  import opened Text
  import Decimal

  const ClusterRoot: string := "/_kafka_clusters"
  const ClusterInfoRoot: string := "/_kafa_clusters_info"
  const KatewayMetricsRoot: string := "/_kateway/metrics"
  const EsRoot: string := "/_es"

  /** Kafka's znodes, relative to a cluster's chroot. */
  const ConsumersZnode: string := "/consumers"
  const BrokerIdsZnode: string := "/brokers/ids"
  const BrokerTopicsZnode: string := "/brokers/topics"
  const ControllerZnode: string := "/controller"
  const ControllerEpochZnode: string := "/controller_epoch"
  const TopicConfigZnode: string := "/config/topics"

  /** Go's `int32` and (64-bit) `int`. */
  type Int32 = x: int | -0x8000_0000 <= x < 0x8000_0000
  type Int64 = x: int | -0x8000_0000_0000_0000 <= x < 0x8000_0000_0000_0000

  /** Where kateway instance `id` publishes metric `key`. */
  function KatewayMetricsRootByKey(id: string, key: string): (r: string)
    ensures KatewayMetricsRoot + "/" <= r
  {
    KatewayMetricsRoot + "/" + id + "/" + key
  }

  /** The registry znode of ElasticSearch cluster `cluster`. */
  function EsClusterPath(cluster: string): (r: string)
    ensures EsRoot + "/" <= r && r[|EsRoot| + 1..] == cluster
  {
    EsRoot + "/" + cluster
  }

  /** The registry znode of Kafka cluster `cluster`. */
  function ClusterPath(cluster: string): (r: string)
    ensures ClusterRoot + "/" <= r && r[|ClusterRoot| + 1..] == cluster
  {
    ClusterRoot + "/" + cluster
  }

  /** A Kafka cluster as gafka knows it: its name and its ZooKeeper chroot. */
  datatype ZkCluster = ZkCluster(name: string, path: string) {

    function ControllerPath(): (r: string)
      ensures path <= r
    {
      path + ControllerZnode
    }

    function ControllerEpochPath(): (r: string)
      ensures path <= r
    {
      path + ControllerEpochZnode
    }

    function TopicConfigRoot(): (r: string)
      ensures path <= r
    {
      path + TopicConfigZnode
    }

    /** Written out on its own in the source; it is the topic's child of
        TopicConfigRoot. */
    function GetTopicConfigPath(topic: string): (r: string)
      ensures r == TopicConfigRoot() + "/" + topic
    {
      path + TopicConfigZnode + "/" + topic
    }

    /** Keyed by the cluster's name, not its chroot. */
    function ClusterInfoPath(): (r: string)
      ensures ClusterInfoRoot + "/" <= r && r[|ClusterInfoRoot| + 1..] == name
    {
      ClusterInfoRoot + "/" + name
    }

    function TopicsRoot(): (r: string)
      ensures path <= r
    {
      path + BrokerTopicsZnode
    }

    /** Written out on its own in the source; it lies under TopicsRoot. */
    function PartitionsPath(topic: string): (r: string)
      ensures r == TopicsRoot() + "/" + topic + "/partitions"
    {
      path + BrokerTopicsZnode + "/" + topic + "/partitions"
    }

    function PartitionStatePath(topic: string, partitionId: Int32): (r: string)
      ensures PartitionsPath(topic) + "/" <= r
      ensures |r| >= |PartitionsPath(topic)| + 8 && r[|r| - 6..] == "/state"
      ensures r[|PartitionsPath(topic)| + 1..|r| - 6] == Decimal.FormatInt(partitionId)
    {
      PartitionsPath(topic) + "/" + Decimal.FormatInt(partitionId) + "/state"
    }

    function BrokerIdsRoot(): (r: string)
      ensures path <= r
    {
      path + BrokerIdsZnode
    }

    function BrokerPath(id: Int64): (r: string)
      ensures BrokerIdsRoot() + "/" <= r
      ensures r[|BrokerIdsRoot()| + 1..] == Decimal.FormatInt(id)
      ensures '/' !in r[|BrokerIdsRoot()| + 1..]
    {
      BrokerIdsRoot() + "/" + Decimal.FormatInt(id)
    }

    function ConsumerGroupsRoot(): (r: string)
      ensures path <= r
    {
      path + ConsumersZnode
    }

    /** Written out on its own in the source; it is the group's child of
        ConsumerGroupsRoot. */
    function ConsumerGroupRoot(group: string): (r: string)
      ensures r == ConsumerGroupsRoot() + "/" + group
    {
      path + ConsumersZnode + "/" + group
    }

    function ConsumerGroupIdsPath(group: string): (r: string)
      ensures ConsumerGroupRoot(group) <= r
    {
      ConsumerGroupRoot(group) + "/ids"
    }

    function ConsumerGroupOffsetPath(group: string): (r: string)
      ensures ConsumerGroupRoot(group) <= r
    {
      ConsumerGroupRoot(group) + "/offsets"
    }

    function ConsumerGroupOffsetOfTopicPath(group: string, topic: string): (r: string)
      ensures ConsumerGroupOffsetPath(group) + "/" <= r
      ensures r[|ConsumerGroupOffsetPath(group)| + 1..] == topic
    {
      ConsumerGroupOffsetPath(group) + "/" + topic
    }

    function ConsumerGroupOffsetOfTopicPartitionPath(group: string, topic: string, partition: string): (r: string)
      ensures r == ConsumerGroupOffsetPath(group) + "/" + topic + "/" + partition
    {
      ConsumerGroupOffsetOfTopicPath(group, topic) + "/" + partition
    }

    function ConsumerGroupOwnerOfTopicPath(group: string, topic: string): (r: string)
      ensures ConsumerGroupRoot(group) <= r
      ensures r[|ConsumerGroupRoot(group)|..] == "/owners/" + topic
    {
      ConsumerGroupRoot(group) + "/owners/" + topic
    }
  }

  // ---------------------------------------------------------------------
  // Properties of the layout

  /** Distinct clusters have distinct registry znodes. */
  lemma ClusterPathInjective(c1: string, c2: string)
    requires ClusterPath(c1) == ClusterPath(c2)
    ensures c1 == c2
  {
  }

  /** Cluster info is found by name: two clusters with the same name share it
      whatever their chroots, and it never collides with a registry znode
      (the info root is spelled "_kafa_", the registry root "_kafka_"). */
  lemma ClusterInfoPathByName(z1: ZkCluster, z2: ZkCluster, cluster: string)
    ensures z1.name == z2.name ==> z1.ClusterInfoPath() == z2.ClusterInfoPath()
    ensures z1.ClusterInfoPath() != ClusterPath(cluster)
  {
    assert z1.ClusterInfoPath()[5] == 'a';
    assert ClusterPath(cluster)[5] == 'k';
  }

  /** The controller znode and its epoch znode are different nodes. */
  lemma ControllerPathsDistinct(z: ZkCluster)
    ensures z.ControllerPath() != z.ControllerEpochPath()
  {
    assert |z.ControllerPath()| != |z.ControllerEpochPath()|;
  }

  /** Two children of the same znode whose relative paths differ at a
      position both have are distinct, and neither lies under the other. */
  lemma SiblingsSeparate(p: string, a: string, b: string, i: nat)
    requires i < |a| && i < |b| && a[i] != b[i]
    ensures p + a != p + b
    ensures !(p + a + "/" <= p + b) && !(p + b + "/" <= p + a)
  {
    assert (p + a)[|p| + i] == a[i];
    assert (p + b)[|p| + i] == b[i];
    assert (p + a + "/")[|p| + i] == a[i];
    assert (p + b + "/")[|p| + i] == b[i];
  }

  /** The four per-cluster roots ("/config/topics", "/brokers/topics",
      "/brokers/ids", "/consumers") are pairwise distinct, and none lies under
      another. */
  lemma ClusterRootsSeparate(z: ZkCluster)
    ensures var roots := [z.TopicConfigRoot(), z.TopicsRoot(), z.BrokerIdsRoot(), z.ConsumerGroupsRoot()];
            forall m, n :: 0 <= m < 4 && 0 <= n < 4 && m != n ==>
              roots[m] != roots[n] && !(roots[m] + "/" <= roots[n])
  {
    var p := z.path;
    SiblingsSeparate(p, TopicConfigZnode, BrokerTopicsZnode, 1);
    SiblingsSeparate(p, TopicConfigZnode, BrokerIdsZnode, 1);
    SiblingsSeparate(p, TopicConfigZnode, ConsumersZnode, 4);
    SiblingsSeparate(p, BrokerTopicsZnode, BrokerIdsZnode, 9);
    SiblingsSeparate(p, BrokerTopicsZnode, ConsumersZnode, 1);
    SiblingsSeparate(p, BrokerIdsZnode, ConsumersZnode, 1);
  }

  /** A group's ids znode, its offsets znode and its owner znode of any topic
      are pairwise distinct, and none lies under another. */
  lemma ConsumerGroupNodesSeparate(z: ZkCluster, group: string, topic: string)
    ensures var nodes := [z.ConsumerGroupIdsPath(group), z.ConsumerGroupOffsetPath(group),
                          z.ConsumerGroupOwnerOfTopicPath(group, topic)];
            forall m, n :: 0 <= m < 3 && 0 <= n < 3 && m != n ==>
              nodes[m] != nodes[n] && !(nodes[m] + "/" <= nodes[n])
  {
    var root := z.ConsumerGroupRoot(group);
    var owners := "/owners/" + topic;
    assert z.ConsumerGroupOwnerOfTopicPath(group, topic) == root + owners;
    SiblingsSeparate(root, "/ids", "/offsets", 1);
    SiblingsSeparate(root, "/ids", owners, 1);
    SiblingsSeparate(root, "/offsets", owners, 2);
  }

  /** Distinct broker ids have distinct znodes. */
  lemma BrokerPathInjective(z: ZkCluster, id1: Int64, id2: Int64)
    requires id1 != id2
    ensures z.BrokerPath(id1) != z.BrokerPath(id2)
  {
    if z.BrokerPath(id1) == z.BrokerPath(id2) {
      Decimal.FormatIntInjective(id1, id2);
    }
  }

  /** The state znodes of distinct partitions of a topic are distinct. */
  lemma PartitionStatePathInjective(z: ZkCluster, topic: string, p1: Int32, p2: Int32)
    requires p1 != p2
    ensures z.PartitionStatePath(topic, p1) != z.PartitionStatePath(topic, p2)
  {
    if z.PartitionStatePath(topic, p1) == z.PartitionStatePath(topic, p2) {
      Decimal.FormatIntInjective(p1, p2);
    }
  }

  /** Consumer groups whose names hold no '/' never share a znode subtree. */
  lemma ConsumerGroupRootsSeparate(z: ZkCluster, g1: string, g2: string, rest1: string, rest2: string)
    requires '/' !in g1 && '/' !in g2
    requires z.ConsumerGroupRoot(g1) + "/" + rest1 == z.ConsumerGroupRoot(g2) + "/" + rest2
    ensures g1 == g2
  {
    var pre := z.ConsumerGroupsRoot() + "/";
    var r := z.ConsumerGroupRoot(g1) + "/" + rest1;
    assert r[|pre|..] == g1 + "/" + rest1;
    assert r[|pre|..] == g2 + "/" + rest2;
    JoinInjective(g1, rest1, g2, rest2, '/');
  }

  /** The offsets znode of a topic determines both the group (when group
      names hold no '/') and the topic. */
  lemma ConsumerGroupOffsetOfTopicInjective(z: ZkCluster, g1: string, g2: string, t1: string, t2: string)
    requires '/' !in g1 && '/' !in g2
    requires z.ConsumerGroupOffsetOfTopicPath(g1, t1) == z.ConsumerGroupOffsetOfTopicPath(g2, t2)
    ensures g1 == g2 && t1 == t2
  {
    assert z.ConsumerGroupOffsetOfTopicPath(g1, t1) == z.ConsumerGroupRoot(g1) + "/" + ("offsets/" + t1);
    assert z.ConsumerGroupOffsetOfTopicPath(g2, t2) == z.ConsumerGroupRoot(g2) + "/" + ("offsets/" + t2);
    ConsumerGroupRootsSeparate(z, g1, g2, "offsets/" + t1, "offsets/" + t2);
  }

  /** Distinct kateway instances (ids without '/') never share a metrics key. */
  lemma KatewayMetricsSeparateInstances(id1: string, id2: string, key1: string, key2: string)
    requires '/' !in id1 && '/' !in id2
    requires KatewayMetricsRootByKey(id1, key1) == KatewayMetricsRootByKey(id2, key2)
    ensures id1 == id2 && key1 == key2
  {
    var n := |KatewayMetricsRoot| + 1;
    var r := KatewayMetricsRootByKey(id1, key1);
    assert r[n..] == id1 + "/" + key1;
    assert r[n..] == id2 + "/" + key2;
    JoinInjective(id1, key1, id2, key2, '/');
  }
}
