# gafka kateway naming, authorization and ZooKeeper paths, in Dafny

This project models two pieces of gafka, a Kafka-based pub/sub gateway.

The first is the topic-namespace and authorization logic of kateway's
`mysqlStore`. It covers how an application's (appid, topic, version)
triple becomes a physical Kafka topic name and how the appid is recovered
from one. It covers how shadow-queue names are built and which topic and
consumer-group names are valid. It covers how publish (`OwnTopic`) and
subscribe (`AuthSub`) requests are decided against the tenant metadata,
plus cluster and schema lookups and the set of dry-run topics.

The second is gafka's ZooKeeper layout (`zk/path.go`): the znode paths of
cluster registries, kateway metrics, ElasticSearch clusters and, per Kafka
cluster, Kafka's own znodes under the cluster's chroot.

Files:

- `utf8.dfy` (module `Utf8`): Go strings are byte strings. `Encode` gives
  the UTF-8 bytes of a Dafny string, so that `len(ver)` and `[]byte(appid + topic)`
  can be stated for strings that are valid UTF-8.
- `adler32.dfy` (module `Adler32`): the Adler-32 checksum of section 2.2 of
  RFC 1950, which Go's `hash/adler32` implements. It is written as a fold
  over bytes and proved equal to the RFC's closed form.
- `decimal.dfy` (module `Decimal`): `strconv.Itoa` and `%d` as `Decimal` and
  `FormatInt`. They are proved to round-trip with a digit reader and to be injective.
- `text.dfy` (module `Text`): `strings.IndexByte`, and splitting and joining at a separator.
- `namespace.dfy` (module `Namespace`): `TopicAppid`, `KafkaTopic`,
  `ShadowTopic`, `ValidateTopicName` and `ValidateGroupName`.
- `mysql_store.dfy` (module `MysqlManager`): the class `MysqlStore`. Its
  fields are the store's maps, the dry-run set and the
  `allowUnregisteredGroup` flag. `OwnTopic`, `AuthSub`, `LookupCluster`,
  `TopicSchema` and `IsDryrunTopic` are functions that read the store.
  `MarkTopicDryrun`, `ClearDryrunTopics` and `AllowSubWithUnregisteredGroup`
  are methods that update it.
- `zk_path.dfy` (module `ZkPath`): the datatype `ZkCluster(name, path)` and
  every path function of `zk/path.go`.

Behaviour kept as the code has it:

- `AuthSub` looks up a subscription grant by (subscriber appid, topic)
  only. The owner appid plays no part (`AuthSubIgnoresForeignOwner`).
- `OwnTopic` refuses an empty publish key as `ErrEmptyIdentity`, before
  any secret is compared. `AuthSub` does not check the subscribe key for
  emptiness, so an app whose stored secret is "" authenticates with "".
- `AuthSub` admits the group `__smoketest__` without any header check.
  Only `ValidateGroupName` asks for the header `X-Origin: smoketest`.
- `AuthSub` runs the group check before the "own topic" shortcut. The
  shortcut succeeds whatever the state of the topic, including a topic
  whose publishing `OwnTopic` refuses as disabled (`AuthSubOwnDisabledTopic`).
- The obfuscation cookie is Adler-32 modulo 1000, not just any hash. The
  cookie is added when the version is longer than two bytes.
- `ClusterInfoPath` uses the cluster's name and the root
  `/_kafa_clusters_info`, spelled as in the code.

## Model

| member | source | states |
|---|---|---|
| `Namespace.TopicAppid` | cmd/kateway/manager/mysql/api.go:26-32 | the result is the longest dot-free prefix of the name and is followed by '.', or is "" when the name has no '.' |
| `Namespace.TopicAppidIsFirstSegment` | cmd/kateway/manager/mysql/api.go:26-32 | for a dotted name, the recovered appid is the first '.'-separated segment |
| `Namespace.TopicAppidOfKafkaTopic` | cmd/kateway/manager/mysql/api.go:26-54 | for a dot-free appid, `TopicAppid` recovers the appid from its physical topic name, for every topic and version |
| `Namespace.TopicAppidOfShadowTopic` | cmd/kateway/manager/mysql/api.go:74-77 | for a dot-free owner, `TopicAppid` of a shadow-queue name is the owner's appid |
| `Namespace.KafkaTopic` | cmd/kateway/manager/mysql/api.go:34-54 | building the name piece by piece in a buffer yields exactly the physical topic name `KafkaTopicName` |
| `Namespace.KafkaTopicShortVersion` | cmd/kateway/manager/mysql/api.go:34-42 | for versions of at most two bytes, the name is "appid.topic.ver" with no fourth segment |
| `Namespace.KafkaTopicLongVersion` | cmd/kateway/manager/mysql/api.go:42-50 | for longer versions, the name is "appid.topic.ver." followed by a canonical decimal of one to three digits (no padding), whose value is Adler-32(appid+topic) mod 1000 |
| `Namespace.Cookie` | cmd/kateway/manager/mysql/api.go:48-49 | the cookie is in [0, 999] |
| `Namespace.CookieOfConcatenation` | cmd/kateway/manager/mysql/api.go:48 | the cookie depends on appid and topic only through their concatenation |
| `Namespace.CookieOfBytes` | cmd/kateway/manager/mysql/api.go:48 | the checksummed bytes of `appid + topic` are the bytes of appid followed by the bytes of topic |
| `Namespace.KafkaTopicSegments` | cmd/kateway/manager/mysql/api.go:34-50 | with dot-free parts, splitting the name at '.' gives exactly [appid, topic, ver] or [appid, topic, ver, decimal cookie] |
| `Namespace.ShadowTopic` | cmd/kateway/manager/mysql/api.go:74-77 | a shadow name is the owner's physical topic name, a '.', then "my.group.shadow" |
| `Namespace.ShadowTopicSeparatesSubscribers` | cmd/kateway/manager/mysql/api.go:74-77 | two dot-free subscribers never share a shadow-queue name for the same owner topic |
| `Namespace.FindNameRun` | cmd/kateway/manager/mysql/api.go:23-99 | the leftmost match of `[a-zA-Z0-9\-_]+`: "" exactly when the input has no name character; otherwise a run of name characters that occurs in the input with no name character before it and none right after it; the whole input when every character is a name character |
| `Namespace.ValidateTopicName` | cmd/kateway/manager/mysql/api.go:98-100 | valid iff the name has 1 to 64 characters and all are in [A-Za-z0-9-_] |
| `Namespace.ValidateGroupName` | cmd/kateway/manager/mysql/api.go:102-118 | the character loop with early return accepts iff the group is non-empty, all characters are in the name class, and `__smoketest__` comes with X-Origin "smoketest" |
| `Namespace.SmoketestGroupNeedsOrigin` | cmd/kateway/manager/mysql/api.go:113-115 | `__smoketest__` is accepted exactly when X-Origin is "smoketest" |
| `Namespace.GroupAndTopicNamesAgree` | cmd/kateway/manager/mysql/api.go:98-118 | for names of at most 64 characters other than `__smoketest__`, group and topic validation agree |
| `MysqlManager.MysqlStore.OwnTopic` | cmd/kateway/manager/mysql/api.go:128-148 | each outcome, as an iff: ErrEmptyIdentity when appid, pubkey or topic is empty; then ErrAuthenticationFail on unknown appid or wrong key; then success, ErrDisabledTopic or ErrAuthorizationFail as (appid, topic) is enabled, disabled or absent |
| `MysqlManager.OwnTopicNeedsPubkey` | cmd/kateway/manager/mysql/api.go:128-131 | an empty publish key always yields ErrEmptyIdentity |
| `MysqlManager.MysqlStore.AllowSubWithUnregisteredGroup` | cmd/kateway/manager/mysql/api.go:150-152 | sets the flag and nothing else |
| `MysqlManager.MysqlStore.AuthSub` | cmd/kateway/manager/mysql/api.go:154-187 | each outcome, as an iff: ErrEmptyIdentity when appid or hisTopic is empty; then ErrAuthenticationFail against the subscriber's own secret; then ErrInvalidGroup for an unregistered group (unless allowed, empty or `__smoketest__`); then success when subscribing to one's own topic or holding the (appid, hisTopic) grant, else ErrAuthorizationFail |
| `MysqlManager.AuthSubOwnDisabledTopic` | cmd/kateway/manager/mysql/api.go:176-179 | a topic whose publishing is refused as disabled can still be subscribed to by its owner |
| `MysqlManager.OwnTopicImpliesAuthSub` | cmd/kateway/manager/mysql/api.go:128-187 | a key that may publish to a topic may also subscribe to it, in any admitted group |
| `MysqlManager.AuthSubIgnoresForeignOwner` | cmd/kateway/manager/mysql/api.go:181-183 | when the owner is another app, the owner's id does not change the decision |
| `MysqlManager.AuthSubSmoketestLikeNoGroup` | cmd/kateway/manager/mysql/api.go:165-174 | subscribing in `__smoketest__` is decided as with no group |
| `MysqlManager.AuthSubPermissiveGroup` | cmd/kateway/manager/mysql/api.go:150-174 | with unregistered groups allowed, the group never changes the decision |
| `MysqlManager.MysqlStore.LookupCluster` | cmd/kateway/manager/mysql/api.go:189-195 | found iff the appid has a cluster; the cluster when found, "" otherwise |
| `MysqlManager.MysqlStore.TopicSchema` | cmd/kateway/manager/mysql/api.go:65-72 | the registered schema of (appid, topic, ver), or ErrSchemaNotFound exactly when there is none |
| `MysqlManager.MysqlStore.IsDryrunTopic` | cmd/kateway/manager/mysql/api.go:205-211 | true exactly when (appid, topic, ver) is in the dry-run set; reads the store and changes nothing |
| `MysqlManager.MysqlStore.MarkTopicDryrun` | cmd/kateway/manager/mysql/api.go:205-217 | the key is added to the dry-run set: `IsDryrunTopic` then holds for it and is unchanged for every other key |
| `MysqlManager.MysqlStore.ClearDryrunTopics` | cmd/kateway/manager/mysql/api.go:219-223 | the dry-run set is replaced by an empty one: `IsDryrunTopic` is false for every key |
| `Adler32.Checksum` | cmd/kateway/manager/mysql/api.go:48 | the checksum fits in 32 bits |
| `Adler32.ChecksumClosedForm` | cmd/kateway/manager/mysql/api.go:48 | the byte-by-byte fold equals the closed form of section 2.2 of RFC 1950: s1 = 1 + sum of bytes, s2 = sum of all the s1 values, both mod 65521, result s2 * 65536 + s1 |
| `Decimal.Decimal` | cmd/kateway/manager/mysql/api.go:49 | `strconv.Itoa` of a natural number is non-empty, all digits, with no leading zero |
| `Decimal.DecimalRoundTrip` | cmd/kateway/manager/mysql/api.go:49 | reading the digits back gives the number |
| `Decimal.CanonicalRoundTrip` | cmd/kateway/manager/mysql/api.go:49 | every canonical digit string is the rendering of its value |
| `Decimal.DecimalLength` | cmd/kateway/manager/mysql/api.go:49 | a rendering has at most k digits iff the number is below 10^k |
| `Decimal.FormatInt` | zk/path.go:98-100 | `%d` output is non-empty, starts with '-' exactly for negatives, holds no '/' or '.', and after the sign is a canonical decimal whose value read back is the magnitude of the number |
| `Decimal.FormatIntInjective` | zk/path.go:86-88 | distinct integers format differently |
| `Text.IndexOf` | cmd/kateway/manager/mysql/api.go:27 | -1 iff the character is absent, otherwise the position of its first occurrence |
| `ZkPath.ClusterPath` | zk/path.go:58-60 | the cluster's registry znode is a child of "/_kafka_clusters" named by the cluster |
| `ZkPath.ClusterPathInjective` | zk/path.go:58-60 | distinct clusters have distinct registry znodes |
| `ZkPath.EsClusterPath` | zk/path.go:54-56 | an ElasticSearch cluster's znode is a child of "/_es" named by the cluster |
| `ZkPath.KatewayMetricsRootByKey` | zk/path.go:50-52 | a metrics znode lies under "/_kateway/metrics/" |
| `ZkPath.KatewayMetricsSeparateInstances` | zk/path.go:50-52 | kateway ids without '/' never share a metrics znode, and each (id, key) has its own |
| `ZkPath.ZkCluster.ClusterInfoPath` | zk/path.go:74-76 | the info znode is a child of "/_kafa_clusters_info" named by the cluster's name |
| `ZkPath.ClusterInfoPathByName` | zk/path.go:58-76 | the info znode depends on the name only, never on the chroot, and never equals a cluster registry znode |
| `ZkPath.ZkCluster.ControllerPath` | zk/path.go:62-64 | the controller znode lies under the cluster's chroot |
| `ZkPath.ZkCluster.ControllerEpochPath` | zk/path.go:78-80 | the controller-epoch znode lies under the cluster's chroot |
| `ZkPath.ControllerPathsDistinct` | zk/path.go:62-80 | the controller and controller-epoch znodes are different |
| `ZkPath.ZkCluster.TopicConfigRoot` | zk/path.go:66-68 | the topic-config root lies under the chroot |
| `ZkPath.ZkCluster.GetTopicConfigPath` | zk/path.go:66-72 | a topic's config znode is the topic's child of `TopicConfigRoot` |
| `ZkPath.ZkCluster.TopicsRoot` | zk/path.go:90-92 | the topics root lies under the chroot |
| `ZkPath.ZkCluster.PartitionsPath` | zk/path.go:82-92 | a topic's partitions znode is `TopicsRoot` + "/" + topic + "/partitions" |
| `ZkPath.ZkCluster.PartitionStatePath` | zk/path.go:86-88 | a partition's state znode is the topic's partitions znode, "/", the `%d` rendering of the partition id, then "/state" |
| `ZkPath.PartitionStatePathInjective` | zk/path.go:86-88 | distinct partition ids of a topic have distinct state znodes |
| `ZkPath.ZkCluster.BrokerIdsRoot` | zk/path.go:94-96 | the broker-ids root lies under the chroot |
| `ZkPath.ZkCluster.BrokerPath` | zk/path.go:98-100 | a broker's znode is `BrokerIdsRoot` + "/" followed by the `%d` rendering of the id, which holds no '/', so the znode is a direct child |
| `ZkPath.BrokerPathInjective` | zk/path.go:98-100 | distinct broker ids have distinct znodes |
| `ZkPath.ZkCluster.ConsumerGroupsRoot` | zk/path.go:102-104 | the consumers root lies under the chroot |
| `ZkPath.ZkCluster.ConsumerGroupRoot` | zk/path.go:106-108 | a group's root is the group's child of `ConsumerGroupsRoot` |
| `ZkPath.ZkCluster.ConsumerGroupIdsPath` | zk/path.go:110-112 | the group's ids znode lies under the group's root |
| `ZkPath.ZkCluster.ConsumerGroupOffsetPath` | zk/path.go:114-116 | the group's offsets znode lies under the group's root |
| `ZkPath.ZkCluster.ConsumerGroupOffsetOfTopicPath` | zk/path.go:118-120 | a topic's offsets znode is the group's offsets znode + "/" + topic (a direct child when the topic holds no '/') |
| `ZkPath.ZkCluster.ConsumerGroupOffsetOfTopicPartitionPath` | zk/path.go:114-124 | a partition's offset znode is `ConsumerGroupOffsetPath` + "/" + topic + "/" + partition |
| `ZkPath.ZkCluster.ConsumerGroupOwnerOfTopicPath` | zk/path.go:126-128 | a topic's owner znode is the group's root followed by "/owners/" + topic |
| `ZkPath.ConsumerGroupRootsSeparate` | zk/path.go:106-128 | groups without '/' in their names never share a znode under their roots |
| `ZkPath.ConsumerGroupOffsetOfTopicInjective` | zk/path.go:114-120 | for group names without '/', a topic's offsets znode determines both the group and the topic |
| `ZkPath.ClusterRootsSeparate` | zk/path.go:26-104 | the four per-cluster roots ("/config/topics", "/brokers/topics", "/brokers/ids", "/consumers") are pairwise distinct and none lies under another |
| `ZkPath.ConsumerGroupNodesSeparate` | zk/path.go:110-128 | a group's ids, offsets and owner-of-topic znodes are pairwise distinct and none lies under another |

## Left out

- `Text.IndexOf`: it counts characters, while `strings.IndexByte` returns a byte offset (for "é.x" Go gives 2, the model 1). `TopicAppid` only uses the position to cut the prefix before the first '.', and that prefix is the same in both units.
- `Signature` (SHA-256 and base64url of appid:secret): cryptographic library calls with no logic of the store's own beyond a map lookup.
- `ForceRefresh`: a channel send to the refresh goroutine, which is concurrency.
- The refresh loop, which loads the maps from MySQL and swaps them in: it is I/O and concurrency, and it is not part of this model. A store is built by its constructor from an already-loaded snapshot.
- `dryrunLock`: only the sequential effect of each locked section is modelled.
- `Dump` and `DeadPartitions`: they hand out the live maps and contain no logic.
- `IsShadowedTopic`: it depends on `shadowKey`, which is not part of this model.
- `AuthAdmin`: a comparison against one hard-coded credential pair.
- The `mpool` buffer pool: `KafkaTopic` builds into a local buffer, and taking and returning a pooled buffer is not modelled.
- The Go regexp engine: only what `FindString` returns for the pattern `[a-zA-Z0-9\-_]+` is modelled, by `FindNameRun`.
- `http.Header`: `ValidateGroupName` takes the value of the X-Origin header directly. It is "" when the header is absent, as `header.Get` returns.
- The values of `appSubMap` and `appConsumerGroupMap`: the code only tests keys, so they are modelled as sets of keys.
- The constants of `zk/path.go` that no path function uses (orchestrator, Redis, dbus, kguard roots): they are only strings.
- Go strings that are not valid UTF-8 (such as "\xff\xff\xff"): a Dafny string holds Unicode scalar values, so names, versions and the checksummed bytes are modelled for valid UTF-8 only.
