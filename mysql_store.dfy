/** The tenant-metadata view of `mysqlStore` and the decisions kateway takes
    from it: publish authorization (OwnTopic), subscribe authorization
    (AuthSub), cluster and schema lookups, and the set of dry-run topics. */
module MysqlManager {
  import opened Namespace

  /** Map keys of the store (cmd/kateway/structs is not part of this model;
      only the fields used here are kept). */
  datatype AppTopic = AppTopic(appId: string, topic: string)
  datatype AppGroup = AppGroup(appId: string, group: string)
  datatype AppTopicVer = AppTopicVer(appId: string, topic: string, ver: string)

  /** The manager's error values. */
  datatype ManagerError =
    | ErrEmptyIdentity
    | ErrAuthenticationFail
    | ErrAuthorizationFail
    | ErrDisabledTopic
    | ErrInvalidGroup
    | ErrSchemaNotFound

  /** A Go `error` result: nil, or one of the manager's errors. */
  datatype Status = Ok | Fail(err: ManagerError)

  /** A Go `(value, error)` result. */
  datatype Result<T> = Success(value: T) | Failure(err: ManagerError)

  class MysqlStore {
    /** appid -> secret */
    var appSecretMap: map<string, string>
    /** appid -> Kafka cluster */
    var appClusterMap: map<string, string>
    /** (appid, topic) -> enabled */
    var appTopicsMap: map<AppTopic, bool>
    /** subscription grants, keyed by (subscriber appid, topic) */
    var appSubMap: set<AppTopic>
    /** registered consumer groups */
    var appConsumerGroupMap: set<AppGroup>
    /** (appid, topic, ver) -> schema */
    var topicSchemaMap: map<AppTopicVer, string>
    /** topics currently marked dry-run */
    var dryrunTopics: set<AppTopicVer>
    /** when set, AuthSub does not require groups to be registered */
    var allowUnregisteredGroup: bool

    /** A store holding a freshly loaded snapshot of the metadata, with no
        dry-run marks and group registration enforced. */
    constructor (secrets: map<string, string>, clusters: map<string, string>,
                 topics: map<AppTopic, bool>, subs: set<AppTopic>,
                 groups: set<AppGroup>, schemas: map<AppTopicVer, string>)
      ensures appSecretMap == secrets && appClusterMap == clusters
      ensures appTopicsMap == topics && appSubMap == subs
      ensures appConsumerGroupMap == groups && topicSchemaMap == schemas
      ensures dryrunTopics == {} && !allowUnregisteredGroup
    {
      appSecretMap, appClusterMap := secrets, clusters;
      appTopicsMap, appSubMap := topics, subs;
      appConsumerGroupMap, topicSchemaMap := groups, schemas;
      dryrunTopics := {};
      allowUnregisteredGroup := false;
    }

    /** `key` is the registered secret of a known `appid`. */
    predicate Authenticated(appid: string, key: string)
      reads this
    {
      appid in appSecretMap && appSecretMap[appid] == key
    }

    /** `group` passes AuthSub's group check for `appid`. */
    predicate GroupAdmitted(appid: string, group: string)
      reads this
    {
      allowUnregisteredGroup || group == "" || group == SmoketestGroup
      || AppGroup(appid, group) in appConsumerGroupMap
    }

    // -------------------------------------------------------------------
    // Publish

    /** May `appid`, presenting `pubkey`, publish to its own `topic`? Identity,
        then authentication, then ownership, stopping at the first failure. */
    function OwnTopic(appid: string, pubkey: string, topic: string): (r: Status)
      reads this
      ensures r == Fail(ErrEmptyIdentity) <==> appid == "" || topic == "" || pubkey == ""
      ensures r == Fail(ErrAuthenticationFail) <==>
              appid != "" && topic != "" && pubkey != "" && !Authenticated(appid, pubkey)
      ensures r == Ok <==>
              pubkey != "" && topic != "" && Authenticated(appid, pubkey) && appid != ""
              && AppTopic(appid, topic) in appTopicsMap && appTopicsMap[AppTopic(appid, topic)]
      ensures r == Fail(ErrDisabledTopic) <==>
              pubkey != "" && topic != "" && Authenticated(appid, pubkey) && appid != ""
              && AppTopic(appid, topic) in appTopicsMap && !appTopicsMap[AppTopic(appid, topic)]
      ensures r == Fail(ErrAuthorizationFail) <==>
              pubkey != "" && topic != "" && Authenticated(appid, pubkey) && appid != ""
              && AppTopic(appid, topic) !in appTopicsMap
      ensures r != Fail(ErrInvalidGroup) && r != Fail(ErrSchemaNotFound)
    {
      if appid == "" || topic == "" || pubkey == "" then Fail(ErrEmptyIdentity)
      else if appid !in appSecretMap || pubkey != appSecretMap[appid] then Fail(ErrAuthenticationFail)
      else if AppTopic(appid, topic) in appTopicsMap then
        if appTopicsMap[AppTopic(appid, topic)] then Ok else Fail(ErrDisabledTopic)
      else Fail(ErrAuthorizationFail)
    }

    // -------------------------------------------------------------------
    // Subscribe

    method AllowSubWithUnregisteredGroup(yesOrNo: bool)
      modifies this`allowUnregisteredGroup
      ensures allowUnregisteredGroup == yesOrNo
    {
      allowUnregisteredGroup := yesOrNo;
    }

    /** May `appid`, presenting `subkey`, consume `hisAppid`'s `hisTopic` in
        consumer group `group`? Identity, then authentication with the
        subscriber's own secret, then the group check, then ownership or a
        subscription grant. The grant is looked up by (appid, hisTopic). */
    function AuthSub(appid: string, subkey: string, hisAppid: string, hisTopic: string,
                     group: string): (r: Status)
      reads this
      ensures r == Fail(ErrEmptyIdentity) <==> appid == "" || hisTopic == ""
      ensures r == Fail(ErrAuthenticationFail) <==>
              appid != "" && hisTopic != "" && !Authenticated(appid, subkey)
      ensures r == Fail(ErrInvalidGroup) <==>
              appid != "" && hisTopic != "" && Authenticated(appid, subkey)
              && !GroupAdmitted(appid, group)
      ensures r == Ok <==>
              appid != "" && hisTopic != "" && Authenticated(appid, subkey)
              && GroupAdmitted(appid, group)
              && (appid == hisAppid || AppTopic(appid, hisTopic) in appSubMap)
      ensures r == Fail(ErrAuthorizationFail) <==>
              appid != "" && hisTopic != "" && Authenticated(appid, subkey)
              && GroupAdmitted(appid, group)
              && appid != hisAppid && AppTopic(appid, hisTopic) !in appSubMap
      ensures r != Fail(ErrDisabledTopic) && r != Fail(ErrSchemaNotFound)
    {
      if appid == "" || hisTopic == "" then Fail(ErrEmptyIdentity)
      else if appid !in appSecretMap || subkey != appSecretMap[appid] then Fail(ErrAuthenticationFail)
      else if !allowUnregisteredGroup && group != "" && group != SmoketestGroup
              && AppGroup(appid, group) !in appConsumerGroupMap then Fail(ErrInvalidGroup)
      else if appid == hisAppid then Ok
      else if AppTopic(appid, hisTopic) in appSubMap then Ok
      else Fail(ErrAuthorizationFail)
    }

    // -------------------------------------------------------------------
    // Lookups

    /** The cluster assigned to `appid`, and whether there is one. */
    function LookupCluster(appid: string): (r: (string, bool))
      reads this
      ensures r.1 <==> appid in appClusterMap
      ensures r.1 ==> r.0 == appClusterMap[appid]
      ensures !r.1 ==> r.0 == ""
    {
      if appid in appClusterMap then (appClusterMap[appid], true) else ("", false)
    }

    /** The schema registered for (appid, topic, ver). */
    function TopicSchema(appid: string, topic: string, ver: string): (r: Result<string>)
      reads this
      ensures r.Success? <==> AppTopicVer(appid, topic, ver) in topicSchemaMap
      ensures r.Success? ==> r.value == topicSchemaMap[AppTopicVer(appid, topic, ver)]
      ensures r.Failure? ==> r.err == ErrSchemaNotFound
    {
      var atv := AppTopicVer(appid, topic, ver);
      if atv in topicSchemaMap then Success(topicSchemaMap[atv]) else Failure(ErrSchemaNotFound)
    }

    // -------------------------------------------------------------------
    // Dry-run topics

    /** Whether (appid, topic, ver) is marked dry-run; a lookup only. */
    function IsDryrunTopic(appid: string, topic: string, ver: string): (r: bool)
      reads this
      ensures r <==> AppTopicVer(appid, topic, ver) in dryrunTopics
    {
      AppTopicVer(appid, topic, ver) in dryrunTopics
    }

    method MarkTopicDryrun(appid: string, topic: string, ver: string)
      modifies this`dryrunTopics
      ensures dryrunTopics == old(dryrunTopics) + {AppTopicVer(appid, topic, ver)}
      ensures IsDryrunTopic(appid, topic, ver)
      ensures forall a, t, v :: (a, t, v) != (appid, topic, ver) ==>
                (IsDryrunTopic(a, t, v) <==> old(IsDryrunTopic(a, t, v)))
    {
      dryrunTopics := dryrunTopics + {AppTopicVer(appid, topic, ver)};
    }

    /** Replaces the whole dry-run set by an empty one. */
    method ClearDryrunTopics()
      modifies this`dryrunTopics
      ensures dryrunTopics == {}
      ensures forall a, t, v :: !IsDryrunTopic(a, t, v)
    {
      dryrunTopics := {};
    }
  }

  // ---------------------------------------------------------------------
  // Properties relating the decisions

  /** An empty publish key is refused before any secret is compared, even for
      an app whose stored secret is empty. */
  lemma OwnTopicNeedsPubkey(s: MysqlStore, appid: string, topic: string)
    ensures s.OwnTopic(appid, "", topic) == Fail(ErrEmptyIdentity)
  {
  }

  /** A subscriber may always read its own topics once authenticated and its
      group passes, whether the topic is enabled, disabled or unknown; in
      particular a topic whose publishing is refused as disabled. */
  lemma AuthSubOwnDisabledTopic(s: MysqlStore, appid: string, key: string, topic: string, group: string)
    requires s.OwnTopic(appid, key, topic) == Fail(ErrDisabledTopic)
    requires s.GroupAdmitted(appid, group)
    ensures s.AuthSub(appid, key, appid, topic, group) == Ok
  {
  }

  /** Publishing success implies the same key also passes subscription to the
      same topic of the same app, for an admitted group. */
  lemma OwnTopicImpliesAuthSub(s: MysqlStore, appid: string, key: string, topic: string, group: string)
    requires s.OwnTopic(appid, key, topic) == Ok
    requires s.GroupAdmitted(appid, group)
    ensures s.AuthSub(appid, key, appid, topic, group) == Ok
  {
  }

  /** For a foreign owner, the owner's id plays no part in the decision: the
      grant is keyed by the subscriber and the topic name only. */
  lemma AuthSubIgnoresForeignOwner(s: MysqlStore, appid: string, key: string,
                                   his1: string, his2: string, topic: string, group: string)
    requires his1 != appid && his2 != appid
    ensures s.AuthSub(appid, key, his1, topic, group) == s.AuthSub(appid, key, his2, topic, group)
  {
  }

  /** The smoke-test group is always admitted by AuthSub, with no header check. */
  lemma AuthSubSmoketestLikeNoGroup(s: MysqlStore, appid: string, key: string, his: string, topic: string)
    ensures s.AuthSub(appid, key, his, topic, SmoketestGroup) == s.AuthSub(appid, key, his, topic, "")
  {
  }

  /** With unregistered groups allowed, the group never matters. */
  lemma AuthSubPermissiveGroup(s: MysqlStore, appid: string, key: string, his: string, topic: string, group: string)
    requires s.allowUnregisteredGroup
    ensures s.AuthSub(appid, key, his, topic, group) == s.AuthSub(appid, key, his, topic, "")
  {
  }
}
