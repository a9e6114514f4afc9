/**
 * factory.ts: the older copy of the fold helpers and of the trigger resolver,
 * with its own middleware cache and its own table of type names ('onCall' and
 * 'onRequest' instead of 'onHttpsCall' and 'onHttpsRequest', and no pub/sub
 * cases). Its request branch is the same code as the current resolver's, so
 * it is modelled by the same `Factory.BuildApp` and `Factory.RequestSteps`.
 */
module LegacyFactory {
  import opened Wrappers
  import opened Types
  import opened Sdk
  import Factory
  import DatabaseFactory
  import FirestoreFactory
  import StorageFactory

  function CreateFuncWithDatabaseInstance(b: Builder, instance: Option<string>): (r: Builder)
    ensures r == DatabaseFactory.CreateFuncWithDatabaseInstance(b, instance)
  {
    if instance.Some? && instance.value != "" then b + [Database, Instance(instance.value)] else b + [Database]
  }

  function CreateFuncWithFirestoreDatabase(b: Builder, database: Option<string>): (r: Builder)
    ensures r == FirestoreFactory.CreateFuncWithFirestoreDatabase(b, database)
  {
    if database.Some? && database.value != "" then b + [Firestore, FirestoreDatabase(database.value)] else b + [Firestore]
  }

  function CreateFuncWithFirestoreNamespace(b: Builder, namespace: Option<string>): (r: Builder)
    ensures r == FirestoreFactory.CreateFuncWithFirestoreNamespace(b, namespace)
  {
    if namespace.Some? && namespace.value != "" then b + [Namespace(namespace.value)] else b
  }

  function CreateFuncWithRegion(b: Builder, regions: Option<seq<string>>): (r: Builder)
    ensures r == Factory.CreateFuncWithRegion(b, regions)
  {
    if regions.Some? then b + [Region(regions.value)] else b
  }

  function CreateFuncWithRunWith(b: Builder, options: Option<RuntimeOptions>): (r: Builder)
    ensures r == Factory.CreateFuncWithRunWith(b, options)
  {
    if options.Some? then b + [RunWith(options.value)] else b
  }

  function CreateFuncWithStorageBucket(b: Builder, bucket: Option<string>): (r: Builder)
    ensures r == StorageFactory.CreateFuncWithStorageBucket(b, bucket)
  {
    if bucket.Some? && bucket.value != "" then b + [Storage, Bucket(bucket.value)] else b + [Storage]
  }

  /** The type names the legacy resolver has a case for. */
  const KnownKinds: set<string> := {
    OnAuthUserCreate, OnAuthUserDelete, LegacyOnCall,
    OnDatabaseCreate, OnDatabaseDelete, OnDatabaseUpdate, OnDatabaseWrite,
    OnFirestoreCreate, OnFirestoreDelete, OnFirestoreUpdate, OnFirestoreWrite,
    LegacyOnRequest,
    OnStorageObjectArchive, OnStorageObjectDelete, OnStorageObjectFinalize, OnStorageObjectMetadataUpdate }

  /** The calls the legacy `createFuncWithAction` appends for action `a` with handler `h`. */
  function ActionSteps(a: Action, h: Handler, instances: seq<MiddlewareInstance>): (r: seq<Step>)
    ensures |r| >= 1 && r[|r| - 1].IsTerminal()
    ensures forall k :: 0 <= k < |r| - 1 ==> !r[k].IsTerminal()
    ensures r[|r| - 1].Bind? ==> r[|r| - 1].handler == h
    ensures a.kind !in KnownKinds ==> r == [Https, Bind(OnCall, h)]
  {
    var k := a.kind;
    if k == OnAuthUserCreate then [Auth, User, Bind(OnCreate, h)]
    else if k == OnAuthUserDelete then [Auth, User, Bind(OnDelete, h)]
    else if k == LegacyOnCall then [Https, Bind(OnCall, h)]
    else if k == OnDatabaseCreate then [Ref(PathOf(a)), Bind(OnCreate, h)]
    else if k == OnDatabaseDelete then [Ref(PathOf(a)), Bind(OnDelete, h)]
    else if k == OnDatabaseUpdate then [Ref(PathOf(a)), Bind(OnUpdate, h)]
    else if k == OnDatabaseWrite then [Ref(PathOf(a)), Bind(OnWrite, h)]
    else if k == OnFirestoreCreate then [Document(PathOf(a)), Bind(OnCreate, h)]
    else if k == OnFirestoreDelete then [Document(PathOf(a)), Bind(OnDelete, h)]
    else if k == OnFirestoreUpdate then [Document(PathOf(a)), Bind(OnUpdate, h)]
    else if k == OnFirestoreWrite then [Document(PathOf(a)), Bind(OnWrite, h)]
    else if k == LegacyOnRequest then Factory.RequestSteps(a, h, instances)
    else if k == OnStorageObjectArchive then [Object, Bind(OnArchive, h)]
    else if k == OnStorageObjectDelete then [Object, Bind(OnDelete, h)]
    else if k == OnStorageObjectFinalize then [Object, Bind(OnFinalize, h)]
    else if k == OnStorageObjectMetadataUpdate then [Object, Bind(OnMetadataUpdate, h)]
    else [Https, Bind(OnCall, h)]
  }

  /** The middleware classes resolving `a` looks up in the legacy cache. */
  function MiddlewareUsed(a: Action): (cs: seq<MiddlewareClass>)
    ensures a.kind != LegacyOnRequest ==> cs == []
  {
    if a.kind == LegacyOnRequest then Factory.RequestMiddleware(a) else []
  }

  /** The legacy `createFuncWithAction`; `cache` is the legacy module's own `map`. */
  method CreateFuncWithAction(cache: Factory.MiddlewareCache, b: Builder, a: Action, h: Handler) returns (r: Builder)
    modifies cache
    ensures Factory.Memoized(old(cache.entries), cache.entries, MiddlewareUsed(a))
    ensures forall n :: n in cache.entries && n !in old(cache.entries) ==> fresh(cache.entries[n])
    ensures r == b + ActionSteps(a, h, Factory.Instances(MiddlewareUsed(a), cache.entries))
  {
    if a.kind == LegacyOnRequest && !Factory.DirectRequest(a) {
      var app := Factory.BuildApp(cache, Factory.RequestPath(a), OptionsOf(a), h);
      r := b + [Https, OnRequest(App(app))];
    } else {
      r := b + ActionSteps(a, h, []);
    }
  }

  /** The type names both resolvers handle with the same case. */
  const SharedKinds: set<string> := {
    OnAuthUserCreate, OnAuthUserDelete,
    OnDatabaseCreate, OnDatabaseDelete, OnDatabaseUpdate, OnDatabaseWrite,
    OnFirestoreCreate, OnFirestoreDelete, OnFirestoreUpdate, OnFirestoreWrite,
    OnStorageObjectArchive, OnStorageObjectDelete, OnStorageObjectFinalize, OnStorageObjectMetadataUpdate }

  /** On the shared type names the two resolvers bind the same calls. */
  lemma AgreesOnSharedKinds(a: Action, h: Handler, instances: seq<MiddlewareInstance>)
    requires a.kind in SharedKinds
    ensures ActionSteps(a, h, instances) == Factory.ActionSteps(a, h, instances)
    ensures MiddlewareUsed(a) == Factory.MiddlewareUsed(a) == []
  {
  }

  /** Legacy 'onRequest' behaves as current 'onHttpsRequest', and legacy 'onCall' as an `https.onCall` binding in both. */
  lemma RenamedHttpsKinds(a: Action, h: Handler, instances: seq<MiddlewareInstance>)
    ensures ActionSteps(a.(kind := LegacyOnRequest), h, instances) == Factory.ActionSteps(a.(kind := OnHttpsRequest), h, instances)
    ensures MiddlewareUsed(a.(kind := LegacyOnRequest)) == Factory.MiddlewareUsed(a.(kind := OnHttpsRequest))
    ensures ActionSteps(a.(kind := LegacyOnCall), h, instances) == Factory.ActionSteps(a.(kind := LegacyOnCall), h, instances)
                                                          == [Https, Bind(OnCall, h)]
  {
  }

  /**
   * The legacy table has no pub/sub, 'onHttpsCall' or 'onHttpsRequest' case:
   * those entries fall back to `https.onCall`, which for the pub/sub and
   * request entries is not what the current resolver binds.
   */
  lemma MissingKindsFallBack(a: Action, h: Handler, instances: seq<MiddlewareInstance>)
    requires a.kind in {OnPubsubPublish, OnPubsubRun, OnHttpsCall, OnHttpsRequest}
    ensures ActionSteps(a, h, instances) == [Https, Bind(OnCall, h)]
    ensures MiddlewareUsed(a) == []
    ensures a.kind != OnHttpsCall ==> ActionSteps(a, h, instances) != Factory.ActionSteps(a, h, instances)
  {
  }
}
