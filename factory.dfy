/**
 * src/factory/index.ts: the region and runtime-options folds and the trigger
 * resolver `createFuncWithAction`, whose `onHttpsRequest` branch builds an
 * express sub-application and memoizes middleware instances by class name.
 */
module Factory {
  import opened Wrappers
  import opened Types
  import opened Events
  import opened Sdk

  /** Appends `.region(rs)` when a region list is recorded (an array is always truthy). */
  function CreateFuncWithRegion(b: Builder, regions: Option<seq<string>>): (r: Builder)
    ensures regions.Some? ==> r == b + [Region(regions.value)]
    ensures regions.None? ==> r == b
  {
    if regions.Some? then b + [Region(regions.value)] else b
  }

  /** Appends `.runWith(o)` when runtime options are recorded (an object is always truthy). */
  function CreateFuncWithRunWith(b: Builder, options: Option<RuntimeOptions>): (r: Builder)
    ensures options.Some? ==> r == b + [RunWith(options.value)]
    ensures options.None? ==> r == b
  {
    if options.Some? then b + [RunWith(options.value)] else b
  }

  // ---------------------------------------------------------------- requests

  /** `functionAction.payload?.path || '/'`: never empty. */
  function RequestPath(a: Action): (r: string)
    ensures r != ""
    ensures Truthy(PathOf(a)) ==> r == PathOf(a).value
    ensures !Truthy(PathOf(a)) ==> r == "/"
  {
    var p := PathOf(a);
    if p.Some? && p.value != "" then p.value else "/"
  }

  /** `path === '/' && !options`: the handler is bound without a sub-application. */
  predicate DirectRequest(a: Action)
  {
    RequestPath(a) == "/" && OptionsOf(a).None?
  }

  /** `options.method`, or `get` when no method is given. */
  function RouteMethod(options: Option<RequestOptions>): (m: RequestMethod)
    ensures options.Some? && options.value.httpMethod.Some? ==> m == options.value.httpMethod.value
    ensures options.None? || options.value.httpMethod.None? ==> m == Get
  {
    if options.Some? && options.value.httpMethod.Some? then options.value.httpMethod.value else Get
  }

  /** The middleware classes `options.middleware` lists, in order; none without options. */
  function MiddlewareClasses(options: Option<RequestOptions>): (cs: seq<MiddlewareClass>)
    ensures options.None? || options.value.middleware.None? ==> cs == []
  {
    if options.Some? && options.value.middleware.Some? then options.value.middleware.value else []
  }

  /** The middleware a request action attaches: those of its options when it builds a sub-application. */
  function RequestMiddleware(a: Action): (cs: seq<MiddlewareClass>)
    ensures DirectRequest(a) ==> cs == []
  {
    if DirectRequest(a) then [] else MiddlewareClasses(OptionsOf(a))
  }

  /** `app.use(i.middleware)` for each instance, in order. */
  function Uses(instances: seq<MiddlewareInstance>): (r: seq<AppCall>)
    ensures |r| == |instances|
    ensures forall k :: 0 <= k < |r| ==> r[k] == UseMiddleware(instances[k])
  {
    if instances == [] then [] else [UseMiddleware(instances[0])] + Uses(instances[1..])
  }

  /** The cached instance of each class, looked up by class name. */
  function Instances(classes: seq<MiddlewareClass>, entries: map<string, MiddlewareInstance>): (r: seq<MiddlewareInstance>)
    requires forall k :: 0 <= k < |classes| ==> classes[k].name in entries
    ensures |r| == |classes|
    ensures forall k :: 0 <= k < |r| ==> r[k] == entries[classes[k].name]
  {
    seq(|classes|, k requires 0 <= k < |classes| => entries[classes[k].name])
  }

  /** The calls on the sub-application: cors, then each middleware in order, then the route. */
  function SubAppCalls(path: string, options: Option<RequestOptions>, h: Handler,
                       instances: seq<MiddlewareInstance>): (r: seq<AppCall>)
    ensures |r| == |instances| + 2
    ensures r[0] == UseCors
    ensures forall k :: 0 <= k < |instances| ==> r[k + 1] == UseMiddleware(instances[k])
    ensures r[|r| - 1] == Route(RouteMethod(options), path, h)
  {
    [UseCors] + Uses(instances) + [Route(RouteMethod(options), path, h)]
  }

  /** The `onHttpsRequest` branch, given the instances its middleware resolve to. */
  function RequestSteps(a: Action, h: Handler, instances: seq<MiddlewareInstance>): (r: seq<Step>)
    ensures |r| == 2 && r[0] == Https && r[1].OnRequest?
    ensures DirectRequest(a) <==> r[1].target == Direct(h)
    ensures !DirectRequest(a) ==> r[1].target == App(SubAppCalls(RequestPath(a), OptionsOf(a), h, instances))
  {
    if DirectRequest(a) then [Https, OnRequest(Direct(h))]
    else [Https, OnRequest(App(SubAppCalls(RequestPath(a), OptionsOf(a), h, instances)))]
  }

  // ---------------------------------------------------------------- dispatch

  /** The type names the resolver has a case for. */
  const KnownKinds: set<string> := {
    OnAuthUserCreate, OnAuthUserDelete,
    OnDatabaseCreate, OnDatabaseDelete, OnDatabaseUpdate, OnDatabaseWrite,
    OnFirestoreCreate, OnFirestoreDelete, OnFirestoreUpdate, OnFirestoreWrite,
    OnHttpsCall, OnHttpsRequest, OnPubsubPublish, OnPubsubRun,
    OnStorageObjectArchive, OnStorageObjectDelete, OnStorageObjectFinalize, OnStorageObjectMetadataUpdate }

  /** The event binding a change event resolves to. */
  function ChangeBinding(e: ChangeEvent): Event
  {
    match e
    case Created => OnCreate
    case Deleted => OnDelete
    case Updated => OnUpdate
    case Written => OnWrite
  }

  /**
   * The calls `createFuncWithAction` appends for action `a` with handler `h`;
   * `instances` are the middleware instances an `onHttpsRequest` sub-application uses.
   * Exactly one terminal binding is made, and it is the last call.
   */
  function ActionSteps(a: Action, h: Handler, instances: seq<MiddlewareInstance>): (r: seq<Step>)
    ensures |r| >= 1 && r[|r| - 1].IsTerminal()
    ensures forall k :: 0 <= k < |r| - 1 ==> !r[k].IsTerminal()
    ensures r[|r| - 1].Bind? ==> r[|r| - 1].handler == h
    ensures a.kind !in KnownKinds ==> r == [Https, Bind(OnCall, h)]
  {
    var k := a.kind;
    if k == OnAuthUserCreate then [Auth, User, Bind(OnCreate, h)]
    else if k == OnAuthUserDelete then [Auth, User, Bind(OnDelete, h)]
    else if k == OnDatabaseCreate then [Ref(PathOf(a)), Bind(OnCreate, h)]
    else if k == OnDatabaseDelete then [Ref(PathOf(a)), Bind(OnDelete, h)]
    else if k == OnDatabaseUpdate then [Ref(PathOf(a)), Bind(OnUpdate, h)]
    else if k == OnDatabaseWrite then [Ref(PathOf(a)), Bind(OnWrite, h)]
    else if k == OnFirestoreCreate then [Document(PathOf(a)), Bind(OnCreate, h)]
    else if k == OnFirestoreDelete then [Document(PathOf(a)), Bind(OnDelete, h)]
    else if k == OnFirestoreUpdate then [Document(PathOf(a)), Bind(OnUpdate, h)]
    else if k == OnFirestoreWrite then [Document(PathOf(a)), Bind(OnWrite, h)]
    else if k == OnHttpsCall then [Https, Bind(OnCall, h)]
    else if k == OnHttpsRequest then RequestSteps(a, h, instances)
    else if k == OnPubsubPublish then [Bind(OnPublish, h)]
    else if k == OnPubsubRun then [Bind(OnRun, h)]
    else if k == OnStorageObjectArchive then [Object, Bind(OnArchive, h)]
    else if k == OnStorageObjectDelete then [Object, Bind(OnDelete, h)]
    else if k == OnStorageObjectFinalize then [Object, Bind(OnFinalize, h)]
    else if k == OnStorageObjectMetadataUpdate then [Object, Bind(OnMetadataUpdate, h)]
    else [Https, Bind(OnCall, h)]
  }

  /** The middleware classes resolving `a` looks up in the cache. */
  function MiddlewareUsed(a: Action): (cs: seq<MiddlewareClass>)
    ensures a.kind != OnHttpsRequest ==> cs == []
  {
    if a.kind == OnHttpsRequest then RequestMiddleware(a) else []
  }

  // ---------------------------------------------------------------- middleware cache

  /**
   * The cache of middleware instances keyed by class name (the module-level
   * `map`): `after` keeps every entry of `before` and adds exactly the names of
   * `classes` that were missing, so afterwards every class in `classes` has one;
   * each added entry is an instance of a listed class of that name (`new m()`
   * stored under `m.name`).
   */
  ghost predicate Memoized(before: map<string, MiddlewareInstance>, after: map<string, MiddlewareInstance>,
                           classes: seq<MiddlewareClass>)
  {
    && (forall n :: n in before ==> n in after && after[n] == before[n])
    && (forall k :: 0 <= k < |classes| ==> classes[k].name in after)
    && (forall n :: n in after && n !in before ==>
          exists k :: 0 <= k < |classes| && classes[k].name == n && after[n].cls == classes[k])
  }

  class MiddlewareCache {
    var entries: map<string, MiddlewareInstance>

    constructor ()
      ensures entries == map[]
    {
      entries := map[];
    }

    /** `map.get(m.name)`, constructing and storing `new m()` only when the name is missing. */
    method GetOrCreate(m: MiddlewareClass) returns (i: MiddlewareInstance)
      modifies this
      ensures m.name in old(entries) ==> i == old(entries)[m.name] && entries == old(entries)
      ensures m.name !in old(entries) ==> fresh(i) && i.cls == m && entries == old(entries)[m.name := i]
    {
      if m.name in entries {
        i := entries[m.name];
      } else {
        i := new MiddlewareInstance(m);
        entries := entries[m.name := i];
      }
    }
  }

  /** After a cache update that kept all old entries, the instances of classes already cached are unchanged. */
  lemma InstancesStable(classes: seq<MiddlewareClass>, before: map<string, MiddlewareInstance>,
                                          after: map<string, MiddlewareInstance>)
    requires forall k :: 0 <= k < |classes| ==> classes[k].name in before
    requires forall n :: n in before ==> n in after && after[n] == before[n]
    ensures Instances(classes, before) == Instances(classes, after)
  {
  }

  /** One cache lookup extends a memoized cache by one more class. */
  lemma MemoizedStep(before: map<string, MiddlewareInstance>, mid: map<string, MiddlewareInstance>,
                     after: map<string, MiddlewareInstance>, classes: seq<MiddlewareClass>,
                     c: MiddlewareClass, i: MiddlewareInstance)
    requires Memoized(before, mid, classes)
    requires c.name in mid ==> after == mid
    requires c.name !in mid ==> after == mid[c.name := i] && i.cls == c
    ensures Memoized(before, after, classes + [c])
  {
    var cs := classes + [c];
    forall n | n in after && n !in before
      ensures exists k :: 0 <= k < |cs| && cs[k].name == n && after[n].cls == cs[k]
    {
      if n in mid {
        var k :| 0 <= k < |classes| && classes[k].name == n && mid[n].cls == classes[k];
        assert cs[k] == classes[k];
      } else {
        assert cs[|classes|] == c;
      }
    }
  }

  /** Two memoized cache updates in a row make one, for the two class lists joined. */
  lemma MemoizedConcat(e0: map<string, MiddlewareInstance>, e1: map<string, MiddlewareInstance>,
                       e2: map<string, MiddlewareInstance>, cs: seq<MiddlewareClass>, ds: seq<MiddlewareClass>)
    requires Memoized(e0, e1, cs) && Memoized(e1, e2, ds)
    ensures Memoized(e0, e2, cs + ds)
  {
    var all := cs + ds;
    forall k | 0 <= k < |all| ensures all[k].name in e2 {
      if k < |cs| {
        assert all[k] == cs[k];
      } else {
        assert all[k] == ds[k - |cs|];
      }
    }
    forall n | n in e2 && n !in e0
      ensures exists k :: 0 <= k < |all| && all[k].name == n && e2[n].cls == all[k]
    {
      if n in e1 {
        var k :| 0 <= k < |cs| && cs[k].name == n && e1[n].cls == cs[k];
        assert all[k] == cs[k];
      } else {
        var k :| 0 <= k < |ds| && ds[k].name == n && e2[n].cls == ds[k];
        assert all[|cs| + k] == ds[k];
      }
    }
  }

  /** `Instances` of an extended list is `Instances` of the list followed by the new class's instance. */
  lemma InstancesSnoc(classes: seq<MiddlewareClass>, c: MiddlewareClass, entries: map<string, MiddlewareInstance>)
    requires forall k :: 0 <= k < |classes| ==> classes[k].name in entries
    requires c.name in entries
    ensures Instances(classes + [c], entries) == Instances(classes, entries) + [entries[c.name]]
  {
  }

  /** `Uses` of an extended list is `Uses` of the list followed by one more `app.use`. */
  lemma UsesSnoc(instances: seq<MiddlewareInstance>, i: MiddlewareInstance)
    ensures Uses(instances + [i]) == Uses(instances) + [UseMiddleware(i)]
  {
  }

  /** One iteration of the middleware loop keeps the cache memoized and the attached calls in step with it. */
  lemma AttachStep(orig: map<string, MiddlewareInstance>, before: map<string, MiddlewareInstance>,
                   after: map<string, MiddlewareInstance>, classes: seq<MiddlewareClass>, j: nat,
                   i: MiddlewareInstance, calls: seq<AppCall>)
    requires j < |classes|
    requires Memoized(orig, before, classes[..j])
    requires calls == Uses(Instances(classes[..j], before))
    requires classes[j].name in before ==> i == before[classes[j].name] && after == before
    requires classes[j].name !in before ==> after == before[classes[j].name := i] && i.cls == classes[j]
    ensures Memoized(orig, after, classes[..j + 1])
    ensures calls + [UseMiddleware(i)] == Uses(Instances(classes[..j + 1], after))
  {
    MemoizedStep(orig, before, after, classes[..j], classes[j], i);
    InstancesStable(classes[..j], before, after);
    assert classes[..j + 1] == classes[..j] + [classes[j]];
    InstancesSnoc(classes[..j], classes[j], after);
    UsesSnoc(Instances(classes[..j], after), i);
  }

  /**
   * `options.middleware.forEach(m => ...)`: for each class in order take its
   * instance from the cache, or construct and cache `new m()` when its name is
   * missing, and attach `i.middleware`.
   */
  method AttachMiddleware(cache: MiddlewareCache, classes: seq<MiddlewareClass>) returns (calls: seq<AppCall>)
    modifies cache
    ensures Memoized(old(cache.entries), cache.entries, classes)
    ensures forall n :: n in cache.entries && n !in old(cache.entries) ==> fresh(cache.entries[n])
    ensures calls == Uses(Instances(classes, cache.entries))
  {
    calls := [];
    for j := 0 to |classes|
      invariant Memoized(old(cache.entries), cache.entries, classes[..j])
      invariant forall n :: n in cache.entries && n !in old(cache.entries) ==> fresh(cache.entries[n])
      invariant calls == Uses(Instances(classes[..j], cache.entries))
    {
      ghost var before := cache.entries;
      var i := cache.GetOrCreate(classes[j]);
      AttachStep(old(cache.entries), before, cache.entries, classes, j, i, calls);
      calls := calls + [UseMiddleware(i)];
    }
    assert classes[..|classes|] == classes;
  }

  /**
   * The sub-application of an `onHttpsRequest` trigger: cors first, then the
   * middleware of the options in order, then the route at `path`.
   */
  method BuildApp(cache: MiddlewareCache, path: string, options: Option<RequestOptions>, h: Handler)
    returns (app: seq<AppCall>)
    modifies cache
    ensures Memoized(old(cache.entries), cache.entries, MiddlewareClasses(options))
    ensures forall n :: n in cache.entries && n !in old(cache.entries) ==> fresh(cache.entries[n])
    ensures app == SubAppCalls(path, options, h, Instances(MiddlewareClasses(options), cache.entries))
  {
    app := [UseCors];
    if options.Some? && options.value.middleware.Some? {
      var uses := AttachMiddleware(cache, options.value.middleware.value);
      app := app + uses;
    }
    app := app + [Route(RouteMethod(options), path, h)];
  }

  /**
   * `createFuncWithAction(func, functionAction, target, propertyKey)`: append
   * the calls that bind action `a` with handler `h`, resolving middleware
   * through `cache`.
   */
  method CreateFuncWithAction(cache: MiddlewareCache, b: Builder, a: Action, h: Handler) returns (r: Builder)
    modifies cache
    ensures Memoized(old(cache.entries), cache.entries, MiddlewareUsed(a))
    ensures forall n :: n in cache.entries && n !in old(cache.entries) ==> fresh(cache.entries[n])
    ensures r == b + ActionSteps(a, h, Instances(MiddlewareUsed(a), cache.entries))
  {
    if a.kind == OnHttpsRequest && !DirectRequest(a) {
      var app := BuildApp(cache, RequestPath(a), OptionsOf(a), h);
      r := b + [Https, OnRequest(App(app))];
    } else {
      r := b + ActionSteps(a, h, []);
    }
  }

  // ---------------------------------------------------------------- decorator entries resolve as recorded

  /** An `onDatabase*` entry binds its path with `ref(path)` and the matching event. */
  lemma DatabaseEntryBinding(e: ChangeEvent, path: string, h: Handler, instances: seq<MiddlewareInstance>)
    ensures ActionSteps(Action(DatabaseKind(e), Some(Payload(Some(path), None))), h, instances)
         == [Ref(Some(path)), Bind(ChangeBinding(e), h)]
  {
  }

  /** An `onFirestore*` entry binds its path with `document(path)` and the matching event. */
  lemma FirestoreEntryBinding(e: ChangeEvent, path: string, h: Handler, instances: seq<MiddlewareInstance>)
    ensures ActionSteps(Action(FirestoreKind(e), Some(Payload(Some(path), None))), h, instances)
         == [Document(Some(path)), Bind(ChangeBinding(e), h)]
  {
  }

  /** An `onAuthUser*` entry binds through `auth.user()`. */
  lemma AuthEntryBinding(e: AuthEvent, h: Handler, instances: seq<MiddlewareInstance>)
    ensures ActionSteps(Action(AuthKind(e), None), h, instances)
         == [Auth, User, Bind(if e == UserCreated then OnCreate else OnDelete, h)]
  {
  }

  /** An `onPubsub*` entry binds `onPublish` or `onRun` directly on the folded builder. */
  lemma PubsubEntryBinding(e: PubsubEvent, h: Handler, instances: seq<MiddlewareInstance>)
    ensures ActionSteps(Action(PubsubKind(e), None), h, instances)
         == [Bind(if e == Published then OnPublish else OnRun, h)]
  {
  }

  /** An `onStorageObject*` entry binds through `object()`. */
  lemma StorageEntryBinding(e: StorageEvent, h: Handler, instances: seq<MiddlewareInstance>)
    ensures ActionSteps(Action(StorageKind(e), None), h, instances)
         == [Object, Bind(match e
                          case ObjectArchived => OnArchive
                          case ObjectDeleted => OnDelete
                          case ObjectFinalized => OnFinalize
                          case ObjectMetadataUpdated => OnMetadataUpdate, h)]
  {
  }

  /** An `onHttpsCall` entry binds `https.onCall`. */
  lemma HttpsCallEntryBinding(h: Handler, instances: seq<MiddlewareInstance>)
    ensures ActionSteps(Action(OnHttpsCall, None), h, instances) == [Https, Bind(OnCall, h)]
  {
  }

  /**
   * An `onHttpsRequest` entry with path '/' (or an empty path, which reads as
   * '/') and no options binds the handler directly; any other path, or any
   * options, gives a sub-application whose route is at that path with the
   * recorded method or `get`.
   */
  lemma HttpsRequestEntryBinding(path: string, options: Option<RequestOptions>, h: Handler,
                                 instances: seq<MiddlewareInstance>)
    ensures var steps := ActionSteps(Action(OnHttpsRequest, Some(Payload(Some(path), options))), h, instances);
            var p := if path == "" then "/" else path;
      && (p == "/" && options.None? ==> steps == [Https, OnRequest(Direct(h))])
      && (p != "/" || options.Some? ==>
            steps == [Https, OnRequest(App(SubAppCalls(p, options, h, instances)))]
            && SubAppCalls(p, options, h, instances)[|instances| + 1] == Route(RouteMethod(options), p, h))
  {
  }
}
