/**
 * The values the decorators record: action entries with their payloads, request
 * options and middleware classes. The TypeScript declarations of these
 * (`FunctionAction`, `RequestOptions`, `RuntimeOptions`, `ScheduleRetryConfig`)
 * are opaque here; only the parts the engine inspects are spelled out.
 */
module Types {
  import opened Wrappers

  /** The runtime options record given to `runWith`; never inspected, only passed on. */
  type RuntimeOptions(==)

  /** The pub/sub retry configuration given to `retryConfig`; never inspected. */
  type ScheduleRetryConfig(==)

  /** The class that owns a decorated method (`target`). */
  type Owner

  /** A decorated method (`target[propertyKey]`), bound as a trigger's handler. */
  type Handler(==)

  /** What distinguishes one middleware class from another besides its name. */
  type ClassCode(==)

  /** JavaScript truthiness of an optional string: present and non-empty. */
  predicate Truthy(s: Option<string>)
  {
    s.Some? && s.value != ""
  }

  /** The HTTP methods a request route can be registered with. */
  datatype RequestMethod =
    | Connect | Delete | Get | Head | Options | Patch | Post | Put | Trace

  /** A middleware class: constructed with `new m()`, cached under `m.name`. */
  datatype MiddlewareClass = MiddlewareClass(name: string, code: ClassCode)

  /**
   * An object made by `new m()`. Instances are compared by reference, so two
   * references to the same instance are `==` and a freshly made one is new.
   */
  class MiddlewareInstance {
    const cls: MiddlewareClass

    constructor (c: MiddlewareClass)
      ensures cls == c
    {
      cls := c;
    }
  }

  /** Options of `onHttpsRequest`: the route's HTTP method and the middleware classes. */
  datatype RequestOptions = RequestOptions(
    httpMethod: Option<RequestMethod>,
    middleware: Option<seq<MiddlewareClass>>)

  /** The payload of an action entry; each decorator fills in what it has. */
  datatype Payload = Payload(path: Option<string>, options: Option<RequestOptions>)

  /** An action entry `{type, payload?}` as appended to the action list. */
  datatype Action = Action(kind: string, payload: Option<Payload>)

  /** `functionAction.payload?.path` */
  function PathOf(a: Action): (r: Option<string>)
    ensures a.payload.None? ==> r.None?
  {
    if a.payload.Some? then a.payload.value.path else None
  }

  /** `functionAction.payload?.options` */
  function OptionsOf(a: Action): (r: Option<RequestOptions>)
    ensures a.payload.None? ==> r.None?
  {
    if a.payload.Some? then a.payload.value.options else None
  }

  // The action type names the decorators record.
  const OnAuthUserCreate := "onAuthUserCreate"
  const OnAuthUserDelete := "onAuthUserDelete"
  const OnDatabaseCreate := "onDatabaseCreate"
  const OnDatabaseDelete := "onDatabaseDelete"
  const OnDatabaseUpdate := "onDatabaseUpdate"
  const OnDatabaseWrite := "onDatabaseWrite"
  const OnFirestoreCreate := "onFirestoreCreate"
  const OnFirestoreDelete := "onFirestoreDelete"
  const OnFirestoreUpdate := "onFirestoreUpdate"
  const OnFirestoreWrite := "onFirestoreWrite"
  const OnHttpsCall := "onHttpsCall"
  const OnHttpsRequest := "onHttpsRequest"
  const OnPubsubPublish := "onPubsubPublish"
  const OnPubsubRun := "onPubsubRun"
  const OnStorageObjectArchive := "onStorageObjectArchive"
  const OnStorageObjectDelete := "onStorageObjectDelete"
  const OnStorageObjectFinalize := "onStorageObjectFinalize"
  const OnStorageObjectMetadataUpdate := "onStorageObjectMetadataUpdate"

  // The two type names only the legacy resolver knows.
  const LegacyOnCall := "onCall"
  const LegacyOnRequest := "onRequest"

  /** The region `region()` records when it is given no region. */
  const DefaultRegion := "us-central1"
}

/**
 * The action decorators of one trigger family differ only in the event they
 * record; each family's events are enumerated here with the type name that
 * the corresponding decorator writes into the action entry.
 */
module Events {
  import opened Types

  /** onDatabaseCreate/Delete/Update/Write and onFirestoreCreate/Delete/Update/Write */
  datatype ChangeEvent = Created | Deleted | Updated | Written

  /** onAuthUserCreate, onAuthUserDelete */
  datatype AuthEvent = UserCreated | UserDeleted

  /** onPubsubPublish, onPubsubRun */
  datatype PubsubEvent = Published | ScheduledRun

  /** onStorageObjectArchive/Delete/Finalize/MetadataUpdate */
  datatype StorageEvent = ObjectArchived | ObjectDeleted | ObjectFinalized | ObjectMetadataUpdated

  function DatabaseKind(e: ChangeEvent): string
  {
    match e
    case Created => OnDatabaseCreate
    case Deleted => OnDatabaseDelete
    case Updated => OnDatabaseUpdate
    case Written => OnDatabaseWrite
  }

  function FirestoreKind(e: ChangeEvent): string
  {
    match e
    case Created => OnFirestoreCreate
    case Deleted => OnFirestoreDelete
    case Updated => OnFirestoreUpdate
    case Written => OnFirestoreWrite
  }

  function AuthKind(e: AuthEvent): string
  {
    match e
    case UserCreated => OnAuthUserCreate
    case UserDeleted => OnAuthUserDelete
  }

  function PubsubKind(e: PubsubEvent): string
  {
    match e
    case Published => OnPubsubPublish
    case ScheduledRun => OnPubsubRun
  }

  function StorageKind(e: StorageEvent): string
  {
    match e
    case ObjectArchived => OnStorageObjectArchive
    case ObjectDeleted => OnStorageObjectDelete
    case ObjectFinalized => OnStorageObjectFinalize
    case ObjectMetadataUpdated => OnStorageObjectMetadataUpdate
  }
}
