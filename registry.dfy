/**
 * The process-wide registries as one object: one mutable field per
 * module-level dictionary of `src/decorators`, and one method per decorator.
 * Each method computes the function identity with `composeFunctionName`
 * (`compose`, given at construction and otherwise uninterpreted) and updates
 * the fields as the decorator does; its contract ties the new `Snapshot()` to
 * the transition in the decorator modules.
 */
module Registry {
  import opened Wrappers
  import opened Types
  import opened Events
  import Registries
  import Decorators
  import DatabaseDecorators
  import FirestoreDecorators
  import PubsubDecorators
  import StorageDecorators
  import HttpsDecorators
  import AuthDecorators

  class Registry {
    /** `composeFunctionName(target, propertyKey)` */
    const compose: (Owner, string) -> string

    var actions: map<string, seq<Action>>
    var regions: map<string, seq<string>>
    var runWith: map<string, RuntimeOptions>
    var databaseFlag: map<string, bool>
    var databaseInstance: map<string, string>
    var firestoreFlag: map<string, bool>
    var firestoreDatabase: map<string, string>
    var firestoreNamespace: map<string, string>
    var pubsubFlag: map<string, bool>
    var pubsubRetryConfig: map<string, ScheduleRetryConfig>
    var pubsubSchedule: map<string, string>
    var pubsubTimeZone: map<string, string>
    var pubsubTopic: map<string, string>
    var storageFlag: map<string, bool>
    var storageBucket: map<string, string>

    /** All dictionaries as one value. */
    function Snapshot(): Registries.State
      reads this
    {
      Registries.State(actions, regions, runWith, databaseFlag, databaseInstance,
                       firestoreFlag, firestoreDatabase, firestoreNamespace,
                       pubsubFlag, pubsubRetryConfig, pubsubSchedule, pubsubTimeZone, pubsubTopic,
                       storageFlag, storageBucket)
    }

    /** The dictionaries as they are at process start: all empty. */
    constructor (compose: (Owner, string) -> string)
      ensures this.compose == compose
      ensures Snapshot() == Registries.Empty
    {
      this.compose := compose;
      actions, regions, runWith := map[], map[], map[];
      databaseFlag, databaseInstance := map[], map[];
      firestoreFlag, firestoreDatabase, firestoreNamespace := map[], map[], map[];
      pubsubFlag, pubsubRetryConfig, pubsubSchedule, pubsubTimeZone, pubsubTopic := map[], map[], map[], map[], map[];
      storageFlag, storageBucket := map[], map[];
    }

    /** `@region(...regions)` */
    method Region(target: Owner, propertyKey: string, regions: seq<string>)
      modifies this
      ensures Snapshot() == Decorators.Region(old(Snapshot()), compose(target, propertyKey), regions)
    {
      var stored := regions;
      if |stored| == 0 {
        stored := [DefaultRegion];
      }
      this.regions := this.regions[compose(target, propertyKey) := stored];
    }

    /** `@runWith(runtimeOptions)` */
    method RunWith(target: Owner, propertyKey: string, options: RuntimeOptions)
      modifies this
      ensures Snapshot() == Decorators.RunWith(old(Snapshot()), compose(target, propertyKey), options)
    {
      runWith := runWith[compose(target, propertyKey) := options];
    }

    /** `@instance(instanceName)` */
    method Instance(target: Owner, propertyKey: string, instanceName: string)
      modifies this
      ensures Snapshot() == DatabaseDecorators.Instance(old(Snapshot()), compose(target, propertyKey), instanceName)
    {
      databaseInstance := databaseInstance[compose(target, propertyKey) := instanceName];
    }

    /** `@onDatabaseCreate(path)`, `@onDatabaseDelete(path)`, `@onDatabaseUpdate(path)`, `@onDatabaseWrite(path)` */
    method OnDatabase(target: Owner, propertyKey: string, e: ChangeEvent, path: string)
      modifies this
      ensures Snapshot() == DatabaseDecorators.OnDatabase(old(Snapshot()), compose(target, propertyKey), e, path)
    {
      var funcName := compose(target, propertyKey);
      databaseFlag := databaseFlag[funcName := true];
      actions := Registries.AppendAction(actions, funcName, Action(DatabaseKind(e), Some(Payload(Some(path), None))));
    }

    /** `@onFirestoreCreate(path)`, `@onFirestoreDelete(path)`, `@onFirestoreUpdate(path)`, `@onFirestoreWrite(path)` */
    method OnFirestore(target: Owner, propertyKey: string, e: ChangeEvent, path: string)
      modifies this
      ensures Snapshot() == FirestoreDecorators.OnFirestore(old(Snapshot()), compose(target, propertyKey), e, path)
    {
      var funcName := compose(target, propertyKey);
      actions := Registries.AppendAction(actions, funcName, Action(FirestoreKind(e), Some(Payload(Some(path), None))));
    }

    /** `@retryConfig(config)` */
    method RetryConfig(target: Owner, propertyKey: string, config: ScheduleRetryConfig)
      modifies this
      ensures Snapshot() == PubsubDecorators.RetryConfig(old(Snapshot()), compose(target, propertyKey), config)
    {
      pubsubRetryConfig := pubsubRetryConfig[compose(target, propertyKey) := config];
    }

    /** `@schedule(scheduleString)` */
    method Schedule(target: Owner, propertyKey: string, schedule: string)
      modifies this
      ensures Snapshot() == PubsubDecorators.Schedule(old(Snapshot()), compose(target, propertyKey), schedule)
    {
      pubsubSchedule := pubsubSchedule[compose(target, propertyKey) := schedule];
    }

    /** `@timeZone(timeZoneName)` */
    method TimeZone(target: Owner, propertyKey: string, timeZone: string)
      modifies this
      ensures Snapshot() == PubsubDecorators.TimeZone(old(Snapshot()), compose(target, propertyKey), timeZone)
    {
      pubsubTimeZone := pubsubTimeZone[compose(target, propertyKey) := timeZone];
    }

    /** `@topic(topicName)` */
    method Topic(target: Owner, propertyKey: string, topic: string)
      modifies this
      ensures Snapshot() == PubsubDecorators.Topic(old(Snapshot()), compose(target, propertyKey), topic)
    {
      pubsubTopic := pubsubTopic[compose(target, propertyKey) := topic];
    }

    /** `@onPubsubPublish()`, `@onPubsubRun()` */
    method OnPubsub(target: Owner, propertyKey: string, e: PubsubEvent)
      modifies this
      ensures Snapshot() == PubsubDecorators.OnPubsub(old(Snapshot()), compose(target, propertyKey), e)
    {
      var funcName := compose(target, propertyKey);
      pubsubFlag := pubsubFlag[funcName := true];
      actions := Registries.AppendAction(actions, funcName, Action(PubsubKind(e), None));
    }

    /** `@bucket(bucketName)` */
    method Bucket(target: Owner, propertyKey: string, bucket: string)
      modifies this
      ensures Snapshot() == StorageDecorators.Bucket(old(Snapshot()), compose(target, propertyKey), bucket)
    {
      storageBucket := storageBucket[compose(target, propertyKey) := bucket];
    }

    /** `@onStorageObjectArchive()`, `@onStorageObjectDelete()`, `@onStorageObjectFinalize()`, `@onStorageObjectMetadataUpdate()` */
    method OnStorageObject(target: Owner, propertyKey: string, e: StorageEvent)
      modifies this
      ensures Snapshot() == StorageDecorators.OnStorageObject(old(Snapshot()), compose(target, propertyKey), e)
    {
      var funcName := compose(target, propertyKey);
      storageFlag := storageFlag[funcName := true];
      actions := Registries.AppendAction(actions, funcName, Action(StorageKind(e), None));
    }

    /** `@onHttpsCall()` */
    method OnHttpsCall(target: Owner, propertyKey: string)
      modifies this
      ensures Snapshot() == HttpsDecorators.OnHttpsCall(old(Snapshot()), compose(target, propertyKey))
    {
      var funcName := compose(target, propertyKey);
      actions := Registries.AppendAction(actions, funcName, Action(Types.OnHttpsCall, None));
    }

    /** `@onHttpsRequest(path?, options?)`; `None` stands for an omitted path. */
    method OnHttpsRequest(target: Owner, propertyKey: string, path: Option<string>, options: Option<RequestOptions>)
      modifies this
      ensures Snapshot() == HttpsDecorators.OnHttpsRequest(old(Snapshot()), compose(target, propertyKey), path, options)
    {
      var funcName := compose(target, propertyKey);
      var p := path.GetOr("/");
      if p == "" {
        p := "/";
      }
      actions := Registries.AppendAction(actions, funcName, Action(Types.OnHttpsRequest, Some(Payload(Some(p), options))));
    }

    /** `@onAuthUserCreate()`, `@onAuthUserDelete()` */
    method OnAuthUser(target: Owner, propertyKey: string, e: AuthEvent)
      modifies this
      ensures Snapshot() == AuthDecorators.OnAuthUser(old(Snapshot()), compose(target, propertyKey), e)
    {
      var funcName := compose(target, propertyKey);
      actions := Registries.AppendAction(actions, funcName, Action(AuthKind(e), None));
    }
  }
}
