/**
 * The decorators of `src/decorators` as transitions of the registries. Each
 * takes the function identity the decorator computes with
 * `composeFunctionName(target, propertyKey)`. One module per source file.
 */

/** `region` and `runWith` (src/decorators/index.ts). */
module Decorators {
  import opened Types
  import opened Registries

  /** `region(...regions)`: with no region the default region is recorded. */
  function Region(st: State, id: string, regions: seq<string>): (r: State)
    ensures |regions| == 0 ==> Overwritten(st.regions, r.regions, id, [DefaultRegion])
    ensures |regions| > 0 ==> Overwritten(st.regions, r.regions, id, regions)
    ensures r == st.(regions := r.regions)
  {
    var stored := if |regions| == 0 then [DefaultRegion] else regions;
    st.(regions := st.regions[id := stored])
  }

  /** `runWith(runtimeOptions)` */
  function RunWith(st: State, id: string, options: RuntimeOptions): (r: State)
    ensures Overwritten(st.runWith, r.runWith, id, options)
    ensures r == st.(runWith := r.runWith)
  {
    st.(runWith := st.runWith[id := options])
  }
}

/** `instance` and the four `onDatabase*` decorators (src/decorators/database/index.ts). */
module DatabaseDecorators {
  import opened Wrappers
  import opened Types
  import opened Events
  import opened Registries

  /** `instance(instanceName)` */
  function Instance(st: State, id: string, instanceName: string): (r: State)
    ensures Overwritten(st.databaseInstance, r.databaseInstance, id, instanceName)
    ensures r == st.(databaseInstance := r.databaseInstance)
  {
    st.(databaseInstance := st.databaseInstance[id := instanceName])
  }

  /** `onDatabaseCreate/Delete/Update/Write(path)`: set the database flag, append `{type, payload: {path}}`. */
  function OnDatabase(st: State, id: string, e: ChangeEvent, path: string): (r: State)
    ensures Appended(st.actions, r.actions, id, Action(DatabaseKind(e), Some(Payload(Some(path), None))))
    ensures Flag(r.databaseFlag, id)
    ensures r == st.(actions := r.actions, databaseFlag := st.databaseFlag[id := true])
  {
    var entry := Action(DatabaseKind(e), Some(Payload(Some(path), None)));
    st.(databaseFlag := st.databaseFlag[id := true],
        actions := AppendAction(st.actions, id, entry))
  }
}

/** The four `onFirestore*` decorators (src/decorators/firestore/index.ts). */
module FirestoreDecorators {
  import opened Wrappers
  import opened Types
  import opened Events
  import opened Registries

  /** `onFirestoreCreate/Delete/Update/Write(path)`: append `{type, payload: {path}}`, no flag. */
  function OnFirestore(st: State, id: string, e: ChangeEvent, path: string): (r: State)
    ensures Appended(st.actions, r.actions, id, Action(FirestoreKind(e), Some(Payload(Some(path), None))))
    ensures r == st.(actions := r.actions)
  {
    st.(actions := AppendAction(st.actions, id, Action(FirestoreKind(e), Some(Payload(Some(path), None)))))
  }
}

/** The pub/sub modifiers and actions (src/decorators/pubsub/index.ts). */
module PubsubDecorators {
  import opened Wrappers
  import opened Types
  import opened Events
  import opened Registries

  /** `retryConfig(config)` */
  function RetryConfig(st: State, id: string, config: ScheduleRetryConfig): (r: State)
    ensures Overwritten(st.pubsubRetryConfig, r.pubsubRetryConfig, id, config)
    ensures r == st.(pubsubRetryConfig := r.pubsubRetryConfig)
  {
    st.(pubsubRetryConfig := st.pubsubRetryConfig[id := config])
  }

  /** `schedule(scheduleString)` */
  function Schedule(st: State, id: string, schedule: string): (r: State)
    ensures Overwritten(st.pubsubSchedule, r.pubsubSchedule, id, schedule)
    ensures r == st.(pubsubSchedule := r.pubsubSchedule)
  {
    st.(pubsubSchedule := st.pubsubSchedule[id := schedule])
  }

  /** `timeZone(timeZoneName)` */
  function TimeZone(st: State, id: string, timeZone: string): (r: State)
    ensures Overwritten(st.pubsubTimeZone, r.pubsubTimeZone, id, timeZone)
    ensures r == st.(pubsubTimeZone := r.pubsubTimeZone)
  {
    st.(pubsubTimeZone := st.pubsubTimeZone[id := timeZone])
  }

  /** `topic(topicName)` */
  function Topic(st: State, id: string, topic: string): (r: State)
    ensures Overwritten(st.pubsubTopic, r.pubsubTopic, id, topic)
    ensures r == st.(pubsubTopic := r.pubsubTopic)
  {
    st.(pubsubTopic := st.pubsubTopic[id := topic])
  }

  /** `onPubsubPublish()`, `onPubsubRun()`: set the pub/sub flag, append a payload-less entry. */
  function OnPubsub(st: State, id: string, e: PubsubEvent): (r: State)
    ensures Appended(st.actions, r.actions, id, Action(PubsubKind(e), None))
    ensures Flag(r.pubsubFlag, id)
    ensures r == st.(actions := r.actions, pubsubFlag := st.pubsubFlag[id := true])
  {
    st.(pubsubFlag := st.pubsubFlag[id := true],
        actions := AppendAction(st.actions, id, Action(PubsubKind(e), None)))
  }
}

/** `bucket` and the four `onStorageObject*` decorators (src/decorators/storage/index.ts). */
module StorageDecorators {
  import opened Wrappers
  import opened Types
  import opened Events
  import opened Registries

  /** `bucket(bucketName)` */
  function Bucket(st: State, id: string, bucket: string): (r: State)
    ensures Overwritten(st.storageBucket, r.storageBucket, id, bucket)
    ensures r == st.(storageBucket := r.storageBucket)
  {
    st.(storageBucket := st.storageBucket[id := bucket])
  }

  /** `onStorageObjectArchive/Delete/Finalize/MetadataUpdate()`: set the storage flag, append a payload-less entry. */
  function OnStorageObject(st: State, id: string, e: StorageEvent): (r: State)
    ensures Appended(st.actions, r.actions, id, Action(StorageKind(e), None))
    ensures Flag(r.storageFlag, id)
    ensures r == st.(actions := r.actions, storageFlag := st.storageFlag[id := true])
  {
    st.(storageFlag := st.storageFlag[id := true],
        actions := AppendAction(st.actions, id, Action(StorageKind(e), None)))
  }
}

/** `onHttpsCall` and `onHttpsRequest` (src/decorators/https/index.ts). */
module HttpsDecorators {
  import opened Wrappers
  import opened Types
  import opened Registries

  /** `onHttpsCall()`: append `{type: 'onHttpsCall'}`, no flag. */
  function OnHttpsCall(st: State, id: string): (r: State)
    ensures Appended(st.actions, r.actions, id, Action(Types.OnHttpsCall, None))
    ensures r == st.(actions := r.actions)
  {
    st.(actions := AppendAction(st.actions, id, Action(Types.OnHttpsCall, None)))
  }

  /**
   * `onHttpsRequest(path = '/', options?)`: `None` is the omitted path, which
   * defaults to '/'; an empty path is replaced by '/' too (`path || '/'`).
   */
  function OnHttpsRequest(st: State, id: string, path: Option<string>, options: Option<RequestOptions>): (r: State)
    ensures !Truthy(path) ==>
      Appended(st.actions, r.actions, id, Action(Types.OnHttpsRequest, Some(Payload(Some("/"), options))))
    ensures Truthy(path) ==>
      Appended(st.actions, r.actions, id, Action(Types.OnHttpsRequest, Some(Payload(path, options))))
    ensures r == st.(actions := r.actions)
  {
    var recorded := if path.Some? && path.value != "" then path.value else "/";
    st.(actions := AppendAction(st.actions, id, Action(Types.OnHttpsRequest, Some(Payload(Some(recorded), options)))))
  }
}

/** `onAuthUserCreate` and `onAuthUserDelete` (src/decorators/auth/index.ts). */
module AuthDecorators {
  import opened Wrappers
  import opened Types
  import opened Events
  import opened Registries

  /** `onAuthUserCreate()`, `onAuthUserDelete()`: append a payload-less entry, no flag. */
  function OnAuthUser(st: State, id: string, e: AuthEvent): (r: State)
    ensures Appended(st.actions, r.actions, id, Action(AuthKind(e), None))
    ensures r == st.(actions := r.actions)
  {
    st.(actions := AppendAction(st.actions, id, Action(AuthKind(e), None)))
  }
}
