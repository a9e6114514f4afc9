/**
 * The family folds of `src/factory/{database,firestore,pubsub,storage}`. Each
 * takes a builder and an optional value; an empty string counts as absent
 * (the source tests the value's truthiness). A fold only ever appends calls
 * to the builder's trace.
 */

/** src/factory/database/index.ts */
module DatabaseFactory {
  import opened Wrappers
  import opened Types
  import opened Sdk

  /** Always descends into `.database`; selects `.instance(n)` only for a non-empty name. */
  function CreateFuncWithDatabaseInstance(b: Builder, instance: Option<string>): (r: Builder)
    ensures |r| > |b| && r[..|b|] == b && r[|b|] == Database
    ensures Truthy(instance) ==> r[|b|..] == [Database, Instance(instance.value)]
    ensures !Truthy(instance) ==> r[|b|..] == [Database]
  {
    if Truthy(instance) then b + [Database, Instance(instance.value)] else b + [Database]
  }
}

/** src/factory/firestore/index.ts */
module FirestoreFactory {
  import opened Wrappers
  import opened Types
  import opened Sdk

  /** Always descends into `.firestore`; selects `.database(d)` only for a non-empty name. */
  function CreateFuncWithFirestoreDatabase(b: Builder, database: Option<string>): (r: Builder)
    ensures |r| > |b| && r[..|b|] == b && r[|b|] == Firestore
    ensures Truthy(database) ==> r[|b|..] == [Firestore, FirestoreDatabase(database.value)]
    ensures !Truthy(database) ==> r[|b|..] == [Firestore]
  {
    if Truthy(database) then b + [Firestore, FirestoreDatabase(database.value)] else b + [Firestore]
  }

  /** Appends `.namespace(n)` for a non-empty name and otherwise passes the builder through. */
  function CreateFuncWithFirestoreNamespace(b: Builder, namespace: Option<string>): (r: Builder)
    ensures Truthy(namespace) ==> r == b + [Namespace(namespace.value)]
    ensures !Truthy(namespace) ==> r == b
  {
    if Truthy(namespace) then b + [Namespace(namespace.value)] else b
  }
}

/** src/factory/pubsub/index.ts */
module PubsubFactory {
  import opened Wrappers
  import opened Types
  import opened Sdk

  /** Appends `.retryConfig(c)` when a configuration is present (an object is always truthy). */
  function CreateFuncWithPubsubRetryConfig(b: Builder, config: Option<ScheduleRetryConfig>): (r: Builder)
    ensures config.Some? ==> r == b + [RetryConfig(config.value)]
    ensures config.None? ==> r == b
  {
    if config.Some? then b + [RetryConfig(config.value)] else b
  }

  /** Always descends into `.pubsub`; selects `.schedule(s)` only for a non-empty schedule. */
  function CreateFuncWithPubsubSchedule(b: Builder, schedule: Option<string>): (r: Builder)
    ensures |r| > |b| && r[..|b|] == b && r[|b|] == Pubsub
    ensures Truthy(schedule) ==> r[|b|..] == [Pubsub, Schedule(schedule.value)]
    ensures !Truthy(schedule) ==> r[|b|..] == [Pubsub]
  {
    if Truthy(schedule) then b + [Pubsub, Schedule(schedule.value)] else b + [Pubsub]
  }

  /** Appends `.timeZone(tz)` for a non-empty zone and otherwise passes the builder through. */
  function CreateFuncWithPubsubTimeZone(b: Builder, timeZone: Option<string>): (r: Builder)
    ensures Truthy(timeZone) ==> r == b + [TimeZone(timeZone.value)]
    ensures !Truthy(timeZone) ==> r == b
  {
    if Truthy(timeZone) then b + [TimeZone(timeZone.value)] else b
  }

  /** Always descends into `.pubsub`; selects `.topic(t)` only for a non-empty topic. */
  function CreateFuncWithPubsubTopic(b: Builder, topic: Option<string>): (r: Builder)
    ensures |r| > |b| && r[..|b|] == b && r[|b|] == Pubsub
    ensures Truthy(topic) ==> r[|b|..] == [Pubsub, Topic(topic.value)]
    ensures !Truthy(topic) ==> r[|b|..] == [Pubsub]
  {
    if Truthy(topic) then b + [Pubsub, Topic(topic.value)] else b + [Pubsub]
  }

  /** Without a value, the schedule fold and the topic fold give the same builder. */
  lemma AbsentScheduleIsAbsentTopic(b: Builder, schedule: Option<string>, topic: Option<string>)
    requires !Truthy(schedule) && !Truthy(topic)
    ensures CreateFuncWithPubsubSchedule(b, schedule) == CreateFuncWithPubsubTopic(b, topic) == b + [Pubsub]
  {
  }
}

/** src/factory/storage/index.ts */
module StorageFactory {
  import opened Wrappers
  import opened Types
  import opened Sdk

  /** Always descends into `.storage`; selects `.bucket(b)` only for a non-empty name. */
  function CreateFuncWithStorageBucket(b: Builder, bucket: Option<string>): (r: Builder)
    ensures |r| > |b| && r[..|b|] == b && r[|b|] == Storage
    ensures Truthy(bucket) ==> r[|b|..] == [Storage, Bucket(bucket.value)]
    ensures !Truthy(bucket) ==> r[|b|..] == [Storage]
  {
    if Truthy(bucket) then b + [Storage, Bucket(bucket.value)] else b + [Storage]
  }
}
