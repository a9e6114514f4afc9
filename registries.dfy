/**
 * The contents of all module-level dictionaries the decorators write, keyed by
 * function identity, as one value. `Registry.Registry` holds the same
 * dictionaries as mutable fields; its `Snapshot()` is this value.
 */
module Registries {
  import opened Wrappers
  import opened Types

  datatype State = State(
    actions: map<string, seq<Action>>,                    // funcActionMap
    regions: map<string, seq<string>>,                    // funcRegionsMap
    runWith: map<string, RuntimeOptions>,                 // funcRunWithMap
    databaseFlag: map<string, bool>,                      // funcDatabaseMap
    databaseInstance: map<string, string>,                // funcDatabaseInstanceMap
    firestoreFlag: map<string, bool>,                     // funcFirestoreMap
    firestoreDatabase: map<string, string>,               // funcFirestoreDatabaseMap
    firestoreNamespace: map<string, string>,              // funcFirestoreNamespaceMap
    pubsubFlag: map<string, bool>,                        // funcPubsubMap
    pubsubRetryConfig: map<string, ScheduleRetryConfig>,  // funcPubsubRetryconfMap
    pubsubSchedule: map<string, string>,                  // funcPubsubScheduleMap
    pubsubTimeZone: map<string, string>,                  // funcPubsubTimezoneMap
    pubsubTopic: map<string, string>,                     // funcPubsubTopicMap
    storageFlag: map<string, bool>,                       // funcStorageMap
    storageBucket: map<string, string>)                   // funcStorageBucketMap

  /** Every dictionary starts empty at process start. */
  const Empty := State(map[], map[], map[], map[], map[], map[], map[], map[],
                       map[], map[], map[], map[], map[], map[], map[])

  /** `funcActionMap[id] || []`: a missing list reads as the empty list. */
  function ActionsOf(m: map<string, seq<Action>>, id: string): (r: seq<Action>)
    ensures id !in m ==> r == []
    ensures id in m ==> r == m[id]
  {
    if id in m then m[id] else []
  }

  /** `if (funcXMap[id])`: a presence flag that is set and true. */
  predicate Flag(m: map<string, bool>, id: string)
  {
    id in m && m[id]
  }

  /**
   * `after` is `before` with `a` appended at the end of the list of `id`
   * (a missing list taken as empty) and every other list left as it was.
   */
  ghost predicate Appended(before: map<string, seq<Action>>, after: map<string, seq<Action>>,
                           id: string, a: Action)
  {
    && after.Keys == before.Keys + {id}
    && after[id] == ActionsOf(before, id) + [a]
    && forall k :: k in before && k != id ==> after[k] == before[k]
  }

  /** `after` is `before` with the value of `id` set to `v` and every other entry left as it was. */
  ghost predicate Overwritten<V>(before: map<string, V>, after: map<string, V>, id: string, v: V)
  {
    && after.Keys == before.Keys + {id}
    && after[id] == v
    && forall k :: k in before && k != id ==> after[k] == before[k]
  }

  /** `funcActionMap[id] = [...(funcActionMap[id] || []), a]` */
  function AppendAction(m: map<string, seq<Action>>, id: string, a: Action): (r: map<string, seq<Action>>)
    ensures Appended(m, r, id, a)
    ensures |r[id]| == |ActionsOf(m, id)| + 1 && r[id][|r[id]| - 1] == a
    ensures forall j :: 0 <= j < |ActionsOf(m, id)| ==> r[id][j] == ActionsOf(m, id)[j]
  {
    m[id := ActionsOf(m, id) + [a]]
  }
}
