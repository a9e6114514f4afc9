/**
 * src/index.ts: the composition driver `func`. For each recorded action of a
 * function it starts again from the SDK root, folds the function's modifiers in
 * a fixed order (region, runtime options, then the database, firestore,
 * pub/sub and storage families when their flag is set), binds the action last,
 * and stores the result in `cloudFuncs` under the action's key.
 */
module Composer {
  import opened Wrappers
  import opened Types
  import opened Sdk
  import opened Registries
  import opened OutputKeys
  import Factory
  import DatabaseFactory
  import FirestoreFactory
  import PubsubFactory
  import StorageFactory
  import Registry
  import Events

  // ---------------------------------------------------------------- the modifier folds

  /** The builder after the region and runtime-options folds. */
  function BaseFold(st: State, id: string): Builder
  {
    Factory.CreateFuncWithRunWith(
      Factory.CreateFuncWithRegion(Functions, Wrappers.Get(st.regions, id)),
      Wrappers.Get(st.runWith, id))
  }

  /** The database fold, run only when the function's database flag is set. */
  function DatabaseFold(st: State, id: string, b: Builder): Builder
  {
    if Flag(st.databaseFlag, id)
    then DatabaseFactory.CreateFuncWithDatabaseInstance(b, Wrappers.Get(st.databaseInstance, id))
    else b
  }

  /** The firestore folds (database, then namespace), run only when the firestore flag is set. */
  function FirestoreFold(st: State, id: string, b: Builder): Builder
  {
    if Flag(st.firestoreFlag, id)
    then FirestoreFactory.CreateFuncWithFirestoreNamespace(
           FirestoreFactory.CreateFuncWithFirestoreDatabase(b, Wrappers.Get(st.firestoreDatabase, id)),
           Wrappers.Get(st.firestoreNamespace, id))
    else b
  }

  /** The schedule fold for a non-empty schedule, otherwise the topic fold. */
  function PubsubChoice(st: State, id: string, b: Builder): Builder
  {
    if Truthy(Wrappers.Get(st.pubsubSchedule, id))
    then PubsubFactory.CreateFuncWithPubsubSchedule(b, Wrappers.Get(st.pubsubSchedule, id))
    else PubsubFactory.CreateFuncWithPubsubTopic(b, Wrappers.Get(st.pubsubTopic, id))
  }

  /** The pub/sub folds (schedule or topic, retry configuration, time zone), run only when the pub/sub flag is set. */
  function PubsubFold(st: State, id: string, b: Builder): Builder
  {
    if Flag(st.pubsubFlag, id)
    then PubsubFactory.CreateFuncWithPubsubTimeZone(
           PubsubFactory.CreateFuncWithPubsubRetryConfig(PubsubChoice(st, id, b), Wrappers.Get(st.pubsubRetryConfig, id)),
           Wrappers.Get(st.pubsubTimeZone, id))
    else b
  }

  /** The storage fold, run only when the function's storage flag is set. */
  function StorageFold(st: State, id: string, b: Builder): Builder
  {
    if Flag(st.storageFlag, id)
    then StorageFactory.CreateFuncWithStorageBucket(b, Wrappers.Get(st.storageBucket, id))
    else b
  }

  /** The builder `func` has before it binds an action of `id`: the folds in source order. */
  function ModifierTrace(st: State, id: string): Builder
  {
    StorageFold(st, id, PubsubFold(st, id, FirestoreFold(st, id, DatabaseFold(st, id, BaseFold(st, id)))))
  }

  // The segment each fold contributes, written out call by call.

  function RegionSegment(st: State, id: string): seq<Step>
  {
    if id in st.regions then [Region(st.regions[id])] else []
  }

  function RunWithSegment(st: State, id: string): seq<Step>
  {
    if id in st.runWith then [RunWith(st.runWith[id])] else []
  }

  function DatabaseSegment(st: State, id: string): seq<Step>
  {
    if !Flag(st.databaseFlag, id) then []
    else [Database] + (if Truthy(Wrappers.Get(st.databaseInstance, id)) then [Instance(st.databaseInstance[id])] else [])
  }

  function FirestoreSegment(st: State, id: string): seq<Step>
  {
    if !Flag(st.firestoreFlag, id) then [] else
      [Firestore]
      + (if Truthy(Wrappers.Get(st.firestoreDatabase, id)) then [FirestoreDatabase(st.firestoreDatabase[id])] else [])
      + (if Truthy(Wrappers.Get(st.firestoreNamespace, id)) then [Namespace(st.firestoreNamespace[id])] else [])
  }

  function PubsubSegment(st: State, id: string): seq<Step>
  {
    if !Flag(st.pubsubFlag, id) then [] else
      [Pubsub]
      + (if Truthy(Wrappers.Get(st.pubsubSchedule, id)) then [Schedule(st.pubsubSchedule[id])]
         else if Truthy(Wrappers.Get(st.pubsubTopic, id)) then [Topic(st.pubsubTopic[id])]
         else [])
      + (if id in st.pubsubRetryConfig then [RetryConfig(st.pubsubRetryConfig[id])] else [])
      + (if Truthy(Wrappers.Get(st.pubsubTimeZone, id)) then [TimeZone(st.pubsubTimeZone[id])] else [])
  }

  function StorageSegment(st: State, id: string): seq<Step>
  {
    if !Flag(st.storageFlag, id) then []
    else [Storage] + (if Truthy(Wrappers.Get(st.storageBucket, id)) then [Bucket(st.storageBucket[id])] else [])
  }

  lemma BaseFoldCalls(st: State, id: string)
    ensures BaseFold(st, id) == RegionSegment(st, id) + RunWithSegment(st, id)
  {
  }

  lemma DatabaseFoldCalls(st: State, id: string, b: Builder)
    ensures DatabaseFold(st, id, b) == b + DatabaseSegment(st, id)
  {
  }

  lemma FirestoreFoldCalls(st: State, id: string, b: Builder)
    ensures FirestoreFold(st, id, b) == b + FirestoreSegment(st, id)
  {
  }

  lemma PubsubFoldCalls(st: State, id: string, b: Builder)
    ensures PubsubFold(st, id, b) == b + PubsubSegment(st, id)
  {
  }

  lemma StorageFoldCalls(st: State, id: string, b: Builder)
    ensures StorageFold(st, id, b) == b + StorageSegment(st, id)
  {
  }

  /** The segments in the order `func` folds them. */
  function Segments(st: State, id: string): seq<Step>
  {
    RegionSegment(st, id) + RunWithSegment(st, id) + DatabaseSegment(st, id)
    + FirestoreSegment(st, id) + PubsubSegment(st, id) + StorageSegment(st, id)
  }

  /**
   * The fold order: region, runtime options, database, firestore, pub/sub
   * (schedule or topic, then retry configuration, then time zone), storage.
   */
  lemma FoldOrder(st: State, id: string)
    ensures ModifierTrace(st, id) == Segments(st, id)
  {
    var b2 := BaseFold(st, id);
    var b3 := DatabaseFold(st, id, b2);
    var b4 := FirestoreFold(st, id, b3);
    var b5 := PubsubFold(st, id, b4);
    BaseFoldCalls(st, id);
    DatabaseFoldCalls(st, id, b2);
    FirestoreFoldCalls(st, id, b3);
    PubsubFoldCalls(st, id, b4);
    StorageFoldCalls(st, id, b5);
  }

  lemma DatabaseInSegments(st: State, id: string)
    ensures Database in Segments(st, id) <==> Flag(st.databaseFlag, id)
  {
    assert Database !in RegionSegment(st, id) + RunWithSegment(st, id);
    assert Database !in FirestoreSegment(st, id);
    assert Database !in PubsubSegment(st, id);
    assert Database !in StorageSegment(st, id);
  }

  lemma FirestoreInSegments(st: State, id: string)
    ensures Firestore in Segments(st, id) <==> Flag(st.firestoreFlag, id)
  {
    assert Firestore !in RegionSegment(st, id) + RunWithSegment(st, id);
    assert Firestore !in DatabaseSegment(st, id);
    assert Firestore !in PubsubSegment(st, id);
    assert Firestore !in StorageSegment(st, id);
  }

  lemma PubsubInSegments(st: State, id: string)
    ensures Pubsub in Segments(st, id) <==> Flag(st.pubsubFlag, id)
  {
    assert Pubsub !in RegionSegment(st, id) + RunWithSegment(st, id);
    assert Pubsub !in DatabaseSegment(st, id);
    assert Pubsub !in FirestoreSegment(st, id);
    assert Pubsub !in StorageSegment(st, id);
  }

  lemma StorageInSegments(st: State, id: string)
    ensures Storage in Segments(st, id) <==> Flag(st.storageFlag, id)
  {
    assert Storage !in RegionSegment(st, id) + RunWithSegment(st, id);
    assert Storage !in DatabaseSegment(st, id);
    assert Storage !in FirestoreSegment(st, id);
    assert Storage !in PubsubSegment(st, id);
  }

  /** A family's sub-builder is entered exactly when the function's flag for that family is set. */
  lemma FamilyGating(st: State, id: string)
    ensures Database in ModifierTrace(st, id) <==> Flag(st.databaseFlag, id)
    ensures Firestore in ModifierTrace(st, id) <==> Flag(st.firestoreFlag, id)
    ensures Pubsub in ModifierTrace(st, id) <==> Flag(st.pubsubFlag, id)
    ensures Storage in ModifierTrace(st, id) <==> Flag(st.storageFlag, id)
  {
    FoldOrder(st, id);
    DatabaseInSegments(st, id);
    FirestoreInSegments(st, id);
    PubsubInSegments(st, id);
    StorageInSegments(st, id);
  }

  /** The region list, when one is recorded, is the first call on the SDK root. */
  lemma RegionFoldedFirst(st: State, id: string)
    requires id in st.regions
    ensures |ModifierTrace(st, id)| >= 1 && ModifierTrace(st, id)[0] == Region(st.regions[id])
  {
    FoldOrder(st, id);
  }

  /** Only the pub/sub segment selects a schedule or a topic. */
  lemma ScheduleAndTopicArePubsub(st: State, id: string, x: Step)
    requires x.Schedule? || x.Topic?
    ensures x in Segments(st, id) <==> x in PubsubSegment(st, id)
  {
  }

  /**
   * A recorded non-empty schedule takes precedence: the schedule is selected and
   * no topic is, whatever topic is recorded.
   */
  lemma ScheduledSegments(st: State, id: string)
    requires Flag(st.pubsubFlag, id) && Truthy(Wrappers.Get(st.pubsubSchedule, id))
    ensures Schedule(st.pubsubSchedule[id]) in Segments(st, id)
    ensures forall t :: Topic(t) !in Segments(st, id)
  {
    ScheduleAndTopicArePubsub(st, id, Schedule(st.pubsubSchedule[id]));
    forall t ensures Topic(t) !in Segments(st, id) {
      ScheduleAndTopicArePubsub(st, id, Topic(t));
    }
  }

  lemma SchedulePrecedesTopic(st: State, id: string)
    requires Flag(st.pubsubFlag, id) && Truthy(Wrappers.Get(st.pubsubSchedule, id))
    ensures Schedule(st.pubsubSchedule[id]) in ModifierTrace(st, id)
    ensures forall t :: Topic(t) !in ModifierTrace(st, id)
  {
    FoldOrder(st, id);
    ScheduledSegments(st, id);
  }

  lemma UnscheduledPubsub(st: State, id: string)
    requires Flag(st.pubsubFlag, id) && !Truthy(Wrappers.Get(st.pubsubSchedule, id))
    ensures Truthy(Wrappers.Get(st.pubsubTopic, id)) ==> Topic(st.pubsubTopic[id]) in PubsubSegment(st, id)
    ensures forall c :: Schedule(c) !in PubsubSegment(st, id)
  {
  }

  lemma UnscheduledSegments(st: State, id: string)
    requires Flag(st.pubsubFlag, id) && !Truthy(Wrappers.Get(st.pubsubSchedule, id))
    ensures Truthy(Wrappers.Get(st.pubsubTopic, id)) ==> Topic(st.pubsubTopic[id]) in Segments(st, id)
    ensures forall c :: Schedule(c) !in Segments(st, id)
  {
    UnscheduledPubsub(st, id);
    if Truthy(Wrappers.Get(st.pubsubTopic, id)) {
      ScheduleAndTopicArePubsub(st, id, Topic(st.pubsubTopic[id]));
    }
    forall c ensures Schedule(c) !in Segments(st, id) {
      ScheduleAndTopicArePubsub(st, id, Schedule(c));
    }
  }

  /** Without a non-empty schedule, the topic fold runs: a non-empty topic is selected and no schedule is. */
  lemma TopicWithoutSchedule(st: State, id: string)
    requires Flag(st.pubsubFlag, id) && !Truthy(Wrappers.Get(st.pubsubSchedule, id))
    ensures Truthy(Wrappers.Get(st.pubsubTopic, id)) ==> Topic(st.pubsubTopic[id]) in ModifierTrace(st, id)
    ensures forall c :: Schedule(c) !in ModifierTrace(st, id)
  {
    FoldOrder(st, id);
    UnscheduledSegments(st, id);
  }

  /** No step of `s` binds a trigger. */
  ghost predicate Inert(s: seq<Step>)
  {
    forall x :: x in s ==> !x.IsTerminal()
  }

  lemma InertConcat(a: seq<Step>, b: seq<Step>)
    requires Inert(a) && Inert(b)
    ensures Inert(a + b)
  {
  }

  lemma PubsubSegmentInert(st: State, id: string)
    ensures Inert(PubsubSegment(st, id))
  {
  }

  lemma SegmentsBindNothing(st: State, id: string)
    ensures Inert(Segments(st, id))
  {
    var a := RegionSegment(st, id) + RunWithSegment(st, id);
    var b := a + DatabaseSegment(st, id);
    var c := b + FirestoreSegment(st, id);
    var d := c + PubsubSegment(st, id);
    assert Inert(RegionSegment(st, id)) && Inert(RunWithSegment(st, id));
    InertConcat(RegionSegment(st, id), RunWithSegment(st, id));
    assert Inert(DatabaseSegment(st, id));
    InertConcat(a, DatabaseSegment(st, id));
    assert Inert(FirestoreSegment(st, id));
    InertConcat(b, FirestoreSegment(st, id));
    PubsubSegmentInert(st, id);
    InertConcat(c, PubsubSegment(st, id));
    assert Inert(StorageSegment(st, id));
    InertConcat(d, StorageSegment(st, id));
  }

  /** No modifier fold binds a trigger. */
  lemma ModifiersBindNothing(st: State, id: string)
    ensures forall x :: x in ModifierTrace(st, id) ==> !x.IsTerminal()
  {
    FoldOrder(st, id);
    SegmentsBindNothing(st, id);
    assert Inert(ModifierTrace(st, id));
  }

  // ---------------------------------------------------------------- one trigger definition

  /** Every middleware class action `a` uses has an entry in the cache. */
  ghost predicate Covers(entries: map<string, MiddlewareInstance>, a: Action)
  {
    forall k :: 0 <= k < |Factory.MiddlewareUsed(a)| ==> Factory.MiddlewareUsed(a)[k].name in entries
  }

  /** The definition of action `a` composed on top of the modifier folds `trace`, with the middleware instances of `entries`. */
  function Definition(trace: Builder, a: Action, h: Handler, entries: map<string, MiddlewareInstance>): Builder
    requires Covers(entries, a)
  {
    trace + Factory.ActionSteps(a, h, Factory.Instances(Factory.MiddlewareUsed(a), entries))
  }

  /** The trigger definition `func` composes for action `a` of `id`. */
  function Entry(st: State, id: string, a: Action, h: Handler, entries: map<string, MiddlewareInstance>): Builder
    requires Covers(entries, a)
  {
    Definition(ModifierTrace(st, id), a, h, entries)
  }

  /**
   * Gating is per function: whatever the action, its definition starts with the
   * same modifier folds, and the action's binding comes after all of them.
   */
  lemma GatingIsPerFunction(st: State, id: string, a1: Action, a2: Action, h: Handler,
                            entries: map<string, MiddlewareInstance>)
    requires Covers(entries, a1) && Covers(entries, a2)
    ensures var m := |ModifierTrace(st, id)|;
      && |Entry(st, id, a1, h, entries)| > m && |Entry(st, id, a2, h, entries)| > m
      && Entry(st, id, a1, h, entries)[..m] == Entry(st, id, a2, h, entries)[..m] == ModifierTrace(st, id)
      && forall k :: 0 <= k < m ==> !Entry(st, id, a1, h, entries)[k].IsTerminal()
  {
    var m := ModifierTrace(st, id);
    ModifiersBindNothing(st, id);
    forall k | 0 <= k < |m| ensures !Entry(st, id, a1, h, entries)[k].IsTerminal() {
      assert Entry(st, id, a1, h, entries)[k] == m[k];
    }
    assert Entry(st, id, a1, h, entries)[..|m|] == m;
    assert Entry(st, id, a2, h, entries)[..|m|] == m;
  }

  /**
   * A database action of a function with a recorded region: the region is
   * folded first and the `ref(path)` of the action comes after every modifier.
   */
  lemma RegionBeforeRef(st: State, id: string, e: Events.ChangeEvent, path: string, h: Handler,
                        entries: map<string, MiddlewareInstance>)
    requires id in st.regions
    ensures var a := Action(Events.DatabaseKind(e), Some(Payload(Some(path), None)));
            var t := Entry(st, id, a, h, entries);
      && |t| == |ModifierTrace(st, id)| + 2
      && t[0] == Region(st.regions[id])
      && t[|t| - 2] == Ref(Some(path))
      && t[|t| - 1] == Bind(Factory.ChangeBinding(e), h)
  {
    var a := Action(Events.DatabaseKind(e), Some(Payload(Some(path), None)));
    RegionFoldedFirst(st, id);
    Factory.DatabaseEntryBinding(e, path, h, Factory.Instances(Factory.MiddlewareUsed(a), entries));
  }

  /** A definition depends on the cache only through the entries it uses, which a cache update keeps. */
  lemma DefinitionStable(trace: Builder, a: Action, h: Handler,
                         before: map<string, MiddlewareInstance>, after: map<string, MiddlewareInstance>)
    requires Covers(before, a)
    requires forall n :: n in before ==> n in after && after[n] == before[n]
    ensures Covers(after, a)
    ensures Definition(trace, a, h, before) == Definition(trace, a, h, after)
  {
    Factory.InstancesStable(Factory.MiddlewareUsed(a), before, after);
  }

  // ---------------------------------------------------------------- the output map

  /** The keys `func` writes for the actions `acts` of `id`, in order. */
  function ActionKeys(id: string, acts: seq<Action>): seq<string>
  {
    seq(|acts|, i requires 0 <= i < |acts| => OutputKey(id, |acts|, i, acts[i].kind))
  }

  predicate Distinct(keys: seq<string>)
  {
    forall i, j :: 0 <= i < j < |keys| ==> keys[i] != keys[j]
  }

  /** The keys of one function's actions are pairwise distinct. */
  lemma ActionKeysDistinct(id: string, acts: seq<Action>)
    ensures Distinct(ActionKeys(id, acts))
  {
    var keys := ActionKeys(id, acts);
    forall i, j | 0 <= i < j < |keys| ensures keys[i] != keys[j] {
      KeyDeterminesAction(id, |acts|, i, j, acts[i].kind, acts[j].kind);
    }
  }

  /** The first `n` keys, as a set. */
  function KeysBelow(keys: seq<string>, n: nat): set<string>
    requires n <= |keys|
  {
    if n == 0 then {} else KeysBelow(keys, n - 1) + {keys[n - 1]}
  }

  lemma {:induction false} KeysBelowMembers(keys: seq<string>, n: nat)
    requires n <= |keys|
    ensures forall i :: 0 <= i < n ==> keys[i] in KeysBelow(keys, n)
    ensures forall k :: k in KeysBelow(keys, n) ==> exists i :: 0 <= i < n && keys[i] == k
  {
    if n > 0 {
      KeysBelowMembers(keys, n - 1);
    }
  }

  lemma {:induction false} DistinctKeysCount(keys: seq<string>, n: nat)
    requires n <= |keys| && Distinct(keys)
    ensures |KeysBelow(keys, n)| == n
  {
    if n > 0 {
      DistinctKeysCount(keys, n - 1);
      KeysBelowMembers(keys, n - 1);
      assert keys[n - 1] !in KeysBelow(keys, n - 1);
    }
  }

  /** One key per action: `func` writes exactly as many entries as the function has actions. */
  lemma OneKeyPerAction(id: string, acts: seq<Action>)
    ensures |KeysBelow(ActionKeys(id, acts), |acts|)| == |acts|
  {
    ActionKeysDistinct(id, acts);
    DistinctKeysCount(ActionKeys(id, acts), |acts|);
  }

  /** Every middleware class the first `n` actions of `acts` use has an instance in `entries`. */
  ghost predicate CoveredBelow(entries: map<string, MiddlewareInstance>, acts: seq<Action>, n: nat)
    requires n <= |acts|
  {
    forall i :: 0 <= i < n ==> Covers(entries, acts[i])
  }

  /** `defs` are the definitions of the first `|defs|` actions of `acts`, composed on top of `trace`, in order. */
  ghost predicate Defines(defs: seq<Builder>, trace: Builder, acts: seq<Action>, h: Handler,
                          entries: map<string, MiddlewareInstance>)
    requires |defs| <= |acts|
  {
    && CoveredBelow(entries, acts, |defs|)
    && forall i :: 0 <= i < |defs| ==> defs[i] == Definition(trace, acts[i], h, entries)
  }

  /**
   * One more action, composed on top of the modifier folds with the cache grown
   * by that action's middleware, extends the definitions by its own; the
   * earlier ones stay the same with the grown cache.
   */
  lemma DefinesStep(defs: seq<Builder>, trace: Builder, acts: seq<Action>, h: Handler,
                    e0: map<string, MiddlewareInstance>, e1: map<string, MiddlewareInstance>, v: Builder)
    requires |defs| < |acts| && Defines(defs, trace, acts, h, e0)
    requires Factory.Memoized(e0, e1, Factory.MiddlewareUsed(acts[|defs|]))
    requires v == trace + Factory.ActionSteps(acts[|defs|], h, Factory.Instances(Factory.MiddlewareUsed(acts[|defs|]), e1))
    ensures Defines(defs + [v], trace, acts, h, e1)
  {
    var n := |defs|;
    forall i | 0 <= i < n
      ensures Covers(e1, acts[i]) && (defs + [v])[i] == Definition(trace, acts[i], h, e1)
    {
      DefinitionStable(trace, acts[i], h, e0, e1);
    }
    assert Covers(e1, acts[n]) && v == Definition(trace, acts[n], h, e1);
  }

  /**
   * `after` is `before` with `defs[i]` written under `keys[i]` for the first `n`
   * keys and every other key left as it was.
   */
  ghost predicate Stored(before: map<string, Builder>, after: map<string, Builder>,
                         keys: seq<string>, defs: seq<Builder>, n: nat)
    requires n <= |keys| && n <= |defs|
  {
    && after.Keys == before.Keys + KeysBelow(keys, n)
    && (forall i :: 0 <= i < n ==> keys[i] in after && after[keys[i]] == defs[i])
    && (forall k :: k in before && k !in KeysBelow(keys, n) ==> after[k] == before[k])
  }

  /** The trigger definitions of all actions of `acts` of `id`, in order. */
  function Entries(st: State, id: string, acts: seq<Action>, h: Handler,
                   entries: map<string, MiddlewareInstance>): seq<Builder>
    requires CoveredBelow(entries, acts, |acts|)
  {
    seq(|acts|, i requires 0 <= i < |acts| => Entry(st, id, acts[i], h, entries))
  }

  /** The definitions do not change when the cache grows. */
  lemma EntriesGrow(st: State, id: string, acts: seq<Action>, h: Handler,
                    e1: map<string, MiddlewareInstance>, e2: map<string, MiddlewareInstance>)
    requires CoveredBelow(e1, acts, |acts|)
    requires forall m :: m in e1 ==> m in e2 && e2[m] == e1[m]
    ensures CoveredBelow(e2, acts, |acts|)
    ensures Entries(st, id, acts, h, e2) == Entries(st, id, acts, h, e1)
  {
    forall i | 0 <= i < |acts|
      ensures Covers(e2, acts[i]) && Entry(st, id, acts[i], h, e2) == Entry(st, id, acts[i], h, e1)
    {
      DefinitionStable(ModifierTrace(st, id), acts[i], h, e1, e2);
    }
  }

  /** The definitions the loop collects on top of the function's modifier folds are its trigger definitions. */
  lemma DefinesEntries(defs: seq<Builder>, st: State, id: string, acts: seq<Action>, h: Handler,
                       entries: map<string, MiddlewareInstance>)
    requires |defs| == |acts| && Defines(defs, ModifierTrace(st, id), acts, h, entries)
    ensures defs == Entries(st, id, acts, h, entries)
  {
  }

  /**
   * `after` is `before` with the definition of every action of `id` written
   * under that action's key and every other key left as it was.
   */
  ghost predicate Composed(before: map<string, Builder>, after: map<string, Builder>, st: State, id: string,
                           h: Handler, entries: map<string, MiddlewareInstance>)
    requires id in st.actions
  {
    var acts := st.actions[id];
    && CoveredBelow(entries, acts, |acts|)
    && Stored(before, after, ActionKeys(id, acts), Entries(st, id, acts, h, entries), |acts|)
  }

  /** The middleware classes the actions `acts` look up, action by action, in order. */
  function MiddlewareOf(acts: seq<Action>): seq<MiddlewareClass>
  {
    if acts == [] then [] else MiddlewareOf(acts[..|acts| - 1]) + Factory.MiddlewareUsed(acts[|acts| - 1])
  }

  /** Every class in `MiddlewareOf(acts)` belongs to the options of one of the `onHttpsRequest` actions of `acts`. */
  lemma {:induction false} MiddlewareOfRequests(acts: seq<Action>)
    ensures forall c :: c in MiddlewareOf(acts) ==>
      exists i :: 0 <= i < |acts| && acts[i].kind == OnHttpsRequest && c in Factory.MiddlewareUsed(acts[i])
  {
    if acts != [] {
      var init := acts[..|acts| - 1];
      MiddlewareOfRequests(init);
      forall c | c in MiddlewareOf(acts)
        ensures exists i :: 0 <= i < |acts| && acts[i].kind == OnHttpsRequest && c in Factory.MiddlewareUsed(acts[i])
      {
        if c in MiddlewareOf(init) {
          var i :| 0 <= i < |init| && init[i].kind == OnHttpsRequest && c in Factory.MiddlewareUsed(init[i]);
          assert acts[i] == init[i];
        } else {
          assert c in Factory.MiddlewareUsed(acts[|acts| - 1]);
        }
      }
    }
  }

  /** One iteration of `func`'s loop extends the memoized cache by the next action's middleware. */
  lemma CacheStep(e0: map<string, MiddlewareInstance>, e1: map<string, MiddlewareInstance>,
                  e2: map<string, MiddlewareInstance>, acts: seq<Action>, index: nat)
    requires index < |acts|
    requires Factory.Memoized(e0, e1, MiddlewareOf(acts[..index]))
    requires Factory.Memoized(e1, e2, Factory.MiddlewareUsed(acts[index]))
    ensures Factory.Memoized(e0, e2, MiddlewareOf(acts[..index + 1]))
  {
    assert acts[..index + 1][..index] == acts[..index];
    Factory.MemoizedConcat(e0, e1, e2, MiddlewareOf(acts[..index]), Factory.MiddlewareUsed(acts[index]));
  }

  /** When the loop ends, every action's definition is stored under its key. */
  lemma StoredComposed(before: map<string, Builder>, after: map<string, Builder>, st: State, id: string,
                       h: Handler, entries: map<string, MiddlewareInstance>, defs: seq<Builder>)
    requires id in st.actions && |defs| == |st.actions[id]|
    requires Defines(defs, ModifierTrace(st, id), st.actions[id], h, entries)
    requires Stored(before, after, ActionKeys(id, st.actions[id]), defs, |defs|)
    ensures Composed(before, after, st, id, h, entries)
  {
  }

  /** Writing the same definitions under the same keys a second time changes nothing. */
  lemma StoredTwice(before: map<string, Builder>, mid: map<string, Builder>, after: map<string, Builder>,
                    keys: seq<string>, defs: seq<Builder>)
    requires |defs| == |keys|
    requires Stored(before, mid, keys, defs, |keys|)
    requires Stored(mid, after, keys, defs, |keys|)
    ensures after == mid
  {
    KeysBelowMembers(keys, |keys|);
    forall k | k in mid ensures after[k] == mid[k] {
      if k in KeysBelow(keys, |keys|) {
        var i :| 0 <= i < |keys| && keys[i] == k;
      }
    }
  }

  /** One iteration of `func`'s loop: the next definition is stored under its own key and the earlier ones survive. */
  lemma StoredStep(before: map<string, Builder>, current: map<string, Builder>,
                   keys: seq<string>, defs: seq<Builder>, v: Builder)
    requires |defs| < |keys| && Distinct(keys)
    requires Stored(before, current, keys, defs, |defs|)
    ensures Stored(before, current[keys[|defs|] := v], keys, defs + [v], |defs| + 1)
  {
  }

  /**
   * Composing the same function a second time, with a cache that has only
   * grown, rewrites every key with the definition it already holds: the
   * output map is unchanged.
   */
  lemma ComposeIdempotent(before: map<string, Builder>, mid: map<string, Builder>, after: map<string, Builder>,
                          st: State, id: string, h: Handler,
                          e1: map<string, MiddlewareInstance>, e2: map<string, MiddlewareInstance>)
    requires id in st.actions
    requires Composed(before, mid, st, id, h, e1)
    requires Composed(mid, after, st, id, h, e2)
    requires forall n :: n in e1 ==> n in e2 && e2[n] == e1[n]
    ensures after == mid
  {
    var acts := st.actions[id];
    EntriesGrow(st, id, acts, h, e1, e2);
    StoredTwice(before, mid, after, ActionKeys(id, acts), Entries(st, id, acts, h, e1));
  }

  /**
   * The modifier folds of one iteration of `func`'s loop: a fresh builder from
   * the SDK root with the function's recorded modifiers applied in order.
   */
  method FoldModifiers(reg: Registry.Registry, funcName: string) returns (cloudFunc: Builder)
    ensures cloudFunc == ModifierTrace(reg.Snapshot(), funcName)
  {
    cloudFunc := Functions;
    cloudFunc := Factory.CreateFuncWithRegion(cloudFunc, Wrappers.Get(reg.regions, funcName));
    cloudFunc := Factory.CreateFuncWithRunWith(cloudFunc, Wrappers.Get(reg.runWith, funcName));
    assert cloudFunc == BaseFold(reg.Snapshot(), funcName);
    ghost var folded := cloudFunc;
    if Flag(reg.databaseFlag, funcName) {
      cloudFunc := DatabaseFactory.CreateFuncWithDatabaseInstance(cloudFunc, Wrappers.Get(reg.databaseInstance, funcName));
    }
    assert cloudFunc == DatabaseFold(reg.Snapshot(), funcName, folded);
    folded := cloudFunc;
    if Flag(reg.firestoreFlag, funcName) {
      cloudFunc := FirestoreFactory.CreateFuncWithFirestoreDatabase(cloudFunc, Wrappers.Get(reg.firestoreDatabase, funcName));
      cloudFunc := FirestoreFactory.CreateFuncWithFirestoreNamespace(cloudFunc, Wrappers.Get(reg.firestoreNamespace, funcName));
    }
    assert cloudFunc == FirestoreFold(reg.Snapshot(), funcName, folded);
    folded := cloudFunc;
    if Flag(reg.pubsubFlag, funcName) {
      if Truthy(Wrappers.Get(reg.pubsubSchedule, funcName)) {
        cloudFunc := PubsubFactory.CreateFuncWithPubsubSchedule(cloudFunc, Wrappers.Get(reg.pubsubSchedule, funcName));
      } else {
        cloudFunc := PubsubFactory.CreateFuncWithPubsubTopic(cloudFunc, Wrappers.Get(reg.pubsubTopic, funcName));
      }
      cloudFunc := PubsubFactory.CreateFuncWithPubsubRetryConfig(cloudFunc, Wrappers.Get(reg.pubsubRetryConfig, funcName));
      cloudFunc := PubsubFactory.CreateFuncWithPubsubTimeZone(cloudFunc, Wrappers.Get(reg.pubsubTimeZone, funcName));
    }
    assert cloudFunc == PubsubFold(reg.Snapshot(), funcName, folded);
    folded := cloudFunc;
    if Flag(reg.storageFlag, funcName) {
      cloudFunc := StorageFactory.CreateFuncWithStorageBucket(cloudFunc, Wrappers.Get(reg.storageBucket, funcName));
    }
  }

  /** One iteration of `func`'s loop: the modifier folds, then the binding of action `a`. */
  method ComposeAction(reg: Registry.Registry, cache: Factory.MiddlewareCache, funcName: string, a: Action, h: Handler)
    returns (cloudFunc: Builder)
    modifies cache
    ensures Factory.Memoized(old(cache.entries), cache.entries, Factory.MiddlewareUsed(a))
    ensures cloudFunc == ModifierTrace(reg.Snapshot(), funcName)
                         + Factory.ActionSteps(a, h, Factory.Instances(Factory.MiddlewareUsed(a), cache.entries))
  {
    cloudFunc := FoldModifiers(reg, funcName);
    cloudFunc := Factory.CreateFuncWithAction(cache, cloudFunc, a, h);
  }

  class Composer {
    /** The module-level `cloudFuncs` dictionary. */
    var cloudFuncs: map<string, Builder>

    constructor ()
      ensures cloudFuncs == map[]
    {
      cloudFuncs := map[];
    }

    /**
     * `@func()` applied to `target[propertyKey]`, whose method is `h`. Returns
     * false, changing nothing, when no action is recorded for the function:
     * there `funcActionMap[funcName].forEach` throws.
     */
    method Func(reg: Registry.Registry, cache: Factory.MiddlewareCache, target: Owner, propertyKey: string, h: Handler)
      returns (ok: bool)
      modifies this, cache
      ensures ok <==> reg.compose(target, propertyKey) in reg.actions
      ensures !ok ==> cloudFuncs == old(cloudFuncs) && cache.entries == old(cache.entries)
      ensures ok ==> Composed(old(cloudFuncs), cloudFuncs, reg.Snapshot(), reg.compose(target, propertyKey), h, cache.entries)
      ensures forall n :: n in old(cache.entries) ==> n in cache.entries && cache.entries[n] == old(cache.entries)[n]
      ensures ok ==> Factory.Memoized(old(cache.entries), cache.entries, MiddlewareOf(reg.actions[reg.compose(target, propertyKey)]))
    {
      var funcName := reg.compose(target, propertyKey);
      if funcName !in reg.actions {
        return false;
      }
      ghost var st := reg.Snapshot();
      ghost var e0 := cache.entries;
      var acts := reg.actions[funcName];
      ghost var keys := ActionKeys(funcName, acts);
      ActionKeysDistinct(funcName, acts);
      ghost var defs: seq<Builder> := [];
      ghost var trace := ModifierTrace(st, funcName);
      var index := 0;
      while index < |acts|
        invariant index <= |acts|
        invariant Factory.Memoized(e0, cache.entries, MiddlewareOf(acts[..index]))
        invariant |defs| == index && Defines(defs, trace, acts, h, cache.entries)
        invariant Stored(old(cloudFuncs), cloudFuncs, keys, defs, index)
      {
        var funcAction := acts[index];
        ghost var before := cache.entries;
        var cloudFunc := ComposeAction(reg, cache, funcName, funcAction, h);
        DefinesStep(defs, trace, acts, h, before, cache.entries, cloudFunc);
        CacheStep(e0, before, cache.entries, acts, index);
        StoredStep(old(cloudFuncs), cloudFuncs, keys, defs, cloudFunc);
        var key := OutputKey(funcName, |acts|, index, funcAction.kind);
        assert key == keys[index];
        cloudFuncs := cloudFuncs[key := cloudFunc];
        defs := defs + [cloudFunc];
        index := index + 1;
      }
      assert acts[..index] == acts;
      StoredComposed(old(cloudFuncs), cloudFuncs, st, funcName, h, cache.entries, defs);
      ok := true;
    }
  }
}
