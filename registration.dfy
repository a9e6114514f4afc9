/**
 * Registration as a sequence of decorator applications. TypeScript applies
 * the decorators of every class member once, while the modules are loaded;
 * here that order is an explicit list, folded over the registry state.
 */
module Registration {
  import opened Wrappers
  import opened Types
  import opened Events
  import opened Registries
  import Sdk
  import Composer
  import Decorators
  import DatabaseDecorators
  import FirestoreDecorators
  import PubsubDecorators
  import StorageDecorators
  import HttpsDecorators
  import AuthDecorators

  /** One decorator, with its arguments. */
  datatype Use =
    | Region(regions: seq<string>)
    | RunWith(runtime: RuntimeOptions)
    | Instance(instanceName: string)
    | OnDatabase(change: ChangeEvent, path: string)
    | OnFirestore(change: ChangeEvent, path: string)
    | RetryConfig(config: ScheduleRetryConfig)
    | Schedule(schedule: string)
    | TimeZone(timeZone: string)
    | Topic(topic: string)
    | OnPubsub(pubsub: PubsubEvent)
    | Bucket(bucket: string)
    | OnStorageObject(storage: StorageEvent)
    | OnHttpsCall
    | OnHttpsRequest(requestPath: Option<string>, requestOptions: Option<RequestOptions>)
    | OnAuthUser(auth: AuthEvent)

  /** A decorator applied to the member with identity `id`. */
  datatype Decoration = Decoration(id: string, use: Use)

  function Apply(st: State, d: Decoration): State
  {
    var id := d.id;
    match d.use
    case Region(regions) => Decorators.Region(st, id, regions)
    case RunWith(options) => Decorators.RunWith(st, id, options)
    case Instance(n) => DatabaseDecorators.Instance(st, id, n)
    case OnDatabase(e, path) => DatabaseDecorators.OnDatabase(st, id, e, path)
    case OnFirestore(e, path) => FirestoreDecorators.OnFirestore(st, id, e, path)
    case RetryConfig(c) => PubsubDecorators.RetryConfig(st, id, c)
    case Schedule(s) => PubsubDecorators.Schedule(st, id, s)
    case TimeZone(tz) => PubsubDecorators.TimeZone(st, id, tz)
    case Topic(t) => PubsubDecorators.Topic(st, id, t)
    case OnPubsub(e) => PubsubDecorators.OnPubsub(st, id, e)
    case Bucket(b) => StorageDecorators.Bucket(st, id, b)
    case OnStorageObject(e) => StorageDecorators.OnStorageObject(st, id, e)
    case OnHttpsCall => HttpsDecorators.OnHttpsCall(st, id)
    case OnHttpsRequest(path, options) => HttpsDecorators.OnHttpsRequest(st, id, path, options)
    case OnAuthUser(e) => AuthDecorators.OnAuthUser(st, id, e)
  }

  /** The decorations applied in order. */
  function ApplyAll(st: State, ds: seq<Decoration>): State
  {
    if ds == [] then st else Apply(ApplyAll(st, ds[..|ds| - 1]), ds[|ds| - 1])
  }

  // ---------------------------------------------------------------- actions

  /** The entry an action decorator records, written out from the decorator table; none for a modifier. */
  function Recorded(u: Use): Option<Action>
  {
    match u
    case OnDatabase(e, path) => Some(Action(DatabaseKind(e), Some(Payload(Some(path), None))))
    case OnFirestore(e, path) => Some(Action(FirestoreKind(e), Some(Payload(Some(path), None))))
    case OnPubsub(e) => Some(Action(PubsubKind(e), None))
    case OnStorageObject(e) => Some(Action(StorageKind(e), None))
    case OnHttpsCall => Some(Action(Types.OnHttpsCall, None))
    case OnHttpsRequest(path, options) =>
      Some(Action(Types.OnHttpsRequest, Some(Payload(Some(if Truthy(path) then path.value else "/"), options))))
    case OnAuthUser(e) => Some(Action(AuthKind(e), None))
    case _ => None
  }

  /** The entries the action decorations of `id` in `ds` record, in application order. */
  function RecordedFor(ds: seq<Decoration>, id: string): seq<Action>
  {
    if ds == [] then []
    else
      var d := ds[|ds| - 1];
      RecordedFor(ds[..|ds| - 1], id) + (if d.id == id && Recorded(d.use).Some? then [Recorded(d.use).value] else [])
  }

  /** The registered value `region(...)` stores for its argument list. */
  function StoredRegions(regions: seq<string>): seq<string>
  {
    if |regions| == 0 then [DefaultRegion] else regions
  }

  /**
   * The effect table of the decorators on the action lists and the presence
   * flags: an action decorator appends its entry and sets its family's flag
   * (database, pub/sub and storage only); nothing else changes these
   * dictionaries.
   */
  ghost predicate Effect(st: State, d: Decoration, r: State)
  {
    && r.actions == (if Recorded(d.use).Some? then AppendAction(st.actions, d.id, Recorded(d.use).value) else st.actions)
    && r.databaseFlag == (if d.use.OnDatabase? then st.databaseFlag[d.id := true] else st.databaseFlag)
    && r.firestoreFlag == st.firestoreFlag
    && r.pubsubFlag == (if d.use.OnPubsub? then st.pubsubFlag[d.id := true] else st.pubsubFlag)
    && r.storageFlag == (if d.use.OnStorageObject? then st.storageFlag[d.id := true] else st.storageFlag)
  }

  lemma DecoratorsEffect(st: State, d: Decoration)
    requires d.use.Region? || d.use.RunWith?
    ensures Effect(st, d, Apply(st, d))
  {
  }

  lemma DatabaseEffect(st: State, d: Decoration)
    requires d.use.Instance? || d.use.OnDatabase?
    ensures Effect(st, d, Apply(st, d))
  {
  }

  lemma FirestoreEffect(st: State, d: Decoration)
    requires d.use.OnFirestore?
    ensures Effect(st, d, Apply(st, d))
  {
  }

  lemma PubsubEffect(st: State, d: Decoration)
    requires d.use.RetryConfig? || d.use.Schedule? || d.use.TimeZone? || d.use.Topic? || d.use.OnPubsub?
    ensures Effect(st, d, Apply(st, d))
  {
  }

  lemma StorageEffect(st: State, d: Decoration)
    requires d.use.Bucket? || d.use.OnStorageObject?
    ensures Effect(st, d, Apply(st, d))
  {
  }

  lemma HttpsEffect(st: State, d: Decoration)
    requires d.use.OnHttpsCall? || d.use.OnHttpsRequest?
    ensures Effect(st, d, Apply(st, d))
  {
  }

  lemma AuthEffect(st: State, d: Decoration)
    requires d.use.OnAuthUser?
    ensures Effect(st, d, Apply(st, d))
  {
  }

  /** Every decorator has the effect the table gives it. */
  lemma ApplyEffect(st: State, d: Decoration)
    ensures Effect(st, d, Apply(st, d))
  {
    match d.use
    case Region(_) => DecoratorsEffect(st, d);
    case RunWith(_) => DecoratorsEffect(st, d);
    case Instance(_) => DatabaseEffect(st, d);
    case OnDatabase(_, _) => DatabaseEffect(st, d);
    case OnFirestore(_, _) => FirestoreEffect(st, d);
    case RetryConfig(_) => PubsubEffect(st, d);
    case Schedule(_) => PubsubEffect(st, d);
    case TimeZone(_) => PubsubEffect(st, d);
    case Topic(_) => PubsubEffect(st, d);
    case OnPubsub(_) => PubsubEffect(st, d);
    case Bucket(_) => StorageEffect(st, d);
    case OnStorageObject(_) => StorageEffect(st, d);
    case OnHttpsCall => HttpsEffect(st, d);
    case OnHttpsRequest(_, _) => HttpsEffect(st, d);
    case OnAuthUser(_) => AuthEffect(st, d);
  }

  /** One decoration: an action decorator of `id` appends its entry to `id`'s list; nothing else touches the list. */
  lemma ApplyActions(st: State, d: Decoration, id: string)
    ensures ActionsOf(Apply(st, d).actions, id)
         == ActionsOf(st.actions, id) + (if d.id == id && Recorded(d.use).Some? then [Recorded(d.use).value] else [])
  {
    ApplyEffect(st, d);
  }

  /**
   * Actions accumulate: after any sequence of decorations the list of `id` is
   * the list it had, followed by the entries of `id`'s action decorations in
   * the order they were applied.
   */
  lemma {:induction false} ActionsAccumulate(st: State, ds: seq<Decoration>, id: string)
    ensures ActionsOf(ApplyAll(st, ds).actions, id) == ActionsOf(st.actions, id) + RecordedFor(ds, id)
  {
    if ds != [] {
      ActionsAccumulate(st, ds[..|ds| - 1], id);
      ApplyActions(ApplyAll(st, ds[..|ds| - 1]), ds[|ds| - 1], id);
    }
  }

  // ---------------------------------------------------------------- presence flags

  datatype Family = DatabaseFamily | FirestoreFamily | PubsubFamily | StorageFamily

  function FlagsOf(st: State, f: Family): map<string, bool>
  {
    match f
    case DatabaseFamily => st.databaseFlag
    case FirestoreFamily => st.firestoreFlag
    case PubsubFamily => st.pubsubFlag
    case StorageFamily => st.storageFlag
  }

  /** The decorators that set a family's presence flag; none sets the firestore flag. */
  predicate SetsFlag(u: Use, f: Family)
  {
    match f
    case DatabaseFamily => u.OnDatabase?
    case FirestoreFamily => false
    case PubsubFamily => u.OnPubsub?
    case StorageFamily => u.OnStorageObject?
  }

  /** Some decoration in `ds` sets `f`'s flag for `id`, scanning from the last one. */
  predicate FlaggedBy(ds: seq<Decoration>, id: string, f: Family)
  {
    ds != [] && ((ds[|ds| - 1].id == id && SetsFlag(ds[|ds| - 1].use, f)) || FlaggedBy(ds[..|ds| - 1], id, f))
  }

  lemma {:induction false} FlaggedByPosition(ds: seq<Decoration>, id: string, f: Family)
    ensures FlaggedBy(ds, id, f) <==> exists k :: 0 <= k < |ds| && ds[k].id == id && SetsFlag(ds[k].use, f)
  {
    if ds != [] {
      var init := ds[..|ds| - 1];
      FlaggedByPosition(init, id, f);
      if exists k :: 0 <= k < |ds| && ds[k].id == id && SetsFlag(ds[k].use, f) {
        var k :| 0 <= k < |ds| && ds[k].id == id && SetsFlag(ds[k].use, f);
        if k < |ds| - 1 {
          assert init[k] == ds[k];
        }
      }
      if FlaggedBy(init, id, f) {
        var k :| 0 <= k < |init| && init[k].id == id && SetsFlag(init[k].use, f);
        assert ds[k] == init[k];
      }
    }
  }

  lemma ApplyFlag(st: State, d: Decoration, id: string, f: Family)
    ensures Flag(FlagsOf(Apply(st, d), f), id) <==> Flag(FlagsOf(st, f), id) || (d.id == id && SetsFlag(d.use, f))
  {
    ApplyEffect(st, d);
  }

  /**
   * A family flag is set for `id` after a sequence of decorations exactly when
   * it was set before or one of `id`'s decorations sets it; a flag once set
   * stays set.
   */
  lemma {:induction false} FlagsAccumulate(st: State, ds: seq<Decoration>, id: string, f: Family)
    ensures Flag(FlagsOf(ApplyAll(st, ds), f), id) <==> Flag(FlagsOf(st, f), id) || FlaggedBy(ds, id, f)
  {
    if ds != [] {
      var init := ds[..|ds| - 1];
      var d := ds[|ds| - 1];
      FlagsAccumulate(st, init, id, f);
      ApplyFlag(ApplyAll(st, init), d, id, f);
    }
  }

  /**
   * From a fresh registry, the firestore folds never run: no shown decorator
   * sets the firestore presence flag that gates them.
   */
  lemma FirestoreNeverFolded(ds: seq<Decoration>, id: string)
    ensures Sdk.Firestore !in Composer.ModifierTrace(ApplyAll(Empty, ds), id)
  {
    FlagsAccumulate(Empty, ds, id, FirestoreFamily);
    FlaggedByPosition(ds, id, FirestoreFamily);
    Composer.FamilyGating(ApplyAll(Empty, ds), id);
  }

  /**
   * From a fresh registry, `func` enters the database family for `id` exactly
   * when some `onDatabase*` decorator was applied to `id`.
   */
  lemma DatabaseFoldedIffDecorated(ds: seq<Decoration>, id: string)
    ensures Sdk.Database in Composer.ModifierTrace(ApplyAll(Empty, ds), id)
        <==> exists k :: 0 <= k < |ds| && ds[k].id == id && ds[k].use.OnDatabase?
  {
    FlagsAccumulate(Empty, ds, id, DatabaseFamily);
    FlaggedByPosition(ds, id, DatabaseFamily);
    Composer.FamilyGating(ApplyAll(Empty, ds), id);
  }

  // ---------------------------------------------------------------- modifiers

  /** The eight overwriting modifier dictionaries. */
  datatype Modifier =
    | RegionOf | RunWithOf | InstanceOf | RetryConfigOf | ScheduleOf | TimeZoneOf | TopicOf | BucketOf

  /** A value one of those dictionaries holds. */
  datatype Value =
    | Regions(regions: seq<string>)
    | Runtime(options: RuntimeOptions)
    | Text(text: string)
    | Retry(config: ScheduleRetryConfig)

  /** The value the dictionary of `m` holds for `id`, if any. */
  function StoredValue(st: State, m: Modifier, id: string): Option<Value>
  {
    match m
    case RegionOf => if id in st.regions then Some(Regions(st.regions[id])) else None
    case RunWithOf => if id in st.runWith then Some(Runtime(st.runWith[id])) else None
    case InstanceOf => if id in st.databaseInstance then Some(Text(st.databaseInstance[id])) else None
    case RetryConfigOf => if id in st.pubsubRetryConfig then Some(Retry(st.pubsubRetryConfig[id])) else None
    case ScheduleOf => if id in st.pubsubSchedule then Some(Text(st.pubsubSchedule[id])) else None
    case TimeZoneOf => if id in st.pubsubTimeZone then Some(Text(st.pubsubTimeZone[id])) else None
    case TopicOf => if id in st.pubsubTopic then Some(Text(st.pubsubTopic[id])) else None
    case BucketOf => if id in st.storageBucket then Some(Text(st.storageBucket[id])) else None
  }

  /** The value decorator `u` writes into the dictionary of `m`, written out from the decorator table; none when it writes another. */
  function Written(u: Use, m: Modifier): Option<Value>
  {
    match m
    case RegionOf => if u.Region? then Some(Regions(StoredRegions(u.regions))) else None
    case RunWithOf => if u.RunWith? then Some(Runtime(u.runtime)) else None
    case InstanceOf => if u.Instance? then Some(Text(u.instanceName)) else None
    case RetryConfigOf => if u.RetryConfig? then Some(Retry(u.config)) else None
    case ScheduleOf => if u.Schedule? then Some(Text(u.schedule)) else None
    case TimeZoneOf => if u.TimeZone? then Some(Text(u.timeZone)) else None
    case TopicOf => if u.Topic? then Some(Text(u.topic)) else None
    case BucketOf => if u.Bucket? then Some(Text(u.bucket)) else None
  }

  /** The value the last decoration of `id` in `ds` that writes `m` writes, if there is one. */
  function LastWrite(ds: seq<Decoration>, id: string, m: Modifier): Option<Value>
  {
    if ds == [] then None
    else
      var d := ds[|ds| - 1];
      if d.id == id && Written(d.use, m).Some? then Written(d.use, m)
      else LastWrite(ds[..|ds| - 1], id, m)
  }

  /**
   * The effect table of the decorators on the eight modifier dictionaries:
   * each modifier stores its argument under the member's identity (`region`
   * its list, or the default region for none); nothing else changes them.
   */
  ghost predicate Overwrites(st: State, d: Decoration, r: State)
  {
    && r.regions == (if d.use.Region? then st.regions[d.id := StoredRegions(d.use.regions)] else st.regions)
    && r.runWith == (if d.use.RunWith? then st.runWith[d.id := d.use.runtime] else st.runWith)
    && r.databaseInstance == (if d.use.Instance? then st.databaseInstance[d.id := d.use.instanceName] else st.databaseInstance)
    && r.pubsubRetryConfig == (if d.use.RetryConfig? then st.pubsubRetryConfig[d.id := d.use.config] else st.pubsubRetryConfig)
    && r.pubsubSchedule == (if d.use.Schedule? then st.pubsubSchedule[d.id := d.use.schedule] else st.pubsubSchedule)
    && r.pubsubTimeZone == (if d.use.TimeZone? then st.pubsubTimeZone[d.id := d.use.timeZone] else st.pubsubTimeZone)
    && r.pubsubTopic == (if d.use.Topic? then st.pubsubTopic[d.id := d.use.topic] else st.pubsubTopic)
    && r.storageBucket == (if d.use.Bucket? then st.storageBucket[d.id := d.use.bucket] else st.storageBucket)
  }

  lemma DecoratorsOverwrites(st: State, d: Decoration)
    requires d.use.Region? || d.use.RunWith?
    ensures Overwrites(st, d, Apply(st, d))
  {
  }

  lemma DatabaseOverwrites(st: State, d: Decoration)
    requires d.use.Instance? || d.use.OnDatabase?
    ensures Overwrites(st, d, Apply(st, d))
  {
  }

  lemma FirestoreOverwrites(st: State, d: Decoration)
    requires d.use.OnFirestore?
    ensures Overwrites(st, d, Apply(st, d))
  {
  }

  lemma PubsubOverwrites(st: State, d: Decoration)
    requires d.use.RetryConfig? || d.use.Schedule? || d.use.TimeZone? || d.use.Topic? || d.use.OnPubsub?
    ensures Overwrites(st, d, Apply(st, d))
  {
  }

  lemma StorageOverwrites(st: State, d: Decoration)
    requires d.use.Bucket? || d.use.OnStorageObject?
    ensures Overwrites(st, d, Apply(st, d))
  {
  }

  lemma HttpsOverwrites(st: State, d: Decoration)
    requires d.use.OnHttpsCall? || d.use.OnHttpsRequest?
    ensures Overwrites(st, d, Apply(st, d))
  {
  }

  lemma AuthOverwrites(st: State, d: Decoration)
    requires d.use.OnAuthUser?
    ensures Overwrites(st, d, Apply(st, d))
  {
  }

  /** Every decorator overwrites the modifier dictionaries as the table says. */
  lemma ApplyOverwrites(st: State, d: Decoration)
    ensures Overwrites(st, d, Apply(st, d))
  {
    match d.use
    case Region(_) => DecoratorsOverwrites(st, d);
    case RunWith(_) => DecoratorsOverwrites(st, d);
    case Instance(_) => DatabaseOverwrites(st, d);
    case OnDatabase(_, _) => DatabaseOverwrites(st, d);
    case OnFirestore(_, _) => FirestoreOverwrites(st, d);
    case RetryConfig(_) => PubsubOverwrites(st, d);
    case Schedule(_) => PubsubOverwrites(st, d);
    case TimeZone(_) => PubsubOverwrites(st, d);
    case Topic(_) => PubsubOverwrites(st, d);
    case OnPubsub(_) => PubsubOverwrites(st, d);
    case Bucket(_) => StorageOverwrites(st, d);
    case OnStorageObject(_) => StorageOverwrites(st, d);
    case OnHttpsCall => HttpsOverwrites(st, d);
    case OnHttpsRequest(_, _) => HttpsOverwrites(st, d);
    case OnAuthUser(_) => AuthOverwrites(st, d);
  }

  /** One decoration overwrites the value of `m` for `id` when it writes `m` for `id`, and leaves it as it was otherwise. */
  lemma ApplyModifier(st: State, d: Decoration, id: string, m: Modifier)
    ensures StoredValue(Apply(st, d), m, id)
         == if d.id == id && Written(d.use, m).Some? then Written(d.use, m) else StoredValue(st, m, id)
  {
    ApplyOverwrites(st, d);
  }

  /**
   * Last write wins, for every overwriting modifier: after any sequence of
   * decorations the value of `m` for `id` is the one its last decoration
   * writing `m` wrote, or the earlier value when there is none.
   */
  lemma {:induction false} LastWriteWins(st: State, ds: seq<Decoration>, id: string, m: Modifier)
    ensures StoredValue(ApplyAll(st, ds), m, id)
         == if LastWrite(ds, id, m).Some? then LastWrite(ds, id, m) else StoredValue(st, m, id)
  {
    if ds != [] {
      LastWriteWins(st, ds[..|ds| - 1], id, m);
      ApplyModifier(ApplyAll(st, ds[..|ds| - 1]), ds[|ds| - 1], id, m);
    }
  }

  /** Recording a schedule and a topic, in either order, keeps both. */
  lemma ScheduleAndTopicCoexist(st: State, id: string, s: string, t: string)
    ensures var r := ApplyAll(st, [Decoration(id, Schedule(s)), Decoration(id, Topic(t))]);
      id in r.pubsubSchedule && id in r.pubsubTopic && r.pubsubSchedule[id] == s && r.pubsubTopic[id] == t
    ensures var r := ApplyAll(st, [Decoration(id, Topic(t)), Decoration(id, Schedule(s))]);
      id in r.pubsubSchedule && id in r.pubsubTopic && r.pubsubSchedule[id] == s && r.pubsubTopic[id] == t
  {
  }
}
