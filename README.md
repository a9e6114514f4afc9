# firefuncs: registry and composition, in Dafny

firefuncs lets a TypeScript class declare Firebase Cloud Functions with
decorators. Registration happens while the modules load: each decorator
computes a function identity with `composeFunctionName(target, propertyKey)`
and writes one of the module-level dictionaries. Action decorators
(`@onDatabaseCreate(path)`, `@onHttpsRequest(path, options)`, ...) append a
`{type, payload}` entry to the identity's action list; some of them also set
the presence flag of their trigger family. Modifier decorators
(`@region`, `@runWith`, `@instance`, `@schedule`, `@topic`, `@retryConfig`,
`@timeZone`, `@bucket`) overwrite one value per identity. Composition happens
when `@func()` is applied. For every recorded action, `func` starts again from
the SDK root (`functions`) and applies the folds in a fixed order:

1. region;
2. runtime options;
3. the database, firestore, pub/sub and storage families, each only when its
   presence flag is set.

It then binds the action through `createFuncWithAction`. The result is stored
in `cloudFuncs` under the bare identity when the function has one action, and
under `identity + (index + 1) + '_' + type` when it has several. A request
trigger with a path other than '/' or with options gets an express
sub-application: cors first, then the middleware instances, then the route.
The instances are memoized by class name in a module-level `map`. `factory.ts`
is an older copy of the factory with its own table of type names.

The model, module by module:

- **`Sdk`**: the SDK's fluent builder as a trace of calls (`Builder = seq<Step>`).
  `Functions` (the empty trace) is the root. A step is terminal when it binds
  a trigger.
- **`Registries.State`**: all dictionaries as one value.
- **`Registry.Registry`**: those dictionaries as mutable fields, plus one method
  per decorator.
- **The decorator modules** (`Decorators`, `DatabaseDecorators`, ...): the
  decorators as pure transitions of `State`. `Registration` folds an explicit
  sequence of decorator applications over `State`.
- **The family factory modules** (`DatabaseFactory`, `FirestoreFactory`,
  `PubsubFactory`, `StorageFactory`) and **`Factory`**: the folds and the
  resolver.
- **`Factory.MiddlewareCache`**: the memo table of middleware instances.
- **`LegacyFactory`**: `factory.ts`.
- **`OutputKeys`** and **`Composer`**: `func`, with `Composer.Composer` holding
  `cloudFuncs`.

## Model

| member | source | states |
|---|---|---|
| Registries.AppendAction | src/decorators/database/index.ts:27-35 | the action list of `id` becomes the old list (empty when missing) with the entry at its end; every other list is unchanged |
| Decorators.Region | src/decorators/index.ts:20-28 | `region()` with no argument stores `['us-central1']`, otherwise the given list; only the region of `id` is overwritten |
| Decorators.RunWith | src/decorators/index.ts:30-34 | overwrites the runtime options of `id` and nothing else |
| DatabaseDecorators.Instance | src/decorators/database/index.ts:14-18 | overwrites the database instance of `id` and nothing else |
| DatabaseDecorators.OnDatabase | src/decorators/database/index.ts:22-88 | sets the database flag of `id` and appends `{type: onDatabase*, payload: {path}}`; nothing else changes |
| FirestoreDecorators.OnFirestore | src/decorators/firestore/index.ts:6-68 | appends `{type: onFirestore*, payload: {path}}` and sets no flag |
| PubsubDecorators.RetryConfig | src/decorators/pubsub/index.ts:24-28 | overwrites the retry configuration of `id` and nothing else |
| PubsubDecorators.Schedule | src/decorators/pubsub/index.ts:30-34 | overwrites the schedule of `id` and nothing else |
| PubsubDecorators.TimeZone | src/decorators/pubsub/index.ts:36-40 | overwrites the time zone of `id` and nothing else |
| PubsubDecorators.Topic | src/decorators/pubsub/index.ts:42-46 | overwrites the topic of `id` and nothing else |
| PubsubDecorators.OnPubsub | src/decorators/pubsub/index.ts:50-76 | sets the pub/sub flag and appends a payload-less `onPubsubPublish`/`onPubsubRun` entry |
| StorageDecorators.Bucket | src/decorators/storage/index.ts:14-18 | overwrites the bucket of `id` and nothing else |
| StorageDecorators.OnStorageObject | src/decorators/storage/index.ts:22-77 | sets the storage flag and appends a payload-less `onStorageObject*` entry |
| HttpsDecorators.OnHttpsCall | src/decorators/https/index.ts:7-18 | appends `{type: 'onHttpsCall'}` and sets no flag |
| HttpsDecorators.OnHttpsRequest | src/decorators/https/index.ts:20-35 | an omitted or empty path is recorded as '/', any other path as given, together with the options |
| AuthDecorators.OnAuthUser | src/decorators/auth/index.ts:6-30 | appends a payload-less `onAuthUser*` entry and sets no flag |
| Registry.Registry.constructor | src/decorators/index.ts:8-16 | every dictionary starts empty |
| Registry.Registry.Region | src/decorators/index.ts:20-28 | the new registry state is `Decorators.Region` of the old one at `composeFunctionName(target, propertyKey)` |
| Registry.Registry.RunWith | src/decorators/index.ts:30-34 | the new state is `Decorators.RunWith` of the old one |
| Registry.Registry.Instance | src/decorators/database/index.ts:14-18 | the new state is `DatabaseDecorators.Instance` of the old one |
| Registry.Registry.OnDatabase | src/decorators/database/index.ts:22-88 | the new state is `DatabaseDecorators.OnDatabase` of the old one |
| Registry.Registry.OnFirestore | src/decorators/firestore/index.ts:6-68 | the new state is `FirestoreDecorators.OnFirestore` of the old one |
| Registry.Registry.RetryConfig | src/decorators/pubsub/index.ts:24-28 | the new state is `PubsubDecorators.RetryConfig` of the old one |
| Registry.Registry.Schedule | src/decorators/pubsub/index.ts:30-34 | the new state is `PubsubDecorators.Schedule` of the old one |
| Registry.Registry.TimeZone | src/decorators/pubsub/index.ts:36-40 | the new state is `PubsubDecorators.TimeZone` of the old one |
| Registry.Registry.Topic | src/decorators/pubsub/index.ts:42-46 | the new state is `PubsubDecorators.Topic` of the old one |
| Registry.Registry.OnPubsub | src/decorators/pubsub/index.ts:50-76 | the new state is `PubsubDecorators.OnPubsub` of the old one |
| Registry.Registry.Bucket | src/decorators/storage/index.ts:14-18 | the new state is `StorageDecorators.Bucket` of the old one |
| Registry.Registry.OnStorageObject | src/decorators/storage/index.ts:22-77 | the new state is `StorageDecorators.OnStorageObject` of the old one |
| Registry.Registry.OnHttpsCall | src/decorators/https/index.ts:7-18 | the new state is `HttpsDecorators.OnHttpsCall` of the old one |
| Registry.Registry.OnHttpsRequest | src/decorators/https/index.ts:20-35 | the new state is `HttpsDecorators.OnHttpsRequest` of the old one |
| Registry.Registry.OnAuthUser | src/decorators/auth/index.ts:6-30 | the new state is `AuthDecorators.OnAuthUser` of the old one |
| Registration.DecoratorsEffect | src/decorators/index.ts:20-34 | `region` and `runWith` leave action lists and flags unchanged |
| Registration.DatabaseEffect | src/decorators/database/index.ts:14-88 | `instance` changes no list or flag; `onDatabase*` appends its entry and sets only the database flag |
| Registration.FirestoreEffect | src/decorators/firestore/index.ts:6-68 | `onFirestore*` appends its entry and sets no flag, the firestore flag included |
| Registration.PubsubEffect | src/decorators/pubsub/index.ts:24-76 | the pub/sub modifiers change no list or flag; `onPubsub*` appends and sets only the pub/sub flag |
| Registration.StorageEffect | src/decorators/storage/index.ts:14-77 | `bucket` changes no list or flag; `onStorageObject*` appends and sets only the storage flag |
| Registration.HttpsEffect | src/decorators/https/index.ts:7-35 | both https decorators append their entry and set no flag |
| Registration.AuthEffect | src/decorators/auth/index.ts:6-30 | both auth decorators append their entry and set no flag |
| Registration.ApplyEffect | src/decorators/database/index.ts:22-37 | every decorator has the effect of the effect table on action lists and flags |
| Registration.ApplyActions | src/decorators/https/index.ts:20-35 | one decorator application grows the list of `id` by exactly its recorded entry when it is an action decorator of `id`, and by nothing otherwise |
| Registration.ActionsAccumulate | src/decorators/auth/index.ts:6-30 | after any sequence of decorators, the action list of `id` is its old list followed by the entries of `id`'s action decorators in application order |
| Registration.FlaggedByPosition | src/decorators/storage/index.ts:22-35 | the scan for a flag-setting decorator succeeds exactly when some position in the sequence holds one for `id` |
| Registration.ApplyFlag | src/decorators/pubsub/index.ts:50-62 | a family flag is set after one decorator exactly when it was set before or the decorator sets it for `id` |
| Registration.FlagsAccumulate | src/decorators/database/index.ts:22-37 | after any sequence of decorators a flag is set exactly when it was set before or some decorator of `id` sets it; a set flag never clears |
| Registration.FirestoreNeverFolded | src/index.ts:122-128 | from empty registries, no sequence of decorators makes `func` enter the firestore builder, because nothing sets the firestore flag |
| Registration.DatabaseFoldedIffDecorated | src/index.ts:117-120 | from empty registries, `func` enters `.database` for `id` exactly when some `onDatabase*` decorator was applied to `id` |
| Registration.DecoratorsOverwrites | src/decorators/index.ts:20-34 | `region` stores its list (the default region for none) and `runWith` its options under the member's identity; neither touches another modifier dictionary |
| Registration.DatabaseOverwrites | src/decorators/database/index.ts:14-88 | `instance` stores its name; `onDatabase*` writes no modifier dictionary |
| Registration.FirestoreOverwrites | src/decorators/firestore/index.ts:6-68 | `onFirestore*` writes no modifier dictionary |
| Registration.PubsubOverwrites | src/decorators/pubsub/index.ts:24-76 | `retryConfig`, `schedule`, `timeZone` and `topic` each store their value in their own dictionary only; `onPubsub*` writes none |
| Registration.StorageOverwrites | src/decorators/storage/index.ts:14-77 | `bucket` stores its name; `onStorageObject*` writes no modifier dictionary |
| Registration.HttpsOverwrites | src/decorators/https/index.ts:7-35 | the https decorators write no modifier dictionary |
| Registration.AuthOverwrites | src/decorators/auth/index.ts:6-30 | the auth decorators write no modifier dictionary |
| Registration.ApplyOverwrites | src/decorators/pubsub/index.ts:24-46 | every decorator changes the eight modifier dictionaries as the effect table says |
| Registration.ApplyModifier | src/decorators/storage/index.ts:14-18 | for each of the eight modifiers, one decorator sets the value of `id` when it is that modifier applied to `id`, and leaves the value as it was otherwise |
| Registration.LastWriteWins | src/decorators/database/index.ts:14-18 | for each of the eight modifiers, after any sequence of decorators the value of `id` is the one its last such decorator wrote, or the earlier value when there is none |
| Registration.ScheduleAndTopicCoexist | src/decorators/pubsub/index.ts:30-46 | recording a schedule and a topic, in either order, keeps both values |
| DatabaseFactory.CreateFuncWithDatabaseInstance | src/factory/database/index.ts:1-7 | the builder always descends into `.database`, and then selects `.instance(n)` only for a non-empty name; earlier calls are kept |
| FirestoreFactory.CreateFuncWithFirestoreDatabase | src/factory/firestore/index.ts:1-7 | the builder always descends into `.firestore`, and then selects `.database(d)` only for a non-empty name |
| FirestoreFactory.CreateFuncWithFirestoreNamespace | src/factory/firestore/index.ts:9-15 | appends `.namespace(n)` for a non-empty name; otherwise returns the builder unchanged |
| PubsubFactory.CreateFuncWithPubsubRetryConfig | src/factory/pubsub/index.ts:3-9 | appends `.retryConfig(c)` exactly when a configuration is present |
| PubsubFactory.CreateFuncWithPubsubSchedule | src/factory/pubsub/index.ts:11-17 | always descends into `.pubsub`, and then selects `.schedule(s)` only for a non-empty schedule |
| PubsubFactory.CreateFuncWithPubsubTimeZone | src/factory/pubsub/index.ts:19-25 | appends `.timeZone(tz)` for a non-empty zone; otherwise returns the builder unchanged |
| PubsubFactory.CreateFuncWithPubsubTopic | src/factory/pubsub/index.ts:27-33 | always descends into `.pubsub`, and then selects `.topic(t)` only for a non-empty topic |
| PubsubFactory.AbsentScheduleIsAbsentTopic | src/factory/pubsub/index.ts:11-33 | without a value, the schedule fold and the topic fold both yield the bare `.pubsub` |
| StorageFactory.CreateFuncWithStorageBucket | src/factory/storage/index.ts:1-7 | the builder always descends into `.storage`, and then selects `.bucket(b)` only for a non-empty name |
| Factory.CreateFuncWithRegion | src/factory/index.ts:14-20 | appends `.region(rs)` exactly when a region list is recorded |
| Factory.CreateFuncWithRunWith | src/factory/index.ts:22-28 | appends `.runWith(o)` exactly when runtime options are recorded |
| Factory.RequestPath | src/factory/index.ts:79 | the route path is never empty: it is the recorded path when that is non-empty, otherwise '/' |
| Factory.RouteMethod | src/factory/index.ts:101-105 | the route uses the method of the options, or `get` when none is given |
| Factory.MiddlewareClasses | src/factory/index.ts:90 | without options, or without a middleware list, no middleware is attached |
| Factory.RequestMiddleware | src/factory/index.ts:82-90 | a request bound directly attaches no middleware |
| Factory.Uses | src/factory/index.ts:97 | one `app.use(i.middleware)` per instance, in order |
| Factory.Instances | src/factory/index.ts:92-96 | each class resolves to the cached instance of its name, in order |
| Factory.SubAppCalls | src/factory/index.ts:85-105 | the sub-application uses cors first, then each middleware in order, and ends with the route at the path with the resolved method |
| Factory.RequestSteps | src/factory/index.ts:78-108 | `https.onRequest` is bound to the handler itself exactly when the path is '/' and there are no options; otherwise it is bound to the sub-application |
| Factory.ActionSteps | src/factory/index.ts:30-125 | every resolved action ends with exactly one terminal binding, bound to the decorated method, and no earlier call binds; an unknown type binds `https.onCall` |
| Factory.MiddlewareUsed | src/factory/index.ts:78-109 | only an `onHttpsRequest` action looks up middleware |
| Factory.MiddlewareCache.constructor | src/factory/index.ts:12 | the cache starts empty |
| Factory.MiddlewareCache.GetOrCreate | src/factory/index.ts:92-96 | a cached name returns its instance and changes nothing; a missing name gets a new instance of the class, stored under the name |
| Factory.InstancesStable | src/factory/index.ts:92-96 | a cache update that keeps existing entries keeps the instances of classes already cached |
| Factory.MemoizedStep | src/factory/index.ts:91-96 | one more lookup keeps the cache memoized for one more class |
| Factory.MemoizedConcat | src/factory/index.ts:91-96 | two memoizing updates in a row memoize for both lists of classes: old entries kept, every name listed is cached, every new entry is an instance of a listed class of that name |
| Factory.InstancesSnoc | src/factory/index.ts:91-97 | (proof helper) resolving one more class appends that class's cached instance |
| Factory.UsesSnoc | src/factory/index.ts:97 | (proof helper) one more instance appends one more `app.use` |
| Factory.AttachStep | src/factory/index.ts:91-98 | one loop iteration keeps the cache memoized and the attached calls equal to the uses of the resolved instances |
| Factory.AttachMiddleware | src/factory/index.ts:90-99 | the cache keeps every old entry and gains only the missing names of the listed classes, each stored as a new instance of the class of that name; the calls are one `app.use` per class, in order, of its cached instance |
| Factory.BuildApp | src/factory/index.ts:85-106 | the built sub-application is `SubAppCalls` with the middleware instances the cache now holds; the cache keeps its old entries and gains only the missing names of the action's middleware, each a new instance of the class of that name |
| Factory.CreateFuncWithAction | src/factory/index.ts:30-125 | the result is the input builder followed by the action's steps over the middleware instances now cached; the cache keeps its old entries and gains only the missing names of the action's middleware, each a new instance of the class of that name |
| Factory.DatabaseEntryBinding | src/factory/index.ts:36-55 | an `onDatabase*` entry resolves to `ref(path)` followed by the matching event binding |
| Factory.FirestoreEntryBinding | src/factory/index.ts:56-75 | an `onFirestore*` entry resolves to `document(path)` followed by the matching event binding |
| Factory.AuthEntryBinding | src/factory/index.ts:32-35 | an `onAuthUser*` entry resolves to `auth.user().onCreate/onDelete` |
| Factory.PubsubEntryBinding | src/factory/index.ts:110-113 | an `onPubsub*` entry binds `onPublish`/`onRun` directly on the folded builder |
| Factory.StorageEntryBinding | src/factory/index.ts:114-121 | an `onStorageObject*` entry resolves to `object()` followed by the matching event binding |
| Factory.HttpsCallEntryBinding | src/factory/index.ts:76-77 | an `onHttpsCall` entry resolves to `https.onCall` |
| Factory.HttpsRequestEntryBinding | src/factory/index.ts:78-108 | a recorded request entry with path '/' (an empty path reads as '/') and no options binds the handler directly; any other path, or any options, gives a sub-application that ends with the route at that path |
| LegacyFactory.CreateFuncWithDatabaseInstance | factory.ts:14-20 | the legacy fold is the same as the current `createFuncWithDatabaseInstance` |
| LegacyFactory.CreateFuncWithFirestoreDatabase | factory.ts:22-28 | the legacy fold is the same as the current firestore database fold |
| LegacyFactory.CreateFuncWithFirestoreNamespace | factory.ts:30-36 | the legacy fold is the same as the current namespace fold |
| LegacyFactory.CreateFuncWithRegion | factory.ts:38-44 | the legacy fold is the same as the current region fold |
| LegacyFactory.CreateFuncWithRunWith | factory.ts:46-52 | the legacy fold is the same as the current runtime-options fold |
| LegacyFactory.CreateFuncWithStorageBucket | factory.ts:54-60 | the legacy fold is the same as the current storage fold |
| LegacyFactory.ActionSteps | factory.ts:62-153 | every legacy resolution ends with exactly one terminal binding to the decorated method; types outside its table bind `https.onCall` |
| LegacyFactory.MiddlewareUsed | factory.ts:110-131 | only an 'onRequest' action looks up middleware |
| LegacyFactory.CreateFuncWithAction | factory.ts:62-153 | the result is the input builder followed by the legacy steps; the legacy cache keeps its old entries and gains only the missing names of the action's middleware, each a new instance of the class of that name |
| LegacyFactory.AgreesOnSharedKinds | factory.ts:64-149 | on the auth, database, firestore and storage types both resolvers bind the same calls and use no middleware |
| LegacyFactory.RenamedHttpsKinds | factory.ts:68-69 | legacy 'onRequest' resolves as current 'onHttpsRequest', with the same middleware; 'onCall' binds `https.onCall` in both |
| LegacyFactory.MissingKindsFallBack | factory.ts:150-151 | the pub/sub, 'onHttpsCall' and 'onHttpsRequest' types fall back to `https.onCall` in the legacy resolver, which differs from the current resolver for all but 'onHttpsCall' |
| OutputKeys.DecimalString | src/index.ts:156 | `index + 1` is rendered as a non-empty string of decimal digits, one digit exactly for numbers below ten |
| OutputKeys.DecimalInjective | src/index.ts:156 | different indexes render differently |
| OutputKeys.SingleActionKeyIsIdentity | src/index.ts:156 | a function with one action is stored under its bare identity |
| OutputKeys.SuffixedKeyShape | src/index.ts:156 | with several actions, the key is the identity, the one-based index, '_' and the type, in that order |
| OutputKeys.SeparatorSplit | src/index.ts:156 | the first '_' after a digit string splits a suffix unambiguously |
| OutputKeys.KeyDeterminesAction | src/index.ts:156 | among several actions of one function, equal keys mean the same index and the same type |
| OutputKeys.KeysOfDistinctIdentitiesCanCollide | src/index.ts:156 | the keys of two different identities can coincide, so one definition can overwrite another's |
| Composer.BaseFoldCalls | src/index.ts:109-115 | the region and runtime-options folds contribute `.region(rs)` and `.runWith(o)` exactly when recorded |
| Composer.DatabaseFoldCalls | src/index.ts:117-120 | the database fold appends the database segment, which is empty when the flag is unset |
| Composer.FirestoreFoldCalls | src/index.ts:122-128 | the firestore folds append the firestore segment, which is empty when the flag is unset |
| Composer.PubsubFoldCalls | src/index.ts:130-145 | the pub/sub folds append schedule or topic, then the retry configuration, then the time zone, and nothing when the flag is unset |
| Composer.StorageFoldCalls | src/index.ts:147-150 | the storage fold appends the storage segment, which is empty when the flag is unset |
| Composer.FoldOrder | src/index.ts:109-150 | the builder before the binding is the region, runtime-options, database, firestore, pub/sub and storage segments, in this order |
| Composer.DatabaseInSegments | src/index.ts:117-120 | `.database` occurs among the segments exactly when the database flag is set |
| Composer.FirestoreInSegments | src/index.ts:122-128 | `.firestore` occurs among the segments exactly when the firestore flag is set |
| Composer.PubsubInSegments | src/index.ts:130-145 | `.pubsub` occurs among the segments exactly when the pub/sub flag is set |
| Composer.StorageInSegments | src/index.ts:147-150 | `.storage` occurs among the segments exactly when the storage flag is set |
| Composer.FamilyGating | src/index.ts:117-150 | each family's sub-builder is entered exactly when the function's flag for that family is set |
| Composer.RegionFoldedFirst | src/index.ts:109-112 | a recorded region list is the first call on the SDK root |
| Composer.ScheduleAndTopicArePubsub | src/index.ts:130-138 | only the pub/sub segment selects a schedule or a topic |
| Composer.ScheduledSegments | src/index.ts:134-135 | with a non-empty schedule, the segments select it and select no topic |
| Composer.SchedulePrecedesTopic | src/index.ts:130-138 | with the pub/sub flag and a non-empty schedule, the schedule is selected and no topic is, whatever topic is recorded |
| Composer.UnscheduledPubsub | src/index.ts:136-138 | without a non-empty schedule, the pub/sub segment selects a non-empty topic and no schedule |
| Composer.UnscheduledSegments | src/index.ts:136-138 | without a non-empty schedule, the segments select a non-empty topic and no schedule |
| Composer.TopicWithoutSchedule | src/index.ts:130-138 | without a non-empty schedule, a non-empty topic is selected and no schedule is |
| Composer.InertConcat | src/index.ts:109-150 | (proof helper) two runs of folds that bind nothing still bind nothing when joined |
| Composer.PubsubSegmentInert | src/index.ts:130-145 | the pub/sub folds bind no trigger |
| Composer.SegmentsBindNothing | src/index.ts:109-150 | no segment binds a trigger |
| Composer.ModifiersBindNothing | src/index.ts:109-150 | no modifier fold binds a trigger: binding is left to the action |
| Composer.GatingIsPerFunction | src/index.ts:108-153 | every action of a function starts from the same modifier folds, and its binding comes after all of them |
| Composer.RegionBeforeRef | src/index.ts:112-153 | for a database action of a function with a region, the region is the first call and `ref(path)` and the event binding are the last two |
| Composer.DefinitionStable | src/factory/index.ts:92-97 | a cache that only grows leaves a definition unchanged |
| Composer.ActionKeysDistinct | src/index.ts:156 | the keys of one function's actions are pairwise distinct |
| Composer.KeysBelowMembers | src/index.ts:156 | the keys written so far are exactly the first `n` keys |
| Composer.DistinctKeysCount | src/index.ts:156 | (proof helper) `n` pairwise distinct keys make a set of `n` keys |
| Composer.OneKeyPerAction | src/index.ts:108-156 | `func` writes exactly as many entries as the function has actions |
| Composer.DefinesStep | src/index.ts:108-156 | one more iteration extends the definitions by the new action's own; the earlier ones are unchanged with the grown cache |
| Composer.EntriesGrow | src/factory/index.ts:92-97 | the trigger definitions of a function do not change when the cache grows |
| Composer.DefinesEntries | src/index.ts:108-157 | the definitions the loop collects are the function's trigger definitions |
| Composer.MiddlewareOfRequests | src/factory/index.ts:78-90 | every middleware class a function's actions look up comes from one of its `onHttpsRequest` actions |
| Composer.CacheStep | src/index.ts:108-153 | one more iteration keeps the cache memoized for the middleware of the actions seen so far |
| Composer.ComposeAction | src/index.ts:109-153 | one iteration's definition is the modifier folds followed by the action's steps over the now-cached instances; the cache gains only the action's own middleware |
| Composer.StoredComposed | src/index.ts:108-157 | when the loop ends, every action's definition is stored under its key and every other entry of `cloudFuncs` is unchanged |
| Composer.StoredTwice | src/index.ts:156 | writing the same definitions under the same keys again changes nothing |
| Composer.StoredStep | src/index.ts:156 | one assignment stores the next definition under its key and keeps the earlier ones |
| Composer.ComposeIdempotent | src/index.ts:104-159 | applying `func` to the same function again, with a cache that has only grown, leaves `cloudFuncs` unchanged |
| Composer.FoldModifiers | src/index.ts:109-150 | the builder of one loop iteration is the SDK root with the function's recorded modifiers folded in source order |
| Composer.Composer.constructor | src/index.ts:102 | `cloudFuncs` starts empty |
| Composer.Composer.Func | src/index.ts:104-159 | succeeds exactly when the function has recorded actions, and changes nothing otherwise; on success, every action's definition (modifier folds, then the binding) is stored under its key and every other key is unchanged; the cache keeps its old entries and gains only the middleware names of the function's `onHttpsRequest` actions, each an instance of the class of that name |

## Left out

- `getFunctions` (src/index.ts:161-165) globs files and `require`s them. That is file-system I/O and module loading. The model takes registration as an explicit sequence of decorator applications (`Registration.ApplyAll`) instead.
- The root `index.ts` is a separate, older API that binds directly. Its own decorators (`onDatabase*(path, instance?)`, `onFirestore*`, `onCall`, `onRequest`) each write `cloudFuncs[propertyKey] = functions...` at once, without registries or composition (index.ts:6-80), and it has its own `getFunctions` (index.ts:82-86). It is not part of this model.
- `options.ts`, `src/types` and `src/middleware` are not part of this model: they contribute types only.
- `src/utils` is not part of this model. It holds `composeFunctionName`, which the model takes as the uninterpreted function `Registry.Registry.compose`.
- The Firebase SDK, express and cors are not modelled as behaviour. The builder is the trace of calls made on it, and a sub-application is the list of calls made on it. Handlers, class owners, runtime options and retry configurations are opaque types.
- JavaScript truthiness: absent values are `None`. A string is truthy when present and non-empty. An array or object is truthy whenever it is present.
- `app[options.method](path, handler)` is a route with the named method. An invalid method name (a run-time error in express) is not modelled.
- `funcActionMap[funcName].forEach` on a function with no actions throws. `Composer.Composer.Func` returns `false` there and changes nothing. Exceptions raised inside the SDK (for example, `ref(undefined)` for a database entry without a path) are not modelled.
- The firestore dictionaries and decorators are not defined in this code. src/index.ts imports `funcFirestoreMap`, `funcFirestoreDatabaseMap` and `funcFirestoreNamespaceMap`, and re-exports `database` and `namespace`, from src/decorators/firestore/index.ts. That file defines none of them; it has only the four `onFirestore*` decorators, which set no flag.
  - The model keeps the three dictionaries as registry fields that no operation writes. `Registration.FirestoreNeverFolded` then shows that the firestore folds never run. The firestore factory folds are still modelled as written.
  - Read literally, the missing imports would not compile. If transpiled anyway, `funcFirestoreMap` would be `undefined`, and `funcFirestoreMap[funcName]` (src/index.ts:122) would throw a `TypeError`, so every call of `func` would fail. Neither is modelled: the model reads the firestore flag as unset.
  - The comments on the flag dictionaries (src/decorators/database/index.ts:4-6, src/decorators/pubsub/index.ts:5-7, src/decorators/storage/index.ts:4-6) say a flag marks that the family's decorators are used. The code sets only the database, pub/sub and storage flags, and no decorator shown sets a firestore flag; the model follows the code.
- Middleware instances are cached by class name, not by class. Two classes with the same name share the first instance, as in the code. The legacy module has its own `map`: `LegacyFactory.CreateFuncWithAction` takes the cache object it is given, and a caller passes a separate one.
- Keys of different identities are not kept apart. `func` simply overwrites a colliding entry of `cloudFuncs`, as `Composer.Composer.Func`'s contract states ("every other key is unchanged" covers only keys outside the function's own). `OutputKeys.KeysOfDistinctIdentitiesCanCollide` exhibits such a pair.
- Composer.Composer.Func: does not state that the instances it adds to the cache are new objects (only that each is an instance of the class of its name). `Factory.CreateFuncWithAction`, `Factory.BuildApp` and `Factory.AttachMiddleware` state it for each call.
- Composer.Composer.Func: reads the action list once, before its loop. The code re-reads `funcActionMap[funcName]` inside the loop, but nothing in the loop changes it.
- Decorator evaluation order within one member (TypeScript applies decorators bottom-up) is left to the caller. It is whatever order the sequence passed to `Registration.ApplyAll`, or the calls on `Registry.Registry`, give.
- `jest.config.js` and the package tests are not part of this model.
