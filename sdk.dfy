/**
 * The firebase-functions builder and the express sub-application, as traces.
 * A builder is the sequence of chained calls made on the SDK's root object
 * `functions`; the root itself is the empty trace. A sub-application is the
 * sequence of calls made on the freshly created express app.
 */
module Sdk {
  import opened Wrappers
  import opened Types

  /** Terminal binding calls that attach a handler: `.onCreate(h)`, `.onRun(h)`, ... */
  datatype Event =
    | OnCreate | OnDelete | OnUpdate | OnWrite
    | OnPublish | OnRun
    | OnArchive | OnFinalize | OnMetadataUpdate
    | OnCall

  /** One call on the express app. */
  datatype AppCall =
    | UseCors                           // app.use(cors({origin: true}))
    | UseMiddleware(instance: MiddlewareInstance)   // app.use(i.middleware)
    | Route(httpMethod: RequestMethod, path: string, handler: Handler)  // app[method](path, h)

  /** What `https.onRequest` is given: the method itself or a sub-application. */
  datatype RequestTarget = Direct(handler: Handler) | App(calls: seq<AppCall>)

  /** One chained call or property access on a builder. */
  datatype Step =
    | Region(regions: seq<string>)           // .region(rs)
    | RunWith(options: RuntimeOptions)       // .runWith(o)
    | Database                               // .database
    | Instance(instanceName: string)         // .instance(n)
    | Firestore                              // .firestore
    | FirestoreDatabase(databaseName: string) // .database(d) on the firestore builder
    | Namespace(namespace: string)           // .namespace(n)
    | Pubsub                                 // .pubsub
    | Schedule(schedule: string)             // .schedule(s)
    | Topic(topic: string)                   // .topic(t)
    | RetryConfig(config: ScheduleRetryConfig) // .retryConfig(c)
    | TimeZone(timeZone: string)             // .timeZone(tz)
    | Storage                                // .storage
    | Bucket(bucket: string)                 // .bucket(b)
    | Auth                                   // .auth
    | User                                   // .user()
    | Ref(path: Option<string>)              // .ref(path)
    | Document(path: Option<string>)         // .document(path)
    | Object                                 // .object()
    | Https                                  // .https
    | Bind(event: Event, handler: Handler)   // .onCreate(h), .onPublish(h), .onCall(h), ...
    | OnRequest(target: RequestTarget)       // .onRequest(h or app)
  {
    /** A step that finishes a trigger definition. */
    predicate IsTerminal()
    {
      Bind? || OnRequest?
    }
  }

  type Builder = seq<Step>

  /** The SDK's root object `functions` that every composition starts from. */
  const Functions: Builder := []
}
