/**
 * The decision logic of `AppLookup` (modal-go/app.go:53-82): the request it
 * sends, and how it classifies the outcome of the RPC.
 */
module Lookup {
  import opened Wrappers
  import opened Proto
  import opened Objects

  /** The creation type requested for the given options. */
  function CreationType(options: LookupOptions): (t: ObjectCreationType)
    ensures t == CreateIfMissing <==> options.createIfMissing
    ensures t == ObjectCreationTypeUnspecified <==> !options.createIfMissing
  {
    if options.createIfMissing then CreateIfMissing else ObjectCreationTypeUnspecified
  }

  /**
   * The AppGetOrCreate request for `name`; a nil options pointer counts as
   * `LookupOptions{}`. `environmentName` is the package's resolver of an
   * environment option, whose definition is not part of this model.
   */
  function LookupRequest(name: string, options: Option<LookupOptions>, environmentName: string -> string)
    : (request: AppGetOrCreateRequest)
    ensures request.appName == name
    ensures request.objectCreationType == CreateIfMissing <==> options.Some? && options.value.createIfMissing
    ensures request.environmentName == environmentName(if options.Some? then options.value.environment else "")
  {
    var opts := options.GetOr(DefaultLookupOptions);
    AppGetOrCreateRequest(name, environmentName(opts.environment), CreationType(opts))
  }

  /** The message of the NotFoundError for app `name`. */
  function NotFoundMessage(name: string): (message: string)
    ensures |message| == |name| + 16
    ensures message[5..5 + |name|] == name
  {
    "app '" + name + "' not found"
  }

  /** Whether `status.FromError` would report the gRPC code NotFound. */
  predicate IsNotFoundStatus(err: GoError) {
    err.StatusError? && err.code == NotFound
  }

  /**
   * The classification of the RPC outcome (app.go:74-81): NotFound becomes
   * NotFoundError, any other error is returned as it is, and a response
   * becomes an App bound to the client context.
   */
  function ClassifyLookup(name: string, ctx: Context, response: Result<string, GoError>): (r: Result<App, Error>)
    ensures r.Success? <==> response.Success?
    ensures r.Success? ==> r.value == App(response.value, ctx)
    ensures r.Failure? && r.error.NotFoundError? <==> response.Failure? && IsNotFoundStatus(response.error)
    ensures r.Failure? && r.error.NotFoundError? ==> r.error.message == NotFoundMessage(name)
    ensures r.Failure? && r.error.Passthrough? ==> r.error.cause == response.error
  {
    match response
    case Failure(err) =>
      if IsNotFoundStatus(err) then Failure(NotFoundError(NotFoundMessage(name)))
      else Failure(Passthrough(err))
    case Success(appId) => Success(App(appId, ctx))
  }

  /**
   * `AppLookup`. `clientContext` is the outcome of deriving the client
   * context from the caller's; `appGetOrCreate` is the RPC, given as the
   * outcome it has on each context and request.
   */
  function AppLookup(
    clientContext: Result<Context, GoError>,
    name: string,
    options: Option<LookupOptions>,
    environmentName: string -> string,
    appGetOrCreate: (Context, AppGetOrCreateRequest) -> Result<string, GoError>)
    : (r: Result<App, Error>)
    ensures clientContext.Failure? ==> r == Failure(Passthrough(clientContext.error))
    ensures clientContext.Success? ==>
      var response := appGetOrCreate(clientContext.value, LookupRequest(name, options, environmentName));
      && (r.Success? <==> response.Success?)
      && (r.Success? ==> r.value.appId == response.value && r.value.ctx == clientContext.value)
      && (r.Failure? && r.error.NotFoundError? <==> response.Failure? && IsNotFoundStatus(response.error))
      && (r.Failure? && r.error.Passthrough? ==> r.error.cause == response.error)
  {
    match clientContext
    case Failure(err) => Failure(Passthrough(err))
    case Success(ctx) =>
      ClassifyLookup(name, ctx, appGetOrCreate(ctx, LookupRequest(name, options, environmentName)))
  }

  /** A nil options pointer behaves exactly as the all-default options. */
  lemma NilLookupOptionsAreDefault(
    clientContext: Result<Context, GoError>,
    name: string,
    environmentName: string -> string,
    appGetOrCreate: (Context, AppGetOrCreateRequest) -> Result<string, GoError>)
    ensures AppLookup(clientContext, name, None, environmentName, appGetOrCreate)
         == AppLookup(clientContext, name, Some(LookupOptions("", false)), environmentName, appGetOrCreate)
  {
  }

  /**
   * The error translation is the only one: AppLookup answers NotFoundError
   * only when the RPC reported NotFound, its every other error is an error
   * some collaborator returned, and a status other than NotFound is never
   * turned into NotFoundError.
   */
  lemma OnlyNotFoundIsTranslated(
    clientContext: Result<Context, GoError>,
    name: string,
    options: Option<LookupOptions>,
    environmentName: string -> string,
    appGetOrCreate: (Context, AppGetOrCreateRequest) -> Result<string, GoError>)
    ensures var r := AppLookup(clientContext, name, options, environmentName, appGetOrCreate);
      r.Failure? ==>
        if clientContext.Failure? then r.error == Passthrough(clientContext.error)
        else
          var response := appGetOrCreate(clientContext.value, LookupRequest(name, options, environmentName));
          && response.Failure?
          && (r.error == NotFoundError(NotFoundMessage(name)) <==> IsNotFoundStatus(response.error))
          && (!IsNotFoundStatus(response.error) ==> r.error == Passthrough(response.error))
  {
  }
}
