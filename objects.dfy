/**
 * The Go types of package `modal` that app.go uses: handles to remote
 * objects, the option structs, and the errors the core returns.
 */
module Objects {
  import opened Wrappers
  import opened Proto

  /**
   * Stand-in for Go's `context.Context`, which the model treats as an
   * opaque value that is only carried from one call to the next.
   */
  datatype Context = Context(token: nat)

  datatype App = App(appId: string, ctx: Context)

  datatype Sandbox = Sandbox(sandboxId: string, ctx: Context)

  datatype Image = Image(imageId: string)

  datatype Volume = Volume(volumeId: string)

  datatype Secret = Secret(secretId: string)

  datatype LookupOptions = LookupOptions(environment: string, createIfMissing: bool)

  /** The zero value `LookupOptions{}` that a nil options pointer stands for. */
  const DefaultLookupOptions := LookupOptions("", false)

  /**
   * SandboxOptions. `milliCpu` is the already converted `uint32(1000 * CPU)`
   * (the float conversion is outside the model); `timeoutNanos` is the
   * `time.Duration` in nanoseconds; `volumes` is None for a nil map.
   */
  datatype SandboxOptions = SandboxOptions(
    milliCpu: Uint32,
    memory: int,
    timeoutNanos: nat,
    command: seq<string>,
    volumes: Option<map<string, Volume>>,
    encryptedPorts: seq<int>,
    h2Ports: seq<int>,
    unencryptedPorts: seq<int>)

  /** The zero value `SandboxOptions{}`. */
  const DefaultSandboxOptions := SandboxOptions(0, 0, 0, [], None, [], [], [])

  datatype ImageFromRegistryOptions = ImageFromRegistryOptions(secret: Option<Secret>)

  /** The status codes of gRPC. */
  datatype Code =
    | OK | Canceled | Unknown | InvalidArgument | DeadlineExceeded | NotFound
    | AlreadyExists | PermissionDenied | ResourceExhausted | FailedPrecondition
    | Aborted | OutOfRange | Unimplemented | Internal | Unavailable | DataLoss
    | Unauthenticated

  /**
   * An error returned by a collaborator: either one that carries a gRPC
   * status (so that `status.FromError` succeeds) or any other Go error.
   */
  datatype GoError = StatusError(code: Code, message: string) | PlainError(message: string)

  /** What the core returns as `error`: its own NotFoundError, or a collaborator's error as it was. */
  datatype Error = NotFoundError(message: string) | Passthrough(cause: GoError)
}
