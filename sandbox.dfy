/**
 * `App.CreateSandbox` (modal-go/app.go:85-154): compiles SandboxOptions into
 * one SandboxDefinition, sends it, and wraps the identifier it gets back.
 */
module SandboxCompiler {
  import opened Wrappers
  import opened Proto
  import opened Objects
  import opened Units
  import opened Ports
  import opened Mounts

  /** The options in force: a nil pointer counts as `SandboxOptions{}`. */
  function EffectiveOptions(options: Option<SandboxOptions>): SandboxOptions {
    options.GetOr(DefaultSandboxOptions)
  }

  /**
   * `CreateSandbox`. `sandboxCreate` is the RPC, given as the outcome it has
   * on each context and request; `request` is the message handed to it.
   */
  method CreateSandbox(
    app: App,
    image: Image,
    options: Option<SandboxOptions>,
    sandboxCreate: (Context, SandboxCreateRequest) -> Result<string, GoError>)
    returns (request: SandboxCreateRequest, r: Result<Sandbox, Error>)
    ensures var opts := EffectiveOptions(options);
      var definition := request.definition;
      && request.appId == app.appId
      && definition.entrypointArgs == opts.command
      && definition.imageId == image.imageId
      && definition.timeoutSecs * NanosPerSecond <= opts.timeoutNanos < (definition.timeoutSecs + 1) * NanosPerSecond
      && definition.networkAccess == NetworkAccess(Open)
      && definition.resources.milliCpu == opts.milliCpu
      && definition.resources.memoryMb == ToUint32(opts.memory)
      && (opts.volumes.None? ==> definition.volumeMounts == [])
      && (opts.volumes.Some? ==> IsMountListFor(definition.volumeMounts, opts.volumes.value))
      && (definition.openPorts.None? <==> opts.encryptedPorts == [] && opts.h2Ports == [] && opts.unencryptedPorts == [])
      && (definition.openPorts.Some? ==>
            definition.openPorts.value.ports == OpenPortSpecs(opts.encryptedPorts, opts.h2Ports, opts.unencryptedPorts))
    ensures match sandboxCreate(app.ctx, request)
      case Success(sandboxId) => r == Success(Sandbox(sandboxId, app.ctx))
      case Failure(err) => r == Failure(Passthrough(err))
  {
    var opts := EffectiveOptions(options);
    var volumeMounts := CompileVolumeMounts(opts.volumes);
    var openPorts := CompileOpenPorts(opts.encryptedPorts, opts.h2Ports, opts.unencryptedPorts);
    OpenPortSpecsEmpty(opts.encryptedPorts, opts.h2Ports, opts.unencryptedPorts);
    var portSpecs: Option<PortSpecs> := None;
    if |openPorts| > 0 {
      portSpecs := Some(PortSpecs(openPorts));
    }
    request := SandboxCreateRequest(
      app.appId,
      SandboxDefinition(
        opts.command,
        image.imageId,
        TimeoutSecs(opts.timeoutNanos),
        NetworkAccess(Open),
        Resources(opts.milliCpu, ToUint32(opts.memory)),
        volumeMounts,
        portSpecs));
    var response := sandboxCreate(app.ctx, request);
    match response
    case Failure(err) =>
      r := Failure(Passthrough(err));
    case Success(sandboxId) =>
      r := Success(Sandbox(sandboxId, app.ctx));
  }
}
