# modal-go configuration-to-wire compilation, modelled in Dafny

This project models the core of `modal-go/app.go` of the libmodal Go client.
That core turns user-facing options into the protobuf messages sent to the
Modal control plane. It has four parts:

- **Port-spec compiler** (`Ports`). Three port lists (encrypted, HTTP/2,
  unencrypted) become one ordered `PortSpec` sequence. When there are no
  ports at all, the `OpenPorts` field is absent, not empty.
- **Volume-mount compiler** (`Mounts`). A map from mount path to `Volume`
  becomes `VolumeMount` messages, one per entry. `AllowBackgroundCommits` is
  always true and `ReadOnly` always false.
- **Registry-auth resolver** (`Registry`). It picks the `ImageRegistryConfig`
  that `ImageFromRegistry`, `ImageFromAwsEcr` and
  `ImageFromGcpArtifactRegistry` pass on: none, `STATIC_CREDS`, `AWS` or
  `GCP`, with the secret's id.
- **App lookup** (`Lookup`). It picks the object-creation type from
  `CreateIfMissing`. It turns a gRPC `NotFound` into `NotFoundError`, passes
  every other error through unchanged, and turns a response into an `App`.

`SandboxCompiler.CreateSandbox` puts the first two together into the whole
`SandboxDefinition`. The supporting modules are:

- `Wrappers`: `Option` stands for a nil-able pointer, `Result` for a Go
  `(value, error)` pair.
- `Proto`: the wire messages as datatypes.
- `Objects`: the package's own types and errors.
- `Units`: the `uint32` conversion and the timeout-in-seconds conversion.

The imperative parts of `CreateSandbox` are methods with loops. These are the
three port `for` loops (`Ports.CompileOpenPorts`) and the map loop
(`Mounts.MountEntries`). Each is proved against a specification function or
predicate. The rest is pure functions and lemmas.

I/O and calls whose definitions `app.go` does not show become inputs:

- The RPCs `AppGetOrCreate` and `SandboxCreate` are function-typed
  parameters. Each maps a context and a request to an id or an error.
- The result of `clientContext` is an input value.
- `environmentName` is a function parameter.
- `newSandbox` is modelled as the `Sandbox` record (id and context).

Go's `uint32(x)` on an `int` keeps the low 32 bits. `Units.ToUint32` models
this exactly as `x % 2^32`, for port numbers and for `Memory`.

## Model

| member | source | states |
|---|---|---|
| Units.ToUint32 | modal-go/app.go:106 | the result is a uint32 congruent to the input modulo 2^32, and equals the input when it is already in range |
| Units.ToUint32Unique | modal-go/app.go:106 | every uint32 congruent to x modulo 2^32 is ToUint32(x), so the conversion is exactly the low 32 bits |
| Units.TimeoutSecs | modal-go/app.go:136 | the timeout is the whole number of seconds in the duration: secs*10^9 <= nanos < (secs+1)*10^9 |
| Ports.PortSpecFor | modal-go/app.go:104-121 | a port's spec carries the converted port; it is unencrypted exactly for the unencrypted list and has tunnel type H2 exactly for the H2 list; its flags read back give its list |
| Ports.GroupSpecs | modal-go/app.go:104-121 | one loop's output has exactly one spec per input port |
| Ports.GroupSpecsAt | modal-go/app.go:104-121 | the spec at index i of one loop's output is the spec of the i-th input port, with that list's flags |
| Ports.CompileOpenPorts | modal-go/app.go:103-122 | the three append loops build exactly OpenPortSpecs: the encrypted specs, then the H2 specs, then the unencrypted specs |
| Ports.OpenPortSpecsLayout | modal-go/app.go:103-122 | the length is the sum of the three list lengths; the first block is the encrypted ports with no flags, then the H2 ports with tunnel type H2, then the unencrypted ports with Unencrypted=true, each port at its input index within its block |
| Ports.NoUnencryptedTunnel | modal-go/app.go:104-121 | no compiled spec is both unencrypted and tunnel-typed |
| Ports.OpenPortSpecsSegregated | modal-go/app.go:103-122 | filtering the compiled sequence by flags gives back each input list exactly, in input order |
| Ports.OpenPortSpecsEmpty | modal-go/app.go:124-129 | the merged sequence is empty exactly when all three port lists are empty |
| Mounts.CompileVolumeMounts | modal-go/app.go:90-101 | a nil map gives no mounts; otherwise one mount per entry (length equals the map size, as a multiset it equals the map's mount set), path and volume id taken from the entry, AllowBackgroundCommits=true and ReadOnly=false on every mount |
| Mounts.MountEntries | modal-go/app.go:92-100 | the range loop, visiting keys in any order, yields a list whose paths are exactly the map's keys, with no path twice, each mount built from its own entry |
| Mounts.MountListLength | modal-go/app.go:92-100 | such a list has exactly as many mounts as the map has entries |
| Mounts.MountListMultiset | modal-go/app.go:93-100 | ignoring order, such a list is the map's mount set, each mount exactly once |
| Registry.ImageFromRegistryConfig | modal-go/app.go:157-168 | nil options or a nil secret give no registry config; a secret gives STATIC_CREDS with that secret's id |
| Registry.ImageFromAwsEcrConfig | modal-go/app.go:172-178 | the config is always of type AWS and carries the given secret's id |
| Registry.ImageFromGcpArtifactRegistryConfig | modal-go/app.go:181-187 | the config is always of type GCP and carries the given secret's id |
| Registry.ResolversAreRecoverable | modal-go/app.go:157-187 | reading a config back yields the variant of the resolver that built it (none/static/AWS/GCP) and the secret id it was given |
| Registry.RegistryConfigDeterminedBySecret | modal-go/app.go:158-167 | two ImageFromRegistry options yield the same config exactly when they name the same secret; nil options equal options with a nil secret |
| Lookup.CreationType | modal-go/app.go:63-66 | CREATE_IF_MISSING exactly when CreateIfMissing is true, UNSPECIFIED exactly when it is false |
| Lookup.LookupRequest | modal-go/app.go:54-72 | the request names the app, resolves the options' environment (the empty one for nil options), and asks for creation exactly when non-nil options set CreateIfMissing |
| Lookup.NotFoundMessage | modal-go/app.go:75 | the message `app '<name>' not found` embeds the app name at offset 5 |
| Lookup.ClassifyLookup | modal-go/app.go:74-81 | success exactly when the RPC succeeded, returning an App with the response's id and the context; NotFoundError (naming the app) exactly when the RPC failed with status NotFound; every other error returned unchanged |
| Lookup.AppLookup | modal-go/app.go:53-82 | a clientContext error is returned unchanged; otherwise the outcome of the RPC on the built request is classified as above |
| Lookup.NilLookupOptionsAreDefault | modal-go/app.go:54-56 | nil options behave exactly as LookupOptions{} |
| Lookup.OnlyNotFoundIsTranslated | modal-go/app.go:57-81 | any failure is the clientContext error or comes from a failed RPC; it is NotFoundError iff that RPC reported NotFound, and otherwise the RPC's error unchanged |
| SandboxCompiler.CreateSandbox | modal-go/app.go:85-154 | the request names the app; the definition copies command and image id, has network access OPEN, truncated timeout seconds, the given milli-CPU and uint32 memory, mounts as above, and OpenPorts absent exactly when no ports are given and otherwise the merged sequence; an RPC error is returned unchanged, an id becomes a Sandbox on the app's context |

## Left out

- `MilliCpu: uint32(1000 * options.CPU)` (app.go:141) is float64 arithmetic. `SandboxOptions.milliCpu` carries the converted value as an input.
- Units.TimeoutSecs: `Seconds()` returns a float64. The model divides the nanosecond count exactly. For timeouts above 2^23 seconds, float rounding of a remainder just below a whole second can give one second more. Negative durations, and timeouts past the uint32 range, are not modelled: the duration is a `nat` and `timeoutSecs` is unbounded.
- The RPCs `AppGetOrCreate` and `SandboxCreate` are network I/O. They are function parameters that return an id or an error. Retries, cancellation and deadlines of `context.Context` are not modelled; a context is an opaque token.
- `fromRegistryInternal` is not part of this model; its body is not in app.go. The `Registry` functions return the config that each `ImageFrom*` method hands to it, and the resulting `Image` is not modelled.
- `clientContext`, `environmentName` and `newSandbox` are not part of this model. Their results are inputs or plain records.
- A nil `*Secret` passed to `ImageFromAwsEcr` or `ImageFromGcpArtifactRegistry`, and a nil `*Volume` in the `Volumes` map, would make the Go code panic. The model's `Secret` and `Volume` values cannot be nil.
- `status.FromError` also finds a status inside a wrapped error. The model only distinguishes an error that carries a gRPC status from one that does not.
- Go's map iteration order is unspecified. `Mounts.MountEntries` picks any unvisited key, and its contract fixes no order. Sorting by mount path, a redesign suggested for the system, is not what the code does, so it is not modelled.
- `DeleteOptions` and `EphemeralOptions` (app.go:25-33) are declared but no function in app.go uses them.
