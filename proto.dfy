/**
 * The protobuf messages that modal-go/app.go builds, as plain values.
 * Only the fields app.go sets, and the enum values it uses (plus the
 * zero value of each enum), are modelled.
 */
module Proto {
  import opened Wrappers

  const Uint32Modulus: int := 0x1_0000_0000

  /** The protobuf `uint32` scalar. */
  type Uint32 = x: int | 0 <= x < 0x1_0000_0000

  datatype TunnelType = TunnelTypeUnspecified | TunnelTypeH2

  /** One port to expose; `tunnelType` is an optional field, so it may be absent. */
  datatype PortSpec = PortSpec(port: Uint32, unencrypted: bool, tunnelType: Option<TunnelType>)

  datatype PortSpecs = PortSpecs(ports: seq<PortSpec>)

  datatype VolumeMount = VolumeMount(
    volumeId: string,
    mountPath: string,
    allowBackgroundCommits: bool,
    readOnly: bool)

  datatype NetworkAccessType = NetworkAccessTypeUnspecified | Open

  datatype NetworkAccess = NetworkAccess(networkAccessType: NetworkAccessType)

  datatype Resources = Resources(milliCpu: Uint32, memoryMb: Uint32)

  /**
   * The sandbox definition sent to the control plane. `openPorts` is a
   * sub-message, so "absent" (None) and "present but empty" differ.
   */
  datatype SandboxDefinition = SandboxDefinition(
    entrypointArgs: seq<string>,
    imageId: string,
    timeoutSecs: nat,
    networkAccess: NetworkAccess,
    resources: Resources,
    volumeMounts: seq<VolumeMount>,
    openPorts: Option<PortSpecs>)

  datatype SandboxCreateRequest = SandboxCreateRequest(appId: string, definition: SandboxDefinition)

  datatype ObjectCreationType = ObjectCreationTypeUnspecified | CreateIfMissing

  datatype AppGetOrCreateRequest = AppGetOrCreateRequest(
    appName: string,
    environmentName: string,
    objectCreationType: ObjectCreationType)

  datatype RegistryAuthType = RegistryAuthTypeUnspecified | StaticCreds | Aws | Gcp

  datatype ImageRegistryConfig = ImageRegistryConfig(registryAuthType: RegistryAuthType, secretId: string)
}
