/**
 * The registry-auth resolver of `ImageFromRegistry`, `ImageFromAwsEcr` and
 * `ImageFromGcpArtifactRegistry` (modal-go/app.go:157-187): the
 * ImageRegistryConfig each hands to `fromRegistryInternal`, None standing
 * for a nil config.
 */
module Registry {
  import opened Wrappers
  import opened Proto
  import opened Objects

  /** `ImageFromRegistry`: static credentials when a secret is given, otherwise no config. */
  function ImageFromRegistryConfig(options: Option<ImageFromRegistryOptions>): (config: Option<ImageRegistryConfig>)
    ensures options.None? ==> config.None?
    ensures options.Some? && options.value.secret.None? ==> config.None?
    ensures options.Some? && options.value.secret.Some? ==>
      config == Some(ImageRegistryConfig(StaticCreds, options.value.secret.value.secretId))
  {
    var opts := options.GetOr(ImageFromRegistryOptions(None));
    if opts.secret.Some? then Some(ImageRegistryConfig(StaticCreds, opts.secret.value.secretId)) else None
  }

  /** `ImageFromAwsEcr`: always AWS auth with the given secret. */
  function ImageFromAwsEcrConfig(secret: Secret): (config: ImageRegistryConfig)
    ensures config.registryAuthType == Aws
    ensures config.secretId == secret.secretId
  {
    ImageRegistryConfig(Aws, secret.secretId)
  }

  /** `ImageFromGcpArtifactRegistry`: always GCP auth with the given secret. */
  function ImageFromGcpArtifactRegistryConfig(secret: Secret): (config: ImageRegistryConfig)
    ensures config.registryAuthType == Gcp
    ensures config.secretId == secret.secretId
  {
    ImageRegistryConfig(Gcp, secret.secretId)
  }

  /** The four auth variants the resolver can pick. */
  datatype RegistryKind = NoAuth | StaticCredentials | AwsEcr | GcpArtifactRegistry

  /** Which variant a config is, read back from the wire value. */
  function KindOf(config: Option<ImageRegistryConfig>): RegistryKind {
    match config
    case None => NoAuth
    case Some(c) =>
      match c.registryAuthType
      case StaticCreds => StaticCredentials
      case Aws => AwsEcr
      case Gcp => GcpArtifactRegistry
      case RegistryAuthTypeUnspecified => NoAuth
  }

  /** The secret id a config carries, if any. */
  function SecretIdOf(config: Option<ImageRegistryConfig>): Option<string> {
    match config
    case None => None
    case Some(c) => Some(c.secretId)
  }

  /** The secret a `*ImageFromRegistryOptions` names, a nil pointer naming none. */
  function OptionSecret(options: Option<ImageFromRegistryOptions>): Option<Secret> {
    if options.Some? then options.value.secret else None
  }

  /**
   * Reading a resolver's output back gives the variant that resolver stands
   * for and the secret it was given, so the three never collide and no
   * secret is lost.
   */
  lemma ResolversAreRecoverable(options: Option<ImageFromRegistryOptions>, secret: Secret)
    ensures KindOf(ImageFromRegistryConfig(options)) ==
      if OptionSecret(options).Some? then StaticCredentials else NoAuth
    ensures SecretIdOf(ImageFromRegistryConfig(options)) ==
      if OptionSecret(options).Some? then Some(OptionSecret(options).value.secretId) else None
    ensures KindOf(Some(ImageFromAwsEcrConfig(secret))) == AwsEcr
    ensures SecretIdOf(Some(ImageFromAwsEcrConfig(secret))) == Some(secret.secretId)
    ensures KindOf(Some(ImageFromGcpArtifactRegistryConfig(secret))) == GcpArtifactRegistry
    ensures SecretIdOf(Some(ImageFromGcpArtifactRegistryConfig(secret))) == Some(secret.secretId)
  {
  }

  /**
   * A nil options pointer and options with a nil secret are the same to the
   * resolver, and two options give the same config exactly when they name
   * the same secret.
   */
  lemma RegistryConfigDeterminedBySecret(a: Option<ImageFromRegistryOptions>, b: Option<ImageFromRegistryOptions>)
    ensures ImageFromRegistryConfig(a) == ImageFromRegistryConfig(b) <==> OptionSecret(a) == OptionSecret(b)
  {
  }
}
