/**
 * The client handle `MountpointS3Client`: a frozen record of five configuration
 * values plus the engine client it was built with, its construction, the
 * engine configuration it derives, the pickling tuple `__getnewargs__`, and
 * the upload parameters `put_object` derives.
 */
module S3Client {
  import opened Wrappers
  import opened RustTypes
  import opened Auth

  /** The fixed user-agent prefix handed to the engine. */
  const UserAgentPrefix: string := "pytorch-loader;mountpoint"

  /** Defaults of the Python constructor's optional parameters. */
  const DefaultThroughputTargetGbps: F64 := TenPointZero
  const DefaultPartSize: Usize := 8 * 1024 * 1024
  const DefaultProfile: Option<string> := None
  const DefaultNoSignRequest: bool := false

  /** The engine's endpoint configuration; the library derives it from the region alone. */
  datatype EndpointConfig = EndpointConfig(region: string)

  /** The engine configuration the handle builds before creating the engine client. */
  datatype S3ClientConfig = S3ClientConfig(
    userAgentPrefix: string,
    throughputTargetGbps: F64,
    partSize: Usize,
    authConfig: S3ClientAuthConfig,
    endpointConfig: EndpointConfig)

  /** A failure of the engine client's creation, carrying the engine's message. */
  datatype ConstructionError = ConstructionError(message: string)

  /** The flat tuple `(region, throughput_target_gbps, part_size, profile, no_sign_request)`. */
  type NewArgs = (string, F64, Usize, Option<string>, bool)

  /**
   * The handle. It is frozen: no operation updates it, so each of its fields
   * keeps the value it was constructed with. `Engine` is the opaque engine
   * client the handle shares with every stream it creates.
   */
  datatype MountpointS3Client<Engine> = MountpointS3Client(
    client: Engine,
    throughputTargetGbps: F64,
    region: string,
    partSize: Usize,
    profile: Option<string>,
    noSignRequest: bool)

  /** Two handles carry the same configuration (their engine clients may differ). */
  predicate SameConfiguration<E, F>(a: MountpointS3Client<E>, b: MountpointS3Client<F>) {
    && a.region == b.region
    && a.throughputTargetGbps == b.throughputTargetGbps
    && a.partSize == b.partSize
    && a.profile == b.profile
    && a.noSignRequest == b.noSignRequest
  }

  /** The crate-internal constructor: stores the five values unchanged beside the engine client. */
  function New<E>(region: string, throughputTargetGbps: F64, partSize: Usize, profile: Option<string>,
                  noSignRequest: bool, client: E): (h: MountpointS3Client<E>)
    ensures h.region == region && h.throughputTargetGbps == throughputTargetGbps
    ensures h.partSize == partSize && h.profile == profile && h.noSignRequest == noSignRequest
    ensures h.client == client
  {
    MountpointS3Client(client, throughputTargetGbps, region, partSize, profile, noSignRequest)
  }

  /**
   * The engine configuration: the throughput target and part size pass through
   * unchanged, credentials follow `AuthConfig`, the endpoint is built from the
   * region, and the user-agent prefix is fixed.
   */
  function EngineConfig(region: string, throughputTargetGbps: F64, partSize: Usize, profile: Option<string>,
                        noSignRequest: bool): (c: S3ClientConfig)
    ensures c.userAgentPrefix == UserAgentPrefix
    ensures c.throughputTargetGbps == throughputTargetGbps && c.partSize == partSize
    ensures c.authConfig == AuthConfig(profile, noSignRequest)
    ensures c.endpointConfig.region == region
  {
    S3ClientConfig(UserAgentPrefix, throughputTargetGbps, partSize, AuthConfig(profile, noSignRequest),
                   EndpointConfig(region))
  }

  /** The engine configuration a handle was built with. */
  function EngineConfigOf<E>(h: MountpointS3Client<E>): (c: S3ClientConfig)
    ensures c.throughputTargetGbps == h.throughputTargetGbps && c.partSize == h.partSize
    ensures c.endpointConfig.region == h.region
    ensures c.authConfig == AuthConfig(h.profile, h.noSignRequest)
  {
    EngineConfig(h.region, h.throughputTargetGbps, h.partSize, h.profile, h.noSignRequest)
  }

  /** With unsigned requests, the profile has no influence on the engine configuration. */
  lemma EngineConfigIgnoresProfileWhenUnsigned(region: string, gbps: F64, partSize: Usize,
                                               p: Option<string>, q: Option<string>)
    ensures EngineConfig(region, gbps, partSize, p, true) == EngineConfig(region, gbps, partSize, q, true)
    ensures EngineConfig(region, gbps, partSize, p, true).authConfig == NoSigning
  {
  }

  /**
   * The Python constructor. `create` stands for the engine's own constructor,
   * which may fail; its failure is the construction's failure, and otherwise
   * the five values are stored unchanged beside the engine client it returned.
   */
  function NewS3Client<E>(region: string, throughputTargetGbps: F64, partSize: Usize, profile: Option<string>,
                          noSignRequest: bool, create: S3ClientConfig -> Result<E, string>)
    : (r: Result<MountpointS3Client<E>, ConstructionError>)
    ensures var engine := create(EngineConfig(region, throughputTargetGbps, partSize, profile, noSignRequest));
            && (r.Success? <==> engine.Success?)
            && (r.Failure? ==> r.error == ConstructionError(engine.error))
            && (r.Success? ==> r.value.client == engine.value)
    ensures r.Success? ==> r.value.region == region && r.value.throughputTargetGbps == throughputTargetGbps
    ensures r.Success? ==> r.value.partSize == partSize && r.value.profile == profile
    ensures r.Success? ==> r.value.noSignRequest == noSignRequest
  {
    var config := EngineConfig(region, throughputTargetGbps, partSize, profile, noSignRequest);
    match create(config)
    case Failure(message) => Failure(ConstructionError(message))
    case Success(engine) => Success(New(region, throughputTargetGbps, partSize, profile, noSignRequest, engine))
  }

  /** `__getnewargs__`: the five configuration values, in the constructor's parameter order. */
  function GetNewArgs<E>(h: MountpointS3Client<E>): (t: NewArgs)
    ensures t.0 == h.region && t.1 == h.throughputTargetGbps && t.2 == h.partSize
    ensures t.3 == h.profile && t.4 == h.noSignRequest
  {
    (h.region, h.throughputTargetGbps, h.partSize, h.profile, h.noSignRequest)
  }

  /** Rebuilding a handle from a tuple: the Python constructor applied to its five elements. */
  function FromNewArgs<E>(t: NewArgs, create: S3ClientConfig -> Result<E, string>)
    : (r: Result<MountpointS3Client<E>, ConstructionError>)
    ensures r.Success? ==> GetNewArgs(r.value) == t
  {
    NewS3Client(t.0, t.1, t.2, t.3, t.4, create)
  }

  /**
   * Round trip: rebuilding from `__getnewargs__` hands the engine the very
   * configuration the original was built with, and when the engine accepts it
   * the new handle has the original's five values.
   */
  lemma GetNewArgsRoundTrip<E, F>(h: MountpointS3Client<E>, create: S3ClientConfig -> Result<F, string>)
    ensures var r := FromNewArgs(GetNewArgs(h), create);
            && (r.Success? <==> create(EngineConfigOf(h)).Success?)
            && (r.Success? ==> SameConfiguration(r.value, h))
  {
  }

  /** The tuple holds the whole configuration: no other state takes part. */
  lemma GetNewArgsDeterminesConfiguration<E, F>(a: MountpointS3Client<E>, b: MountpointS3Client<F>)
    ensures GetNewArgs(a) == GetNewArgs(b) <==> SameConfiguration(a, b)
  {
  }

  /** Handles of equal configuration give the engine equal configurations. */
  lemma SameConfigurationSameEngineConfig<E, F>(a: MountpointS3Client<E>, b: MountpointS3Client<F>)
    requires SameConfiguration(a, b)
    ensures EngineConfigOf(a) == EngineConfigOf(b)
  {
  }

  /** Upload parameters: the storage class, and the library's other settings kept opaque as `Rest`. */
  datatype PutObjectParams<Rest> = PutObjectParams(storageClass: Option<string>, rest: Rest)

  /**
   * The parameters `put_object` hands to the engine: the library's defaults
   * with only the storage class replaced by the caller's argument.
   */
  function PutParams<R>(defaults: PutObjectParams<R>, storageClass: Option<string>): (p: PutObjectParams<R>)
    ensures p.storageClass == storageClass
    ensures p.rest == defaults.rest
  {
    defaults.(storageClass := storageClass)
  }

  /**
   * The library's defaults set no storage class, so `put_object` without a
   * storage class hands the engine exactly the defaults.
   */
  lemma PutParamsWithoutStorageClass<R>(defaults: PutObjectParams<R>)
    requires defaults.storageClass.None?
    ensures PutParams(defaults, None) == defaults
  {
  }
}
