/** Credential selection for the storage engine: `auth_config` of the client handle. */
module Auth {
  import opened Wrappers

  /** The engine's three ways of obtaining credentials. */
  datatype S3ClientAuthConfig = Default | NoSigning | Profile(name: string)

  /**
   * Unsigned requests win over a named profile, and a named profile wins over
   * the ambient default credential chain. Exactly one of the three holds.
   */
  function AuthConfig(profile: Option<string>, noSignRequest: bool): (r: S3ClientAuthConfig)
    ensures r.NoSigning? <==> noSignRequest
    ensures r.Profile? <==> !noSignRequest && profile.Some?
    ensures r.Default? <==> !noSignRequest && profile.None?
    ensures r.Profile? ==> profile == Some(r.name)
  {
    if noSignRequest then NoSigning
    else if profile.Some? then Profile(profile.value)
    else Default
  }

  /**
   * Reference definition of the precedence: the credential sources that apply,
   * highest precedence first. The ambient default always applies.
   */
  function Applicable(profile: Option<string>, noSignRequest: bool): (sources: seq<S3ClientAuthConfig>)
    ensures 1 <= |sources| <= 3 && sources[|sources| - 1] == Default
    ensures NoSigning in sources <==> noSignRequest
    ensures forall p :: Profile(p) in sources <==> profile == Some(p)
  {
    (if noSignRequest then [NoSigning] else [])
    + (if profile.Some? then [Profile(profile.value)] else [])
    + [Default]
  }

  /** `AuthConfig` picks the applicable source of highest precedence. */
  lemma AuthConfigIsHighestPrecedence(profile: Option<string>, noSignRequest: bool)
    ensures AuthConfig(profile, noSignRequest) == Applicable(profile, noSignRequest)[0]
  {
  }

  /** With unsigned requests the profile is never consulted: any two profiles give the same result. */
  lemma NoSigningIgnoresProfile(p: Option<string>, q: Option<string>)
    ensures AuthConfig(p, true) == AuthConfig(q, true) == NoSigning
  {
  }

  /** A result names a profile only if that very name was given and signing was not disabled. */
  lemma ProfileComesFromArgument(profile: Option<string>, noSignRequest: bool, name: string)
    ensures AuthConfig(profile, noSignRequest) == Profile(name) <==> !noSignRequest && profile == Some(name)
  {
  }
}
