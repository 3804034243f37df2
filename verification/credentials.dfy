/**
  Credentials providers of Jetway/CredentialsProvider.swift: the no-authentication provider,
  and the store of provider blocks keyed by the name of the credentials type they vend.
*/
module Credentials {
  import opened Wrappers
  import opened Endpoints

  /** A type conforming to `Credentials`. Swift types are told apart by identity, but the
      store keys them by `String(describing:)`, which is the bare type name: two types may
      share a name. */
  datatype CredentialsType = CredentialsType(name: string, identity: nat)

  /** A credentials value: the `NoCredentials` of NoAuthenticationRequired, or a value of a
      client's credentials type (known by a token). */
  datatype CredentialsValue =
    | NoCredentials
    | Typed(credentialsType: CredentialsType, token: nat)

  /** A registered provider block: the type it was registered for, and what calling it gives,
      the credentials it returns or the error it throws. */
  datatype ProviderBlock = ProviderBlock(registeredFor: CredentialsType, outcome: Result<CredentialsValue, ClientError>)
  {
    /** The block's signature `() throws -> CredentialsType` guarantees the returned type. */
    predicate WellTyped()
    {
      outcome.Ok? ==> outcome.value.Typed? && outcome.value.credentialsType == registeredFor
    }
  }

  /** `RequestCredentialsStore.Error`, plus an error thrown by the provider block itself,
      which passes through unchanged. */
  datatype StoreError =
    | NotCongfigured(forType: string)
    | UnacceptableValue(value: CredentialsValue, forType: string)
    | ProviderThrew(error: ClientError)

  /** `credentials(of:)`, on a snapshot of the registry. */
  function Lookup(providers: map<string, ProviderBlock>, t: CredentialsType): (r: Result<CredentialsValue, StoreError>)
    ensures t.name !in providers <==> r == Err(NotCongfigured(t.name))
    ensures r.Ok? ==> r.value.Typed? && r.value.credentialsType == t && providers[t.name].outcome == Ok(r.value)
    ensures r.Err? && r.error.ProviderThrew? ==> t.name in providers && providers[t.name].outcome == Err(r.error.error)
    ensures r.Err? && r.error.UnacceptableValue? ==>
      t.name in providers && providers[t.name].outcome == Ok(r.error.value)
      && r.error.forType == t.name && !(r.error.value.Typed? && r.error.value.credentialsType == t)
  {
    if t.name !in providers then Err(NotCongfigured(t.name))
    else match providers[t.name].outcome
      case Err(e) => Err(ProviderThrew(e))
      case Ok(value) =>
        if value.Typed? && value.credentialsType == t then Ok(value)
        else Err(UnacceptableValue(value, t.name))
  }

  /** A block registered for `t` answers lookups of `t`: its credentials, or its error. */
  lemma RegisterThenLookup(providers: map<string, ProviderBlock>, t: CredentialsType, block: ProviderBlock)
    requires block.registeredFor == t && block.WellTyped()
    ensures Lookup(providers[t.name := block], t) ==
      match block.outcome case Ok(c) => Ok(c) case Err(e) => Err(ProviderThrew(e))
  {
  }

  /** Registering under one name leaves lookups under every other name as they were. */
  lemma RegisterLeavesOthers(providers: map<string, ProviderBlock>, t: CredentialsType, block: ProviderBlock, u: CredentialsType)
    requires u.name != t.name
    ensures Lookup(providers[t.name := block], u) == Lookup(providers, u)
  {
  }

  /** `RequestCredentialsStore`. */
  class RequestCredentialsStore {
    var credentialsProviders: map<string, ProviderBlock>

    /** Every block sits under the name of the type it was registered for, and returns
        that type. */
    ghost predicate Valid()
      reads this
    {
      forall name :: name in credentialsProviders ==>
        credentialsProviders[name].registeredFor.name == name && credentialsProviders[name].WellTyped()
    }

    constructor ()
      ensures Valid() && credentialsProviders == map[]
    {
      credentialsProviders := map[];
    }

    /** `registerCredentialsProvider(_:)`: the block replaces whatever was registered under
        the type's name. */
    method RegisterCredentialsProvider(block: ProviderBlock)
      requires Valid() && block.WellTyped()
      modifies this
      ensures Valid()
      ensures credentialsProviders == old(credentialsProviders)[block.registeredFor.name := block]
    {
      credentialsProviders := credentialsProviders[block.registeredFor.name := block];
    }

    /** `credentials(of:)`. */
    function CredentialsOf(t: CredentialsType): (r: Result<CredentialsValue, StoreError>)
      reads this
      ensures r == Lookup(credentialsProviders, t)
    {
      Lookup(credentialsProviders, t)
    }
  }

  /** In a valid store, a lookup is refused as unacceptable only when another type with the
      same name registered the block. */
  lemma UnacceptableOnlyOnNameClash(providers: map<string, ProviderBlock>, t: CredentialsType)
    requires forall name :: name in providers ==>
      providers[name].registeredFor.name == name && providers[name].WellTyped()
    requires Lookup(providers, t).Err? && Lookup(providers, t).error.UnacceptableValue?
    ensures providers[t.name].registeredFor != t && providers[t.name].registeredFor.name == t.name
  {
  }

  /** The two kinds of `CredentialsProvider`. */
  datatype CredentialsProvider = NoAuthenticationRequired | Requires(credentialsType: CredentialsType)

  /** `credentials()`: `NoCredentials` for NoAuthenticationRequired; a lookup in the global
      store for `Requires`. */
  function ProvidedCredentials(provider: CredentialsProvider, global: RequestCredentialsStore): (r: Result<CredentialsValue, StoreError>)
    reads global
    ensures provider.NoAuthenticationRequired? ==> r == Ok(NoCredentials)
    ensures provider.Requires? ==> r == Lookup(global.credentialsProviders, provider.credentialsType)
  {
    match provider
    case NoAuthenticationRequired => Ok(NoCredentials)
    case Requires(t) => global.CredentialsOf(t)
  }

  /** `configure(_:)` of a credentials value. `NoCredentials` leaves the request unchanged;
      a client's credentials apply `configureTyped`, the client's own configuration. */
  function Configure(credentials: CredentialsValue, request: URLRequest,
                     configureTyped: (CredentialsValue, URLRequest) -> Result<URLRequest, ClientError>): (r: Result<URLRequest, ClientError>)
    ensures credentials.NoCredentials? ==> r == Ok(request)
    ensures credentials.Typed? ==> r == configureTyped(credentials, request)
  {
    if credentials.NoCredentials? then Ok(request) else configureTyped(credentials, request)
  }
}
