/** The shared-secret access gate in front of the mutating and aggregating
    routes (`requireApiKey`). */
module Gate {
  import opened Values

  /** `enforceApiKey`: a non-empty key is configured and the insecure override
      is off. */
  predicate Enforced(apiKey: Option<string>, allowInsecure: bool): (b: bool)
    ensures b <==> apiKey.Some? && apiKey.value != "" && !allowInsecure
  {
    Truthy(apiKey) && !allowInsecure
  }

  /** Whether a request carrying the `x-api-key` header `header` (absent when
      `None`) reaches the route: always when the gate is not enforced,
      otherwise only on strict equality with the key. */
  function Allowed(apiKey: Option<string>, allowInsecure: bool, header: Option<string>): (b: bool)
    ensures !Enforced(apiKey, allowInsecure) ==> b
    ensures Enforced(apiKey, allowInsecure) ==> (b <==> header == apiKey)
    ensures Enforced(apiKey, allowInsecure) && b ==> header.Some? && header.value != ""
  {
    if !Enforced(apiKey, allowInsecure) then true
    else header == apiKey
  }
}
