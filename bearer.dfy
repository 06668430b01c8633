/** The shared-secret check that both backends run before any handler logic,
    and the header the dashboard sends to pass it. */
module Bearer {
  import opened Seqs
  import opened JsStrings

  const Prefix: string := "Bearer "

  /** With no secret, or an empty one, authentication is disabled (dev mode). */
  predicate SecretConfigured(secret: Option<string>) {
    secret.Some? && secret.value != ""
  }

  /** `auth.startsWith('Bearer ') ? auth.slice(7) : auth`. */
  function Token(header: string): (t: string)
    ensures StartsWith(header, Prefix) ==> header == Prefix + t
    ensures !StartsWith(header, Prefix) ==> t == header
  {
    if StartsWith(header, Prefix) then header[|Prefix|..] else header
  }

  /** The token equals the secret exactly when the header is the secret with
      the prefix, or the bare secret when the secret does not itself begin
      with the prefix. */
  lemma TokenMatches(header: string, secret: string)
    ensures Token(header) == secret <==>
      header == Prefix + secret || (header == secret && !StartsWith(secret, Prefix))
  {
    if header == Prefix + secret {
      assert StartsWith(header, Prefix);
      assert header[|Prefix|..] == secret;
    }
    if header == secret && !StartsWith(secret, Prefix) {
      assert Token(header) == secret;
    }
  }

  /** checkAuth once the Authorization header has been read. */
  function Authorised(secret: Option<string>, header: string): (ok: bool)
    ensures !SecretConfigured(secret) ==> ok
    ensures SecretConfigured(secret) ==>
      (ok <==> header == Prefix + secret.value
               || (header == secret.value && !StartsWith(secret.value, Prefix)))
  {
    if SecretConfigured(secret) then TokenMatches(header, secret.value); Token(header) == secret.value
    else true
  }

  /** `headers[name] || ''`. */
  function Header(headers: map<string, string>, name: string): string {
    if name in headers then headers[name] else ""
  }
}
