/**
 * The token gate. Connecting to the secrets service and fetching the secret
 * are foreign calls; their outcome is a `VaultAnswer`.
 */
module Auth {
  import opened Wrappers

  datatype VaultAnswer =
    | ConnectFailed(connectError: string)
    | FetchFailed(fetchError: string)
    | Secret(secret: string)

  const InvalidToken := "client token is invalid"

  /**
   * Accepts the caller iff the fetched secret is NOT EQUAL to the caller's
   * token. This is inverted with respect to the usual "equal means valid"
   * check; it is reproduced as the code has it, not corrected.
   */
  function ValidateVaultToken(vault: VaultAnswer, clientToken: string): (r: Result<()>)
    ensures r.Ok? <==> vault.Secret? && vault.secret != clientToken
    ensures vault.ConnectFailed? ==> r == Err(vault.connectError)
    ensures vault.FetchFailed? ==> r == Err(vault.fetchError)
    ensures vault.Secret? && r.Err? ==> r.error == InvalidToken
  {
    match vault
    case ConnectFailed(e) => Err(e)
    case FetchFailed(e) => Err(e)
    case Secret(s) => if s != clientToken then Ok(()) else Err(InvalidToken)
  }

  /** The conventional check the gate is presumably meant to perform. */
  predicate HoldsSecret(vault: VaultAnswer, clientToken: string) {
    vault.Secret? && vault.secret == clientToken
  }

  /**
   * The inversion made explicit: once the secret is fetched, exactly the
   * callers who present it are turned away, and every other token gets in.
   */
  lemma GateIsInverted(vault: VaultAnswer, clientToken: string)
    requires vault.Secret?
    ensures ValidateVaultToken(vault, clientToken).Ok? <==> !HoldsSecret(vault, clientToken)
  {
  }
}
