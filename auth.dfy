/** The shared-secret check (`assertAuth`). */
module Auth {
  import opened Wrappers
  import opened JsValue

  /** The error `assertAuth` throws on a mismatch. */
  const Unauthorized := Thrown(Some(401), "Unauthorized")

  /**
   * `assertAuth`: `secret` is the configured shared secret (`undefined` when
   * not set) and `header` the request's `x-vapi-secret` header. With no
   * secret, or an empty one, every request passes; otherwise the header must
   * be present and equal to the secret, character for character.
   */
  function AssertAuth(secret: Option<string>, header: Option<string>): (r: Outcome<Thrown>)
    ensures r.Pass? <==> secret == None || secret == Some("") || header == secret
    ensures r.Fail? ==> r.error == Unauthorized
  {
    if secret.None? || secret.value == "" then Pass
    else if header != secret then Fail(Unauthorized)
    else Pass
  }
}
