/** The authentication gate that guards every note route and the get-user route
    (backend/middleware/fetchUser.js). */
module Gate {
  import opened Common

  const MissingTokenMsg := "Please authenticate"
  const InvalidTokenMsg := "Invalid token"

  /** What the gate does with a request: answer it itself with an error, or set
      `req.user.id` to the caller and hand the request to the next handler. */
  datatype GateOutcome = Reject(status: nat, message: string) | Proceed(caller: UserId)

  /** The gate, applied to the `auth-token` header (None when the header is absent). */
  function FetchUser(authToken: Option<string>, verify: string -> Option<UserId>): (g: GateOutcome)
    ensures !Truthy(authToken) ==> g == Reject(401, MissingTokenMsg)
    ensures Truthy(authToken) && verify(authToken.value).None? ==> g == Reject(401, InvalidTokenMsg)
    ensures g.Proceed? <==> Truthy(authToken) && verify(authToken.value).Some?
    ensures g.Proceed? ==> verify(authToken.value) == Some(g.caller)
  {
    if !Truthy(authToken) then
      Reject(401, MissingTokenMsg)
    else
      match verify(authToken.value)
      case None => Reject(401, InvalidTokenMsg)
      case Some(id) => Proceed(id)
  }

  /** Without a token the verifier is never consulted: any two verifiers give the same answer. */
  lemma MissingTokenSkipsVerify(authToken: Option<string>, v1: string -> Option<UserId>, v2: string -> Option<UserId>)
    requires !Truthy(authToken)
    ensures FetchUser(authToken, v1) == FetchUser(authToken, v2) == Reject(401, MissingTokenMsg)
  {
  }
}
