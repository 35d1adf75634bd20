/** The libraries the handlers call into, as opaque capabilities. Nothing about
    them is assumed by the handlers themselves; the two soundness predicates are
    hypotheses of the round-trip lemmas only. */
module Externals {
  import opened Common

  /** The payload a session token is signed with: the `userId` claim and, when
      present, a lifetime in seconds (`expiresIn`). */
  datatype Claims = Claims(userId: UserId, expiresIn: Option<nat>)

  /** Process-wide capabilities, fixed at start-up.
      - isValidId: mongoose.Types.ObjectId.isValid
      - castId: the id string of the ObjectId that findById and its variants cast a
        valid id string to (hex case, for one, does not matter to the lookup)
      - isEmail, normalizeEmail: express-validator's isEmail() and normalizeEmail()
      - hash(password, salt), compare(password, digest): bcrypt
      - sign(claims), verify(token): jsonwebtoken with the server's secret; verify
        yields the `userId` claim of a well-formed, correctly signed, unexpired token */
  datatype Env = Env(
    isValidId: string -> bool,
    castId: string -> string,
    isEmail: string -> bool,
    normalizeEmail: string -> string,
    hash: (string, string) -> string,
    compare: (string, string) -> bool,
    sign: Claims -> string,
    verify: string -> Option<UserId>)

  /** bcrypt accepts the password a digest was made from, and digests are never empty. */
  ghost predicate HashSound(env: Env) {
    forall password, salt :: env.hash(password, salt) != "" && env.compare(password, env.hash(password, salt))
  }

  /** A freshly signed token is non-empty and verifies (within its lifetime) to its userId claim. */
  ghost predicate TokensSound(env: Env) {
    forall c :: env.sign(c) != "" && env.verify(env.sign(c)) == Some(c.userId)
  }
}
