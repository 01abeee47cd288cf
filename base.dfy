/** Shared value types: an optional value and the outcome of an HTTP handler. */
module Base {

  datatype Option<+T> = None | Some(value: T)

  /** What a route handler answers: a success payload, or an error status with its message. */
  datatype Response<+T> = Ok(value: T) | Err(status: nat, message: string)

  /** HTTP status codes the handlers use. */
  const BadRequest: nat := 400
  const Unauthorized: nat := 401
  const Forbidden: nat := 403
  const NotFound: nat := 404
  const ServerError: nat := 500

  /** The request validator's 400 answer (its list of field errors is not modelled). */
  const InvalidRequest: string := "Invalid request"
  /** The message of a schema ValidationError, answered with 500 by the handlers' catch. */
  const SchemaValidationFailed: string := "Validation failed"
}

/** Money is carried as integer cents. */
module Money {

  /**
   * `Math.round(v * 100) / 100` for an amount `x` given in hundredths of a cent:
   * the nearest whole number of cents, halves rounded up.
   */
  function RoundToCents(x: int): (r: int)
    ensures 100 * r - 50 <= x < 100 * r + 50
  {
    (x + 50) / 100
  }

  /** Rounding to cents is monotone. */
  lemma RoundToCentsMonotone(x: int, y: int)
    requires x <= y
    ensures RoundToCents(x) <= RoundToCents(y)
  {
  }

  /** A whole number of cents is left as it is. */
  lemma RoundToCentsExact(c: int)
    ensures RoundToCents(100 * c) == c
  {
  }
}

/**
 * The foreign code the core calls into, passed in as functions: the password hash and its
 * comparison, the session-token signer and verifier, and the request validator's e-mail
 * predicate and normaliser. Nothing is assumed about them beyond what a lemma requires.
 */
module Collaborators {
  import opened Base

  datatype Crypto = Crypto(
    hash: string -> string,              // bcrypt.hash with a fresh salt
    compare: (string, string) -> bool,   // bcrypt.compare(candidate, storedHash)
    sign: nat -> string,                 // generateToken(userId)
    verify: string -> Option<nat>)       // jwt.verify(token) -> the id it carries, or a failure

  datatype Validators = Validators(
    isEmail: string -> bool,             // express-validator isEmail()
    normalizeEmail: string -> string)    // express-validator normalizeEmail()
}
