/**
 * The JSON Web Token service of the server's auth crate
 * (`TokenService::create` and `TokenService::decode`).
 *
 * The HS256 signature is left abstract: a token `Create` makes is the key
 * it was signed with together with the claims it carries, and every other
 * text a client can send is `Malformed`. `decode` runs the library's
 * default validation, which rejects a token whose `exp` lies more than the
 * default leeway of 60 seconds in the past.
 */
module Tokens {
  import opened Wrappers

  datatype Token<C> = Signed(key: string, claims: C) | Malformed

  datatype DecodeError = InvalidToken | InvalidSignature | ExpiredSignature

  /** The clock skew, in seconds, the default validation allows on `exp`. */
  const Leeway: int := 60

  /** `TokenService::create`: the claims, signed with the key. */
  function Create<C>(key: string, claims: C): (t: Token<C>)
    ensures t.Signed?
  {
    Signed(key, claims)
  }

  /**
   * `TokenService::decode`: the claims of a token signed with the same key
   * whose expiry, read by `exp`, has not passed by more than the leeway.
   */
  function Decode<C>(key: string, t: Token<C>, exp: C -> int, now: int): (r: Result<C, DecodeError>)
    ensures r.Success? <==> t.Signed? && t.key == key && exp(t.claims) >= now - Leeway
    ensures r.Success? ==> r.value == t.claims
  {
    match t
    case Malformed => Failure(InvalidToken)
    case Signed(k, c) =>
      if k != key then Failure(InvalidSignature)
      else if exp(c) < now - Leeway then Failure(ExpiredSignature)
      else Success(c)
  }

  /**
   * Decoding a freshly created token with the same key gives back its
   * claims, as long as they have not expired; another key never decodes it.
   */
  lemma CreateDecode<C>(key: string, other: string, claims: C, exp: C -> int, now: int)
    ensures exp(claims) >= now - Leeway ==> Decode(key, Create(key, claims), exp, now) == Success(claims)
    ensures exp(claims) < now - Leeway ==> Decode(key, Create(key, claims), exp, now) == Failure(ExpiredSignature)
    ensures other != key ==> Decode(other, Create(key, claims), exp, now) == Failure(InvalidSignature)
  {
  }
}
