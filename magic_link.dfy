/**
 * The magic links of the server's auth crate: `MagicLinkService`, which
 * signs an email-verification token valid for 15 minutes or a
 * password-reset token valid for 30, and checks a token against the
 * purpose the caller expects; and `create_magic_token`, which picks the
 * service by purpose name. The clock reading (`Utc::now().timestamp()`) is
 * the parameter `now`.
 */
module MagicLink {
  import opened Wrappers
  import Tokens

  /** `MagicLinkClaims`. */
  datatype MagicLinkClaims = MagicLinkClaims(userId: int, email: string, purpose: string, exp: int, iat: int)

  type MagicToken = Tokens.Token<MagicLinkClaims>

  const EmailVerification: string := "email_verification"
  const PasswordReset: string := "password_reset"

  /** How long a token of each purpose stays valid, in seconds. */
  const EmailVerificationTtl: int := 60 * 15
  const PasswordResetTtl: int := 60 * 30

  function ExpOf(c: MagicLinkClaims): int { c.exp }

  /** The claims a token is created with: issued now, expiring `ttl` seconds later. */
  function ClaimsFor(userId: int, email: string, purpose: string, ttl: int, now: int): (c: MagicLinkClaims)
    ensures c.userId == userId && c.email == email && c.purpose == purpose
    ensures c.iat == now && c.exp - c.iat == ttl
  {
    MagicLinkClaims(userId, email, purpose, now + ttl, now)
  }

  /** `create_email_verification_token`. */
  function CreateEmailVerificationToken(key: string, userId: int, email: string, now: int): (t: MagicToken)
    ensures t.Signed? && t.key == key
    ensures t.claims.purpose == EmailVerification && t.claims.userId == userId && t.claims.email == email
    ensures t.claims.iat == now && t.claims.exp == now + 900
  {
    Tokens.Create(key, ClaimsFor(userId, email, EmailVerification, EmailVerificationTtl, now))
  }

  /** `create_password_reset_token`. */
  function CreatePasswordResetToken(key: string, userId: int, email: string, now: int): (t: MagicToken)
    ensures t.Signed? && t.key == key
    ensures t.claims.purpose == PasswordReset && t.claims.userId == userId && t.claims.email == email
    ensures t.claims.iat == now && t.claims.exp == now + 1800
  {
    Tokens.Create(key, ClaimsFor(userId, email, PasswordReset, PasswordResetTtl, now))
  }

  datatype VerifyError = Undecodable(cause: Tokens.DecodeError) | InvalidPurpose | Expired

  /**
   * `verify_magic_link`: the decoded claims, provided their purpose is the
   * expected one and they have not expired (checked again, without leeway).
   */
  function VerifyMagicLink(key: string, t: MagicToken, expectedPurpose: string, now: int)
    : (r: Result<MagicLinkClaims, VerifyError>)
    ensures r.Success? <==>
      t.Signed? && t.key == key && t.claims.purpose == expectedPurpose && t.claims.exp >= now
    ensures r.Success? ==> r.value == t.claims
    ensures (t.Signed? && t.key == key && t.claims.exp >= now - Tokens.Leeway &&
             t.claims.purpose != expectedPurpose) ==> r == Failure(InvalidPurpose)
  {
    match Tokens.Decode(key, t, ExpOf, now)
    case Failure(e) => Failure(Undecodable(e))
    case Success(claims) =>
      if claims.purpose != expectedPurpose then Failure(InvalidPurpose)
      else if claims.exp < now then Failure(Expired)
      else Success(claims)
  }

  /** `create_magic_token`: the token of a known purpose; the time-to-live argument is not used. */
  function CreateMagicToken(key: string, userId: int, email: string, purpose: string, ttlSecs: nat, now: int)
    : (r: Result<MagicToken, string>)
    ensures purpose == EmailVerification ==> r == Success(CreateEmailVerificationToken(key, userId, email, now))
    ensures purpose == PasswordReset ==> r == Success(CreatePasswordResetToken(key, userId, email, now))
    ensures purpose != EmailVerification && purpose != PasswordReset ==> r == Failure("Invalid purpose: " + purpose)
  {
    if purpose == EmailVerification then Success(CreateEmailVerificationToken(key, userId, email, now))
    else if purpose == PasswordReset then Success(CreatePasswordResetToken(key, userId, email, now))
    else Failure("Invalid purpose: " + purpose)
  }

  /** The time-to-live argument never changes the token. */
  lemma TtlIgnored(key: string, userId: int, email: string, purpose: string, ttl1: nat, ttl2: nat, now: int)
    ensures CreateMagicToken(key, userId, email, purpose, ttl1, now) == CreateMagicToken(key, userId, email, purpose, ttl2, now)
  {
  }

  /** The validity window of a known purpose. */
  function TtlOf(purpose: string): int {
    if purpose == EmailVerification then EmailVerificationTtl else PasswordResetTtl
  }

  /**
   * A token made for a purpose verifies, with the same key and purpose,
   * exactly until its window has passed, and gives back the user and email
   * it was made for; checked against the other purpose it never verifies.
   */
  lemma MagicLinkRoundTrip(key: string, userId: int, email: string, purpose: string, now: int, later: int)
    requires purpose == EmailVerification || purpose == PasswordReset
    ensures var r := CreateMagicToken(key, userId, email, purpose, 0, now);
      r.Success? &&
      (VerifyMagicLink(key, r.value, purpose, later).Success? <==> later <= now + TtlOf(purpose)) &&
      (VerifyMagicLink(key, r.value, purpose, later).Success? ==>
         VerifyMagicLink(key, r.value, purpose, later).value.userId == userId &&
         VerifyMagicLink(key, r.value, purpose, later).value.email == email) &&
      (forall other :: other != purpose ==> VerifyMagicLink(key, r.value, other, later).Failure?)
  {
  }
}
