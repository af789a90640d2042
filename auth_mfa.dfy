/**
 * The second step of the two-factor login (`verify_mfa`): the client sends
 * the intermediate token it got at login in the `mfa-token` header and the
 * code it was emailed; the server checks the token, looks the user's code up
 * in the shared OTP cache, consumes it and issues the session token.
 *
 * The OTP cache maps a user id to the stored code and the instant it
 * expires. The clock reading (`Utc::now()`, in seconds) is the parameter
 * `now` and the signing key is the parameter `key`.
 */
module AuthMfa {
  import opened Wrappers
  import Tokens

  /** The intermediate token's claims (`MfaClaims`). */
  datatype MfaClaims = MfaClaims(id: int, exp: int)

  /** The session token's claims (`config::Claims`). */
  datatype Claims = Claims(id: int, exp: int)

  /** The configured session length: 15 days, in seconds. */
  const TokenExpiration: int := 1296000

  function MfaExp(c: MfaClaims): int { c.exp }
  function ClaimsExp(c: Claims): int { c.exp }

  /** `Claims::new`: a session for the user that lasts the configured length from now. */
  function NewClaims(id: int, now: int): (c: Claims)
    ensures c.id == id && c.exp - now == TokenExpiration
  {
    Claims(id, now + TokenExpiration)
  }

  /** The `mfa-token` header as the handler reads it: absent, not text, or a token. */
  datatype Header = Missing | NotText | Text(token: Tokens.Token<MfaClaims>)

  datatype Response = Issued(token: Tokens.Token<Claims>) | Unauthorized(message: string)

  /** One user's stored code and the instant it expires. */
  type Entry = (string, int)

  /** The user id the request proves it holds a live intermediate token for, if any. */
  function Claimant(header: Header, key: string, now: int): Option<MfaClaims> {
    if header.Text? && Tokens.Decode(key, header.token, MfaExp, now).Success? then
      Some(Tokens.Decode(key, header.token, MfaExp, now).value)
    else None
  }

  /** The response and the new cache of one `verify_mfa` call. */
  function Verify(cache: map<int, Entry>, header: Header, code: string, key: string, now: int)
    : (out: (Response, map<int, Entry>))
    ensures out.1.Keys <= cache.Keys
    ensures forall id :: id in out.1 ==> out.1[id] == cache[id]
    ensures out.0.Issued? ==> Claimant(header, key, now).Some?
    ensures Claimant(header, key, now).Some? ==>
      var id := Claimant(header, key, now).value.id;
      out.1 == cache || out.1 == cache - {id}
    ensures Claimant(header, key, now).None? ==> out == (Unauthorized("No autorizado"), cache)
  {
    match Claimant(header, key, now)
    case None => (Unauthorized("No autorizado"), cache)
    case Some(claims) =>
      if claims.exp < now then (Unauthorized("Token de 2FA expirado"), cache)
      else if claims.id !in cache then (Unauthorized("No se encontró OTP de 2FA"), cache)
      else
        var (storedCode, expiresAt) := cache[claims.id];
        if expiresAt < now then (Unauthorized("OTP expirado"), cache - {claims.id})
        else if storedCode == code then
          (Issued(Tokens.Create(key, NewClaims(claims.id, now))), cache - {claims.id})
        else (Unauthorized("Código 2FA inválido"), cache)
  }

  /** The shared OTP cache and the handler that consumes its entries. */
  class OtpCache {
    var entries: map<int, Entry>

    constructor ()
      ensures entries == map[]
    {
      entries := map[];
    }

    /** `verify_mfa`. */
    method VerifyMfa(header: Header, code: string, key: string, now: int) returns (r: Response)
      modifies this
      ensures (r, entries) == Verify(old(entries), header, code, key, now)
    {
      if header.Text? {
        var decoded := Tokens.Decode(key, header.token, MfaExp, now);
        if decoded.Success? {
          var claims := decoded.value;
          if claims.exp < now {
            return Unauthorized("Token de 2FA expirado");
          }
          var userId := claims.id;
          if userId in entries {
            var (storedCode, expiresAt) := entries[userId];
            if expiresAt < now {
              entries := entries - {userId};
              return Unauthorized("OTP expirado");
            }
            if storedCode == code {
              entries := entries - {userId};
              var fullToken := Tokens.Create(key, NewClaims(userId, now));
              return Issued(fullToken);
            } else {
              return Unauthorized("Código 2FA inválido");
            }
          } else {
            return Unauthorized("No se encontró OTP de 2FA");
          }
        }
      }
      r := Unauthorized("No autorizado");
    }
  }

  /**
   * The outcomes of `verify_mfa` for a live intermediate token of user `id`:
   * a token past its own `exp` is refused; no stored code is refused; an
   * expired code is dropped and refused; the right code is dropped and
   * yields a session token for `id`; a wrong code is refused and kept.
   */
  lemma VerifyOutcomes(cache: map<int, Entry>, t: Tokens.Token<MfaClaims>, code: string, key: string, now: int)
    requires Claimant(Text(t), key, now).Some?
    ensures var c := Claimant(Text(t), key, now).value;
      var out := Verify(cache, Text(t), code, key, now);
      (c.exp < now ==> out == (Unauthorized("Token de 2FA expirado"), cache)) &&
      (c.exp >= now && c.id !in cache ==> out == (Unauthorized("No se encontró OTP de 2FA"), cache)) &&
      (c.exp >= now && c.id in cache && cache[c.id].1 < now ==>
         out == (Unauthorized("OTP expirado"), cache - {c.id})) &&
      (c.exp >= now && c.id in cache && cache[c.id].1 >= now && cache[c.id].0 == code ==>
         out.1 == cache - {c.id} && out.0.Issued? &&
         Tokens.Decode(key, out.0.token, ClaimsExp, now) == Success(Claims(c.id, now + TokenExpiration))) &&
      (c.exp >= now && c.id in cache && cache[c.id].1 >= now && cache[c.id].0 != code ==>
         out == (Unauthorized("Código 2FA inválido"), cache))
  {
  }

  /**
   * A code works once: after a call that issued a session token, the same
   * request finds no stored code.
   */
  lemma NoReplay(cache: map<int, Entry>, header: Header, code: string, key: string, now: int)
    requires Verify(cache, header, code, key, now).0.Issued?
    ensures var after := Verify(cache, header, code, key, now).1;
      Verify(after, header, code, key, now) == (Unauthorized("No se encontró OTP de 2FA"), after)
  {
    var c := Claimant(header, key, now).value;
    assert c.id in cache && cache[c.id].0 == code;
  }
}
