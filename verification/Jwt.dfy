/** Access tokens: lifetime and leeway of `lib-aerial-go/jwt`. The HS256
    signature is ideal: a token carries the key it was signed with. */
module Jwt {
  import opened Common

  /** Instants and durations are in nanoseconds. */
  const SECOND: int := 1_000_000_000
  const LEEWAY: int := 30 * SECOND

  /** Registered dates are whole seconds. */
  function Truncate(t: int): (r: int)
    ensures t - SECOND < r <= t && r % SECOND == 0
  {
    t / SECOND * SECOND
  }

  datatype Claims = Claims(user: nat, org: nat, email: string, role: string, device: Option<nat>)

  datatype Token = Token(key: string, issuer: string, audience: string,
                         notBefore: int, expiresAt: int, claims: Claims)

  datatype Issuer = Issuer(secret: string, name: string, audience: string, ttl: int) {

    function Sign(c: Claims, now: int): Token {
      Token(secret, name, audience, Truncate(now), Truncate(now + ttl), c)
    }

    /** An empty name or audience is not checked. */
    predicate Trusts(issuer: string, aud: string) {
      (name == "" || issuer == name) && (audience == "" || aud == audience)
    }

    function Verify(t: Token, now: int): Option<Claims> {
      if t.key == secret && Trusts(t.issuer, t.audience)
         && t.notBefore - LEEWAY <= now < t.expiresAt + LEEWAY
      then Some(t.claims)
      else None
    }
  }

  /** A signed token is accepted only by an issuer with the same secret that
      trusts its name and audience, only before signing time + lifetime + 30 s, and then with
      the claims that were signed; throughout the lifetime, and up to 29 s past
      it, every such issuer does accept it. */
  lemma SignThenVerify(a: Issuer, b: Issuer, c: Claims, signed: int, now: int)
    ensures var second := 1_000_000_000;
            var peer := a.secret == b.secret && (b.name == "" || b.name == a.name) && (b.audience == "" || b.audience == a.audience);
            && (b.Verify(a.Sign(c, signed), now) != None ==>
                  && b.Verify(a.Sign(c, signed), now) == Some(c)
                  && peer
                  && signed - 31 * second < now < signed + a.ttl + 30 * second)
            && (peer && signed - 30 * second <= now <= signed + a.ttl + 29 * second ==>
                  b.Verify(a.Sign(c, signed), now) == Some(c))
  {
    var t := a.Sign(c, signed);
    assert t.notBefore == Truncate(signed) && t.expiresAt == Truncate(signed + a.ttl);
  }
}
