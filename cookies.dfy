/**
 * Session tokens and the response cookie jar. Signing and verification (JWT with
 * a per-kind secret) are not modelled: a token is the claims it carries, its kind
 * and the lifetime it was signed with.
 */
module Cookies {
  import opened Types

  datatype TokenKind = Access | Refresh

  datatype Token = Token(kind: TokenKind, claims: UserSession, lifetime: int)

  /** "8h" and "7d", in seconds. */
  const AccessLifetime: int := 8 * 60 * 60
  const RefreshLifetime: int := 7 * 24 * 60 * 60

  /** `createAccessToken`. */
  function CreateAccessToken(s: UserSession): Token {
    Token(Access, s, AccessLifetime)
  }

  /** `createRefreshToken`. */
  function CreateRefreshToken(s: UserSession): Token {
    Token(Refresh, s, RefreshLifetime)
  }

  datatype CookieValue = TokenCookie(token: Token) | TextCookie(text: string)

  datatype Cookie = Cookie(value: CookieValue, httpOnly: bool, secure: bool, sameSite: string, maxAge: int, path: string)

  /** The cookies a login sets and a check-out deletes. */
  const SessionCookies: set<string> := {"accessToken", "refreshToken", "unidadId", "puestoId"}

  /** The options every session cookie is set with; `secure` follows the production flag. */
  function SessionCookie(value: CookieValue, maxAge: int, production: bool): Cookie {
    Cookie(value, true, production, "strict", maxAge, "/")
  }

  /** The cookies of a response, which handlers set and delete by name. */
  class CookieJar {
    var cookies: map<string, Cookie>

    constructor (initial: map<string, Cookie>)
      ensures cookies == initial
    {
      cookies := initial;
    }

    /** `cookieStore.set(name, ...)`. */
    method Set(name: string, c: Cookie)
      modifies this
      ensures cookies == old(cookies)[name := c]
    {
      cookies := cookies[name := c];
    }

    /** `cookieStore.delete(name)`. */
    method Delete(name: string)
      modifies this
      ensures cookies == old(cookies) - {name}
    {
      cookies := cookies - {name};
    }
  }

  /** Deletes the four session cookies, one after another; nothing else in the jar changes. */
  method EndSession(jar: CookieJar)
    modifies jar
    ensures jar.cookies == old(jar.cookies) - SessionCookies
  {
    jar.Delete("accessToken");
    jar.Delete("refreshToken");
    jar.Delete("unidadId");
    jar.Delete("puestoId");
  }
}
