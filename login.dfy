/**
 * The login handler (POST /api/auth/login): schema check, credential check,
 * unit and post check, in that order, then the session and its four cookies.
 * Password hashing is the parameter `verifyPassword` (bcrypt's compare).
 */
module Login {
  import opened Wrappers
  import opened Types
  import opened Validations
  import opened Cookies
  import opened Http

  datatype Usuario = Usuario(
    id: string, username: string, passwordHash: string,
    nombres: string, apellidos: string, rol: Rol, activo: bool)

  datatype Unidad = Unidad(id: string, nombre: string, ciudad: string, activo: bool)

  datatype Puesto = Puesto(id: string, unidadId: string, nombre: string, activo: bool)

  /** The tables the login reads: users by username, units and posts by id. */
  datatype Directory = Directory(
    usuarios: map<string, Usuario>, unidades: map<string, Unidad>, puestos: map<string, Puesto>)

  const MsgCredenciales := "Usuario o contraseña incorrectos"
  const MsgUnidad := "La unidad seleccionada no existe o está inactiva"
  const MsgPuesto := "El puesto seleccionado no existe o está inactivo"

  /** The user exists, is active, and the password matches its hash. */
  predicate CredentialsOk(dir: Directory, inp: LoginInput, verifyPassword: (string, string) -> bool) {
    inp.username in dir.usuarios
    && dir.usuarios[inp.username].activo
    && verifyPassword(inp.password, dir.usuarios[inp.username].passwordHash)
  }

  /** `findUnique({ where: { id, activo: true } })` on units. */
  predicate UnidadOk(dir: Directory, unidadId: string) {
    unidadId in dir.unidades && dir.unidades[unidadId].activo
  }

  /** `findUnique({ where: { id, unidadId, activo: true } })` on posts. */
  predicate PuestoOk(dir: Directory, puestoId: string, unidadId: string) {
    puestoId in dir.puestos && dir.puestos[puestoId].unidadId == unidadId && dir.puestos[puestoId].activo
  }

  /** The session a successful login builds: identity from the stored user, unit and post from the request. */
  function SessionFor(u: Usuario, inp: LoginInput): UserSession {
    UserSession(u.id, u.username, u.nombres, u.apellidos, u.rol, Some(inp.unidadId), Some(inp.puestoId))
  }

  /** The decision part of the login handler. */
  function Authenticate(b: Body, dir: Directory, verifyPassword: (string, string) -> bool): (r: Response<UserSession>)
    ensures LoginSchema(b).None? ==> r == Error(400, DatosInvalidos)
    ensures LoginSchema(b).Some? ==>
      var inp := LoginSchema(b).value;
      && (!CredentialsOk(dir, inp, verifyPassword) ==> r == Error(401, MsgCredenciales))
      && (CredentialsOk(dir, inp, verifyPassword) && !UnidadOk(dir, inp.unidadId) ==> r == Error(400, MsgUnidad))
      && ((CredentialsOk(dir, inp, verifyPassword) && UnidadOk(dir, inp.unidadId)
           && !PuestoOk(dir, inp.puestoId, inp.unidadId)) ==> r == Error(400, MsgPuesto))
      && ((CredentialsOk(dir, inp, verifyPassword) && UnidadOk(dir, inp.unidadId)
           && PuestoOk(dir, inp.puestoId, inp.unidadId)) ==> r.Ok?)
    ensures r.Ok? ==>
      && LoginSchema(b).Some?
      && var inp := LoginSchema(b).value;
      && CredentialsOk(dir, inp, verifyPassword)
      && UnidadOk(dir, inp.unidadId) && PuestoOk(dir, inp.puestoId, inp.unidadId)
      && r == Ok(200, SessionFor(dir.usuarios[inp.username], inp))
  {
    match LoginSchema(b)
    case None => Error(400, DatosInvalidos)
    case Some(inp) =>
      if inp.username !in dir.usuarios || !dir.usuarios[inp.username].activo then
        Error(401, MsgCredenciales)
      else
        var usuario := dir.usuarios[inp.username];
        if !verifyPassword(inp.password, usuario.passwordHash) then Error(401, MsgCredenciales)
        else if !UnidadOk(dir, inp.unidadId) then Error(400, MsgUnidad)
        else if !PuestoOk(dir, inp.puestoId, inp.unidadId) then Error(400, MsgPuesto)
        else Ok(200, SessionFor(usuario, inp))
  }

  /** The four cookies a successful login sets. */
  function LoginCookies(s: UserSession, production: bool): map<string, Cookie>
    requires s.unidadId.Some? && s.puestoId.Some?
  {
    map[
      "accessToken" := SessionCookie(TokenCookie(CreateAccessToken(s)), 8 * 60 * 60, production),
      "refreshToken" := SessionCookie(TokenCookie(CreateRefreshToken(s)), 7 * 24 * 60 * 60, production),
      "unidadId" := SessionCookie(TextCookie(s.unidadId.value), 8 * 60 * 60, production),
      "puestoId" := SessionCookie(TextCookie(s.puestoId.value), 8 * 60 * 60, production)]
  }

  /** Setting the four cookies one after another adds exactly the login cookies. */
  lemma SetInOrder(c: map<string, Cookie>, s: UserSession, production: bool)
    requires s.unidadId.Some? && s.puestoId.Some?
    ensures c["accessToken" := SessionCookie(TokenCookie(CreateAccessToken(s)), 8 * 60 * 60, production)]
             ["refreshToken" := SessionCookie(TokenCookie(CreateRefreshToken(s)), 7 * 24 * 60 * 60, production)]
             ["unidadId" := SessionCookie(TextCookie(s.unidadId.value), 8 * 60 * 60, production)]
             ["puestoId" := SessionCookie(TextCookie(s.puestoId.value), 8 * 60 * 60, production)]
      == c + LoginCookies(s, production)
  {
  }

  /** POST /api/auth/login. */
  method Login(b: Body, dir: Directory, verifyPassword: (string, string) -> bool, production: bool,
               jar: CookieJar) returns (r: Response<UserSession>)
    modifies jar
    ensures r == Authenticate(b, dir, verifyPassword)
    ensures r.Error? ==> jar.cookies == old(jar.cookies)
    ensures r.Ok? ==> r.value.unidadId.Some? && r.value.puestoId.Some?
    ensures r.Ok? ==> jar.cookies == old(jar.cookies) + LoginCookies(r.value, production)
  {
    r := Authenticate(b, dir, verifyPassword);
    if r.Ok? {
      var s := r.value;
      jar.Set("accessToken", SessionCookie(TokenCookie(CreateAccessToken(s)), 8 * 60 * 60, production));
      jar.Set("refreshToken", SessionCookie(TokenCookie(CreateRefreshToken(s)), 7 * 24 * 60 * 60, production));
      jar.Set("unidadId", SessionCookie(TextCookie(s.unidadId.value), 8 * 60 * 60, production));
      jar.Set("puestoId", SessionCookie(TextCookie(s.puestoId.value), 8 * 60 * 60, production));
      SetInOrder(old(jar.cookies), s, production);
    }
  }

  // Properties ----------------------------------------------------------------

  /** A missing user, an inactive user and a wrong password give the same 401 and message. */
  lemma CredentialFailuresLookAlike(b: Body, dir: Directory, verifyPassword: (string, string) -> bool)
    requires LoginSchema(b).Some?
    requires var inp := LoginSchema(b).value;
      || inp.username !in dir.usuarios
      || !dir.usuarios[inp.username].activo
      || !verifyPassword(inp.password, dir.usuarios[inp.username].passwordHash)
    ensures Authenticate(b, dir, verifyPassword) == Error(401, MsgCredenciales)
  {
  }

  /** Credentials are checked first: a bad password with a bad unit is a 401, not a 400. */
  lemma CredentialsBeforeUnit(b: Body, dir: Directory, verifyPassword: (string, string) -> bool)
    requires LoginSchema(b).Some?
    requires !CredentialsOk(dir, LoginSchema(b).value, verifyPassword)
    requires !UnidadOk(dir, LoginSchema(b).value.unidadId)
    ensures Authenticate(b, dir, verifyPassword).status == 401
  {
  }

  /**
   * The login cookies: exactly the four session cookies, the tokens carry the session,
   * access token and unit/post cookies live 8 hours, the refresh token 7 days, and each
   * token cookie lives as long as the token inside it.
   */
  lemma LoginCookieLifetimes(s: UserSession, production: bool)
    requires s.unidadId.Some? && s.puestoId.Some?
    ensures LoginCookies(s, production).Keys == SessionCookies
    ensures var c := LoginCookies(s, production);
      && c["accessToken"].maxAge == 28800 && c["unidadId"].maxAge == 28800 && c["puestoId"].maxAge == 28800
      && c["refreshToken"].maxAge == 604800
      && c["accessToken"].value == TokenCookie(Token(Access, s, c["accessToken"].maxAge))
      && c["refreshToken"].value == TokenCookie(Token(Refresh, s, c["refreshToken"].maxAge))
      && forall k :: k in c ==> c[k].httpOnly && c[k].sameSite == "strict" && c[k].path == "/"
  {
  }

  /** Deleting the session cookies after a login leaves the jar as it was, less any session cookie it had. */
  lemma LogoutUndoesLogin(c: map<string, Cookie>, s: UserSession, production: bool)
    requires s.unidadId.Some? && s.puestoId.Some?
    ensures (c + LoginCookies(s, production)) - SessionCookies == c - SessionCookies
  {
    LoginCookieLifetimes(s, production);
  }
}
