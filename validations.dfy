/**
 * The request schemas of src/lib/validations.ts as validator functions: each
 * takes the decoded JSON body and returns the typed input, or `None` where the
 * schema's `safeParse` fails. Absent keys are `undefined`; `.optional()`
 * accepts only that, `.default(v)` replaces it by `v`.
 */
module Validations {
  import opened Wrappers
  import opened Types
  import opened Text

  /** A decoded JSON value; arrays and objects only matter here as "not a string, number or boolean". */
  datatype Json = JNull | JBool(b: bool) | JNumber(n: real) | JString(s: string) | JArray | JObject

  type Body = map<string, Json>

  predicate StringAt(b: Body, k: string) {
    k in b && b[k].JString?
  }

  predicate NumberOrAbsent(b: Body, k: string) {
    k !in b || b[k].JNumber?
  }

  predicate StringOrAbsent(b: Body, k: string) {
    k !in b || b[k].JString?
  }

  /** `z.string().uuid()`: the 8-4-4-4-12 pattern of hexadecimal digits. */
  predicate IsUuid(s: string) {
    |s| == 36 &&
    forall i :: 0 <= i < 36 ==>
      if i == 8 || i == 13 || i == 18 || i == 23 then s[i] == '-' else IsHexDigit(s[i])
  }

  predicate IsLineTerminator(c: char) {
    c == '\n' || c == '\r' || c == '\U{2028}' || c == '\U{2029}'
  }

  /** The text before the first line terminator: what `.*` can reach from the start of a string. */
  function FirstLine(s: string): (r: string)
    ensures StartsWith(s, r)
    ensures forall i :: 0 <= i < |r| ==> !IsLineTerminator(r[i])
    ensures |r| < |s| ==> IsLineTerminator(s[|r|])
  {
    if s == [] || IsLineTerminator(s[0]) then [] else [s[0]] + FirstLine(s[1..])
  }

  predicate HasCharIn(s: string, lo: char, hi: char) {
    exists i | 0 <= i < |s| :: lo <= s[i] <= hi
  }

  /**
   * The password rule of user creation and update: at least 8 characters, and the
   * lookaheads `(?=.*[a-z])(?=.*[A-Z])(?=.*\d)` anchored at the start, which only see
   * the first line.
   */
  predicate PasswordRule(p: string) {
    var line := FirstLine(p);
    |p| >= 8 && HasCharIn(line, 'a', 'z') && HasCharIn(line, 'A', 'Z') && HasCharIn(line, '0', '9')
  }

  // Field readers -------------------------------------------------------------

  function ReqString(b: Body, k: string, min: nat): Option<string> {
    if StringAt(b, k) && |b[k].s| >= min then Some(b[k].s) else None
  }

  function ReqStringMax(b: Body, k: string, min: nat, max: nat): Option<string> {
    if StringAt(b, k) && min <= |b[k].s| <= max then Some(b[k].s) else None
  }

  function ReqUuid(b: Body, k: string): Option<string> {
    if StringAt(b, k) && IsUuid(b[k].s) then Some(b[k].s) else None
  }

  function ReqPassword(b: Body, k: string): Option<string> {
    if StringAt(b, k) && PasswordRule(b[k].s) then Some(b[k].s) else None
  }

  function ReqRol(b: Body, k: string): Option<Rol> {
    if StringAt(b, k) then ParseRol(b[k].s) else None
  }

  /** An `.optional()` field: `Some(None)` when absent, `None` when present and rejected. */
  function OptString(b: Body, k: string, min: nat): (r: Option<Option<string>>)
    ensures r.Some? <==> (k in b ==> b[k].JString? && |b[k].s| >= min)
    ensures r.Some? ==> r.value == (if k in b then Some(b[k].s) else None)
  {
    if k !in b then Some(None)
    else if b[k].JString? && |b[k].s| >= min then Some(Some(b[k].s))
    else None
  }

  function OptPassword(b: Body, k: string): Option<Option<string>> {
    if k !in b then Some(None)
    else if b[k].JString? && PasswordRule(b[k].s) then Some(Some(b[k].s))
    else None
  }

  function OptNumber(b: Body, k: string): (r: Option<Option<real>>)
    ensures r.Some? <==> (k in b ==> b[k].JNumber?)
    ensures r.Some? ==> r.value == (if k in b then Some(b[k].n) else None)
  {
    if k !in b then Some(None)
    else if b[k].JNumber? then Some(Some(b[k].n))
    else None
  }

  function OptBool(b: Body, k: string): Option<Option<bool>> {
    if k !in b then Some(None)
    else if b[k].JBool? then Some(Some(b[k].b))
    else None
  }

  function OptRol(b: Body, k: string): (r: Option<Option<Rol>>)
    ensures r.Some? <==> (k in b ==> b[k].JString? && ParseRol(b[k].s).Some?)
    ensures r.Some? ==> r.value == (if k in b then ParseRol(b[k].s) else None)
  {
    if k !in b then Some(None)
    else if b[k].JString? && ParseRol(b[k].s).Some? then Some(ParseRol(b[k].s))
    else None
  }

  /** `z.boolean().default(d)`. */
  function BoolDefault(b: Body, k: string, d: bool): Option<bool> {
    if k !in b then Some(d)
    else if b[k].JBool? then Some(b[k].b)
    else None
  }

  /** `z.string().default(d)`. */
  function StringDefault(b: Body, k: string, d: string): (r: Option<string>)
    ensures r.Some? <==> (k in b ==> b[k].JString?)
    ensures r.Some? ==> r.value == (if k in b then b[k].s else d)
  {
    if k !in b then Some(d)
    else if b[k].JString? then Some(b[k].s)
    else None
  }

  // Schemas -------------------------------------------------------------------

  datatype LoginInput = LoginInput(username: string, password: string, unidadId: string, puestoId: string)

  /** `loginSchema`. */
  function LoginSchema(b: Body): (r: Option<LoginInput>)
    ensures r.Some? <==>
      && StringAt(b, "username") && |b["username"].s| >= 3
      && StringAt(b, "password") && |b["password"].s| >= 6
      && StringAt(b, "unidadId") && IsUuid(b["unidadId"].s)
      && StringAt(b, "puestoId") && IsUuid(b["puestoId"].s)
    ensures r.Some? ==>
      r.value == LoginInput(b["username"].s, b["password"].s, b["unidadId"].s, b["puestoId"].s)
  {
    var username :- ReqString(b, "username", 3);
    var password :- ReqString(b, "password", 6);
    var unidadId :- ReqUuid(b, "unidadId");
    var puestoId :- ReqUuid(b, "puestoId");
    Some(LoginInput(username, password, unidadId, puestoId))
  }

  datatype CrearUsuarioInput = CrearUsuarioInput(
    username: string, password: string, nombres: string, apellidos: string, rol: Rol, activo: bool)

  /** `crearUsuarioSchema`. */
  function CrearUsuarioSchema(b: Body): (r: Option<CrearUsuarioInput>)
    ensures r.Some? <==>
      && StringAt(b, "username") && 3 <= |b["username"].s| <= 50
      && StringAt(b, "password") && PasswordRule(b["password"].s)
      && StringAt(b, "nombres") && |b["nombres"].s| >= 2
      && StringAt(b, "apellidos") && |b["apellidos"].s| >= 2
      && StringAt(b, "rol") && ParseRol(b["rol"].s).Some?
      && ("activo" in b ==> b["activo"].JBool?)
    ensures r.Some? ==>
      && r.value.username == b["username"].s
      && r.value.password == b["password"].s
      && RolName(r.value.rol) == b["rol"].s
      && r.value.activo == ("activo" !in b || b["activo"].b)
  {
    var username :- ReqStringMax(b, "username", 3, 50);
    var password :- ReqPassword(b, "password");
    var nombres :- ReqString(b, "nombres", 2);
    var apellidos :- ReqString(b, "apellidos", 2);
    var rol :- ReqRol(b, "rol");
    var activo :- BoolDefault(b, "activo", true);
    Some(CrearUsuarioInput(username, password, nombres, apellidos, rol, activo))
  }

  datatype ActualizarUsuarioInput = ActualizarUsuarioInput(
    nombres: Option<string>, apellidos: Option<string>, rol: Option<Rol>,
    activo: Option<bool>, password: Option<string>)

  /** `actualizarUsuarioSchema`: every field optional; a present password obeys the creation rule. */
  function ActualizarUsuarioSchema(b: Body): (r: Option<ActualizarUsuarioInput>)
    ensures "password" in b && r.Some? ==>
      b["password"].JString? && PasswordRule(b["password"].s) && r.value.password == Some(b["password"].s)
    ensures "password" !in b && r.Some? ==> r.value.password.None?
    ensures "password" in b && b["password"].JString? && !PasswordRule(b["password"].s) ==> r.None?
    ensures r.Some? <==>
      && ("nombres" in b ==> StringAt(b, "nombres") && |b["nombres"].s| >= 2)
      && ("apellidos" in b ==> StringAt(b, "apellidos") && |b["apellidos"].s| >= 2)
      && ("rol" in b ==> StringAt(b, "rol") && ParseRol(b["rol"].s).Some?)
      && ("activo" in b ==> b["activo"].JBool?)
      && ("password" in b ==> StringAt(b, "password") && PasswordRule(b["password"].s))
  {
    var nombres :- OptString(b, "nombres", 2);
    var apellidos :- OptString(b, "apellidos", 2);
    var rol :- OptRol(b, "rol");
    var activo :- OptBool(b, "activo");
    var password :- OptPassword(b, "password");
    Some(ActualizarUsuarioInput(nombres, apellidos, rol, activo, password))
  }

  datatype CrearUnidadInput = CrearUnidadInput(nombre: string, ciudad: string, direccion: Option<string>, activo: bool)

  /** `crearUnidadSchema`. */
  function CrearUnidadSchema(b: Body): (r: Option<CrearUnidadInput>)
    ensures r.Some? <==>
      && StringAt(b, "nombre") && |b["nombre"].s| >= 2
      && StringAt(b, "ciudad") && |b["ciudad"].s| >= 2
      && StringOrAbsent(b, "direccion")
      && ("activo" in b ==> b["activo"].JBool?)
    ensures r.Some? ==> r.value.activo == ("activo" !in b || b["activo"].b)
  {
    var nombre :- ReqString(b, "nombre", 2);
    var ciudad :- ReqString(b, "ciudad", 2);
    var direccion :- OptString(b, "direccion", 0);
    var activo :- BoolDefault(b, "activo", true);
    Some(CrearUnidadInput(nombre, ciudad, direccion, activo))
  }

  datatype ActualizarUnidadInput = ActualizarUnidadInput(
    nombre: Option<string>, ciudad: Option<string>, direccion: Option<string>, activo: Option<bool>)

  /** `actualizarUnidadSchema`. */
  function ActualizarUnidadSchema(b: Body): (r: Option<ActualizarUnidadInput>)
    ensures r.Some? <==>
      && ("nombre" in b ==> StringAt(b, "nombre") && |b["nombre"].s| >= 2)
      && ("ciudad" in b ==> StringAt(b, "ciudad") && |b["ciudad"].s| >= 2)
      && StringOrAbsent(b, "direccion")
      && ("activo" in b ==> b["activo"].JBool?)
  {
    var nombre :- OptString(b, "nombre", 2);
    var ciudad :- OptString(b, "ciudad", 2);
    var direccion :- OptString(b, "direccion", 0);
    var activo :- OptBool(b, "activo");
    Some(ActualizarUnidadInput(nombre, ciudad, direccion, activo))
  }

  datatype CrearPuestoInput = CrearPuestoInput(unidadId: string, nombre: string, activo: bool)

  /** `crearPuestoSchema`. */
  function CrearPuestoSchema(b: Body): (r: Option<CrearPuestoInput>)
    ensures r.Some? <==>
      && StringAt(b, "unidadId") && IsUuid(b["unidadId"].s)
      && StringAt(b, "nombre") && |b["nombre"].s| >= 2
      && ("activo" in b ==> b["activo"].JBool?)
    ensures r.Some? ==> r.value.activo == ("activo" !in b || b["activo"].b)
  {
    var unidadId :- ReqUuid(b, "unidadId");
    var nombre :- ReqString(b, "nombre", 2);
    var activo :- BoolDefault(b, "activo", true);
    Some(CrearPuestoInput(unidadId, nombre, activo))
  }

  datatype ActualizarPuestoInput = ActualizarPuestoInput(nombre: Option<string>, activo: Option<bool>)

  /** `actualizarPuestoSchema`. */
  function ActualizarPuestoSchema(b: Body): (r: Option<ActualizarPuestoInput>)
    ensures r.Some? <==>
      && ("nombre" in b ==> StringAt(b, "nombre") && |b["nombre"].s| >= 2)
      && ("activo" in b ==> b["activo"].JBool?)
  {
    var nombre :- OptString(b, "nombre", 2);
    var activo :- OptBool(b, "activo");
    Some(ActualizarPuestoInput(nombre, activo))
  }

  datatype CheckInInput = CheckInInput(
    unidadId: string, puestoId: string, lat: Option<real>, lng: Option<real>,
    ciudadDetectada: Option<string>, deviceInfo: Option<string>)

  /** `checkInSchema`: UUID unit and post; coordinates, city and device optional. */
  function CheckInSchema(b: Body): (r: Option<CheckInInput>)
    ensures r.Some? <==>
      && StringAt(b, "unidadId") && IsUuid(b["unidadId"].s)
      && StringAt(b, "puestoId") && IsUuid(b["puestoId"].s)
      && NumberOrAbsent(b, "lat") && NumberOrAbsent(b, "lng")
      && StringOrAbsent(b, "ciudadDetectada") && StringOrAbsent(b, "deviceInfo")
    ensures r.Some? ==>
      && r.value.unidadId == b["unidadId"].s && r.value.puestoId == b["puestoId"].s
    ensures r.Some? ==>
      && r.value.lat == (if "lat" in b then Some(b["lat"].n) else None)
      && r.value.lng == (if "lng" in b then Some(b["lng"].n) else None)
      && r.value.ciudadDetectada == (if "ciudadDetectada" in b then Some(b["ciudadDetectada"].s) else None)
      && r.value.deviceInfo == (if "deviceInfo" in b then Some(b["deviceInfo"].s) else None)
  {
    var unidadId :- ReqUuid(b, "unidadId");
    var puestoId :- ReqUuid(b, "puestoId");
    var lat :- OptNumber(b, "lat");
    var lng :- OptNumber(b, "lng");
    var ciudad :- OptString(b, "ciudadDetectada", 0);
    var device :- OptString(b, "deviceInfo", 0);
    Some(CheckInInput(unidadId, puestoId, lat, lng, ciudad, device))
  }

  datatype CheckOutInput = CheckOutInput(asistenciaId: string, lat: Option<real>, lng: Option<real>)

  /** `checkOutSchema`. */
  function CheckOutSchema(b: Body): (r: Option<CheckOutInput>)
    ensures r.Some? <==>
      && StringAt(b, "asistenciaId") && IsUuid(b["asistenciaId"].s)
      && NumberOrAbsent(b, "lat") && NumberOrAbsent(b, "lng")
    ensures r.Some? ==> r.value.asistenciaId == b["asistenciaId"].s
    ensures r.Some? ==>
      && r.value.lat == (if "lat" in b then Some(b["lat"].n) else None)
      && r.value.lng == (if "lng" in b then Some(b["lng"].n) else None)
  {
    var id :- ReqUuid(b, "asistenciaId");
    var lat :- OptNumber(b, "lat");
    var lng :- OptNumber(b, "lng");
    Some(CheckOutInput(id, lat, lng))
  }

  datatype Estado = SoloIngreso | Completo

  function ParseEstado(s: string): (r: Option<Estado>)
    ensures r.Some? <==> s == "solo_ingreso" || s == "completo"
  {
    if s == "solo_ingreso" then Some(SoloIngreso)
    else if s == "completo" then Some(Completo)
    else None
  }

  function OptTurno(b: Body, k: string): (r: Option<Option<Turno>>)
    ensures r.Some? <==> (k in b ==> b[k].JString? && ParseTurno(b[k].s).Some?)
    ensures r.Some? ==> r.value == (if k in b then ParseTurno(b[k].s) else None)
  {
    if k !in b then Some(None)
    else if b[k].JString? && ParseTurno(b[k].s).Some? then Some(ParseTurno(b[k].s))
    else None
  }

  function OptEstado(b: Body, k: string): (r: Option<Option<Estado>>)
    ensures r.Some? <==> (k in b ==> b[k].JString? && ParseEstado(b[k].s).Some?)
    ensures r.Some? ==> r.value == (if k in b then ParseEstado(b[k].s) else None)
  {
    if k !in b then Some(None)
    else if b[k].JString? && ParseEstado(b[k].s).Some? then Some(ParseEstado(b[k].s))
    else None
  }

  /** Dates and identifiers of `filtroAsistenciaSchema`: optional strings. */
  function FiltroAlcance(b: Body): (r: Option<(Option<string>, Option<string>, Option<string>, Option<string>, Option<string>)>)
    ensures r.Some? <==>
      && StringOrAbsent(b, "fechaDesde") && StringOrAbsent(b, "fechaHasta")
      && StringOrAbsent(b, "unidadId") && StringOrAbsent(b, "puestoId") && StringOrAbsent(b, "userId")
    ensures r.Some? ==>
      && r.value.0 == (if "fechaDesde" in b then Some(b["fechaDesde"].s) else None)
      && r.value.1 == (if "fechaHasta" in b then Some(b["fechaHasta"].s) else None)
      && r.value.2 == (if "unidadId" in b then Some(b["unidadId"].s) else None)
      && r.value.3 == (if "puestoId" in b then Some(b["puestoId"].s) else None)
      && r.value.4 == (if "userId" in b then Some(b["userId"].s) else None)
  {
    var fechaDesde :- OptString(b, "fechaDesde", 0);
    var fechaHasta :- OptString(b, "fechaHasta", 0);
    var unidadId :- OptString(b, "unidadId", 0);
    var puestoId :- OptString(b, "puestoId", 0);
    var userId :- OptString(b, "userId", 0);
    Some((fechaDesde, fechaHasta, unidadId, puestoId, userId))
  }

  /** Role, shift and state of `filtroAsistenciaSchema`: optional enum members. */
  function FiltroEnums(b: Body): (r: Option<(Option<Rol>, Option<Turno>, Option<Estado>)>)
    ensures r.Some? <==>
      && ("rol" in b ==> StringAt(b, "rol") && ParseRol(b["rol"].s).Some?)
      && ("turno" in b ==> b["turno"] == JString("DIA") || b["turno"] == JString("NOCHE"))
      && ("estado" in b ==> b["estado"] == JString("solo_ingreso") || b["estado"] == JString("completo"))
    ensures r.Some? ==>
      && r.value.0 == (if "rol" in b then ParseRol(b["rol"].s) else None)
      && r.value.1 == (if "turno" in b then ParseTurno(b["turno"].s) else None)
      && r.value.2 == (if "estado" in b then ParseEstado(b["estado"].s) else None)
  {
    var rol :- OptRol(b, "rol");
    var turno :- OptTurno(b, "turno");
    var estado :- OptEstado(b, "estado");
    Some((rol, turno, estado))
  }

  /** City, search text and paging of `filtroAsistenciaSchema`; page and page size default to "1" and "20". */
  function FiltroTexto(b: Body): (r: Option<(Option<string>, Option<string>, string, string)>)
    ensures r.Some? <==>
      && StringOrAbsent(b, "ciudad") && StringOrAbsent(b, "busqueda")
      && StringOrAbsent(b, "pagina") && StringOrAbsent(b, "porPagina")
    ensures r.Some? ==>
      && r.value.0 == (if "ciudad" in b then Some(b["ciudad"].s) else None)
      && r.value.1 == (if "busqueda" in b then Some(b["busqueda"].s) else None)
      && r.value.2 == (if "pagina" in b then b["pagina"].s else "1")
      && r.value.3 == (if "porPagina" in b then b["porPagina"].s else "20")
  {
    var ciudad :- OptString(b, "ciudad", 0);
    var busqueda :- OptString(b, "busqueda", 0);
    var pagina :- StringDefault(b, "pagina", "1");
    var porPagina :- StringDefault(b, "porPagina", "20");
    Some((ciudad, busqueda, pagina, porPagina))
  }

  datatype Filtro = Filtro(
    fechaDesde: Option<string>, fechaHasta: Option<string>,
    unidadId: Option<string>, puestoId: Option<string>, userId: Option<string>,
    rol: Option<Rol>, turno: Option<Turno>, estado: Option<Estado>,
    ciudad: Option<string>, busqueda: Option<string>,
    pagina: string, porPagina: string)

  /**
   * `filtroAsistenciaSchema`: every filter optional; role, shift and state must be members
   * of their enums; page and page size default to "1" and "20".
   */
  function FiltroAsistenciaSchema(b: Body): (r: Option<Filtro>)
    ensures r.Some? <==>
      && StringOrAbsent(b, "fechaDesde") && StringOrAbsent(b, "fechaHasta")
      && StringOrAbsent(b, "unidadId") && StringOrAbsent(b, "puestoId") && StringOrAbsent(b, "userId")
      && ("rol" in b ==> StringAt(b, "rol") && ParseRol(b["rol"].s).Some?)
      && ("turno" in b ==> b["turno"] == JString("DIA") || b["turno"] == JString("NOCHE"))
      && ("estado" in b ==> b["estado"] == JString("solo_ingreso") || b["estado"] == JString("completo"))
      && StringOrAbsent(b, "ciudad") && StringOrAbsent(b, "busqueda")
      && StringOrAbsent(b, "pagina") && StringOrAbsent(b, "porPagina")
    ensures r.Some? ==>
      && r.value.fechaDesde == (if "fechaDesde" in b then Some(b["fechaDesde"].s) else None)
      && r.value.fechaHasta == (if "fechaHasta" in b then Some(b["fechaHasta"].s) else None)
      && r.value.unidadId == (if "unidadId" in b then Some(b["unidadId"].s) else None)
      && r.value.puestoId == (if "puestoId" in b then Some(b["puestoId"].s) else None)
      && r.value.userId == (if "userId" in b then Some(b["userId"].s) else None)
    ensures r.Some? ==>
      && r.value.rol == (if "rol" in b then ParseRol(b["rol"].s) else None)
      && r.value.turno == (if "turno" in b then ParseTurno(b["turno"].s) else None)
      && r.value.estado == (if "estado" in b then ParseEstado(b["estado"].s) else None)
    ensures r.Some? ==>
      && r.value.ciudad == (if "ciudad" in b then Some(b["ciudad"].s) else None)
      && r.value.busqueda == (if "busqueda" in b then Some(b["busqueda"].s) else None)
      && r.value.pagina == (if "pagina" in b then b["pagina"].s else "1")
      && r.value.porPagina == (if "porPagina" in b then b["porPagina"].s else "20")
  {
    var alcance :- FiltroAlcance(b);
    var enums :- FiltroEnums(b);
    var texto :- FiltroTexto(b);
    Some(Filtro(alcance.0, alcance.1, alcance.2, alcance.3, alcance.4,
                enums.0, enums.1, enums.2, texto.0, texto.1, texto.2, texto.3))
  }

  // Properties ----------------------------------------------------------------

  /** Every body that creates a user is also a valid update of one (unknown keys are stripped). */
  lemma CreationBodyIsValidUpdate(b: Body)
    requires CrearUsuarioSchema(b).Some?
    ensures ActualizarUsuarioSchema(b).Some?
    ensures ActualizarUsuarioSchema(b).value.password == Some(CrearUsuarioSchema(b).value.password)
  {
  }

  /** An empty update is accepted and changes nothing. */
  lemma EmptyUpdateAccepted()
    ensures ActualizarUsuarioSchema(map[]) == Some(ActualizarUsuarioInput(None, None, None, None, None))
    ensures ActualizarUnidadSchema(map[]).Some? && ActualizarPuestoSchema(map[]).Some?
  {
  }

  lemma {:induction false} FirstLineUpTo(s: string, k: nat)
    requires k <= |s|
    requires forall i :: 0 <= i < k ==> !IsLineTerminator(s[i])
    requires k < |s| ==> IsLineTerminator(s[k])
    ensures FirstLine(s) == s[..k]
  {
    if k > 0 {
      FirstLineUpTo(s[1..], k - 1);
      assert s[..k] == [s[0]] + s[1..][..k - 1];
    }
  }

  /**
   * Because `.` stops at a line break, digits after the first line break do not
   * count: a password whose first line has no digit fails the rule, whatever follows.
   */
  lemma DigitAfterLineBreakRejected(line: string, rest: string)
    requires forall i :: 0 <= i < |line| ==> !IsLineTerminator(line[i]) && !('0' <= line[i] <= '9')
    ensures !PasswordRule(line + "\n" + rest)
  {
    var p := line + "\n" + rest;
    assert p[|line|] == '\n';
    FirstLineUpTo(p, |line|);
    assert p[..|line|] == line;
  }

  /** The same letters with the digit on the first line satisfy the rule. */
  lemma DigitOnFirstLineAccepted()
    ensures PasswordRule("Abcdefg1")
  {
    var q := "Abcdefg1";
    FirstLineUpTo(q, 8);
    assert q[..8] == q;
    assert 'a' <= q[1] <= 'z' && 'A' <= q[0] <= 'Z' && '0' <= q[7] <= '9';
  }

  /** The page parameters are plain strings: a non-numeric page passes the schema. */
  lemma NonNumericPageAccepted()
    ensures FiltroAsistenciaSchema(map["pagina" := JString("abc")]).Some?
    ensures FiltroAsistenciaSchema(map[]).Some?
    ensures FiltroAsistenciaSchema(map[]).value.pagina == "1"
    ensures FiltroAsistenciaSchema(map[]).value.porPagina == "20"
  {
  }
}
