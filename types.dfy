/**
 * The role registry of src/types/index.ts: the nine roles, the two shifts,
 * the session record and the three capability sets with their predicates.
 */
module Types {
  import opened Wrappers

  datatype Rol =
    | Admin | Supervisor | Agente | Jefe | Gerente
    | Coordinador | Asistente | CentroDeControl | Oficina

  datatype Turno = Dia | Noche

  /** The session carried by a verified token (the `UserSession` interface). */
  datatype UserSession = UserSession(
    id: string,
    username: string,
    nombres: string,
    apellidos: string,
    rol: Rol,
    unidadId: Option<string>,
    puestoId: Option<string>)

  /** The runtime string of a role: the value stored under its key in `ROL`. */
  function RolName(r: Rol): string {
    match r
    case Admin => "admin"
    case Supervisor => "supervisor"
    case Agente => "agente"
    case Jefe => "jefe"
    case Gerente => "gerente"
    case Coordinador => "coordinador"
    case Asistente => "asistente"
    case CentroDeControl => "centro_de_control"
    case Oficina => "oficina"
  }

  /** `ROL_VALUES`, in the order the source lists them. */
  const RolValues: seq<Rol> :=
    [Admin, Supervisor, Agente, Jefe, Gerente, Coordinador, Asistente, CentroDeControl, Oficina]

  const RolesConHistorial: seq<Rol> := [Admin, Asistente, Jefe, Gerente, CentroDeControl]
  const RolesConMapa: seq<Rol> := [Admin, Asistente, Jefe, Gerente, CentroDeControl]
  const RolesAdmin: seq<Rol> := [Admin]

  predicate TieneAccesoHistorial(r: Rol) { r in RolesConHistorial }
  predicate TieneAccesoMapa(r: Rol) { r in RolesConMapa }
  predicate EsAdmin(r: Rol) { r in RolesAdmin }

  /** `z.enum(ROL_VALUES)`: the role in `values` whose runtime string is `s`, searched in order. */
  function FindRol(s: string, values: seq<Rol>): (r: Option<Rol>)
    ensures r.Some? ==> r.value in values && RolName(r.value) == s
    ensures r.None? ==> forall i :: 0 <= i < |values| ==> RolName(values[i]) != s
  {
    if values == [] then None
    else if RolName(values[0]) == s then Some(values[0])
    else FindRol(s, values[1..])
  }

  /** Parsing a role string: succeeds exactly on the nine runtime names. */
  function ParseRol(s: string): (r: Option<Rol>)
    ensures r.Some? ==> RolName(r.value) == s
    ensures r.None? ==> forall x :: RolName(x) != s
  {
    var r := FindRol(s, RolValues);
    assert r.None? ==> forall x :: RolName(x) != s by {
      if r.None? {
        forall x ensures RolName(x) != s {
          assert RolValues[RolIndex(x)] == x;
        }
      }
    }
    r
  }

  /** The position of each role in `ROL_VALUES`. */
  function RolIndex(r: Rol): (i: nat)
    ensures i < |RolValues| && RolValues[i] == r
  {
    match r
    case Admin => 0
    case Supervisor => 1
    case Agente => 2
    case Jefe => 3
    case Gerente => 4
    case Coordinador => 5
    case Asistente => 6
    case CentroDeControl => 7
    case Oficina => 8
  }

  function TurnoName(t: Turno): string {
    match t
    case Dia => "DIA"
    case Noche => "NOCHE"
  }

  /** `z.nativeEnum(Turno)` on a string enum: accepts exactly the values "DIA" and "NOCHE". */
  function ParseTurno(s: string): (r: Option<Turno>)
    ensures r.Some? <==> s == "DIA" || s == "NOCHE"
    ensures r.Some? ==> TurnoName(r.value) == s
  {
    if s == "DIA" then Some(Dia) else if s == "NOCHE" then Some(Noche) else None
  }

  /** `ROL_VALUES` holds nine pairwise distinct roles and every role of `ROL`. */
  lemma RolValuesComplete()
    ensures |RolValues| == 9
    ensures forall r :: r in RolValues
    ensures forall i, j :: 0 <= i < j < |RolValues| ==> RolValues[i] != RolValues[j]
  {
    forall r: Rol ensures r in RolValues {
      assert RolValues[RolIndex(r)] == r;
    }
  }

  /** Different roles have different runtime strings, so a role string names one role. */
  lemma RolNameInjective(a: Rol, b: Rol)
    requires RolName(a) == RolName(b)
    ensures a == b
  {
    assert RolName(a)[0] == RolName(b)[0];
    assert |RolName(a)| == |RolName(b)|;
    if a.Gerente? || b.Gerente? || a.Agente? || b.Agente? {
      assert RolName(a)[1] == RolName(b)[1];
    }
    if a.Asistente? || b.Asistente? || a.Admin? || b.Admin? {
      assert RolName(a)[1] == RolName(b)[1];
    }
  }

  lemma ParseRolName(r: Rol)
    ensures ParseRol(RolName(r)) == Some(r)
  {
    var p := ParseRol(RolName(r));
    RolNameInjective(p.value, r);
  }

  /** Who sees the history: five roles; supervisor, agente, coordinador and oficina do not. */
  lemma HistorialRoles(r: Rol)
    ensures TieneAccesoHistorial(r) <==> r in {Admin, Asistente, Jefe, Gerente, CentroDeControl}
    ensures !TieneAccesoHistorial(r) <==> r in {Supervisor, Agente, Coordinador, Oficina}
  {
  }

  /** The map set equals the history set, so the two capabilities always agree. */
  lemma MapaIffHistorial(r: Rol)
    ensures TieneAccesoMapa(r) <==> TieneAccesoHistorial(r)
  {
  }

  lemma EsAdminIffAdmin(r: Rol)
    ensures EsAdmin(r) <==> r == Admin
  {
  }

  /** The capability sets are nested: admin is inside history and map. */
  lemma AdminHasEveryCapability(r: Rol)
    ensures EsAdmin(r) ==> TieneAccesoHistorial(r) && TieneAccesoMapa(r)
  {
  }
}
