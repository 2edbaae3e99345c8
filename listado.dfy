/**
 * The attendance history (GET /api/asistencias): query parameters become the
 * `filtros` object, the filter schema checks it, a where clause is built from
 * it step by step, and the database counts and pages the matching records.
 */
module Listado {
  import opened Wrappers
  import opened Types
  import opened Text
  import opened Validations
  import opened Asistencias
  import opened Http

  /** What a record joins to: its user's names and role, its unit's name and its post's name. */
  datatype Related = Related(nombres: string, apellidos: string, rol: Rol, unidadNombre: string, puestoNombre: string)

  /** The optional query parameters, in the order the handler reads them. */
  const FilterKeys: seq<string> :=
    ["fechaDesde", "fechaHasta", "unidadId", "puestoId", "userId", "rol", "turno", "estado", "ciudad", "busqueda"]

  /** `searchParams.get(k) || undefined`: an empty parameter counts as absent. */
  function Param(q: map<string, string>, k: string): (r: Option<string>)
    ensures r.Some? <==> k in q && q[k] != ""
    ensures r.Some? ==> r.value == q[k]
  {
    if k in q && q[k] != "" then Some(q[k]) else None
  }

  /** The `filtros` object the handler builds from the query. */
  function QueryFiltros(q: map<string, string>): (b: Body)
    ensures forall k :: k in FilterKeys ==> (k in b <==> Param(q, k).Some?)
    ensures forall k :: k in FilterKeys && k in b ==> b[k] == JString(Param(q, k).value)
    ensures "pagina" in b && "porPagina" in b
    ensures b["pagina"] == JString(if Param(q, "pagina").Some? then q["pagina"] else "1")
    ensures b["porPagina"] == JString(if Param(q, "porPagina").Some? then q["porPagina"] else "20")
    ensures forall k :: k in b ==> k in FilterKeys || k == "pagina" || k == "porPagina"
  {
    var opt := map k | k in FilterKeys && Param(q, k).Some? :: JString(q[k]);
    var pagina := if Param(q, "pagina").Some? then q["pagina"] else "1";
    var porPagina := if Param(q, "porPagina").Some? then q["porPagina"] else "20";
    opt["pagina" := JString(pagina)]["porPagina" := JString(porPagina)]
  }

  // The where clause ------------------------------------------------------------

  datatype Range = Range(gte: Option<string>, lte: Option<string>)

  /** A condition on a nullable column. */
  datatype NullCond = AnyValue | IsNull | NotNull

  datatype Where = Where(
    fechaTurno: Option<Range>, unidadId: Option<string>, puestoId: Option<string>, userId: Option<string>,
    turno: Option<Turno>, ciudadDetectada: Option<string>, checkInAt: NullCond, checkOutAt: NullCond,
    busqueda: Option<string>, usuarioRol: Option<Rol>)

  predicate NullOk(c: NullCond, v: Option<int>) {
    match c
    case AnyValue => true
    case IsNull => v.None?
    case NotNull => v.Some?
  }

  predicate EqOk<T(==)>(c: Option<T>, v: T) {
    c.None? || c.value == v
  }

  /** `{ gte, lte }` on a string column compares lexicographically. */
  predicate InRange(r: Option<Range>, v: string) {
    r.None? || (
      && (r.value.gte.None? || LexLe(r.value.gte.value, v))
      && (r.value.lte.None? || LexLe(v, r.value.lte.value)))
  }

  /** `{ contains, mode: "insensitive" }` on any of the four joined names. */
  predicate SearchHits(b: string, rel: Related) {
    || ContainsInsensitive(rel.nombres, b) || ContainsInsensitive(rel.apellidos, b)
    || ContainsInsensitive(rel.unidadNombre, b) || ContainsInsensitive(rel.puestoNombre, b)
  }

  /** How the database evaluates a where clause on a record and the rows it joins to. */
  predicate Matches(w: Where, a: Asistencia, rel: Related) {
    && InRange(w.fechaTurno, a.fechaTurno)
    && EqOk(w.unidadId, a.unidadId) && EqOk(w.puestoId, a.puestoId) && EqOk(w.userId, a.userId)
    && EqOk(w.turno, a.turno)
    && (w.ciudadDetectada.None? ||
        (a.ciudadDetectada.Some? && ContainsInsensitive(a.ciudadDetectada.value, w.ciudadDetectada.value)))
    && NullOk(w.checkInAt, a.checkInAt) && NullOk(w.checkOutAt, a.checkOutAt)
    && (w.busqueda.None? || SearchHits(w.busqueda.value, rel))
    && EqOk(w.usuarioRol, rel.rol)
  }

  /** A filter value is used when it is truthy: present and non-empty. */
  predicate Given(o: Option<string>) {
    o.Some? && |o.value| > 0
  }

  /** The records a filter asks for, stated filter by filter. */
  predicate Selects(f: Filtro, a: Asistencia, rel: Related) {
    && (Given(f.fechaDesde) ==> LexLe(f.fechaDesde.value, a.fechaTurno))
    && (Given(f.fechaHasta) ==> LexLe(a.fechaTurno, f.fechaHasta.value))
    && (Given(f.unidadId) ==> a.unidadId == f.unidadId.value)
    && (Given(f.puestoId) ==> a.puestoId == f.puestoId.value)
    && (Given(f.userId) ==> a.userId == f.userId.value)
    && (f.turno.Some? ==> a.turno == f.turno.value)
    && (Given(f.ciudad) ==> a.ciudadDetectada.Some? && ContainsInsensitive(a.ciudadDetectada.value, f.ciudad.value))
    && (f.estado == Some(SoloIngreso) ==> a.checkInAt.Some? && a.checkOutAt.None?)
    && (f.estado == Some(Completo) ==> a.checkOutAt.Some?)
    && (Given(f.busqueda) ==> SearchHits(f.busqueda.value, rel))
    && (f.rol.Some? ==> rel.rol == f.rol.value)
  }

  /** The where clause the handler's steps leave, field by field. */
  ghost predicate BuiltFecha(w: Where, f: Filtro) {
    w.fechaTurno == (
      if Given(f.fechaDesde) && Given(f.fechaHasta) then Some(Range(f.fechaDesde, f.fechaHasta))
      else if Given(f.fechaDesde) then Some(Range(f.fechaDesde, None))
      else if Given(f.fechaHasta) then Some(Range(None, f.fechaHasta))
      else None)
  }

  ghost predicate BuiltIds(w: Where, f: Filtro) {
    && w.unidadId == (if Given(f.unidadId) then f.unidadId else None)
    && w.puestoId == (if Given(f.puestoId) then f.puestoId else None)
    && w.userId == (if Given(f.userId) then f.userId else None)
  }

  ghost predicate BuiltTurnoCiudad(w: Where, f: Filtro) {
    && w.turno == f.turno
    && w.ciudadDetectada == (if Given(f.ciudad) then f.ciudad else None)
  }

  ghost predicate BuiltEstado(w: Where, f: Filtro) {
    && w.checkInAt == (if f.estado == Some(SoloIngreso) then NotNull else AnyValue)
    && w.checkOutAt == (
        if f.estado == Some(SoloIngreso) then IsNull
        else if f.estado == Some(Completo) then NotNull
        else AnyValue)
  }

  ghost predicate BuiltUsuario(w: Where, f: Filtro) {
    && w.busqueda == (if Given(f.busqueda) then f.busqueda else None)
    && w.usuarioRol == f.rol
  }

  ghost predicate Built(w: Where, f: Filtro) {
    BuiltFecha(w, f) && BuiltIds(w, f) && BuiltTurnoCiudad(w, f) && BuiltEstado(w, f) && BuiltUsuario(w, f)
  }

  lemma BuiltMatches(w: Where, f: Filtro)
    requires Built(w, f)
    ensures forall a, rel :: Matches(w, a, rel) <==> Selects(f, a, rel)
  {
  }

  /** The date range condition: both bounds, one of them, or none. */
  method AddFecha(w: Where, f: Filtro) returns (w': Where)
    ensures BuiltFecha(w', f) && w' == w.(fechaTurno := w'.fechaTurno)
  {
    w' := w;
    if Given(f.fechaDesde) && Given(f.fechaHasta) {
      w' := w'.(fechaTurno := Some(Range(f.fechaDesde, f.fechaHasta)));
    } else if Given(f.fechaDesde) {
      w' := w'.(fechaTurno := Some(Range(f.fechaDesde, None)));
    } else if Given(f.fechaHasta) {
      w' := w'.(fechaTurno := Some(Range(None, f.fechaHasta)));
    } else {
      w' := w'.(fechaTurno := None);
    }
  }

  /** The equality conditions on unit, post and user. */
  method AddIds(w: Where, f: Filtro) returns (w': Where)
    ensures BuiltIds(w', f) && w' == w.(unidadId := w'.unidadId, puestoId := w'.puestoId, userId := w'.userId)
  {
    w' := w.(unidadId := None, puestoId := None, userId := None);
    if Given(f.unidadId) { w' := w'.(unidadId := f.unidadId); }
    if Given(f.puestoId) { w' := w'.(puestoId := f.puestoId); }
    if Given(f.userId) { w' := w'.(userId := f.userId); }
  }

  /** The shift and the case-insensitive city conditions. */
  method AddTurnoCiudad(w: Where, f: Filtro) returns (w': Where)
    ensures BuiltTurnoCiudad(w', f) && w' == w.(turno := w'.turno, ciudadDetectada := w'.ciudadDetectada)
  {
    w' := w.(turno := None, ciudadDetectada := None);
    if f.turno.Some? { w' := w'.(turno := f.turno); }
    if Given(f.ciudad) { w' := w'.(ciudadDetectada := f.ciudad); }
  }

  /** The state conditions on the check-in and check-out columns. */
  method AddEstado(w: Where, f: Filtro) returns (w': Where)
    ensures BuiltEstado(w', f) && w' == w.(checkInAt := w'.checkInAt, checkOutAt := w'.checkOutAt)
  {
    w' := w.(checkInAt := AnyValue, checkOutAt := AnyValue);
    if f.estado == Some(SoloIngreso) {
      w' := w'.(checkInAt := NotNull, checkOutAt := IsNull);
    } else if f.estado == Some(Completo) {
      w' := w'.(checkOutAt := NotNull);
    }
  }

  /** The search over the joined names and the role of the record's user. */
  method AddUsuario(w: Where, f: Filtro) returns (w': Where)
    ensures BuiltUsuario(w', f) && w' == w.(busqueda := w'.busqueda, usuarioRol := w'.usuarioRol)
  {
    w' := w.(busqueda := None, usuarioRol := None);
    if Given(f.busqueda) { w' := w'.(busqueda := f.busqueda); }
    if f.rol.Some? { w' := w'.(usuarioRol := f.rol); }
  }

  /** The handler's `where` object, built one group of filters at a time. */
  method BuildWhere(f: Filtro) returns (w: Where)
    ensures forall a, rel :: Matches(w, a, rel) <==> Selects(f, a, rel)
  {
    w := Where(None, None, None, None, None, None, AnyValue, AnyValue, None, None);
    w := AddFecha(w, f);
    w := AddIds(w, f);
    w := AddTurnoCiudad(w, f);
    w := AddEstado(w, f);
    w := AddUsuario(w, f);
    BuiltMatches(w, f);
  }

  // Pagination ------------------------------------------------------------------

  datatype Paginacion = Paginacion(pagina: int, porPagina: int, skip: int, total: nat, totalPaginas: Option<int>)

  /** `Math.ceil(total / limit)`; a zero page size gives a non-finite value, serialised as null (`None`). */
  function TotalPaginas(total: nat, limit: int): (r: Option<int>)
    ensures r.None? <==> limit == 0
    ensures limit > 0 ==> (r.value - 1) * limit < total <= r.value * limit
    ensures limit < 0 ==> r.value * limit <= total < (r.value - 1) * limit
  {
    if limit == 0 then None
    else if limit > 0 then Some((total + limit - 1) / limit)
    else Some(-(total / -limit))
  }

  /**
   * `parseInt` of page and page size and `skip = (page - 1) * limit`. A page or size
   * that is not a number, or a negative skip, makes the query fail (`None`, a 500).
   */
  function Pagination(pagina: string, porPagina: string, total: nat): (r: Option<Paginacion>)
    ensures r.Some? <==>
      ParseInt(pagina).Some? && ParseInt(porPagina).Some? &&
      (ParseInt(pagina).value - 1) * ParseInt(porPagina).value >= 0
    ensures r.Some? ==>
      && r.value.pagina == ParseInt(pagina).value && r.value.porPagina == ParseInt(porPagina).value
      && r.value.total == total && r.value.totalPaginas == TotalPaginas(total, r.value.porPagina)
    ensures r.Some? ==> r.value.skip == (ParseInt(pagina).value - 1) * ParseInt(porPagina).value
  {
    var page :- ParseInt(pagina);
    var limit :- ParseInt(porPagina);
    if (page - 1) * limit < 0 then None
    else Some(Paginacion(page, limit, (page - 1) * limit, total, TotalPaginas(total, limit)))
  }

  /** With a positive page size, every one of the `total` records falls on a page numbered 1 to `totalPaginas`. */
  lemma PagesCoverTotal(total: nat, limit: int, i: nat)
    requires limit > 0 && i < total
    ensures var p := i / limit + 1;
      1 <= p <= TotalPaginas(total, limit).value && (p - 1) * limit <= i < p * limit
  {
    var p := i / limit + 1;
    assert (p - 1) * limit <= i < p * limit;
  }

  /** The default page is the first one, of 20 records, starting at record 0. */
  lemma DefaultPagination(total: nat)
    ensures Pagination("1", "20", total) == Some(Paginacion(1, 20, 0, total, TotalPaginas(total, 20)))
  {
    ParseIntDecimal(1);
    ParseIntDecimal(20);
    assert DecimalString(1) == "1";
    assert DecimalString(20) == "20";
  }

  // The listing -----------------------------------------------------------------

  /** The ids a where clause matches are the ids its filter selects, when the two agree on every record. */
  lemma MatchingIsSelected(db: Db, w: Where, f: Filtro, join: Asistencia -> Related)
    requires forall a, rel :: Matches(w, a, rel) <==> Selects(f, a, rel)
    ensures (set id | id in db.records && Matches(w, db.records[id], join(db.records[id]))) == Selected(db, f, join)
  {
  }

  datatype Listing = Listing(matching: set<string>, paginacion: Paginacion)

  const MsgFiltrosInvalidos := "Filtros inválidos"

  /** The ids of the records a filter selects. */
  function Selected(db: Db, f: Filtro, join: Asistencia -> Related): (s: set<string>)
    ensures forall id :: id in s <==> id in db.records && Selects(f, db.records[id], join(db.records[id]))
  {
    set id | id in db.records && Selects(f, db.records[id], join(db.records[id]))
  }

  /** Counting and paging the records a valid filter selects. */
  function ListFiltered(db: Db, f: Filtro, join: Asistencia -> Related): (r: Response<Listing>)
    ensures r.Ok? ==> r.status == 200 && r.value.matching == Selected(db, f, join)
    ensures r.Ok? ==> r.value.paginacion.total == |Selected(db, f, join)|
    ensures r.Error? ==> r == Error(500, ErrorInterno) && Pagination(f.pagina, f.porPagina, 0).None?
  {
    var sel := Selected(db, f, join);
    match Pagination(f.pagina, f.porPagina, |sel|)
    case None => Error(500, ErrorInterno)
    case Some(p) => Ok(200, Listing(sel, p))
  }

  /**
   * GET /api/asistencias as written: the restriction for roles without history
   * access is written into `filtros` after the filter values were taken from it,
   * so the where clause never sees it.
   */
  function ListStep(db: Db, user: Option<UserSession>, q: map<string, string>,
                    join: Asistencia -> Related): (r: Response<Listing>)
    ensures user.None? ==> r == Error(401, NoAutorizado)
    ensures user.Some? && FiltroAsistenciaSchema(QueryFiltros(q)).None? ==> r == Error(400, MsgFiltrosInvalidos)
    ensures r.Ok? ==> user.Some? && FiltroAsistenciaSchema(QueryFiltros(q)).Some?
    ensures r.Ok? ==> r.value.matching == Selected(db, FiltroAsistenciaSchema(QueryFiltros(q)).value, join)
  {
    if user.None? then Error(401, NoAutorizado)
    else match FiltroAsistenciaSchema(QueryFiltros(q))
      case None => Error(400, MsgFiltrosInvalidos)
      case Some(f) => ListFiltered(db, f, join)
  }

  /** The restriction as intended: a role without history access only ever filters by its own id. */
  function OwnFiltro(f: Filtro, user: UserSession): (r: Filtro)
    ensures TieneAccesoHistorial(user.rol) ==> r == f
    ensures r.(userId := f.userId) == f
  {
    if TieneAccesoHistorial(user.rol) then f else f.(userId := Some(user.id))
  }

  /** GET /api/asistencias with the restriction applied to the filter that builds the where clause. */
  function ListStepOwn(db: Db, user: Option<UserSession>, q: map<string, string>,
                       join: Asistencia -> Related): (r: Response<Listing>)
    ensures user.None? ==> r == Error(401, NoAutorizado)
    ensures r.Ok? ==> user.Some? && FiltroAsistenciaSchema(QueryFiltros(q)).Some?
    ensures r.Ok? ==>
      r.value.matching == Selected(db, OwnFiltro(FiltroAsistenciaSchema(QueryFiltros(q)).value, user.value), join)
  {
    if user.None? then Error(401, NoAutorizado)
    else match FiltroAsistenciaSchema(QueryFiltros(q))
      case None => Error(400, MsgFiltrosInvalidos)
      case Some(f) => ListFiltered(db, OwnFiltro(f, user.value), join)
  }

  // Properties ----------------------------------------------------------------

  /** The filter schema rejects a body whose role, shift or state is not one of its enum values. */
  lemma UnknownEnumBodyRejected(b: Body)
    requires
      || ("turno" in b && b["turno"] != JString("DIA") && b["turno"] != JString("NOCHE"))
      || ("estado" in b && b["estado"] != JString("solo_ingreso") && b["estado"] != JString("completo"))
      || ("rol" in b && b["rol"].JString? && ParseRol(b["rol"].s).None?)
    ensures FiltroAsistenciaSchema(b).None?
  {
  }

  /** An unknown filter value for role, shift or state is rejected with 400. */
  lemma UnknownEnumRejected(db: Db, user: UserSession, q: map<string, string>, join: Asistencia -> Related)
    requires
      || ("turno" in q && q["turno"] != "" && q["turno"] != "DIA" && q["turno"] != "NOCHE")
      || ("estado" in q && q["estado"] != "" && q["estado"] != "solo_ingreso" && q["estado"] != "completo")
      || ("rol" in q && q["rol"] != "" && ParseRol(q["rol"]).None?)
    ensures ListStep(db, Some(user), q, join) == Error(400, MsgFiltrosInvalidos)
  {
    var b := QueryFiltros(q);
    assert "turno" in FilterKeys && "estado" in FilterKeys && "rol" in FilterKeys;
    UnknownEnumBodyRejected(b);
  }

  /** A role without history access gets exactly the listing an administrator gets for the same query. */
  lemma OverrideIsLost(db: Db, user: UserSession, q: map<string, string>, join: Asistencia -> Related)
    requires !TieneAccesoHistorial(user.rol)
    ensures ListStep(db, Some(user), q, join) == ListStep(db, Some(user.(rol := Admin)), q, join)
  {
  }

  /** The query `?userId=<id>` builds the `filtros` object with that id and the default page. */
  lemma UserIdQueryBody(other: string)
    requires other != ""
    ensures QueryFiltros(map["userId" := other]) ==
      map["userId" := JString(other), "pagina" := JString("1"), "porPagina" := JString("20")]
  {
    var b := QueryFiltros(map["userId" := other]);
    assert "userId" in FilterKeys;
    assert forall k :: k in FilterKeys && k != "userId" ==> k !in b;
  }

  /** The query `?userId=<id>` parses to a filter on that user alone, on the default page. */
  lemma UserIdQuery(other: string)
    requires other != ""
    ensures FiltroAsistenciaSchema(QueryFiltros(map["userId" := other])) ==
      Some(Filtro(None, None, None, None, Some(other), None, None, None, None, None, "1", "20"))
  {
    UserIdQueryBody(other);
    var b := map["userId" := JString(other), "pagina" := JString("1"), "porPagina" := JString("20")];
    assert b.Keys == {"userId", "pagina", "porPagina"};
    assert OptString(b, "fechaDesde", 0) == OptString(b, "fechaHasta", 0) == Some(None);
    assert OptString(b, "unidadId", 0) == OptString(b, "puestoId", 0) == Some(None);
    assert OptString(b, "userId", 0) == Some(Some(other));
    assert OptRol(b, "rol") == Some(None) && OptTurno(b, "turno") == Some(None) && OptEstado(b, "estado") == Some(None);
    assert OptString(b, "ciudad", 0) == OptString(b, "busqueda", 0) == Some(None);
    assert StringDefault(b, "pagina", "1") == Some("1") && StringDefault(b, "porPagina", "20") == Some("20");
    assert FiltroAsistenciaSchema(b) ==
      Some(Filtro(None, None, None, None, Some(other), None, None, None, None, None, "1", "20"));
  }

  /**
   * A role without history access that asks for another user's records receives them:
   * the query `?userId=<other>` lists every record of that user.
   */
  lemma AgentListsAnotherUsersRecord(db: Db, user: UserSession, id: string, join: Asistencia -> Related)
    requires !TieneAccesoHistorial(user.rol)
    requires id in db.records && db.records[id].userId != user.id && db.records[id].userId != ""
    ensures var q := map["userId" := db.records[id].userId];
      ListStep(db, Some(user), q, join).Ok? && id in ListStep(db, Some(user), q, join).value.matching
  {
    var other := db.records[id].userId;
    UserIdQuery(other);
    var f := Filtro(None, None, None, None, Some(other), None, None, None, None, None, "1", "20");
    assert Selects(f, db.records[id], join(db.records[id]));
    DefaultPagination(|Selected(db, f, join)|);
  }

  /**
   * With the restriction applied, a role without history access selects exactly its
   * own records among those the rest of the filter selects; other roles are unaffected.
   */
  lemma OwnFiltroRestricts(f: Filtro, user: UserSession, a: Asistencia, rel: Related)
    requires user.id != ""
    ensures TieneAccesoHistorial(user.rol) ==> (Selects(OwnFiltro(f, user), a, rel) <==> Selects(f, a, rel))
    ensures !TieneAccesoHistorial(user.rol) ==>
      (Selects(OwnFiltro(f, user), a, rel) <==> a.userId == user.id && Selects(f.(userId := None), a, rel))
  {
  }

  /** With the restriction applied, every record listed to a role without history access is its own. */
  lemma OwnListingIsOwn(db: Db, user: UserSession, q: map<string, string>, join: Asistencia -> Related)
    requires user.id != "" && !TieneAccesoHistorial(user.rol)
    ensures var r := ListStepOwn(db, Some(user), q, join);
      r.Ok? ==> forall id :: id in r.value.matching ==> id in db.records && db.records[id].userId == user.id
  {
    var r := ListStepOwn(db, Some(user), q, join);
    if r.Ok? {
      var f := OwnFiltro(FiltroAsistenciaSchema(QueryFiltros(q)).value, user);
      forall id | id in r.value.matching
        ensures id in db.records && db.records[id].userId == user.id
      {
        assert Selects(f, db.records[id], join(db.records[id]));
      }
    }
  }
}
