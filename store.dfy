/**
 * The attendance table as the handlers see it: an object whose two fields, the
 * records by id and the unique index on the shift key, are updated in place by
 * check-in and check-out. Each handler is proved to do exactly what the matching
 * step function of `Asistencias` or `Listado` specifies.
 */
module Store {
  import opened Wrappers
  import opened Types
  import opened Shift
  import opened Validations
  import opened Http
  import opened Cookies
  import opened Asistencias
  import opened Listado

  class AsistenciaStore {
    var records: map<string, Asistencia>
    var index: map<Key, string>

    /** The table as a value. */
    ghost function State(): Db
      reads this
    {
      Db(records, index)
    }

    ghost predicate Valid()
      reads this
    {
      Asistencias.Valid(State())
    }

    /** An empty table. */
    constructor ()
      ensures State() == Db(map[], map[]) && Valid()
    {
      records := map[];
      index := map[];
    }

    /** `findUnique` on the compound key. */
    method FindUnique(k: Key) returns (r: Option<Asistencia>)
      requires Valid()
      ensures r == Find(State(), k)
    {
      if k in index {
        r := Some(records[index[k]]);
      } else {
        r := None;
      }
    }

    /** Writes a record under its id and indexes its key (`create` and `update`). */
    method Save(a: Asistencia)
      modifies this
      ensures State() == Put(old(State()), a)
    {
      records := records[a.id := a];
      index := index[KeyOf(a) := a.id];
    }

    /** POST /api/asistencias. */
    method CheckIn(user: Option<UserSession>, body: Option<Body>, c: Clock,
                   forwardedFor: Option<string>, realIp: Option<string>, newId: string)
      returns (r: Response<Asistencia>)
      requires Valid() && ValidDate(c.hoy)
      modifies this
      ensures Valid()
      ensures (State(), r) == CheckInStep(old(State()), user, body, c, forwardedFor, realIp, newId)
    {
      CheckInPreservesValid(State(), user, body, c, forwardedFor, realIp, newId);
      if user.None? {
        return Error(401, NoAutorizado);
      }
      if body.None? {
        return Error(500, ErrorInterno);
      }
      var parsed := CheckInSchema(body.value);
      if parsed.None? {
        return Error(400, DatosInvalidos);
      }
      var inp := parsed.value;
      if !MatchesSession(user.value, inp.unidadId, inp.puestoId) {
        return Error(403, MsgNoCoincide);
      }
      var k := ShiftKey(user.value.id, inp.unidadId, inp.puestoId, c);
      var existente := FindUnique(k);
      if existente.Some? && existente.value.checkInAt.Some? {
        return Error(400, MsgYaIngreso);
      }
      var ip := IpFrom(forwardedFor, realIp);
      var a;
      if existente.Some? {
        var e := existente.value;
        a := e.(checkInAt := Some(c.now), lat := Keep(inp.lat, e.lat), lng := Keep(inp.lng, e.lng),
                ciudadDetectada := Keep(inp.ciudadDetectada, e.ciudadDetectada), ip := Some(ip),
                deviceInfo := Keep(inp.deviceInfo, e.deviceInfo));
      } else {
        if newId in records {
          return Error(500, ErrorInterno);
        }
        a := Asistencia(newId, user.value.id, inp.unidadId, inp.puestoId, k.turno, k.fechaTurno,
                        Some(c.now), None, None, inp.lat, inp.lng, inp.ciudadDetectada, Some(ip), inp.deviceInfo);
      }
      Save(a);
      r := Ok(201, a);
    }

    /**
     * POST /api/asistencias/checkout: records the check-out and, when it succeeds,
     * deletes the four session cookies, which ends the session.
     */
    method CheckOut(user: Option<UserSession>, body: Option<Body>, now: int, jar: CookieJar)
      returns (r: Response<Asistencia>)
      requires Valid()
      modifies this, jar
      ensures Valid()
      ensures (State(), r) == CheckOutStep(old(State()), user, body, now)
      ensures r.Ok? ==> jar.cookies == old(jar.cookies) - SessionCookies
      ensures r.Error? ==> jar.cookies == old(jar.cookies)
    {
      r := RecordCheckOut(user, body, now);
      if r.Ok? {
        EndSession(jar);
      }
    }

    /** The part of the check-out that reads and updates the table. */
    method RecordCheckOut(user: Option<UserSession>, body: Option<Body>, now: int)
      returns (r: Response<Asistencia>)
      requires Valid()
      modifies this
      ensures Valid()
      ensures (State(), r) == CheckOutStep(old(State()), user, body, now)
    {
      CheckOutPreservesValid(State(), user, body, now);
      if user.None? {
        return Error(401, NoAutorizado);
      }
      if body.None? {
        return Error(500, ErrorInterno);
      }
      var parsed := CheckOutSchema(body.value);
      if parsed.None? {
        return Error(400, DatosInvalidos);
      }
      var inp := parsed.value;
      if inp.asistenciaId !in records || records[inp.asistenciaId].userId != user.value.id {
        return Error(404, MsgNoEncontrado);
      }
      var a := records[inp.asistenciaId];
      if a.checkInAt.None? {
        return Error(400, MsgSinIngreso);
      }
      if a.checkOutAt.Some? {
        return Error(400, MsgYaSalida);
      }
      var horas := HorasCentesimas(now - a.checkInAt.value);
      a := a.(checkOutAt := Some(now), horasTrabajadas := Some(horas),
              lat := Fallback(inp.lat, a.lat), lng := Fallback(inp.lng, a.lng));
      Save(a);
      r := Ok(200, a);
    }

    /** GET /api/asistencias/actual. */
    method Actual(user: Option<UserSession>, c: Clock) returns (r: Response<Option<Asistencia>>)
      requires Valid() && ValidDate(c.hoy)
      ensures r == ActualStep(State(), user, c)
    {
      if user.None? {
        return Error(401, NoAutorizado);
      }
      if user.value.unidadId.None? || user.value.puestoId.None? {
        return Error(500, ErrorInterno);
      }
      var found := FindUnique(ShiftKey(user.value.id, user.value.unidadId.value, user.value.puestoId.value, c));
      r := Ok(200, found);
    }

    /** GET /api/asistencias, as written: the where clause is built from the query alone. */
    method List(user: Option<UserSession>, q: map<string, string>, join: Asistencia -> Related)
      returns (r: Response<Listing>)
      requires Valid()
      ensures r == ListStep(State(), user, q, join)
    {
      if user.None? {
        return Error(401, NoAutorizado);
      }
      var parsed := FiltroAsistenciaSchema(QueryFiltros(q));
      if parsed.None? {
        return Error(400, MsgFiltrosInvalidos);
      }
      var f := parsed.value;
      var w := BuildWhere(f);
      var matching := set id | id in records && Matches(w, records[id], join(records[id]));
      MatchingIsSelected(State(), w, f, join);
      var p := Pagination(f.pagina, f.porPagina, |matching|);
      if p.None? {
        return Error(500, ErrorInterno);
      }
      r := Ok(200, Listing(matching, p.value));
    }
  }
}
