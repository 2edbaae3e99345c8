/**
 * Attendance records and the three handlers that change or read the record of a
 * shift: check-in (POST /api/asistencias), check-out (POST
 * /api/asistencias/checkout) and the current record (GET /api/asistencias/actual).
 *
 * The database is a map from record id to record plus the unique index over
 * (userId, unidadId, puestoId, fechaTurno, turno). Timestamps are milliseconds;
 * hours worked are kept in hundredths of an hour (`toFixed(2)`).
 */
module Asistencias {
  import opened Wrappers
  import opened Types
  import opened Shift
  import opened Validations
  import opened Http

  datatype Asistencia = Asistencia(
    id: string, userId: string, unidadId: string, puestoId: string,
    turno: Turno, fechaTurno: string,
    checkInAt: Option<int>, checkOutAt: Option<int>, horasTrabajadas: Option<int>,
    lat: Option<real>, lng: Option<real>, ciudadDetectada: Option<string>,
    ip: Option<string>, deviceInfo: Option<string>)

  /** The compound unique key `userId_unidadId_puestoId_fechaTurno_turno`. */
  datatype Key = Key(userId: string, unidadId: string, puestoId: string, fechaTurno: string, turno: Turno)

  function KeyOf(a: Asistencia): Key {
    Key(a.userId, a.unidadId, a.puestoId, a.fechaTurno, a.turno)
  }

  datatype Db = Db(records: map<string, Asistencia>, index: map<Key, string>)

  /** A check-out needs a check-in, and hours are recorded exactly when the check-out is. */
  predicate WellFormed(a: Asistencia) {
    && (a.checkOutAt.Some? ==> a.checkInAt.Some?)
    && (a.horasTrabajadas.Some? <==> a.checkOutAt.Some?)
  }

  /** Records are stored under their own id, and the unique index maps each key to the one record holding it. */
  predicate Valid(db: Db) {
    && (forall id :: id in db.records ==>
          && db.records[id].id == id
          && WellFormed(db.records[id])
          && KeyOf(db.records[id]) in db.index
          && db.index[KeyOf(db.records[id])] == id)
    && (forall k :: k in db.index ==> db.index[k] in db.records && KeyOf(db.records[db.index[k]]) == k)
  }

  /** `findUnique` on the compound key. */
  function Find(db: Db, k: Key): (r: Option<Asistencia>)
    requires Valid(db)
    ensures r.Some? <==> exists id :: id in db.records && KeyOf(db.records[id]) == k
    ensures r.Some? ==> r.value.id in db.records && db.records[r.value.id] == r.value && KeyOf(r.value) == k
  {
    if k in db.index then Some(db.records[db.index[k]]) else None
  }

  /** Writes a record under its id and indexes its key. */
  function Put(db: Db, a: Asistencia): Db {
    Db(db.records[a.id := a], db.index[KeyOf(a) := a.id])
  }

  /** An update that keeps the key, or an insert under a fresh id and a fresh key, keeps the store valid. */
  lemma PutPreservesValid(db: Db, a: Asistencia)
    requires Valid(db) && WellFormed(a)
    requires || (a.id in db.records && KeyOf(db.records[a.id]) == KeyOf(a))
             || (a.id !in db.records && KeyOf(a) !in db.index)
    ensures Valid(Put(db, a))
  {
    var db' := Put(db, a);
    forall id | id in db'.records
      ensures db'.records[id].id == id && WellFormed(db'.records[id])
      ensures KeyOf(db'.records[id]) in db'.index && db'.index[KeyOf(db'.records[id])] == id
    {
      if id != a.id {
        assert db'.records[id] == db.records[id];
        assert KeyOf(db.records[id]) != KeyOf(a);
      }
    }
    forall k | k in db'.index
      ensures db'.index[k] in db'.records && KeyOf(db'.records[db'.index[k]]) == k
    {
      if k != KeyOf(a) {
        assert db.index[k] != a.id;
      }
    }
  }

  /** The unique index: two records of a valid store with the same key are the same record. */
  lemma KeyIsUnique(db: Db, id1: string, id2: string)
    requires Valid(db) && id1 in db.records && id2 in db.records
    requires KeyOf(db.records[id1]) == KeyOf(db.records[id2])
    ensures id1 == id2
  {
  }

  // The clock and the request ---------------------------------------------------

  /** One reading of the clock: the local hour, the UTC calendar date and the instant in milliseconds. */
  datatype Clock = Clock(hora: Hour, hoy: Date, now: int)

  /** The key a user's record for a unit and post has in the shift the clock falls in. */
  function ShiftKey(userId: string, unidadId: string, puestoId: string, c: Clock): Key
    requires ValidDate(c.hoy)
  {
    Key(userId, unidadId, puestoId, FechaTurno(c.hora, c.hoy), TurnoActual(c.hora))
  }

  /** A header value is truthy when present and non-empty. */
  predicate Truthy(h: Option<string>) {
    h.Some? && h.value != ""
  }

  /** `x-forwarded-for || x-real-ip || "unknown"`. */
  function IpFrom(forwardedFor: Option<string>, realIp: Option<string>): (r: string)
    ensures r != ""
    ensures Truthy(forwardedFor) ==> r == forwardedFor.value
    ensures !Truthy(forwardedFor) && Truthy(realIp) ==> r == realIp.value
    ensures r == "unknown" || Some(r) == forwardedFor || Some(r) == realIp
  {
    if Truthy(forwardedFor) then forwardedFor.value
    else if Truthy(realIp) then realIp.value
    else "unknown"
  }

  /** A Prisma update field: an absent (undefined) value leaves the stored one. */
  function Keep<T>(update: Option<T>, stored: Option<T>): (r: Option<T>)
    ensures update.Some? ==> r == update
    ensures update.None? ==> r == stored
  {
    if update.Some? then update else stored
  }

  /** `value || stored`: an absent coordinate and a zero coordinate both fall back to the stored one. */
  function Fallback(update: Option<real>, stored: Option<real>): (r: Option<real>)
    ensures update.Some? && update.value != 0.0 ==> r == update
    ensures update.None? || update.value == 0.0 ==> r == stored
  {
    if update.Some? && update.value != 0.0 then update else stored
  }

  const MsgNoCoincide := "La unidad o puesto no coinciden con su sesión"
  const MsgYaIngreso := "Ya ha registrado su ingreso para este turno"
  const MsgNoEncontrado := "Registro de asistencia no encontrado"
  const MsgSinIngreso := "Debe registrar su ingreso primero"
  const MsgYaSalida := "Ya ha registrado su salida para este turno"

  /** The unit and post of the request are the ones of the session. */
  predicate MatchesSession(user: UserSession, unidadId: string, puestoId: string) {
    Some(unidadId) == user.unidadId && Some(puestoId) == user.puestoId
  }

  // Check-in ------------------------------------------------------------------

  /**
   * POST /api/asistencias. `user` is the session the gate attached (None: no
   * header), `body` the parsed JSON object (None: the body does not parse, which
   * the handler's catch turns into a 500), `newId` the id the database would give
   * a new record.
   */
  function CheckInStep(db: Db, user: Option<UserSession>, body: Option<Body>, c: Clock,
                       forwardedFor: Option<string>, realIp: Option<string>, newId: string)
    : (out: (Db, Response<Asistencia>))
    requires Valid(db) && ValidDate(c.hoy)
    ensures out.1.Error? ==> out.0 == db
    ensures out.1.Ok? ==>
      && out.1.status == 201
      && user.Some? && body.Some? && CheckInSchema(body.value).Some?
      && var inp := CheckInSchema(body.value).value;
      && var a := out.1.value;
      && MatchesSession(user.value, inp.unidadId, inp.puestoId)
      && KeyOf(a) == ShiftKey(user.value.id, inp.unidadId, inp.puestoId, c)
      && a.checkInAt == Some(c.now) && a.checkOutAt.None?
      && a.ip == Some(IpFrom(forwardedFor, realIp))
      && (Find(db, KeyOf(a)).None? || Find(db, KeyOf(a)).value.checkInAt.None?)
      && out.0 == Put(db, a)
    ensures out.1.Ok? && body.Some? && CheckInSchema(body.value).Some? && Find(db, KeyOf(out.1.value)).Some? ==>
      // completing the shift's record: same row, request data where the request brings it
      && var inp := CheckInSchema(body.value).value;
      && var a := out.1.value;
      && var e := Find(db, KeyOf(a)).value;
      && a.id == e.id && a.horasTrabajadas == e.horasTrabajadas
      && a.lat == Keep(inp.lat, e.lat) && a.lng == Keep(inp.lng, e.lng)
      && a.ciudadDetectada == Keep(inp.ciudadDetectada, e.ciudadDetectada)
      && a.deviceInfo == Keep(inp.deviceInfo, e.deviceInfo)
    ensures out.1.Ok? && body.Some? && CheckInSchema(body.value).Some? && Find(db, KeyOf(out.1.value)).None? ==>
      // a new record under the fresh id, carrying the request data
      && var inp := CheckInSchema(body.value).value;
      && var a := out.1.value;
      && a.id == newId && newId !in db.records && a.horasTrabajadas.None?
      && a.lat == inp.lat && a.lng == inp.lng
      && a.ciudadDetectada == inp.ciudadDetectada && a.deviceInfo == inp.deviceInfo
  {
    if user.None? then (db, Error(401, NoAutorizado))
    else if body.None? then (db, Error(500, ErrorInterno))
    else match CheckInSchema(body.value)
      case None => (db, Error(400, DatosInvalidos))
      case Some(inp) =>
        if !MatchesSession(user.value, inp.unidadId, inp.puestoId) then (db, Error(403, MsgNoCoincide))
        else
          var k := ShiftKey(user.value.id, inp.unidadId, inp.puestoId, c);
          var existente := Find(db, k);
          if existente.Some? && existente.value.checkInAt.Some? then (db, Error(400, MsgYaIngreso))
          else
            var ip := IpFrom(forwardedFor, realIp);
            if existente.Some? then
              var e := existente.value;
              var a := e.(checkInAt := Some(c.now), lat := Keep(inp.lat, e.lat), lng := Keep(inp.lng, e.lng),
                          ciudadDetectada := Keep(inp.ciudadDetectada, e.ciudadDetectada), ip := Some(ip),
                          deviceInfo := Keep(inp.deviceInfo, e.deviceInfo));
              (Put(db, a), Ok(201, a))
            else if newId in db.records then (db, Error(500, ErrorInterno))
            else
              var a := Asistencia(newId, user.value.id, inp.unidadId, inp.puestoId, k.turno, k.fechaTurno,
                                  Some(c.now), None, None, inp.lat, inp.lng, inp.ciudadDetectada, Some(ip),
                                  inp.deviceInfo);
              (Put(db, a), Ok(201, a))
  }

  lemma CheckInPreservesValid(db: Db, user: Option<UserSession>, body: Option<Body>, c: Clock,
                              forwardedFor: Option<string>, realIp: Option<string>, newId: string)
    requires Valid(db) && ValidDate(c.hoy)
    ensures Valid(CheckInStep(db, user, body, c, forwardedFor, realIp, newId).0)
  {
    var out := CheckInStep(db, user, body, c, forwardedFor, realIp, newId);
    if out.1.Ok? {
      var a := out.1.value;
      var e := Find(db, KeyOf(a));
      if e.Some? {
        assert a.id == e.value.id;
      } else {
        assert a.id == newId;
      }
      PutPreservesValid(db, a);
    }
  }

  /**
   * Check-in succeeds, with a 201, whenever the session is present, the body is valid,
   * names the session's unit and post, the shift has no check-in yet and, when a new
   * record is needed, its id is not taken.
   */
  lemma CheckInSucceeds(db: Db, user: UserSession, b: Body, c: Clock,
                        forwardedFor: Option<string>, realIp: Option<string>, newId: string)
    requires Valid(db) && ValidDate(c.hoy) && CheckInSchema(b).Some?
    requires MatchesSession(user, CheckInSchema(b).value.unidadId, CheckInSchema(b).value.puestoId)
    requires var k := ShiftKey(user.id, CheckInSchema(b).value.unidadId, CheckInSchema(b).value.puestoId, c);
      && (Find(db, k).Some? ==> Find(db, k).value.checkInAt.None?)
      && (Find(db, k).None? ==> newId !in db.records)
    ensures CheckInStep(db, Some(user), Some(b), c, forwardedFor, realIp, newId).1.Ok?
  {
  }

  /** A session bound to another unit or post is refused with 403 and nothing is written. */
  lemma CheckInOutsideSessionForbidden(db: Db, user: UserSession, b: Body, c: Clock,
                                       forwardedFor: Option<string>, realIp: Option<string>, newId: string)
    requires Valid(db) && ValidDate(c.hoy) && CheckInSchema(b).Some?
    requires !MatchesSession(user, CheckInSchema(b).value.unidadId, CheckInSchema(b).value.puestoId)
    ensures CheckInStep(db, Some(user), Some(b), c, forwardedFor, realIp, newId) == (db, Error(403, MsgNoCoincide))
  {
  }

  /**
   * At most one check-in per shift: once a check-in succeeded, any later check-in of
   * the same user, unit and post whose clock reading falls in the same shift is a 400
   * and writes nothing.
   */
  lemma CheckInOncePerShift(db: Db, user: UserSession, b1: Body, b2: Body, c1: Clock, c2: Clock,
                            ff1: Option<string>, ip1: Option<string>, id1: string,
                            ff2: Option<string>, ip2: Option<string>, id2: string)
    requires Valid(db) && ValidDate(c1.hoy) && ValidDate(c2.hoy)
    requires CheckInStep(db, Some(user), Some(b1), c1, ff1, ip1, id1).1.Ok?
    requires CheckInSchema(b2).Some?
    requires CheckInSchema(b2).value.unidadId == CheckInSchema(b1).value.unidadId
    requires CheckInSchema(b2).value.puestoId == CheckInSchema(b1).value.puestoId
    requires FechaTurno(c2.hora, c2.hoy) == FechaTurno(c1.hora, c1.hoy) && TurnoActual(c2.hora) == TurnoActual(c1.hora)
    ensures var db1 := CheckInStep(db, Some(user), Some(b1), c1, ff1, ip1, id1).0;
      Valid(db1) && CheckInStep(db1, Some(user), Some(b2), c2, ff2, ip2, id2) == (db1, Error(400, MsgYaIngreso))
  {
    CheckInPreservesValid(db, Some(user), Some(b1), c1, ff1, ip1, id1);
    var out := CheckInStep(db, Some(user), Some(b1), c1, ff1, ip1, id1);
    var a := out.1.value;
    assert out.0.records[a.id] == a;
    assert Find(out.0, KeyOf(a)) == Some(a);
  }

  /** A night-shift check-in at 19:00 or later blocks a second one before 07:00 of the next day. */
  lemma NightCheckInBlocksEarlyMorningRetry(db: Db, user: UserSession, b: Body, d: Date, h1: Hour, h2: Hour,
                                            t1: int, t2: int, ff: Option<string>, ip: Option<string>,
                                            id1: string, id2: string)
    requires Valid(db) && ValidDate(d) && 19 <= h1 && h2 < 7
    requires CheckInStep(db, Some(user), Some(b), Clock(h1, d, t1), ff, ip, id1).1.Ok?
    ensures var db1 := CheckInStep(db, Some(user), Some(b), Clock(h1, d, t1), ff, ip, id1).0;
      Valid(db1) && CheckInStep(db1, Some(user), Some(b), Clock(h2, NextDay(d), t2), ff, ip, id2) == (db1, Error(400, MsgYaIngreso))
  {
    NightShiftSameKey(d, h1, h2);
    CheckInOncePerShift(db, user, b, b, Clock(h1, d, t1), Clock(h2, NextDay(d), t2), ff, ip, id1, ff, ip, id2);
  }

  // Check-out -----------------------------------------------------------------

  function Abs(x: int): nat {
    if x < 0 then -x else x
  }

  /**
   * `parseFloat((diffMs / 3600000).toFixed(2))` in hundredths of an hour: the
   * nearest hundredth, halves rounded away from zero as `toFixed` does.
   */
  function HorasCentesimas(diffMs: int): (r: int)
    ensures 2 * Abs(r * 36000 - diffMs) <= 36000
    ensures 2 * Abs(r * 36000 - diffMs) == 36000 ==> Abs(r * 36000) > Abs(diffMs)
    ensures (r < 0 ==> diffMs < 0) && (diffMs < 0 ==> r <= 0)
  {
    if diffMs >= 0 then (diffMs + 18000) / 36000 else -((-diffMs + 18000) / 36000)
  }

  /** POST /api/asistencias/checkout, without its cookie side effect (see `Store`). */
  function CheckOutStep(db: Db, user: Option<UserSession>, body: Option<Body>, now: int)
    : (out: (Db, Response<Asistencia>))
    requires Valid(db)
    ensures out.1.Error? ==> out.0 == db
    ensures out.1.Ok? ==>
      && out.1.status == 200
      && user.Some? && body.Some? && CheckOutSchema(body.value).Some?
      && var inp := CheckOutSchema(body.value).value;
      && var a := out.1.value;
      && a.id == inp.asistenciaId && a.id in db.records
      && var old_ := db.records[a.id];
      && old_.userId == user.value.id
      && old_.checkInAt.Some? && old_.checkOutAt.None?
      && KeyOf(a) == KeyOf(old_) && a.checkInAt == old_.checkInAt
      && a.checkOutAt == Some(now)
      && a.horasTrabajadas == Some(HorasCentesimas(now - old_.checkInAt.value))
      && a.lat == Fallback(inp.lat, old_.lat) && a.lng == Fallback(inp.lng, old_.lng)
      && a.ciudadDetectada == old_.ciudadDetectada && a.ip == old_.ip && a.deviceInfo == old_.deviceInfo
      && out.0 == Put(db, a)
  {
    if user.None? then (db, Error(401, NoAutorizado))
    else if body.None? then (db, Error(500, ErrorInterno))
    else match CheckOutSchema(body.value)
      case None => (db, Error(400, DatosInvalidos))
      case Some(inp) =>
        if inp.asistenciaId !in db.records || db.records[inp.asistenciaId].userId != user.value.id then
          (db, Error(404, MsgNoEncontrado))
        else
          var a := db.records[inp.asistenciaId];
          if a.checkInAt.None? then (db, Error(400, MsgSinIngreso))
          else if a.checkOutAt.Some? then (db, Error(400, MsgYaSalida))
          else
            var a' := a.(checkOutAt := Some(now),
                         horasTrabajadas := Some(HorasCentesimas(now - a.checkInAt.value)),
                         lat := Fallback(inp.lat, a.lat), lng := Fallback(inp.lng, a.lng));
            (Put(db, a'), Ok(200, a'))
  }

  lemma CheckOutPreservesValid(db: Db, user: Option<UserSession>, body: Option<Body>, now: int)
    requires Valid(db)
    ensures Valid(CheckOutStep(db, user, body, now).0)
  {
    var out := CheckOutStep(db, user, body, now);
    if out.1.Ok? {
      PutPreservesValid(db, out.1.value);
    }
  }

  /** A record that does not exist or belongs to another user is a 404, whatever its state. */
  lemma CheckOutOfAnotherUsersRecord(db: Db, user: UserSession, b: Body, now: int)
    requires Valid(db) && CheckOutSchema(b).Some?
    requires var id := CheckOutSchema(b).value.asistenciaId;
      id !in db.records || db.records[id].userId != user.id
    ensures CheckOutStep(db, Some(user), Some(b), now) == (db, Error(404, MsgNoEncontrado))
  {
  }

  /** A record of the user without a check-in cannot be checked out. */
  lemma CheckOutNeedsCheckIn(db: Db, user: UserSession, b: Body, now: int)
    requires Valid(db) && CheckOutSchema(b).Some?
    requires var id := CheckOutSchema(b).value.asistenciaId;
      id in db.records && db.records[id].userId == user.id && db.records[id].checkInAt.None?
    ensures CheckOutStep(db, Some(user), Some(b), now) == (db, Error(400, MsgSinIngreso))
  {
  }

  /** At most one check-out per record: after a successful one, any later one on the same record is a 400. */
  lemma CheckOutOnce(db: Db, user: UserSession, b1: Body, b2: Body, t1: int, t2: int)
    requires Valid(db)
    requires CheckOutStep(db, Some(user), Some(b1), t1).1.Ok?
    requires CheckOutSchema(b2).Some?
    requires CheckOutSchema(b2).value.asistenciaId == CheckOutSchema(b1).value.asistenciaId
    ensures var db1 := CheckOutStep(db, Some(user), Some(b1), t1).0;
      Valid(db1) && CheckOutStep(db1, Some(user), Some(b2), t2) == (db1, Error(400, MsgYaSalida))
  {
    CheckOutPreservesValid(db, Some(user), Some(b1), t1);
  }

  /** A shift: check in, then check out on the returned record; the record ends complete with its hours. */
  lemma CheckInThenCheckOut(db: Db, user: UserSession, b1: Body, c: Clock, ff: Option<string>, ip: Option<string>,
                            newId: string, b2: Body, t: int)
    requires Valid(db) && ValidDate(c.hoy)
    requires CheckInStep(db, Some(user), Some(b1), c, ff, ip, newId).1.Ok?
    requires CheckOutSchema(b2).Some?
    requires CheckOutSchema(b2).value.asistenciaId == CheckInStep(db, Some(user), Some(b1), c, ff, ip, newId).1.value.id
    ensures var db1 := CheckInStep(db, Some(user), Some(b1), c, ff, ip, newId).0;
      && Valid(db1)
      && var r := CheckOutStep(db1, Some(user), Some(b2), t).1;
      && r.Ok?
      && r.value.checkInAt == Some(c.now) && r.value.checkOutAt == Some(t)
      && r.value.horasTrabajadas == Some(HorasCentesimas(t - c.now))
  {
    CheckInPreservesValid(db, Some(user), Some(b1), c, ff, ip, newId);
    var out := CheckInStep(db, Some(user), Some(b1), c, ff, ip, newId);
    var a := out.1.value;
    assert out.0.records[a.id] == a && a.userId == user.id;
    CheckOutOpenRecord(out.0, user, b2, t);
  }

  /** The owner of a record with a check-in and no check-out can check it out. */
  lemma CheckOutOpenRecord(db: Db, user: UserSession, b: Body, t: int)
    requires Valid(db) && CheckOutSchema(b).Some?
    requires var id := CheckOutSchema(b).value.asistenciaId;
      id in db.records && db.records[id].userId == user.id
      && db.records[id].checkInAt.Some? && db.records[id].checkOutAt.None?
    ensures var a := db.records[CheckOutSchema(b).value.asistenciaId];
      var r := CheckOutStep(db, Some(user), Some(b), t).1;
      && r.Ok? && r.value.id == a.id
      && r.value.checkInAt == a.checkInAt && r.value.checkOutAt == Some(t)
      && r.value.horasTrabajadas == Some(HorasCentesimas(t - a.checkInAt.value))
  {
  }

  /** Six hours between check-in and check-out are recorded as 6.00 hours, ninety minutes as 1.50. */
  lemma HoursExamples()
    ensures HorasCentesimas(6 * 3600000) == 600
    ensures HorasCentesimas(90 * 60000) == 150
    ensures HorasCentesimas(17999) == 0 && HorasCentesimas(18000) == 1
  {
  }

  // Current record --------------------------------------------------------------

  /**
   * GET /api/asistencias/actual: the user's record for the session's unit and post
   * in the current shift, or none. A session without unit or post makes the lookup
   * fail (500).
   */
  function ActualStep(db: Db, user: Option<UserSession>, c: Clock): (r: Response<Option<Asistencia>>)
    requires Valid(db) && ValidDate(c.hoy)
    ensures user.None? ==> r == Error(401, NoAutorizado)
    ensures r.Ok? ==>
      && r.status == 200 && user.Some? && user.value.unidadId.Some? && user.value.puestoId.Some?
      && var k := ShiftKey(user.value.id, user.value.unidadId.value, user.value.puestoId.value, c);
      && (r.value.Some? <==> exists id :: id in db.records && KeyOf(db.records[id]) == k)
      && (r.value.Some? ==> r.value.value in db.records.Values && KeyOf(r.value.value) == k)
    ensures user.Some? && user.value.unidadId.Some? && user.value.puestoId.Some? ==> r.Ok?
  {
    if user.None? then Error(401, NoAutorizado)
    else if user.value.unidadId.None? || user.value.puestoId.None? then Error(500, ErrorInterno)
    else Ok(200, Find(db, ShiftKey(user.value.id, user.value.unidadId.value, user.value.puestoId.value, c)))
  }

  /** After a check-in, the current-record lookup in the same shift returns that record. */
  lemma CheckInThenActual(db: Db, user: UserSession, b: Body, c: Clock, c2: Clock,
                          ff: Option<string>, ip: Option<string>, newId: string)
    requires Valid(db) && ValidDate(c.hoy) && ValidDate(c2.hoy)
    requires CheckInStep(db, Some(user), Some(b), c, ff, ip, newId).1.Ok?
    requires FechaTurno(c2.hora, c2.hoy) == FechaTurno(c.hora, c.hoy) && TurnoActual(c2.hora) == TurnoActual(c.hora)
    ensures var out := CheckInStep(db, Some(user), Some(b), c, ff, ip, newId);
      Valid(out.0) && ActualStep(out.0, Some(user), c2) == Ok(200, Some(out.1.value))
  {
    CheckInPreservesValid(db, Some(user), Some(b), c, ff, ip, newId);
    var out := CheckInStep(db, Some(user), Some(b), c, ff, ip, newId);
    var a := out.1.value;
    assert out.0.records[a.id] == a;
  }
}
