# Attendance core of asistencia-protektor, in Dafny

asistencia-protektor is a Next.js application in which security staff register
their check-in (*ingreso*) and check-out (*salida*) for a unit (*unidad*), a post
(*puesto*) and a shift (*turno*: DIA or NOCHE). This project models its attendance
core and proves properties of the model:

- the role registry and the capability predicates built on it (`Types`);
- the shift rules: which shift an hour belongs to and which date a shift is filed
  under (`Shift`, with the JavaScript helpers it needs in `Text`);
- the request schemas, as validator functions (`Validations`);
- the request gate that runs before every route (`RequestGate`);
- the login decision sequence, the session it builds and the cookies it sets
  (`Login`, `Cookies`);
- the attendance table and the check-in, check-out and current-record handlers,
  as pure state transitions over a table value (`Asistencias`);
- the history listing: the filter object, the `where` clause built from it, and
  pagination (`Listado`);
- a class `Store.AsistenciaStore` that owns the table. Its handler methods update
  it in place and are proved against the pure transitions.

The table is a map from record id to record, plus a unique index from the
composite key (user, unit, post, shift date, shift) to the id. `Asistencias.Valid`
ties the two together, and every transition is proved to preserve it.

Times are integer milliseconds, and the hour of day and the calendar date are
separate inputs. Hours worked are integer hundredths of an hour. A session
reaches a handler as the decoded `x-user` header, or as `None` when the header is
missing.

These are parameters rather than modelled computations:

- verifying an access token and checking a password (`verify`, `verifyPassword`);
- the id the database gives a new record (`newId`);
- the names of a record's user, unit and post that the listing searches (`join`).

The list handler states its intent in a comment at
src/app/api/asistencias/route.ts:78: a role without history access may only see
its own records. The code does not enforce this, and the model follows the code;
see "## Findings".

## Model

| member | source | states |
|---|---|---|
| Types.FindRol | src/types/index.ts:15-25 | the role found is in the list and carries the string searched for; no role is found only when no listed role carries it |
| Types.ParseRol | src/types/index.ts:2-25 | `z.enum(ROL_VALUES)` accepts a string exactly when it is the runtime name of some role, and returns that role |
| Types.RolIndex | src/types/index.ts:15-25 | every role has a position in `ROL_VALUES` |
| Types.ParseTurno | src/types/index.ts:31-34 | the shift enum accepts exactly "DIA" and "NOCHE", and returns the shift with that name |
| Types.RolValuesComplete | src/types/index.ts:2-25 | `ROL_VALUES` lists nine pairwise distinct roles and contains every role |
| Types.RolNameInjective | src/types/index.ts:2-12 | two roles with the same runtime string are the same role |
| Types.ParseRolName | src/types/index.ts:2-25 | parsing the runtime name of a role gives back that role |
| Types.HistorialRoles | src/types/index.ts:94-114 | history access holds exactly for admin, asistente, jefe, gerente and centro_de_control, and fails exactly for supervisor, agente, coordinador and oficina |
| Types.MapaIffHistorial | src/types/index.ts:94-118 | map access holds exactly when history access holds |
| Types.EsAdminIffAdmin | src/types/index.ts:110-122 | `esAdmin` holds exactly for admin |
| Types.AdminHasEveryCapability | src/types/index.ts:94-122 | an admin role also has history and map access |
| Shift.NextDay | src/app/api/asistencias/route.ts:18-21 | the day after a valid date is a valid, different date |
| Shift.PrevDay | src/app/api/asistencias/route.ts:18-21 | `setDate(getDate() - 1)` gives a valid date whose next day is the given date |
| Shift.PrevDayOfNextDay | src/app/api/asistencias/route.ts:18-21 | stepping a day forward and back returns the same date |
| Shift.TurnoActual | src/app/api/asistencias/route.ts:8-11 | the shift is DIA exactly when 7 <= hour < 19, NOCHE exactly otherwise |
| Shift.TurnoBoundaries | src/app/api/asistencias/route.ts:8-11 | hours 7 and 18 are DIA; hours 19, 6, 0 and 23 are NOCHE |
| Shift.ShiftDay | src/app/api/asistencias/route.ts:13-25 | the shift's day is the previous day exactly when hour < 7, and today exactly when hour >= 7 |
| Shift.FechaTurnoRule | src/app/api/asistencias/route.ts:13-25 | before 7 the shift date is the ISO form of the previous day; it is today's ISO date exactly when hour >= 7 |
| Shift.YearStringInjective | src/app/api/asistencias/route.ts:21-24 | the year part of `toISOString`, extended years included, is different for different years |
| Shift.IsoDateParts | src/app/api/asistencias/route.ts:21-24 | the ISO date is the year, a dash, the two-digit month, a dash and the two-digit day |
| Shift.IsoDateInjective | src/app/api/asistencias/route.ts:21-24 | different dates have different ISO dates, so the shift date identifies the day |
| Shift.NightShiftSameKey | src/app/api/asistencias/actual/route.ts:5-21 | a lookup before 7 on day D+1 resolves the same NOCHE shift and shift date as a check-in at 19 or later on day D |
| Shift.DateAheadSplitsNightShift | src/app/api/asistencias/route.ts:13-25 | when the date input is already D+1 at 19 or later (UTC ahead of the local hour), the evening and the early morning of one night shift get different shift dates |
| Text.ParseIntDecimal | src/app/api/asistencias/route.ts:122-123 | `parseInt` of a decimal numeral gives back its number |
| Validations.LoginSchema | src/lib/validations.ts:4-9 | accepts exactly: username of length >= 3, password of length >= 6, unit and post ids shaped as UUIDs; returns those four strings |
| Validations.CrearUsuarioSchema | src/lib/validations.ts:11-27 | accepts exactly: username length in [3, 50], a password meeting the composition rule, names of length >= 2, a known role, an optional boolean `activo`; `activo` defaults to true |
| Validations.ActualizarUsuarioSchema | src/lib/validations.ts:29-42 | every field optional; a present field must satisfy its creation rule, and a present password the composition rule |
| Validations.CrearUnidadSchema | src/lib/validations.ts:44-49 | accepts exactly: name and city of length >= 2, optional string address, optional boolean `activo` defaulting to true |
| Validations.ActualizarUnidadSchema | src/lib/validations.ts:51-56 | every field optional, a present one checked as on creation |
| Validations.CrearPuestoSchema | src/lib/validations.ts:58-62 | accepts exactly: a UUID unit id, a name of length >= 2, optional boolean `activo` defaulting to true |
| Validations.ActualizarPuestoSchema | src/lib/validations.ts:64-67 | every field optional, a present one checked as on creation |
| Validations.CheckInSchema | src/lib/validations.ts:69-76 | accepts exactly: UUID unit and post ids, optional numeric coordinates, optional string city and device; the accepted ids, coordinates, city and device are the ones sent, and an absent optional field is absent |
| Validations.CheckOutSchema | src/lib/validations.ts:78-82 | accepts exactly: a UUID record id and optional numeric coordinates; the accepted id and coordinates are the ones sent |
| Validations.ParseEstado | src/lib/validations.ts:92 | the state filter accepts exactly "solo_ingreso" and "completo" |
| Validations.FiltroAsistenciaSchema | src/lib/validations.ts:84-97 | accepts exactly: optional strings, role, shift and state restricted to their enums; every accepted filter is the value sent (role, shift and state as the parsed enum member) or absent when not sent; page and page size default to "1" and "20" and are not checked to be numeric |
| Validations.CreationBodyIsValidUpdate | src/lib/validations.ts:11-42 | a body that creates a user is also a valid update, with the same password |
| Validations.EmptyUpdateAccepted | src/lib/validations.ts:29-67 | the empty update is accepted by the three update schemas and sets nothing |
| Validations.FirstLineUpTo | src/lib/validations.ts:19-22 | the part of a password the lookaheads see ends at the first line break |
| Validations.DigitAfterLineBreakRejected | src/lib/validations.ts:19-22 | a password whose first line holds no digit fails the composition rule, whatever digits follow the line break |
| Validations.DigitOnFirstLineAccepted | src/lib/validations.ts:16-22 | eight characters with a lower-case letter, an upper-case letter and a digit pass the rule |
| Validations.NonNumericPageAccepted | src/lib/validations.ts:95-96 | a non-numeric page passes the schema; an empty query gives page "1" of size "20" |
| RequestGate.ApiIsNotGatedArea | src/middleware.ts:79-113 | a path under `/api/` is in none of the history, admin or map areas |
| RequestGate.GatedAreaIsNotApi | src/middleware.ts:79-113 | a path in a gated area is not under `/api/`, so the 403 branches there are unreachable |
| RequestGate.Middleware | src/middleware.ts:29-124 | a JSON error is always 401 on an `/api/` path; a redirect is always off `/api/`, to `/login` or `/mi-asistencia`; a request that passes and is not exempt carries `x-user` set to the verified session |
| RequestGate.PublicPathPasses | src/middleware.ts:7-22 | a path is public exactly when it starts with one of the four public prefixes, and a public path passes unchanged whatever the token |
| RequestGate.PublicApiGetRule | src/middleware.ts:15-27 | the public API exemption never holds for a method other than GET, and for GET holds exactly under `/api/unidades` and `/api/puestos` |
| RequestGate.MissingTokenRule | src/middleware.ts:56-64 | with no token or an empty one, an `/api/` path gets 401 and any other path is redirected to `/login` |
| RequestGate.InvalidTokenRule | src/middleware.ts:66-76 | a token that does not verify gives 401 with its own message on `/api/` paths and a redirect to `/login` elsewhere |
| RequestGate.RoleGates | src/middleware.ts:78-123 | a role outside the history, admin or map set is redirected to `/mi-asistencia` from that area; a role allowed in the path passes |
| RequestGate.ApiPassesAnyRole | src/middleware.ts:78-123 | any verified session passes on an `/api/` path, carrying `x-user` |
| RequestGate.OficinaCannotAdministerUsers | src/middleware.ts:79-101 | an `oficina` session is redirected away from `/admin/usuarios` |
| Login.Authenticate | src/app/api/auth/login/route.ts:15-79 | a body failing the schema gives 400; an unknown or inactive user or a wrong password gives 401; then a missing or inactive unit gives 400; then a missing, inactive or foreign post gives 400; when all four checks pass the login succeeds, and the session has the stored user's identity and the requested unit and post |
| Login.SetInOrder | src/app/api/auth/login/route.ts:85-117 | the four `cookieStore.set` calls, in order, add exactly the login cookies to the jar |
| Login.Login | src/app/api/auth/login/route.ts:11-122 | the response is the decision of `Authenticate`; on an error the jar is unchanged; on success the jar gains exactly the four session cookies |
| Login.CredentialFailuresLookAlike | src/app/api/auth/login/route.ts:30-45 | a missing user, an inactive user and a wrong password all give 401 with the same message |
| Login.CredentialsBeforeUnit | src/app/api/auth/login/route.ts:26-68 | bad credentials with a bad unit give 401, not 400 |
| Login.LoginCookieLifetimes | src/app/api/auth/login/route.ts:81-117 | the login sets exactly the four session cookies; the access token and the unit and post cookies last 8 hours and the refresh token 7 days; each token carries the session; all are httpOnly, strict, on path `/` |
| Login.LogoutUndoesLogin | src/app/api/asistencias/checkout/route.ts:116-120 | deleting the session cookies after a login leaves the jar as deleting them before it |
| Cookies.CookieJar.Set | src/app/api/auth/login/route.ts:86-92 | setting a cookie replaces that name only |
| Cookies.CookieJar.Delete | src/app/api/asistencias/checkout/route.ts:117 | deleting a cookie removes that name only |
| Cookies.EndSession | src/app/api/asistencias/checkout/route.ts:115-120 | the four deletes remove exactly the session cookies |
| Asistencias.Find | src/app/api/asistencias/route.ts:213-223 | `findUnique` on the composite key finds a record exactly when one has that key, and returns it |
| Asistencias.PutPreservesValid | src/app/api/asistencias/route.ts:240-290 | writing a record under a fresh id and a fresh key, or over the same record with its key unchanged, keeps the table and its unique index consistent |
| Asistencias.KeyIsUnique | src/app/api/asistencias/route.ts:213-223 | in a consistent table no two records share a composite key |
| Asistencias.IpFrom | src/app/api/asistencias/route.ts:233-236 | the ip is `x-forwarded-for` when non-empty, else `x-real-ip` when non-empty, else "unknown" |
| Asistencias.Keep | src/app/api/asistencias/route.ts:243-249 | a field sent as undefined leaves the stored value |
| Asistencias.Fallback | src/app/api/asistencias/checkout/route.ts:86-87 | a coordinate replaces the stored one only when truthy; absent or 0 keeps the stored one |
| Asistencias.CheckInStep | src/app/api/asistencias/route.ts:179-326 | an error changes nothing; a success is 201 for a session matching the requested unit and post, under the current shift key, with check-in now, no check-out and the request's ip, over no record or one without check-in, and writes exactly that record; completing an existing record keeps its id and hours and takes coordinates, city and device from the request where it sends them and from the record otherwise; a new record gets the fresh id, no hours and the request's coordinates, city and device |
| Asistencias.CheckInPreservesValid | src/app/api/asistencias/route.ts:240-290 | check-in keeps the table consistent |
| Asistencias.CheckInSucceeds | src/app/api/asistencias/route.ts:179-326 | with a session, a valid body naming the session's unit and post, no check-in yet for the shift, and a free id when a new record is needed, check-in succeeds |
| Asistencias.CheckInOutsideSessionForbidden | src/app/api/asistencias/route.ts:201-207 | a unit or post different from the session's gives 403 and no change |
| Asistencias.CheckInOncePerShift | src/app/api/asistencias/route.ts:213-230 | after a check-in, another one for the same unit, post, shift and shift date gives 400 and no change |
| Asistencias.NightCheckInBlocksEarlyMorningRetry | src/app/api/asistencias/route.ts:8-25 | a check-in at 19 or later on day D blocks a retry before 7 on day D+1 |
| Asistencias.HorasCentesimas | src/app/api/asistencias/checkout/route.ts:78-79 | the hours, in hundredths, are the nearest hundredth to the elapsed time, ties away from zero, with the sign of the elapsed time |
| Asistencias.HoursExamples | src/app/api/asistencias/checkout/route.ts:78-79 | 6 h give 6.00, 90 min give 1.50, 17999 ms give 0.00 and 18000 ms give 0.01 |
| Asistencias.CheckOutStep | src/app/api/asistencias/checkout/route.ts:25-133 | an error changes nothing; a success is the user's own record, with a check-in and no check-out, now checked out with the hours worked and coordinates by fallback, every other field unchanged |
| Asistencias.CheckOutPreservesValid | src/app/api/asistencias/checkout/route.ts:81-88 | check-out keeps the table consistent |
| Asistencias.CheckOutOfAnotherUsersRecord | src/app/api/asistencias/checkout/route.ts:47-59 | a record id that is unknown or belongs to another user gives 404 and no change |
| Asistencias.CheckOutNeedsCheckIn | src/app/api/asistencias/checkout/route.ts:61-66 | an owned record without check-in gives 400 and no change |
| Asistencias.CheckOutOpenRecord | src/app/api/asistencias/checkout/route.ts:47-88 | the owner of a record with a check-in and no check-out checks it out: same record, same check-in, check-out now, hours from the check-in |
| Asistencias.CheckOutOnce | src/app/api/asistencias/checkout/route.ts:68-73 | after a check-out, a second one on the same record gives 400 and no change |
| Asistencias.CheckInThenCheckOut | src/app/api/asistencias/checkout/route.ts:47-88 | the record a check-in returns can be checked out by its owner, and the hours are computed from that check-in |
| Asistencias.ActualStep | src/app/api/asistencias/actual/route.ts:23-79 | no session gives 401; a session with unit and post gives 200 with the record under its shift key when there is one, and null otherwise |
| Asistencias.CheckInThenActual | src/app/api/asistencias/actual/route.ts:32-71 | after a check-in, the current-record lookup in the same shift returns that record |
| Listado.Param | src/app/api/asistencias/route.ts:40-52 | `searchParams.get(k) \|\| undefined` is present exactly when the parameter is present and non-empty |
| Listado.QueryFiltros | src/app/api/asistencias/route.ts:40-53 | the `filtros` object holds exactly the non-empty filter parameters, with page and page size defaulting to "1" and "20" |
| Listado.BuiltMatches | src/app/api/asistencias/route.ts:83-120 | a `where` built field by field selects exactly what the filter declares |
| Listado.AddFecha | src/app/api/asistencias/route.ts:85-94 | the date range is set from whichever of from and to are given; nothing else changes |
| Listado.AddIds | src/app/api/asistencias/route.ts:96-98 | unit, post and user conditions are set when given; nothing else changes |
| Listado.AddTurnoCiudad | src/app/api/asistencias/route.ts:99-100 | the shift and city conditions are set when given; nothing else changes |
| Listado.AddEstado | src/app/api/asistencias/route.ts:102-107 | `solo_ingreso` requires a check-in and no check-out; `completo` requires a check-out; nothing else changes |
| Listado.AddUsuario | src/app/api/asistencias/route.ts:109-120 | the search and role conditions are set when given; nothing else changes |
| Listado.BuildWhere | src/app/api/asistencias/route.ts:83-120 | the `where` built step by step selects a record exactly when the filter selects it |
| Listado.TotalPaginas | src/app/api/asistencias/route.ts:166 | `Math.ceil(total / limit)`: the ceiling bounds for positive and negative limits, null for a zero limit |
| Listado.Pagination | src/app/api/asistencias/route.ts:122-124 | page and size are the parsed numbers and the skip is (page - 1) times the size; the query fails exactly when either is not a number or the skip is negative |
| Listado.PagesCoverTotal | src/app/api/asistencias/route.ts:122-124 | with a positive page size, every record index falls on a page numbered 1 to `totalPaginas` |
| Listado.DefaultPagination | src/app/api/asistencias/route.ts:122-124 | the default page is page 1 of size 20 starting at record 0 |
| Listado.Selected | src/app/api/asistencias/route.ts:126-157 | the ids selected are exactly those of records the filter selects |
| Listado.MatchingIsSelected | src/app/api/asistencias/route.ts:126-157 | a where clause that agrees with the filter on every record matches exactly the selected ids |
| Listado.ListFiltered | src/app/api/asistencias/route.ts:122-175 | a success lists the selected records and counts them; a failure is a 500 from the page arithmetic |
| Listado.ListStep | src/app/api/asistencias/route.ts:27-176 | no session gives 401; a filter failing the schema gives 400; a success lists what the requested filter selects, whatever the role |
| Listado.UnknownEnumBodyRejected | src/lib/validations.ts:90-92 | the filter schema rejects a role, shift or state outside its enum |
| Listado.UnknownEnumRejected | src/lib/validations.ts:90-92 | an unknown role, shift or state in the query gives 400 |
| Listado.OverrideIsLost | src/app/api/asistencias/route.ts:63-98 | a role without history access gets the same listing as an admin for the same query |
| Listado.UserIdQueryBody | src/app/api/asistencias/route.ts:40-53 | the query `?userId=x` builds `filtros` with that id and the default page |
| Listado.UserIdQuery | src/lib/validations.ts:84-97 | the query `?userId=x` parses to a filter on that user alone |
| Listado.AgentListsAnotherUsersRecord | src/app/api/asistencias/route.ts:78-98 | a role without history access that asks for another user's id is listed that user's records |
| Listado.OwnFiltro | src/app/api/asistencias/route.ts:78-81 | the corrected restriction leaves a history role's filter alone and changes only the user id otherwise |
| Listado.ListStepOwn | src/app/api/asistencias/route.ts:78-98 | the corrected handler lists what the restricted filter selects |
| Listado.OwnFiltroRestricts | src/app/api/asistencias/route.ts:78-81 | with the correction, a role without history access selects exactly its own records among those the rest of the filter selects |
| Listado.OwnListingIsOwn | src/app/api/asistencias/route.ts:78-81 | with the correction, every record listed to a role without history access is its own |
| Store.AsistenciaStore.constructor | src/app/api/asistencias/route.ts:213-223 | a new store is empty and consistent |
| Store.AsistenciaStore.FindUnique | src/app/api/asistencias/route.ts:213-223 | the lookup returns the record under the key |
| Store.AsistenciaStore.Save | src/app/api/asistencias/route.ts:240-290 | the new state is the old one with the record written |
| Store.AsistenciaStore.CheckIn | src/app/api/asistencias/route.ts:179-326 | the store stays consistent, and the new state and response are those of `CheckInStep` |
| Store.AsistenciaStore.CheckOut | src/app/api/asistencias/checkout/route.ts:25-133 | the store stays consistent, the new state and response are those of `CheckOutStep`, and the session cookies are removed exactly on success |
| Store.AsistenciaStore.RecordCheckOut | src/app/api/asistencias/checkout/route.ts:25-113 | the store stays consistent, and the new state and response are those of `CheckOutStep` |
| Store.AsistenciaStore.Actual | src/app/api/asistencias/actual/route.ts:23-79 | the response is that of `ActualStep`, and nothing changes |
| Store.AsistenciaStore.List | src/app/api/asistencias/route.ts:27-176 | the response is that of `ListStep`, with the `where` clause built step by step |

## Findings

| source | as written | input that shows it | evidently intended | confidence | as-written member | corrected member |
|---|---|---|---|---|---|---|
| src/app/api/asistencias/route.ts:78-81 | for a role without history access the handler sets `filtros.userId`, but `userId` was already destructured from the parsed filter at lines 63-76, and the `where` clause at line 98 uses that copy, so the restriction never reaches the query | an `agente` session requesting `GET /api/asistencias?userId=<another user's id>` | a role without history access only lists its own records | not executed | Listado.AgentListsAnotherUsersRecord | Listado.OwnListingIsOwn |

`Listado.ListStep` and `Listado.OverrideIsLost` model the code as written.
`Listado.OwnFiltro` and `Listado.ListStepOwn` are the corrected definitions, and
`Listado.OwnFiltroRestricts` proves that they restrict exactly to the session's
own records. `Store.AsistenciaStore.List` keeps the behaviour as written.

## Left out

- Parsing the request body as JSON. A body that does not parse (a 500 from the handler's catch) is the `None` body of check-in and check-out. A body that parses is modelled as a JSON object of scalar values.
- Login.Authenticate: takes an already parsed body, so the 500 for an unparseable login body is not modelled.
- The clock and time zones. The local hour, the UTC date and the time in milliseconds are one `Clock` reading passed in. The handlers read the clock separately for the shift, the shift date and the check-in time.
- Asistencias.HorasCentesimas: floating-point division, `toFixed(2)` and `parseFloat` are modelled exactly in integer hundredths, so binary rounding at a tie is not captured.
- Signing and verifying tokens (JWT with HS256), hashing and comparing passwords (bcrypt): parameters. The issue time of a token is not modelled.
- Prisma: findMany's order (`createdAt` desc), `skip`/`take` and the page contents are not modelled; the listing is the set of selected ids and its count. Included relations are the `join` parameter. Database failures other than an id collision are not modelled.
- Listado.Pagination: a non-numeric page or page size, or a negative skip, is taken to make the query fail with 500. How Prisma validates those values is not part of this model.
- Text.LexLe: the date-range filter compares by character code. For bounds that are not `YYYY-MM-DD` dates, the database's collation may order them differently.
- Case-insensitive matching folds ASCII letters only; string lengths count characters, not UTF-16 code units.
- Concurrency, including races on the composite-key unique constraint.
- The `details` field of 400 responses, the `mensaje` and `success` fields of responses, and the selected relation fields of returned records.
- The route matcher configuration of the gate (src/middleware.ts:126-128), because the gate's own rules are the same for every path it sees.
- The unused shift helpers in src/app/api/asistencias/checkout/route.ts:7-23; their copies in the other two handlers are `Shift.TurnoActual` and `Shift.FechaTurno`.
- The refresh, logout and me routes, the CRUD routes for users, units and posts, the export routes and the user interface: they are outside the attendance core.
