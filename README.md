# Events and reservations REST API — Dafny model

This project models the service layer of a small Express/MySQL REST API that
manages events (`nombre`, `fecha`, `ubicacion`) and ticket reservations for
them (`evento_id`, `nombre_usuario`, `cantidad_boletos`, `fecha_reserva`).

- `Eventos` is the event controller: `detail`, `create`, `update`, `delete`
  and `validate_data`.
- `Reservas` is the reservation controller: the same five operations. A
  reservation's `detail` joins the name of its event. `create` refuses an
  event whose date is not after the current minute.
- `DbConnection` is `transformToMatrixOrArray`, which turns a statement's
  parameters into a flat array or a one-row matrix.
- `Store` stands for the two MySQL tables. It is a `Database` class whose
  `events` and `reservations` maps and auto-increment counters are changed
  by one method per SQL statement the controllers run. The foreign key
  from `reservations.evento_id` to `events.id` is enforced.
- `Js` holds the JavaScript coercions the validation relies on:
  truthiness, `Number`/`isNaN`, and the UTF-16 `length` of a string.
- `DateTime` is moment's strict `YYYY-MM-DD HH:mm` check and the minute a
  date denotes. Every date and the clock are integer minutes.
- `Responses` holds the `{ status_code, data }` and
  `{ status_code, is_valid, data }` objects and the shared field rules.
- `Scenarios` runs the controllers together: create an event, reserve it,
  fail to delete it while it is reserved, delete it after the reservation
  is gone, and refuse a reservation for a past event.

The controllers' read-modify-write operations are methods on the shared
`Database`. Each states every outcome: the status, the body, and the new
contents of both tables, including `unchanged(db)` on every error path.
`detail` only reads, so it is a function of the database. A successful
`create` or `update` answers with exactly what `detail` returns for the
written row. Three things come from outside the program and are parameters:
the clock (`now`), a storage failure the controllers cannot classify
(`fault`), and the minute the `fecha` column stores for the date it is
given (`stored`).

Validation is modelled twice. An imperative method mirrors the
accumulate-all-errors code. A function lists the same complaints field by
field, and lemmas about that function state the rules per field, the
order of fields, and when the result is valid.

## Model

| member | source | states |
|---|---|---|
| Js.Utf16LengthOfBmp | src/controllers/eventos_controller.js:251 | for text inside the Basic Multilingual Plane, `length` equals the number of characters, so the length limits count characters |
| Js.NonZeroNumberIsTruthy | src/controllers/reservas_controller.js:270-284 | a value that converts to a nonzero number is truthy, so a stored id (at least 1) always passes `!v` |
| DateTime.Parse | src/controllers/eventos_controller.js:262-263 | a field has a minute exactly when moment's strict `YYYY-MM-DD HH:mm` check accepts it |
| DateTime.StrictFormatAccepts | src/controllers/eventos_controller.js:262-263 | strict mode accepts an ordinary date, a leap day, and `24:00`, which is the next midnight |
| DateTime.YearStep | src/controllers/reservas_controller.js:84-85 | consecutive years start 366 or 365 days apart, as the earlier one is a leap year or not |
| DateTime.MonthStep | src/controllers/reservas_controller.js:84-85 | consecutive months start as many days apart as the earlier month has, and December ends the year |
| DateTime.DayWithinYear | src/controllers/reservas_controller.js:84-85 | the day number of a date lies within the days of its own year |
| DateTime.YearsOrdered | src/controllers/reservas_controller.js:84-85 | every year starts after all the days of each earlier year |
| DateTime.MinutesOrdered | src/controllers/reservas_controller.js:84-85 | a date with a later year, month or day has a later day number and, unless the earlier one is `24:00`, a later minute, so comparing minutes is the minute-precision `isSameOrBefore` |
| DateTime.StrictFormatRejects | src/controllers/eventos_controller.js:262-263 | strict mode rejects a day the month lacks, month 13, `24:30`, missing zero padding, a `T` separator and seconds |
| DbConnection.TransformToMatrixOrArray | src/utilities/db_connection.js:103-120 | the imperative conversion, with its push loop over the object's keys, returns the reference result `Transformed` |
| DbConnection.ValuesInKeyOrder | src/utilities/db_connection.js:114-118 | an object gives one value per key, each at its key's position |
| DbConnection.FlatResult | src/utilities/db_connection.js:103-120 | without `is_matrix` the result is flat: a copy of an array, the string alone, the number alone, or the object's values in key order |
| DbConnection.MatrixIsOneFlatRow | src/utilities/db_connection.js:104-119 | with `is_matrix`, every input except a string gives exactly one row, equal to the flat result; a string gives `[s]` either way |
| DbConnection.DocumentedExamples | src/utilities/db_connection.js:79-101 | the six examples of the documentation comment hold |
| Store.Database.InsertEvent | src/controllers/eventos_controller.js:78-92 | inserts the row with the minute the `fecha` column reads under the next id and returns that id, or fails without change on a fault or a date the column refuses (`24:00` among them) |
| Store.Database.UpdateEvent | src/controllers/eventos_controller.js:137-154 | replaces the three columns of a matched row with the minute the column reads (1 affected row), affects 0 rows when the key matches nothing, or fails without change on a fault or a refused date |
| Store.Database.DeleteEvent | src/controllers/eventos_controller.js:192-209 | removes the row, or fails with `ER_ROW_IS_REFERENCED_2` and no change while a reservation references it |
| Store.Database.InsertReservation | src/controllers/reservas_controller.js:99-113 | inserts under the next id when the event exists, and fails on the foreign key otherwise |
| Store.Database.UpdateReservation | src/controllers/reservas_controller.js:164-182 | sets `evento_id`, `nombre_usuario` and `cantidad_boletos` of a matched row and keeps `fecha_reserva` |
| Store.Database.DeleteReservation | src/controllers/reservas_controller.js:223-232 | removes a matched row; the events table is untouched |
| Eventos.Detail | src/controllers/eventos_controller.js:33-55 | 200 with the stored row exactly when the id converts to a stored key, otherwise 404 "Evento no encontrado" |
| Eventos.ValidateData | src/controllers/eventos_controller.js:240-290 | `is_valid` holds exactly when the name, date, location and (in update mode) id rules hold; the status is 200 or 422 accordingly; the complaints are the field-by-field list |
| Eventos.MessagesInFieldOrder | src/controllers/eventos_controller.js:240-290 | complaints are listed in the order nombre, fecha, ubicacion, id, with at most one per field |
| Eventos.NameComplaints | src/controllers/eventos_controller.js:246-256 | one "Es un campo obligatorio." when the name is falsy, one 100-character complaint when it is longer, none otherwise |
| Eventos.DateComplaints | src/controllers/eventos_controller.js:257-268 | one "required" complaint when the date is falsy, one format complaint when it is not strict, none otherwise |
| Eventos.LocationComplaints | src/controllers/eventos_controller.js:269-281 | one "required" complaint when the location is falsy, one 250-character complaint when it is longer, none otherwise |
| Eventos.IdComplaints | src/controllers/eventos_controller.js:282-288 | the id is checked only in update mode, with one "required" complaint when it is falsy |
| Eventos.ValidIffOnlyFormatComplaint | src/controllers/eventos_controller.js:240-290 | the result is valid exactly when nothing is listed or the only complaint is the date format one |
| Eventos.MalformedDateDoesNotInvalidate | src/controllers/eventos_controller.js:262-267 | a present but malformed date is reported, yet validity is the same as with a well-formed date |
| Eventos.LengthLimits | src/controllers/eventos_controller.js:251-281 | a name of exactly 100 and a location of exactly 250 characters are accepted; one more character draws the length complaint |
| Eventos.UpdateNeverComplainsAboutId | src/controllers/eventos_controller.js:124-127 | once `detail` found the event, the id complaint cannot fire, so update-mode validity equals create-mode validity |
| Eventos.StatementParametersInColumnOrder | src/controllers/eventos_controller.js:71-191 | the parameter arrays follow each statement's column order: one `(nombre, fecha, ubicacion)` tuple for the insert, then nombre, fecha, ubicacion, id for the update, and the id alone for the delete |
| Eventos.Create | src/controllers/eventos_controller.js:68-110 | 422 with the complaints and no write when invalid; 500 and no write on a store failure or a date the column refuses; otherwise the row is inserted under the next id with the minute the column reads, and the answer is `detail` of that id with the same name, date and location; a body whose only complaint is the date format is written and answered with 200 whenever the column reads its date |
| Eventos.Update | src/controllers/eventos_controller.js:124-173 | a missing event gets `detail`'s 404 unchanged; then 422 or 500 without a write; otherwise only that row's three columns change and the answer is `detail` of the id; a body whose only complaint is the date format is written like any valid one |
| Eventos.Delete | src/controllers/eventos_controller.js:185-225 | a missing event gets `detail`'s 404 unchanged; a referenced event is kept with 409; a failure gives 500; otherwise the event is removed with 200 "Evento eliminado" and is no longer found |
| Reservas.Detail | src/controllers/reservas_controller.js:37-64 | 200 with the reservation joined with its event's name exactly when the id converts to a stored key, otherwise 404 "Reservación no encontrada" |
| Reservas.ValidateData | src/controllers/reservas_controller.js:264-323 | `is_valid` holds exactly when the event id and ticket count are positive numbers, the user name is present and at most 100 long, and (in update mode) the id is present; the status is 200 or 422 accordingly; the complaints are the field-by-field list |
| Reservas.ValidIffNoMessages | src/controllers/reservas_controller.js:264-323 | every failing rule reports, so the result is valid exactly when nothing is listed |
| Reservas.MessagesInFieldOrder | src/controllers/reservas_controller.js:264-323 | complaints are listed in the order evento_id, nombre_usuario, cantidad_boletos, id, with at most one per field |
| Reservas.EventIdComplaints | src/controllers/reservas_controller.js:270-285 | `evento_id` draws exactly one of "required" (falsy), "Debe ser un número." (not a number) or "Debe ser mayor a 0." (0 or less), or nothing |
| Reservas.UserNameComplaints | src/controllers/reservas_controller.js:286-298 | `nombre_usuario` draws "required" when falsy, the 100-character complaint when longer, nothing otherwise |
| Reservas.TicketCountComplaints | src/controllers/reservas_controller.js:299-314 | `cantidad_boletos` follows the same three-way rule as `evento_id` |
| Reservas.IdComplaints | src/controllers/reservas_controller.js:315-321 | the reservation id is checked only in update mode |
| Reservas.TicketCountEdgeCases | src/controllers/reservas_controller.js:299-314 | the number 0 is reported as missing; the string "0" and negative counts as not above 0; a word as not a number; "3" passes |
| Reservas.UpdateNeverComplainsAboutId | src/controllers/reservas_controller.js:147-150 | once `detail` found the reservation, the id complaint cannot fire |
| Reservas.StatementParametersInColumnOrder | src/controllers/reservas_controller.js:91-222 | the parameter arrays follow each statement's column order for the insert, the update and the delete |
| Reservas.Create | src/controllers/reservas_controller.js:77-133 | validation comes first (422, no write); a missing event gets the event's 404 unchanged; an event at or before `now` gets 400 "El evento ya ha pasado."; a failure gives 500; otherwise the reservation is inserted stamped with `now` and answered as `detail` reads it, carrying the event's name |
| Reservas.Update | src/controllers/reservas_controller.js:147-204 | a missing reservation gets its 404 unchanged; then 422, the event's 404 unchanged, or 500, each without a write; otherwise the three columns change, `fecha_reserva` is kept, and there is no date check |
| Reservas.Delete | src/controllers/reservas_controller.js:216-248 | a missing reservation gets its 404 unchanged; a failure gives 500; otherwise the row is removed with 200 "Reservación eliminada"; never 409 |
| Scenarios.ConcertScenario | src/controllers/reservas_controller.js:77-133 | a concert is created, Ana's reservation shows the concert's name, deleting the event gets 409 while it is reserved and 200 afterwards, then 404 |
| Scenarios.DateFormatScenario | src/controllers/eventos_controller.js:257-268 | a date with seconds draws only the format complaint, stays valid, and the event is written and answered with 200; a `24:00` date passes validation, but the column refuses it and the answer is 500 |
| Scenarios.PastEventScenario | src/controllers/reservas_controller.js:84-90 | a reservation for an event dated 2000-01-01 00:00 gets 400 when the clock is at or past that minute |

## Left out

- The MySQL pool, `connect`, `query` and `query_connection`, the Express routes and the environment loading are not modelled. Each SQL statement is a `Store.Database` method over maps.
- The `list` operations of both controllers are not modelled. They return every row unfiltered.
- `detail` when its query fails: the source then reads `length` of `undefined` and throws. The model has no failing `detail`.
- Concurrency: each operation runs atomically on the database. The race between a `detail` check and the write that follows is not modelled.
- Console logging is not modelled.
- Request fields are `undefined`/`null`, booleans, integers or strings. Fractional numbers, objects and arrays in a body are not modelled.
- `Js.ToNumber`: `Number` of a string is modelled for the empty string and an optionally signed run of decimal digits. Whitespace, decimals, exponents and hexadecimal read as NaN.
- Key lookups use `Number` of the id. MySQL would read a string such as `"5abc"` as 5, but the model reports it as not found.
- Store.Database.InsertEvent: how MySQL reads a date that is not a strict `YYYY-MM-DD HH:mm` (seconds, single-digit fields, other separators) is not computed. The minute it stores, or its refusal, is the `stored` input. Only strict dates are pinned down: hours 00-23 give their minute and `24:00` is refused, because a DATETIME has no hour 24.
- Store.Database.UpdateEvent: the same rule applies to the date it writes.
- Text columns: `nombre`, `ubicacion` and `nombre_usuario` are stored and returned as the value sent. A number or `true` passes validation, since it is truthy and has no `length`. MySQL would store and return it as text (`"5"`, `"1"`), while `Eventos.Detail` and `Reservas.Detail` return it unchanged.
- Every other storage failure (lost connection, lock timeout and so on) is one `fault` flag, checked before the foreign key.
- Dates are minutes in the server's time zone. Time-zone conversions between Node and MySQL and the seconds of `fecha_reserva` are not modelled.
- `transformToMatrixOrArray(null)` throws, because `Object.keys(null)` fails. `Other` in the model covers only booleans and `undefined`.
- `affectedRows` counts matched rows, which is the driver's default. An update that matches a row therefore affects 1, and the "0 rows" branches of `update` cannot be reached without a race.
- An event's `create` answers a failed insert with "Error al actualizar el evento.", and a reservation's with "Error al actualizar la reservación.". The catch's own message is dropped because its object has no `insertId`, and the model follows the code here.
- A ticket count of the number 0 gets "Es un campo obligatorio." and not "Debe ser mayor a 0.". The source checks truthiness first, so a zero count never reaches the `<= 0` test, and the model follows the code.
- A malformed event date adds a complaint but does not make the result invalid. This is the source's behaviour and is stated as such (`Eventos.ValidIffOnlyFormatComplaint`).
