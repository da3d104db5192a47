/** The reservation controller: `detail`, `create`, `update` and `delete`
    over the `reservations` table, and the validation of a reservation's
    fields. A reservation names its event by `evento_id`; `create` refuses
    events whose date is not after the current minute. */
module Reservas {
  import opened Js
  import opened Responses
  import opened Store
  import Eventos
  import DbConnection

  /** The fields a request carries: `evento_id`, `nombre_usuario` and
      `cantidad_boletos` from the body, `reservation_id` from the URL. */
  datatype ReservationBody = ReservationBody(eventoId: JsValue, nombreUsuario: JsValue,
                                             cantidadBoletos: JsValue, reservationId: JsValue)

  const NOT_FOUND := "Reservación no encontrada"
  const NOT_A_NUMBER := "Debe ser un número."
  const NOT_POSITIVE := "Debe ser mayor a 0."
  const EVENT_PASSED := "El evento ya ha pasado."
  /** Returned when an update fails, and also when an insert fails: the
      catch of `create` builds its own message, but the object has no
      `insertId`, so the generic branch answers instead. */
  const UPDATE_ERROR := "Error al actualizar la reservación."
  const NO_ROW_UPDATED := "Error actualizando la reservación"
  const DELETE_ERROR := "Error al eliminar la reservación."
  const DELETED := "Reservación eliminada"
  const NO_ROW_DELETED := "Error eliminando la reservación"

  // ---------------------------------------------------------------- detail

  /** `e.nombre as evento` of the left join: the event's name, or null
      when no event has that id. */
  function EventName(db: Database, eventId: int): JsValue
    reads db
  {
    if eventId in db.events then db.events[eventId].nombre else Undefined
  }

  /** `detail`: 200 with the reservation joined with its event's name, or 404. */
  function Detail(db: Database, reservationId: JsValue): (r: Response)
    reads db
    ensures r.statusCode == 200 || r == Response(404, DetailMsg(NOT_FOUND))
    ensures r.statusCode == 200 <==>
      ToNumber(reservationId).Some? && ToNumber(reservationId).value in db.reservations
    ensures r.statusCode == 200 ==>
      var id := ToNumber(reservationId).value;
      var res := db.reservations[id];
      r.data == Record(ReservationRow(id, res.nombreUsuario, res.cantidadBoletos, res.fechaReserva,
                                      EventName(db, res.eventoId)))
  {
    var key := ToNumber(reservationId);
    if key.Some? && key.value in db.reservations then
      var res := db.reservations[key.value];
      Response(200, Record(ReservationRow(key.value, res.nombreUsuario, res.cantidadBoletos,
                                          res.fechaReserva, EventName(db, res.eventoId))))
    else
      Response(404, DetailMsg(NOT_FOUND))
  }

  // ------------------------------------------------------------ validation

  /** A numeric field passes when it is truthy, converts to a number and
      that number is above 0 (`!v`, `isNaN(v)`, `v <= 0`). */
  predicate PositiveNumber(v: JsValue) {
    Truthy(v) && ToNumber(v).Some? && ToNumber(v).value > 0
  }

  /** The complaints about a numeric field: "required" when falsy (so a
      literal 0 is reported as missing), "must be a number" when it does
      not convert, "must be above 0" when it is 0 or less, none otherwise. */
  function NumericFieldMessages(key: string, v: JsValue): seq<FieldMessage> {
    if !Truthy(v) then [FieldMessage(key, REQUIRED)]
    else if IsNaN(v) then [FieldMessage(key, NOT_A_NUMBER)]
    else if ToNumber(v).value <= 0 then [FieldMessage(key, NOT_POSITIVE)]
    else []
  }

  /** Every complaint `validate_data` lists, field by field. */
  function Messages(body: ReservationBody, update: bool): seq<FieldMessage> {
    NumericFieldMessages("evento_id", body.eventoId)
    + TextFieldMessages("nombre_usuario", body.nombreUsuario, 100, TOO_LONG_100)
    + NumericFieldMessages("cantidad_boletos", body.cantidadBoletos)
    + IdMessages(update, body.reservationId)
  }

  /** The rules: a positive event id, a user name of at most 100 code
      units, a positive ticket count, and in update mode a reservation id. */
  predicate Acceptable(body: ReservationBody, update: bool) {
    && PositiveNumber(body.eventoId)
    && Truthy(body.nombreUsuario) && !LongerThan(body.nombreUsuario, 100)
    && PositiveNumber(body.cantidadBoletos)
    && (update ==> Truthy(body.reservationId))
  }

  /** `validate_data(body, update)`: checks every field, marks the result
      422 and invalid on each failing rule, and pushes one complaint per
      failing field. */
  method ValidateData(body: ReservationBody, update: bool) returns (v: Validation)
    ensures v.isValid <==> Acceptable(body, update)
    ensures v.statusCode == (if v.isValid then 200 else 422)
    ensures v.data == Messages(body, update)
  {
    var statusCode, isValid, data := 200, true, [];
    if !Truthy(body.eventoId) {
      statusCode, isValid := 422, false;
      data := data + [FieldMessage("evento_id", REQUIRED)];
    } else {
      var isNan := IsNaN(body.eventoId);
      if isNan {
        statusCode, isValid := 422, false;
        data := data + [FieldMessage("evento_id", NOT_A_NUMBER)];
      } else if ToNumber(body.eventoId).value <= 0 {
        statusCode, isValid := 422, false;
        data := data + [FieldMessage("evento_id", NOT_POSITIVE)];
      }
    }
    assert data == NumericFieldMessages("evento_id", body.eventoId);
    ghost var upToEvent := data;
    if !Truthy(body.nombreUsuario) {
      statusCode, isValid := 422, false;
      data := data + [FieldMessage("nombre_usuario", REQUIRED)];
    } else {
      if LongerThan(body.nombreUsuario, 100) {
        statusCode, isValid := 422, false;
        data := data + [FieldMessage("nombre_usuario", TOO_LONG_100)];
      }
    }
    assert data == upToEvent + TextFieldMessages("nombre_usuario", body.nombreUsuario, 100, TOO_LONG_100);
    ghost var upToName := data;
    if !Truthy(body.cantidadBoletos) {
      statusCode, isValid := 422, false;
      data := data + [FieldMessage("cantidad_boletos", REQUIRED)];
    } else {
      var isNan := IsNaN(body.cantidadBoletos);
      if isNan {
        statusCode, isValid := 422, false;
        data := data + [FieldMessage("cantidad_boletos", NOT_A_NUMBER)];
      } else if ToNumber(body.cantidadBoletos).value <= 0 {
        statusCode, isValid := 422, false;
        data := data + [FieldMessage("cantidad_boletos", NOT_POSITIVE)];
      }
    }
    assert data == upToName + NumericFieldMessages("cantidad_boletos", body.cantidadBoletos);
    ghost var upToTickets := data;
    if update {
      if !Truthy(body.reservationId) {
        statusCode, isValid := 422, false;
        data := data + [FieldMessage("id", REQUIRED)];
      }
    }
    assert data == upToTickets + IdMessages(update, body.reservationId);
    v := Validation(statusCode, isValid, data);
  }

  /** Every rule that fails also reports, so the result is valid exactly
      when nothing is listed. */
  lemma ValidIffNoMessages(body: ReservationBody, update: bool)
    ensures Acceptable(body, update) <==> Messages(body, update) == []
  {
  }

  /** The position of a field in the order the complaints are listed. */
  function FieldRank(key: string): nat {
    if key == "evento_id" then 0
    else if key == "nombre_usuario" then 1
    else if key == "cantidad_boletos" then 2
    else if key == "id" then 3
    else 4
  }

  /** The complaints come in the order evento_id, nombre_usuario,
      cantidad_boletos, id, with at most one per field. */
  lemma MessagesInFieldOrder(body: ReservationBody, update: bool)
    ensures var ms := Messages(body, update);
      && (forall i | 0 <= i < |ms| :: FieldRank(ms[i].key) < 4)
      && (forall i, j | 0 <= i < j < |ms| :: FieldRank(ms[i].key) < FieldRank(ms[j].key))
  {
  }

  /** `evento_id` draws one complaint: "required" when falsy, "must be a
      number" when it does not convert, "must be above 0" when it is 0 or
      less; none when it is a positive number. */
  lemma EventIdComplaints(body: ReservationBody, update: bool)
    ensures MessagesFor(Messages(body, update), "evento_id") ==
      if !Truthy(body.eventoId) then [FieldMessage("evento_id", REQUIRED)]
      else if IsNaN(body.eventoId) then [FieldMessage("evento_id", NOT_A_NUMBER)]
      else if ToNumber(body.eventoId).value <= 0 then [FieldMessage("evento_id", NOT_POSITIVE)]
      else []
  {
    var a := NumericFieldMessages("evento_id", body.eventoId);
    var b := TextFieldMessages("nombre_usuario", body.nombreUsuario, 100, TOO_LONG_100);
    var c := NumericFieldMessages("cantidad_boletos", body.cantidadBoletos);
    var d := IdMessages(update, body.reservationId);
    assert Messages(body, update) == a + b + c + d;
    MessagesForFourRuns(a, b, c, d, "evento_id", "nombre_usuario", "cantidad_boletos", "id", "evento_id");
  }

  /** `nombre_usuario` draws "required" when falsy, "too long" beyond
      100 code units, nothing otherwise. */
  lemma UserNameComplaints(body: ReservationBody, update: bool)
    ensures MessagesFor(Messages(body, update), "nombre_usuario") ==
      if !Truthy(body.nombreUsuario) then [FieldMessage("nombre_usuario", REQUIRED)]
      else if LongerThan(body.nombreUsuario, 100) then [FieldMessage("nombre_usuario", TOO_LONG_100)]
      else []
  {
    var a := NumericFieldMessages("evento_id", body.eventoId);
    var b := TextFieldMessages("nombre_usuario", body.nombreUsuario, 100, TOO_LONG_100);
    var c := NumericFieldMessages("cantidad_boletos", body.cantidadBoletos);
    var d := IdMessages(update, body.reservationId);
    assert Messages(body, update) == a + b + c + d;
    MessagesForFourRuns(a, b, c, d, "evento_id", "nombre_usuario", "cantidad_boletos", "id", "nombre_usuario");
  }

  /** `cantidad_boletos` follows the same three-way rule as `evento_id`. */
  lemma TicketCountComplaints(body: ReservationBody, update: bool)
    ensures MessagesFor(Messages(body, update), "cantidad_boletos") ==
      if !Truthy(body.cantidadBoletos) then [FieldMessage("cantidad_boletos", REQUIRED)]
      else if IsNaN(body.cantidadBoletos) then [FieldMessage("cantidad_boletos", NOT_A_NUMBER)]
      else if ToNumber(body.cantidadBoletos).value <= 0 then [FieldMessage("cantidad_boletos", NOT_POSITIVE)]
      else []
  {
    var a := NumericFieldMessages("evento_id", body.eventoId);
    var b := TextFieldMessages("nombre_usuario", body.nombreUsuario, 100, TOO_LONG_100);
    var c := NumericFieldMessages("cantidad_boletos", body.cantidadBoletos);
    var d := IdMessages(update, body.reservationId);
    assert Messages(body, update) == a + b + c + d;
    MessagesForFourRuns(a, b, c, d, "evento_id", "nombre_usuario", "cantidad_boletos", "id", "cantidad_boletos");
  }

  /** The reservation id is checked only in update mode. */
  lemma IdComplaints(body: ReservationBody, update: bool)
    ensures MessagesFor(Messages(body, update), "id") ==
      if update && !Truthy(body.reservationId) then [FieldMessage("id", REQUIRED)] else []
  {
    var a := NumericFieldMessages("evento_id", body.eventoId);
    var b := TextFieldMessages("nombre_usuario", body.nombreUsuario, 100, TOO_LONG_100);
    var c := NumericFieldMessages("cantidad_boletos", body.cantidadBoletos);
    var d := IdMessages(update, body.reservationId);
    assert Messages(body, update) == a + b + c + d;
    MessagesForFourRuns(a, b, c, d, "evento_id", "nombre_usuario", "cantidad_boletos", "id", "id");
  }

  /** A ticket count of the number 0 is falsy and is reported as missing,
      while the string "0" and negative counts are reported as not above 0,
      and a word as not a number. */
  lemma TicketCountEdgeCases(body: ReservationBody, update: bool)
    ensures body.cantidadBoletos == Num(0) ==>
      MessagesFor(Messages(body, update), "cantidad_boletos") == [FieldMessage("cantidad_boletos", REQUIRED)]
    ensures body.cantidadBoletos == Str("0") || body.cantidadBoletos == Num(-2) ==>
      MessagesFor(Messages(body, update), "cantidad_boletos") == [FieldMessage("cantidad_boletos", NOT_POSITIVE)]
    ensures body.cantidadBoletos == Str("tres") ==>
      MessagesFor(Messages(body, update), "cantidad_boletos") == [FieldMessage("cantidad_boletos", NOT_A_NUMBER)]
    ensures body.cantidadBoletos == Str("3") ==>
      MessagesFor(Messages(body, update), "cantidad_boletos") == []
  {
    TicketCountComplaints(body, update);
    assert AllDigits("0") && DigitsValue("0") == 0;
    assert AllDigits("3") && DigitsValue("3") == 3;
    assert !IsDigit("tres"[0]);
  }

  /** `update` validates only after `detail` found the reservation, and a
      stored key is at least 1, so the id complaint never reaches its caller. */
  lemma UpdateNeverComplainsAboutId(db: Database, body: ReservationBody)
    requires db.Valid()
    requires Detail(db, body.reservationId).statusCode == 200
    ensures Truthy(body.reservationId)
    ensures IdMessages(true, body.reservationId) == []
    ensures Acceptable(body, true) == Acceptable(body, false)
  {
    NonZeroNumberIsTruthy(body.reservationId);
  }

  /** The parameter arrays follow the column order of their statements:
      one tuple (evento_id, nombre_usuario, cantidad_boletos, fecha_reserva)
      for the insert, evento_id, nombre_usuario, cantidad_boletos, id for
      the update, and the id alone for the delete. `stamp` is the date
      object of the current time. */
  lemma StatementParametersInColumnOrder(body: ReservationBody, stamp: JsValue)
    ensures DbConnection.Transformed(DbConnection.Object(
              [("event_id", body.eventoId), ("nombre_usuario", body.nombreUsuario),
               ("cantidad_boletos", body.cantidadBoletos), ("fecha_reserva", stamp)]), true)
            == DbConnection.Matrix([[body.eventoId, body.nombreUsuario, body.cantidadBoletos, stamp]])
    ensures DbConnection.Transformed(DbConnection.Object(
              [("evento_id", body.eventoId), ("nombre_usuario", body.nombreUsuario),
               ("cantidad_boletos", body.cantidadBoletos), ("id", body.reservationId)]), false)
            == DbConnection.Flat([body.eventoId, body.nombreUsuario, body.cantidadBoletos, body.reservationId])
    ensures DbConnection.Transformed(DbConnection.Object([("id", body.reservationId)]), false)
            == DbConnection.Flat([body.reservationId])
  {
    var insert := [("event_id", body.eventoId), ("nombre_usuario", body.nombreUsuario),
                   ("cantidad_boletos", body.cantidadBoletos), ("fecha_reserva", stamp)];
    var update := [("evento_id", body.eventoId), ("nombre_usuario", body.nombreUsuario),
                   ("cantidad_boletos", body.cantidadBoletos), ("id", body.reservationId)];
    DbConnection.ValuesInKeyOrder(insert);
    DbConnection.ValuesInKeyOrder(update);
    DbConnection.ValuesInKeyOrder([("id", body.reservationId)]);
    assert DbConnection.ValuesOf(insert) == [body.eventoId, body.nombreUsuario, body.cantidadBoletos, stamp];
    assert DbConnection.ValuesOf(update) ==
      [body.eventoId, body.nombreUsuario, body.cantidadBoletos, body.reservationId];
  }

  // ---------------------------------------------------------------- writes

  /** `create`: validate first; then look the event up, answering with the
      event's own 404 when it is missing and with 400 when its date is not
      after the current minute `now`; otherwise insert the reservation
      stamped with `now` and answer with the row `detail` reads back. */
  method Create(db: Database, body: ReservationBody, now: int, fault: bool) returns (r: Response)
    requires db.Valid()
    modifies db
    ensures db.Valid()
    ensures !Acceptable(body, false) ==>
      r == Response(422, Errors(Messages(body, false))) && unchanged(db)
    ensures Acceptable(body, false) && old(Eventos.Detail(db, body.eventoId)).statusCode != 200 ==>
      r == old(Eventos.Detail(db, body.eventoId)) && unchanged(db)
    ensures Acceptable(body, false) && old(Eventos.Detail(db, body.eventoId)).statusCode == 200 ==>
      var eventId := ToNumber(body.eventoId).value;
      && (old(db.events[eventId].fecha) <= now ==>
            r == Response(400, DetailMsg(EVENT_PASSED)) && unchanged(db))
      && (old(db.events[eventId].fecha) > now && fault ==>
            r == Response(500, DetailMsg(UPDATE_ERROR)) && unchanged(db))
      && (old(db.events[eventId].fecha) > now && !fault ==>
            var id := old(db.nextReservationId);
            var tickets := ToNumber(body.cantidadBoletos).value;
            && db.reservations == old(db.reservations)[id :=
                 ReservationRecord(eventId, body.nombreUsuario, tickets, now)]
            && db.nextReservationId == id + 1
            && db.events == old(db.events)
            && db.nextEventId == old(db.nextEventId)
            && r == Response(200, Record(ReservationRow(id, body.nombreUsuario, tickets, now,
                                                        db.events[eventId].nombre)))
            && r == Detail(db, Num(id)))
  {
    var validation := ValidateData(body, false);
    if validation.isValid {
      var event := Eventos.Detail(db, body.eventoId);
      if event.statusCode == 200 {
        if event.data.row.fecha <= now {
          return Response(400, DetailMsg(EVENT_PASSED));
        }
        var eventId := ToNumber(body.eventoId).value;
        var tickets := ToNumber(body.cantidadBoletos).value;
        var res := db.InsertReservation(eventId, body.nombreUsuario, tickets, now, fault);
        if res.Written? && res.insertId != 0 {
          r := Detail(db, Num(res.insertId));
        } else {
          r := Response(500, DetailMsg(UPDATE_ERROR));
        }
      } else {
        r := event;
      }
    } else {
      r := WithoutIsValid(validation);
    }
  }

  /** `update`: a missing reservation is answered with `detail`'s 404 as
      it is; then validate in update mode, look the new event up (its 404
      is answered as it is), and replace the three columns, keeping
      `fecha_reserva`; there is no check of the event's date here. */
  method Update(db: Database, body: ReservationBody, fault: bool) returns (r: Response)
    requires db.Valid()
    modifies db
    ensures db.Valid()
    ensures old(Detail(db, body.reservationId)).statusCode != 200 ==>
      r == old(Detail(db, body.reservationId)) && unchanged(db)
    ensures old(Detail(db, body.reservationId)).statusCode == 200 && !Acceptable(body, true) ==>
      r == Response(422, Errors(Messages(body, true))) && unchanged(db)
    ensures old(Detail(db, body.reservationId)).statusCode == 200 && Acceptable(body, true)
            && old(Eventos.Detail(db, body.eventoId)).statusCode != 200 ==>
      r == old(Eventos.Detail(db, body.eventoId)) && unchanged(db)
    ensures old(Detail(db, body.reservationId)).statusCode == 200 && Acceptable(body, true)
            && old(Eventos.Detail(db, body.eventoId)).statusCode == 200 && fault ==>
      r == Response(500, DetailMsg(UPDATE_ERROR)) && unchanged(db)
    ensures old(Detail(db, body.reservationId)).statusCode == 200 && Acceptable(body, true)
            && old(Eventos.Detail(db, body.eventoId)).statusCode == 200 && !fault ==>
      var id := ToNumber(body.reservationId).value;
      var eventId := ToNumber(body.eventoId).value;
      var tickets := ToNumber(body.cantidadBoletos).value;
      var stamp := old(db.reservations[id].fechaReserva);
      && db.reservations == old(db.reservations)[id :=
           ReservationRecord(eventId, body.nombreUsuario, tickets, stamp)]
      && db.events == old(db.events)
      && db.nextEventId == old(db.nextEventId)
      && db.nextReservationId == old(db.nextReservationId)
      && r == Response(200, Record(ReservationRow(id, body.nombreUsuario, tickets, stamp,
                                                  db.events[eventId].nombre)))
      && r == Detail(db, body.reservationId)
  {
    var reservation := Detail(db, body.reservationId);
    if reservation.statusCode == 200 {
      var validation := ValidateData(body, true);
      if validation.isValid {
        var event := Eventos.Detail(db, body.eventoId);
        if event.statusCode == 200 {
          var id := ToNumber(body.reservationId).value;
          var eventId := ToNumber(body.eventoId).value;
          var tickets := ToNumber(body.cantidadBoletos).value;
          var res := db.UpdateReservation(id, eventId, body.nombreUsuario, tickets, fault);
          if res.Written? && res.affectedRows > 0 {
            r := Detail(db, body.reservationId);
          } else if res.Failed? {
            r := Response(500, DetailMsg(UPDATE_ERROR));
          } else {
            r := Response(500, DetailMsg(NO_ROW_UPDATED));
          }
        } else {
          r := event;
        }
      } else {
        r := WithoutIsValid(validation);
      }
    } else {
      r := reservation;
    }
  }

  /** `delete`: a missing reservation is answered with `detail`'s 404 as
      it is; otherwise the row is removed. Nothing references a
      reservation, so there is no conflict answer. */
  method Delete(db: Database, reservationId: JsValue, fault: bool) returns (r: Response)
    requires db.Valid()
    modifies db
    ensures db.Valid()
    ensures r.statusCode != 409
    ensures old(Detail(db, reservationId)).statusCode != 200 ==>
      r == old(Detail(db, reservationId)) && unchanged(db)
    ensures old(Detail(db, reservationId)).statusCode == 200 && fault ==>
      r == Response(500, DetailMsg(DELETE_ERROR)) && unchanged(db)
    ensures old(Detail(db, reservationId)).statusCode == 200 && !fault ==>
      var id := ToNumber(reservationId).value;
      && r == Response(200, DetailMsg(DELETED))
      && db.reservations == old(db.reservations) - {id}
      && db.events == old(db.events)
      && db.nextEventId == old(db.nextEventId)
      && db.nextReservationId == old(db.nextReservationId)
      && Detail(db, reservationId) == Response(404, DetailMsg(NOT_FOUND))
  {
    var reservation := Detail(db, reservationId);
    if reservation.statusCode == 200 {
      var id := ToNumber(reservationId).value;
      var res := db.DeleteReservation(id, fault);
      if res.Written? && res.affectedRows > 0 {
        r := Response(200, DetailMsg(DELETED));
      } else if res.Failed? {
        r := Response(500, DetailMsg(DELETE_ERROR));
      } else {
        r := Response(500, DetailMsg(NO_ROW_DELETED));
      }
    } else {
      r := reservation;
    }
  }
}
