/** The event controller: `detail`, `create`, `update` and `delete` over the
    `events` table, and the validation of an event's fields. */
module Eventos {
  import opened Js
  import opened Responses
  import opened Store
  import DateTime
  import DbConnection

  /** The fields a request carries: `nombre`, `fecha` and `ubicacion` from
      the body, `event_id` from the URL. */
  datatype EventBody = EventBody(nombre: JsValue, fecha: JsValue, ubicacion: JsValue, eventId: JsValue)

  const NOT_FOUND := "Evento no encontrado"
  const TOO_LONG_250 := "No puede tener más de 250 caracteres."
  const BAD_DATE_FORMAT := "Formato de fecha incorrecto [YYYY-MM-DD HH:mm]."
  /** Returned when an update fails, and also when an insert fails: the
      catch of `create` builds its own message, but the object is dropped
      because it has no `insertId`. */
  const UPDATE_ERROR := "Error al actualizar el evento."
  const NO_ROW_UPDATED := "Error actualizando evento"
  const DELETE_ERROR := "Error al eliminar el evento."
  const HAS_RESERVATIONS := "Este evento tiene reservaciones."
  const DELETED := "Evento eliminado"
  const NO_ROW_DELETED := "Error eliminando evento"

  // ---------------------------------------------------------------- detail

  /** `detail`: 200 with the row stored under the id, or 404. */
  function Detail(db: Database, eventId: JsValue): (r: Response)
    reads db
    ensures r.statusCode == 200 || r == Response(404, DetailMsg(NOT_FOUND))
    ensures r.statusCode == 200 <==> ToNumber(eventId).Some? && ToNumber(eventId).value in db.events
    ensures r.statusCode == 200 ==>
      var id := ToNumber(eventId).value;
      r.data == Record(EventRow(id, db.events[id].nombre, db.events[id].fecha, db.events[id].ubicacion))
  {
    var key := ToNumber(eventId);
    if key.Some? && key.value in db.events then
      var e := db.events[key.value];
      Response(200, Record(EventRow(key.value, e.nombre, e.fecha, e.ubicacion)))
    else
      Response(404, DetailMsg(NOT_FOUND))
  }

  // ------------------------------------------------------------ validation

  /** The complaints about `fecha`: "required" when falsy, a format
      complaint when it is not a strict `YYYY-MM-DD HH:mm`, none otherwise. */
  function DateMessages(fecha: JsValue): seq<FieldMessage> {
    if !Truthy(fecha) then [FieldMessage("fecha", REQUIRED)]
    else if !DateTime.IsStrictValue(fecha) then [FieldMessage("fecha", BAD_DATE_FORMAT)]
    else []
  }

  /** Every complaint `validate_data` lists, field by field. */
  function Messages(body: EventBody, update: bool): seq<FieldMessage> {
    TextFieldMessages("nombre", body.nombre, 100, TOO_LONG_100)
    + DateMessages(body.fecha)
    + TextFieldMessages("ubicacion", body.ubicacion, 250, TOO_LONG_250)
    + IdMessages(update, body.eventId)
  }

  /** The rules that decide validity: a name of at most 100 code units, a
      date, a location of at most 250 code units, and in update mode an id.
      The format of the date is not among them. */
  predicate Acceptable(body: EventBody, update: bool) {
    && Truthy(body.nombre) && !LongerThan(body.nombre, 100)
    && Truthy(body.fecha)
    && Truthy(body.ubicacion) && !LongerThan(body.ubicacion, 250)
    && (update ==> Truthy(body.eventId))
  }

  /** `validate_data(body, update)`: checks every field, marks the result
      422 and invalid on each failing rule, and pushes one complaint per
      failing field. */
  method ValidateData(body: EventBody, update: bool) returns (v: Validation)
    ensures v.isValid <==> Acceptable(body, update)
    ensures v.statusCode == (if v.isValid then 200 else 422)
    ensures v.data == Messages(body, update)
  {
    var statusCode, isValid, data := 200, true, [];
    if !Truthy(body.nombre) {
      statusCode, isValid := 422, false;
      data := data + [FieldMessage("nombre", REQUIRED)];
    } else if LongerThan(body.nombre, 100) {
      statusCode, isValid := 422, false;
      data := data + [FieldMessage("nombre", TOO_LONG_100)];
    }
    assert data == TextFieldMessages("nombre", body.nombre, 100, TOO_LONG_100);
    ghost var upToName := data;
    if !Truthy(body.fecha) {
      statusCode, isValid := 422, false;
      data := data + [FieldMessage("fecha", REQUIRED)];
    } else if !DateTime.IsStrictValue(body.fecha) {
      data := data + [FieldMessage("fecha", BAD_DATE_FORMAT)];
    }
    assert data == upToName + DateMessages(body.fecha);
    ghost var upToDate := data;
    if !Truthy(body.ubicacion) {
      statusCode, isValid := 422, false;
      data := data + [FieldMessage("ubicacion", REQUIRED)];
    } else if LongerThan(body.ubicacion, 250) {
      statusCode, isValid := 422, false;
      data := data + [FieldMessage("ubicacion", TOO_LONG_250)];
    }
    assert data == upToDate + TextFieldMessages("ubicacion", body.ubicacion, 250, TOO_LONG_250);
    ghost var upToLocation := data;
    if update {
      if !Truthy(body.eventId) {
        statusCode, isValid := 422, false;
        data := data + [FieldMessage("id", REQUIRED)];
      }
    }
    assert data == upToLocation + IdMessages(update, body.eventId);
    v := Validation(statusCode, isValid, data);
  }

  /** The position of a field in the order the complaints are listed. */
  function FieldRank(key: string): nat {
    if key == "nombre" then 0
    else if key == "fecha" then 1
    else if key == "ubicacion" then 2
    else if key == "id" then 3
    else 4
  }

  /** The complaints come in the order nombre, fecha, ubicacion, id, with at
      most one per field. */
  lemma MessagesInFieldOrder(body: EventBody, update: bool)
    ensures var ms := Messages(body, update);
      && (forall i | 0 <= i < |ms| :: FieldRank(ms[i].key) < 4)
      && (forall i, j | 0 <= i < j < |ms| :: FieldRank(ms[i].key) < FieldRank(ms[j].key))
  {
  }

  /** Exactly one entry about `nombre` when it is missing ("required")
      or longer than 100 code units, and none otherwise. */
  lemma NameComplaints(body: EventBody, update: bool)
    ensures MessagesFor(Messages(body, update), "nombre") ==
      if !Truthy(body.nombre) then [FieldMessage("nombre", REQUIRED)]
      else if LongerThan(body.nombre, 100) then [FieldMessage("nombre", TOO_LONG_100)]
      else []
  {
    var a := TextFieldMessages("nombre", body.nombre, 100, TOO_LONG_100);
    var b := DateMessages(body.fecha);
    var c := TextFieldMessages("ubicacion", body.ubicacion, 250, TOO_LONG_250);
    var d := IdMessages(update, body.eventId);
    assert Messages(body, update) == a + b + c + d;
    MessagesForFourRuns(a, b, c, d, "nombre", "fecha", "ubicacion", "id", "nombre");
  }

  /** Exactly one entry about `fecha` when it is missing ("required")
      or present but not a strict `YYYY-MM-DD HH:mm`, and none otherwise. */
  lemma DateComplaints(body: EventBody, update: bool)
    ensures MessagesFor(Messages(body, update), "fecha") ==
      if !Truthy(body.fecha) then [FieldMessage("fecha", REQUIRED)]
      else if !DateTime.IsStrictValue(body.fecha) then [FieldMessage("fecha", BAD_DATE_FORMAT)]
      else []
  {
    var a := TextFieldMessages("nombre", body.nombre, 100, TOO_LONG_100);
    var b := DateMessages(body.fecha);
    var c := TextFieldMessages("ubicacion", body.ubicacion, 250, TOO_LONG_250);
    var d := IdMessages(update, body.eventId);
    assert Messages(body, update) == a + b + c + d;
    MessagesForFourRuns(a, b, c, d, "nombre", "fecha", "ubicacion", "id", "fecha");
  }

  /** Exactly one entry about `ubicacion` when it is missing
      ("required") or longer than 250 code units, and none otherwise. */
  lemma LocationComplaints(body: EventBody, update: bool)
    ensures MessagesFor(Messages(body, update), "ubicacion") ==
      if !Truthy(body.ubicacion) then [FieldMessage("ubicacion", REQUIRED)]
      else if LongerThan(body.ubicacion, 250) then [FieldMessage("ubicacion", TOO_LONG_250)]
      else []
  {
    var a := TextFieldMessages("nombre", body.nombre, 100, TOO_LONG_100);
    var b := DateMessages(body.fecha);
    var c := TextFieldMessages("ubicacion", body.ubicacion, 250, TOO_LONG_250);
    var d := IdMessages(update, body.eventId);
    assert Messages(body, update) == a + b + c + d;
    MessagesForFourRuns(a, b, c, d, "nombre", "fecha", "ubicacion", "id", "ubicacion");
  }

  /** The id is checked only in update mode: one "required" entry
      when it is falsy there, none otherwise. */
  lemma IdComplaints(body: EventBody, update: bool)
    ensures MessagesFor(Messages(body, update), "id") ==
      if update && !Truthy(body.eventId) then [FieldMessage("id", REQUIRED)] else []
  {
    var a := TextFieldMessages("nombre", body.nombre, 100, TOO_LONG_100);
    var b := DateMessages(body.fecha);
    var c := TextFieldMessages("ubicacion", body.ubicacion, 250, TOO_LONG_250);
    var d := IdMessages(update, body.eventId);
    assert Messages(body, update) == a + b + c + d;
    MessagesForFourRuns(a, b, c, d, "nombre", "fecha", "ubicacion", "id", "id");
  }

  /** The result is valid exactly when nothing is listed or the only entry
      is the date format complaint: `is_valid` is false exactly when a rule
      that sets 422 fired. */
  lemma ValidIffOnlyFormatComplaint(body: EventBody, update: bool)
    ensures Acceptable(body, update) <==>
      (Messages(body, update) == [] || Messages(body, update) == [FieldMessage("fecha", BAD_DATE_FORMAT)])
  {
    var a := TextFieldMessages("nombre", body.nombre, 100, TOO_LONG_100);
    var b := DateMessages(body.fecha);
    var c := TextFieldMessages("ubicacion", body.ubicacion, 250, TOO_LONG_250);
    var d := IdMessages(update, body.eventId);
    var ms := a + b + c + d;
    assert Messages(body, update) == ms;
    if a != [] { assert ms[0] == a[0]; }
    if b != [] { assert ms[|a|] == b[0]; }
    if c != [] { assert ms[|a| + |b|] == c[0]; }
    if d != [] { assert ms[|a| + |b| + |c|] == d[0]; }
  }

  /** A date that is present but malformed is reported, yet validity is
      what a well-formed date would give. */
  lemma MalformedDateDoesNotInvalidate(body: EventBody, update: bool, wellFormed: string)
    requires Truthy(body.fecha) && !DateTime.IsStrictValue(body.fecha)
    requires DateTime.IsStrict(wellFormed)
    ensures FieldMessage("fecha", BAD_DATE_FORMAT) in Messages(body, update)
    ensures Acceptable(body, update) == Acceptable(body.(fecha := Str(wellFormed)), update)
  {
  }

  /** Names of exactly 100 and locations of exactly 250 characters of the
      Basic Multilingual Plane are accepted; one character more is not. */
  lemma LengthLimits(body: EventBody, update: bool)
    requires body.nombre.Str? && body.nombre.s != [] && InBmp(body.nombre.s)
    requires body.ubicacion.Str? && body.ubicacion.s != [] && InBmp(body.ubicacion.s)
    ensures MessagesFor(Messages(body, update), "nombre") ==
      if |body.nombre.s| <= 100 then [] else [FieldMessage("nombre", TOO_LONG_100)]
    ensures MessagesFor(Messages(body, update), "ubicacion") ==
      if |body.ubicacion.s| <= 250 then [] else [FieldMessage("ubicacion", TOO_LONG_250)]
  {
    Utf16LengthOfBmp(body.nombre.s);
    Utf16LengthOfBmp(body.ubicacion.s);
    NameComplaints(body, update);
    LocationComplaints(body, update);
  }

  /** `update` validates only after `detail` found the event, and a stored
      key is at least 1, so the id complaint can never reach its caller. */
  lemma UpdateNeverComplainsAboutId(db: Database, body: EventBody)
    requires db.Valid()
    requires Detail(db, body.eventId).statusCode == 200
    ensures Truthy(body.eventId)
    ensures IdMessages(true, body.eventId) == []
    ensures Acceptable(body, true) == Acceptable(body, false)
  {
    NonZeroNumberIsTruthy(body.eventId);
  }

  /** The parameter arrays `create`, `update` and `delete` build follow the
      column order of their statements: one tuple (nombre, fecha,
      ubicacion) for the insert, nombre, fecha, ubicacion, id for the
      update, and the id alone for the delete. */
  lemma StatementParametersInColumnOrder(body: EventBody)
    ensures DbConnection.Transformed(DbConnection.Object(
              [("nombre", body.nombre), ("fecha", body.fecha), ("ubicacion", body.ubicacion)]), true)
            == DbConnection.Matrix([[body.nombre, body.fecha, body.ubicacion]])
    ensures DbConnection.Transformed(DbConnection.Object(
              [("nombre", body.nombre), ("fecha", body.fecha), ("ubicacion", body.ubicacion),
               ("id", body.eventId)]), false)
            == DbConnection.Flat([body.nombre, body.fecha, body.ubicacion, body.eventId])
    ensures DbConnection.Transformed(DbConnection.Object([("id", body.eventId)]), false)
            == DbConnection.Flat([body.eventId])
  {
    var insert := [("nombre", body.nombre), ("fecha", body.fecha), ("ubicacion", body.ubicacion)];
    var update := [("nombre", body.nombre), ("fecha", body.fecha), ("ubicacion", body.ubicacion),
                   ("id", body.eventId)];
    var delete := [("id", body.eventId)];
    DbConnection.ValuesInKeyOrder(insert);
    DbConnection.ValuesInKeyOrder(update);
    DbConnection.ValuesInKeyOrder(delete);
    assert DbConnection.ValuesOf(insert) == [body.nombre, body.fecha, body.ubicacion];
    assert update[..|update| - 1] == insert;
    assert DbConnection.ValuesOf(update) == [body.nombre, body.fecha, body.ubicacion, body.eventId];
  }

  // ---------------------------------------------------------------- writes

  /** `create`: validate, insert, and answer with the row as `detail` reads
      it back under the generated id. `stored` is how the `fecha` column
      reads the date. A date whose only fault is its format passes
      validation, so it reaches the insert and is written whenever the
      column accepts it. */
  method Create(db: Database, body: EventBody, stored: Option<int>, fault: bool) returns (r: Response)
    requires db.Valid()
    requires ColumnReading(body.fecha, stored)
    modifies db
    ensures db.Valid()
    ensures !Acceptable(body, false) ==>
      r == Response(422, Errors(Messages(body, false))) && unchanged(db)
    ensures Acceptable(body, false) && (fault || stored.None?) ==>
      r == Response(500, DetailMsg(UPDATE_ERROR)) && unchanged(db)
    ensures Acceptable(body, false) && !fault && stored.Some? ==>
      var id := old(db.nextEventId);
      && db.events == old(db.events)[id := EventRecord(body.nombre, stored.value, body.ubicacion)]
      && db.nextEventId == id + 1
      && db.reservations == old(db.reservations)
      && db.nextReservationId == old(db.nextReservationId)
      && r == Response(200, Record(EventRow(id, body.nombre, stored.value, body.ubicacion)))
      && r == Detail(db, Num(id))
    ensures Messages(body, false) == [FieldMessage("fecha", BAD_DATE_FORMAT)] && !fault && stored.Some? ==>
      r.statusCode == 200
  {
    ValidIffOnlyFormatComplaint(body, false);
    var validation := ValidateData(body, false);
    if validation.isValid {
      var res := db.InsertEvent(body.nombre, body.fecha, body.ubicacion, stored, fault);
      if res.Written? && res.insertId != 0 {
        r := Detail(db, Num(res.insertId));
      } else {
        r := Response(500, DetailMsg(UPDATE_ERROR));
      }
    } else {
      r := WithoutIsValid(validation);
    }
  }

  /** `update`: a missing event is answered with `detail`'s 404 as it is;
      otherwise validate in update mode, replace the three fields and
      answer with the row `detail` reads back. `stored` is how the `fecha`
      column reads the date, as in `create`. */
  method Update(db: Database, body: EventBody, stored: Option<int>, fault: bool) returns (r: Response)
    requires db.Valid()
    requires ColumnReading(body.fecha, stored)
    modifies db
    ensures db.Valid()
    ensures old(Detail(db, body.eventId)).statusCode != 200 ==>
      r == old(Detail(db, body.eventId)) && unchanged(db)
    ensures old(Detail(db, body.eventId)).statusCode == 200 && !Acceptable(body, true) ==>
      r == Response(422, Errors(Messages(body, true))) && unchanged(db)
    ensures old(Detail(db, body.eventId)).statusCode == 200 && Acceptable(body, true)
            && (fault || stored.None?) ==>
      r == Response(500, DetailMsg(UPDATE_ERROR)) && unchanged(db)
    ensures old(Detail(db, body.eventId)).statusCode == 200 && Acceptable(body, true)
            && !fault && stored.Some? ==>
      var id := ToNumber(body.eventId).value;
      && db.events == old(db.events)[id := EventRecord(body.nombre, stored.value, body.ubicacion)]
      && db.nextEventId == old(db.nextEventId)
      && db.reservations == old(db.reservations)
      && db.nextReservationId == old(db.nextReservationId)
      && r == Response(200, Record(EventRow(id, body.nombre, stored.value, body.ubicacion)))
      && r == Detail(db, body.eventId)
    ensures old(Detail(db, body.eventId)).statusCode == 200
            && Messages(body, true) == [FieldMessage("fecha", BAD_DATE_FORMAT)] && !fault && stored.Some? ==>
      r.statusCode == 200
  {
    ValidIffOnlyFormatComplaint(body, true);
    var event := Detail(db, body.eventId);
    if event.statusCode == 200 {
      var validation := ValidateData(body, true);
      if validation.isValid {
        var id := ToNumber(body.eventId).value;
        var res := db.UpdateEvent(id, body.nombre, body.fecha, body.ubicacion, stored, fault);
        if res.Written? && res.affectedRows > 0 {
          r := Detail(db, body.eventId);
        } else if res.Failed? {
          r := Response(500, DetailMsg(UPDATE_ERROR));
        } else {
          r := Response(500, DetailMsg(NO_ROW_UPDATED));
        }
      } else {
        r := WithoutIsValid(validation);
      }
    } else {
      r := event;
    }
  }

  /** `delete`: a missing event is answered with `detail`'s 404 as it is;
      an event that reservations still reference is kept and answered with
      409; any other failure is 500. */
  method Delete(db: Database, eventId: JsValue, fault: bool) returns (r: Response)
    requires db.Valid()
    modifies db
    ensures db.Valid()
    ensures old(Detail(db, eventId)).statusCode != 200 ==>
      r == old(Detail(db, eventId)) && unchanged(db)
    ensures old(Detail(db, eventId)).statusCode == 200 && fault ==>
      r == Response(500, DetailMsg(DELETE_ERROR)) && unchanged(db)
    ensures old(Detail(db, eventId)).statusCode == 200 && !fault ==>
      var id := ToNumber(eventId).value;
      && (old(db.Referenced(id)) ==>
            r == Response(409, DetailMsg(HAS_RESERVATIONS)) && unchanged(db))
      && (!old(db.Referenced(id)) ==>
            && r == Response(200, DetailMsg(DELETED))
            && db.events == old(db.events) - {id}
            && db.nextEventId == old(db.nextEventId)
            && db.reservations == old(db.reservations)
            && db.nextReservationId == old(db.nextReservationId)
            && Detail(db, eventId) == Response(404, DetailMsg(NOT_FOUND)))
  {
    var event := Detail(db, eventId);
    if event.statusCode == 200 {
      var id := ToNumber(eventId).value;
      var res := db.DeleteEvent(id, fault);
      if res.Written? && res.affectedRows > 0 {
        r := Response(200, DetailMsg(DELETED));
      } else if res.Failed? {
        if res.code == RowIsReferenced {
          r := Response(409, DetailMsg(HAS_RESERVATIONS));
        } else {
          r := Response(500, DetailMsg(DELETE_ERROR));
        }
      } else {
        r := Response(500, DetailMsg(NO_ROW_DELETED));
      }
    } else {
      r := event;
    }
  }
}
