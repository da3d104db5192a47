/** The two MySQL tables the controllers read and write, as maps from
    primary key to row, with their auto-increment counters. Each statement
    the controllers run is a method here. `fault` stands for a failure the
    controllers cannot tell apart from any other (a lost connection, a lock
    timeout): the statement then changes nothing. */
module Store {
  import opened Js
  import DateTime

  /** A row of `events`; `fecha` is the stored minute. */
  datatype EventRecord = EventRecord(nombre: JsValue, fecha: int, ubicacion: JsValue)

  /** A row of `reservations`; `evento_id` is a foreign key into `events`. */
  datatype ReservationRecord = ReservationRecord(eventoId: int, nombreUsuario: JsValue,
                                                 cantidadBoletos: int, fechaReserva: int)

  /** The error codes the model distinguishes: `ER_ROW_IS_REFERENCED_2`,
      `ER_NO_REFERENCED_ROW_2`, a date the column does not accept, and
      everything else. */
  datatype SqlError = RowIsReferenced | NoReferencedRow | WrongValue | Unclassified

  /** What a statement resolves to (`insertId` and `affectedRows` of the
      driver's result) or the error it rejects with. */
  datatype WriteResult = Written(insertId: int, affectedRows: nat) | Failed(code: SqlError)

  /** How the `fecha` column reads the value it is given, as the minute it
      stores or `None` when it refuses it. A strict `YYYY-MM-DD HH:mm` with
      hours 00-23 is stored as that minute; `24:00` is outside the
      column's hours and is refused. How MySQL reads any other value (a
      spelling with seconds, say) is left open: it is given, not computed. */
  predicate ColumnReading(fecha: JsValue, stored: Option<int>) {
    DateTime.IsStrictValue(fecha) ==>
      stored == (if DateTime.Hour(fecha.s) == 24 then None else DateTime.Parse(fecha))
  }

  class Database {
    var events: map<int, EventRecord>
    var reservations: map<int, ReservationRecord>
    var nextEventId: int
    var nextReservationId: int

    /** Keys are below the auto-increment counters, which start at 1, and
        every reservation references an existing event. */
    ghost predicate Valid()
      reads this
    {
      && 1 <= nextEventId
      && 1 <= nextReservationId
      && (forall id | id in events :: 1 <= id < nextEventId)
      && (forall id | id in reservations ::
            1 <= id < nextReservationId && reservations[id].eventoId in events)
    }

    constructor ()
      ensures Valid()
      ensures events == map[] && reservations == map[]
      ensures nextEventId == 1 && nextReservationId == 1
    {
      events, reservations := map[], map[];
      nextEventId, nextReservationId := 1, 1;
    }

    /** Some reservation still references event `eventId`. */
    predicate Referenced(eventId: int)
      reads this
    {
      exists id | id in reservations :: reservations[id].eventoId == eventId
    }

    /** `insert into events (nombre, fecha, ubicacion) values (?)`. */
    method InsertEvent(nombre: JsValue, fecha: JsValue, ubicacion: JsValue, stored: Option<int>,
                       fault: bool)
      returns (res: WriteResult)
      requires Valid()
      requires ColumnReading(fecha, stored)
      modifies this
      ensures Valid()
      ensures fault ==> res == Failed(Unclassified) && unchanged(this)
      ensures !fault && stored.None? ==> res == Failed(WrongValue) && unchanged(this)
      ensures !fault && stored.Some? ==>
        && res == Written(old(nextEventId), 1)
        && events == old(events)[old(nextEventId) := EventRecord(nombre, stored.value, ubicacion)]
        && nextEventId == old(nextEventId) + 1
        && reservations == old(reservations)
        && nextReservationId == old(nextReservationId)
    {
      if fault {
        res := Failed(Unclassified);
      } else if stored.None? {
        res := Failed(WrongValue);
      } else {
        res := Written(nextEventId, 1);
        events := events[nextEventId := EventRecord(nombre, stored.value, ubicacion)];
        nextEventId := nextEventId + 1;
      }
    }

    /** `update events set nombre = ?, fecha = ?, ubicacion = ? where id = ?`;
        the rows affected are the rows the key matches. */
    method UpdateEvent(id: int, nombre: JsValue, fecha: JsValue, ubicacion: JsValue,
                       stored: Option<int>, fault: bool)
      returns (res: WriteResult)
      requires Valid()
      requires ColumnReading(fecha, stored)
      modifies this
      ensures Valid()
      ensures fault ==> res == Failed(Unclassified) && unchanged(this)
      ensures !fault && stored.None? ==> res == Failed(WrongValue) && unchanged(this)
      ensures !fault && stored.Some? && id !in old(events) ==>
        res == Written(0, 0) && unchanged(this)
      ensures !fault && stored.Some? && id in old(events) ==>
        && res == Written(0, 1)
        && events == old(events)[id := EventRecord(nombre, stored.value, ubicacion)]
        && reservations == old(reservations)
        && nextEventId == old(nextEventId)
        && nextReservationId == old(nextReservationId)
    {
      if fault {
        res := Failed(Unclassified);
      } else if stored.None? {
        res := Failed(WrongValue);
      } else if id !in events {
        res := Written(0, 0);
      } else {
        res := Written(0, 1);
        events := events[id := EventRecord(nombre, stored.value, ubicacion)];
      }
    }

    /** `delete from events where id = ?`; the foreign key of `reservations`
        refuses it while a reservation references the event. */
    method DeleteEvent(id: int, fault: bool) returns (res: WriteResult)
      requires Valid()
      modifies this
      ensures Valid()
      ensures fault ==> res == Failed(Unclassified) && unchanged(this)
      ensures !fault && old(Referenced(id)) ==> res == Failed(RowIsReferenced) && unchanged(this)
      ensures !fault && !old(Referenced(id)) && id !in old(events) ==>
        res == Written(0, 0) && unchanged(this)
      ensures !fault && !old(Referenced(id)) && id in old(events) ==>
        && res == Written(0, 1)
        && events == old(events) - {id}
        && reservations == old(reservations)
        && nextEventId == old(nextEventId)
        && nextReservationId == old(nextReservationId)
    {
      if fault {
        res := Failed(Unclassified);
      } else if Referenced(id) {
        res := Failed(RowIsReferenced);
      } else if id !in events {
        res := Written(0, 0);
      } else {
        res := Written(0, 1);
        events := events - {id};
      }
    }

    /** `insert into reservations (evento_id, nombre_usuario,
        cantidad_boletos, fecha_reserva) values (?)`. */
    method InsertReservation(eventoId: int, nombreUsuario: JsValue, cantidadBoletos: int,
                             fechaReserva: int, fault: bool)
      returns (res: WriteResult)
      requires Valid()
      modifies this
      ensures Valid()
      ensures fault ==> res == Failed(Unclassified) && unchanged(this)
      ensures !fault && eventoId !in old(events) ==> res == Failed(NoReferencedRow) && unchanged(this)
      ensures !fault && eventoId in old(events) ==>
        && res == Written(old(nextReservationId), 1)
        && reservations == old(reservations)[old(nextReservationId) :=
             ReservationRecord(eventoId, nombreUsuario, cantidadBoletos, fechaReserva)]
        && nextReservationId == old(nextReservationId) + 1
        && events == old(events)
        && nextEventId == old(nextEventId)
    {
      if fault {
        res := Failed(Unclassified);
      } else if eventoId !in events {
        res := Failed(NoReferencedRow);
      } else {
        res := Written(nextReservationId, 1);
        reservations := reservations[nextReservationId :=
          ReservationRecord(eventoId, nombreUsuario, cantidadBoletos, fechaReserva)];
        nextReservationId := nextReservationId + 1;
      }
    }

    /** `update reservations set evento_id = ?, nombre_usuario = ?,
        cantidad_boletos = ? where id = ?`: `fecha_reserva` keeps its value. */
    method UpdateReservation(id: int, eventoId: int, nombreUsuario: JsValue, cantidadBoletos: int,
                             fault: bool)
      returns (res: WriteResult)
      requires Valid()
      modifies this
      ensures Valid()
      ensures fault ==> res == Failed(Unclassified) && unchanged(this)
      ensures !fault && eventoId !in old(events) ==> res == Failed(NoReferencedRow) && unchanged(this)
      ensures !fault && eventoId in old(events) && id !in old(reservations) ==>
        res == Written(0, 0) && unchanged(this)
      ensures !fault && eventoId in old(events) && id in old(reservations) ==>
        && res == Written(0, 1)
        && reservations == old(reservations)[id := old(reservations)[id].(
             eventoId := eventoId, nombreUsuario := nombreUsuario, cantidadBoletos := cantidadBoletos)]
        && events == old(events)
        && nextEventId == old(nextEventId)
        && nextReservationId == old(nextReservationId)
    {
      if fault {
        res := Failed(Unclassified);
      } else if eventoId !in events {
        res := Failed(NoReferencedRow);
      } else if id !in reservations {
        res := Written(0, 0);
      } else {
        res := Written(0, 1);
        reservations := reservations[id := reservations[id].(
          eventoId := eventoId, nombreUsuario := nombreUsuario, cantidadBoletos := cantidadBoletos)];
      }
    }

    /** `delete from reservations where id = ?`. */
    method DeleteReservation(id: int, fault: bool) returns (res: WriteResult)
      requires Valid()
      modifies this
      ensures Valid()
      ensures fault ==> res == Failed(Unclassified) && unchanged(this)
      ensures !fault && id !in old(reservations) ==> res == Written(0, 0) && unchanged(this)
      ensures !fault && id in old(reservations) ==>
        && res == Written(0, 1)
        && reservations == old(reservations) - {id}
        && events == old(events)
        && nextEventId == old(nextEventId)
        && nextReservationId == old(nextReservationId)
    {
      if fault {
        res := Failed(Unclassified);
      } else if id !in reservations {
        res := Written(0, 0);
      } else {
        res := Written(0, 1);
        reservations := reservations - {id};
      }
    }
  }
}
