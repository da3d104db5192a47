/** The two controllers working together over one database: an event is
    created, reserved, protected from deletion while reserved, and removed
    once its reservation is gone; a past event cannot be reserved. */
module Scenarios {
  import opened Js
  import opened Responses
  import opened Store
  import DateTime
  import Eventos
  import Reservas

  /** A concert on 2999-01-01 20:00 at "Auditorio" is created; Ana reserves
      two tickets, and the reservation shows the concert's name; deleting
      the event is refused with 409 while the reservation exists and
      succeeds after it is deleted, after which the event is not found. */
  method ConcertScenario(now: int) returns (created: Response, reserved: Response, blocked: Response,
                                            removed: Response, gone: Response)
    requires now < DateTime.Minutes("2999-01-01 20:00")
    ensures created.statusCode == 200 && created.data.Record? && created.data.row.EventRow?
    ensures created.data.row.nombre == Str("Concierto")
    ensures created.data.row.fecha == DateTime.Minutes("2999-01-01 20:00")
    ensures reserved.statusCode == 200 && reserved.data.Record? && reserved.data.row.ReservationRow?
    ensures reserved.data.row.evento == Str("Concierto")
    ensures reserved.data.row.cantidadBoletos == 2 && reserved.data.row.fechaReserva == now
    ensures blocked == Response(409, DetailMsg(Eventos.HAS_RESERVATIONS))
    ensures removed == Response(200, DetailMsg(Eventos.DELETED))
    ensures gone == Response(404, DetailMsg(Eventos.NOT_FOUND))
  {
    assert DateTime.IsStrict("2999-01-01 20:00");
    Utf16LengthOfBmp("Concierto");
    Utf16LengthOfBmp("Auditorio");
    Utf16LengthOfBmp("Ana");
    var db := new Database();
    var concert := Eventos.EventBody(Str("Concierto"), Str("2999-01-01 20:00"), Str("Auditorio"), Undefined);
    created := Eventos.Create(db, concert, Some(DateTime.Minutes("2999-01-01 20:00")), false);
    var eventId := created.data.row.id;

    var ana := Reservas.ReservationBody(Num(eventId), Str("Ana"), Num(2), Undefined);
    reserved := Reservas.Create(db, ana, now, false);
    var reservationId := reserved.data.row.id;

    blocked := Eventos.Delete(db, Num(eventId), false);
    var cancelled := Reservas.Delete(db, Num(reservationId), false);
    removed := Eventos.Delete(db, Num(eventId), false);
    gone := Eventos.Delete(db, Num(eventId), false);
  }

  /** An otherwise valid reservation for an event dated 2000-01-01 00:00
      is refused with 400 when the clock is at or past that minute. */
  method PastEventScenario(now: int) returns (created: Response, refused: Response)
    requires now >= DateTime.Minutes("2000-01-01 00:00")
    ensures created.statusCode == 200
    ensures refused == Response(400, DetailMsg(Reservas.EVENT_PASSED))
  {
    assert DateTime.IsStrict("2000-01-01 00:00");
    Utf16LengthOfBmp("Fiesta");
    Utf16LengthOfBmp("Plaza");
    Utf16LengthOfBmp("Ana");
    var db := new Database();
    var party := Eventos.EventBody(Str("Fiesta"), Str("2000-01-01 00:00"), Str("Plaza"), Undefined);
    created := Eventos.Create(db, party, Some(DateTime.Minutes("2000-01-01 00:00")), false);
    var ana := Reservas.ReservationBody(Num(created.data.row.id), Str("Ana"), Num(2), Undefined);
    refused := Reservas.Create(db, ana, now, false);
  }

  /** A date with seconds fails moment's strict format, so it is reported,
      yet the body stays valid and the event is written when the column
      reads the date; `24:00` passes the format check, but the column
      refuses it and the answer is 500. */
  method DateFormatScenario() returns (withSeconds: Response, midnight: Response)
    ensures withSeconds.statusCode == 200 && withSeconds.data.Record? && withSeconds.data.row.EventRow?
    ensures withSeconds.data.row.fecha == DateTime.Minutes("2024-03-01 10:30")
    ensures midnight == Response(500, DetailMsg(Eventos.UPDATE_ERROR))
  {
    assert DateTime.IsStrict("2024-03-01 10:30");
    assert DateTime.IsStrict("2024-03-01 24:00");
    assert !DateTime.HasShape("2024-03-01 10:30:00");
    Utf16LengthOfBmp("Feria");
    Utf16LengthOfBmp("Parque");
    var db := new Database();
    var fair := Eventos.EventBody(Str("Feria"), Str("2024-03-01 10:30:00"), Str("Parque"), Undefined);
    assert Eventos.Messages(fair, false) == [FieldMessage("fecha", Eventos.BAD_DATE_FORMAT)];
    withSeconds := Eventos.Create(db, fair, Some(DateTime.Minutes("2024-03-01 10:30")), false);
    var late := fair.(fecha := Str("2024-03-01 24:00"));
    midnight := Eventos.Create(db, late, None, false);
  }
}
