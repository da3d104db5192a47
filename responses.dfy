/** The objects the controllers return: `{ status_code, data }`, and the
    validation object `{ status_code, is_valid, data }` whose `data` lists
    one `{ <field>: <message> }` entry per complaint. */
module Responses {
  import opened Js

  /** One complaint, `{ key: text }`. */
  datatype FieldMessage = FieldMessage(key: string, text: string)

  /** A row as the controllers return it: an event as stored, or a
      reservation joined with the name of its event (`e.nombre as evento`,
      null when the left join finds no event). Dates are minutes. */
  datatype Row =
    | EventRow(id: int, nombre: JsValue, fecha: int, ubicacion: JsValue)
    | ReservationRow(id: int, nombreUsuario: JsValue, cantidadBoletos: int,
                     fechaReserva: int, evento: JsValue)

  /** The `data` of a response: a row, `{ detail: text }`, or the list of
      complaints of a failed validation. */
  datatype Data = Record(row: Row) | DetailMsg(detail: string) | Errors(messages: seq<FieldMessage>)

  datatype Response = Response(statusCode: int, data: Data)

  datatype Validation = Validation(statusCode: int, isValid: bool, data: seq<FieldMessage>)

  const REQUIRED := "Es un campo obligatorio."
  const TOO_LONG_100 := "No puede tener más de 100 caracteres."

  /** `delete validation.is_valid; return validation;` */
  function WithoutIsValid(v: Validation): Response {
    Response(v.statusCode, Errors(v.data))
  }

  /** The complaints about one required text field with a length limit:
      "required" when the value is falsy, "too long" when its `length`
      exceeds `max`, none otherwise. */
  function TextFieldMessages(key: string, v: JsValue, max: nat, tooLong: string): seq<FieldMessage> {
    if !Truthy(v) then [FieldMessage(key, REQUIRED)]
    else if LongerThan(v, max) then [FieldMessage(key, tooLong)]
    else []
  }

  /** The complaint about the id in update mode: "required" when the id is falsy. */
  function IdMessages(update: bool, id: JsValue): seq<FieldMessage> {
    if update && !Truthy(id) then [FieldMessage("id", REQUIRED)] else []
  }

  /** The entries of `ms` about field `key`, in order. */
  function MessagesFor(ms: seq<FieldMessage>, key: string): seq<FieldMessage> {
    if ms == [] then []
    else MessagesFor(ms[..|ms| - 1], key) + (if ms[|ms| - 1].key == key then [ms[|ms| - 1]] else [])
  }

  /** Selecting the entries about one field distributes over appending. */
  lemma {:induction false} MessagesForAppend(a: seq<FieldMessage>, b: seq<FieldMessage>, key: string)
    ensures MessagesFor(a + b, key) == MessagesFor(a, key) + MessagesFor(b, key)
  {
    if b != [] {
      assert (a + b)[..|a + b| - 1] == a + b[..|b| - 1];
      MessagesForAppend(a, b[..|b| - 1], key);
    } else {
      assert a + b == a;
    }
  }

  /** Selecting from entries that are all about one field `k` keeps all of
      them for `k` and none for any other field. */
  lemma {:induction false} MessagesForOneField(ms: seq<FieldMessage>, k: string, key: string)
    requires forall i | 0 <= i < |ms| :: ms[i].key == k
    ensures MessagesFor(ms, key) == if key == k then ms else []
  {
    if ms != [] {
      MessagesForOneField(ms[..|ms| - 1], k, key);
    }
  }

  /** Selecting one field from four runs of entries, each run about a
      single field: only the runs about that field remain. */
  lemma MessagesForFourRuns(a: seq<FieldMessage>, b: seq<FieldMessage>, c: seq<FieldMessage>,
                            d: seq<FieldMessage>, ka: string, kb: string, kc: string, kd: string,
                            key: string)
    requires forall i | 0 <= i < |a| :: a[i].key == ka
    requires forall i | 0 <= i < |b| :: b[i].key == kb
    requires forall i | 0 <= i < |c| :: c[i].key == kc
    requires forall i | 0 <= i < |d| :: d[i].key == kd
    ensures MessagesFor(a + b + c + d, key) ==
      (if key == ka then a else []) + (if key == kb then b else [])
      + (if key == kc then c else []) + (if key == kd then d else [])
  {
    MessagesForAppend(a + b + c, d, key);
    MessagesForAppend(a + b, c, key);
    MessagesForAppend(a, b, key);
    MessagesForOneField(a, ka, key);
    MessagesForOneField(b, kb, key);
    MessagesForOneField(c, kc, key);
    MessagesForOneField(d, kd, key);
  }
}
