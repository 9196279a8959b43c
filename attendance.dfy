/**
 * RegistroAsistenciaQR: the attendance page that receives a DNI from the scanner, validates the
 * student, registers the attendance, reloads the list and shows a message for five seconds.
 *
 * The three HTTP calls are parameters, given as the outcome each one has; `calls` lists the
 * calls made, in order, together with the point where the scanner is hidden. `clearsPending`
 * counts the 5-second timers of `mostrarMensaje` not yet fired. Timestamps are integers
 * (milliseconds); the start of today and of tomorrow are parameters.
 */
module Attendance {
  import opened Text

  /** An attendance record as the list endpoint returns it. */
  datatype Record = Record(dni: string, fechaHora: int)

  /** The student part of a validation reply. */
  datatype Student = Student(nombres: string, apellidos: string, dni: string)

  /** How `GET /estudiantes/validar-qr/:dni` ends: a reply, or an error with its HTTP status, if any. */
  datatype Validation = Validated(valido: bool, estudiante: Student) | ValidationFailed(status: Option<int>)

  /** How `POST /asistencias/qr` ends: a reply, or an error with its status and the server's `error` text. */
  datatype Registration = Registered | RegistrationFailed(status: Option<int>, serverError: Option<string>)

  /** How `GET /asistencias` ends. */
  datatype Listing = Listed(records: seq<Record>) | ListingFailed

  /** The second argument of `mostrarMensaje`, or `''` once cleared. */
  datatype Tone = NoTone | SuccessTone | ErrorTone

  /** What the page does, in order: hide the scanner, or call an endpoint. */
  datatype Call = HideScanner | ValidateCall(dni: string) | RegisterCall(dni: string) | ListCall

  const InvalidQr: string := "QR no válido"
  const NotFound: string := "Estudiante no encontrado"
  const ValidationError: string := "Error al validar estudiante"
  const RegistrationError: string := "Error al registrar asistencia"
  const ProcessingError: string := "Error al procesar código QR"
  const ListingError: string := "Error al cargar asistencias"

  /** The message of the error `validarEstudiante` throws. */
  function ValidationMessage(status: Option<int>): (r: string)
    ensures r != ""
    ensures r == NotFound <==> status == Some(404)
  {
    if status == Some(404) then NotFound else ValidationError
  }

  /** The message of the error `registrarAsistencia` throws: `new Error(undefined)` has an empty message. */
  function RegistrationMessage(status: Option<int>, serverError: Option<string>): (r: string)
    ensures status != Some(400) ==> r == RegistrationError
    ensures status == Some(400) && serverError.Some? ==> r == serverError.value
    ensures status == Some(400) && serverError.None? ==> r == ""
  {
    if status == Some(400) then (if serverError.Some? then serverError.value else "") else RegistrationError
  }

  /** The `catch` of `handleQRDetected`: `error.message || 'Error al procesar código QR'`. */
  function CaughtMessage(message: string): (r: string)
    ensures r != ""
    ensures message != "" ==> r == message
    ensures message == "" ==> r == ProcessingError
  {
    if message != "" then message else ProcessingError
  }

  function SuccessMessage(s: Student): string {
    "✅ Asistencia registrada para: " + s.nombres + " " + s.apellidos + " (DNI: " + s.dni + ")"
  }

  datatype Page = Page(
    showScanner: bool,
    records: seq<Record>,
    loading: bool,
    message: string,
    tone: Tone,
    clearsPending: nat,
    calls: seq<Call>)

  const Initial: Page := Page(false, [], false, "", NoTone, 0, [])

  /** `mostrarMensaje`: shows the text and schedules one clearing 5 seconds later. */
  function Show(p: Page, text: string, tone: Tone): (r: Page)
    ensures r.message == text && r.tone == tone && r.clearsPending == p.clearsPending + 1
    ensures r.calls == p.calls && r.loading == p.loading && r.records == p.records
  {
    p.(message := text, tone := tone, clearsPending := p.clearsPending + 1)
  }

  /** A 5-second timer of `mostrarMensaje` firing: it clears whatever message is shown. */
  function ClearFires(p: Page): Page
    requires p.clearsPending > 0
  {
    p.(message := "", tone := NoTone, clearsPending := p.clearsPending - 1)
  }

  /** `cargarAsistencias`. */
  function Load(p: Page, listing: Listing): (r: Page)
    ensures !r.loading && r.calls == p.calls + [ListCall]
  {
    var busy := p.(loading := true, calls := p.calls + [ListCall]);
    var after := match listing
      case Listed(records) => busy.(records := records)
      case ListingFailed => Show(busy, ListingError, ErrorTone);
    after.(loading := false)
  }

  /** `handleQRDetected`, from hiding the scanner to the `finally`. */
  function Detected(p: Page, dni: string, validation: Validation, registration: Registration, listing: Listing): (r: Page)
    ensures !r.loading && !r.showScanner
  {
    var hidden := p.(showScanner := false, loading := true, calls := p.calls + [HideScanner]);
    var validating := hidden.(calls := hidden.calls + [ValidateCall(dni)]);
    var after := match validation
      case ValidationFailed(status) => Show(validating, CaughtMessage(ValidationMessage(status)), ErrorTone)
      case Validated(valido, student) =>
        if !valido then Show(validating, InvalidQr, ErrorTone)
        else
          var registering := validating.(calls := validating.calls + [RegisterCall(dni)]);
          match registration
          case RegistrationFailed(status, serverError) =>
            Show(registering, CaughtMessage(RegistrationMessage(status, serverError)), ErrorTone)
          case Registered => Load(Show(registering, SuccessMessage(student), SuccessTone), listing);
    after.(loading := false)
  }

  /** The calls one detection makes, after the ones made before it. */
  function CallsOf(dni: string, validation: Validation, registration: Registration): seq<Call> {
    if validation.Validated? && validation.valido
    then [HideScanner, ValidateCall(dni), RegisterCall(dni)] + (if registration.Registered? then [ListCall] else [])
    else [HideScanner, ValidateCall(dni)]
  }

  /** The scanner is hidden before any request, and the requests are exactly validate, register, reload, as far as they get. */
  lemma DetectedCalls(p: Page, dni: string, validation: Validation, registration: Registration, listing: Listing)
    ensures Detected(p, dni, validation, registration, listing).calls == p.calls + CallsOf(dni, validation, registration)
  {
  }

  /** Registration is attempted exactly when validation answered `valido`. */
  lemma RegistersOnlyWhenValid(p: Page, dni: string, validation: Validation, registration: Registration, listing: Listing)
    ensures var r := Detected(p, dni, validation, registration, listing);
      RegisterCall(dni) in r.calls[|p.calls|..] <==> validation.Validated? && validation.valido
  {
    DetectedCalls(p, dni, validation, registration, listing);
    var r := Detected(p, dni, validation, registration, listing);
    assert r.calls[|p.calls|..] == CallsOf(dni, validation, registration);
  }

  /** A reply without `valido` shows 'QR no válido' as an error. */
  lemma InvalidReplyMessage(p: Page, dni: string, s: Student, registration: Registration, listing: Listing)
    ensures var r := Detected(p, dni, Validated(false, s), registration, listing);
      r.message == InvalidQr && r.tone == ErrorTone && r.records == p.records
  {
  }

  /** A failed validation shows 'Estudiante no encontrado' for a 404 and 'Error al validar estudiante' otherwise. */
  lemma ValidationFailureMessage(p: Page, dni: string, status: Option<int>, registration: Registration, listing: Listing)
    ensures var r := Detected(p, dni, ValidationFailed(status), registration, listing);
      r.message == (if status == Some(404) then NotFound else ValidationError) && r.tone == ErrorTone
  {
  }

  /**
   * A failed registration shows the server's text for a 400, 'Error al registrar asistencia'
   * otherwise; a 400 without a text falls back to 'Error al procesar código QR'.
   */
  lemma RegistrationFailureMessage(p: Page, dni: string, s: Student, status: Option<int>, serverError: Option<string>, listing: Listing)
    ensures var r := Detected(p, dni, Validated(true, s), RegistrationFailed(status, serverError), listing);
      r.tone == ErrorTone
      && r.message == (if status != Some(400) then RegistrationError
                       else if Truthy(serverError) then serverError.value
                       else ProcessingError)
  {
  }

  /** A registration names the student; the reload replaces the list, or its failure replaces the message. */
  lemma RegisteredOutcome(p: Page, dni: string, s: Student, listing: Listing)
    ensures var r := Detected(p, dni, Validated(true, s), Registered, listing);
      match listing
      case Listed(records) => r.records == records && r.message == SuccessMessage(s) && r.tone == SuccessTone
      case ListingFailed => r.records == p.records && r.message == ListingError && r.tone == ErrorTone
  {
  }

  /** Every message shown is cleared by its own timer: the page schedules one clearing per message. */
  lemma OneClearPerMessage(p: Page, dni: string, validation: Validation, registration: Registration, listing: Listing)
    ensures var r := Detected(p, dni, validation, registration, listing);
      r.clearsPending == p.clearsPending + (if validation.Validated? && validation.valido && registration.Registered?
                                              && listing.ListingFailed? then 2 else 1)
  {
  }

  /** A message is gone once its timer fires (a timer clears any message, even a newer one). */
  lemma ShowThenClear(p: Page, text: string, tone: Tone)
    ensures var r := ClearFires(Show(p, text, tone));
      r.message == "" && r.tone == NoTone && r.clearsPending == p.clearsPending
  {
  }

  /** The filter's test: the record's time is at or after today's start and before tomorrow's. */
  function OnDay(dayStart: int, nextDayStart: int): Record -> bool {
    (a: Record) => dayStart <= a.fechaHora < nextDayStart
  }

  /** `obtenerAsistenciasHoy`: the records with today's start <= FECHA_HORA < tomorrow's start. */
  function Today(records: seq<Record>, dayStart: int, nextDayStart: int): (r: seq<Record>)
    ensures |r| <= |records|
    ensures forall a :: a in r <==> a in records && dayStart <= a.fechaHora < nextDayStart
  {
    Filter(records, OnDay(dayStart, nextDayStart))
  }

  /** The filter keeps exactly today's records, every copy of them, in their original order. */
  lemma TodayExactly(records: seq<Record>, dayStart: int, nextDayStart: int, a: Record)
    ensures var r := Today(records, dayStart, nextDayStart);
      (a in r <==> a in records && dayStart <= a.fechaHora < nextDayStart)
      && multiset(r)[a] == (if dayStart <= a.fechaHora < nextDayStart then multiset(records)[a] else 0)
      && IsSubsequence(r, records)
  {
    FilterCounts(records, OnDay(dayStart, nextDayStart), a);
    FilterKeepsOrder(records, OnDay(dayStart, nextDayStart));
  }

  /** Both bounds are as written: midnight today is in, midnight tomorrow is out. */
  lemma TodayBounds(dni: string, dayStart: int, nextDayStart: int)
    requires dayStart < nextDayStart
    ensures Today([Record(dni, dayStart)], dayStart, nextDayStart) == [Record(dni, dayStart)]
    ensures Today([Record(dni, nextDayStart)], dayStart, nextDayStart) == []
  {
  }

  /** The page: its state as fields, each handler a method. */
  class AttendancePage {
    var showScanner: bool
    var records: seq<Record>
    var loading: bool
    var message: string
    var tone: Tone
    var clearsPending: nat
    var calls: seq<Call>

    function Snapshot(): Page
      reads this
    {
      Page(showScanner, records, loading, message, tone, clearsPending, calls)
    }

    constructor()
      ensures Snapshot() == Initial
    {
      showScanner, records, loading := false, [], false;
      message, tone, clearsPending, calls := "", NoTone, 0, [];
    }

    method ShowMessage(text: string, t: Tone)
      modifies this
      ensures Snapshot() == Show(old(Snapshot()), text, t)
    {
      message := text;
      tone := t;
      clearsPending := clearsPending + 1;
    }

    method OnClearTimer()
      requires clearsPending > 0
      modifies this
      ensures Snapshot() == ClearFires(old(Snapshot()))
    {
      message := "";
      tone := NoTone;
      clearsPending := clearsPending - 1;
    }

    method LoadAttendances(listing: Listing)
      modifies this
      ensures Snapshot() == Load(old(Snapshot()), listing)
    {
      loading := true;
      calls := calls + [ListCall];
      match listing {
        case Listed(rs) => records := rs;
        case ListingFailed => ShowMessage(ListingError, ErrorTone);
      }
      loading := false;
    }

    method HandleQrDetected(dni: string, validation: Validation, registration: Registration, listing: Listing)
      modifies this
      ensures Snapshot() == Detected(old(Snapshot()), dni, validation, registration, listing)
    {
      showScanner := false;
      loading := true;
      calls := calls + [HideScanner];
      calls := calls + [ValidateCall(dni)];
      match validation {
        case ValidationFailed(status) =>
          ShowMessage(CaughtMessage(ValidationMessage(status)), ErrorTone);
        case Validated(valido, student) =>
          if !valido {
            ShowMessage(InvalidQr, ErrorTone);
          } else {
            calls := calls + [RegisterCall(dni)];
            match registration {
              case RegistrationFailed(status, serverError) =>
                ShowMessage(CaughtMessage(RegistrationMessage(status, serverError)), ErrorTone);
              case Registered =>
                ShowMessage(SuccessMessage(student), SuccessTone);
                LoadAttendances(listing);
            }
          }
      }
      loading := false;
    }
  }
}
