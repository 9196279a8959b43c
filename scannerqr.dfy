/**
 * EscanerQR: a webcam scanner that decodes a frame every 300 ms and hands the first DNI it
 * extracts to `onQRDetected`.
 *
 * The interval callback awaits the decoder, so one tick is two steps here: `Tick` (the part up to
 * the `await`) and `Decoded` (the rest, run when the decoder settles). Timers and callbacks are
 * explicit: `intervals` counts the live `setInterval`s, `handle` says whether `scanInterval.current`
 * holds one, `resetsPending` counts the 3-second error timers not yet fired, and `detected` lists
 * the arguments `onQRDetected` received, in order.
 */
module ScannerQr {
  import opened Text
  import opened Json
  import opened Extraction

  /** What the tick finds at `webcamRef.current.video`. */
  datatype Camera = NoWebcam | NotReady | Ready

  /** How `decodeFromCanvas` settles: a result with its text, or one of its exceptions. */
  datatype Decode = Found(text: string) | NotFound | DecodeError

  const CameraMissing: string := "Cámara no disponible"
  const InvalidQr: string := "QR no válido para asistencia. Asegúrate de usar un QR de estudiante."
  const ScanFailed: string := "Error al escanear QR"

  datatype State = State(
    scanning: bool,
    error: string,
    lastScan: string,
    processing: bool,
    intervals: nat,
    handle: bool,
    inFlight: nat,
    resetsPending: nat,
    detected: seq<string>)

  const Initial: State := State(false, "", "", false, 0, false, 0, 0, [])

  /** `startScanning`: needs a webcam; starts one more 300 ms interval. */
  function Start(st: State, webcam: bool): State {
    if !webcam then st.(error := CameraMissing)
    else st.(scanning := true, error := "", processing := false,
             intervals := st.intervals + 1, handle := true)
  }

  /** `stopScanning`: clears the interval `scanInterval.current` refers to, if any. */
  function Stop(st: State): State {
    st.(scanning := false,
        intervals := if st.handle && st.intervals > 0 then st.intervals - 1 else st.intervals,
        handle := false)
  }

  /** An interval tick up to the `await`: a ready video starts a decode under the `isProcessing` flag. */
  function Tick(st: State, camera: Camera): State {
    if st.processing then st
    else match camera
      case NoWebcam => st.(error := ScanFailed, processing := false)
      case NotReady => st
      case Ready => st.(processing := true, inFlight := st.inFlight + 1)
  }

  /** A non-empty text that differs from `lastScan`: stop, then act on what the extractor found. */
  function Handle(st: State, text: string, found: Option<string>): State {
    var stopped := Stop(st.(lastScan := text));
    match found
    case Some(dni) => stopped.(detected := stopped.detected + [dni])
    case None => stopped.(error := InvalidQr, resetsPending := stopped.resetsPending + 1)
  }

  /** The rest of the tick, when the decode settles; `finally` clears `isProcessing`. */
  function Decoded(parse: JsonParser, st: State, outcome: Decode): State
    requires st.inFlight > 0
  {
    var settled := st.(inFlight := st.inFlight - 1);
    var after := if outcome.Found? && outcome.text != "" && outcome.text != st.lastScan
                 then Handle(settled, outcome.text, ExtractDniFromQR(parse, outcome.text)) else settled;
    after.(processing := false)
  }

  /** The 3-second timer after an invalid QR: clears the message and `lastScan`, nothing else. */
  function ResetFires(st: State): State
    requires st.resetsPending > 0
  {
    st.(error := "", lastScan := "", resetsPending := st.resetsPending - 1)
  }

  /**
   * The scanner's invariant: `scanning` and the interval handle go together, at most the one
   * interval the handle refers to is live, the flag is only up while a decode is outstanding,
   * and every value passed to `onQRDetected` is non-empty.
   */
  predicate Consistent(st: State) {
    Steady(st) && (st.processing ==> st.inFlight > 0)
  }

  /** The part of the invariant that also holds between the statements of a tick. */
  predicate Steady(st: State) {
    st.scanning == st.handle
    && st.intervals == (if st.handle then 1 else 0)
    && forall i :: 0 <= i < |st.detected| ==> st.detected[i] != ""
  }

  lemma InitialConsistent()
    ensures Consistent(Initial)
  {
  }

  /** Every transition keeps the invariant; a start does so when the scanner is stopped, as the button that calls it is only shown then. */
  lemma StartConsistent(st: State, webcam: bool)
    requires Consistent(st) && !st.scanning
    ensures Consistent(Start(st, webcam))
  {
  }

  lemma StopConsistent(st: State)
    requires Consistent(st)
    ensures Consistent(Stop(st))
    ensures Stop(st).intervals == 0
  {
  }

  lemma TickConsistent(st: State, camera: Camera)
    requires Consistent(st)
    ensures Consistent(Tick(st, camera))
  {
  }

  lemma HandleSteady(st: State, text: string, found: Option<string>)
    requires Steady(st) && (found.Some? ==> found.value != "")
    ensures Steady(Handle(st, text, found))
  {
  }

  lemma DecodedConsistent(parse: JsonParser, st: State, outcome: Decode)
    requires Consistent(st) && st.inFlight > 0
    ensures Consistent(Decoded(parse, st, outcome))
  {
    var settled := st.(inFlight := st.inFlight - 1);
    assert Steady(settled);
    if outcome.Found? && outcome.text != "" && outcome.text != st.lastScan {
      var found := ExtractDniFromQR(parse, outcome.text);
      ExtractDniFromQRNonEmpty(parse, outcome.text);
      HandleSteady(settled, outcome.text, found);
      assert Decoded(parse, st, outcome) == Handle(settled, outcome.text, found).(processing := false);
    } else {
      assert Decoded(parse, st, outcome) == settled.(processing := false);
    }
  }

  lemma ResetConsistent(st: State)
    requires Consistent(st) && st.resetsPending > 0
    ensures Consistent(ResetFires(st))
  {
  }

  /** While a decode holds the flag, a tick does nothing at all. */
  lemma BusyTickIgnored(st: State, camera: Camera)
    requires st.processing
    ensures Tick(st, camera) == st
  {
  }

  /** A decode starts only when no other holds the flag, and then it holds the flag. */
  lemma DecodeStartsWhenIdle(st: State, camera: Camera)
    requires Tick(st, camera).inFlight > st.inFlight
    ensures !st.processing && camera == Ready && Tick(st, camera).processing
  {
  }

  /** However the decode settles, the flag is down afterwards, and one decode fewer is outstanding. */
  lemma DecodedReleases(parse: JsonParser, st: State, outcome: Decode)
    requires st.inFlight > 0
    ensures !Decoded(parse, st, outcome).processing
    ensures Decoded(parse, st, outcome).inFlight == st.inFlight - 1
  {
  }

  /** No text, an empty text, or the text just scanned: nothing but the flag and the count change. */
  lemma NothingNewIgnored(parse: JsonParser, st: State, outcome: Decode)
    requires st.inFlight > 0
    requires !outcome.Found? || outcome.text == "" || outcome.text == st.lastScan
    ensures Decoded(parse, st, outcome) == st.(inFlight := st.inFlight - 1, processing := false)
  {
  }

  /** A new text stops the scanner before it is examined and becomes `lastScan`. */
  lemma NewTextStops(parse: JsonParser, st: State, text: string)
    requires Consistent(st) && st.inFlight > 0
    requires text != "" && text != st.lastScan
    ensures var r := Decoded(parse, st, Found(text));
      !r.scanning && r.intervals == 0 && r.lastScan == text
  {
  }

  /** A new text with a DNI passes that DNI to `onQRDetected` and leaves the message alone. */
  lemma NewTextDetected(parse: JsonParser, st: State, text: string)
    requires st.inFlight > 0
    requires text != "" && text != st.lastScan
    requires ExtractDniFromQR(parse, text).Some?
    ensures var r := Decoded(parse, st, Found(text));
      r.detected == st.detected + [ExtractDniFromQR(parse, text).value]
      && r.error == st.error && r.resetsPending == st.resetsPending
  {
  }

  /** A new text without a DNI reports it and arms the reset timer; it calls nobody and does not restart. */
  lemma NewTextRejected(parse: JsonParser, st: State, text: string)
    requires st.inFlight > 0
    requires text != "" && text != st.lastScan
    requires ExtractDniFromQR(parse, text).None?
    ensures var r := Decoded(parse, st, Found(text));
      r.detected == st.detected && r.error == InvalidQr
      && r.resetsPending == st.resetsPending + 1 && !r.scanning
  {
  }

  /** The reset timer never restarts scanning; it only forgets the message and the last text. */
  lemma ResetDoesNotRestart(st: State)
    requires st.resetsPending > 0
    ensures var r := ResetFires(st);
      r.scanning == st.scanning && r.intervals == st.intervals
      && r.error == "" && r.lastScan == "" && r.detected == st.detected
  {
  }

  /** After the reset, the very QR that was rejected counts as new again. */
  lemma RejectedTextNewAfterReset(parse: JsonParser, st: State, text: string)
    requires st.inFlight > 0
    requires text != "" && text != st.lastScan
    requires ExtractDniFromQR(parse, text).None?
    ensures var r := ResetFires(Decoded(parse, st, Found(text)));
      r.lastScan != text
  {
    NewTextRejected(parse, st, text);
  }

  /** Stopping twice is stopping once. */
  lemma StopIdempotent(st: State)
    ensures Stop(Stop(st)) == Stop(st)
  {
  }

  /** The component: its state and refs as fields, each handler a method. */
  class QrScanner {
    var scanning: bool
    var error: string
    var lastScan: string
    var processing: bool
    var intervals: nat
    var handle: bool
    var inFlight: nat
    var resetsPending: nat
    var detected: seq<string>

    function Snapshot(): State
      reads this
    {
      State(scanning, error, lastScan, processing, intervals, handle, inFlight, resetsPending, detected)
    }

    constructor()
      ensures Snapshot() == Initial
    {
      scanning, error, lastScan, processing := false, "", "", false;
      intervals, handle, inFlight, resetsPending, detected := 0, false, 0, 0, [];
    }

    method StartScanning(webcam: bool)
      modifies this
      ensures Snapshot() == Start(old(Snapshot()), webcam)
    {
      if !webcam {
        error := CameraMissing;
        return;
      }
      scanning := true;
      error := "";
      processing := false;
      intervals := intervals + 1;
      handle := true;
    }

    method StopScanning()
      modifies this
      ensures Snapshot() == Stop(old(Snapshot()))
    {
      scanning := false;
      if handle {
        if intervals > 0 {
          intervals := intervals - 1;
        }
        handle := false;
      }
    }

    method OnTick(camera: Camera)
      modifies this
      ensures Snapshot() == Tick(old(Snapshot()), camera)
    {
      if processing {
        return;
      }
      match camera
      case NoWebcam =>
        error := ScanFailed;
        processing := false;
      case NotReady =>
      case Ready =>
        processing := true;
        inFlight := inFlight + 1;
    }

    method OnDecoded(parse: JsonParser, outcome: Decode)
      requires inFlight > 0
      modifies this
      ensures Snapshot() == Decoded(parse, old(Snapshot()), outcome)
    {
      inFlight := inFlight - 1;
      ghost var settled := Snapshot();
      if outcome.Found? && outcome.text != "" && outcome.text != lastScan {
        var dni := ExtractDniFromQR(parse, outcome.text);
        HandleText(outcome.text, dni);
        assert Snapshot() == Handle(settled, outcome.text, ExtractDniFromQR(parse, outcome.text));
      }
      processing := false;
    }

    /** The body of the `qrText !== lastScan` branch, given what the extractor returned. */
    method HandleText(text: string, dni: Option<string>)
      modifies this
      ensures Snapshot() == Handle(old(Snapshot()), text, dni)
    {
      lastScan := text;
      StopScanning();
      if dni.Some? {
        detected := detected + [dni.value];
      } else {
        error := InvalidQr;
        resetsPending := resetsPending + 1;
      }
    }

    method OnResetTimer()
      requires resetsPending > 0
      modifies this
      ensures Snapshot() == ResetFires(old(Snapshot()))
    {
      error := "";
      lastScan := "";
      resetsPending := resetsPending - 1;
    }
  }
}
