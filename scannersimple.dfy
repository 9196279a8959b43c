/**
 * EscanerQRSimple: decodes a frame every 500 ms, acts on a result only when more than 2000 ms
 * have passed since the last one it acted on, and restarts itself 3 seconds after an invalid QR.
 *
 * One tick is one step (the callback has no reentrancy guard, so ticks are taken one at a time).
 * `intervals` counts the live `setInterval`s and `handle` says whether `intervalRef.current` holds
 * one; `restartsPending` counts the 3-second timers not yet fired; `detected` lists the arguments
 * `onQRDetected` received. The tick reads `lastDetectedTime` as the current state value.
 */
module ScannerSimple {
  import opened Text
  import opened Json
  import opened Extraction

  /** How `decodeFromCanvas` settles: a result with its text, or one of its exceptions. */
  datatype Decode = Found(text: string) | NotFound | DecodeError

  const CameraMissing: string := "Cámara no disponible"
  const Cooldown: int := 2000

  /** The message for a QR without a DNI; it quotes the decoded text. */
  function InvalidMessage(text: string): string {
    "❌ QR no válido: \"" + text + "\". Asegúrate de usar un código QR de estudiante."
  }

  datatype State = State(
    scanning: bool,
    error: string,
    lastDetected: int,
    intervals: nat,
    handle: bool,
    restartsPending: nat,
    detected: seq<string>)

  const Initial: State := State(false, "", 0, 0, false, 0, [])

  /** `startScanning`: needs the webcam and its video; starts one more 500 ms interval. */
  function Start(st: State, video: bool): State {
    if !video then st.(error := CameraMissing)
    else st.(scanning := true, error := "", intervals := st.intervals + 1, handle := true)
  }

  /** `stopScanning`: clears the interval `intervalRef.current` refers to, if any. */
  function Stop(st: State): State {
    st.(scanning := false,
        intervals := if st.handle && st.intervals > 0 then st.intervals - 1 else st.intervals,
        handle := false)
  }

  /** `handleQRDetection`, given what `extractDNI` returned: stop, then report or schedule a restart. */
  function Handle(st: State, text: string, found: Option<string>): (r: State)
    ensures !r.scanning && !r.handle && r.lastDetected == st.lastDetected
    ensures r.intervals == if st.handle && st.intervals > 0 then st.intervals - 1 else st.intervals
  {
    var stopped := Stop(st);
    match found
    case Some(dni) => stopped.(detected := stopped.detected + [dni])
    case None => stopped.(error := InvalidMessage(text), restartsPending := stopped.restartsPending + 1)
  }

  /** One interval tick at time `now` (milliseconds). */
  function Tick(parse: JsonParser, st: State, ready: bool, outcome: Decode, now: int): State {
    if ready && outcome.Found? && now - st.lastDetected > Cooldown
    then Handle(st.(lastDetected := now), outcome.text, ExtractDni(parse, outcome.text))
    else st
  }

  /** The 3-second timer after an invalid QR: clears the message and calls `startScanning`. */
  function RestartFires(st: State, video: bool): State
    requires st.restartsPending > 0
  {
    Start(st.(error := "", restartsPending := st.restartsPending - 1), video)
  }

  /**
   * The scanner's invariant: `scanning` and the interval handle go together, at most the one
   * interval the handle refers to is live, and every value passed to `onQRDetected` is non-empty.
   */
  predicate Consistent(st: State) {
    st.scanning == st.handle
    && st.intervals == (if st.handle then 1 else 0)
    && forall i :: 0 <= i < |st.detected| ==> st.detected[i] != ""
  }

  lemma InitialConsistent()
    ensures Consistent(Initial)
  {
  }

  /** Starting a stopped scanner keeps the invariant (the start button is only shown then). */
  lemma StartConsistent(st: State, video: bool)
    requires Consistent(st) && !st.scanning
    ensures Consistent(Start(st, video))
  {
  }

  lemma StopConsistent(st: State)
    requires Consistent(st)
    ensures Consistent(Stop(st))
    ensures Stop(st).intervals == 0
  {
  }

  lemma TickConsistent(parse: JsonParser, st: State, ready: bool, outcome: Decode, now: int)
    requires Consistent(st)
    ensures Consistent(Tick(parse, st, ready, outcome, now))
  {
    if ready && outcome.Found? {
      ExtractDniNonEmpty(parse, outcome.text);
    }
  }

  /** The restart keeps the invariant when the scanner is still stopped as the timer fires. */
  lemma RestartConsistent(st: State, video: bool)
    requires Consistent(st) && st.restartsPending > 0 && !st.scanning
    ensures Consistent(RestartFires(st, video))
  {
  }

  /** Within 2000 ms of the last detection acted on, a tick changes nothing, whatever it decodes. */
  lemma CooldownIgnores(parse: JsonParser, st: State, ready: bool, outcome: Decode, now: int)
    requires now - st.lastDetected <= Cooldown
    ensures Tick(parse, st, ready, outcome, now) == st
  {
  }

  /** A tick that acts on a result records its time, and stops the interval before anything else. */
  lemma ActedTickStops(parse: JsonParser, st: State, text: string, now: int)
    requires Consistent(st)
    requires now - st.lastDetected > Cooldown
    ensures var r := Tick(parse, st, true, Found(text), now);
      r.lastDetected == now && !r.scanning && r.intervals == 0
  {
    var found := ExtractDni(parse, text);
    assert Tick(parse, st, true, Found(text), now) == Handle(st.(lastDetected := now), text, found);
  }

  /** A result with a DNI passes that DNI to `onQRDetected` once, and schedules nothing. */
  lemma ValidDetection(parse: JsonParser, st: State, text: string, now: int)
    requires now - st.lastDetected > Cooldown
    requires ExtractDni(parse, text).Some?
    ensures var r := Tick(parse, st, true, Found(text), now);
      r.detected == st.detected + [ExtractDni(parse, text).value]
      && r.restartsPending == st.restartsPending && r.error == st.error
  {
  }

  /** A result without a DNI calls nobody, quotes the text in the message and schedules a restart. */
  lemma InvalidDetection(parse: JsonParser, st: State, text: string, now: int)
    requires now - st.lastDetected > Cooldown
    requires ExtractDni(parse, text).None?
    ensures var r := Tick(parse, st, true, Found(text), now);
      r.detected == st.detected && r.restartsPending == st.restartsPending + 1
      && r.error == InvalidMessage(text)
  {
  }

  /** The message quotes the decoded text verbatim. */
  lemma MessageQuotesText(text: string)
    ensures var m := InvalidMessage(text);
      |m| > 17 + |text| && m[17..17 + |text|] == text
  {
  }

  /** When the restart fires with the video present, scanning resumes with no message. */
  lemma RestartResumes(st: State)
    requires st.restartsPending > 0
    ensures var r := RestartFires(st, true);
      r.scanning && r.error == "" && r.intervals == st.intervals + 1
      && r.restartsPending == st.restartsPending - 1
  {
  }

  /** Stopping twice is stopping once. */
  lemma StopIdempotent(st: State)
    ensures Stop(Stop(st)) == Stop(st)
  {
  }

  /**
   * As written, the restart timer calls `startScanning` without looking at `scanning`. If the user
   * presses the start button during the 3 seconds, the timer starts a second interval, and
   * `stopScanning` then clears only one of the two: scanning is off but an interval keeps ticking.
   */
  lemma RestartLeaksInterval(st: State)
    requires Consistent(st) && !st.scanning && st.restartsPending > 0
    ensures var stopped := Stop(RestartFires(Start(st, true), true));
      !stopped.scanning && stopped.intervals == 1
  {
  }

  /** The restart as evidently intended: it starts scanning only if nothing started it meanwhile. */
  function GuardedRestartFires(st: State, video: bool): State
    requires st.restartsPending > 0
  {
    if st.scanning then st.(error := "", restartsPending := st.restartsPending - 1)
    else RestartFires(st, video)
  }

  /** The guarded restart keeps the invariant from every consistent state, so stop always clears the interval. */
  lemma GuardedRestartConsistent(st: State, video: bool)
    requires Consistent(st) && st.restartsPending > 0
    ensures Consistent(GuardedRestartFires(st, video))
    ensures Stop(GuardedRestartFires(st, video)).intervals == 0
  {
  }

  /** The component: its state and refs as fields, each handler a method. */
  class SimpleScanner {
    var scanning: bool
    var error: string
    var lastDetected: int
    var intervals: nat
    var handle: bool
    var restartsPending: nat
    var detected: seq<string>

    function Snapshot(): State
      reads this
    {
      State(scanning, error, lastDetected, intervals, handle, restartsPending, detected)
    }

    constructor()
      ensures Snapshot() == Initial
    {
      scanning, error, lastDetected := false, "", 0;
      intervals, handle, restartsPending, detected := 0, false, 0, [];
    }

    method StartScanning(video: bool)
      modifies this
      ensures Snapshot() == Start(old(Snapshot()), video)
    {
      if !video {
        error := CameraMissing;
        return;
      }
      scanning := true;
      error := "";
      intervals := intervals + 1;
      handle := true;
    }

    method StopScanning()
      modifies this
      ensures Snapshot() == Stop(old(Snapshot()))
    {
      scanning := false;
      if handle {
        if intervals > 0 {
          intervals := intervals - 1;
        }
        handle := false;
      }
    }

    method HandleQrDetection(text: string, dni: Option<string>)
      modifies this
      ensures Snapshot() == Handle(old(Snapshot()), text, dni)
    {
      StopScanning();
      if dni.Some? {
        detected := detected + [dni.value];
      } else {
        error := InvalidMessage(text);
        restartsPending := restartsPending + 1;
      }
    }

    method OnTick(parse: JsonParser, ready: bool, outcome: Decode, now: int)
      modifies this
      ensures Snapshot() == Tick(parse, old(Snapshot()), ready, outcome, now)
    {
      if ready && outcome.Found? {
        if now - lastDetected > Cooldown {
          lastDetected := now;
          var dni := ExtractDni(parse, outcome.text);
          HandleQrDetection(outcome.text, dni);
        }
      }
    }

    /** The restart timer as written: it restarts even a running scanner (`RestartLeaksInterval`). */
    method OnRestartTimer(video: bool)
      requires restartsPending > 0
      modifies this
      ensures Snapshot() == RestartFires(old(Snapshot()), video)
    {
      error := "";
      restartsPending := restartsPending - 1;
      StartScanning(video);
    }
  }
}
