/**
 * EscanerQRConFallback: every 800 ms, on a frame with enough data, bumps a per-run counter; the
 * local decoder runs on ticks 1 to 5 of a run only, and on every third tick the frame also goes
 * to the quickchart.io API unless a request is already out (`usandoAPI`). A detection stops the
 * scanner; an invalid one restarts it 3 seconds later. `intentarConAPI`, a manual cascade from
 * quickchart.io to qrserver.com, is modelled too, though nothing in the component calls it.
 *
 * One tick is one step (the callback has no reentrancy guard, so ticks are taken one at a time);
 * the tick reads `usandoAPI` as the current state value. `attempts` is the closure's
 * `contadorIntentos`; `localDecodes` and `remoteDecodes` count the decoder and API calls of the
 * current run; `releasesPending` counts the 500 ms timers that lower `usandoAPI`, and
 * `restartsPending` the 3-second restart timers; `altCalls` counts requests to qrserver.com.
 * The extractor is a parameter: the component's is `ComponentExtractor(parse)`.
 */
module ScannerFallback {
  import opened Text
  import opened Json
  import opened Extraction

  /** How `decodeFromCanvas` settles: a result with its text, or one of its exceptions. */
  datatype Decode = Found(text: string) | NotFound | DecodeError

  /** How a quickchart.io request ends: a response (`ok` and `data.text`), the 5-second abort, or another exception. */
  datatype QuickChart = QcReply(ok: bool, text: Option<string>) | QcTimeout | QcFailure

  /** How a qrserver.com request ends: a response (`ok` and `data[0].symbol[0].data`), or an exception. */
  datatype QrServer = QsReply(ok: bool, symbolData: Option<string>) | QsFailure

  const CameraMissing: string := "Cámara no disponible"
  /** The local decoder runs on the first five ready ticks of a run. */
  const LocalTicks: nat := 5
  /** The API is tried on every third ready tick. */
  const ApiEvery: nat := 3

  function InvalidMessage(text: string, metodo: string): string {
    "❌ QR no válido: \"" + text + "\". Método: " + metodo
  }

  /** EscanerQRConFallback's `extractDNI`, for a given `JSON.parse`. */
  function ComponentExtractor(parse: JsonParser): Extractor {
    t => ExtractDniPatternLoop(parse, t)
  }

  datatype State = State(
    scanning: bool,
    error: string,
    usingApi: bool,
    attempts: nat,
    localDecodes: nat,
    remoteDecodes: nat,
    intervals: nat,
    handle: bool,
    releasesPending: nat,
    restartsPending: nat,
    altCalls: nat,
    detected: seq<string>)

  const Initial: State := State(false, "", false, 0, 0, 0, 0, false, 0, 0, 0, [])

  /** `startScanning`: needs the webcam and its video; a new run with its counter at 0. */
  function Start(st: State, video: bool): State {
    if !video then st.(error := CameraMissing)
    else st.(scanning := true, error := "", attempts := 0, localDecodes := 0, remoteDecodes := 0,
             intervals := st.intervals + 1, handle := true)
  }

  /** `stopScanning`: also lowers `usandoAPI`. */
  function Stop(st: State): (r: State)
    ensures !r.scanning && !r.usingApi && !r.handle
    ensures r.attempts == st.attempts && r.localDecodes == st.localDecodes && r.remoteDecodes == st.remoteDecodes
    ensures r.releasesPending == st.releasesPending && r.altCalls == st.altCalls
  {
    st.(scanning := false, usingApi := false,
        intervals := if st.handle && st.intervals > 0 then st.intervals - 1 else st.intervals,
        handle := false)
  }

  /** `handleQRDetection`, given what `extractDNI` returned. */
  function Handle(st: State, text: string, metodo: string, found: Option<string>): (r: State)
    ensures !r.scanning && !r.usingApi && !r.handle
    ensures r.attempts == st.attempts && r.localDecodes == st.localDecodes && r.remoteDecodes == st.remoteDecodes
    ensures r.releasesPending == st.releasesPending && r.altCalls == st.altCalls
  {
    var stopped := Stop(st);
    match found
    case Some(dni) => stopped.(detected := stopped.detected + [dni])
    case None => stopped.(error := InvalidMessage(text, metodo), restartsPending := stopped.restartsPending + 1)
  }

  /** The text an automatic request detects: `data.text` of an `ok` response, when its trim is not empty. */
  function AutoText(reply: QuickChart): (r: Option<string>)
    ensures r.Some? <==> reply.QcReply? && reply.ok && reply.text.Some? && Trim(reply.text.value) != ""
    ensures r.Some? ==> r == reply.text && r.value != ""
  {
    if reply.QcReply? && reply.ok && reply.text.Some? && Trim(reply.text.value) != "" then reply.text else None
  }

  /** `intentarConAPIAutomatica`: one request under `usandoAPI`, whose release is always scheduled. */
  function AutoApi(extract: Extractor, st: State, reply: QuickChart): (r: State)
    ensures r.attempts == st.attempts && r.localDecodes == st.localDecodes && r.altCalls == st.altCalls
  {
    if st.usingApi then st
    else
      var busy := st.(usingApi := true, remoteDecodes := st.remoteDecodes + 1);
      var after := match AutoText(reply)
        case Some(text) => Handle(busy, text, "QuickChart Auto", extract(text))
        case None => busy;
      after.(releasesPending := after.releasesPending + 1)
  }

  /** The tick after the counter went up, when the local decoder found nothing (or did not run). */
  function AfterLocal(extract: Extractor, st: State, reply: QuickChart): (r: State)
    ensures r.attempts == st.attempts && r.localDecodes == st.localDecodes && r.altCalls == st.altCalls
  {
    if st.attempts % ApiEvery == 0 && !st.usingApi then AutoApi(extract, st, reply) else st
  }

  /** One interval tick: the counter, the local decoder on ticks 1-5, the API on every third tick. */
  function Tick(extract: Extractor, st: State, ready: bool, local: Decode, reply: QuickChart): (r: State)
    ensures r.altCalls == st.altCalls
  {
    if !ready then st
    else
      var counted := st.(attempts := st.attempts + 1);
      if counted.attempts <= LocalTicks then
        var decoded := counted.(localDecodes := counted.localDecodes + 1);
        if local.Found? && local.text != "" then Handle(decoded, local.text, "ZXing Local", extract(local.text))
        else AfterLocal(extract, decoded, reply)
      else AfterLocal(extract, counted, reply)
  }

  /** The 500 ms timer after an automatic request: lowers `usandoAPI`. */
  function ReleaseFires(st: State): State
    requires st.releasesPending > 0
  {
    st.(usingApi := false, releasesPending := st.releasesPending - 1)
  }

  /** The 3-second timer after an invalid QR: clears the message and calls `startScanning`. */
  function RestartFires(st: State, video: bool): State
    requires st.restartsPending > 0
  {
    Start(st.(error := "", restartsPending := st.restartsPending - 1), video)
  }

  /** The text the manual request accepts: a truthy `data.text` of an `ok` response (no trim). */
  function PrimaryText(reply: QuickChart): (r: Option<string>)
    ensures r.Some? <==> reply.QcReply? && reply.ok && Truthy(reply.text)
    ensures r.Some? ==> r == reply.text
  {
    if reply.QcReply? && reply.ok && Truthy(reply.text) then reply.text else None
  }

  /** The text qrserver.com reports: a truthy `data[0].symbol[0].data` of an `ok` response. */
  function AlternativeText(reply: QrServer): (r: Option<string>)
    ensures r.Some? <==> reply.QsReply? && reply.ok && Truthy(reply.symbolData)
    ensures r.Some? ==> r == reply.symbolData
  {
    if reply.QsReply? && reply.ok && Truthy(reply.symbolData) then reply.symbolData else None
  }

  /** `intentarConAPIAlternativa`: one request; errors are swallowed and nothing else is tried. */
  function Alternative(extract: Extractor, st: State, reply: QrServer): State {
    var called := st.(altCalls := st.altCalls + 1);
    match AlternativeText(reply)
    case Some(text) => Handle(called, text, "QRServer API", extract(text))
    case None => called
  }

  /** `intentarConAPI`: quickchart.io, then qrserver.com unless the first gave a text; `finally` lowers `usandoAPI`. */
  function Manual(extract: Extractor, st: State, primary: QuickChart, alternative: QrServer): State {
    var busy := st.(usingApi := true);
    var after := match PrimaryText(primary)
      case Some(text) => Handle(busy, text, "QuickChart API", extract(text))
      case None => Alternative(extract, busy, alternative);
    after.(usingApi := false)
  }

  /**
   * The scanner's invariant: `scanning` and the interval handle go together, at most one interval
   * is live, the local decoder ran on exactly the first (at most five) ready ticks of the run, the
   * API at most on every third one, and every value passed to `onQRDetected` is non-empty.
   */
  predicate Consistent(st: State) {
    st.scanning == st.handle
    && st.intervals == (if st.handle then 1 else 0)
    && st.localDecodes == Min(st.attempts, LocalTicks)
    && st.remoteDecodes <= st.attempts / ApiEvery
    && forall i :: 0 <= i < |st.detected| ==> st.detected[i] != ""
  }

  lemma ComponentExtractorNonEmpty(parse: JsonParser)
    ensures NonEmptyResults(ComponentExtractor(parse))
  {
    PatternLoopResultsNonEmpty(parse);
  }

  lemma InitialConsistent()
    ensures Consistent(Initial)
  {
  }

  /** Starting a stopped scanner keeps the invariant (the start button is only shown then). */
  lemma StartConsistent(st: State, video: bool)
    requires Consistent(st) && !st.scanning
    ensures Consistent(Start(st, video))
  {
  }

  lemma StopConsistent(st: State)
    requires Consistent(st)
    ensures Consistent(Stop(st))
    ensures Stop(st).intervals == 0
  {
  }

  lemma HandleConsistent(st: State, text: string, metodo: string, found: Option<string>)
    requires Consistent(st) && (found.Some? ==> found.value != "")
    ensures Consistent(Handle(st, text, metodo, found))
  {
  }

  /** An API call on a tick whose count is a multiple of three keeps the bound on API calls. */
  lemma AfterLocalConsistent(extract: Extractor, st: State, reply: QuickChart)
    requires NonEmptyResults(extract)
    requires st.scanning == st.handle && st.intervals == (if st.handle then 1 else 0)
    requires st.localDecodes == Min(st.attempts, LocalTicks)
    requires st.attempts > 0 && st.remoteDecodes <= (st.attempts - 1) / ApiEvery
    requires forall i :: 0 <= i < |st.detected| ==> st.detected[i] != ""
    ensures Consistent(AfterLocal(extract, st, reply))
  {
    if st.attempts % ApiEvery == 0 && !st.usingApi {
      assert (st.attempts - 1) / ApiEvery + 1 == st.attempts / ApiEvery;
      var busy := st.(usingApi := true, remoteDecodes := st.remoteDecodes + 1);
      assert Consistent(busy);
      match AutoText(reply)
      case Some(text) => HandleConsistent(busy, text, "QuickChart Auto", extract(text));
      case None =>
    } else {
      assert (st.attempts - 1) / ApiEvery <= st.attempts / ApiEvery;
    }
  }

  lemma TickConsistent(extract: Extractor, st: State, ready: bool, local: Decode, reply: QuickChart)
    requires Consistent(st) && NonEmptyResults(extract)
    ensures Consistent(Tick(extract, st, ready, local, reply))
  {
    if ready {
      var counted := st.(attempts := st.attempts + 1);
      if counted.attempts <= LocalTicks {
        var decoded := counted.(localDecodes := counted.localDecodes + 1);
        if local.Found? && local.text != "" {
          assert st.attempts / ApiEvery <= decoded.attempts / ApiEvery;
          HandleConsistent(decoded, local.text, "ZXing Local", extract(local.text));
        } else {
          AfterLocalConsistent(extract, decoded, reply);
        }
      } else {
        AfterLocalConsistent(extract, counted, reply);
      }
    }
  }

  lemma ReleaseConsistent(st: State)
    requires Consistent(st) && st.releasesPending > 0
    ensures Consistent(ReleaseFires(st))
  {
  }

  /** The restart keeps the invariant when the scanner is still stopped as the timer fires. */
  lemma RestartConsistent(st: State, video: bool)
    requires Consistent(st) && st.restartsPending > 0 && !st.scanning
    ensures Consistent(RestartFires(st, video))
  {
  }

  lemma ManualConsistent(extract: Extractor, st: State, primary: QuickChart, alternative: QrServer)
    requires Consistent(st) && NonEmptyResults(extract)
    ensures Consistent(Manual(extract, st, primary, alternative))
  {
    var busy := st.(usingApi := true);
    match PrimaryText(primary)
    case Some(text) => HandleConsistent(busy, text, "QuickChart API", extract(text));
    case None =>
      var called := busy.(altCalls := busy.altCalls + 1);
      match AlternativeText(alternative)
      case Some(text) => HandleConsistent(called, text, "QRServer API", extract(text));
      case None =>
  }

  /** The counter starts at 0 with each run and goes up by one exactly on ticks with a ready video. */
  lemma CounterCountsReadyTicks(extract: Extractor, st: State, ready: bool, local: Decode, reply: QuickChart)
    ensures Start(st, true).attempts == 0
    ensures Tick(extract, st, ready, local, reply).attempts == if ready then st.attempts + 1 else st.attempts
  {
  }

  /** The local decoder runs on a tick only if that tick is one of the first five of the run. */
  lemma LocalOnlyFirstFive(extract: Extractor, st: State, ready: bool, local: Decode, reply: QuickChart)
    ensures var r := Tick(extract, st, ready, local, reply);
      r.localDecodes > st.localDecodes ==> ready && r.attempts <= LocalTicks
    ensures var r := Tick(extract, st, ready, local, reply);
      ready && r.attempts <= LocalTicks ==> r.localDecodes == st.localDecodes + 1
  {
  }

  /** So in any run the local decoder is called at most five times, however many ticks there are. */
  lemma LocalDecodesBounded(st: State)
    requires Consistent(st)
    ensures st.localDecodes <= LocalTicks
    ensures st.attempts > LocalTicks ==> st.localDecodes == LocalTicks
  {
  }

  /** An API request goes out only on a ready tick whose count is a multiple of three, with no request out. */
  lemma RemoteOnlyEveryThird(extract: Extractor, st: State, ready: bool, local: Decode, reply: QuickChart)
    requires Tick(extract, st, ready, local, reply).remoteDecodes > st.remoteDecodes
    ensures ready && (st.attempts + 1) % ApiEvery == 0 && !st.usingApi
  {
  }

  /** A local detection returns before the API: no request, no release timer. */
  lemma LocalDetectionSkipsApi(extract: Extractor, st: State, text: string, reply: QuickChart)
    requires st.attempts + 1 <= LocalTicks && text != ""
    ensures var r := Tick(extract, st, true, Found(text), reply);
      r.remoteDecodes == st.remoteDecodes && r.releasesPending == st.releasesPending && !r.scanning
  {
  }

  /** Otherwise, on a due tick with no request out, the request goes out and its release is scheduled. */
  lemma RemoteWhenDue(extract: Extractor, st: State, local: Decode, reply: QuickChart)
    requires (st.attempts + 1) % ApiEvery == 0 && !st.usingApi
    requires !(st.attempts + 1 <= LocalTicks && local.Found? && local.text != "")
    ensures var r := Tick(extract, st, true, local, reply);
      r.remoteDecodes == st.remoteDecodes + 1 && r.releasesPending == st.releasesPending + 1
  {
  }

  /** Every request schedules exactly one release of `usandoAPI`, whatever its outcome. */
  lemma OneReleasePerRequest(extract: Extractor, st: State, ready: bool, local: Decode, reply: QuickChart)
    ensures var r := Tick(extract, st, ready, local, reply);
      r.releasesPending - st.releasesPending == r.remoteDecodes - st.remoteDecodes
  {
  }

  /** While `usandoAPI` is up, `intentarConAPIAutomatica` returns at once. */
  lemma BusyApiReturns(extract: Extractor, st: State, reply: QuickChart)
    requires st.usingApi
    ensures AutoApi(extract, st, reply) == st
  {
  }

  /** A reply whose text is only whitespace is not a detection: the tick leaves scanning on. */
  lemma BlankReplyIgnored(extract: Extractor, st: State, local: Decode, text: string)
    requires st.scanning && (st.attempts + 1) % ApiEvery == 0 && !st.usingApi
    requires st.attempts + 1 > LocalTicks
    requires Trim(text) == ""
    ensures var r := Tick(extract, st, true, local, QcReply(true, Some(text)));
      r.scanning && r.detected == st.detected && r.usingApi
  {
  }

  /** The release timer lowers the flag. */
  lemma ReleaseLowersFlag(st: State)
    requires st.releasesPending > 0
    ensures !ReleaseFires(st).usingApi
  {
  }

  /**
   * The manual cascade asks qrserver.com exactly when quickchart.io gave no text, so at most once,
   * and `usandoAPI` is down when it ends.
   */
  lemma ManualCascade(extract: Extractor, st: State, primary: QuickChart, alternative: QrServer)
    ensures var r := Manual(extract, st, primary, alternative);
      r.altCalls == (if PrimaryText(primary).Some? then st.altCalls else st.altCalls + 1) && !r.usingApi
  {
  }

  /** A detection with a DNI passes it to `onQRDetected`; one without names the text and the method. */
  lemma DetectionOutcome(st: State, text: string, metodo: string, found: Option<string>)
    ensures var r := Handle(st, text, metodo, found);
      match found
      case Some(dni) => r.detected == st.detected + [dni] && r.restartsPending == st.restartsPending
      case None => r.detected == st.detected && r.error == InvalidMessage(text, metodo)
                   && r.restartsPending == st.restartsPending + 1
  {
  }

  /** Stopping twice is stopping once. */
  lemma StopIdempotent(st: State)
    ensures Stop(Stop(st)) == Stop(st)
  {
  }

  /** The component: its state, refs and the closure's counter as fields, each handler a method. */
  class FallbackScanner {
    var scanning: bool
    var error: string
    var usingApi: bool
    var attempts: nat
    var localDecodes: nat
    var remoteDecodes: nat
    var intervals: nat
    var handle: bool
    var releasesPending: nat
    var restartsPending: nat
    var altCalls: nat
    var detected: seq<string>

    function Snapshot(): State
      reads this
    {
      State(scanning, error, usingApi, attempts, localDecodes, remoteDecodes, intervals, handle,
            releasesPending, restartsPending, altCalls, detected)
    }

    constructor()
      ensures Snapshot() == Initial
    {
      scanning, error, usingApi, attempts, localDecodes, remoteDecodes := false, "", false, 0, 0, 0;
      intervals, handle, releasesPending, restartsPending, altCalls, detected := 0, false, 0, 0, 0, [];
    }

    method StartScanning(video: bool)
      modifies this
      ensures Snapshot() == Start(old(Snapshot()), video)
    {
      if !video {
        error := CameraMissing;
        return;
      }
      scanning := true;
      error := "";
      attempts, localDecodes, remoteDecodes := 0, 0, 0;
      intervals := intervals + 1;
      handle := true;
    }

    method StopScanning()
      modifies this
      ensures Snapshot() == Stop(old(Snapshot()))
    {
      scanning := false;
      usingApi := false;
      if handle {
        if intervals > 0 {
          intervals := intervals - 1;
        }
        handle := false;
      }
    }

    method HandleQrDetection(text: string, metodo: string, dni: Option<string>)
      modifies this
      ensures Snapshot() == Handle(old(Snapshot()), text, metodo, dni)
    {
      StopScanning();
      if dni.Some? {
        detected := detected + [dni.value];
      } else {
        error := InvalidMessage(text, metodo);
        restartsPending := restartsPending + 1;
      }
    }

    method TryApiAutomatically(extract: Extractor, reply: QuickChart)
      modifies this
      ensures Snapshot() == AutoApi(extract, old(Snapshot()), reply)
    {
      if usingApi {
        return;
      }
      usingApi := true;
      remoteDecodes := remoteDecodes + 1;
      var text := AutoText(reply);
      if text.Some? {
        var dni := extract(text.value);
        HandleQrDetection(text.value, "QuickChart Auto", dni);
      }
      releasesPending := releasesPending + 1;
    }

    method OnTick(extract: Extractor, ready: bool, local: Decode, reply: QuickChart)
      modifies this
      ensures Snapshot() == Tick(extract, old(Snapshot()), ready, local, reply)
    {
      if !ready {
        return;
      }
      attempts := attempts + 1;
      if attempts <= LocalTicks {
        localDecodes := localDecodes + 1;
        if local.Found? && local.text != "" {
          var dni := extract(local.text);
          HandleQrDetection(local.text, "ZXing Local", dni);
          return;
        }
      }
      ghost var tried := Snapshot();
      if attempts % ApiEvery == 0 && !usingApi {
        TryApiAutomatically(extract, reply);
      }
      assert Snapshot() == AfterLocal(extract, tried, reply);
    }

    method OnReleaseTimer()
      requires releasesPending > 0
      modifies this
      ensures Snapshot() == ReleaseFires(old(Snapshot()))
    {
      usingApi := false;
      releasesPending := releasesPending - 1;
    }

    method OnRestartTimer(video: bool)
      requires restartsPending > 0
      modifies this
      ensures Snapshot() == RestartFires(old(Snapshot()), video)
    {
      error := "";
      restartsPending := restartsPending - 1;
      StartScanning(video);
    }

    method TryAlternativeApi(extract: Extractor, reply: QrServer)
      modifies this
      ensures Snapshot() == Alternative(extract, old(Snapshot()), reply)
    {
      altCalls := altCalls + 1;
      var text := AlternativeText(reply);
      if text.Some? {
        var dni := extract(text.value);
        HandleQrDetection(text.value, "QRServer API", dni);
      }
    }

    method TryApi(extract: Extractor, primary: QuickChart, alternative: QrServer)
      modifies this
      ensures Snapshot() == Manual(extract, old(Snapshot()), primary, alternative)
    {
      usingApi := true;
      var text := PrimaryText(primary);
      if text.Some? {
        var dni := extract(text.value);
        HandleQrDetection(text.value, "QuickChart API", dni);
      } else {
        TryAlternativeApi(extract, alternative);
      }
      usingApi := false;
    }
  }
}
