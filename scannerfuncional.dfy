/**
 * EscanerQRFuncional: decodes a frame every second with the local decoder, and once the local
 * decoder has failed before (`'ZXing'` is in `metodosIntentados`), also sends the frame to the
 * qrserver.com API. A detection stops the scanner; an invalid one restarts it 3 seconds later.
 *
 * `tryDetectQR` awaits, so one tick is two steps: `Tick` (the guard, up to the first `await`) and
 * `Settled` (the rest, once the decoder and, when it is called, the API have answered). Both read
 * `procesando` and `metodosIntentados` as the current state values; within `Settled` every read of
 * `metodosIntentados` sees the list as it was when the step began, as the function's own binding
 * does. `intervals`, `handle`, `restartsPending` and `detected` are as in the other scanners;
 * `inFlight` counts started ticks not yet settled and `apiCalls` counts requests to the API.
 */
module ScannerFuncional {
  import opened Text
  import opened Json
  import opened Extraction

  /** What the tick finds at `webcamRef.current?.video`. */
  datatype Video = NoVideo | NotReady | Ready

  /** The entries `metodosIntentados` can hold: `'ZXing'`, `'API'` and `'API Failed'`. */
  datatype Attempt = ZXing | Api | ApiFailed

  /** How `decodeFromCanvas` settles: a result with its text, or one of its exceptions. */
  datatype Decode = Found(text: string) | NotFound | DecodeError

  /** How the API request ends: a response (its `ok` flag and `data[0].symbol[0].data`), or an exception. */
  datatype Remote = Reply(ok: bool, symbolData: Option<string>) | Failure

  /** The component's `extractDNI`, for a given `JSON.parse`. */
  function ComponentExtractor(parse: JsonParser): Extractor {
    t => ExtractDni(parse, t)
  }

  const CameraMissing: string := "❌ Cámara no disponible"

  function InvalidMessage(text: string): string {
    "❌ QR detectado pero no contiene un DNI válido: \"" + text + "\""
  }

  datatype State = State(
    scanning: bool,
    error: string,
    procesando: bool,
    metodos: seq<Attempt>,
    intervals: nat,
    handle: bool,
    inFlight: nat,
    apiCalls: nat,
    restartsPending: nat,
    detected: seq<string>)

  const Initial: State := State(false, "", false, [], 0, false, 0, 0, 0, [])

  /** `startScanning`: needs a video; clears the message and the list, starts a 1000 ms interval. */
  function Start(st: State, video: bool): State {
    if !video then st.(error := CameraMissing)
    else st.(scanning := true, error := "", metodos := [], intervals := st.intervals + 1, handle := true)
  }

  /** `stopScanning`: also lowers `procesando`. */
  function Stop(st: State): State {
    st.(scanning := false, procesando := false,
        intervals := if st.handle && st.intervals > 0 then st.intervals - 1 else st.intervals,
        handle := false)
  }

  /** `handleDetection`, given what `extractDNI` returned. */
  function Handle(st: State, text: string, found: Option<string>): (r: State)
    ensures !r.scanning && !r.procesando && !r.handle
    ensures r.inFlight == st.inFlight && r.apiCalls == st.apiCalls && r.metodos == st.metodos
  {
    var stopped := Stop(st);
    match found
    case Some(dni) => stopped.(detected := stopped.detected + [dni])
    case None => stopped.(error := InvalidMessage(text), restartsPending := stopped.restartsPending + 1)
  }

  /** `if (!seen.includes(key)) setMetodosIntentados(prev => [...prev, entry])`. */
  function AppendUnless(list: seq<Attempt>, seen: seq<Attempt>, key: Attempt, entry: Attempt): seq<Attempt> {
    if key in seen then list else list + [entry]
  }

  /** The text the API reports, when the response has the shape `tryWithAPI` accepts. */
  function RemoteText(api: Remote): (r: Option<string>)
    ensures r.Some? <==> api.Reply? && api.ok && Truthy(api.symbolData)
    ensures r.Some? ==> r == api.symbolData
  {
    if api.Reply? && api.ok && Truthy(api.symbolData) then api.symbolData else None
  }

  /** The start of `tryDetectQR`: the guard, then the flag goes up until the tick settles. */
  function Tick(st: State, video: Video): State {
    if st.procesando || video == NoVideo then st
    else if video == NotReady then st.(procesando := false)
    else st.(procesando := true, inFlight := st.inFlight + 1)
  }

  /** `tryWithAPI`; `seen` is `metodosIntentados` as the tick read it. */
  function ApiStep(extract: Extractor, st: State, seen: seq<Attempt>, api: Remote): (r: State)
    ensures r.inFlight == st.inFlight && r.apiCalls == st.apiCalls + 1
  {
    var called := st.(apiCalls := st.apiCalls + 1);
    match RemoteText(api)
    case Some(text) => Handle(called, text, extract(text))
    case None =>
      called.(metodos := AppendUnless(called.metodos, seen, Api, if api.Failure? then ApiFailed else Api))
  }

  /** The part of `tryDetectQR` after a decode without text: note `'ZXing'`, then maybe call the API. */
  function LocalMiss(extract: Extractor, st: State, seen: seq<Attempt>, local: Decode, api: Remote): (r: State)
    ensures r.inFlight == st.inFlight
    ensures r.apiCalls == if ZXing in seen then st.apiCalls + 1 else st.apiCalls
  {
    var noted := if local.Found? then st else st.(metodos := AppendUnless(st.metodos, seen, ZXing, ZXing));
    if ZXing in seen then ApiStep(extract, noted, seen, api) else noted
  }

  /**
   * The rest of `tryDetectQR`, once the decoder and, when it is called, the API have answered;
   * `finally` lowers the flag.
   */
  function Settled(extract: Extractor, st: State, local: Decode, api: Remote): State
    requires st.inFlight > 0
  {
    var settled := st.(inFlight := st.inFlight - 1);
    var after :=
      if local.Found? && local.text != "" then Handle(settled, local.text, extract(local.text))
      else LocalMiss(extract, settled, st.metodos, local, api);
    after.(procesando := false)
  }

  /** The 3-second timer after an invalid QR: clears the message and calls `startScanning`. */
  function RestartFires(st: State, video: bool): State
    requires st.restartsPending > 0
  {
    Start(st.(error := "", restartsPending := st.restartsPending - 1), video)
  }

  /**
   * The part of the invariant that holds between any two statements: `scanning` and the interval
   * handle go together, at most one interval is live, `'ZXing'` and `'API'` each appear at most
   * once in the list, and every value passed to `onQRDetected` is non-empty.
   */
  predicate Steady(st: State) {
    st.scanning == st.handle
    && st.intervals == (if st.handle then 1 else 0)
    && multiset(st.metodos)[ZXing] <= 1
    && multiset(st.metodos)[Api] <= 1
    && forall i :: 0 <= i < |st.detected| ==> st.detected[i] != ""
  }

  /** The scanner's invariant: the above, and the flag is only up while a tick is outstanding. */
  predicate Consistent(st: State) {
    Steady(st) && (st.procesando ==> st.inFlight > 0)
  }

  /** Appending `entry` unless `key` was seen keeps `key` single when `entry` is `key` or another word. */
  lemma AppendUnlessSingle(list: seq<Attempt>, key: Attempt, entry: Attempt, word: Attempt)
    requires multiset(list)[word] <= 1
    requires entry == word ==> key == word
    ensures multiset(AppendUnless(list, list, key, entry))[word] <= 1
  {
    if key !in list && entry == word {
      assert multiset(list)[word] == 0;
    }
  }

  /** The component's extractor never returns an empty DNI. */
  lemma ComponentExtractorNonEmpty(parse: JsonParser)
    ensures NonEmptyResults(ComponentExtractor(parse))
  {
    forall t | ComponentExtractor(parse)(t).Some?
      ensures ComponentExtractor(parse)(t).value != ""
    {
      ExtractDniNonEmpty(parse, t);
    }
  }

  lemma InitialConsistent()
    ensures Consistent(Initial)
  {
  }

  /** Starting a stopped scanner keeps the invariant (the start button is only shown then). */
  lemma StartConsistent(st: State, video: bool)
    requires Consistent(st) && !st.scanning
    ensures Consistent(Start(st, video))
  {
  }

  lemma StopConsistent(st: State)
    requires Consistent(st)
    ensures Consistent(Stop(st))
    ensures Stop(st).intervals == 0
  {
  }

  lemma TickConsistent(st: State, video: Video)
    requires Consistent(st)
    ensures Consistent(Tick(st, video))
  {
  }

  lemma HandleSteady(st: State, text: string, found: Option<string>)
    requires Steady(st) && (found.Some? ==> found.value != "")
    ensures Steady(Handle(st, text, found))
  {
  }

  lemma ApiStepSteady(extract: Extractor, st: State, api: Remote)
    requires Steady(st) && NonEmptyResults(extract)
    ensures Steady(ApiStep(extract, st, st.metodos, api))
  {
    var called := st.(apiCalls := st.apiCalls + 1);
    match RemoteText(api)
    case Some(text) => HandleSteady(called, text, extract(text));
    case None =>
      var entry := if api.Failure? then ApiFailed else Api;
      AppendUnlessSingle(st.metodos, Api, entry, ZXing);
      AppendUnlessSingle(st.metodos, Api, entry, Api);
  }

  lemma LocalMissSteady(extract: Extractor, st: State, local: Decode, api: Remote)
    requires Steady(st) && NonEmptyResults(extract)
    ensures Steady(LocalMiss(extract, st, st.metodos, local, api))
  {
    var seen := st.metodos;
    if ZXing in seen {
      ApiStepSteady(extract, st, api);
    } else {
      AppendUnlessSingle(seen, ZXing, ZXing, ZXing);
      AppendUnlessSingle(seen, ZXing, ZXing, Api);
    }
  }

  lemma SettledConsistent(extract: Extractor, st: State, local: Decode, api: Remote)
    requires Consistent(st) && st.inFlight > 0
    requires NonEmptyResults(extract)
    ensures Consistent(Settled(extract, st, local, api))
  {
    var settled := st.(inFlight := st.inFlight - 1);
    if local.Found? && local.text != "" {
      HandleSteady(settled, local.text, extract(local.text));
    } else {
      LocalMissSteady(extract, settled, local, api);
    }
  }

  /** The restart keeps the invariant when the scanner is still stopped as the timer fires. */
  lemma RestartConsistent(st: State, video: bool)
    requires Consistent(st) && st.restartsPending > 0 && !st.scanning
    ensures Consistent(RestartFires(st, video))
  {
  }

  /** A tick returns without work while `procesando` is up or when there is no video. */
  lemma BusyOrNoVideoIgnored(st: State, video: Video)
    requires st.procesando || video == NoVideo
    ensures Tick(st, video) == st
  {
  }

  /** A tick on a video without enough data raises and lowers the flag, leaving the state as it was. */
  lemma NotReadyLeavesNoTrace(st: State)
    requires !st.procesando
    ensures Tick(st, NotReady) == st
  {
  }

  /** However a started tick ends, the flag is down afterwards. */
  lemma SettledReleases(extract: Extractor, st: State, local: Decode, api: Remote)
    requires st.inFlight > 0
    ensures !Settled(extract, st, local, api).procesando
    ensures Settled(extract, st, local, api).inFlight == st.inFlight - 1
  {
  }

  /** A local detection returns before the API: no request, the list unchanged. */
  lemma LocalDetectionSkipsApi(extract: Extractor, st: State, text: string, api: Remote)
    requires st.inFlight > 0 && text != ""
    ensures var r := Settled(extract, st, Found(text), api);
      r.apiCalls == st.apiCalls && r.metodos == st.metodos && !r.scanning
  {
  }

  /**
   * After a local failure, the API is called exactly when `'ZXing'` was already in the list: the
   * first failure of a run only notes `'ZXing'`, so the API is tried from the second one on.
   */
  lemma ApiAfterEarlierFailure(extract: Extractor, st: State, local: Decode, api: Remote)
    requires st.inFlight > 0
    requires !(local.Found? && local.text != "")
    ensures var r := Settled(extract, st, local, api);
      r.apiCalls == (if ZXing in st.metodos then st.apiCalls + 1 else st.apiCalls)
    ensures ZXing !in st.metodos ==>
      Settled(extract, st, local, api).metodos == (if local.Found? then st.metodos else st.metodos + [ZXing])
  {
  }

  /** In any case, an API request means `'ZXing'` was in the list when the tick settled. */
  lemma ApiOnlyAfterZXing(extract: Extractor, st: State, local: Decode, api: Remote)
    requires st.inFlight > 0
    requires Settled(extract, st, local, api).apiCalls > st.apiCalls
    ensures ZXing in st.metodos
  {
  }

  /** An API answer becomes a detection only when `ok` and `data[0].symbol[0].data` is a non-empty text. */
  lemma ApiDetectionShape(extract: Extractor, st: State, local: Decode, api: Remote)
    requires st.inFlight > 0
    requires !(local.Found? && local.text != "") && ZXing in st.metodos
    ensures var r := Settled(extract, st, local, api);
      !(api.Reply? && api.ok && Truthy(api.symbolData)) ==> r.scanning == st.scanning && r.detected == st.detected
    ensures var r := Settled(extract, st, local, api);
      api.Reply? && api.ok && Truthy(api.symbolData) ==> !r.scanning
  {
  }

  /**
   * The failure guard tests `'API'`, not `'API Failed'`: while `'API'` is absent, each failed request
   * appends another `'API Failed'`, and the conditions for the next one still hold.
   */
  lemma ApiFailedRepeats(extract: Extractor, st: State, local: Decode)
    requires st.inFlight > 0
    requires !local.Found? && ZXing in st.metodos && Api !in st.metodos
    ensures var r := Settled(extract, st, local, Failure);
      r.metodos == st.metodos + [ApiFailed] && ZXing in r.metodos && Api !in r.metodos
  {
  }

  /** A reply without usable data notes `'API'` once; after that the list stops growing. */
  lemma ApiNotedOnce(extract: Extractor, st: State, local: Decode, api: Remote)
    requires st.inFlight > 0
    requires !local.Found? && ZXing in st.metodos && api.Reply? && RemoteText(api).None?
    ensures Settled(extract, st, local, api).metodos == AppendUnless(st.metodos, st.metodos, Api, Api)
  {
  }

  /** A detection with a DNI passes it to `onQRDetected`; one without shows the text and schedules a restart. */
  lemma DetectionOutcome(extract: Extractor, st: State, text: string, api: Remote)
    requires st.inFlight > 0 && text != ""
    ensures var r := Settled(extract, st, Found(text), api);
      match extract(text)
      case Some(dni) => r.detected == st.detected + [dni] && r.restartsPending == st.restartsPending
      case None => r.detected == st.detected && r.error == InvalidMessage(text)
                   && r.restartsPending == st.restartsPending + 1
  {
  }

  /** Without video, `startScanning` only sets the message; with it, it clears the message and the list. */
  lemma StartOutcome(st: State, video: bool)
    ensures !video ==> Start(st, video) == st.(error := CameraMissing)
    ensures video ==> Start(st, video).metodos == [] && Start(st, video).error == ""
                      && Start(st, video).scanning && Start(st, video).intervals == st.intervals + 1
  {
  }

  /** Stopping twice is stopping once. */
  lemma StopIdempotent(st: State)
    ensures Stop(Stop(st)) == Stop(st)
  {
  }

  /** The component: its state and refs as fields, each handler a method. */
  class FuncionalScanner {
    var scanning: bool
    var error: string
    var procesando: bool
    var metodos: seq<Attempt>
    var intervals: nat
    var handle: bool
    var inFlight: nat
    var apiCalls: nat
    var restartsPending: nat
    var detected: seq<string>

    function Snapshot(): State
      reads this
    {
      State(scanning, error, procesando, metodos, intervals, handle, inFlight, apiCalls, restartsPending, detected)
    }

    constructor()
      ensures Snapshot() == Initial
    {
      scanning, error, procesando, metodos := false, "", false, [];
      intervals, handle, inFlight, apiCalls, restartsPending, detected := 0, false, 0, 0, 0, [];
    }

    method StartScanning(video: bool)
      modifies this
      ensures Snapshot() == Start(old(Snapshot()), video)
    {
      if !video {
        error := CameraMissing;
        return;
      }
      scanning := true;
      error := "";
      metodos := [];
      intervals := intervals + 1;
      handle := true;
    }

    method StopScanning()
      modifies this
      ensures Snapshot() == Stop(old(Snapshot()))
    {
      scanning := false;
      procesando := false;
      if handle {
        if intervals > 0 {
          intervals := intervals - 1;
        }
        handle := false;
      }
    }

    method HandleDetection(text: string, dni: Option<string>)
      modifies this
      ensures Snapshot() == Handle(old(Snapshot()), text, dni)
    {
      StopScanning();
      if dni.Some? {
        detected := detected + [dni.value];
      } else {
        error := InvalidMessage(text);
        restartsPending := restartsPending + 1;
      }
    }

    method OnTick(video: Video)
      modifies this
      ensures Snapshot() == Tick(old(Snapshot()), video)
    {
      if procesando || video == NoVideo {
        return;
      }
      procesando := true;
      if video == NotReady {
        procesando := false;
        return;
      }
      inFlight := inFlight + 1;
    }

    method TryWithApi(extract: Extractor, seen: seq<Attempt>, api: Remote)
      modifies this
      ensures Snapshot() == ApiStep(extract, old(Snapshot()), seen, api)
    {
      apiCalls := apiCalls + 1;
      var text := RemoteText(api);
      if text.Some? {
        var dni := extract(text.value);
        HandleDetection(text.value, dni);
        return;
      }
      if Api !in seen {
        metodos := metodos + [if api.Failure? then ApiFailed else Api];
      }
    }

    /** The code after a decode that gave no text, with `seen` the list the tick read. */
    method AfterLocalMiss(extract: Extractor, seen: seq<Attempt>, local: Decode, api: Remote)
      modifies this
      ensures Snapshot() == LocalMiss(extract, old(Snapshot()), seen, local, api)
    {
      if !local.Found? && ZXing !in seen {
        metodos := metodos + [ZXing];
      }
      if ZXing in seen {
        TryWithApi(extract, seen, api);
      }
    }

    method OnSettled(extract: Extractor, local: Decode, api: Remote)
      requires inFlight > 0
      modifies this
      ensures Snapshot() == Settled(extract, old(Snapshot()), local, api)
    {
      var seen := metodos;
      inFlight := inFlight - 1;
      ghost var settled := Snapshot();
      assert settled == old(Snapshot()).(inFlight := old(inFlight) - 1);
      if local.Found? && local.text != "" {
        var dni := extract(local.text);
        HandleDetection(local.text, dni);
        assert Snapshot() == Handle(settled, local.text, extract(local.text));
      } else {
        AfterLocalMiss(extract, seen, local, api);
        assert Snapshot() == LocalMiss(extract, settled, seen, local, api);
      }
      procesando := false;
    }

    method OnRestartTimer(video: bool)
      requires restartsPending > 0
      modifies this
      ensures Snapshot() == RestartFires(old(Snapshot()), video)
    {
      error := "";
      restartsPending := restartsPending - 1;
      StartScanning(video);
    }
  }
}
