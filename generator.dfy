/**
 * GeneradorQRPrueba: the three payloads a test QR code can carry, and the proof that each of them
 * reads back, through every scanner's extractor, as the DNI it was built from.
 */
module Generator {
  import opened Text
  import opened Json
  import opened Patterns
  import opened Extraction

  /** The host part of the `url` payload. */
  const Host: string := "http://localhost:3001"

  /** The path in front of the DNI in the `url` payload. */
  const ProfilePath: string := "/perfil-estudiante/"

  /** `JSON.stringify({ tipo: 'asistencia', dni, timestamp })` with a numeric timestamp. */
  function AttendanceJson(dni: string, timestamp: int): (r: string)
    ensures |r| >= 2 && r[0] == '{' && r[|r| - 1] == '}'
  {
    "{\"tipo\":\"asistencia\",\"dni\":" + Quote(dni) + ",\"timestamp\":" + IntToString(timestamp) + "}"
  }

  /**
   * The QR text `generarQR` encodes and `copiarTexto` copies, for the selected `tipoQR`, the
   * entered `dni` and the clock reading `now` (`Date.now()`). The two handlers build it with the
   * same code.
   */
  function Payload(tipoQR: string, dni: string, now: int): (r: string)
    ensures tipoQR == "simple" ==> r == dni
    ensures tipoQR == "json" ==> |r| >= 2 && r[0] == '{' && r[|r| - 1] == '}'
    ensures tipoQR != "json" ==> |dni| <= |r| && r[|r| - |dni|..] == dni
    ensures tipoQR != "simple" && tipoQR != "json" ==> r[..|r| - |dni|] == Host + ProfilePath
  {
    if tipoQR == "simple" then dni
    else if tipoQR == "json" then AttendanceJson(dni, now)
    else Host + ProfilePath + dni
  }

  /**
   * The parser reads back the generator's JSON object: `tipo` is `"asistencia"`, `dni` is the
   * string that was written, and there is no `DNI` field. Sections 4 and 7 of RFC 8259 make this
   * so for a conforming parser.
   */
  ghost predicate ReadsBackAttendance(parse: JsonParser) {
    forall dni, timestamp :: parse(AttendanceJson(dni, timestamp)) == Some(JsonObject(Some("asistencia"), Some(dni), None))
  }

  /** The `simple` payload of an 8-10 digit DNI reads back as that DNI in every scanner. */
  lemma SimpleRoundTrip(parse: JsonParser, dni: string, now: int)
    requires ObjectsOnly(parse)
    requires IsDni(dni)
    ensures ExtractDniFromQR(parse, Payload("simple", dni, now)) == Some(dni)
    ensures ExtractDni(parse, Payload("simple", dni, now)) == Some(dni)
    ensures ExtractDniPatternLoop(parse, Payload("simple", dni, now)) == Some(dni)
  {
    assert IsDigit(dni[0]) && IsDigit(dni[|dni| - 1]);
    TrimOfTrimmed(dni);
    QrDirectDigits(parse, dni);
    CopiesAgree(parse, dni);
  }

  /** The `json` text is its own trim and, starting with `{`, is not a DNI. */
  lemma JsonText(dni: string, now: int)
    ensures Trim(AttendanceJson(dni, now)) == AttendanceJson(dni, now)
    ensures !IsDni(AttendanceJson(dni, now))
  {
    var s := AttendanceJson(dni, now);
    assert !IsDigit(s[0]) && !IsJsSpace(s[0]) && !IsJsSpace(s[|s| - 1]);
    TrimOfTrimmed(s);
  }

  /** A trimmed text that reads as an attendance object with a non-empty `dni` yields that `dni` everywhere. */
  lemma ReadsAsAttendance(parse: JsonParser, s: string, dni: string)
    requires Trim(s) == s && !IsDni(s) && dni != ""
    requires parse(s) == Some(JsonObject(Some("asistencia"), Some(dni), None))
    ensures ExtractDniFromQR(parse, s) == Some(dni)
    ensures ExtractDni(parse, s) == Some(dni)
    ensures ExtractDniPatternLoop(parse, s) == Some(dni)
  {
    CopiesAgree(parse, s);
  }

  /** The `json` payload of a non-empty DNI reads back as that DNI in every scanner. */
  lemma JsonRoundTrip(parse: JsonParser, dni: string, now: int)
    requires ReadsBackAttendance(parse)
    requires dni != ""
    ensures ExtractDniFromQR(parse, Payload("json", dni, now)) == Some(dni)
    ensures ExtractDni(parse, Payload("json", dni, now)) == Some(dni)
    ensures ExtractDniPatternLoop(parse, Payload("json", dni, now)) == Some(dni)
  {
    var s := AttendanceJson(dni, now);
    assert Payload("json", dni, now) == s;
    JsonText(dni, now);
    ReadsAsAttendance(parse, s, dni);
  }

  /** Before the profile path, the `url` payload holds no `/perfil-estudiante/` and no `/(perfil-)?estudiante/`. */
  lemma NoPathInHost(p: Pattern, s: string, dni: string, i: nat)
    requires s == Host + ProfilePath + dni
    requires p == PerfilEstudiantePath || p == StudentPathCI
    requires i < |Host|
    ensures MatchAt(p, s, i).None?
  {
    assert s[i] == Host[i] && s[i + 1] == (Host + ProfilePath)[i + 1];
    if i == 5 || i == 6 {
      NotLitAtOffset(s, i, "/perfil-estudiante/", 1);
      NotLitAtOffset(s, i, "/estudiante/", 1);
      NotLitAtCI(s, i + 1, "perfil-estudiante/");
      NotLitAtCI(s, i + 1, "estudiante/");
    } else {
      assert s[i] != '/';
      NotLitAt(s, i, "/perfil-estudiante/");
    }
  }

  /** At the profile path of the `url` payload both path patterns capture the DNI. */
  lemma MatchAtProfile(p: Pattern, s: string, dni: string)
    requires s == Host + ProfilePath + dni && IsDni(dni)
    requires p == PerfilEstudiantePath || p == StudentPathCI
    ensures |Host| <= |s| && MatchAt(p, s, |Host|) == Some(dni)
  {
    var i := |Host|;
    assert s[i..i + |ProfilePath|] == ProfilePath;
    GreedyRun(s, Host + ProfilePath, dni, []);
    if p == StudentPathCI {
      ProfileIgnoringCase(s, dni);
    }
  }

  lemma ProfileIgnoringCase(s: string, dni: string)
    requires s == Host + ProfilePath + dni
    ensures |Host| + 1 + 18 <= |s| && LitAtCI(s, |Host| + 1, "perfil-estudiante/")
  {
    var i := |Host|;
    var lit := "perfil-estudiante/";
    assert s[i + 1..i + 1 + |lit|] == lit;
    LitAtIgnoringCase(s, i + 1, lit);
  }

  /** The first path match in the `url` payload is at the profile path, and captures the DNI. */
  lemma PathAtProfile(p: Pattern, s: string, dni: string)
    requires s == Host + ProfilePath + dni && IsDni(dni)
    requires p == PerfilEstudiantePath || p == StudentPathCI
    ensures FirstMatch(p, s) == Some(dni)
  {
    MatchAtProfile(p, s, dni);
    forall j | 0 <= j < |Host| ensures MatchAt(p, s, j).None? {
      NoPathInHost(p, s, dni, j);
    }
    LeftmostMatch(p, s, |Host|);
  }

  /** The `url` text starts with `h`, ends with the DNI's last digit and is too long to be a DNI. */
  lemma UrlHead(s: string, dni: string)
    requires s == Host + ProfilePath + dni && IsDni(dni)
    ensures s != [] && s[0] == 'h' && s[|s| - 1] == dni[|dni| - 1] && !IsDni(s)
  {
    assert s[0] == Host[0];
  }

  /** EscanerQR finds the DNI of the `url` text with its first pattern. */
  lemma UrlReadsBackQr(parse: JsonParser, s: string, dni: string)
    requires ObjectsOnly(parse)
    requires s == Host + ProfilePath + dni && IsDni(dni)
    ensures ExtractDniFromQR(parse, s) == Some(dni)
  {
    UrlHead(s, dni);
    assert parse(s) == None by { NotAnObject(parse, s); }
    assert Trim(s) == s by { TrimOfTrimmed(s); }
    assert FirstPatternMatch(QrPatterns, s) == Some(dni) by {
      PathAtProfile(PerfilEstudiantePath, s, dni);
      FirstPatternWins(QrPatterns, s, 0);
    }
    QrRulesDecide(parse, s, dni);
  }

  /** The other scanners find the DNI of the `url` text with their path pattern. */
  lemma UrlReadsBack(parse: JsonParser, s: string, dni: string)
    requires ObjectsOnly(parse)
    requires s == Host + ProfilePath + dni && IsDni(dni)
    ensures ExtractDni(parse, s) == Some(dni)
    ensures ExtractDniPatternLoop(parse, s) == Some(dni)
  {
    UrlHead(s, dni);
    assert parse(s) == None by { NotAnObject(parse, s); }
    assert Trim(s) == s by { TrimOfTrimmed(s); }
    assert SimpleTextRules(s) == Some(dni) by { PathAtProfile(StudentPathCI, s, dni); }
    TextRulesDecide(parse, s, dni);
  }

  /** The `url` payload of an 8-10 digit DNI reads back as that DNI in every scanner. */
  lemma UrlRoundTrip(parse: JsonParser, tipoQR: string, dni: string, now: int)
    requires ObjectsOnly(parse)
    requires tipoQR != "simple" && tipoQR != "json"
    requires IsDni(dni)
    ensures ExtractDniFromQR(parse, Payload(tipoQR, dni, now)) == Some(dni)
    ensures ExtractDni(parse, Payload(tipoQR, dni, now)) == Some(dni)
    ensures ExtractDniPatternLoop(parse, Payload(tipoQR, dni, now)) == Some(dni)
  {
    var s := Host + ProfilePath + dni;
    assert Payload(tipoQR, dni, now) == s;
    UrlReadsBackQr(parse, s, dni);
    UrlReadsBack(parse, s, dni);
  }
}
