/**
 * The scanners' DNI extractors: from a decoded QR text to a student identifier or `null`.
 *
 * - `ExtractDniFromQR` is EscanerQR's `extractDNIFromQR`: JSON with `tipo: 'asistencia'` first,
 *   then four patterns tried one after the other, then the whole text, then any digit run.
 * - `ExtractDni` is the `extractDNI` of EscanerQRSimple and of EscanerQRFuncional (the two are the
 *   same code): the whole text first, then JSON `dni`/`DNI`, then three patterns in turn.
 * - `ExtractDniPatternLoop` is EscanerQRConFallback's `extractDNI`, whose last three rules are a
 *   loop over a list of patterns.
 *
 * The JSON parser is a parameter (see module Json).
 */
module Extraction {
  import opened Text
  import opened Json
  import opened Patterns

  /** EscanerQR's `urlPatterns`, in the order the loop tries them. */
  const QrPatterns: seq<Pattern> := [PerfilEstudiantePath, EstudiantePath, DniParam, IdParam]

  /** EscanerQRConFallback's `patterns`, in the order the loop tries them. */
  const LoopPatterns: seq<Pattern> := [StudentPathCI, KeyParamCI, BoundedDigits]

  /** EscanerQR's JSON rule applies: `qrData.tipo === 'asistencia' && qrData.dni`. */
  predicate AttendanceObject(parsed: Option<JsonObject>) {
    parsed.Some? && parsed.value.tipo == Some("asistencia") && Truthy(parsed.value.dni)
  }

  /** The other scanners' JSON rule applies: `parsed.dni || parsed.DNI`. */
  predicate DniObject(parsed: Option<JsonObject>) {
    parsed.Some? && (Truthy(parsed.value.dni) || Truthy(parsed.value.upperDni))
  }

  /** `parsed.dni || parsed.DNI` for an object that has one of them. */
  function DniOf(o: JsonObject): string
    requires Truthy(o.dni) || Truthy(o.upperDni)
  {
    if Truthy(o.dni) then o.dni.value else o.upperDni.value
  }

  /** Any pattern that matches implies a run of eight digits, so `/(\d{8,10})/` matches too. */
  lemma PatternImpliesAnyDigits(p: Pattern, s: string)
    requires FirstMatch(p, s).Some?
    ensures FirstMatch(AnyDigits, s).Some?
  {
    var i := Search(p, s, 0).value;
    MatchCapture(p, s, i);
    var j := CaptureStart(p, s, i);
    assert MatchAt(AnyDigits, s, j).Some?;
  }

  /** `s.match(/(\d{8,10})/)` fails exactly when no eight digits in a row occur in `s`. */
  lemma AnyDigitsNone(s: string)
    ensures FirstMatch(AnyDigits, s).None? <==> forall j :: 0 <= j <= |s| ==> !EightDigitsAt(s, j)
  {
    NoMatch(AnyDigits, s);
    forall j | 0 <= j <= |s| ensures MatchAt(AnyDigits, s, j).None? <==> !EightDigitsAt(s, j) {
      GreedyIffEight(s, j);
    }
  }

  /**
   * EscanerQR's rules after the JSON one, in order: the first of the four patterns that matches,
   * else the whole text when it is a DNI, else the first run of 8 or more digits cut to ten.
   */
  function QrTextRules(clean: string): (r: Option<string>)
    ensures FirstPatternMatch(QrPatterns, clean).Some? ==> r == FirstPatternMatch(QrPatterns, clean)
    ensures FirstPatternMatch(QrPatterns, clean).None? && IsDni(clean) ==> r == Some(clean)
    ensures FirstPatternMatch(QrPatterns, clean).None? && !IsDni(clean) ==> r == FirstMatch(AnyDigits, clean)
    ensures r.Some? ==> IsDni(r.value)
    ensures r.None? <==> forall j :: 0 <= j <= |clean| ==> !EightDigitsAt(clean, j)
  {
    AnyDigitsNone(clean);
    var byPattern := FirstPatternMatch(QrPatterns, clean);
    if byPattern.Some? then
      NoPatternMatch(QrPatterns, clean);
      var k :| 0 <= k < |QrPatterns| && FirstMatch(QrPatterns[k], clean).Some?;
      PatternImpliesAnyDigits(QrPatterns[k], clean);
      byPattern
    else if IsDni(clean) then
      assert clean[0..|clean|] == clean;
      DigitRunCovers(clean, 0, 8);
      Some(clean)
    else FirstMatch(AnyDigits, clean)
  }

  /**
   * EscanerQR's `extractDNIFromQR`. Outside the JSON rule the result is that of QrTextRules on the
   * trimmed text, an 8-10 digit string; `null` comes back exactly when the JSON rule does not apply
   * and the trimmed text holds no eight digits in a row.
   */
  function ExtractDniFromQR(parse: JsonParser, qrText: string): (r: Option<string>)
    ensures AttendanceObject(parse(Trim(qrText))) ==> r == parse(Trim(qrText)).value.dni
    ensures !AttendanceObject(parse(Trim(qrText))) ==> r == QrTextRules(Trim(qrText))
    ensures r.Some? && !AttendanceObject(parse(Trim(qrText))) ==> IsDni(r.value)
    ensures r.None? <==> !AttendanceObject(parse(Trim(qrText)))
                         && forall j :: 0 <= j <= |Trim(qrText)| ==> !EightDigitsAt(Trim(qrText), j)
  {
    var clean := Trim(qrText);
    var parsed := parse(clean);
    if AttendanceObject(parsed) then parsed.value.dni else QrTextRules(clean)
  }

  /** The rules of EscanerQRSimple and EscanerQRFuncional after the JSON one. */
  function SimpleTextRules(clean: string): (r: Option<string>)
    ensures r.Some? ==> IsDni(r.value)
    ensures r.None? <==> forall i :: 0 <= i <= |clean| ==>
      MatchAt(StudentPathCI, clean, i).None? && MatchAt(KeyParamCI, clean, i).None? && MatchAt(BoundedDigits, clean, i).None?
  {
    NoMatch(StudentPathCI, clean);
    NoMatch(KeyParamCI, clean);
    NoMatch(BoundedDigits, clean);
    var urlMatch := FirstMatch(StudentPathCI, clean);
    if urlMatch.Some? then urlMatch
    else
      var paramMatch := FirstMatch(KeyParamCI, clean);
      if paramMatch.Some? then paramMatch
      else FirstMatch(BoundedDigits, clean)
  }

  /**
   * `extractDNI` of EscanerQRSimple and EscanerQRFuncional. A trimmed text of 8-10 digits is
   * returned as it is; a result outside the JSON rule is an 8-10 digit run of the trimmed text.
   * Past the first two rules, the first of the path, key and bounded-digit patterns that matches
   * decides, and `null` comes back exactly when none of them matches anywhere.
   */
  function ExtractDni(parse: JsonParser, text: string): (r: Option<string>)
    ensures IsDni(Trim(text)) ==> r == Some(Trim(text))
    ensures !IsDni(Trim(text)) && DniObject(parse(Trim(text))) ==> r == Some(DniOf(parse(Trim(text)).value))
    ensures r.Some? && !DniObject(parse(Trim(text))) ==> IsDni(r.value)
    ensures !IsDni(Trim(text)) && !DniObject(parse(Trim(text))) ==> r == FirstPatternMatch(LoopPatterns, Trim(text))
    ensures r.None? <==> !IsDni(Trim(text)) && !DniObject(parse(Trim(text)))
                         && forall k :: 0 <= k < |LoopPatterns| ==> FirstMatch(LoopPatterns[k], Trim(text)).None?
  {
    var clean := Trim(text);
    LoopIsChain(clean);
    NoPatternMatch(LoopPatterns, clean);
    if IsDni(clean) then Some(clean)
    else
      var parsed := parse(clean);
      if DniObject(parsed) then Some(DniOf(parsed.value)) else SimpleTextRules(clean)
  }

  /** EscanerQRConFallback's `extractDNI`: the same first two rules, then the pattern loop. */
  function ExtractDniPatternLoop(parse: JsonParser, text: string): (r: Option<string>)
    ensures r.Some? && !DniObject(parse(Trim(text))) ==> IsDni(r.value)
    ensures r.None? <==> !IsDni(Trim(text)) && !DniObject(parse(Trim(text)))
                         && forall k :: 0 <= k < |LoopPatterns| ==> FirstMatch(LoopPatterns[k], Trim(text)).None?
  {
    var clean := Trim(text);
    NoPatternMatch(LoopPatterns, clean);
    if IsDni(clean) then Some(clean)
    else
      var parsed := parse(clean);
      if DniObject(parsed) then Some(DniOf(parsed.value)) else FirstPatternMatch(LoopPatterns, clean)
  }

  /** EscanerQRConFallback's pattern loop is the chain of three `match` calls of the other copies. */
  lemma LoopIsChain(clean: string)
    ensures FirstPatternMatch(LoopPatterns, clean) == SimpleTextRules(clean)
  {
    var tail := LoopPatterns[1..];
    var last := tail[1..];
    assert tail == [KeyParamCI, BoundedDigits] && last == [BoundedDigits] && last[1..] == [];
    assert FirstPatternMatch(last, clean) == FirstMatch(BoundedDigits, clean);
    assert FirstPatternMatch(tail, clean)
        == if FirstMatch(KeyParamCI, clean).Some? then FirstMatch(KeyParamCI, clean) else FirstMatch(BoundedDigits, clean);
  }

  /** The three copies of `extractDNI` give the same answer for every text and every parser. */
  lemma CopiesAgree(parse: JsonParser, text: string)
    ensures ExtractDniPatternLoop(parse, text) == ExtractDni(parse, text)
  {
    LoopIsChain(Trim(text));
  }

  /** An extractor as the scanners call it: from a decoded text to a DNI or `null`. */
  type Extractor = string -> Option<string>

  /** Every DNI the extractor returns is a non-empty text, so it is truthy where the scanners test it. */
  ghost predicate NonEmptyResults(extract: Extractor) {
    forall t :: extract(t).Some? ==> extract(t).value != ""
  }

  /** `extractDNI` of EscanerQRSimple and EscanerQRFuncional never returns an empty DNI. */
  lemma ExtractDniNonEmpty(parse: JsonParser, text: string)
    ensures ExtractDni(parse, text).Some? ==> ExtractDni(parse, text).value != ""
  {
    var clean := Trim(text);
    if !IsDni(clean) && DniObject(parse(clean)) {
      assert ExtractDni(parse, text) == Some(DniOf(parse(clean).value));
    }
  }

  /** Nor does EscanerQRConFallback's, which gives the same answers. */
  lemma PatternLoopResultsNonEmpty(parse: JsonParser)
    ensures NonEmptyResults(t => ExtractDniPatternLoop(parse, t))
  {
    forall t | ExtractDniPatternLoop(parse, t).Some?
      ensures ExtractDniPatternLoop(parse, t).value != ""
    {
      CopiesAgree(parse, t);
      ExtractDniNonEmpty(parse, t);
    }
  }

  /** Nor does EscanerQR's: a JSON `dni` must be truthy, any other result is 8-10 digits. */
  lemma ExtractDniFromQRNonEmpty(parse: JsonParser, text: string)
    ensures ExtractDniFromQR(parse, text).Some? ==> ExtractDniFromQR(parse, text).value != ""
  {
    var r := ExtractDniFromQR(parse, text);
    if r.Some? && !AttendanceObject(parse(Trim(text))) {
      assert IsDni(r.value);
    }
  }

  // ---------------------------------------------------------------------------------------------
  // No digit run and no key: the patterns on texts that cannot hold them

  /** No path or key pattern matches at `i` when `s[i]` is neither `/` nor one of the letters `d`, `i`. */
  lemma NoKeyOrPathAt(p: Pattern, s: string, i: nat)
    requires i <= |s|
    requires i < |s| ==> s[i] != '/' && Lower(s[i]) != 'd' && Lower(s[i]) != 'i'
    requires p in QrPatterns || p == StudentPathCI || p == KeyParamCI
    ensures MatchAt(p, s, i).None?
  {
    if i < |s| {
      NotLitAt(s, i, "/perfil-estudiante/");
      NotLitAt(s, i, "/estudiante/");
      NotLitAtCI(s, i, "dni");
      NotLitAtCI(s, i, "id");
    }
  }

  /** No path or key pattern matches at a position that holds a digit (or the end of the text). */
  lemma NoKeyOrPathAtDigit(p: Pattern, s: string, i: nat)
    requires i <= |s| && (i == |s| || IsDigit(s[i]))
    requires p in QrPatterns || p == StudentPathCI || p == KeyParamCI
    ensures MatchAt(p, s, i).None?
  {
    NoKeyOrPathAt(p, s, i);
  }

  /** In a text of digits only, none of EscanerQR's four patterns matches. */
  lemma NoQrPatternInDigits(s: string)
    requires AllDigits(s)
    ensures FirstPatternMatch(QrPatterns, s).None?
  {
    forall k | 0 <= k < |QrPatterns| ensures FirstMatch(QrPatterns[k], s).None? {
      NoMatch(QrPatterns[k], s);
      forall i | 0 <= i <= |s| ensures MatchAt(QrPatterns[k], s, i).None? {
        NoKeyOrPathAtDigit(QrPatterns[k], s, i);
      }
    }
    NoPatternMatch(QrPatterns, s);
  }

  /**
   * EscanerQR returns a trimmed text of 8-10 digits unchanged: it is not a JSON object, and none of
   * the four patterns can match in it.
   */
  lemma QrDirectDigits(parse: JsonParser, qrText: string)
    requires ObjectsOnly(parse)
    requires IsDni(Trim(qrText))
    ensures ExtractDniFromQR(parse, qrText) == Some(Trim(qrText))
  {
    var clean := Trim(qrText);
    assert IsDigit(clean[0]);
    NotAnObject(parse, clean);
    NoQrPatternInDigits(clean);
  }

  /**
   * The `\b` rule: a run of eleven or more digits matches nothing, so EscanerQRSimple returns
   * `null` for it.
   */
  lemma LongRunRejected(parse: JsonParser, s: string)
    requires ObjectsOnly(parse)
    requires AllDigits(s) && |s| > 10
    ensures ExtractDni(parse, s) == None
  {
    assert IsDigit(s[0]) && IsDigit(s[|s| - 1]);
    TrimOfTrimmed(s);
    NotAnObject(parse, s);
    forall i | 0 <= i <= |s| ensures MatchAt(StudentPathCI, s, i).None? && MatchAt(KeyParamCI, s, i).None? {
      NoKeyOrPathAtDigit(StudentPathCI, s, i);
      NoKeyOrPathAtDigit(KeyParamCI, s, i);
    }
    forall i | 0 <= i <= |s| ensures MatchAt(BoundedDigits, s, i).None? {
      if 0 < i < |s| {
        assert IsWordChar(s[i - 1]) && IsWordChar(s[i]);
      } else if i == 0 {
        assert IsWordChar(s[8]) && IsWordChar(s[9]) && IsWordChar(s[10]);
      }
    }
    NoMatch(StudentPathCI, s);
    NoMatch(KeyParamCI, s);
    NoMatch(BoundedDigits, s);
  }

  /** No key pattern matches at a character followed by a digit, and no path pattern at a word character. */
  lemma NoKeyOrPathBeforeDigit(p: Pattern, s: string, i: nat)
    requires i + 1 < |s| && IsWordChar(s[i]) && IsDigit(s[i + 1])
    requires p in QrPatterns || p == StudentPathCI || p == KeyParamCI
    ensures MatchAt(p, s, i).None?
  {
    NotLitAt(s, i, "/perfil-estudiante/");
    NotLitAt(s, i, "/estudiante/");
    if i + 3 <= |s| {
      assert Lower(s[i + 1]) != "dni"[1];
    }
    if i + 2 <= |s| {
      assert Lower(s[i + 1]) != "id"[1];
    }
  }

  /** In a word character followed by digits, no path or key pattern matches anywhere. */
  lemma NoKeyOrPathGlued(p: Pattern, c: char, d: string)
    requires IsWordChar(c) && d != [] && AllDigits(d)
    requires p in QrPatterns || p == StudentPathCI || p == KeyParamCI
    ensures FirstMatch(p, [c] + d).None?
  {
    var s := [c] + d;
    forall i | 0 <= i <= |s| ensures MatchAt(p, s, i).None? {
      if i == 0 {
        assert s[1] == d[0];
        NoKeyOrPathBeforeDigit(p, s, 0);
      } else {
        assert i < |s| ==> s[i] == d[i - 1];
        NoKeyOrPathAtDigit(p, s, i);
      }
    }
    NoMatch(p, s);
  }

  /** A word character then a DNI has no whitespace to trim. */
  lemma GluedTrim(c: char, d: string)
    requires IsWordChar(c) && IsDni(d)
    ensures Trim([c] + d) == [c] + d
  {
    var s := [c] + d;
    assert !IsJsSpace(c) && s[|s| - 1] == d[|d| - 1];
    TrimOfTrimmed(s);
  }

  /** A text that starts with a word character is not a JSON object. */
  lemma GluedNotJson(parse: JsonParser, c: char, d: string)
    requires ObjectsOnly(parse)
    requires IsWordChar(c)
    ensures parse([c] + d) == None
  {
    NotAnObject(parse, [c] + d);
  }

  /** A text that starts with a non-digit is not a DNI. */
  lemma GluedNotDni(c: char, d: string)
    requires !IsDigit(c)
    ensures !IsDni([c] + d)
  {
    assert ([c] + d)[0] == c;
  }

  /** A word character other than a digit, then 8-10 digits: trimmed already, not JSON, not a DNI. */
  lemma GluedText(parse: JsonParser, c: char, d: string)
    requires ObjectsOnly(parse)
    requires IsWordChar(c) && !IsDigit(c)
    requires IsDni(d)
    ensures Trim([c] + d) == [c] + d && parse([c] + d) == None && !IsDni([c] + d)
  {
    GluedTrim(c, d);
    GluedNotJson(parse, c, d);
    GluedNotDni(c, d);
  }

  /** Digits glued to a word character have no `\b` in front of them, so `/\b(\d{8,10})\b/` fails. */
  lemma NoBoundaryGlued(c: char, d: string)
    requires IsWordChar(c) && !IsDigit(c)
    requires IsDni(d)
    ensures FirstMatch(BoundedDigits, [c] + d).None?
  {
    var s := [c] + d;
    forall i | 0 <= i <= |s| ensures MatchAt(BoundedDigits, s, i).None? {
      if 0 < i < |s| {
        assert s[i - 1] == if i == 1 then c else d[i - 2];
        assert s[i] == d[i - 1];
      } else if i == 0 {
        assert s[0..8][0] == c && s[0..9][0] == c;
        if |s| >= 10 { assert s[0..10][0] == c; }
      }
    }
    NoMatch(BoundedDigits, s);
  }

  /**
   * Digits glued to a letter or `_` have no `\b` in front of them: EscanerQRSimple returns `null`
   * for `c + d`.
   */
  lemma GluedDigitsRejected(parse: JsonParser, c: char, d: string)
    requires ObjectsOnly(parse)
    requires IsWordChar(c) && !IsDigit(c)
    requires IsDni(d)
    ensures ExtractDni(parse, [c] + d) == None
  {
    GluedText(parse, c, d);
    GluedNoChainMatch(c, d);
    TextRulesReject(parse, [c] + d);
  }

  /** None of the three patterns of the Simple and Funcional chain matches a letter plus a DNI. */
  lemma GluedNoChainMatch(c: char, d: string)
    requires IsWordChar(c) && !IsDigit(c)
    requires IsDni(d)
    ensures FirstMatch(StudentPathCI, [c] + d).None?
    ensures FirstMatch(KeyParamCI, [c] + d).None?
    ensures FirstMatch(BoundedDigits, [c] + d).None?
  {
    NoKeyOrPathGlued(StudentPathCI, c, d);
    NoKeyOrPathGlued(KeyParamCI, c, d);
    NoBoundaryGlued(c, d);
  }

  /** EscanerQR's last rule has no `\b`: in `c + d` it finds `d`. */
  lemma AnyDigitsGlued(c: char, d: string)
    requires !IsDigit(c)
    requires IsDni(d)
    ensures FirstMatch(AnyDigits, [c] + d) == Some(d)
  {
    var s := [c] + d;
    assert s[1..1 + |d|] == d;
    DigitRunCovers(s, 1, |d|);
    assert s[0] == c;
    LeftmostMatch(AnyDigits, s, 1);
  }

  /** For `c + d`, EscanerQR returns `d`: only its last rule, which has no `\b`, finds it. */
  lemma GluedDigitsAccepted(parse: JsonParser, c: char, d: string)
    requires ObjectsOnly(parse)
    requires IsWordChar(c) && !IsDigit(c)
    requires IsDni(d)
    ensures ExtractDniFromQR(parse, [c] + d) == Some(d)
  {
    var s := [c] + d;
    assert QrTextRules(s) == Some(d) by {
      GluedNotDni(c, d);
      forall k | 0 <= k < |QrPatterns| ensures FirstMatch(QrPatterns[k], s).None? {
        NoKeyOrPathGlued(QrPatterns[k], c, d);
      }
      NoPatternMatch(QrPatterns, s);
      AnyDigitsGlued(c, d);
    }
    GluedTrim(c, d);
    GluedNotJson(parse, c, d);
  }

  // ---------------------------------------------------------------------------------------------
  // `id=<a>&dni=<b>`: the key patterns in the two orders

  /** A query string carrying two identifiers, first under `id`, then under `dni`. */
  function KeyPairText(a: string, b: string): string {
    "id=" + a + "&dni=" + b
  }

  /** Where each character of `id=<a>&dni=<b>` comes from. */
  lemma KeyPairChars(a: string, b: string)
    requires IsDni(a) && IsDni(b)
    ensures var s := KeyPairText(a, b);
      && |s| == 8 + |a| + |b|
      && s[0] == 'i' && s[1] == 'd' && s[2] == '=' && s[3 + |a|] == '&' && s[4 + |a|] == 'd'
      && s[7 + |a|] == '=' && s[|s| - 1] == b[|b| - 1]
      && (forall j :: 3 <= j < 3 + |a| ==> s[j] == a[j - 3])
      && s[4 + |a|..7 + |a|] == "dni"
      && (forall j :: 0 <= j < |s| ==> s[j] != '/')
  {
    var s := KeyPairText(a, b);
    forall j | 0 <= j < |s| ensures s[j] != '/' {
      if j < 3 + |a| {
        assert j >= 3 ==> s[j] == a[j - 3];
      } else if j >= 8 + |a| {
        assert s[j] == b[j - 8 - |a|];
      }
    }
  }

  /** Without a `/` in the text, no path pattern matches anywhere. */
  lemma NoPathWithoutSlash(p: Pattern, s: string)
    requires p == PerfilEstudiantePath || p == EstudiantePath || p == StudentPathCI
    requires forall j :: 0 <= j < |s| ==> s[j] != '/'
    ensures FirstMatch(p, s).None?
  {
    forall i | 0 <= i <= |s| ensures MatchAt(p, s, i).None? {
      if i < |s| {
        NotLitAt(s, i, "/perfil-estudiante/");
        NotLitAt(s, i, "/estudiante/");
      }
    }
    NoMatch(p, s);
  }

  /** In `id=<a>&dni=<b>`, `/dni[=:](\d{8,10})/i` first matches at `dni`, capturing `b`. */
  lemma DniKeyInPair(a: string, b: string)
    requires IsDni(a) && IsDni(b)
    ensures FirstMatch(DniParam, KeyPairText(a, b)) == Some(b)
  {
    var s := KeyPairText(a, b);
    KeyPairChars(a, b);
    var at := 4 + |a|;
    forall j | 0 <= j < at ensures MatchAt(DniParam, s, j).None? {
      if j == 1 {
        assert Lower(s[1 + 1]) != "dni"[1];
      } else {
        assert j < 3 + |a| && j >= 3 ==> IsDigit(s[j]);
        NotLitAtCI(s, j, "dni");
      }
    }
    LitAtIgnoringCase(s, at, "dni");
    assert s == "id=" + a + "&dni" + "=" + b;
    GreedyRun(s, "id=" + a + "&dni=", b, []);
    LeftmostMatch(DniParam, s, at);
  }

  /** In `id=<a>&dni=<b>`, `/(?:dni|id)[=:](\d{8,10})/i` matches at the start, capturing `a`. */
  lemma KeyParamInPair(a: string, b: string)
    requires IsDni(a) && IsDni(b)
    ensures FirstMatch(KeyParamCI, KeyPairText(a, b)) == Some(a)
  {
    var s := KeyPairText(a, b);
    KeyPairChars(a, b);
    NotLitAtCI(s, 0, "dni");
    assert s[0..2] == "id";
    LitAtIgnoringCase(s, 0, "id");
    assert s == "id=" + a + ("&dni=" + b);
    GreedyRun(s, "id=", a, "&dni=" + b);
    LeftmostMatch(KeyParamCI, s, 0);
  }

  /** EscanerQR's pattern loop on `id=<a>&dni=<b>`: no path, then the `dni` key. */
  lemma KeyPairQrRules(a: string, b: string)
    requires IsDni(a) && IsDni(b)
    ensures FirstPatternMatch(QrPatterns, KeyPairText(a, b)) == Some(b)
  {
    var s := KeyPairText(a, b);
    KeyPairChars(a, b);
    NoPathWithoutSlash(PerfilEstudiantePath, s);
    NoPathWithoutSlash(EstudiantePath, s);
    DniKeyInPair(a, b);
    FirstPatternWins(QrPatterns, s, 2);
  }

  /** The other scanners' rules on `id=<a>&dni=<b>`: no path, then the key pattern at the start. */
  lemma KeyPairTextRules(a: string, b: string)
    requires IsDni(a) && IsDni(b)
    ensures SimpleTextRules(KeyPairText(a, b)) == Some(a)
  {
    KeyPairChars(a, b);
    NoPathWithoutSlash(StudentPathCI, KeyPairText(a, b));
    KeyParamInPair(a, b);
  }

  /** `id=<a>&dni=<b>` is trimmed already, is not JSON and is not a DNI. */
  lemma KeyPairPlain(parse: JsonParser, a: string, b: string)
    requires ObjectsOnly(parse)
    requires IsDni(a) && IsDni(b)
    ensures var s := KeyPairText(a, b); Trim(s) == s && parse(s) == None && !IsDni(s)
  {
    var s := KeyPairText(a, b);
    assert s[0] == 'i' && s[|s| - 1] == b[|b| - 1];
    assert !IsDni(s) by { assert !IsDigit(s[0]); }
    assert parse(s) == None by { NotAnObject(parse, s); }
    assert Trim(s) == s by { TrimOfTrimmed(s); }
  }

  /**
   * The scanners disagree on `id=<a>&dni=<b>`: EscanerQR tries the `dni` pattern before the `id`
   * one over the whole text and returns `b`; the others try both keys at each position from the
   * left and return `a`.
   */
  lemma KeyOrderDiffers(parse: JsonParser, a: string, b: string)
    requires ObjectsOnly(parse)
    requires IsDni(a) && IsDni(b)
    ensures ExtractDniFromQR(parse, KeyPairText(a, b)) == Some(b)
    ensures ExtractDni(parse, KeyPairText(a, b)) == Some(a)
    ensures ExtractDniPatternLoop(parse, KeyPairText(a, b)) == Some(a)
  {
    KeyPairPlain(parse, a, b);
    KeyPairQrRules(a, b);
    KeyPairTextRules(a, b);
    PlainTextDecides(parse, KeyPairText(a, b), b, a);
  }

  /** On trimmed text that is not JSON and not a bare DNI, each scanner's pattern rules decide. */
  lemma PlainTextDecides(parse: JsonParser, s: string, qr: string, text: string)
    requires Trim(s) == s && parse(s) == None && !IsDni(s)
    requires FirstPatternMatch(QrPatterns, s) == Some(qr)
    requires SimpleTextRules(s) == Some(text)
    ensures ExtractDniFromQR(parse, s) == Some(qr)
    ensures ExtractDni(parse, s) == Some(text)
    ensures ExtractDniPatternLoop(parse, s) == Some(text)
  {
    QrRulesDecide(parse, s, qr);
    TextRulesDecide(parse, s, text);
  }

  /** EscanerQR on a trimmed text outside its JSON rule where one of its four patterns matches: the pattern loop decides. */
  lemma QrRulesDecide(parse: JsonParser, s: string, d: string)
    requires Trim(s) == s && !AttendanceObject(parse(s))
    requires FirstPatternMatch(QrPatterns, s) == Some(d)
    ensures ExtractDniFromQR(parse, s) == Some(d)
  {
  }

  /** The other scanners on a trimmed text outside their JSON rule that is not a DNI: the text rules decide. */
  lemma TextRulesDecide(parse: JsonParser, s: string, d: string)
    requires Trim(s) == s && !DniObject(parse(s)) && !IsDni(s)
    requires SimpleTextRules(s) == Some(d)
    ensures ExtractDni(parse, s) == Some(d)
    ensures ExtractDniPatternLoop(parse, s) == Some(d)
  {
    LoopIsChain(s);
  }

  /** On a trimmed text outside the first two rules where no pattern of the chain matches, both copies return `null`. */
  lemma TextRulesReject(parse: JsonParser, s: string)
    requires Trim(s) == s && parse(s) == None && !IsDni(s)
    requires FirstMatch(StudentPathCI, s).None? && FirstMatch(KeyParamCI, s).None? && FirstMatch(BoundedDigits, s).None?
    ensures ExtractDni(parse, s) == None
    ensures ExtractDniPatternLoop(parse, s) == None
  {
    LoopIsChain(s);
  }

  /** A JSON payload's `dni` is returned without any check of its shape. */
  lemma JsonDniUnchecked(parse: JsonParser, qrText: string)
    requires ObjectsOnly(parse)
    requires parse(Trim(qrText)) == Some(JsonObject(Some("asistencia"), Some("abc"), None))
    ensures ExtractDniFromQR(parse, qrText) == Some("abc")
    ensures ExtractDni(parse, qrText) == Some("abc")
  {
  }
}
