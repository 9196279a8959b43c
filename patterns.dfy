/**
 * The regular expressions the scanners run over a decoded QR text, each written out as an explicit
 * matcher. `String.prototype.match` with a non-global expression tries the start positions
 * 0, 1, ..., |s| in order and returns the first position where the expression matches; at that
 * position `\d{8,10}` is greedy (it takes as many digits as it can, at most ten) and gives digits
 * back one at a time only when what follows it fails. Capture group 1 is the digit run.
 */
module Patterns {
  import opened Text

  datatype Pattern =
    | PerfilEstudiantePath  // /\/perfil-estudiante\/(\d{8,10})/
    | EstudiantePath        // /\/estudiante\/(\d{8,10})/
    | DniParam              // /dni[=:](\d{8,10})/i
    | IdParam               // /id[=:](\d{8,10})/i
    | StudentPathCI         // /\/(?:perfil-)?estudiante\/(\d{8,10})/i
    | KeyParamCI            // /(?:dni|id)[=:](\d{8,10})/i
    | BoundedDigits         // /\b(\d{8,10})\b/
    | AnyDigits             // /(\d{8,10})/

  /** The literal `lit` occurs in `s` at `i`, character for character. */
  predicate LitAt(s: string, i: nat, lit: string) {
    i + |lit| <= |s| && s[i..i + |lit|] == lit
  }

  /** The lower-case literal `lit` occurs in `s` at `i` under the `i` flag. */
  predicate LitAtCI(s: string, i: nat, lit: string) {
    i + |lit| <= |s| && forall k :: 0 <= k < |lit| ==> Lower(s[i + k]) == lit[k]
  }

  predicate IsKeySeparator(c: char) { c == '=' || c == ':' }

  /** The length of the run of digits that starts at `j`. */
  function DigitRun(s: string, j: nat): (n: nat)
    requires j <= |s|
    ensures j + n <= |s| && AllDigits(s[j..j + n])
    ensures j + n == |s| || !IsDigit(s[j + n])
    decreases |s| - j
  {
    if j < |s| && IsDigit(s[j]) then
      var m := DigitRun(s, j + 1);
      assert s[j..j + 1 + m] == [s[j]] + s[j + 1..j + 1 + m];
      1 + m
    else 0
  }

  /** Eight digits in a row start at `j`. */
  predicate EightDigitsAt(s: string, j: nat) { j + 8 <= |s| && AllDigits(s[j..j + 8]) }

  /** `(\d{8,10})` at position `j` with nothing required after it: the greedy capture. */
  function GreedyDigits(s: string, j: nat): (r: Option<string>)
    requires j <= |s|
    ensures r.Some? ==> IsDni(r.value) && j + |r.value| <= |s| && r.value == s[j..j + |r.value|]
    ensures r.Some? ==> |r.value| == 10 || j + |r.value| == |s| || !IsDigit(s[j + |r.value|])
    ensures r.None? <==> DigitRun(s, j) < 8
  {
    var n := Min(DigitRun(s, j), 10);
    assert forall k :: j <= k < j + n ==> s[k] == s[j..j + DigitRun(s, j)][k - j];
    if n >= 8 then Some(s[j..j + n]) else None
  }

  /** The greedy capture succeeds exactly where eight digits in a row start. */
  lemma GreedyIffEight(s: string, j: nat)
    requires j <= |s|
    ensures GreedyDigits(s, j).None? <==> !EightDigitsAt(s, j)
  {
    if EightDigitsAt(s, j) {
      DigitRunCovers(s, j, 8);
    }
    if DigitRun(s, j) >= 8 {
      assert forall k :: j <= k < j + 8 ==> s[k] == s[j..j + DigitRun(s, j)][k - j];
      assert EightDigitsAt(s, j);
    }
  }

  /** `\b` between positions `p - 1` and `p`: a word character on exactly one side. */
  predicate Boundary(s: string, p: nat) {
    (0 < p <= |s| && IsWordChar(s[p - 1])) != (p < |s| && IsWordChar(s[p]))
  }

  /** `n` digits start at `j` and `\b` holds right after them. */
  predicate BoundedAt(s: string, j: nat, n: nat) {
    j + n <= |s| && AllDigits(s[j..j + n]) && Boundary(s, j + n)
  }

  /**
   * `(\d{8,10})\b` at position `j`: ten, then nine, then eight digits, the first count followed by `\b`.
   * It fails exactly when no count from 8 to 10 is followed by `\b`, and otherwise takes the longest.
   */
  function BoundedRun(s: string, j: nat): (r: Option<string>)
    requires j <= |s|
    ensures r.Some? ==> IsDni(r.value) && j + |r.value| <= |s| && r.value == s[j..j + |r.value|]
    ensures r.Some? ==> Boundary(s, j + |r.value|)
    ensures r.None? <==> forall n :: 8 <= n <= 10 ==> !BoundedAt(s, j, n)
    ensures r.Some? ==> forall n :: |r.value| < n <= 10 ==> !BoundedAt(s, j, n)
  {
    if BoundedAt(s, j, 10) then Some(s[j..j + 10])
    else if BoundedAt(s, j, 9) then Some(s[j..j + 9])
    else if BoundedAt(s, j, 8) then Some(s[j..j + 8])
    else None
  }

  /** `key[=:](\d{8,10})` under the `i` flag at position `i`, for a lower-case `key`. */
  function KeyAt(s: string, i: nat, key: string): (r: Option<string>)
    requires i <= |s|
    ensures r.Some? ==> IsDni(r.value)
  {
    if LitAtCI(s, i, key) && i + |key| < |s| && IsKeySeparator(s[i + |key|]) then GreedyDigits(s, i + |key| + 1)
    else None
  }

  /** Capture group 1 of pattern `p` when the match is attempted at start position `i`. */
  function MatchAt(p: Pattern, s: string, i: nat): (r: Option<string>)
    requires i <= |s|
    ensures r.Some? ==> IsDni(r.value)
  {
    match p
    case PerfilEstudiantePath =>
      if LitAt(s, i, "/perfil-estudiante/") then GreedyDigits(s, i + 19) else None
    case EstudiantePath =>
      if LitAt(s, i, "/estudiante/") then GreedyDigits(s, i + 12) else None
    case DniParam =>
      KeyAt(s, i, "dni")
    case IdParam =>
      KeyAt(s, i, "id")
    case StudentPathCI =>
      // the optional group is tried first; if the rest fails with it, it is tried without
      if i < |s| && s[i] == '/' then
        var withPrefix := if LitAtCI(s, i + 1, "perfil-estudiante/") then GreedyDigits(s, i + 19) else None;
        if withPrefix.Some? then withPrefix
        else if LitAtCI(s, i + 1, "estudiante/") then GreedyDigits(s, i + 12)
        else None
      else None
    case KeyParamCI =>
      // the alternatives are tried left to right at the same position
      var viaDni := KeyAt(s, i, "dni");
      if viaDni.Some? then viaDni else KeyAt(s, i, "id")
    case BoundedDigits =>
      if Boundary(s, i) then BoundedRun(s, i) else None
    case AnyDigits =>
      GreedyDigits(s, i)
  }

  /** The first start position at or after `from` where `p` matches. */
  function Search(p: Pattern, s: string, from: nat): (r: Option<nat>)
    requires from <= |s|
    ensures r.Some? ==> from <= r.value <= |s| && MatchAt(p, s, r.value).Some?
    ensures r.Some? ==> forall j :: from <= j < r.value ==> MatchAt(p, s, j).None?
    ensures r.None? ==> forall j :: from <= j <= |s| ==> MatchAt(p, s, j).None?
    decreases |s| - from
  {
    if MatchAt(p, s, from).Some? then Some(from)
    else if from == |s| then None
    else Search(p, s, from + 1)
  }

  /** `s.match(p)`: group 1 of the leftmost match, or `null`. */
  function FirstMatch(p: Pattern, s: string): (r: Option<string>)
    ensures r.Some? ==> IsDni(r.value)
  {
    var found := Search(p, s, 0);
    if found.Some? then MatchAt(p, s, found.value) else None
  }

  /** `s.match(p)` is `null` exactly when `p` matches at no position. */
  lemma NoMatch(p: Pattern, s: string)
    ensures FirstMatch(p, s).None? <==> forall i :: 0 <= i <= |s| ==> MatchAt(p, s, i).None?
  {
  }

  /** The leftmost match wins: the result is the match at the first position where `p` matches. */
  lemma LeftmostMatch(p: Pattern, s: string, i: nat)
    requires i <= |s| && MatchAt(p, s, i).Some?
    requires forall j :: 0 <= j < i ==> MatchAt(p, s, j).None?
    ensures FirstMatch(p, s) == MatchAt(p, s, i)
  {
    var found := Search(p, s, 0);
    assert found.Some? && found.value <= i;
  }

  /** The scanners' pattern loop: group 1 of the first pattern in `ps` that matches anywhere. */
  function FirstPatternMatch(ps: seq<Pattern>, s: string): (r: Option<string>)
    ensures r.Some? ==> IsDni(r.value)
  {
    if ps == [] then None
    else
      var here := FirstMatch(ps[0], s);
      if here.Some? then here else FirstPatternMatch(ps[1..], s)
  }

  /** The pattern loop returns `null` exactly when every pattern of the list fails. */
  lemma {:induction false} NoPatternMatch(ps: seq<Pattern>, s: string)
    ensures FirstPatternMatch(ps, s).None? <==> forall k :: 0 <= k < |ps| ==> FirstMatch(ps[k], s).None?
  {
    if ps != [] {
      NoPatternMatch(ps[1..], s);
      assert forall k :: 1 <= k < |ps| ==> ps[k] == ps[1..][k - 1];
    }
  }

  /** The first pattern of the list that matches decides the result. */
  lemma {:induction false} FirstPatternWins(ps: seq<Pattern>, s: string, k: nat)
    requires k < |ps| && FirstMatch(ps[k], s).Some?
    requires forall m :: 0 <= m < k ==> FirstMatch(ps[m], s).None?
    ensures FirstPatternMatch(ps, s) == FirstMatch(ps[k], s)
  {
    if k > 0 {
      assert FirstMatch(ps[0], s).None?;
      assert forall m :: 0 <= m < k - 1 ==> ps[1..][m] == ps[m + 1];
      FirstPatternWins(ps[1..], s, k - 1);
    }
  }

  /** Where capture group 1 starts when `p` is tried at `i`. */
  function CaptureStart(p: Pattern, s: string, i: nat): nat
    requires i <= |s|
  {
    match p
    case PerfilEstudiantePath => i + 19
    case EstudiantePath => i + 12
    case DniParam => i + 4
    case IdParam => i + 3
    case StudentPathCI =>
      if LitAtCI(s, i + 1, "perfil-estudiante/") && i + 19 <= |s| && GreedyDigits(s, i + 19).Some? then i + 19 else i + 12
    case KeyParamCI => if KeyAt(s, i, "dni").Some? then i + 4 else i + 3
    case BoundedDigits => i
    case AnyDigits => i
  }

  /** Group 1 of `p` at `i` is the slice of `s` at its capture start, where at least eight digits start. */
  predicate CapturedAt(p: Pattern, s: string, i: nat)
    requires i <= |s| && MatchAt(p, s, i).Some?
  {
    var c := CaptureStart(p, s, i);
    var v := MatchAt(p, s, i).value;
    c + |v| <= |s| && s[c..c + |v|] == v && DigitRun(s, c) >= 8
  }

  /** A match captures a run of 8-10 digits of `s`, where a run of at least eight digits starts. */
  lemma MatchCapture(p: Pattern, s: string, i: nat)
    requires i <= |s| && MatchAt(p, s, i).Some?
    ensures CapturedAt(p, s, i)
  {
    match p
    case BoundedDigits => BoundedCapture(p, s, i);
    case KeyParamCI => KeyParamCapture(p, s, i);
    case DniParam => ParamCapture(p, s, i);
    case IdParam => ParamCapture(p, s, i);
    case _ => PathCapture(p, s, i);
  }

  lemma PathCapture(p: Pattern, s: string, i: nat)
    requires p == PerfilEstudiantePath || p == EstudiantePath || p == StudentPathCI || p == AnyDigits
    requires i <= |s| && MatchAt(p, s, i).Some?
    ensures CapturedAt(p, s, i)
  {
    CaptureByGreedy(p, s, i);
  }

  lemma ParamCapture(p: Pattern, s: string, i: nat)
    requires p == DniParam || p == IdParam
    requires i <= |s| && MatchAt(p, s, i).Some?
    ensures CapturedAt(p, s, i)
  {
    if p == DniParam {
      KeyCapture(s, i, "dni");
    } else {
      KeyCapture(s, i, "id");
    }
    CaptureByGreedy(p, s, i);
  }

  /** A pattern whose group 1 is the greedy capture at its capture start. */
  lemma CaptureByGreedy(p: Pattern, s: string, i: nat)
    requires i <= |s| && MatchAt(p, s, i).Some?
    requires CaptureStart(p, s, i) <= |s| && MatchAt(p, s, i) == GreedyDigits(s, CaptureStart(p, s, i))
    ensures CapturedAt(p, s, i)
  {
    GreedyCapture(s, CaptureStart(p, s, i));
  }

  lemma BoundedCapture(p: Pattern, s: string, i: nat)
    requires p == BoundedDigits && i <= |s| && MatchAt(p, s, i).Some?
    ensures CapturedAt(p, s, i)
  {
    DigitRunCovers(s, i, |MatchAt(p, s, i).value|);
  }

  lemma KeyParamCapture(p: Pattern, s: string, i: nat)
    requires p == KeyParamCI && i <= |s| && MatchAt(p, s, i).Some?
    ensures CapturedAt(p, s, i)
  {
    if KeyAt(s, i, "dni").Some? {
      KeyCapture(s, i, "dni");
    } else {
      KeyCapture(s, i, "id");
    }
    CaptureByGreedy(p, s, i);
  }

  /** A greedy capture is the slice of `s` at `j`, where at least eight digits start. */
  lemma GreedyCapture(s: string, j: nat)
    requires j <= |s| && GreedyDigits(s, j).Some?
    ensures j + |GreedyDigits(s, j).value| <= |s|
    ensures s[j..j + |GreedyDigits(s, j).value|] == GreedyDigits(s, j).value
    ensures DigitRun(s, j) >= 8
  {
  }

  /** A key capture is the greedy capture just after the key and its separator. */
  lemma KeyCapture(s: string, i: nat, key: string)
    requires i <= |s| && KeyAt(s, i, key).Some?
    ensures i + |key| + 1 <= |s| && KeyAt(s, i, key) == GreedyDigits(s, i + |key| + 1)
  {
  }

  /** A run of at least `n` digits at `j` makes `DigitRun` at least `n`. */
  lemma {:induction false} DigitRunCovers(s: string, j: nat, n: nat)
    requires j + n <= |s| && AllDigits(s[j..j + n])
    ensures DigitRun(s, j) >= n
    decreases n
  {
    if n > 0 {
      assert IsDigit(s[j..j + n][0]);
      assert s[j + 1..j + n] == s[j..j + n][1..];
      DigitRunCovers(s, j + 1, n - 1);
    }
  }

  /** A literal cannot occur where its first character does not. */
  lemma NotLitAt(s: string, i: nat, lit: string)
    requires i < |s| && lit != [] && s[i] != lit[0]
    ensures !LitAt(s, i, lit)
  {
    if i + |lit| <= |s| {
      assert s[i..i + |lit|][0] == s[i];
    }
  }

  /** The same under the `i` flag. */
  lemma NotLitAtCI(s: string, i: nat, lit: string)
    requires i < |s| && lit != [] && Lower(s[i]) != lit[0]
    ensures !LitAtCI(s, i, lit)
  {
    if i + |lit| <= |s| {
      assert Lower(s[i + 0]) != lit[0];
    }
  }

  /** A literal cannot occur at `i` when its `k`-th character is not at `i + k`. */
  lemma NotLitAtOffset(s: string, i: nat, lit: string, k: nat)
    requires i + k < |s| && k < |lit| && s[i + k] != lit[k]
    ensures !LitAt(s, i, lit)
  {
    if i + |lit| <= |s| {
      assert s[i..i + |lit|][k] == s[i + k];
    }
  }

  /** A literal without upper-case letters matches under the `i` flag wherever it matches exactly. */
  lemma LitAtIgnoringCase(s: string, i: nat, lit: string)
    requires LitAt(s, i, lit)
    requires forall k :: 0 <= k < |lit| ==> !('A' <= lit[k] <= 'Z')
    ensures LitAtCI(s, i, lit)
  {
    forall k | 0 <= k < |lit| ensures Lower(s[i + k]) == lit[k] {
      assert s[i + k] == s[i..i + |lit|][k];
    }
  }

  /** The greedy capture at the start of a run of 8-10 digits that nothing digit follows takes the whole run. */
  lemma GreedyRun(s: string, t: string, d: string, rest: string)
    requires s == t + d + rest && IsDni(d)
    requires rest == [] || !IsDigit(rest[0])
    ensures GreedyDigits(s, |t|) == Some(d)
  {
    assert s[|t|..|t| + |d|] == d;
    DigitRunCovers(s, |t|, |d|);
    if rest != [] {
      assert s[|t| + |d|] == rest[0];
    }
  }
}
