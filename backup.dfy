/**
 * The backup service's classification of request errors and its file-size formatting, and the
 * backup widget's status tiers.
 *
 * A service method's request is given as its outcome: a reply, or an error shaped as axios builds
 * it (a response with its `data.message`, a request that got no response, or neither).
 */
module Backup {
  import opened Text

  /** The part of `error.response` that `handleError` reads: `data.message`. */
  datatype ErrorResponse = ErrorResponse(message: Option<string>)

  /** An axios error: `error.response`, and whether `error.request` is set. */
  datatype HttpError = HttpError(response: Option<ErrorResponse>, request: bool)

  const ServerError: string := "Error del servidor"
  const NoConnection: string := "No se pudo conectar con el servidor"
  const RequestError: string := "Error al procesar la solicitud"

  /** `handleError`: the message of the error a service method throws. */
  function HandleError(e: HttpError): (r: string)
    ensures r != ""
  {
    if e.response.Some? then OrElse(e.response.value.message, ServerError)
    else if e.request then NoConnection
    else RequestError
  }

  /** A response wins over a request: its message, or 'Error del servidor' when it has none. */
  lemma ResponseClassified(resp: ErrorResponse, request: bool)
    ensures HandleError(HttpError(Some(resp), request)) == (if Truthy(resp.message) then resp.message.value else ServerError)
  {
  }

  /** Without a response, a request that got no answer is a connection failure; anything else a local one. */
  lemma NoResponseClassified(request: bool)
    ensures HandleError(HttpError(None, request)) == (if request then NoConnection else RequestError)
  {
  }

  /** The message names the class of failure: only a response can carry a text of the server's own. */
  lemma ClassifiedText(e: HttpError)
    ensures var r := HandleError(e);
      r in {ServerError, NoConnection, RequestError} || (e.response.Some? && e.response.value.message == Some(r))
    ensures e.response.None? ==> HandleError(e) in {NoConnection, RequestError}
  {
  }

  /** The service's methods. */
  datatype Operation =
    | CreateBackup
    | ListBackups
    | GetBackupInfo
    | DownloadBackup(fileName: string)
    | DeleteBackup(fileName: string)
    | RestoreBackup(fileName: string)

  /** How a method's request ends: the response's `data`, or an axios error. */
  datatype Outcome = Answered(data: string) | Failed(error: HttpError)

  /** What a method returns, or the message of the error it throws. */
  datatype Completion = Returned(data: string) | Downloaded(message: string) | Thrown(message: string)

  const DownloadMessage: string := "Backup descargado correctamente"

  /** A service method: the reply's data (a download reports success instead), or the classified error. */
  function Perform(op: Operation, outcome: Outcome): (r: Completion)
    ensures r.Thrown? <==> outcome.Failed?
    ensures r.Thrown? ==> r.message == HandleError(outcome.error)
    ensures r.Downloaded? <==> outcome.Answered? && op.DownloadBackup?
  {
    match outcome
    case Answered(data) => if op.DownloadBackup? then Downloaded(DownloadMessage) else Returned(data)
    case Failed(e) => Thrown(HandleError(e))
  }

  /** Every method throws exactly when its request failed, and then the classified message, never the raw error. */
  lemma ThrowsClassified(op: Operation, outcome: Outcome)
    ensures Perform(op, outcome).Thrown? <==> outcome.Failed?
    ensures outcome.Failed? ==> Perform(op, outcome).message == HandleError(outcome.error)
    ensures outcome.Answered? && !op.DownloadBackup? ==> Perform(op, outcome) == Returned(outcome.data)
  {
  }

  /**
   * `toFixed(1)` of `sizeKB / unit`, as a count of tenths: the nearest tenth, the larger one on a
   * tie. A whole number of KB divided by a power of two is exact in a double, so nothing is lost
   * before the rounding.
   */
  function Tenths(sizeKB: nat, unit: nat): (t: nat)
    requires unit > 0
    ensures -(unit as int) <= 20 * sizeKB - 2 * unit * t < unit
  {
    (20 * sizeKB + unit) / (2 * unit)
  }

  /** The text `toFixed(1)` prints for a count of tenths: the whole part, a point, one digit. */
  function Fixed1(t: nat): string {
    NatToString(t / 10) + "." + [DigitChar(t % 10)]
  }

  /** `formatFileSize`: KB as the number prints, MB and GB with one decimal. */
  function FormatFileSize(sizeKB: int): (r: string)
    ensures |r| >= 4 && r[|r| - 3..] in {" KB", " MB", " GB"}
  {
    if sizeKB < 1024 then IntToString(sizeKB) + " KB"
    else if sizeKB < 1024 * 1024 then Fixed1(Tenths(sizeKB, 1024)) + " MB"
    else Fixed1(Tenths(sizeKB, 1024 * 1024)) + " GB"
  }

  /** The unit a formatted size ends with, ranked KB, MB, GB. */
  function Rank(r: string): nat
    requires |r| >= 3
  {
    if r[|r| - 3..] == " KB" then 0 else if r[|r| - 3..] == " MB" then 1 else 2
  }

  /** Exactly one unit is chosen, by the half-open ranges [.., 1024), [1024, 1048576), [1048576, ..). */
  lemma SizeTiers(sizeKB: int)
    ensures var r := FormatFileSize(sizeKB);
      && (r[|r| - 3..] == " KB" <==> sizeKB < 1024)
      && (r[|r| - 3..] == " MB" <==> 1024 <= sizeKB < 1048576)
      && (r[|r| - 3..] == " GB" <==> 1048576 <= sizeKB)
  {
  }

  /** So 1023 KB stays in KB, 1024 KB is "1.0 MB", and 1048576 KB is "1.0 GB". */
  lemma SizeBoundaries()
    ensures FormatFileSize(1023) == "1023 KB"
    ensures FormatFileSize(1024) == "1.0 MB" && FormatFileSize(1048576) == "1.0 GB"
    ensures Rank(FormatFileSize(1048575)) == 1
  {
    assert FormatFileSize(1023) == "1023 KB" by {
      assert NatToString(1023) == NatToString(102) + "3" == NatToString(10) + "23" == "1023";
    }
    assert Fixed1(10) == "1.0";
    assert FormatFileSize(1024) == "1.0 MB" by { assert Tenths(1024, 1024) == 10; }
    assert FormatFileSize(1048576) == "1.0 GB" by { assert Tenths(1048576, 1048576) == 10; }
    SizeTiers(1048575);
  }

  /** A bigger size never gets a smaller unit. */
  lemma SizeTierMonotone(a: int, b: int)
    requires a <= b
    ensures Rank(FormatFileSize(a)) <= Rank(FormatFileSize(b))
  {
    SizeTiers(a);
    SizeTiers(b);
  }

  /** Below 1024 KB a natural size prints as its decimal numeral followed by " KB". */
  lemma KilobyteText(sizeKB: nat)
    requires sizeKB < 1024
    ensures var t := FormatFileSize(sizeKB);
      |t| > 3 && t[|t| - 3..] == " KB" && AllDigits(t[..|t| - 3]) && DigitsValue(t[..|t| - 3]) == sizeKB
  {
    var t := FormatFileSize(sizeKB);
    assert t[..|t| - 3] == NatToString(sizeKB);
    NatToStringValue(sizeKB);
  }

  /** `Fixed1(t)` followed by a unit reads back as `t` tenths: digits, a point, one digit. */
  lemma Fixed1Reads(t: nat, unit: string)
    requires |unit| == 3
    ensures var r := Fixed1(t) + unit; var i := |r| - 5;
      && i >= 1 && r[i] == '.' && r[|r| - 3..] == unit && AllDigits(r[..i]) && IsDigit(r[i + 1])
      && DigitsValue(r[..i]) * 10 + (r[i + 1] as int - '0' as int) == t
  {
    var r := Fixed1(t) + unit;
    var i := |r| - 5;
    assert r[..i] == NatToString(t / 10);
    NatToStringValue(t / 10);
  }

  /**
   * From 1024 KB on, the number before the unit, read as whole part and tenth, is the size in MB
   * (below 1048576 KB) or GB rounded to the nearest tenth, a tie rounded up.
   */
  lemma LargeSizeText(sizeKB: nat)
    requires 1024 <= sizeKB
    ensures var r := FormatFileSize(sizeKB); var i := |r| - 5;
      var unit := if sizeKB < 1048576 then 1024 else 1048576;
      && i >= 1 && r[i] == '.' && AllDigits(r[..i]) && IsDigit(r[i + 1])
      && var t := DigitsValue(r[..i]) * 10 + (r[i + 1] as int - '0' as int);
         -unit <= 20 * sizeKB - 2 * unit * t < unit
  {
    if sizeKB < 1048576 {
      Fixed1Reads(Tenths(sizeKB, 1024), " MB");
    } else {
      Fixed1Reads(Tenths(sizeKB, 1048576), " GB");
    }
  }

  /** What the widget holds once `getBackupInfo` answered: `totalBackups`, when the reply has it. */
  datatype BackupInfo = BackupInfo(totalBackups: Option<int>)

  /** `getStatusColor`: `null` or 0 backups is 'danger', fewer than 3 'warning', otherwise 'success'. */
  function StatusColor(info: Option<BackupInfo>): (r: string)
    ensures r in {"danger", "warning", "success"}
    ensures r == "danger" <==> info.None? || info.value.totalBackups == Some(0)
    ensures r == "warning" <==> info.Some? && info.value.totalBackups.Some? && 0 != info.value.totalBackups.value < 3
  {
    if info.None? || info.value.totalBackups == Some(0) then "danger"
    else if info.value.totalBackups.Some? && info.value.totalBackups.value < 3 then "warning"
    else "success"
  }

  /** `getStatusMessage`, with the same tests. */
  function StatusMessage(info: Option<BackupInfo>): (r: string)
    ensures r in {"Sin backups disponibles", "Pocos backups disponibles", "Sistema de backup activo"}
    ensures r == "Sin backups disponibles" <==> info.None? || info.value.totalBackups == Some(0)
    ensures r == "Pocos backups disponibles" <==> info.Some? && info.value.totalBackups.Some? && 0 != info.value.totalBackups.value < 3
  {
    if info.None? || info.value.totalBackups == Some(0) then "Sin backups disponibles"
    else if info.value.totalBackups.Some? && info.value.totalBackups.value < 3 then "Pocos backups disponibles"
    else "Sistema de backup activo"
  }

  /** The colours from worst to best. */
  function ColorRank(color: string): nat {
    if color == "danger" then 0 else if color == "warning" then 1 else 2
  }

  /** Colour and message always come from the same tier. */
  lemma SameTier(info: Option<BackupInfo>)
    ensures StatusColor(info) == "danger" <==> StatusMessage(info) == "Sin backups disponibles"
    ensures StatusColor(info) == "warning" <==> StatusMessage(info) == "Pocos backups disponibles"
    ensures StatusColor(info) == "success" <==> StatusMessage(info) == "Sistema de backup activo"
  {
  }

  /** The tiers by count: none, one or two, three or more. */
  lemma CountTiers(n: nat)
    ensures var info := Some(BackupInfo(Some(n)));
      StatusColor(info) == (if n == 0 then "danger" else if n < 3 then "warning" else "success")
  {
  }

  /** More backups never give a worse colour. */
  lemma StatusMonotone(a: nat, b: nat)
    requires a <= b
    ensures ColorRank(StatusColor(Some(BackupInfo(Some(a))))) <= ColorRank(StatusColor(Some(BackupInfo(Some(b)))))
  {
  }

  /** A reply without `totalBackups` passes both tests (`undefined === 0` and `undefined < 3` are false): 'success'. */
  lemma MissingCountLooksActive()
    ensures StatusColor(Some(BackupInfo(None))) == "success"
    ensures StatusMessage(Some(BackupInfo(None))) == "Sistema de backup activo"
  {
  }
}
