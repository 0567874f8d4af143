/**
 * The local logic of `save_conversation_to_gcp`: the missing-identifier
 * guard, the record (message rows followed by five metadata rows), the
 * duration, and the name under which the record is uploaded. Writing the
 * CSV file and uploading it are one external step, passed in as `store`.
 */
module Recorder {
  import opened Wrappers
  import Text
  import Clock
  import Modes

  /** One stored chat message, `{"role": ..., "content": ...}`. */
  datatype Turn = Turn(role: string, content: string)

  /** The `content` column of a record row. */
  datatype Cell =
    | TextCell(text: string)
    | TimeCell(at: Clock.DateTime)
    | DurationCell(micros: int)

  /** One row of the saved table: its `role` column and its `content` column. */
  datatype Row = Row(role: string, content: Cell)

  /** What the external write-and-upload step reports. */
  datatype IoOutcome = Completed | Raised(message: string)

  /** The pair `save_conversation_to_gcp` returns: `(file_name, None)` or `(None, error)`. */
  datatype SaveReport = SaveReport(fileName: Option<string>, error: Option<string>)

  const METADATA_LABELS := ["Mode", "Player Role", "Start Time", "End Time", "Duration"]

  const MISSING_PID := "missing_pid"

  const FILE_PREFIX := "beergame_"
  const QUALITATIVE_SUFFIX := "qualitative"
  const QUANTITATIVE_SUFFIX := "quantitative"
  const PID_MARK := "_P"
  const CSV_EXTENSION := ".csv"

  // The record

  function TurnRows(messages: seq<Turn>): seq<Row> {
    seq(|messages|, i requires 0 <= i < |messages| => Row(messages[i].role, TextCell(messages[i].content)))
  }

  function MetadataRows(mode: string, role: string, start: Clock.DateTime, end: Clock.DateTime): seq<Row> {
    [ Row(METADATA_LABELS[0], TextCell(mode)),
      Row(METADATA_LABELS[1], TextCell(role)),
      Row(METADATA_LABELS[2], TimeCell(start)),
      Row(METADATA_LABELS[3], TimeCell(end)),
      Row(METADATA_LABELS[4], DurationCell(Clock.Duration(start, end))) ]
  }

  /**
   * The saved table: every message in its original order, then exactly five
   * metadata rows labelled Mode, Player Role, Start Time, End Time, Duration.
   */
  function BuildRecord(messages: seq<Turn>, mode: string, role: string,
                       start: Clock.DateTime, end: Clock.DateTime): (rows: seq<Row>)
    ensures |rows| == |messages| + 5
    ensures forall i | 0 <= i < |messages| ::
              rows[i].role == messages[i].role && rows[i].content == TextCell(messages[i].content)
    ensures forall k | 0 <= k < 5 :: rows[|messages| + k].role == METADATA_LABELS[k]
    ensures rows[|messages|].content == TextCell(mode)
    ensures rows[|messages| + 1].content == TextCell(role)
    ensures rows[|messages| + 2].content == TimeCell(start)
    ensures rows[|messages| + 3].content == TimeCell(end)
    ensures rows[|messages| + 4].content == DurationCell(Clock.Duration(start, end))
  {
    TurnRows(messages) + MetadataRows(mode, role, start, end)
  }

  /** Everything a saved table holds about the session it was written from. */
  datatype Snapshot = Snapshot(messages: seq<Turn>, mode: string, role: string,
                               start: Clock.DateTime, end: Clock.DateTime)

  predicate IsTextRow(row: Row) {
    row.content.TextCell?
  }

  /**
   * Reads a saved table back: all rows but the last five are messages, and
   * the last five must be the metadata rows in their fixed order, with a
   * duration that agrees with the two times.
   */
  function ReadRecord(rows: seq<Row>): Option<Snapshot> {
    if |rows| < 5 then None
    else
      var n := |rows| - 5;
      var body := rows[..n];
      if && (forall i | 0 <= i < n :: IsTextRow(body[i]))
         && (forall k | 0 <= k < 5 :: rows[n + k].role == METADATA_LABELS[k])
         && rows[n].content.TextCell? && rows[n + 1].content.TextCell?
         && rows[n + 2].content.TimeCell? && rows[n + 3].content.TimeCell?
         && rows[n + 4].content == DurationCell(Clock.Duration(rows[n + 2].content.at, rows[n + 3].content.at))
      then
        Some(Snapshot(seq(n, i requires 0 <= i < n && IsTextRow(body[i]) => Turn(body[i].role, body[i].content.text)),
                      rows[n].content.text, rows[n + 1].content.text,
                      rows[n + 2].content.at, rows[n + 3].content.at))
      else
        None
  }

  /** Nothing is lost in the table: the messages and the metadata can be read back from it. */
  lemma RecordRoundTrip(messages: seq<Turn>, mode: string, role: string,
                        start: Clock.DateTime, end: Clock.DateTime)
    ensures ReadRecord(BuildRecord(messages, mode, role, start, end))
         == Some(Snapshot(messages, mode, role, start, end))
  {
    var rows := BuildRecord(messages, mode, role, start, end);
    var n := |messages|;
    assert rows[..n] == TurnRows(messages);
    assert forall i | 0 <= i < n :: IsTextRow(rows[..n][i]);
    var back := seq(n, i requires 0 <= i < n && IsTextRow(rows[..n][i]) =>
                         Turn(rows[..n][i].role, rows[..n][i].content.text));
    assert back == messages;
  }

  // The file name

  /** The mode part of the file name: qualitative only for the exact qualitative key. */
  function ModeSuffix(modeKey: string): (suffix: string)
    ensures suffix == QUALITATIVE_SUFFIX <==> modeKey == Modes.QUALITATIVE_MODE
    ensures suffix == QUANTITATIVE_SUFFIX <==> modeKey != Modes.QUALITATIVE_MODE
  {
    assert QUALITATIVE_SUFFIX[3] != QUANTITATIVE_SUFFIX[3];
    if modeKey == Modes.QUALITATIVE_MODE then QUALITATIVE_SUFFIX else QUANTITATIVE_SUFFIX
  }

  function NameHead(suffix: string): string {
    FILE_PREFIX + suffix + PID_MARK
  }

  /**
   * `beergame_<suffix>_P<pid>_<YYYYMMDD_HHMMSS>.csv`: the head naming the
   * mode family, the identifier as given, then an underscore, the end
   * time's stamp and the extension.
   */
  function FileName(modeKey: string, pid: string, end: Clock.DateTime): (name: string)
    ensures var head := NameHead(ModeSuffix(modeKey));
            var tail := "_" + Clock.Stamp(end) + CSV_EXTENSION;
            && |tail| == 20
            && |name| == |head| + |pid| + |tail|
            && name[..|head|] == head
            && name[|head|..|head| + |pid|] == pid
            && name[|head| + |pid|..] == tail
  {
    var head := NameHead(ModeSuffix(modeKey));
    var stamp := Clock.Stamp(end);
    Text.Regroup(head, pid, "_", stamp, CSV_EXTENSION);
    Text.ThreeParts(head, pid, "_" + stamp + CSV_EXTENSION);
    head + pid + "_" + stamp + CSV_EXTENSION
  }

  /** What a file name says about the save that produced it. */
  datatype NameParts = NameParts(qualitative: bool, pid: string, savedAt: Clock.Civil)

  /** Reads the end of a file name after its head: `<pid>_<stamp>.csv`. */
  function ReadNameTail(qualitative: bool, rest: string): Option<NameParts> {
    if |rest| >= 20 && rest[|rest| - 20] == '_' && rest[|rest| - 4..] == CSV_EXTENSION then
      match Clock.ParseStamp(rest[|rest| - 19..|rest| - 4])
      case Some(t) => Some(NameParts(qualitative, rest[..|rest| - 20], t))
      case None => None
    else
      None
  }

  function ParseFileName(name: string): Option<NameParts> {
    var qual, quant := NameHead(QUALITATIVE_SUFFIX), NameHead(QUANTITATIVE_SUFFIX);
    if |qual| <= |name| && name[..|qual|] == qual then ReadNameTail(true, name[|qual|..])
    else if |quant| <= |name| && name[..|quant|] == quant then ReadNameTail(false, name[|quant|..])
    else None
  }

  lemma ReadNameTailRoundTrip(qualitative: bool, pid: string, end: Clock.DateTime)
    ensures ReadNameTail(qualitative, pid + ("_" + Clock.Stamp(end) + CSV_EXTENSION))
         == Some(NameParts(qualitative, pid, end.(microsecond := 0)))
  {
    var stamp := Clock.Stamp(end);
    var rest := pid + ("_" + stamp + CSV_EXTENSION);
    assert rest[|rest| - 20] == '_';
    assert rest[|rest| - 4..] == CSV_EXTENSION;
    assert rest[|rest| - 19..|rest| - 4] == stamp;
    assert rest[..|rest| - 20] == pid;
    Clock.StampRoundTrip(end);
  }

  /** A text from a cut onward is its piece up to a second cut followed by the rest. */
  lemma RejoinAt(w: string, i: nat, j: nat)
    requires i <= j <= |w|
    ensures w[i..] == w[i..j] + w[j..]
  {
  }

  /**
   * A file name determines the mode family, the identifier and the end time
   * (to the second) of the save that produced it, so two saves that differ
   * in any of these never overwrite each other.
   */
  lemma FileNameRoundTrip(modeKey: string, pid: string, end: Clock.DateTime)
    ensures ParseFileName(FileName(modeKey, pid, end))
         == Some(NameParts(modeKey == Modes.QUALITATIVE_MODE, pid, end.(microsecond := 0)))
  {
    var head := NameHead(ModeSuffix(modeKey));
    var tail := "_" + Clock.Stamp(end) + CSV_EXTENSION;
    var name := FileName(modeKey, pid, end);
    RejoinAt(name, |head|, |head| + |pid|);
    assert name[|head|..] == pid + tail;
    ReadNameTailRoundTrip(modeKey == Modes.QUALITATIVE_MODE, pid, end);
    var qual := NameHead(QUALITATIVE_SUFFIX);
    HeadsDiffer();
    if modeKey == Modes.QUALITATIVE_MODE {
      assert head == qual;
      assert ParseFileName(name) == ReadNameTail(true, pid + tail);
    } else {
      assert head == NameHead(QUANTITATIVE_SUFFIX);
      assert name[12] == name[..|head|][12] == head[12];
      assert |qual| <= |name| ==> name[..|qual|][12] != qual[12];
      assert ParseFileName(name) == ReadNameTail(false, pid + tail);
    }
  }

  lemma HeadsDiffer()
    ensures |NameHead(QUALITATIVE_SUFFIX)| == 22 && |NameHead(QUANTITATIVE_SUFFIX)| == 23
    ensures NameHead(QUALITATIVE_SUFFIX)[12] == 'l' && NameHead(QUANTITATIVE_SUFFIX)[12] == 'n'
  {
    assert NameHead(QUALITATIVE_SUFFIX)[12] == QUALITATIVE_SUFFIX[3];
    assert NameHead(QUANTITATIVE_SUFFIX)[12] == QUANTITATIVE_SUFFIX[3];
  }

  /** Distinct saves get distinct names. */
  lemma FileNamesDistinct(m1: string, p1: string, e1: Clock.DateTime,
                          m2: string, p2: string, e2: Clock.DateTime)
    requires FileName(m1, p1, e1) == FileName(m2, p2, e2)
    ensures (m1 == Modes.QUALITATIVE_MODE) == (m2 == Modes.QUALITATIVE_MODE)
    ensures p1 == p2
    ensures e1.(microsecond := 0) == e2.(microsecond := 0)
  {
    FileNameRoundTrip(m1, p1, e1);
    FileNameRoundTrip(m2, p2, e2);
  }

  // Saving

  /**
   * `str(KeyError(key))` for a key without quotes or escapes: the key in
   * single quotes. It is never empty and never "missing_pid", so a caller
   * cannot mistake it for success or for the missing-identifier signal.
   */
  function KeyErrorText(key: string): (text: string)
    ensures |text| == |key| + 2 && text[1..|text| - 1] == key
    ensures text[0] == '\'' && text[|text| - 1] == '\''
    ensures text != "" && text != MISSING_PID
  {
    assert MISSING_PID[0] == 'm';
    "'" + key + "'"
  }

  /**
   * `save_conversation_to_gcp(messages_to_save, mode_key, pid, player_role_to_save)`
   * with the session's start times passed in, the current time passed in as
   * `endTime`, and the CSV write and upload as the external step `store`,
   * which receives the file name and the table.
   */
  function SaveConversation(messagesToSave: seq<Turn>, modeKey: string, pid: Option<string>,
                            roleToSave: string, startTimeByMode: map<string, Clock.DateTime>,
                            endTime: Clock.DateTime, store: (string, seq<Row>) -> IoOutcome)
    : (report: SaveReport)
    ensures report.fileName.Some? <==> report.error.None?
  {
    if Text.Blank(pid) then
      SaveReport(None, Some(MISSING_PID))
    else if modeKey !in startTimeByMode then
      SaveReport(None, Some(KeyErrorText(modeKey)))
    else
      var start := startTimeByMode[modeKey];
      var name := FileName(modeKey, pid.value, endTime);
      match store(name, BuildRecord(messagesToSave, modeKey, roleToSave, start, endTime))
      case Completed => SaveReport(Some(name), None)
      case Raised(message) => SaveReport(None, Some(message))
  }

  /**
   * Without an identifier the save fails fast with "missing_pid": the
   * result depends neither on the clock nor on the store, so nothing is
   * timed, built, written or uploaded.
   */
  lemma MissingPidFailsFast(messagesToSave: seq<Turn>, modeKey: string, pid: Option<string>,
                            roleToSave: string, startTimeByMode: map<string, Clock.DateTime>,
                            endTime: Clock.DateTime, store: (string, seq<Row>) -> IoOutcome)
    requires Text.Blank(pid)
    ensures SaveConversation(messagesToSave, modeKey, pid, roleToSave, startTimeByMode, endTime, store)
         == SaveReport(None, Some(MISSING_PID))
  {
  }

  /**
   * With an identifier and a known mode, the store receives the record and
   * the derived name; the save reports that name exactly when the store
   * completes, and the store's error text otherwise.
   */
  lemma SaveHandsRecordToStore(messagesToSave: seq<Turn>, modeKey: string, pid: string,
                               roleToSave: string, startTimeByMode: map<string, Clock.DateTime>,
                               endTime: Clock.DateTime, store: (string, seq<Row>) -> IoOutcome)
    requires pid != "" && modeKey in startTimeByMode
    ensures var name := FileName(modeKey, pid, endTime);
            var rows := BuildRecord(messagesToSave, modeKey, roleToSave, startTimeByMode[modeKey], endTime);
            var report := SaveConversation(messagesToSave, modeKey, Some(pid), roleToSave,
                                           startTimeByMode, endTime, store);
            && (report.fileName == Some(name) <==> store(name, rows) == Completed)
            && (store(name, rows).Raised? ==> report.error == Some(store(name, rows).message))
            && |rows| == |messagesToSave| + 5
            && rows[|messagesToSave| + 4].content
               == DurationCell(Clock.Duration(startTimeByMode[modeKey], endTime))
  {
  }

  // How the host reports a save to the user

  /** What the sidebar shows after a save. */
  datatype SaveNotice = AskForPid | ShowFailure(message: string) | ShowSaved(fileName: Option<string>)

  /** The host's reading of a save report as written: an empty error text counts as no error. */
  function NoticeAsWritten(report: SaveReport): (notice: SaveNotice)
    ensures notice == AskForPid <==> report.error == Some(MISSING_PID)
    ensures notice.ShowFailure? <==> report.error.Some? && report.error.value !in {"", MISSING_PID}
    ensures notice.ShowFailure? ==> report.error == Some(notice.message)
    ensures notice.ShowSaved? <==> report.error.None? || report.error == Some("")
    ensures notice.ShowSaved? ==> notice.fileName == report.fileName
  {
    if report.error == Some(MISSING_PID) then AskForPid
    else if report.error.Some? && report.error.value != "" then ShowFailure(report.error.value)
    else ShowSaved(report.fileName)
  }

  /** A store failure whose message is empty is announced as a successful save of file `None`. */
  lemma EmptyErrorReadsAsSaved(messagesToSave: seq<Turn>, modeKey: string, pid: string,
                               roleToSave: string, startTimeByMode: map<string, Clock.DateTime>,
                               endTime: Clock.DateTime)
    requires pid != "" && modeKey in startTimeByMode
    ensures NoticeAsWritten(SaveConversation(messagesToSave, modeKey, Some(pid), roleToSave,
                                             startTimeByMode, endTime, (n, r) => Raised("")))
         == ShowSaved(None)
  {
  }

  /** The host's reading of a save report, deciding on the presence of an error rather than its text. */
  function Notice(report: SaveReport): (notice: SaveNotice)
    ensures notice == AskForPid <==> report.error == Some(MISSING_PID)
    ensures notice.ShowFailure? <==> report.error.Some? && report.error.value != MISSING_PID
    ensures notice.ShowFailure? ==> report.error == Some(notice.message)
    ensures notice.ShowSaved? <==> report.error.None?
    ensures notice.ShowSaved? ==> notice.fileName == report.fileName
  {
    match report.error
    case Some(e) => if e == MISSING_PID then AskForPid else ShowFailure(e)
    case None => ShowSaved(report.fileName)
  }

  /** A save is announced as saved exactly when the store completed, and then with the file's name. */
  lemma NoticeSavedOnlyAfterUpload(messagesToSave: seq<Turn>, modeKey: string, pid: Option<string>,
                                   roleToSave: string, startTimeByMode: map<string, Clock.DateTime>,
                                   endTime: Clock.DateTime, store: (string, seq<Row>) -> IoOutcome)
    ensures var notice := Notice(SaveConversation(messagesToSave, modeKey, pid, roleToSave,
                                                  startTimeByMode, endTime, store));
            notice.ShowSaved? <==>
              && !Text.Blank(pid) && modeKey in startTimeByMode
              && var name := FileName(modeKey, pid.value, endTime);
                 && store(name, BuildRecord(messagesToSave, modeKey, roleToSave,
                                            startTimeByMode[modeKey], endTime)) == Completed
                 && notice == ShowSaved(Some(name))
  {
  }
}
