// VoiceInk-ios/NoteRowView.swift: what one row of the notes list shows for
// a record, and the `mm:ss` rendering of a duration it shares with
// NotesListView.swift.
module NoteRow {
  import opened Base
  import Records

  /** The SF Symbol name for a status. */
  function StatusIcon(status: Records.TranscriptionStatus): (icon: string)
    ensures icon != []
  {
    match status
    case Pending => "clock"
    case Completed => "waveform"
    case Failed => "exclamationmark.triangle"
  }

  datatype Tint = Orange | Blue | Red

  function StatusColor(status: Records.TranscriptionStatus): Tint {
    match status
    case Pending => Orange
    case Completed => Blue
    case Failed => Red
  }

  /** Each status has its own icon and its own colour, so a row's status
      can be read off either. */
  lemma StatusShownDistinctly(a: Records.TranscriptionStatus, b: Records.TranscriptionStatus)
    ensures StatusIcon(a) == StatusIcon(b) <==> a == b
    ensures StatusColor(a) == StatusColor(b) <==> a == b
  {
  }

  const PendingMessage: string := "Transcription pending..."
  const FailedMessage: string := "Transcription failed - tap to retry"
  const EmptyTranscriptMessage: string := "No audible content detected."

  /** The row's second line: a fixed message unless the record is
      completed, and then the transcript, with a placeholder for an empty
      one. */
  function TranscriptText(status: Records.TranscriptionStatus, transcript: string): (t: string)
    ensures t != []
    ensures status == Records.Completed && transcript != [] ==> t == transcript
    ensures status == Records.Completed && transcript == [] ==> t == EmptyTranscriptMessage
    ensures status == Records.Pending ==> t == PendingMessage
    ensures status == Records.Failed ==> t == FailedMessage
  {
    match status
    case Pending => PendingMessage
    case Failed => FailedMessage
    case Completed => if transcript == [] then EmptyTranscriptMessage else transcript
  }

  /** The headline: an untitled record reads "New note". */
  function Title(title: string): (t: string)
    ensures t != []
    ensures title != [] ==> t == title
  {
    if title == [] then "New note" else title
  }

  // ---------------------------------------------------------------------------
  // `timeString`: `Int(seconds)`, then `/` and `%` by 60, printed `%02d:%02d`

  /** `Int(x)` for a `Double`: the fraction is cut off toward zero. */
  function TruncateToInt(x: real): (n: int)
    ensures 0.0 <= x ==> n == x.Floor
    ensures x < 0.0 ==> n == -((-x).Floor) && n <= 0
  {
    if x >= 0.0 then x.Floor else -((-x).Floor)
  }

  /** Swift's `/` on `Int`: the quotient rounded toward zero. */
  function TruncatingDiv(a: int, b: int): (q: int)
    requires b > 0
    ensures 0 <= a ==> q == a / b
    ensures a < 0 ==> q == -((-a) / b)
  {
    if a >= 0 then a / b else -((-a) / b)
  }

  /** Swift's `%` on `Int`: the remainder takes the dividend's sign. */
  function TruncatingRem(a: int, b: int): (r: int)
    requires b > 0
    ensures a == TruncatingDiv(a, b) * b + r
    ensures 0 <= a ==> 0 <= r < b
    ensures a < 0 ==> -b < r <= 0
  {
    a - TruncatingDiv(a, b) * b
  }

  /** `%02d`: at least two characters, zero padded. */
  function Pad2(n: int): (s: string)
    ensures |s| >= 2 && (0 <= n < 100 ==> |s| == 2)
    ensures 0 <= n ==> forall i :: 0 <= i < |s| ==> IsDigit(s[i])
  {
    if 0 <= n < 10 then ['0', DigitChar(n)]
    else if n >= 10 then NatToStringAtLeastTwo(n)
    else IntToString(n)
  }

  /** A number from 10 up prints with at least two digits. */
  function NatToStringAtLeastTwo(n: nat): (s: string)
    requires n >= 10
    ensures s == NatToString(n) && |s| >= 2 && (n < 100 ==> |s| == 2)
  {
    assert NatToString(n) == NatToString(n / 10) + [DigitChar(n % 10)];
    NatToString(n)
  }

  function TimeString(seconds: real): string {
    var s := TruncateToInt(seconds);
    var m := TruncatingDiv(s, 60);
    var r := TruncatingRem(s, 60);
    Pad2(m) + ":" + Pad2(r)
  }

  /** What `%02d` prints for a number from 0 up reads back as that number. */
  lemma Pad2Value(n: nat)
    ensures DigitsValue(Pad2(n)) == n
  {
    if n < 10 {
      var s := Pad2(n);
      assert s[..1] == "0";
      assert DigitsValue("0") == 10 * DigitsValue("") + 0;
    } else {
      NatToStringRoundTrip(n);
    }
  }

  /** For a duration from zero up, the label is whole minutes, a colon and
      exactly two digits of seconds below 60, and reading it back gives
      the whole seconds of the duration. */
  lemma TimeStringReadsBack(seconds: real)
    requires seconds >= 0.0
    ensures var t := TimeString(seconds);
      && |t| >= 5 && t[|t| - 3] == ':'
      && (forall i :: 0 <= i < |t| && i != |t| - 3 ==> IsDigit(t[i]))
      && DigitsValue(t[|t| - 2..]) < 60
      && DigitsValue(t[..|t| - 3]) * 60 + DigitsValue(t[|t| - 2..]) == seconds.Floor
  {
    var s := TruncateToInt(seconds);
    var m := TruncatingDiv(s, 60);
    var r := TruncatingRem(s, 60);
    var t := TimeString(seconds);
    assert |Pad2(r)| == 2;
    assert t[..|t| - 3] == Pad2(m);
    assert t[|t| - 2..] == Pad2(r);
    Pad2Value(m);
    Pad2Value(r);
  }

  /** `Int` and `/`, `%` truncate, so a negative duration keeps its sign in
      both fields rather than borrowing a minute. */
  lemma NegativeDurationRendering()
    ensures TimeString(-65.5) == "-1:-5"
  {
    assert TruncateToInt(-65.5) == -65;
    assert NatToString(1) == "1" && NatToString(5) == "5";
  }

  /** The duration label is shown only for a positive duration. */
  function DurationLabel(durationSeconds: real): (shown: Option<string>)
    ensures shown.Some? <==> durationSeconds > 0.0
    ensures shown.Some? ==> shown.value == TimeString(durationSeconds)
  {
    if durationSeconds > 0.0 then Some(TimeString(durationSeconds)) else None
  }
}
