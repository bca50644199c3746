/**
 * Event classification done by `gen_metadata_payload` and
 * `sysevent_dispatch_notification`: the priority class of a numeric syslog
 * severity, its text label, and the notification severity.
 */
module Classify {
  import opened Wrappers

  /** The severities of section 6.2.1 of RFC 5424, with numeric codes 0 to 7. */
  datatype SyslogSeverity =
    | Emergency | Alert | Critical | Error | Warning | Notice | Informational | Debug

  function Code(s: SyslogSeverity): int {
    match s
    case Emergency => 0
    case Alert => 1
    case Critical => 2
    case Error => 3
    case Warning => 4
    case Notice => 5
    case Informational => 6
    case Debug => 7
  }

  /** The severity a numeric code names, if any. */
  function SeverityOfCode(n: int): (r: Option<SyslogSeverity>)
    ensures r.Some? <==> 0 <= n <= 7
    ensures r.Some? ==> Code(r.value) == n
  {
    match n
    case 0 => Some(Emergency)
    case 1 => Some(Alert)
    case 2 => Some(Critical)
    case 3 => Some(Error)
    case 4 => Some(Warning)
    case 5 => Some(Notice)
    case 6 => Some(Informational)
    case 7 => Some(Debug)
    case _ => None
  }

  lemma SeverityCodeRoundTrip(s: SyslogSeverity)
    ensures SeverityOfCode(Code(s)) == Some(s)
  {
  }

  /** The four priority classes of the event header. */
  datatype Priority = Medium | Normal | Low | Unknown

  /**
   * The `switch (sev_num)` of `gen_metadata_payload`. Every integer gets a
   * class; -1 is what the caller passes when no numeric severity is known.
   */
  function PriorityOf(sevNum: int): (p: Priority)
    ensures p != Unknown <==> SeverityOfCode(sevNum).Some? && Code(SeverityOfCode(sevNum).value) >= 4
  {
    match sevNum
    case 4 => Medium
    case 5 => Normal
    case 6 => Low
    case 7 => Low
    case _ => Unknown
  }

  /**
   * The classification read against the severities of RFC 5424: warning is
   * medium, notice is normal, informational and debug are low, and the four
   * most severe levels as well as every code outside 0..7 are unknown.
   */
  lemma PriorityBySeverity(n: int)
    ensures PriorityOf(n) == match SeverityOfCode(n)
      case Some(Warning) => Medium
      case Some(Notice) => Normal
      case Some(Informational) => Low
      case Some(Debug) => Low
      case _ => Unknown
  {
  }

  /** Each class names one set of codes, so the table leaves no code unclassified. */
  lemma PriorityClasses(n: int)
    ensures PriorityOf(n) == Medium <==> n == 4
    ensures PriorityOf(n) == Normal <==> n == 5
    ensures PriorityOf(n) == Low <==> n == 6 || n == 7
    ensures PriorityOf(n) == Unknown <==> n < 4 || n > 7
  {
  }

  /** The label the header carries for each class. */
  function PriorityLabel(p: Priority): (text: string)
    ensures ParsePriority(text) == Some(p)
  {
    match p
    case Medium => "medium"
    case Normal => "normal"
    case Low => "low"
    case Unknown => "unknown"
  }

  /** The class a label names, if any. */
  function ParsePriority(text: string): (r: Option<Priority>) {
    if text == "medium" then Some(Medium)
    else if text == "normal" then Some(Normal)
    else if text == "low" then Some(Low)
    else if text == "unknown" then Some(Unknown)
    else None
  }

  /**
   * `snprintf(dst, size, "%s", s)`: at most `size - 1` characters of `s` are
   * written before the terminating NUL; nothing is written when `size` is 0.
   */
  function Snprintf(size: nat, s: string): (r: string)
    ensures |r| < size || size == 0
    ensures r <= s
    ensures |s| < size ==> r == s
    ensures size == 0 ==> r == ""
    ensures 0 < size <= |s| ==> |r| == size - 1
  {
    if size == 0 then "" else if |s| < size then s else s[..size - 1]
  }

  /**
   * The label as src/sysevent.c writes it: the size given to `snprintf` is
   * the label's `strlen`, which leaves no room for the NUL.
   */
  function PriorityLabelAsWritten(p: Priority): string {
    Snprintf(|PriorityLabel(p)|, PriorityLabel(p))
  }

  /** Every label loses its last character, so none of them reads back. */
  lemma PriorityLabelAsWrittenTruncates(p: Priority)
    ensures PriorityLabelAsWritten(p) == PriorityLabel(p)[..|PriorityLabel(p)| - 1]
    ensures ParsePriority(PriorityLabelAsWritten(p)) == None
    ensures PriorityLabelAsWritten(Medium) == "mediu"
  {
    assert "medium"[..5] == "mediu";
    assert "normal"[..5] == "norma";
    assert "low"[..2] == "lo";
    assert "unknown"[..6] == "unknow";
  }

  /** `notification_t` severities used by the plugin. */
  datatype NotifSeverity = Okay | Failure

  /**
   * The notification severity: OKAY unless the payload has a `severity-num`
   * field whose integer value (by `atoi`) is below 4.
   */
  function NotificationSeverity(sevNumField: Option<string>, atoi: string -> int): (r: NotifSeverity)
    ensures r == Failure <==> sevNumField.Some? && atoi(sevNumField.value) < 4
  {
    if sevNumField.Some? && atoi(sevNumField.value) < 4 then Failure else Okay
  }

  /** The numeric severity handed to the payload: the parsed field, or -1 when absent. */
  function SeverityNumber(sevNumField: Option<string>, atoi: string -> int): (n: int)
    ensures sevNumField.None? ==> n == -1
    ensures sevNumField.Some? ==> n == atoi(sevNumField.value)
  {
    if sevNumField.Some? then atoi(sevNumField.value) else -1
  }

  /**
   * A FAILURE notification always carries the unknown priority class, and a
   * notification whose severity field is present but stays OKAY is never
   * unknown below 4.
   */
  lemma FailureIsUnknownPriority(sevNumField: Option<string>, atoi: string -> int)
    ensures NotificationSeverity(sevNumField, atoi) == Failure ==>
              PriorityOf(SeverityNumber(sevNumField, atoi)) == Unknown
    ensures sevNumField.Some? && NotificationSeverity(sevNumField, atoi) == Okay ==>
              SeverityNumber(sevNumField, atoi) >= 4
  {
  }
}
