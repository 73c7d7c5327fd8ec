/** `frontend/lib/status-mapper.ts`: the dashboard's translation of backend statuses and alert types into
    display categories, badge colours and labels, and its relative-time
    rendering of timestamps. */
module StatusMapper {
  import opened Common

  /** The display category of a backend bin status, ignoring letter case. */
  function MapBinStatus(backendStatus: string): (r: string)
    ensures r in {"critical", "warning", "normal", "offline"}
  {
    var s := LowerText(backendStatus);
    if s == "full" then "critical"
    else if s == "warning" then "warning"
    else if s == "offline" || s == "maintenance" then "offline"
    else "normal"
  }

  /** Lower-casing twice is lower-casing once. */
  lemma {:induction false} LowerTextIdempotent(s: string)
    ensures LowerText(LowerText(s)) == LowerText(s)
  {
    var l := LowerText(s);
    assert forall i :: 0 <= i < |s| ==> LowerText(l)[i] == AsciiLower(l[i]) == l[i];
  }

  /** Upper-casing first does not change the lower-case form. */
  lemma {:induction false} LowerOfUpper(s: string)
    ensures LowerText(UpperText(s)) == LowerText(s)
  {
    var u := UpperText(s);
    forall i | 0 <= i < |s|
      ensures LowerText(u)[i] == LowerText(s)[i]
    {
      if 'a' <= s[i] <= 'z' {
        assert u[i] as int == s[i] as int - 32;
      }
    }
  }

  /** The mapping depends only on the letters, not on their case. */
  lemma BinStatusCaseInsensitive(backendStatus: string)
    ensures MapBinStatus(LowerText(backendStatus)) == MapBinStatus(backendStatus)
    ensures MapBinStatus(UpperText(backendStatus)) == MapBinStatus(backendStatus)
  {
    LowerTextIdempotent(backendStatus);
    LowerOfUpper(backendStatus);
  }

  /** Which backend statuses land in which category. */
  lemma BinStatusCategories(backendStatus: string)
    ensures MapBinStatus(backendStatus) == "critical" <==> LowerText(backendStatus) == "full"
    ensures MapBinStatus(backendStatus) == "offline"
        <==> LowerText(backendStatus) in {"offline", "maintenance"}
    ensures MapBinStatus(backendStatus) == "normal"
        <==> LowerText(backendStatus) !in {"full", "warning", "offline", "maintenance"}
  {
  }

  /** The badge colour of a status; exact spelling only, with a muted fallback. */
  function StatusColor(status: string): (r: string)
    ensures status in {"critical", "full"} ==> r == "bg-destructive text-destructive-foreground"
    ensures status == "warning" ==> r == "bg-secondary text-secondary-foreground"
    ensures status in {"normal", "ok"} ==> r == "bg-primary text-primary-foreground"
    ensures status !in {"critical", "full", "warning", "normal", "ok"} ==> r == "bg-muted text-muted-foreground"
  {
    if status == "critical" || status == "full" then "bg-destructive text-destructive-foreground"
    else if status == "warning" then "bg-secondary text-secondary-foreground"
    else if status == "normal" || status == "ok" then "bg-primary text-primary-foreground"
    else "bg-muted text-muted-foreground"
  }

  /** The badge label of a status; exact spelling only, with "Unknown" as the fallback. */
  function StatusText(status: string): (r: string)
    ensures r == "Unknown" <==> status !in {"critical", "full", "warning", "normal", "ok", "offline", "maintenance"}
    ensures status in {"critical", "full"} ==> r == "Critical"
    ensures status == "warning" ==> r == "Warning"
    ensures status in {"normal", "ok"} ==> r == "Normal"
    ensures status == "offline" ==> r == "Offline"
    ensures status == "maintenance" ==> r == "Maintenance"
  {
    if status == "critical" || status == "full" then "Critical"
    else if status == "warning" then "Warning"
    else if status == "normal" || status == "ok" then "Normal"
    else if status == "offline" then "Offline"
    else if status == "maintenance" then "Maintenance"
    else "Unknown"
  }

  /** Backend and display spellings of the same state get the same badge. */
  lemma BackendAliases()
    ensures StatusColor("full") == StatusColor("critical") && StatusText("full") == StatusText("critical")
    ensures StatusColor("ok") == StatusColor("normal") && StatusText("ok") == StatusText("normal")
    ensures StatusColor("maintenance") == StatusColor("offline")
  {
  }

  /** A mapped bin status always has a known label, and for the backend's own
      status names (in any case) the badge colour agrees with the colour of
      the backend spelling. */
  lemma MappedStatusIsKnown(backendStatus: string)
    ensures StatusText(MapBinStatus(backendStatus)) != "Unknown"
    ensures LowerText(backendStatus) in {"full", "warning", "offline", "maintenance", "ok"}
        ==> StatusColor(MapBinStatus(backendStatus)) == StatusColor(LowerText(backendStatus))
  {
  }

  /** The severity shown for an alert type, ignoring letter case. */
  function MapAlertSeverity(alertType: string): (r: string)
    ensures r == "high" <==> LowerText(alertType) in {"fire", "overflow"}
    ensures r == "medium" <==> LowerText(alertType) == "spill"
    ensures r == "low" <==> LowerText(alertType) !in {"fire", "overflow", "spill"}
  {
    var t := LowerText(alertType);
    if t == "fire" || t == "overflow" then "high"
    else if t == "spill" then "medium"
    else "low"
  }

  /** Alert severity, like the bin status, ignores letter case. */
  lemma AlertSeverityCaseInsensitive(alertType: string)
    ensures MapAlertSeverity(UpperText(alertType)) == MapAlertSeverity(alertType)
  {
    LowerOfUpper(alertType);
  }

  const MillisPerMinute := 60000
  const MillisPerHour := 3600000
  const MillisPerDay := 86400000

  /** How long ago a timestamp was, in the unit the dashboard shows. */
  datatype Elapsed = JustNow | Minutes(n: int) | Hours(n: int) | Days(n: int) | Date

  /** The bucket of an elapsed time in milliseconds; a timestamp in the future
      counts as just now. Dafny's division by a positive constant is the floor
      division the dashboard performs. */
  function Bucket(diffMs: int): (b: Elapsed)
    ensures b == JustNow <==> diffMs < MillisPerMinute
    ensures b.Minutes? ==> 1 <= b.n < 60 && b.n * MillisPerMinute <= diffMs < (b.n + 1) * MillisPerMinute
    ensures b.Hours? ==> 1 <= b.n < 24 && b.n * MillisPerHour <= diffMs < (b.n + 1) * MillisPerHour
    ensures b.Days? ==> 1 <= b.n < 7 && b.n * MillisPerDay <= diffMs < (b.n + 1) * MillisPerDay
    ensures b == Date <==> diffMs >= 7 * MillisPerDay
  {
    var minutes := diffMs / MillisPerMinute;
    var hours := diffMs / MillisPerHour;
    var days := diffMs / MillisPerDay;
    if minutes < 1 then JustNow
    else if minutes < 60 then Minutes(minutes)
    else if hours < 24 then Hours(hours)
    else if days < 7 then Days(days)
    else Date
  }

  /** "s" when the count is more than one. */
  function Plural(n: int): string {
    if n > 1 then "s" else ""
  }

  /** The text of a bucket; `localeDate` stands for the browser's locale
      rendering of the date, used once a week has passed. */
  function Render(b: Elapsed, localeDate: string): (r: string)
    requires !b.JustNow? && !b.Date? ==> b.n >= 1
  {
    match b
    case JustNow => "Just now"
    case Minutes(n) => NatText(n) + " min ago"
    case Hours(n) => NatText(n) + " hour" + Plural(n) + " ago"
    case Days(n) => NatText(n) + " day" + Plural(n) + " ago"
    case Date => localeDate
  }

  /** The relative rendering of a timestamp `thenMs` seen at time `nowMs`. */
  function FormatTimestamp(thenMs: int, nowMs: int, localeDate: string): (r: string)
    ensures nowMs - thenMs < MillisPerMinute ==> r == "Just now"
    ensures nowMs - thenMs >= 7 * MillisPerDay ==> r == localeDate
  {
    Render(Bucket(nowMs - thenMs), localeDate)
  }

  /** One hour and one day read in the singular, more of either (up to a
      week) in the plural; minutes never take a plural. */
  lemma PluralRule(thenMs: int, nowMs: int, localeDate: string)
    ensures MillisPerHour <= nowMs - thenMs < 2 * MillisPerHour
        ==> FormatTimestamp(thenMs, nowMs, localeDate) == "1 hour ago"
    ensures 2 * MillisPerHour <= nowMs - thenMs < MillisPerDay
        ==> FormatTimestamp(thenMs, nowMs, localeDate)
            == NatText((nowMs - thenMs) / MillisPerHour) + " hours ago"
    ensures MillisPerDay <= nowMs - thenMs < 2 * MillisPerDay
        ==> FormatTimestamp(thenMs, nowMs, localeDate) == "1 day ago"
    ensures 2 * MillisPerDay <= nowMs - thenMs < 7 * MillisPerDay
        ==> FormatTimestamp(thenMs, nowMs, localeDate)
            == NatText((nowMs - thenMs) / MillisPerDay) + " days ago"
    ensures MillisPerMinute <= nowMs - thenMs < MillisPerHour
        ==> FormatTimestamp(thenMs, nowMs, localeDate)
            == NatText((nowMs - thenMs) / MillisPerMinute) + " min ago"
  {
    var d := nowMs - thenMs;
    if MillisPerHour <= d < 2 * MillisPerHour {
      assert Bucket(d) == Hours(1);
      assert NatText(1) == "1";
    } else if MillisPerDay <= d < 2 * MillisPerDay {
      assert Bucket(d) == Days(1);
      assert NatText(1) == "1";
    } else if 2 * MillisPerDay <= d < 7 * MillisPerDay {
      assert Bucket(d) == Days(d / MillisPerDay) && d / MillisPerDay >= 2;
    }
  }
}
