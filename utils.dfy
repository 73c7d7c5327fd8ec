/** `backend/utils.py`: the fill-level classification shared by the bin and
    telemetry routers, and the response form of timestamps. */
module Utils {

  /** `determine_bin_status`: 90 and above is full, 80 up to 90 a warning,
      anything lower (negative readings included) ok. */
  function DetermineBinStatus(fillLevelPercent: int): (status: string)
    ensures status == "full" <==> fillLevelPercent >= 90
    ensures status == "warning" <==> 80 <= fillLevelPercent < 90
    ensures status == "ok" <==> fillLevelPercent < 80
  {
    if fillLevelPercent >= 90 then "full"
    else if fillLevelPercent >= 80 then "warning"
    else "ok"
  }

  /** How serious a computed status is: ok, then warning, then full. */
  function Severity(status: string): nat {
    if status == "full" then 2 else if status == "warning" then 1 else 0
  }

  /** A fuller bin is never classified as less serious. */
  lemma StatusMonotone(lower: int, higher: int)
    requires lower <= higher
    ensures Severity(DetermineBinStatus(lower)) <= Severity(DetermineBinStatus(higher))
  {
  }

  /** `format_timestamp_response`: the ISO text of the timestamp with "Z"
      appended. The ISO rendering itself is the caller's `iso`. */
  function FormatTimestampResponse(iso: string): (r: string)
    ensures |r| == |iso| + 1
    ensures r[..|iso|] == iso
    ensures r[|iso|] == 'Z'
  {
    iso + "Z"
  }
}
