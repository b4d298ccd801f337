/** Report cadences and their lookback length (enums/report_type.rs). */
module ReportType {

  datatype ReportType = Day | Week | Month | Year

  /** `get_days`: the number of days a report of this cadence covers. */
  function GetDays(t: ReportType): (days: int)
    ensures days >= 1
  {
    match t
    case Day => 1
    case Week => 7
    case Month => 30
    case Year => 365
  }

  /** The hours a report looks back over: `get_days(type) * 24` in `report_loop`. */
  function LookbackHours(t: ReportType): (hours: int)
    ensures hours >= 24 && hours % 24 == 0
  {
    GetDays(t) * 24
  }

  /** Cadences in the order the enum declares them. */
  function Rank(t: ReportType): nat {
    match t
    case Day => 0
    case Week => 1
    case Month => 2
    case Year => 3
  }

  lemma GetDaysValues()
    ensures GetDays(Day) == 1 && GetDays(Week) == 7 && GetDays(Month) == 30 && GetDays(Year) == 365
  {
  }

  /** A longer cadence always covers strictly more days. */
  lemma GetDaysStrictlyIncreasing(s: ReportType, t: ReportType)
    ensures Rank(s) < Rank(t) <==> GetDays(s) < GetDays(t)
  {
  }

  lemma LookbackHoursValues()
    ensures LookbackHours(Day) == 24 && LookbackHours(Week) == 168
    ensures LookbackHours(Month) == 720 && LookbackHours(Year) == 8760
  {
  }
}
