// The planning horizon: one period per day, starting from today.

module Periods {
  import opened Tables

  /**
   * Lists `numberOfPeriods` consecutive days starting at `today` (the day the
   * generator runs, truncated to midnight, is passed in).
   */
  method GenPeriods(numberOfPeriods: nat, today: Date) returns (periods: seq<Date>)
    ensures |periods| == numberOfPeriods
    ensures numberOfPeriods > 0 ==> periods[0] == today
    ensures forall t :: 0 <= t < |periods| - 1 ==> periods[t + 1] == periods[t] + 1
    ensures forall t :: 0 <= t < |periods| ==> periods[t] == today + t
    ensures forall s, t :: 0 <= s < t < |periods| ==> periods[s] < periods[t]
  {
    var day := today;
    periods := [];
    for t := 0 to numberOfPeriods
      invariant |periods| == t
      invariant day == today + t
      invariant forall s :: 0 <= s < t ==> periods[s] == today + s
    {
      periods := periods + [day];
      day := day + 1;
    }
  }
}
