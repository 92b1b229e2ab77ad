/**
 * The monitoring loop every driver runs after firing: poll the radar until
 * it reports something other than MISSILE_ACTIVE, then report the outcome.
 * The radar is an oracle: `readings` are the values successive
 * `radarReadMissile` calls return (the sleeps between polls are dropped).
 */
module Tracking {
  import opened Simusil

  /**
   * `while ((sm = radarReadMissile(...)) == MISSILE_ACTIVE) sleep;`
   * Returns the number of active polls before the loop exits and the
   * reading that made it exit, or None when every given reading is active
   * (the loop would still be polling).
   */
  method Monitor(readings: seq<MissileState>) returns (polls: nat, exit: Option<MissileState>)
    ensures polls <= |readings|
    ensures forall i :: 0 <= i < polls ==> IsActive(readings[i])
    ensures exit.Some? <==> polls < |readings|
    ensures exit.Some? ==> exit.value == readings[polls] && !IsActive(exit.value)
    ensures exit.Some? ==> exit.value != MISSILE_ERROR
  {
    polls := 0;
    while polls < |readings| && IsActive(readings[polls])
      invariant polls <= |readings|
      invariant forall i :: 0 <= i < polls ==> IsActive(readings[i])
    {
      polls := polls + 1;
    }
    exit := if polls < |readings| then Some(readings[polls]) else None;
  }
}
