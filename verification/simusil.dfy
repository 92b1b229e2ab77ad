/**
 * The simulator's value types: a radar position and the state a radar
 * reading reports for a missile.
 */
module Simusil {

  /** A C pointer that may be NULL (and any other optional result). */
  datatype Option<T> = None | Some(value: T)

  /** A position in the simulated world; `y` is the height above ground. */
  datatype Pos = Pos(x: int, y: int)

  /**
   * The C enum `MissileState`. Its first two enumerators share the value 0,
   * so a reading can never tell an error apart from an active missile.
   */
  type MissileState = int

  const MISSILE_ERROR: MissileState := 0
  const MISSILE_ACTIVE: MissileState := 0
  const MISSILE_INTERCEPTED: MissileState := 1
  const MISSILE_IMPACTED: MissileState := 2

  /** The drivers' test `sm == MISSILE_ACTIVE` (and its negation `sm != MISSILE_ACTIVE`). */
  predicate IsActive(sm: MissileState) {
    sm == MISSILE_ACTIVE
  }

  /** What the drivers report about a missile when its task ends. */
  datatype Outcome =
    | Intercepted    // the radar reported MISSILE_INTERCEPTED
    | Impacted       // the radar reported MISSILE_IMPACTED
    | TrackingError  // any other terminal reading ("Error de seguimiento")
    | Lost           // inactive when re-read after the grant ("missing missile")

  /**
   * The `switch (sm)` after the monitoring loop: INTERCEPTED and IMPACTED
   * have their own messages; the `MISSILE_ERROR` label and `default` share
   * the tracking-error message. Since the loop only exits on a reading
   * other than MISSILE_ACTIVE, and MISSILE_ERROR == MISSILE_ACTIVE, the
   * error message is reached only by a value outside the enum.
   */
  function ReportOf(sm: MissileState): (o: Outcome)
    ensures o == Intercepted <==> sm == MISSILE_INTERCEPTED
    ensures o == Impacted <==> sm == MISSILE_IMPACTED
    ensures o != Lost
    ensures !IsActive(sm) && o == TrackingError ==> sm != MISSILE_ERROR && sm !in {1, 2}
  {
    if sm == MISSILE_INTERCEPTED then Intercepted
    else if sm == MISSILE_IMPACTED then Impacted
    else TrackingError
  }
}
