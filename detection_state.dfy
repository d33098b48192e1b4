/**
 The awareness level of one watcher (DetectionState.cs): a free-form state
 machine with four levels, four unguarded setters and three equality queries.
 */
module Detection {

  /** The four awareness levels, in the order of the source's enum (0 to 3). */
  datatype Level = NotDetected | Alerted | Detected | WithinRange

  class DetectionState {
    var state: Level

    /** A freshly added component holds the enum's default value, NOTDETECTED. */
    constructor ()
      ensures state == NotDetected
    {
      state := NotDetected;
    }

    /** Any level may follow any level: no mutator has a guard. */
    method PlayerAlert()
      modifies this
      ensures state == Alerted
    {
      state := Alerted;
    }

    method PlayerDetected()
      modifies this
      ensures state == Detected
    {
      state := Detected;
    }

    method PlayerLost()
      modifies this
      ensures state == NotDetected
    {
      state := NotDetected;
    }

    method PlayerInRange()
      modifies this
      ensures state == WithinRange
    {
      state := WithinRange;
    }

    /** The queries have no modifies clause, so they leave the level as it is. */
    method IsWithinRange() returns (b: bool)
      ensures b <==> state == WithinRange
    {
      b := state == WithinRange;
    }

    method IsPlayerDetected() returns (b: bool)
      ensures b <==> state == Detected
    {
      b := state == Detected;
    }

    method IsAlerted() returns (b: bool)
      ensures b <==> state == Alerted
    {
      b := state == Alerted;
    }

    /**
     Not a member of the component: a client of the three queries that
     carries their joint property. Asked in turn, at most one answers true,
     and all three answer false exactly when the level is NOTDETECTED.
     */
    method Query() returns (withinRange: bool, detected: bool, alerted: bool)
      ensures !(withinRange && detected) && !(withinRange && alerted) && !(detected && alerted)
      ensures (!withinRange && !detected && !alerted) <==> state == NotDetected
    {
      withinRange := IsWithinRange();
      detected := IsPlayerDetected();
      alerted := IsAlerted();
    }
  }
}
