/**
 * What the controller keeps about each connected node (NodeInfo): whether the
 * node last reported itself stable, and when it last started each of the three
 * timed operations. Times are opaque instants; an unset time is None.
 */
module Records {
  import opened Wrappers
  import opened Ring

  /** The three operations whose duration the controller measures. */
  datatype Operation = Lookup | InsertKey | FindKey

  /** The value held by a NodeInfo. */
  datatype Record = Record(stable: bool, lookup: Option<Instant>, insertKey: Option<Instant>, findKey: Option<Instant>)

  /** A NodeInfo as constructed: not stable, no operation started. */
  const Fresh := Record(false, None, None, None)

  /** The start time of an operation (getStartTimeLookup, getStartTimeInsertKey, getStartTimeFindKey). */
  function StartOf(r: Record, op: Operation): Option<Instant> {
    match op
    case Lookup => r.lookup
    case InsertKey => r.insertKey
    case FindKey => r.findKey
  }

  /** The record with the start time of op set to t. */
  function WithStart(r: Record, op: Operation, t: Instant): (q: Record)
    ensures StartOf(q, op) == Some(t)
    ensures forall other :: other != op ==> StartOf(q, other) == StartOf(r, other)
    ensures q.stable == r.stable
  {
    match op
    case Lookup => r.(lookup := Some(t))
    case InsertKey => r.(insertKey := Some(t))
    case FindKey => r.(findKey := Some(t))
  }

  class NodeInfo {
    var stable: bool
    var startTimeLookup: Option<Instant>
    var startTimeInsertKey: Option<Instant>
    var startTimeFindKey: Option<Instant>

    function Snapshot(): Record
      reads this
    {
      Record(stable, startTimeLookup, startTimeInsertKey, startTimeFindKey)
    }

    constructor()
      ensures Snapshot() == Fresh
    {
      stable := false;
      startTimeLookup, startTimeInsertKey, startTimeFindKey := None, None, None;
    }

    method SetStability(stability: bool)
      modifies this
      ensures Snapshot() == old(Snapshot()).(stable := stability)
    {
      stable := stability;
    }

    /** getStartTimeLookup, getStartTimeInsertKey and getStartTimeFindKey: None until the matching setter runs. */
    method GetStartTime(op: Operation) returns (t: Option<Instant>)
      ensures t == StartOf(Snapshot(), op)
    {
      match op
      case Lookup => t := startTimeLookup;
      case InsertKey => t := startTimeInsertKey;
      case FindKey => t := startTimeFindKey;
    }

    /** setStartTimeLookup, setStartTimeInsertKey and setStartTimeFindKey. */
    method SetStartTime(op: Operation, t: Instant)
      modifies this
      ensures Snapshot() == WithStart(old(Snapshot()), op, t)
    {
      match op
      case Lookup => startTimeLookup := Some(t);
      case InsertKey => startTimeInsertKey := Some(t);
      case FindKey => startTimeFindKey := Some(t);
    }
  }
}
