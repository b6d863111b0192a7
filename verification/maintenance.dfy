/**
 * The background maintenance loop of a node (UpdateNode): each round runs
 * listStabilize when a predecessor is known and fixFingers once per finger,
 * compares order-sensitive snapshots of the successor-list ids and finger-table
 * ids taken before and after, and reports the resulting stability verdict.
 *
 * Node's own stabilisation is not part of this model: each call into it is
 * scripted as how it ended and what the node's state is right after it.
 */
module Maintenance {
  import opened Wrappers
  import opened Ring

  /** How a call into the node ended: normally, with a TimerExpiredException, or with an IOException. */
  datatype Status = Done | TimedOut | IoFailure

  /** The node's ring state as the loop reads it; the finger table is listed by finger index. */
  datatype View = View(predecessor: Option<NodeRef>, successors: seq<NodeRef>, fingers: seq<NodeRef>)

  /** One call to listStabilize or fixFingers: how it ended and the node's state right after it. */
  datatype Step = Step(status: Status, after: View)

  /**
   * What happens during one round: the listStabilize call (made only when a
   * predecessor is known), one step per fixFingers call, and whether stopUpdate
   * is called while the round runs.
   */
  datatype RoundScript = RoundScript(stabilize: Step, fixes: seq<Step>, stopRequested: bool)

  /** The calls the loop makes into the node, in order. */
  datatype Call = ListStabilize | FixFingers | UpdateStable(stable: bool)

  /** A round either reports a verdict or ends the thread with UnexpectedBehaviourException. */
  datatype RoundEnd = Reported(stable: bool) | Crashed

  datatype RoundResult = RoundResult(end: RoundEnd, view: View, calls: seq<Call>)

  /** n calls to fixFingers. */
  function FixCalls(n: nat): (calls: seq<Call>)
    ensures |calls| == n && forall i :: 0 <= i < n ==> calls[i] == FixFingers
  {
    seq(n, _ => FixFingers)
  }

  /** The index of the first step that ended with an IOException (|steps| when none did). */
  function FirstFailure(steps: seq<Step>): (k: nat)
    ensures k <= |steps|
    ensures forall i :: 0 <= i < k ==> steps[i].status != IoFailure
    ensures k < |steps| ==> steps[k].status == IoFailure
    decreases |steps|
  {
    if steps == [] then 0
    else if steps[0].status == IoFailure then 0
    else 1 + FirstFailure(steps[1..])
  }

  /** The state the finger snapshot is taken from: after listStabilize when it ran. */
  function Base(v: View, s: RoundScript): View {
    if v.predecessor.Some? then s.stabilize.after else v
  }

  /** The state after the first n fixFingers calls of a round, starting from v. */
  function Last(v: View, s: RoundScript, n: nat): View
    requires n <= |s.fixes|
  {
    if n == 0 then v else s.fixes[n - 1].after
  }

  /**
   * One round of run(), from the verdict carried over from the previous round
   * (false before the first) and the node's state when the round starts.
   */
  function RoundOf(stable: bool, v: View, s: RoundScript): (r: RoundResult)
    // The round completes iff neither listStabilize (when called) nor any fixFingers call raised an IOException;
    // timeouts are not fatal.
    ensures r.end.Reported? <==> && (v.predecessor.Some? ==> s.stabilize.status != IoFailure)
                                 && forall i :: 0 <= i < |s.fixes| ==> s.fixes[i].status != IoFailure
    // listStabilize first when a predecessor is known, then every fixFingers call, then exactly one report.
    ensures r.end.Reported? ==>
              r.calls == (if v.predecessor.Some? then [ListStabilize] else []) + FixCalls(|s.fixes|) + [UpdateStable(r.end.stable)]
    ensures r.end.Crashed? ==> forall i :: 0 <= i < |r.calls| ==> !r.calls[i].UpdateStable?
    // The verdict: successor ids unchanged in order by listStabilize (or, without a predecessor, the
    // previous verdict) and finger ids unchanged in order by the fixFingers calls.
    ensures r.end.Reported? ==>
              (r.end.stable <==> && (v.predecessor.Some? ==> Ids(v.successors) == Ids(s.stabilize.after.successors))
                                 && (v.predecessor.None? ==> stable)
                                 && Ids(Base(v, s).fingers) == Ids(r.view.fingers))
    ensures r.end.Reported? ==> r.view == Last(Base(v, s), s, |s.fixes|)
  {
    var stabilizes := v.predecessor.Some?;
    var first := if stabilizes then [ListStabilize] else [];
    if stabilizes && s.stabilize.status == IoFailure then
      RoundResult(Crashed, s.stabilize.after, first)
    else
      var successorsKept := if stabilizes then Ids(v.successors) == Ids(s.stabilize.after.successors) else stable;
      var k := FirstFailure(s.fixes);
      if k < |s.fixes| then
        RoundResult(Crashed, s.fixes[k].after, first + FixCalls(k + 1))
      else
        var verdict := successorsKept && Ids(Base(v, s).fingers) == Ids(Last(Base(v, s), s, |s.fixes|).fingers);
        RoundResult(Reported(verdict), Last(Base(v, s), s, |s.fixes|), first + FixCalls(|s.fixes|) + [UpdateStable(verdict)])
  }

  /** The calls and rounds of run() over a sequence of round scripts, given the active flag at the start. */
  datatype RunResult = RunResult(calls: seq<Call>, rounds: nat)

  function RunOf(stable: bool, v: View, active: bool, scripts: seq<RoundScript>): (r: RunResult)
    ensures r.rounds <= |scripts|
    decreases |scripts|
  {
    if !active || scripts == [] then RunResult([], 0)
    else
      var round := RoundOf(stable, v, scripts[0]);
      match round.end
      case Crashed => RunResult(round.calls, 1)
      case Reported(verdict) =>
        var rest := RunOf(verdict, round.view, !scripts[0].stopRequested, scripts[1..]);
        RunResult(round.calls + rest.calls, 1 + rest.rounds)
  }

  /** run() unfolded by one round. */
  lemma RunOfStep(stable: bool, v: View, scripts: seq<RoundScript>)
    requires scripts != []
    ensures var round := RoundOf(stable, v, scripts[0]);
            var r := RunOf(stable, v, true, scripts);
            && (round.end.Crashed? ==> r == RunResult(round.calls, 1))
            && (round.end.Reported? ==>
                  var rest := RunOf(round.end.stable, round.view, !scripts[0].stopRequested, scripts[1..]);
                  r == RunResult(round.calls + rest.calls, 1 + rest.rounds))
  {
  }

  /**
   * Concatenation regrouped, proved apart from Run so that its loop body gets
   * the two equations it needs and not the sequence extensionality behind them.
   */
  lemma Associative<T>(a: seq<T>, b: seq<T>, c: seq<T>)
    ensures a + (b + c) == (a + b) + c
  {
  }

  /** A round whose stabilize or fix step throws ends run(): exactly one round is run. */
  lemma CrashEndsRun(stable: bool, v: View, active: bool, scripts: seq<RoundScript>)
    requires active && scripts != [] && RoundOf(stable, v, scripts[0]).end.Crashed?
    ensures RunOf(stable, v, active, scripts).rounds == 1
    ensures RunOf(stable, v, active, scripts).calls == RoundOf(stable, v, scripts[0]).calls
  {
  }

  /**
   * A stop requested during round i (numbering from 0) clears the active flag,
   * so the loop exits after that round: at most i + 1 rounds are run.
   */
  lemma {:induction false} StopEndsRun(stable: bool, v: View, active: bool, scripts: seq<RoundScript>, i: nat)
    requires i < |scripts| && scripts[i].stopRequested
    ensures RunOf(stable, v, active, scripts).rounds <= i + 1
    decreases i
  {
    if active && scripts != [] {
      var round := RoundOf(stable, v, scripts[0]);
      if round.end.Reported? && i > 0 {
        StopEndsRun(round.end.stable, round.view, !scripts[0].stopRequested, scripts[1..], i - 1);
      }
    }
  }

  /** The whole run is what is done so far followed by the rest. */
  ghost predicate Continues(full: RunResult, done: seq<Call>, rounds: nat, rest: RunResult) {
    full.calls == done + rest.calls && full.rounds == rounds + rest.rounds
  }

  /** No predecessor at the start and none after any call of any round. */
  predicate NeverAPredecessor(v: View, scripts: seq<RoundScript>) {
    && v.predecessor.None?
    && forall i :: 0 <= i < |scripts| ==>
         && scripts[i].stabilize.after.predecessor.None?
         && forall j :: 0 <= j < |scripts[i].fixes| ==> scripts[i].fixes[j].after.predecessor.None?
  }

  /**
   * The successor comparison is skipped without a predecessor and the verdict
   * starts out false, so a node that never learns a predecessor never reports
   * itself stable.
   */
  lemma {:induction false} NeverStableWithoutPredecessor(v: View, active: bool, scripts: seq<RoundScript>)
    requires NeverAPredecessor(v, scripts)
    ensures forall i :: 0 <= i < |RunOf(false, v, active, scripts).calls| ==>
              RunOf(false, v, active, scripts).calls[i] != UpdateStable(true)
    decreases |scripts|
  {
    if active && scripts != [] {
      var round := RoundOf(false, v, scripts[0]);
      assert forall i :: 0 <= i < |round.calls| ==> round.calls[i] != UpdateStable(true);
      if round.end.Reported? {
        assert !round.end.stable;
        var s := scripts[0];
        assert round.view.predecessor.None? by {
          if s.fixes != [] {
            assert s.fixes[|s.fixes| - 1].after.predecessor.None?;
          }
        }
        assert NeverAPredecessor(round.view, scripts[1..]) by {
          forall i | 0 <= i < |scripts[1..]|
            ensures scripts[1..][i].stabilize.after.predecessor.None?
            ensures forall j :: 0 <= j < |scripts[1..][i].fixes| ==> scripts[1..][i].fixes[j].after.predecessor.None?
          {
            assert scripts[1..][i] == scripts[i + 1];
          }
        }
        NeverStableWithoutPredecessor(round.view, !s.stopRequested, scripts[1..]);
      }
    }
  }

  /** The snapshot loops of run(): the ids of a list of nodes, in order. */
  method Snapshot(nodes: seq<NodeRef>) returns (ids: seq<NodeId>)
    ensures ids == Ids(nodes)
  {
    ids := [];
    for i := 0 to |nodes|
      invariant |ids| == i
      invariant forall k :: 0 <= k < i ==> ids[k] == nodes[k].id
    {
      ids := ids + [nodes[i].id];
    }
  }

  /** UpdateNode's class-wide active flag: a single object shared by every maintenance loop. */
  class Switch {
    var active: bool

    constructor()
      ensures active
    {
      active := true;
    }

    /** stopUpdate: every loop sharing the flag exits before its next round. */
    method StopUpdate()
      modifies this
      ensures !active
    {
      active := false;
    }
  }

  /**
   * The part of a node the maintenance loop drives. It is not a model of the
   * node itself: each call replays its scripted step and records the call.
   */
  class RingNode {
    var predecessor: Option<NodeRef>
    var successorList: seq<NodeRef>
    var fingerTable: seq<NodeRef>
    const dimFingerTable: nat
    var calls: seq<Call>

    function Current(): View
      reads this
    {
      View(predecessor, successorList, fingerTable)
    }

    constructor(v: View, dim: nat)
      ensures Current() == v && dimFingerTable == dim && calls == []
    {
      predecessor, successorList, fingerTable := v.predecessor, v.successors, v.fingers;
      dimFingerTable := dim;
      calls := [];
    }

    method Enter(v: View)
      modifies this`predecessor, this`successorList, this`fingerTable
      ensures Current() == v
    {
      predecessor, successorList, fingerTable := v.predecessor, v.successors, v.fingers;
    }

    method ListStabilize(step: Step) returns (status: Status)
      modifies this
      ensures status == step.status && Current() == step.after
      ensures calls == old(calls) + [Call.ListStabilize]
    {
      Enter(step.after);
      calls := calls + [Call.ListStabilize];
      status := step.status;
    }

    method FixFingers(step: Step) returns (status: Status)
      modifies this
      ensures status == step.status && Current() == step.after
      ensures calls == old(calls) + [Call.FixFingers]
    {
      Enter(step.after);
      calls := calls + [Call.FixFingers];
      status := step.status;
    }

    /** updateStable: the verdict goes to the monitor; the ring state is untouched. */
    method UpdateStable(stable: bool)
      modifies this`calls
      ensures calls == old(calls) + [Call.UpdateStable(stable)]
    {
      calls := calls + [Call.UpdateStable(stable)];
    }
  }

  class UpdateNode {
    const node: RingNode
    const switch: Switch
    var stable: bool   // run()'s local verdict, reset by each run and carried from one round to the next

    constructor(node: RingNode, switch: Switch)
      ensures this.node == node && this.switch == switch && !stable
    {
      this.node, this.switch := node, switch;
      stable := false;
    }

    /** The fixFingers loop of a round, one call per finger; an IOException ends it. */
    method FixAll(s: RoundScript) returns (crashed: bool)
      requires |s.fixes| == node.dimFingerTable
      modifies node
      ensures var k := FirstFailure(s.fixes);
              && (crashed <==> k < |s.fixes|)
              && node.calls == old(node.calls) + FixCalls(if crashed then k + 1 else k)
              && node.Current() == if crashed then s.fixes[k].after else Last(old(node.Current()), s, k)
    {
      var i := 0;
      while i < node.dimFingerTable
        invariant 0 <= i <= |s.fixes|
        invariant forall k :: 0 <= k < i ==> s.fixes[k].status != IoFailure
        invariant node.Current() == Last(old(node.Current()), s, i)
        invariant node.calls == old(node.calls) + FixCalls(i)
      {
        var status := node.FixFingers(s.fixes[i]);
        assert FixCalls(i) + [FixFingers] == FixCalls(i + 1);
        if status == IoFailure {
          assert FirstFailure(s.fixes) == i;
          return true;
        }
        i := i + 1;
      }
      crashed := false;
    }

    /** The start of a round: listStabilize, between two snapshots of the successor ids, when a predecessor is known. */
    method Stabilize(s: RoundScript) returns (crashed: bool)
      modifies this`stable, node
      ensures var v := old(node.Current());
              && (crashed <==> v.predecessor.Some? && s.stabilize.status == IoFailure)
              && node.calls == old(node.calls) + (if v.predecessor.Some? then [ListStabilize] else [])
              && node.Current() == Base(v, s)
              && (!crashed ==> stable == if v.predecessor.Some? then Ids(v.successors) == Ids(s.stabilize.after.successors) else old(stable))
    {
      crashed := false;
      if node.predecessor.Some? {
        var oldSuccessors := Snapshot(node.successorList);
        var status := node.ListStabilize(s.stabilize);
        if status == IoFailure {
          return true;
        }
        var newSuccessors := Snapshot(node.successorList);
        stable := oldSuccessors == newSuccessors;
      }
    }

    /** The fixFingers loop between two snapshots of the finger ids: the verdict holds only if they agree. */
    method Refresh(s: RoundScript) returns (crashed: bool)
      requires |s.fixes| == node.dimFingerTable
      modifies this`stable, node
      ensures var k := FirstFailure(s.fixes);
              var v := old(node.Current());
              && (crashed <==> k < |s.fixes|)
              && node.calls == old(node.calls) + FixCalls(if crashed then k + 1 else k)
              && node.Current() == (if crashed then s.fixes[k].after else Last(v, s, k))
              && (!crashed ==> stable == (old(stable) && Ids(v.fingers) == Ids(node.Current().fingers)))
    {
      var oldFingers := Snapshot(node.fingerTable);
      crashed := FixAll(s);
      if !crashed {
        var newFingers := Snapshot(node.fingerTable);
        stable := stable && oldFingers == newFingers;
      }
    }

    /** One iteration of run()'s loop. */
    method Round(s: RoundScript) returns (end: RoundEnd)
      requires |s.fixes| == node.dimFingerTable
      modifies this, node
      ensures var r := RoundOf(old(stable), old(node.Current()), s);
              end == r.end && node.Current() == r.view && node.calls == old(node.calls) + r.calls
      ensures end.Reported? ==> stable == end.stable
    {
      ghost var first := if node.predecessor.Some? then [ListStabilize] else [];
      var crashed := Stabilize(s);
      if crashed {
        return Crashed;
      }
      crashed := Refresh(s);
      ghost var k := FirstFailure(s.fixes);
      if crashed {
        assert node.calls == old(node.calls) + (first + FixCalls(k + 1));
        return Crashed;
      }
      node.UpdateStable(stable);
      assert node.calls == old(node.calls) + (first + FixCalls(k) + [UpdateStable(stable)]);
      end := Reported(stable);
    }

    /** One pass of run()'s loop body: the round, then stopUpdate when it is requested during the round. */
    method Turn(scripts: seq<RoundScript>) returns (crashed: bool, ghost added: seq<Call>)
      requires scripts != [] && switch.active && |scripts[0].fixes| == node.dimFingerTable
      modifies this, node, switch
      ensures node.calls == old(node.calls) + added
      ensures crashed ==> RunOf(old(stable), old(node.Current()), true, scripts) == RunResult(added, 1)
      ensures !crashed ==>
                var rest := RunOf(stable, node.Current(), switch.active, scripts[1..]);
                RunOf(old(stable), old(node.Current()), true, scripts) == RunResult(added + rest.calls, 1 + rest.rounds)
    {
      RunOfStep(stable, node.Current(), scripts);
      added := RoundOf(stable, node.Current(), scripts[0]).calls;
      var end := Round(scripts[0]);
      crashed := end.Crashed?;
      if !crashed && scripts[0].stopRequested {
        switch.StopUpdate();
      }
    }

    /** run(): rounds follow one another while the flag is set and no round crashes. */
    method Run(scripts: seq<RoundScript>) returns (rounds: nat)
      requires forall i :: 0 <= i < |scripts| ==> |scripts[i].fixes| == node.dimFingerTable
      modifies this, node, switch
      ensures var r := RunOf(false, old(node.Current()), old(switch.active), scripts);
              rounds == r.rounds && node.calls == old(node.calls) + r.calls
    {
      stable := false;
      ghost var full := RunOf(stable, node.Current(), switch.active, scripts);
      ghost var done: seq<Call> := [];
      rounds := 0;
      var crashed := false;
      while switch.active && rounds < |scripts| && !crashed
        invariant 0 <= rounds <= |scripts|
        invariant node.calls == old(node.calls) + done
        invariant !crashed ==> Continues(full, done, rounds, RunOf(stable, node.Current(), switch.active, scripts[rounds..]))
        invariant crashed ==> full == RunResult(done, rounds)
        decreases |scripts| - rounds, !crashed
      {
        ghost var added;
        assert scripts[rounds..][1..] == scripts[rounds + 1..];
        crashed, added := Turn(scripts[rounds..]);
        ghost var rest := RunOf(stable, node.Current(), switch.active, scripts[rounds + 1..]);
        Associative(done, added, rest.calls);
        Associative(old(node.calls), done, added);
        done := done + added;
        rounds := rounds + 1;
      }
    }
  }
}
