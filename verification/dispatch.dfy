/**
 * The monitor's end of one node's connection (ControllerCommunicator): it
 * remembers which node it talks to from that node's Connected message, turns
 * every message into the matching monitor operation for that node, and
 * acknowledges the message under its lock id once the operation returns.
 */
module Dispatch {
  import opened Wrappers
  import opened Ring
  import opened Records
  import opened Monitoring

  /** The messages a node sends to the monitor, each under the lock id its acknowledgement must carry. */
  datatype ControllerMessage =
    | Connected(node: NodeId, lockId: LockId)
    | Stable(lockId: LockId)
    | NotStable(lockId: LockId)
    | StartLookup(lockId: LockId)
    | EndOfLookup(lockId: LockId)
    | StartInsertKey(lockId: LockId)
    | EndInsertKey(lockId: LockId)
    | StartFindKey(lockId: LockId)
    | EndFindKey(lockId: LockId)

  /** The node id the connection knows after a message: set by Connected, kept otherwise. */
  function Sender(known: Option<NodeId>, m: ControllerMessage): (id: Option<NodeId>)
    ensures m.Connected? ==> id == Some(m.node)
    ensures !m.Connected? ==> id == known
  {
    if m.Connected? then Some(m.node) else known
  }

  predicate IsStart(m: ControllerMessage) {
    m.StartLookup? || m.StartInsertKey? || m.StartFindKey?
  }

  /** The operation a start or end message is about. */
  function OperationOf(m: ControllerMessage): Operation
    requires !(m.Connected? || m.Stable? || m.NotStable?)
  {
    match m
    case StartLookup(_) => Lookup
    case EndOfLookup(_) => Lookup
    case StartInsertKey(_) => InsertKey
    case EndInsertKey(_) => InsertKey
    case StartFindKey(_) => FindKey
    case EndFindKey(_) => FindKey
  }

  /**
   * The monitor operation a message triggers for the connection's node id;
   * Err is the NullPointerException the operation raises, after which no
   * acknowledgement is sent.
   */
  function Perform(g: Registry, known: Option<NodeId>, m: ControllerMessage, now: Instant): (r: Result<Registry, Failure>)
    requires Consistent(g)
    ensures r.Ok? ==> Consistent(r.value)
    // Connected always succeeds; every other message fails when the connection has no node id or its node is gone.
    ensures m.Connected? ==> r.Ok?
    ensures !m.Connected? && (known.None? || known.value !in g.nodes) ==> r.Err?
    // Stability and start messages succeed for a registered node; an end message also needs its start.
    ensures !m.Connected? && known.Some? && known.value in g.nodes && !(m.EndOfLookup? || m.EndInsertKey? || m.EndFindKey?) ==> r.Ok?
    // Only Connected and Stable can produce a stabilisation report, and only Connected changes membership.
    ensures r.Ok? && !m.Connected? ==> r.value.nodes.Keys == g.nodes.Keys
    ensures r.Ok? && !(m.Connected? || m.Stable?) ==>
              forall i :: |g.reports| <= i < |r.value.reports| ==> r.value.reports[i].Completed?
  {
    if m.Connected? then Ok(Connect(g, m.node, now))
    else if m.Stable? || m.NotStable? then MarkStable(g, known, m.Stable?, now)
    else if IsStart(m) then Begin(g, known, OperationOf(m), now)
    else Finish(g, known, OperationOf(m), now)
  }

  /** ConnectedMessage: the sender joins with a record holding no start times, and the convergence start is reset. */
  lemma ConnectedEffect(g: Registry, known: Option<NodeId>, m: ControllerMessage, now: Instant)
    requires Consistent(g) && m.Connected?
    ensures var r := Perform(g, known, m, now).value;
            && r.nodes.Keys == g.nodes.Keys + {m.node}
            && StartOf(r.nodes[m.node], Lookup).None?
            && StartOf(r.nodes[m.node], InsertKey).None?
            && StartOf(r.nodes[m.node], FindKey).None?
            && (forall other :: other in g.nodes && other != m.node ==> r.nodes[other] == g.nodes[other])
            && r.since == Some(now)
  {
  }

  /** StableMessage and NotStableMessage: only the sender's flag changes, to true and false respectively. */
  lemma StabilityEffect(g: Registry, known: Option<NodeId>, m: ControllerMessage, now: Instant)
    requires Consistent(g) && (m.Stable? || m.NotStable?)
    ensures var r := Perform(g, known, m, now);
            r.Ok? ==>
              && r.value.nodes[known.value].stable == m.Stable?
              && StartOf(r.value.nodes[known.value], Lookup) == StartOf(g.nodes[known.value], Lookup)
              && StartOf(r.value.nodes[known.value], InsertKey) == StartOf(g.nodes[known.value], InsertKey)
              && StartOf(r.value.nodes[known.value], FindKey) == StartOf(g.nodes[known.value], FindKey)
              && (forall other :: other in g.nodes && other != known.value ==> r.value.nodes[other] == g.nodes[other])
              && r.value.since == g.since
              && (r.value.reports != g.reports <==> m.Stable? && AllStable(r.value.nodes))
  {
  }

  /** A start message sets the sender's start time of its own operation and reports nothing. */
  lemma StartEffect(g: Registry, known: Option<NodeId>, m: ControllerMessage, now: Instant)
    requires Consistent(g) && IsStart(m)
    ensures var r := Perform(g, known, m, now);
            r.Ok? ==>
              && r.value.nodes == g.nodes[known.value := WithStart(g.nodes[known.value], OperationOf(m), now)]
              && r.value.since == g.since && r.value.reports == g.reports
  {
  }

  /** An end message succeeds exactly when the sender started that operation, and then reports its duration. */
  lemma EndEffect(g: Registry, known: Option<NodeId>, m: ControllerMessage, now: Instant)
    requires Consistent(g) && !(m.Connected? || m.Stable? || m.NotStable? || IsStart(m))
    ensures var r := Perform(g, known, m, now);
            && (r.Ok? <==> known.Some? && known.value in g.nodes && StartOf(g.nodes[known.value], OperationOf(m)).Some?)
            && (r.Ok? ==> r.value == g.(reports := g.reports + [Completed(OperationOf(m), StartOf(g.nodes[known.value], OperationOf(m)).value, now, |g.nodes|)]))
  {
  }

  /** A node that has connected and then declares itself stable is acknowledged. */
  lemma ConnectedThenStable(g: Registry, known: Option<NodeId>, n: NodeId, l0: LockId, l1: LockId, t0: Instant, t1: Instant)
    requires Consistent(g)
    ensures var after := Perform(g, known, Connected(n, l0), t0).value;
            Perform(after, Some(n), Stable(l1), t1).Ok?
  {
  }

  /**
   * An end message without its start is never acknowledged: right after
   * connecting, the node's record has no start times.
   */
  lemma EndBeforeStartFails(g: Registry, known: Option<NodeId>, n: NodeId, l0: LockId, m: ControllerMessage, t0: Instant, t1: Instant)
    requires Consistent(g) && (m.EndOfLookup? || m.EndInsertKey? || m.EndFindKey?)
    ensures var after := Perform(g, known, Connected(n, l0), t0).value;
            Perform(after, Some(n), m, t1).Err?
  {
    var after := Connect(g, n, t0);
    assert Perform(g, known, Connected(n, l0), t0).value == after;
    assert StartOf(after.nodes[n], OperationOf(m)).None?;
    assert Perform(after, Some(n), m, t1) == Finish(after, Some(n), OperationOf(m), t1);
  }

  class ControllerCommunicator {
    const controller: Controller
    var nodeId: Option<NodeId>
    var outbox: seq<LockId>   // the lock ids of the ReceivedMessage acknowledgements sent, in order

    /** The monitor is valid and does not own this connection's object. */
    ghost predicate Valid()
      reads controller
    {
      controller.Valid() && this !in controller.Repr
    }

    constructor(controller: Controller)
      requires controller.Valid()
      ensures Valid() && this.controller == controller && nodeId == None && outbox == []
    {
      this.controller := controller;
      nodeId, outbox := None, [];
    }

    /** handle(ConnectedMessage): the connection learns its node id, then the monitor registers the node. */
    method OnConnected(m: ControllerMessage, now: Instant) returns (r: Result<(), Failure>)
      requires m.Connected?
      requires Valid()
      modifies this`nodeId, controller, controller.Repr
      ensures Valid()
      ensures nodeId == Sender(old(nodeId), m)
      ensures r.Ok? <==> Perform(old(controller.State()), old(nodeId), m, now).Ok?
      ensures r.Ok? ==> controller.State() == Perform(old(controller.State()), old(nodeId), m, now).value
      ensures r.Err? ==> controller.State() == old(controller.State())
    {
      ghost var before := controller.State();
      nodeId := Some(m.node);
      assert controller.Valid() && controller.State() == before;
      controller.NewConnection(m.node, now);
      assert this !in controller.Repr by {
        assert this !in old(controller.Repr);
      }
      r := Ok(());
    }

    /** handle(StableMessage) and handle(NotStableMessage). */
    method OnStability(m: ControllerMessage, now: Instant) returns (r: Result<(), Failure>)
      requires m.Stable? || m.NotStable?
      requires Valid()
      modifies this`nodeId, controller, controller.Repr
      ensures Valid()
      ensures nodeId == Sender(old(nodeId), m)
      ensures r.Ok? <==> Perform(old(controller.State()), old(nodeId), m, now).Ok?
      ensures r.Ok? ==> controller.State() == Perform(old(controller.State()), old(nodeId), m, now).value
      ensures r.Err? ==> controller.State() == old(controller.State())
    {
      r := controller.UpdateStable(nodeId, m.Stable?, now);
    }

    /** handle(StartLookupMessage), handle(StartInsertKeyMessage), handle(StartFindKeyMessage). */
    method OnStart(m: ControllerMessage, now: Instant) returns (r: Result<(), Failure>)
      requires IsStart(m)
      requires Valid()
      modifies this`nodeId, controller, controller.Repr
      ensures Valid()
      ensures nodeId == Sender(old(nodeId), m)
      ensures r.Ok? <==> Perform(old(controller.State()), old(nodeId), m, now).Ok?
      ensures r.Ok? ==> controller.State() == Perform(old(controller.State()), old(nodeId), m, now).value
      ensures r.Err? ==> controller.State() == old(controller.State())
    {
      r := controller.Start(nodeId, OperationOf(m), now);
    }

    /** handle(EndOfLookupMessage), handle(EndInsertKeyMessage), handle(EndFindKeyMessage). */
    method OnEnd(m: ControllerMessage, now: Instant) returns (r: Result<(), Failure>)
      requires !(m.Connected? || m.Stable? || m.NotStable? || IsStart(m))
      requires Valid()
      modifies this`nodeId, controller, controller.Repr
      ensures Valid()
      ensures nodeId == Sender(old(nodeId), m)
      ensures r.Ok? <==> Perform(old(controller.State()), old(nodeId), m, now).Ok?
      ensures r.Ok? ==> controller.State() == Perform(old(controller.State()), old(nodeId), m, now).value
      ensures r.Err? ==> controller.State() == old(controller.State())
    {
      r := controller.End(nodeId, OperationOf(m), now);
    }

    /** The monitor operation of the nine handle methods. */
    method Apply(m: ControllerMessage, now: Instant) returns (r: Result<(), Failure>)
      requires Valid()
      modifies this`nodeId, controller, controller.Repr
      ensures Valid()
      ensures nodeId == Sender(old(nodeId), m)
      ensures r.Ok? <==> Perform(old(controller.State()), old(nodeId), m, now).Ok?
      ensures r.Ok? ==> controller.State() == Perform(old(controller.State()), old(nodeId), m, now).value
      ensures r.Err? ==> controller.State() == old(controller.State())
    {
      if m.Connected? {
        r := OnConnected(m, now);
      } else if m.Stable? || m.NotStable? {
        r := OnStability(m, now);
      } else if IsStart(m) {
        r := OnStart(m, now);
      } else {
        r := OnEnd(m, now);
      }
    }

    /** The nine handle methods: the monitor operation, then the acknowledgement when it returned normally. */
    method Handle(m: ControllerMessage, now: Instant) returns (r: Result<(), Failure>)
      requires Valid()
      modifies this`nodeId, this`outbox, controller, controller.Repr
      ensures Valid()
      ensures nodeId == Sender(old(nodeId), m)
      ensures r.Ok? <==> Perform(old(controller.State()), old(nodeId), m, now).Ok?
      ensures r.Ok? ==> controller.State() == Perform(old(controller.State()), old(nodeId), m, now).value
      ensures r.Err? ==> controller.State() == old(controller.State())
      ensures outbox == old(outbox) + if r.Ok? then [m.lockId] else []
    {
      r := Apply(m, now);
      label applied:
      Acknowledge(r.Ok?, m.lockId);
      StateKept@applied(controller);
    }

    /** socketController.sendMessage(new ReceivedMessage(lockId)), reached only when the operation returned. */
    method Acknowledge(returned: bool, lockId: LockId)
      modifies this`outbox
      ensures outbox == old(outbox) + if returned then [lockId] else []
    {
      if returned {
        outbox := outbox + [lockId];
      }
    }

    /** disconnectedNode: the monitor forgets the connection's node. */
    method DisconnectedNode(now: Instant)
      requires Valid()
      modifies controller
      ensures Valid()
      ensures controller.State() == Disconnect(old(controller.State()), nodeId, now)
    {
      controller.DisconnectedNode(nodeId, now);
    }
  }
}
