/**
 * The reference-counted pool of a node's outgoing connections (SocketManager):
 * socketList maps a peer id to its communicator, socketNumber maps it to the
 * number of open uses of that communicator.
 */
module Pooling {
  import opened Wrappers
  import opened Ring
  import Correlation

  /** The two maps of the pool, with communicators of type C. */
  datatype Pool<C> = Pool(list: map<NodeId, C>, number: map<NodeId, int>)

  /** Both maps have the same keys, every count is at least 1, and the owner's own id is never pooled. */
  predicate Inv<C>(p: Pool<C>, self: NodeId) {
    && p.list.Keys == p.number.Keys
    && (forall id :: id in p.number ==> p.number[id] >= 1)
    && self !in p.number
  }

  /** The number of open uses of the connection to id (0 when it is not pooled). */
  function Count<C>(p: Pool<C>, id: NodeId): int {
    if id in p.number then p.number[id] else 0
  }

  /** Whether the entries for id agree in two pools. */
  predicate SameEntry<C(==)>(p: Pool<C>, q: Pool<C>, id: NodeId) {
    && (id in p.list <==> id in q.list)
    && (id in p.list ==> p.list[id] == q.list[id])
    && Count(p, id) == Count(q, id)
  }

  /** What createConnection hands back: the node itself, or a communicator to the peer. */
  datatype Peer<C> = Itself | Remote(channel: C)

  /**
   * createConnection to a peer id, where created is the communicator a new
   * connection would get: the node itself for its own id, otherwise the pooled
   * communicator (created and pooled with count 1 when there was none), whose
   * count goes up by one.
   */
  function Connect<C(==)>(p: Pool<C>, self: NodeId, id: NodeId, created: C): (r: (Peer<C>, Pool<C>))
    requires Inv(p, self)
    ensures id == self ==> r == (Itself, p)
    ensures id != self ==> && id in r.1.list && r.0 == Remote(r.1.list[id])
                           && Count(r.1, id) == Count(p, id) + 1
                           && (id in p.list ==> r.1.list[id] == p.list[id])
                           && (id !in p.list ==> r.1.list[id] == created)
    ensures r.1.list.Keys == p.list.Keys + (if id == self then {} else {id})
    ensures forall other :: other != id ==> SameEntry(p, r.1, other)
    ensures Inv(r.1, self)
  {
    if id == self then (Itself, p)
    else if id in p.list then (Remote(p.list[id]), Pool(p.list, p.number[id := p.number[id] + 1]))
    else (Remote(created), Pool(p.list[id := created], p.number[id := 1]))
  }

  /**
   * closeCommunicator: one use of the connection to id ends; the entry goes
   * when that was the last use. Nothing happens for the owner's own id or an id
   * that is not pooled.
   */
  function Close<C(==)>(p: Pool<C>, self: NodeId, id: NodeId): (r: Pool<C>)
    requires Inv(p, self)
    ensures id == self || id !in p.number ==> r == p
    ensures id != self ==> Count(r, id) == if Count(p, id) > 0 then Count(p, id) - 1 else 0
    ensures id != self ==> (id in r.list <==> Count(p, id) > 1)
    ensures id in r.list ==> r.list[id] == p.list[id]
    ensures forall other :: other != id ==> SameEntry(p, r, other)
    ensures Inv(r, self)
  {
    if id == self || id !in p.number then p
    else if p.number[id] == 1 then Pool(p.list - {id}, p.number - {id})
    else Pool(p.list, p.number[id := p.number[id] - 1])
  }

  /** removeNode: the connection to id is dropped whatever its count. */
  function Evict<C(==)>(p: Pool<C>, id: NodeId): (r: Pool<C>)
    ensures id !in r.list && id !in r.number
    ensures forall other :: other != id ==> SameEntry(p, r, other)
    ensures forall self :: Inv(p, self) ==> Inv(r, self)
  {
    Pool(p.list - {id}, p.number - {id})
  }

  /** Opening a connection and closing it again leaves the pool as it was. */
  lemma ConnectThenClose<C>(p: Pool<C>, self: NodeId, id: NodeId, created: C)
    requires Inv(p, self)
    ensures Close(Connect(p, self, id, created).1, self, id) == p
  {
    var q := Connect(p, self, id, created).1;
    var r := Close(q, self, id);
    if id != self {
      assert r.list.Keys == p.list.Keys;
      assert r.number.Keys == p.number.Keys;
    }
  }

  /** One use of the pool by the node: open a connection (given the communicator it would create) or close one. */
  datatype Use<C> = Open(created: C) | Release

  /** The pool after a sequence of uses of the connection to id. */
  function Replay<C(==)>(p: Pool<C>, self: NodeId, id: NodeId, uses: seq<Use<C>>): (r: Pool<C>)
    requires Inv(p, self)
    ensures Inv(r, self)
    decreases |uses|
  {
    if uses == [] then p
    else
      var q := match uses[0]
               case Open(c) => Connect(p, self, id, c).1
               case Release => Close(p, self, id);
      Replay(q, self, id, uses[1..])
  }

  /** The number of opens minus the number of releases in a sequence of uses. */
  function Balance<C>(uses: seq<Use<C>>): int
    decreases |uses|
  {
    if uses == [] then 0 else (if uses[0].Open? then 1 else -1) + Balance(uses[1..])
  }

  /** No prefix of the uses releases more than the count held at the start plus what it opened. */
  predicate NeverOverReleased<C>(start: int, uses: seq<Use<C>>)
    decreases |uses|
  {
    uses == [] || (var next := start + (if uses[0].Open? then 1 else -1); next >= 0 && NeverOverReleased(next, uses[1..]))
  }

  /**
   * The count is a reference count: as long as no release comes without a
   * matching open, the count after any sequence of uses is the count before
   * plus the opens minus the releases, and the pool invariant still holds.
   */
  lemma {:induction false} CountIsBalance<C>(p: Pool<C>, self: NodeId, id: NodeId, uses: seq<Use<C>>)
    requires Inv(p, self) && id != self
    requires NeverOverReleased(Count(p, id), uses)
    ensures Inv(Replay(p, self, id, uses), self)
    ensures Count(Replay(p, self, id, uses), id) == Count(p, id) + Balance(uses)
    decreases |uses|
  {
    if uses != [] {
      var q := match uses[0]
               case Open(c) => Connect(p, self, id, c).1
               case Release => Close(p, self, id);
      assert Count(q, id) == Count(p, id) + (if uses[0].Open? then 1 else -1);
      CountIsBalance(q, self, id, uses[1..]);
    }
  }

  /** Why createConnection fails: the peer's address and port cannot be reached. */
  datatype ConnectionError = ConnectionErrorException

  /** Why the accepting overload fails. */
  datatype AcceptError =
    | PortRequestExpired   // the port request timed out: the process exits
    | PortReplyMissing     // woken without a port reply: a null dereference or a failed cast
    | SelfCloseFailed      // the connection is the node's own and close() fails on the missing joinNodeSocket

  class SocketManager {
    const selfId: NodeId
    var socketList: map<NodeId, Correlation.NodeCommunicator>
    var socketNumber: map<NodeId, int>
    var purgeRequests: seq<NodeId>   // node.checkDisconnectedNode calls, in order

    function View(): Pool<Correlation.NodeCommunicator>
      reads this
    {
      Pool(socketList, socketNumber)
    }

    ghost predicate Valid()
      reads this
    {
      Inv(View(), selfId)
    }

    constructor(selfId: NodeId)
      ensures Valid() && this.selfId == selfId
      ensures socketList == map[] && socketNumber == map[] && purgeRequests == []
    {
      this.selfId := selfId;
      socketList, socketNumber, purgeRequests := map[], map[], [];
    }

    /**
     * createConnection(connectionNode); reachable says whether opening a socket
     * to the target's address and port succeeds.
     */
    method CreateConnection(target: NodeRef, reachable: bool) returns (r: Result<Peer<Correlation.NodeCommunicator>, ConnectionError>)
      requires Valid()
      modifies this`socketList, this`socketNumber
      ensures Valid()
      ensures r.Err? <==> target.id != selfId && target.id !in old(socketList) && !reachable
      ensures r.Err? ==> View() == old(View())
      ensures r.Ok? && r.value.Itself? ==> target.id == selfId && View() == old(View())
      ensures r.Ok? && r.value.Remote? ==> (r.value, View()) == Connect(old(View()), selfId, target.id, r.value.channel)
      ensures r.Ok? && r.value.Remote? && target.id !in old(socketList) ==>
                && fresh(r.value.channel) && r.value.channel.Valid() && r.value.channel.open
                && r.value.channel.nodeId == Some(target.id)
                && r.value.channel.ipAddress == target.address && r.value.channel.socketPort == target.port
    {
      if target.id == selfId {
        r := Ok(Itself);
      } else if target.id in socketList {
        var n := socketNumber[target.id];
        socketNumber := socketNumber[target.id := n + 1];
        r := Ok(Remote(socketList[target.id]));
      } else if !reachable {
        r := Err(ConnectionErrorException);
      } else {
        var created := new Correlation.NodeCommunicator.Outgoing(target.address, target.port, target.id);
        socketList := socketList[target.id := created];
        socketNumber := socketNumber[target.id := 1];
        r := Ok(Remote(created));
      }
    }

    /**
     * createConnection(socketNode, ipAddress) for a connection a peer opened:
     * creates the communicator, asks the peer for its listening port over it,
     * hashes address and port into the peer's id and adopts id and port, unless
     * the id is the node's own, in which case the communicator is closed. The
     * pool maps are not touched. peer is how the peer answers the port request;
     * hash is the node's hash function.
     */
    method AcceptConnection(ipAddress: string, peer: Correlation.Peer, hash: (string, int) -> NodeId)
      returns (created: Correlation.NodeCommunicator, r: Result<(), AcceptError>)
      ensures fresh(created) && created.Valid() && created.ipAddress == ipAddress && !created.joined
      ensures var (outcome, t) := Correlation.Exchange(Correlation.CallTable(0, {}, map[]), Correlation.GetInitialSocketPort, peer);
              && (r == Err(PortRequestExpired) <==> outcome == Err(Correlation.Expired))
              && (r == Err(PortReplyMissing) <==> outcome.Err? && outcome.error != Correlation.Expired)
              && (outcome.Err? ==> && created.Table() == t && created.open && created.nodeId == None
                                   && created.sent == [Correlation.Request(Correlation.GetInitialSocketPort, 0)])
              && (outcome.Ok? ==>
                    var port := outcome.value.port;
                    var id := hash(ipAddress, port);
                    && (id != selfId ==> && r == Ok(()) && created.Table() == t && created.open
                                         && created.nodeId == Some(id) && created.socketPort == port
                                         && created.sent == [Correlation.Request(Correlation.GetInitialSocketPort, 0)])
                    && (id == selfId ==> && r == Err(SelfCloseFailed) && created.Table() == Correlation.Issue(t).1
                                         && !created.open && created.nodeId == None
                                         && created.sent == [Correlation.Request(Correlation.GetInitialSocketPort, 0),
                                                             Correlation.Request(Correlation.RequestBody.Close, 1)]))
    {
      created := new Correlation.NodeCommunicator.Incoming(ipAddress);
      var reply := created.Invoke(Correlation.GetInitialSocketPort, peer);
      if reply.Err? {
        r := if reply.error == Correlation.Expired then Err(PortRequestExpired) else Err(PortReplyMissing);
        return;
      }
      var port := reply.value.port;
      var createdNodeId := hash(ipAddress, port);
      if createdNodeId != selfId {
        created.SetNodeId(createdNodeId);
        created.SetSocketPort(port);
        r := Ok(());
      } else {
        var closed := created.Close();
        r := if closed.Err? then Err(SelfCloseFailed) else Ok(());
      }
    }

    method CloseCommunicator(id: NodeId)
      requires Valid()
      modifies this`socketList, this`socketNumber
      ensures Valid()
      ensures View() == Close(old(View()), selfId, id)
    {
      if selfId != id {
        if id in socketNumber {
          var n := socketNumber[id];
          if n == 1 {
            socketNumber := socketNumber - {id};
            socketList := socketList - {id};
          } else {
            socketNumber := socketNumber[id := n - 1];
          }
        }
      }
    }

    /** removeNode: asks the node to purge the peer from its ring state, then drops the connection. */
    method RemoveNode(disconnectedId: NodeId)
      requires Valid()
      modifies this
      ensures Valid()
      ensures purgeRequests == old(purgeRequests) + [disconnectedId]
      ensures View() == Evict(old(View()), disconnectedId)
    {
      purgeRequests := purgeRequests + [disconnectedId];
      socketList := socketList - {disconnectedId};
      socketNumber := socketNumber - {disconnectedId};
    }
  }
}
