/**
 * The request/response correlation layer of a node's connection to one peer
 * (NodeCommunicator): a lock counter that hands out lockIds, the table of lock
 * objects, the table of filed replies, the blocking remote calls built on them,
 * and the handlers that answer a peer's requests.
 *
 * Blocking and the 3000 ms timeout are not modelled as time: a remote call is
 * given the peer's behaviour, either no reply in time (Silent) or one reply.
 */
module Correlation {
  import opened Wrappers
  import opened Ring

  /** What a node asks of a peer; each request travels with a lockId. */
  datatype RequestBody =
    | FindSuccessor(id: NodeId)
    | Notify(candidate: NodeRef)
    | GetPredecessor
    | GetSuccessorList
    | GetDimFingerTable
    | GetInitialSocketPort
    | AddKey(key: Key, value: Value)
    | FindKey(key: Key)
    | Close

  /** What a peer answers; TerminatedMethod is the bare acknowledgement. */
  datatype ResponseBody =
    | FoundSuccessor(node: Option<Endpoint>)
    | Predecessor(node: Option<Endpoint>)
    | SuccessorList(nodes: seq<Endpoint>)
    | DimFingerTable(dim: int)
    | InitialSocketPort(port: int)
    | KeyAdded(owner: Endpoint)
    | KeyFound(value: Option<Value>)
    | Terminated

  /** A message on the wire: every request and every response carries a lockId. */
  datatype Message =
    | Request(request: RequestBody, lockId: LockId)
    | Response(response: ResponseBody, lockId: LockId)

  /** The response kind the caller of each remote operation expects (and casts to). */
  predicate Answers(request: RequestBody, response: ResponseBody) {
    match request
    case FindSuccessor(_) => response.FoundSuccessor?
    case Notify(_) => response.Terminated?
    case GetPredecessor => response.Predecessor?
    case GetSuccessorList => response.SuccessorList?
    case GetDimFingerTable => response.DimFingerTable?
    case GetInitialSocketPort => response.InitialSocketPort?
    case AddKey(_, _) => response.KeyAdded?
    case FindKey(_) => response.KeyFound?
    case Close => response.Terminated?
  }

  // ---------------------------------------------------------------------------
  // The correlation tables as a value
  // ---------------------------------------------------------------------------

  /** The counter lockID, the keys of lockList and the filed replies of messageList. */
  datatype CallTable = CallTable(next: LockId, locks: set<LockId>, messages: map<LockId, Message>)

  /**
   * lockList holds exactly the ids handed out so far, and every filed reply is a
   * response sitting under its own lockId, which was handed out.
   */
  predicate WellFormed(t: CallTable) {
    && (forall l :: l in t.locks ==> l < t.next)
    && (forall l :: 0 <= l < t.next ==> l in t.locks)
    && t.messages.Keys <= t.locks
    && (forall l :: l in t.messages ==> t.messages[l].Response? && t.messages[l].lockId == l)
  }

  /** createLock: installs a lock object under the counter's value, which it returns, and advances the counter. */
  function Issue(t: CallTable): (r: (LockId, CallTable))
    ensures r.0 == t.next && r.1.next == t.next + 1
    ensures r.1.locks == t.locks + {r.0} && r.1.messages == t.messages
    ensures WellFormed(t) ==> WellFormed(r.1) && r.0 !in t.locks
    ensures WellFormed(t) ==> forall l :: l in t.locks ==> l < r.0
  {
    (t.next, CallTable(t.next + 1, t.locks + {t.next}, t.messages))
  }

  /**
   * A response handler: files the reply under its lockId (a TerminatedMethod is
   * not filed, it only wakes the waiter). When the lockId was never handed out
   * the lock object is null and the handler fails (None).
   */
  function Deliver(t: CallTable, m: Message): (r: Option<CallTable>)
    requires m.Response?
    ensures r.None? <==> m.lockId !in t.locks
    ensures r.Some? ==> r.value.next == t.next && r.value.locks == t.locks
    ensures r.Some? && m.response.Terminated? ==> r.value.messages == t.messages
    ensures r.Some? && !m.response.Terminated? ==>
              && r.value.messages.Keys == t.messages.Keys + {m.lockId}
              && r.value.messages[m.lockId] == m
              && forall l :: l in t.messages && l != m.lockId ==> r.value.messages[l] == t.messages[l]
    ensures WellFormed(t) && r.Some? ==> WellFormed(r.value)
  {
    if m.lockId !in t.locks then None
    else if m.response.Terminated? then Some(t)
    else Some(t.(messages := t.messages[m.lockId := m]))
  }

  /** The end of a remote call: read the reply filed under the call's own lockId, then remove that key. */
  function Take(t: CallTable, id: LockId): (r: (Option<Message>, CallTable))
    ensures r.0.Some? <==> id in t.messages
    ensures r.0.Some? ==> r.0.value == t.messages[id]
    ensures r.1.messages.Keys == t.messages.Keys - {id}
    ensures forall l :: l in r.1.messages ==> r.1.messages[l] == t.messages[l]
    ensures r.1.next == t.next && r.1.locks == t.locks
    ensures WellFormed(t) ==> WellFormed(r.1)
  {
    (if id in t.messages then Some(t.messages[id]) else None, t.(messages := t.messages - {id}))
  }

  /** How the peer behaves after a request is sent: no reply within the timeout, or one reply. */
  datatype Peer = Silent | Replies(response: ResponseBody, lockId: LockId)

  /** Why a blocking remote call fails. */
  datatype RpcError =
    | Expired     // TimerExpiredException: nobody woke the caller within the timeout
    | NullReply   // woken, but nothing was filed under the lockId (the caller dereferences null)
    | WrongKind   // the filed reply is not of the kind the caller casts it to

  /**
   * One blocking remote call other than close (findSuccessor, notify,
   * getPredecessor, getSuccessorList, getInitialDimFingerTable,
   * getInitialSocketPort, addKey, findKey): issue a lock, send the request, let
   * the receive loop deliver the peer's reply, and, once woken, read and remove
   * the reply filed under the call's own lockId (notify reads nothing).
   */
  function Exchange(t: CallTable, request: RequestBody, peer: Peer): (r: (Result<ResponseBody, RpcError>, CallTable))
    requires WellFormed(t) && !request.Close?
    ensures WellFormed(r.1) && r.1.next == t.next + 1 && r.1.locks == t.locks + {t.next}
    // No reply in time, or a reply under another lockId (which wakes nobody here), is a timeout.
    ensures peer.Silent? || peer.lockId != t.next ==> r.0 == Err(Expired)
    ensures peer.Replies? && peer.lockId == t.next ==>
              if request.Notify? then r.0 == Ok(peer.response)
              else if Answers(request, peer.response) then r.0 == Ok(peer.response)
              else if peer.response.Terminated? then r.0 == Err(NullReply)
              else r.0 == Err(WrongKind)
    // A call that takes a reply of the expected kind leaves no trace in messageList.
    // A notify woken by a reply of another kind, and a failed cast, leave that
    // reply filed for good.
    ensures r.0.Ok? && Answers(request, r.0.value) ==> r.1.messages == t.messages
    ensures r.0.Ok? && !Answers(request, r.0.value) ==> r.1.messages == t.messages[t.next := Response(r.0.value, t.next)]
    // A failed call removes nothing: at most the peer's reply is filed, by its
    // handler, under the lockId it carries (a late or wrongly typed reply).
    ensures r.0.Err? ==> r.1.messages == if peer.Replies? && peer.lockId in r.1.locks && !peer.response.Terminated?
                                         then t.messages[peer.lockId := Response(peer.response, peer.lockId)]
                                         else t.messages
  {
    var (id, t1) := Issue(t);
    match peer
    case Silent => (Err(Expired), t1)
    case Replies(response, lockId) =>
      match Deliver(t1, Response(response, lockId))
      case None => (Err(Expired), t1)
      case Some(t2) =>
        if lockId != id then (Err(Expired), t2)
        else if request.Notify? then (Ok(response), t2)
        else if id in t2.messages && !Answers(request, t2.messages[id].response) then
          // The cast fails before the entry is removed.
          (Err(WrongKind), t2)
        else
          var (got, t3) := Take(t2, id);
          assert got.Some? ==> got.value == Response(response, id);
          (if got.None? then Err(NullReply) else Ok(got.value.response), t3)
  }

  /** Issuing n locks in a row: the ids handed out and the table afterwards. */
  function IssueMany(t: CallTable, n: nat): (r: (seq<LockId>, CallTable))
    decreases n
  {
    if n == 0 then ([], t)
    else
      var (id, t1) := Issue(t);
      var (rest, t2) := IssueMany(t1, n - 1);
      ([id] + rest, t2)
  }

  /** Successive createLock calls hand out consecutive, hence distinct and strictly increasing, lockIds. */
  lemma {:induction false} IssuedIdsIncrease(t: CallTable, n: nat)
    ensures |IssueMany(t, n).0| == n && IssueMany(t, n).1.next == t.next + n
    ensures forall i :: 0 <= i < n ==> IssueMany(t, n).0[i] == t.next + i
    ensures forall i, j :: 0 <= i < j < n ==> IssueMany(t, n).0[i] < IssueMany(t, n).0[j]
    decreases n
  {
    if n > 0 {
      IssuedIdsIncrease(Issue(t).1, n - 1);
    }
  }

  // ---------------------------------------------------------------------------
  // Answering a peer's requests
  // ---------------------------------------------------------------------------

  /** The outcome of a call into the local node that may raise TimerExpiredException. */
  datatype Answer<+T> = Answered(value: T) | TimedOut

  /**
   * What the local node answers when a request handler calls into it. Node
   * itself is not part of this model; its answers are given here.
   */
  datatype LocalNode = LocalNode(
    address: string,
    socketPort: int,
    dimFingerTable: int,
    lookup: NodeId -> Answer<Option<NodeRef>>,  // node.findSuccessor(id)
    notifyTimesOut: bool,                        // whether node.notify(candidate) raises a timeout
    predecessor: Answer<Option<NodeRef>>,        // node.getPredecessor()
    successorList: Answer<seq<NodeRef>>,         // node.getSuccessorList()
    retrieve: Key -> Option<Value>)              // node.retrieveKeyFromStore(key)

  /** What a handled request asks of the local node besides the reply. */
  datatype Effect =
    | NoEffect
    | Notified(candidate: NodeRef)   // node.notify(candidate) ran
    | Stored(key: Key, value: Value) // node.addKeyToStore(entry) ran
    | Closed                         // the socket is closed and the pool releases this peer

  datatype Handled = Handled(reply: Message, effect: Effect)

  /** The only failure of a handler: a timeout inside the node becomes UnexpectedBehaviourException. */
  datatype HandlerError = UnexpectedBehaviour

  /** The copies of a list of nodes put into a GetSuccessorListResponse. */
  function Wires(nodes: seq<NodeRef>): (copies: seq<Endpoint>)
    ensures |copies| == |nodes|
    ensures forall i :: 0 <= i < |nodes| ==> copies[i] == nodes[i].Wire()
  {
    seq(|nodes|, i requires 0 <= i < |nodes| => nodes[i].Wire())
  }

  /** The successor-list copy loop of the GetSuccessorList handler. */
  method CopySuccessorList(nodes: seq<NodeRef>) returns (copies: seq<Endpoint>)
    ensures copies == Wires(nodes)
  {
    copies := [];
    var i := 0;
    while i < |nodes|
      invariant 0 <= i <= |nodes|
      invariant |copies| == i
      invariant forall k :: 0 <= k < i ==> copies[k] == nodes[k].Wire()
    {
      copies := copies + [nodes[i].Wire()];
      i := i + 1;
    }
  }

  /** The nine request handlers: the reply they send and what they ask of the local node. */
  function Respond(request: RequestBody, lockId: LockId, node: LocalNode): (r: Result<Handled, HandlerError>)
    // Every reply is a response of the kind the caller expects, under the request's own lockId.
    ensures r.Ok? ==> r.value.reply.Response? && r.value.reply.lockId == lockId
    ensures r.Ok? ==> Answers(request, r.value.reply.response)
    // Only a timeout inside notify, getPredecessor or getSuccessorList makes a handler fail.
    ensures r.Err? <==> || (request.Notify? && node.notifyTimesOut)
                        || (request.GetPredecessor? && node.predecessor.TimedOut?)
                        || (request.GetSuccessorList? && node.successorList.TimedOut?)
    // findSuccessor: null iff the lookup gave null or timed out; otherwise a copy of the node found.
    ensures request.FindSuccessor? ==>
              var found := node.lookup(request.id);
              && r.Ok?
              && (r.value.reply.response.node.None? <==> (found.TimedOut? || found.value.None?))
              && (found.Answered? && found.value.Some? ==> r.value.reply.response.node == Some(found.value.value.Wire()))
    ensures request.GetPredecessor? && node.predecessor.Answered? ==>
              && (r.value.reply.response.node.None? <==> node.predecessor.value.None?)
              && (node.predecessor.value.Some? ==> r.value.reply.response.node == Some(node.predecessor.value.value.Wire()))
    // The successor list goes back with the same length and order.
    ensures request.GetSuccessorList? && node.successorList.Answered? ==>
              var sent := r.value.reply.response.nodes;
              && |sent| == |node.successorList.value|
              && forall i :: 0 <= i < |sent| ==> sent[i] == node.successorList.value[i].Wire()
    ensures request.GetDimFingerTable? ==> r == Ok(Handled(Response(DimFingerTable(node.dimFingerTable), lockId), NoEffect))
    ensures request.GetInitialSocketPort? ==> r == Ok(Handled(Response(InitialSocketPort(node.socketPort), lockId), NoEffect))
    ensures request.FindKey? ==> r == Ok(Handled(Response(KeyFound(node.retrieve(request.key)), lockId), NoEffect))
    // Side effects: notify and addKey reach the node before the reply; close tears the channel down.
    ensures r.Ok? ==> r.value.effect == match request
                                         case Notify(c) => Notified(c)
                                         case AddKey(k, v) => Stored(k, v)
                                         case Close => Closed
                                         case _ => NoEffect
    ensures request.AddKey? ==> r.value.reply.response.owner == Endpoint(node.address, node.socketPort)
  {
    match request
    case FindSuccessor(id) =>
      var found := node.lookup(id);
      var sent := if found.Answered? && found.value.Some? then Some(found.value.value.Wire()) else None;
      Ok(Handled(Response(FoundSuccessor(sent), lockId), NoEffect))
    case Notify(candidate) =>
      if node.notifyTimesOut then Err(UnexpectedBehaviour)
      else Ok(Handled(Response(Terminated, lockId), Notified(candidate)))
    case GetPredecessor =>
      (match node.predecessor
       case TimedOut => Err(UnexpectedBehaviour)
       case Answered(p) =>
         var sent := if p.Some? then Some(p.value.Wire()) else None;
         Ok(Handled(Response(Predecessor(sent), lockId), NoEffect)))
    case GetSuccessorList =>
      (match node.successorList
       case TimedOut => Err(UnexpectedBehaviour)
       case Answered(nodes) => Ok(Handled(Response(SuccessorList(Wires(nodes)), lockId), NoEffect)))
    case GetDimFingerTable =>
      Ok(Handled(Response(DimFingerTable(node.dimFingerTable), lockId), NoEffect))
    case GetInitialSocketPort =>
      Ok(Handled(Response(InitialSocketPort(node.socketPort), lockId), NoEffect))
    case AddKey(key, value) =>
      Ok(Handled(Response(KeyAdded(Endpoint(node.address, node.socketPort)), lockId), Stored(key, value)))
    case FindKey(key) =>
      Ok(Handled(Response(KeyFound(node.retrieve(key)), lockId), NoEffect))
    case Close =>
      Ok(Handled(Response(Terminated, lockId), Closed))
  }

  /**
   * Handlers and callers agree: when the peer's handler answers a request sent
   * under a fresh lockId, the blocking call on this side completes with exactly
   * that reply and leaves messageList as it was before the call.
   */
  lemma HandlerAnswersCaller(t: CallTable, request: RequestBody, node: LocalNode)
    requires WellFormed(t) && !request.Close?
    requires Respond(request, t.next, node).Ok?
    ensures var reply := Respond(request, t.next, node).value.reply;
            var (outcome, after) := Exchange(t, request, Replies(reply.response, reply.lockId));
            outcome == Ok(reply.response) && after.messages == t.messages
  {
  }

  /** The three operations a communicator does not support: each always throws. */
  function AddKeyToStore(key: Key, value: Value): (r: Result<(), HandlerError>)
    ensures r.Err?
  {
    Err(UnexpectedBehaviour)
  }

  function RetrieveKeyFromStore(key: Key): (r: Result<Value, HandlerError>)
    ensures r.Err?
  {
    Err(UnexpectedBehaviour)
  }

  function GetSocketManager(): (r: Result<(), HandlerError>)
    ensures r.Err?
  {
    Err(UnexpectedBehaviour)
  }

  /** Why close() fails: the connection has no joinNodeSocket to close. */
  datatype CloseFailure = NullSocket

  // ---------------------------------------------------------------------------
  // The communicator object
  // ---------------------------------------------------------------------------

  class NodeCommunicator {
    var nodeId: Option<NodeId>        // the peer's id; unset for an accepted connection until adopted
    var ipAddress: string
    var socketPort: int
    var lockID: LockId
    var lockList: set<LockId>
    var messageList: map<LockId, Message>
    var sent: seq<Message>            // what was written to the socket, in order
    var open: bool                    // whether the socket node is still open
    var joined: bool                  // whether joinNodeSocket was opened (outgoing connections only)

    function Table(): CallTable
      reads this
    {
      CallTable(lockID, lockList, messageList)
    }

    ghost predicate Valid()
      reads this
    {
      WellFormed(Table())
    }

    /** An outgoing connection to a known peer (the socket set-up itself is not modelled). */
    constructor Outgoing(address: string, port: int, peer: NodeId)
      ensures Valid() && open && joined && sent == []
      ensures nodeId == Some(peer) && ipAddress == address && socketPort == port
      ensures Table() == CallTable(0, {}, map[])
    {
      nodeId, ipAddress, socketPort := Some(peer), address, port;
      lockID, lockList, messageList := 0, {}, map[];
      sent, open, joined := [], true, true;
    }

    /** A connection accepted from a peer whose id and port are not known yet. */
    constructor Incoming(address: string)
      ensures Valid() && open && !joined && sent == []
      ensures nodeId == None && ipAddress == address && socketPort == 0
      ensures Table() == CallTable(0, {}, map[])
    {
      nodeId, ipAddress, socketPort := None, address, 0;
      lockID, lockList, messageList := 0, {}, map[];
      sent, open, joined := [], true, false;
    }

    method CreateLock() returns (id: LockId)
      requires Valid()
      modifies this`lockID, this`lockList
      ensures Valid()
      ensures (id, Table()) == Issue(old(Table()))
    {
      lockList := lockList + {lockID};
      lockID := lockID + 1;
      id := lockID - 1;
    }

    /** The response handlers (including TerminatedMethod): file the reply and wake its waiter. */
    method HandleResponse(m: Message) returns (delivered: bool)
      requires Valid() && m.Response?
      modifies this`messageList
      ensures Valid()
      ensures delivered <==> m.lockId in lockList
      ensures delivered ==> Table() == Deliver(old(Table()), m).value
      ensures !delivered ==> messageList == old(messageList)
    {
      delivered := m.lockId in lockList;
      if delivered && !m.response.Terminated? {
        messageList := messageList[m.lockId := m];
      }
    }

    /** A blocking remote call: createLock, send, wait for the reply, read it, remove it. */
    method Invoke(request: RequestBody, peer: Peer) returns (r: Result<ResponseBody, RpcError>)
      requires Valid() && !request.Close?
      modifies this`lockID, this`lockList, this`messageList, this`sent
      ensures Valid()
      ensures (r, Table()) == Exchange(old(Table()), request, peer)
      ensures sent == old(sent) + [Request(request, old(lockID))]
    {
      var id := CreateLock();
      sent := sent + [Request(request, id)];
      match peer {
        case Silent =>
          r := Err(Expired);
        case Replies(response, lockId) =>
          var delivered := HandleResponse(Response(response, lockId));
          if !delivered || lockId != id {
            r := Err(Expired);
          } else if request.Notify? {
            r := Ok(response);
          } else {
            var filed := if id in messageList then Some(messageList[id]) else None;
            if filed.Some? && !Answers(request, filed.value.response) {
              r := Err(WrongKind);
            } else {
              messageList := messageList - {id};
              r := if filed.None? then Err(NullReply) else Ok(filed.value.response);
            }
          }
      }
    }

    /** The request handlers: answer under the request's lockId; close also shuts the channel. */
    method HandleRequest(m: Message, node: LocalNode) returns (r: Result<Effect, HandlerError>)
      requires m.Request?
      modifies this`sent, this`open
      ensures var h := Respond(m.request, m.lockId, node);
              && (r.Ok? <==> h.Ok?)
              && (h.Ok? ==> r.value == h.value.effect && sent == old(sent) + [h.value.reply])
              && (h.Err? ==> sent == old(sent))
      ensures open == (old(open) && !(r.Ok? && m.request.Close?))
    {
      if m.request.GetSuccessorList? && node.successorList.Answered? {
        // The handler copies the successor list element by element before replying.
        var copies := CopySuccessorList(node.successorList.value);
        sent := sent + [Response(SuccessorList(copies), m.lockId)];
        r := Ok(NoEffect);
        return;
      }
      var h := Respond(m.request, m.lockId, node);
      if h.Err? {
        r := Err(h.error);
      } else {
        sent := sent + [h.value.reply];
        if m.request.Close? {
          open := false;
        }
        r := Ok(h.value.effect);
      }
    }

    method SetNodeId(id: NodeId)
      modifies this`nodeId
      ensures nodeId == Some(id)
    {
      nodeId := Some(id);
    }

    method SetSocketPort(port: int)
      modifies this`socketPort
      ensures socketPort == port
    {
      socketPort := port;
    }

    /**
     * close(): a CloseRequest goes out under a fresh lock, then the socket node
     * is closed, then joinNodeSocket; that socket exists only on an outgoing
     * connection, so on an accepted one the call ends in a NullPointerException.
     */
    method Close() returns (r: Result<(), CloseFailure>)
      requires Valid()
      modifies this`lockID, this`lockList, this`sent, this`open
      ensures Valid() && !open
      ensures Table() == Issue(old(Table())).1
      ensures sent == old(sent) + [Request(RequestBody.Close, old(lockID))]
      ensures r.Err? <==> !joined
    {
      var id := CreateLock();
      sent := sent + [Request(RequestBody.Close, id)];
      open := false;
      if !joined {
        return Err(NullSocket);
      }
      r := Ok(());
    }
  }
}
