# Chord bookkeeping core in Dafny

This project models the bookkeeping core of a Chord distributed hash table node and of the network monitor that observes it. The Dafny model is verified against stated properties. It has six parts:

- **Pooling** (`SocketManager`): the node's pool of outgoing connections. `socketList` maps a peer id to its communicator and `socketNumber` maps it to a reference count. The pool invariant is that both maps have the same keys, every count is at least 1, and the node's own id is never pooled. `createConnection` (both overloads), `closeCommunicator` and `removeNode` are modelled as imperative methods. The outgoing `createConnection`, `closeCommunicator` and `removeNode` are each proved equal to a pure function on the pair of maps. The accepting `createConnection` leaves the maps alone; its contract follows the communicator it creates through the port request and, for the node's own id, through `close()`. Further lemmas prove two things: opening a connection and closing it again restores the pool, and the count is the number of opens minus the number of closes.
- **Correlation** (`NodeCommunicator`): the request/response correlation of one connection. It covers:
  - the lock counter (`createLock`);
  - the response handlers that file a reply under its lockId;
  - the read-then-remove at the end of each blocking remote call;
  - the nine request handlers and the three unsupported operations.

  A remote call is given the peer's behaviour (no reply in time, or one reply) instead of a clock. The proofs show that issued lockIds are strictly increasing, that a call which returns a reply of the kind it expects leaves `messageList` as it was (a notify woken by a reply of another kind leaves that reply filed), and that a reply from the peer's handler completes the caller's call with exactly that reply.
- **Maintenance** (`UpdateNode`): one round of the stabilisation thread and the whole `run` loop.
  - Each call into the node is scripted as how it ended and what the node's state is afterwards.
  - The verdict compares the successor ids before and after `listStabilize` (only when a predecessor is known), in order. It also compares the finger-table ids before and after the `fixFingers` calls, in order.
  - An `IOException` ends the thread, while a timeout does not.
  - A lemma proves that a node that never learns a predecessor never reports itself stable.
- **Records** (`NodeInfo`): the per-node record of the monitor, with its stable flag and three start times.
- **Monitoring** (`Controller`): the monitor's registry of connected nodes. It covers:
  - `newConnection`, `disconnectedNode`, and `updateStable` with its do-while all-stable check;
  - the three start and three end operations.

  Printed reports become `Report` values, and readings of the clock are opaque instants passed in. A `NullPointerException` is an `Err` result.
- **Dispatch** (`ControllerCommunicator`): the monitor's end of one node's connection. It records the node id from `ConnectedMessage` and forwards each message to the monitor. It acknowledges the message under its lock id only when the monitor operation returned normally.

Every imperative class is modelled as a Dafny class whose fields the methods update. Each method's postcondition ties the new state to a pure function of the old state. The properties the source promises are proved about those functions.

## Model

Source paths are relative to the repository root. The abbreviations used below are:

- `SM` = `src/main/java/com/ssau/chord/model/network/SocketManager.java`
- `NC` = `src/main/java/com/ssau/chord/model/network/NodeCommunicator.java`
- `UN` = `src/main/java/com/ssau/chord/model/node/UpdateNode.java`
- `NI` = `src/main/java/com/ssau/chord/model/controller/NodeInfo.java`
- `C` = `src/main/java/com/ssau/chord/model/controller/Controller.java`
- `CC` = `src/main/java/com/ssau/chord/model/controller/ControllerCommunicator.java`

The table itself spells the paths out in full.

| member | source | states |
|---|---|---|
| Pooling.Connect | src/main/java/com/ssau/chord/model/network/SocketManager.java:51-71 | Connecting to the node's own id returns the node itself and leaves the pool as it was. Any other id returns the pooled communicator, or the newly created one when none was pooled. That id's count rises by one, every other entry is unchanged, and the pool invariant is kept. |
| Pooling.Close | src/main/java/com/ssau/chord/model/network/SocketManager.java:114-129 | The node's own id or an id that is not pooled changes nothing. Otherwise the count drops by one, and the entry is removed exactly when the count was 1. Other entries are unchanged and the invariant is kept. |
| Pooling.Evict | src/main/java/com/ssau/chord/model/network/SocketManager.java:136-140 | The id is gone from both maps whatever its count. Every other entry is unchanged and the invariant is kept. |
| Pooling.ConnectThenClose | src/main/java/com/ssau/chord/model/network/SocketManager.java:51-129 | createConnection followed by closeCommunicator on the same id restores the pool exactly. |
| Pooling.CountIsBalance | src/main/java/com/ssau/chord/model/network/SocketManager.java:51-129 | Take any sequence of opens and closes on one peer in which no close comes without a matching open. The count afterwards is the count before plus the opens minus the closes, and the invariant holds throughout. |
| Pooling.SocketManager.constructor | src/main/java/com/ssau/chord/model/network/SocketManager.java:36-40 | Both maps start empty. |
| Pooling.SocketManager.CreateConnection | src/main/java/com/ssau/chord/model/network/SocketManager.java:51-71 | Fails with ConnectionErrorException exactly when the peer is not the node itself, is not pooled, and is unreachable; a failure leaves the pool unchanged. Otherwise the result and the new maps are those of Connect. A newly pooled communicator is fresh, open, and addressed to the peer's id, address and port. |
| Pooling.SocketManager.AcceptConnection | src/main/java/com/ssau/chord/model/network/SocketManager.java:80-103 | Leaves the pool maps untouched. The new communicator has no joined socket and asks the peer for its port through the blocking call under lockId 0; the outcome is Exchange's. A timeout is the error that ends the process, and a null or wrongly typed reply is a failure. When the hashed id is not the node's own, the communicator adopts that id and the port. When it is the node's own, the communicator is closed, and the close fails because the accepted connection has no joined socket. |
| Pooling.SocketManager.CloseCommunicator | src/main/java/com/ssau/chord/model/network/SocketManager.java:114-129 | The new maps are Close of the old ones. |
| Pooling.SocketManager.RemoveNode | src/main/java/com/ssau/chord/model/network/SocketManager.java:136-140 | Asks the node to purge the peer, then the new maps are Evict of the old ones. |
| Correlation.Issue | src/main/java/com/ssau/chord/model/network/NodeCommunicator.java:83-87 | createLock returns the counter's value, installs a lock under it and advances the counter by one. The id is above every id handed out before, and the table stays well formed. |
| Correlation.IssuedIdsIncrease | src/main/java/com/ssau/chord/model/network/NodeCommunicator.java:83-87 | n successive createLock calls hand out the ids next, next+1, …, next+n-1, which are strictly increasing and hence distinct. |
| Correlation.NodeCommunicator.Outgoing | src/main/java/com/ssau/chord/model/network/NodeCommunicator.java:44-67 | The outgoing connection starts addressed to the peer's id, address and port, open, with a joined socket, an empty call table and nothing sent. |
| Correlation.NodeCommunicator.Incoming | src/main/java/com/ssau/chord/model/network/NodeCommunicator.java:70-76 | The accepted connection starts with the peer's address only, open, without a joined socket, an empty call table and nothing sent. |
| Correlation.NodeCommunicator.Close | src/main/java/com/ssau/chord/model/network/NodeCommunicator.java:90-103 | close() issues a lock, sends a CloseRequest under it and shuts the channel. It fails (a null joinNodeSocket) exactly when the connection was accepted rather than opened. |
| Correlation.NodeCommunicator.CreateLock | src/main/java/com/ssau/chord/model/network/NodeCommunicator.java:83-87 | The returned id and the new fields are those of Issue, and the table stays well formed. |
| Correlation.Deliver | src/main/java/com/ssau/chord/model/network/NodeCommunicator.java:502-749 | A response handler fails (null lock) exactly when the lockId was never issued. Otherwise it files the reply under its own lockId and leaves every other filed reply alone. A TerminatedMethod reply is not filed. |
| Correlation.NodeCommunicator.HandleResponse | src/main/java/com/ssau/chord/model/network/NodeCommunicator.java:502-749 | Delivered exactly when the lockId was issued, with the new table equal to Deliver's. Nothing changes otherwise. |
| Correlation.Take | src/main/java/com/ssau/chord/model/network/NodeCommunicator.java:260-261 | Reads the reply filed under the call's lockId (null when there is none) and removes that key. All other filed replies are kept. |
| Correlation.Exchange | src/main/java/com/ssau/chord/model/network/NodeCommunicator.java:234-263 | A remote call times out when the peer is silent or replies under another lockId. A reply of the expected kind is returned, a bare TerminatedMethod is a null reply, and any other kind is a failed cast. A call returning a reply of the kind it expects leaves messageList as it was; a notify woken by a reply of another kind leaves that reply filed. A failed call removes nothing from messageList: a timeout leaves it as it was, except that a late reply under another issued lockId is filed there, and a failed cast leaves the wrongly typed reply filed. The table stays well formed and exactly one lock is issued. |
| Correlation.NodeCommunicator.Invoke | src/main/java/com/ssau/chord/model/network/NodeCommunicator.java:234-263 | The outcome and the new table are those of Exchange. The request is sent once, under the lockId just issued. |
| Correlation.Respond | src/main/java/com/ssau/chord/model/network/NodeCommunicator.java:478-742 | Every request handler replies under the request's own lockId with the response kind the caller expects. A handler fails exactly when notify, getPredecessor or getSuccessorList times out inside the node. findSuccessor replies null exactly when the lookup gave null or timed out, and otherwise with a copy of the node found. notify and addKey reach the node, and close shuts the channel. |
| Correlation.Wires | src/main/java/com/ssau/chord/model/network/NodeCommunicator.java:664-668 | The copies sent for a successor list have the same length and order as the list. Element i is the copy of node i. |
| Correlation.CopySuccessorList | src/main/java/com/ssau/chord/model/network/NodeCommunicator.java:663-673 | The copy loop of the GetSuccessorList handler yields Wires of the list, keeping its length and order; HandleRequest builds the successor-list reply with it. |
| Correlation.HandlerAnswersCaller | src/main/java/com/ssau/chord/model/network/NodeCommunicator.java:234-263 | Suppose the peer's handler answers a request sent under a fresh lockId. Then the caller's blocking call completes with exactly that reply and leaves messageList as before the call. |
| Correlation.NodeCommunicator.HandleRequest | src/main/java/com/ssau/chord/model/network/NodeCommunicator.java:478-742 | Sends Respond's reply and reports its effect. The close handler also shuts the channel, and a failing handler sends nothing. |
| Correlation.NodeCommunicator.SetNodeId | src/main/java/com/ssau/chord/model/network/NodeCommunicator.java:437-439 | The peer id becomes the given id. |
| Correlation.NodeCommunicator.SetSocketPort | src/main/java/com/ssau/chord/model/network/NodeCommunicator.java:452-454 | The peer port becomes the given port. |
| Correlation.AddKeyToStore | src/main/java/com/ssau/chord/model/network/NodeCommunicator.java:378-380 | Always throws. |
| Correlation.RetrieveKeyFromStore | src/main/java/com/ssau/chord/model/network/NodeCommunicator.java:387-389 | Always throws. |
| Correlation.GetSocketManager | src/main/java/com/ssau/chord/model/network/NodeCommunicator.java:462-464 | Always throws. |
| Maintenance.Snapshot | src/main/java/com/ssau/chord/model/node/UpdateNode.java:46-48 | The snapshot loop yields the ids of the nodes, in the list's order. |
| Maintenance.FirstFailure | src/main/java/com/ssau/chord/model/node/UpdateNode.java:76-91 | The index of the first fixFingers call that raised an IOException, or the number of calls when none did. |
| Maintenance.RoundOf | src/main/java/com/ssau/chord/model/node/UpdateNode.java:44-102 | A round completes exactly when neither listStabilize (when called) nor any fixFingers raised an IOException; timeouts are not fatal. Its calls are listStabilize (only with a predecessor), every fixFingers, then one updateStable. A crashed round never reports. The verdict holds exactly when two conditions hold. First, with a predecessor, the successor ids after listStabilize equal those before, in order; without one, the previous verdict holds. Second, the finger ids after the fixFingers calls equal those before, in order. |
| Maintenance.RunOf | src/main/java/com/ssau/chord/model/node/UpdateNode.java:41-109 | The run makes at most one round per script. Rounds follow one another while the flag is set and no round crashed, with the verdict carried from round to round. |
| Maintenance.RunOfStep | src/main/java/com/ssau/chord/model/node/UpdateNode.java:41-109 | One round unfolded: a crashed round ends the run with its own calls; a reported round is followed by the rest of the run from its verdict, its state and the flag as the stop request left it. |
| Maintenance.CrashEndsRun | src/main/java/com/ssau/chord/model/node/UpdateNode.java:41-109 | An IOException in the first round ends the thread: exactly one round is run and its calls are the run's calls. |
| Maintenance.StopEndsRun | src/main/java/com/ssau/chord/model/node/UpdateNode.java:31-33 | A stopUpdate during round i clears the flag, so at most i + 1 rounds are run whatever the later scripts are. |
| Maintenance.NeverStableWithoutPredecessor | src/main/java/com/ssau/chord/model/node/UpdateNode.java:42-65 | A node that never learns a predecessor never reports itself stable: the verdict starts false and the successor check is skipped. |
| Maintenance.Switch.constructor | src/main/java/com/ssau/chord/model/node/UpdateNode.java:18-18 | The shared flag starts set. |
| Maintenance.UpdateNode.constructor | src/main/java/com/ssau/chord/model/node/UpdateNode.java:24-26 | The thread keeps the node it updates and the shared flag, and the verdict the first round starts from is false (the local flag run() begins with). |
| Maintenance.Switch.StopUpdate | src/main/java/com/ssau/chord/model/node/UpdateNode.java:31-33 | Clears the shared active flag. |
| Maintenance.UpdateNode.Stabilize | src/main/java/com/ssau/chord/model/node/UpdateNode.java:44-69 | listStabilize runs only with a predecessor, and it crashes exactly on an IOException. Otherwise the verdict becomes whether the successor ids are unchanged in order. |
| Maintenance.UpdateNode.FixAll | src/main/java/com/ssau/chord/model/node/UpdateNode.java:76-91 | The loop calls fixFingers once per finger and stops at the first IOException. The node's state is that after the last call made. |
| Maintenance.UpdateNode.Refresh | src/main/java/com/ssau/chord/model/node/UpdateNode.java:72-97 | Unless a fixFingers call crashed, the verdict is kept only if the finger ids are unchanged in order. |
| Maintenance.UpdateNode.Round | src/main/java/com/ssau/chord/model/node/UpdateNode.java:44-102 | The round's end, the node's state and the calls made are those of RoundOf. |
| Maintenance.UpdateNode.Turn | src/main/java/com/ssau/chord/model/node/UpdateNode.java:43-108 | One loop pass adds the round's calls. The rest of the run continues from the new verdict, state and flag. |
| Maintenance.UpdateNode.Run | src/main/java/com/ssau/chord/model/node/UpdateNode.java:41-109 | The verdict starts false, as run()'s local does, so every run starts afresh; the number of rounds and the calls made are those of RunOf from a false verdict. |
| Records.WithStart | src/main/java/com/ssau/chord/model/controller/NodeInfo.java:35-53 | Setting one operation's start time leaves the other start times and the stable flag unchanged. |
| Records.NodeInfo.constructor | src/main/java/com/ssau/chord/model/controller/NodeInfo.java:19-21 | A new record is not stable and has no start times. |
| Records.NodeInfo.GetStartTime | src/main/java/com/ssau/chord/model/controller/NodeInfo.java:31-49 | Each getter returns the start time of its operation, None until its setter has run; together with WithStart, a getter after a setter returns the time set. |
| Records.NodeInfo.SetStability | src/main/java/com/ssau/chord/model/controller/NodeInfo.java:27-29 | Only the stable flag changes. |
| Records.NodeInfo.SetStartTime | src/main/java/com/ssau/chord/model/controller/NodeInfo.java:35-53 | The record becomes WithStart of the old record. |
| Monitoring.MarkStable | src/main/java/com/ssau/chord/model/controller/Controller.java:82-100 | Fails exactly when the id is null or not registered. Otherwise that node's record changes in its flag alone (its start times are kept), every other record, the node set and the convergence start are kept. A stabilisation report (from the convergence start to now, with the node count) is added exactly when the new flag is true and every node is stable. |
| Monitoring.Connect | src/main/java/com/ssau/chord/model/controller/Controller.java:53-59 | The node gets a fresh record, replacing any it had, and the convergence start is reset. The first node alone is stable at once, with a report. The model takes one instant for the two clock readings (the reset and the report's end), so that report starts and ends at the same instant. |
| Monitoring.Disconnect | src/main/java/com/ssau/chord/model/controller/Controller.java:66-70 | The node's record goes, if there was one. The others are kept, the convergence start is reset and no report is made. |
| Monitoring.Begin | src/main/java/com/ssau/chord/model/controller/Controller.java:107-109 | Fails exactly for an unknown node. Otherwise only that node's start time for the operation becomes now. |
| Monitoring.Finish | src/main/java/com/ssau/chord/model/controller/Controller.java:117-124 | Fails exactly for an unknown node or an operation never started. Otherwise one report is added, measured from that start, with the node count. |
| Monitoring.BeginThenFinish | src/main/java/com/ssau/chord/model/controller/Controller.java:107-124 | Starting and then ending an operation yields exactly one report, measured from the start. |
| Monitoring.JoinUnsettles | src/main/java/com/ssau/chord/model/controller/Controller.java:53-59 | A node joining a non-empty network makes it not all-stable and adds no report. |
| Monitoring.NoReportWhileAnotherUnstable | src/main/java/com/ssau/chord/model/controller/Controller.java:82-100 | No stabilisation report is made while some other node is unstable. |
| Monitoring.Remove | src/main/java/com/ssau/chord/model/controller/Controller.java:66-67 | Removing a key from the insertion order keeps exactly the other keys, each once when there were no repeats, and an absent key changes nothing. |
| Monitoring.RemoveAt | src/main/java/com/ssau/chord/model/controller/Controller.java:66-67 | In an insertion order without repeats, removing the key at position k leaves the keys before it followed by the keys after it, in their order. |
| Monitoring.Controller.constructor | src/main/java/com/ssau/chord/model/controller/Controller.java:34-36 | The monitor starts with no nodes, no convergence start and no reports. |
| Monitoring.Controller.AllNodesStable | src/main/java/com/ssau/chord/model/controller/Controller.java:85-91 | The do-while over the records in connection order answers exactly whether every registered node is stable. |
| Monitoring.Controller.SetFlag | src/main/java/com/ssau/chord/model/controller/Controller.java:83-83 | Only the addressed node's flag changes; no other node shares its record. |
| Monitoring.Controller.ReportIfSettled | src/main/java/com/ssau/chord/model/controller/Controller.java:84-98 | A report is added exactly when every node is stable. |
| Monitoring.Controller.UpdateStable | src/main/java/com/ssau/chord/model/controller/Controller.java:82-100 | The outcome and the new registry are those of MarkStable, and a failure changes nothing. The monitor's invariant is kept. |
| Monitoring.Controller.Enlist | src/main/java/com/ssau/chord/model/controller/Controller.java:54-54 | The LinkedHashMap's insertion order: a new id is appended, an id already present keeps its place, and the order stays without repeats and in step with the map's keys. |
| Monitoring.Controller.Put | src/main/java/com/ssau/chord/model/controller/Controller.java:54-55 | A fresh NodeInfo replaces any record under the id, the convergence start becomes now, and every other record is kept. |
| Monitoring.Controller.Register | src/main/java/com/ssau/chord/model/controller/Controller.java:54-55 | A fresh record is put under the id, the convergence start is reset, and a new id goes last in the connection order. |
| Monitoring.Controller.NewConnection | src/main/java/com/ssau/chord/model/controller/Controller.java:53-59 | The new registry is Connect of the old one and the invariant is kept. A new id goes last in the connection order. |
| Monitoring.Controller.DisconnectedNode | src/main/java/com/ssau/chord/model/controller/Controller.java:66-70 | The new registry is Disconnect of the old one. The id leaves the connection order and the others keep their order. |
| Monitoring.Controller.Start | src/main/java/com/ssau/chord/model/controller/Controller.java:107-109 | The outcome and the new registry are those of Begin, and a failure changes nothing. |
| Monitoring.Controller.End | src/main/java/com/ssau/chord/model/controller/Controller.java:117-124 | The outcome and the new registry are those of Finish, and a failure changes nothing. |
| Dispatch.Sender | src/main/java/com/ssau/chord/model/controller/ControllerCommunicator.java:24-25 | The connection's node id becomes the ConnectedMessage's id and is kept by every other message. |
| Dispatch.Perform | src/main/java/com/ssau/chord/model/controller/ControllerCommunicator.java:23-76 | ConnectedMessage always succeeds. Any other message fails when no node id is recorded or the node is gone. Stability and start messages succeed for a registered node. Only ConnectedMessage changes the node set. Only ConnectedMessage and StableMessage can add a stabilisation report. |
| Dispatch.ConnectedEffect | src/main/java/com/ssau/chord/model/controller/ControllerCommunicator.java:23-28 | ConnectedMessage adds the sender with a record holding no start times, keeps every other record and resets the convergence start. |
| Dispatch.StabilityEffect | src/main/java/com/ssau/chord/model/controller/ControllerCommunicator.java:30-40 | StableMessage and NotStableMessage set the sender's flag to true and false respectively. They keep its start times, every other record and the convergence start, and add a report exactly for StableMessage with every node stable. |
| Dispatch.StartEffect | src/main/java/com/ssau/chord/model/controller/ControllerCommunicator.java:42-70 | A start message sets the sender's start time of its own operation to now and changes nothing else. |
| Dispatch.EndEffect | src/main/java/com/ssau/chord/model/controller/ControllerCommunicator.java:48-76 | An end message succeeds exactly when the sender is registered and has started that operation. It then adds one report of that operation from its start to now with the node count, and changes nothing else. |
| Dispatch.ConnectedThenStable | src/main/java/com/ssau/chord/model/controller/ControllerCommunicator.java:24-34 | A node that has connected and then declares itself stable is acknowledged. |
| Dispatch.EndBeforeStartFails | src/main/java/com/ssau/chord/model/controller/ControllerCommunicator.java:24-52 | Right after connecting, an end message without its start is never acknowledged. |
| Dispatch.ControllerCommunicator.constructor | src/main/java/com/ssau/chord/model/controller/ControllerCommunicator.java:17-20 | The connection knows no node id yet and has acknowledged nothing. |
| Dispatch.ControllerCommunicator.OnConnected | src/main/java/com/ssau/chord/model/controller/ControllerCommunicator.java:24-28 | Records the node id first, then the monitor's new registry is Perform's. |
| Dispatch.ControllerCommunicator.OnStability | src/main/java/com/ssau/chord/model/controller/ControllerCommunicator.java:30-40 | The outcome and the new registry are Perform's for StableMessage and NotStableMessage. |
| Dispatch.ControllerCommunicator.OnStart | src/main/java/com/ssau/chord/model/controller/ControllerCommunicator.java:42-46 | The outcome and the new registry are Perform's for the three start messages. |
| Dispatch.ControllerCommunicator.OnEnd | src/main/java/com/ssau/chord/model/controller/ControllerCommunicator.java:48-52 | The outcome and the new registry are Perform's for the three end messages. |
| Dispatch.ControllerCommunicator.Apply | src/main/java/com/ssau/chord/model/controller/ControllerCommunicator.java:23-76 | For every message, the recorded id, the outcome and the new registry are those of Sender and Perform. |
| Dispatch.ControllerCommunicator.Handle | src/main/java/com/ssau/chord/model/controller/ControllerCommunicator.java:23-76 | As Apply, and a ReceivedMessage carrying the message's lock id is sent exactly when the monitor operation returned normally. |
| Dispatch.ControllerCommunicator.DisconnectedNode | src/main/java/com/ssau/chord/model/controller/ControllerCommunicator.java:78-80 | The new registry is Disconnect with the recorded node id. |

## Left out

- Sockets, object streams and the message classes are left out. The messages are datatype constructors, and what is written to a socket is an append-only `sent` sequence or outbox.
- The two NodeCommunicator constructors keep only their field initialisation and whether a socket was joined; opening the socket is not modelled.
- Correlation.NodeCommunicator.Close: the wait for the peer's reply to the CloseRequest, the closing of the two sockets and the final `closeCommunicator` call on the node's pool are not modelled; the close is the lock, the request, the shut channel and the failure on a missing joined socket.
- `sendMessage` is not modelled beyond that append.
- Threads, `wait`/`notifyAll`, executors and the 3000 ms timeout are left out. A remote call is given the peer's behaviour (silent, or one reply under some lockId). Several calls in flight on one connection and concurrent handler execution are not modelled. Neither are the `InterruptedException`/`ExecutionException` paths.
- The clock is left out. Instants are opaque naturals passed in by the caller. Elapsed times in milliseconds and seconds as doubles are not computed, and a report carries its two instants.
- Console output (the monitor's printed lines, the connection error message, `exit(1)`) is left out. The monitor's reports are `Report` values; the accepting createConnection returns an error instead of exiting (`PortRequestExpired`), and the NullPointerException that `close()` raises on the missing joinNodeSocket, which its `IOException` handler does not catch, is the `SelfCloseFailed` error.
- `Thread.sleep` in the maintenance loop is left out.
- Node and Hash are not part of this model. Their answers are parameters: the `LocalNode` record for request handlers, scripted steps for `listStabilize`/`fixFingers`, a reachability flag for opening a socket, and a hash function for the accepting createConnection.
- The monitor's null-object variant (DisconnectedController) and NodeControllerCommunicator are not part of this model.
- Maintenance.RunOf: the finger table, a map from finger index to node in the source, is modelled as a sequence listed by index. Its iteration order is that index order.
- Correlation.Issue: the Java `Long` lock counter is an unbounded natural, so its overflow is not modelled.
- Correlation.Exchange: a slot whose call timed out is never cancelled. Its lock stays in `lockList`, and a late reply stays filed in `messageList` forever; the model keeps both, as the code does.
- Pooling.Count: the reference count is a Java `Integer` in the source and an unbounded natural here, so its overflow past 2^31 - 1 opens is not modelled.
