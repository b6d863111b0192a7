/** Identifiers and handles shared by the node, the network layer and the monitor. */
module Ring {

  /** A node identifier on the ring (the hash of address and port). */
  type NodeId = nat

  /** A correlation identifier handed out by a communicator's lock counter. */
  type LockId = nat

  /** A key of the distributed store. */
  type Key = nat

  /** A stored object, kept as its serialised form. */
  type Value = seq<char>

  /** A wall-clock reading, kept opaque: only equality and order of readings are used. */
  type Instant = nat

  /** The address and port of a node, which is what a node copy sent over the wire carries. */
  datatype Endpoint = Endpoint(address: string, port: int)

  /** A handle to a node: its identifier and where it listens. */
  datatype NodeRef = NodeRef(id: NodeId, address: string, port: int) {
    /** The copy of this node put into a response: a new node built from address and port. */
    function Wire(): Endpoint {
      Endpoint(address, port)
    }
  }

  /** The identifiers of a list of nodes, in the list's order. */
  function Ids(nodes: seq<NodeRef>): (ids: seq<NodeId>)
    ensures |ids| == |nodes|
    ensures forall i :: 0 <= i < |nodes| ==> ids[i] == nodes[i].id
  {
    seq(|nodes|, i requires 0 <= i < |nodes| => nodes[i].id)
  }
}
