/**
 * The network monitor (Controller): a registry of the connected nodes in
 * connection order, the instant the network last changed, and the reports it
 * prints — a stabilisation report when every node has declared itself stable,
 * and a duration report when a node ends a timed operation.
 */
module Monitoring {
  import opened Wrappers
  import opened Ring
  import opened Records

  /** What the monitor prints, with the instants it measures between and the number of nodes. */
  datatype Report =
    | Stabilized(start: Instant, end: Instant, nodes: nat)
    | Completed(op: Operation, start: Instant, end: Instant, nodes: nat)

  /** A NullPointerException: an unknown or unrecorded node id, or an operation ended that never started. */
  datatype Failure = NullPointer

  /** The monitor as a value: the records by node id, the start of the current convergence, the reports so far. */
  datatype Registry = Registry(nodes: map<NodeId, Record>, since: Option<Instant>, reports: seq<Report>)

  /** Every change of membership sets the convergence start, so a non-empty registry always has one. */
  predicate Consistent(g: Registry) {
    g.nodes != map[] ==> g.since.Some?
  }

  predicate AllStable(nodes: map<NodeId, Record>) {
    forall id :: id in nodes ==> nodes[id].stable
  }

  /**
   * updateStable: the node's flag is set; when the new flag is true and every
   * node is now stable, the time since the last membership change is reported.
   * An id that is not registered (or no id at all) is a NullPointerException
   * and changes nothing.
   */
  function MarkStable(g: Registry, id: Option<NodeId>, stable: bool, now: Instant): (r: Result<Registry, Failure>)
    requires Consistent(g)
    ensures r.Err? <==> id.None? || id.value !in g.nodes
    ensures r.Ok? ==> && r.value.nodes.Keys == g.nodes.Keys
                      && r.value.nodes[id.value] == g.nodes[id.value].(stable := stable)
                      && (forall other :: other in g.nodes && other != id.value ==> r.value.nodes[other] == g.nodes[other])
                      && r.value.since == g.since
                      && Consistent(r.value)
    ensures r.Ok? ==> (r.value.reports != g.reports <==> stable && AllStable(r.value.nodes))
    ensures r.Ok? && r.value.reports != g.reports ==> r.value.reports == g.reports + [Stabilized(g.since.value, now, |g.nodes|)]
  {
    if id.None? || id.value !in g.nodes then Err(NullPointer)
    else
      var flagged := Flagged(g, id.value, stable);
      Ok(if stable then Settle(flagged, now) else flagged)
  }

  /** The registry with the stable flag of a registered node set. */
  function Flagged(g: Registry, id: NodeId, stable: bool): (r: Registry)
    requires id in g.nodes
    ensures r.nodes.Keys == g.nodes.Keys && |r.nodes| == |g.nodes|
  {
    var nodes := g.nodes[id := g.nodes[id].(stable := stable)];
    assert nodes.Keys == g.nodes.Keys;
    g.(nodes := nodes)
  }

  /** The registry after the all-stable check: a stabilisation report is added when every node is stable. */
  function Settle(g: Registry, now: Instant): Registry
    requires Consistent(g) && g.nodes != map[]
  {
    g.(reports := g.reports + if AllStable(g.nodes) then [Stabilized(g.since.value, now, |g.nodes|)] else [])
  }

  lemma OnlyKey<V>(m: map<NodeId, V>, id: NodeId)
    requires id in m
    ensures |m| == 1 <==> m.Keys <= {id}
  {
    if m.Keys <= {id} {
      assert m.Keys == {id};
    } else {
      var other :| other in m.Keys && other != id;
      assert other in m.Keys - {id};
      assert |m.Keys - {id}| >= 1;
    }
  }

  /** The registry with a fresh record for id and the convergence start reset. */
  function Joined(g: Registry, id: NodeId, now: Instant): (r: Registry)
    ensures r.nodes.Keys == g.nodes.Keys + {id} && Consistent(r)
  {
    Registry(g.nodes[id := Fresh], Some(now), g.reports)
  }

  /**
   * newConnection: the node gets a fresh record (replacing any it had) and the
   * convergence start is reset; the first node alone in the network is
   * stable at once, with a zero-length stabilisation report.
   */
  function Connect(g: Registry, id: NodeId, now: Instant): (r: Registry)
    ensures r.nodes.Keys == g.nodes.Keys + {id}
    ensures forall other :: other in g.nodes && other != id ==> r.nodes[other] == g.nodes[other]
    ensures r.nodes[id] == if g.nodes.Keys <= {id} then Fresh.(stable := true) else Fresh
    ensures r.since == Some(now)
    ensures r.reports == g.reports + if g.nodes.Keys <= {id} then [Stabilized(now, now, 1)] else []
    ensures Consistent(r)
  {
    var h := Joined(g, id, now);
    OnlyKey(h.nodes, id);
    if |h.nodes| == 1 then MarkStable(h, Some(id), true, now).value else h
  }

  /** disconnectedNode: the node's record goes (if there was one) and the convergence start is reset. */
  function Disconnect(g: Registry, id: Option<NodeId>, now: Instant): (r: Registry)
    ensures r.nodes.Keys == if id.Some? then g.nodes.Keys - {id.value} else g.nodes.Keys
    ensures forall other :: other in r.nodes ==> r.nodes[other] == g.nodes[other]
    ensures r.since == Some(now) && r.reports == g.reports
    ensures Consistent(r)
  {
    Registry(if id.Some? then g.nodes - {id.value} else g.nodes, Some(now), g.reports)
  }

  /** startLookup, startInsertKey, startFindKey: the node's start time for op becomes now. */
  function Begin(g: Registry, id: Option<NodeId>, op: Operation, now: Instant): (r: Result<Registry, Failure>)
    ensures r.Err? <==> id.None? || id.value !in g.nodes
    ensures r.Ok? ==> && r.value.nodes.Keys == g.nodes.Keys
                      && StartOf(r.value.nodes[id.value], op) == Some(now)
                      && r.value.nodes[id.value] == WithStart(g.nodes[id.value], op, now)
                      && (forall other :: other in g.nodes && other != id.value ==> r.value.nodes[other] == g.nodes[other])
                      && r.value.since == g.since && r.value.reports == g.reports
  {
    if id.None? || id.value !in g.nodes then Err(NullPointer)
    else Ok(g.(nodes := g.nodes[id.value := WithStart(g.nodes[id.value], op, now)]))
  }

  /**
   * endLookup, endInsertKey, endFindKey: the time since the node's start of op
   * is reported; an unknown node or an operation never started is a
   * NullPointerException. The start time is kept.
   */
  function Finish(g: Registry, id: Option<NodeId>, op: Operation, now: Instant): (r: Result<Registry, Failure>)
    ensures r.Err? <==> id.None? || id.value !in g.nodes || StartOf(g.nodes[id.value], op).None?
    ensures r.Ok? ==> r.value == g.(reports := g.reports + [Completed(op, StartOf(g.nodes[id.value], op).value, now, |g.nodes|)])
  {
    if id.None? || id.value !in g.nodes then Err(NullPointer)
    else match StartOf(g.nodes[id.value], op)
      case None => Err(NullPointer)
      case Some(start) => Ok(g.(reports := g.reports + [Completed(op, start, now, |g.nodes|)]))
  }

  /** A node that starts and then ends an operation gets one report measuring from its start. */
  lemma BeginThenFinish(g: Registry, id: NodeId, op: Operation, t0: Instant, t1: Instant)
    requires id in g.nodes
    ensures Begin(g, Some(id), op, t0).Ok?
    ensures Finish(Begin(g, Some(id), op, t0).value, Some(id), op, t1).Ok?
    ensures Finish(Begin(g, Some(id), op, t0).value, Some(id), op, t1).value.reports == g.reports + [Completed(op, t0, t1, |g.nodes|)]
  {
  }

  /** A node that joins a non-empty network makes it unstable until it reports itself stable. */
  lemma JoinUnsettles(g: Registry, id: NodeId, now: Instant)
    requires exists other :: other in g.nodes && other != id
    ensures !AllStable(Connect(g, id, now).nodes)
    ensures Connect(g, id, now).reports == g.reports
  {
    var other :| other in g.nodes && other != id;
    assert !(g.nodes.Keys <= {id});
  }

  /** No stabilisation report is made while some other node is still unstable. */
  lemma NoReportWhileAnotherUnstable(g: Registry, id: NodeId, laggard: NodeId, stable: bool, now: Instant)
    requires Consistent(g) && id in g.nodes && laggard in g.nodes && laggard != id && !g.nodes[laggard].stable
    ensures MarkStable(g, Some(id), stable, now).Ok?
    ensures MarkStable(g, Some(id), stable, now).value.reports == g.reports
  {
    var r := MarkStable(g, Some(id), stable, now).value;
    assert !r.nodes[laggard].stable;
  }

  /** Whether no node id occurs twice in a sequence. */
  predicate Distinct(s: seq<NodeId>) {
    forall i, j :: 0 <= i < j < |s| ==> s[i] != s[j]
  }

  /** The sequence without x, in the same order. */
  function Remove(s: seq<NodeId>, x: NodeId): (r: seq<NodeId>)
    ensures forall y :: y in r <==> y in s && y != x
    ensures Distinct(s) ==> Distinct(r)
    ensures x !in s ==> r == s
    decreases |s|
  {
    if s == [] then []
    else if s[0] == x then Remove(s[1..], x)
    else
      var rest := Remove(s[1..], x);
      assert s[0] !in s[1..] ==> s[0] !in rest;
      assert x !in s ==> s == [s[0]] + s[1..];
      [s[0]] + rest
  }

  /** Removing the id at position k of a list without repeats keeps the ids before and after it, in order. */
  lemma {:induction false} RemoveAt(s: seq<NodeId>, k: nat)
    requires Distinct(s) && k < |s|
    ensures Remove(s, s[k]) == s[..k] + s[k + 1..]
    decreases k
  {
    if k == 0 {
      assert s[0] !in s[1..];
    } else {
      assert Distinct(s[1..]);
      RemoveAt(s[1..], k - 1);
      assert s[1..][k - 1] == s[k];
      assert s[..k] + s[k + 1..] == [s[0]] + (s[1..][..k - 1] + s[1..][k..]);
    }
  }

  /** The records depend only on the map and the NodeInfo objects, not on the convergence start or the reports. */
  twostate lemma RecordsKept(c: Controller)
    requires old(c.Owned()) && unchanged(c`nodeMap, c`Repr) && unchanged(old(c.Repr))
    ensures c.Owned() && c.Records() == old(c.Records())
  {
  }

  /** A step that touches neither the monitor nor its records keeps the monitor valid and its registry as it was. */
  twostate lemma StateKept(c: Controller)
    requires old(c.Valid()) && unchanged(c) && unchanged(old(c.Repr))
    ensures c.Valid() && c.State() == old(c.State())
  {
    RecordsKept(c);
  }

  class Controller {
    var nodeMap: map<NodeId, NodeInfo>
    var order: seq<NodeId>   // the LinkedHashMap's insertion order
    var startTimeStability: Option<Instant>
    var reports: seq<Report>
    ghost var Repr: set<object>   // the NodeInfo objects the monitor has created

    /** Every registered NodeInfo is one the monitor created. */
    ghost predicate Owned()
      reads this`nodeMap, this`Repr
    {
      && this !in Repr
      && forall id :: id in nodeMap ==> nodeMap[id] in Repr
    }

    /** order lists the registered ids once each. */
    ghost predicate Listed()
      reads this`nodeMap, this`order
    {
      && Distinct(order)
      && forall id :: id in nodeMap <==> id in order
    }

    /** No two ids share a NodeInfo. */
    ghost predicate Separate()
      reads this`nodeMap
    {
      forall a, b :: a in nodeMap && b in nodeMap && a != b ==> nodeMap[a] != nodeMap[b]
    }

    ghost predicate Valid()
      reads this`nodeMap, this`order, this`startTimeStability, this`Repr
    {
      && Listed()
      && Separate()
      && (nodeMap != map[] ==> startTimeStability.Some?)
      && Owned()
    }

    /** The records by node id. */
    ghost function Records(): (m: map<NodeId, Record>)
      requires Owned()
      reads this`nodeMap, this`Repr, Repr
      ensures m.Keys == nodeMap.Keys
    {
      map id | id in nodeMap :: nodeMap[id].Snapshot()
    }

    ghost function State(): Registry
      requires Owned()
      reads this, Repr
    {
      Registry(Records(), startTimeStability, reports)
    }

    constructor()
      ensures Valid() && State() == Registry(map[], None, []) && order == []
    {
      nodeMap, order, startTimeStability, reports := map[], [], None, [];
      Repr := {};
    }

    /** The do-while of updateStable over the records in connection order: whether every node is stable. */
    method AllNodesStable() returns (all: bool)
      requires Valid() && order != []
      ensures all <==> AllStable(Records())
    {
      var iter := 0;
      all := nodeMap[order[0]].stable;
      all := all && nodeMap[order[iter]].stable;
      iter := iter + 1;
      while all && iter < |order|
        invariant 1 <= iter <= |order|
        invariant all <==> forall k :: 0 <= k < iter ==> nodeMap[order[k]].stable
      {
        all := all && nodeMap[order[iter]].stable;
        iter := iter + 1;
      }
      if !all {
        var k :| 0 <= k < iter && !nodeMap[order[k]].stable;
        assert !Records()[order[k]].stable;
      }
    }

    /** nodeMap.get(nodeId).setStability(stable) for a registered id. */
    method SetFlag(id: NodeId, stable: bool)
      requires Valid() && id in nodeMap
      modifies nodeMap[id]
      ensures State() == Flagged(old(State()), id, stable)
    {
      ghost var expected := Flagged(State(), id, stable).nodes;
      nodeMap[id].SetStability(stable);
      forall k | k in nodeMap ensures Records()[k] == expected[k] {
        if k != id {
          assert nodeMap[k] != nodeMap[id];
        }
      }
      assert Records() == expected;
    }

    /** The report at the end of updateStable, made when every node is stable. */
    method ReportIfSettled(now: Instant)
      requires Valid() && nodeMap != map[]
      modifies this`reports
      ensures State() == Settle(old(State()), now)
    {
      ghost var g := State();
      var all := AllNodesStable();
      if all {
        assert |nodeMap| == |g.nodes| by {
          assert g.nodes.Keys == nodeMap.Keys;
        }
        reports := reports + [Stabilized(startTimeStability.value, now, |nodeMap|)];
      }
      RecordsKept(this);
    }

    method UpdateStable(id: Option<NodeId>, stable: bool, now: Instant) returns (r: Result<(), Failure>)
      requires Valid()
      modifies Repr, this`reports
      ensures Valid() && nodeMap == old(nodeMap) && order == old(order) && Repr == old(Repr)
      ensures r.Ok? <==> MarkStable(old(State()), id, stable, now).Ok?
      ensures r.Ok? ==> State() == MarkStable(old(State()), id, stable, now).value
      ensures r.Err? ==> State() == old(State())
    {
      if id.None? || id.value !in nodeMap {
        return Err(NullPointer);
      }
      SetFlag(id.value, stable);
      if stable {
        ReportIfSettled(now);
      }
      r := Ok(());
    }

    /** The LinkedHashMap's order on a put: a new key goes last, a key already present keeps its place. */
    method Enlist(id: NodeId)
      requires Valid()
      modifies this`order
      ensures order == if id in nodeMap then old(order) else old(order) + [id]
      ensures Distinct(order) && forall a :: a in order <==> a in nodeMap || a == id
    {
      if id !in nodeMap {
        assert id !in order;
        order := order + [id];
      }
    }

    /** nodeMap.put(id, new NodeInfo()) and the convergence start reset, leaving order aside. */
    method Put(id: NodeId, now: Instant) returns (info: NodeInfo)
      requires Owned() && Separate()
      modifies this`nodeMap, this`Repr, this`startTimeStability
      ensures Owned() && Separate() && fresh(info)
      ensures nodeMap == old(nodeMap)[id := info] && Repr == old(Repr) + {info}
      ensures startTimeStability == Some(now)
      ensures Records() == old(Records())[id := Fresh]
    {
      ghost var before := Records();
      ghost var infos := nodeMap;
      info := new NodeInfo();
      nodeMap := nodeMap[id := info];
      Repr := Repr + {info};
      startTimeStability := Some(now);
      assert forall a :: a in infos ==> infos[a] != info;
      ghost var expected := before[id := Fresh];
      forall k | k in nodeMap ensures Records()[k] == expected[k] {
        if k != id {
          assert nodeMap[k] == infos[k];
        }
      }
      assert Records() == expected;
    }

    /** The put of newConnection: a fresh NodeInfo under id and the convergence start reset. */
    method Register(id: NodeId, now: Instant) returns (info: NodeInfo)
      requires Valid()
      modifies this
      ensures Valid() && fresh(info) && nodeMap == old(nodeMap)[id := info] && Repr == old(Repr) + {info}
      ensures State() == Joined(old(State()), id, now)
      ensures order == if id in old(nodeMap) then old(order) else old(order) + [id]
    {
      Enlist(id);
      info := Put(id, now);
    }

    method NewConnection(id: NodeId, now: Instant)
      requires Valid()
      modifies this, Repr
      ensures Valid() && id in nodeMap && fresh(nodeMap[id])
      ensures nodeMap == old(nodeMap)[id := nodeMap[id]] && Repr == old(Repr) + {nodeMap[id]}
      ensures State() == Connect(old(State()), id, now)
      ensures order == if id in old(nodeMap) then old(order) else old(order) + [id]
    {
      var info := Register(id, now);
      assert |nodeMap| == |State().nodes| by {
        assert State().nodes.Keys == nodeMap.Keys;
      }
      if |nodeMap| == 1 {
        var _ := UpdateStable(Some(id), true, now);
      }
    }

    method DisconnectedNode(id: Option<NodeId>, now: Instant)
      requires Valid()
      modifies this
      ensures Valid() && Repr == old(Repr)
      ensures State() == Disconnect(old(State()), id, now)
      ensures order == if id.Some? then Remove(old(order), id.value) else old(order)
    {
      ghost var before := Records();
      if id.Some? {
        nodeMap := nodeMap - {id.value};
        order := Remove(order, id.value);
      }
      startTimeStability := Some(now);
      ghost var expected := if id.Some? then before - {id.value} else before;
      forall k | k in nodeMap ensures Records()[k] == expected[k] {
      }
      assert Records() == expected;
    }

    /** startLookup, startInsertKey, startFindKey. */
    method Start(id: Option<NodeId>, op: Operation, now: Instant) returns (r: Result<(), Failure>)
      requires Valid()
      modifies Repr
      ensures Valid() && Repr == old(Repr)
      ensures r.Ok? <==> Begin(old(State()), id, op, now).Ok?
      ensures r.Ok? ==> State() == Begin(old(State()), id, op, now).value
      ensures r.Err? ==> State() == old(State())
    {
      if id.None? || id.value !in nodeMap {
        return Err(NullPointer);
      }
      ghost var before := Records();
      ghost var expected := before[id.value := WithStart(before[id.value], op, now)];
      nodeMap[id.value].SetStartTime(op, now);
      forall k | k in nodeMap ensures Records()[k] == expected[k] {
        if k != id.value {
          assert nodeMap[k] != nodeMap[id.value];
        }
      }
      assert Records() == expected;
      r := Ok(());
    }

    /** endLookup, endInsertKey, endFindKey. */
    method End(id: Option<NodeId>, op: Operation, now: Instant) returns (r: Result<(), Failure>)
      requires Valid()
      modifies this`reports
      ensures Valid() && Repr == old(Repr)
      ensures r.Ok? <==> Finish(old(State()), id, op, now).Ok?
      ensures r.Ok? ==> State() == Finish(old(State()), id, op, now).value
      ensures r.Err? ==> State() == old(State())
    {
      if id.None? || id.value !in nodeMap {
        return Err(NullPointer);
      }
      ghost var g := State();
      var info := nodeMap[id.value];
      var start := info.GetStartTime(op);
      assert start == StartOf(g.nodes[id.value], op);
      if start.None? {
        return Err(NullPointer);
      }
      assert g.nodes.Keys == nodeMap.Keys;
      reports := reports + [Completed(op, start.value, now, |nodeMap|)];
      RecordsKept(this);
      r := Ok(());
    }
  }
}
