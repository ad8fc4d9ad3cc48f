/**
  The speakers as the management service sees them: which are live, which forwarding sessions each
  one holds, and which broadcast. The methods of `Speakers` are the calls of the speaker API
  (api/handler.go) with the session map they change (player/forwarding/forwardingPlayer.go:41-84).

  Assumptions: a session asked for is established before the next management step; a node that
  leaves loses its own sessions; all nodes see the same live members. A call that fails may or may
  not have taken effect at the far end.
 */
module Fleet {

  type NodeId = string

  /** A forwarding session held by `from` towards `dest`. */
  datatype Edge = Edge(from: NodeId, dest: NodeId)

  // ---------------------------------------------------------------------------
  // The effect of one call on the forwarding graph
  // ---------------------------------------------------------------------------

  function SetOf(ids: seq<NodeId>): set<NodeId> {
    set x | x in ids
  }

  /** RemoveAllSessions on each of `nodes`. */
  function Cleared(fwd: set<Edge>, nodes: set<NodeId>): set<Edge> {
    set e | e in fwd && e.from !in nodes
  }

  /** RemoveForwardToNodes with `ids`, on each of `nodes`; only live nodes other than itself are affected. */
  function Cut(fwd: set<Edge>, live: set<NodeId>, nodes: set<NodeId>, ids: set<NodeId>): set<Edge> {
    set e | e in fwd && !(e.from in nodes && e.dest in ids && e.dest in live && e.dest != e.from)
  }

  /** ForwardToNodes with `ids` on `node`; sessions are opened to live nodes other than itself. */
  function Linked(fwd: set<Edge>, live: set<NodeId>, node: NodeId, ids: set<NodeId>): set<Edge> {
    fwd + set x | x in ids && x in live && x != node :: Edge(node, x)
  }

  // ---------------------------------------------------------------------------
  // Forests
  // ---------------------------------------------------------------------------

  /** `p` walks along at least one edge of the graph. */
  ghost predicate Path(fwd: set<Edge>, p: seq<NodeId>) {
    |p| >= 2 && forall i | 0 <= i < |p| - 1 :: Edge(p[i], p[i + 1]) in fwd
  }

  ghost predicate Acyclic(fwd: set<Edge>) {
    forall p | Path(fwd, p) :: p[0] != p[|p| - 1]
  }

  ghost predicate OneForwarder(fwd: set<Edge>) {
    forall d, e | d in fwd && e in fwd && d.dest == e.dest :: d.from == e.from
  }

  /** No cycle, and nobody receives from two nodes. */
  ghost predicate Forest(fwd: set<Edge>) {
    Acyclic(fwd) && OneForwarder(fwd)
  }

  lemma SubForest(fwd: set<Edge>, sub: set<Edge>)
    requires Forest(fwd) && sub <= fwd
    ensures Forest(sub)
  {
  }

  /** Linking nodes that forward to nobody and that nobody forwards to keeps a forest a forest. */
  lemma LinkKeepsForest(fwd: set<Edge>, live: set<NodeId>, node: NodeId, ids: set<NodeId>)
    requires Forest(fwd)
    requires forall e | e in fwd && e.from in ids :: e.from == node
    requires forall e | e in fwd && e.dest in ids && e.dest in live :: e.dest == node
    ensures Forest(Linked(fwd, live, node, ids))
  {
    var g := Linked(fwd, live, node, ids);
    forall p | Path(g, p) ensures p[0] != p[|p| - 1] {
      if p[0] == p[|p| - 1] {
        ClosedPathIsOld(fwd, live, node, ids, p);
      }
    }
  }

  lemma ClosedPathIsOld(fwd: set<Edge>, live: set<NodeId>, node: NodeId, ids: set<NodeId>, p: seq<NodeId>)
    requires forall e | e in fwd && e.from in ids :: e.from == node
    requires Path(Linked(fwd, live, node, ids), p) && p[0] == p[|p| - 1]
    ensures Path(fwd, p)
  {
    var g := Linked(fwd, live, node, ids);
    forall i | 0 <= i < |p| - 1 ensures Edge(p[i], p[i + 1]) in fwd {
      var after := if i + 2 < |p| then Edge(p[i + 1], p[i + 2]) else Edge(p[0], p[1]);
      assert after in g && after.from == p[i + 1];
      // a new edge ends at a node without outgoing edges, so a closed path cannot use it
      assert Edge(p[i], p[i + 1]) in g;
    }
  }

  // ---------------------------------------------------------------------------
  // The calls
  // ---------------------------------------------------------------------------

  class Speakers {
    const reliable: bool            // whether every call to a live speaker succeeds
    var live: set<NodeId>           // live music nodes
    var fwd: set<Edge>
    var bcast: set<NodeId>          // speakers that advertise themselves
    ghost var forestSoFar: bool     // whether the graph was a forest after every single call so far

    constructor (reliable: bool)
      ensures this.reliable == reliable && live == {} && fwd == {} && bcast == {} && forestSoFar
    {
      this.reliable := reliable;
      live, fwd, bcast, forestSoFar := {}, {}, {}, true;
    }

    /** Dead nodes hold no session, and nobody holds a session to itself. */
    ghost predicate Valid()
      reads this
    {
      forall e | e in fwd :: e.from in live && e.dest != e.from
    }

    /** The graph is a forest now and has been one after every call. */
    ghost predicate SoundGraph()
      reads this
    {
      forestSoFar && Forest(fwd)
    }

    /** Whether a call is carried out, and whether its answer arrives. */
    method Deliver() returns (executed: bool, ok: bool)
      ensures ok ==> executed
      ensures reliable ==> ok
    {
      if reliable {
        return true, true;
      }
      executed := *;
      ok := *;
      ok := ok && executed;
    }

    method RemoveAllSessions(self: NodeId) returns (ok: bool)
      requires self in live
      modifies this`fwd, this`forestSoFar
      ensures reliable ==> ok
      ensures fwd == Cleared(old(fwd), {self}) || (!ok && fwd == old(fwd))
      ensures forestSoFar == (old(forestSoFar) && Forest(fwd))
    {
      var executed;
      executed, ok := Deliver();
      if executed {
        fwd := Cleared(fwd, {self});
      }
      forestSoFar := forestSoFar && Forest(fwd);
    }

    /** The handler walks the live members in any order and drops the matching sessions one by one. */
    method RemoveForwardToNodes(self: NodeId, ids: seq<NodeId>) returns (ok: bool)
      requires self in live
      modifies this`fwd, this`forestSoFar
      ensures reliable ==> ok
      ensures fwd == Cut(old(fwd), live, {self}, SetOf(ids)) || (!ok && fwd == old(fwd))
      ensures forestSoFar == (old(forestSoFar) && Forest(fwd))
    {
      var executed;
      executed, ok := Deliver();
      if executed {
        var rest := live;
        while rest != {}
          modifies this`fwd
          invariant rest <= live
          invariant fwd == Cut(old(fwd), live - rest, {self}, SetOf(ids))
          decreases rest
        {
          var member :| member in rest;
          if member != self && member in ids {
            fwd := fwd - {Edge(self, member)};
          }
          rest := rest - {member};
        }
      }
      forestSoFar := forestSoFar && Forest(fwd);
    }

    /** The handler walks the live members in any order and opens the missing sessions one by one. */
    method ForwardToNodes(self: NodeId, ids: seq<NodeId>) returns (ok: bool)
      requires self in live
      modifies this`fwd, this`forestSoFar
      ensures reliable ==> ok
      ensures fwd == Linked(old(fwd), live, self, SetOf(ids)) || (!ok && fwd == old(fwd))
      ensures forestSoFar == (old(forestSoFar) && Forest(fwd))
    {
      var executed;
      executed, ok := Deliver();
      if executed {
        var rest := live;
        while rest != {}
          modifies this`fwd
          invariant rest <= live
          invariant fwd == Linked(old(fwd), live - rest, self, SetOf(ids))
          decreases rest
        {
          var member :| member in rest;
          if member != self && member in ids {
            fwd := fwd + {Edge(self, member)};
          }
          rest := rest - {member};
        }
        assert live - rest == live;
      }
      forestSoFar := forestSoFar && Forest(fwd);
    }

    method ToggleBroadcast(self: NodeId, shouldBroadcast: bool) returns (ok: bool)
      requires self in live
      modifies this`bcast, this`forestSoFar
      ensures reliable ==> ok
      ensures bcast == (if shouldBroadcast then old(bcast) + {self} else old(bcast) - {self})
              || (!ok && bcast == old(bcast))
      ensures forestSoFar == (old(forestSoFar) && Forest(fwd))
    {
      var executed;
      executed, ok := Deliver();
      if executed {
        bcast := if shouldBroadcast then bcast + {self} else bcast - {self};
      }
      forestSoFar := forestSoFar && Forest(fwd);
    }

    /** Renames the advertised service; sessions and broadcasting stay as they are. */
    method ChangeServiceName(self: NodeId) returns (ok: bool)
      requires self in live
      modifies this`forestSoFar
      ensures reliable ==> ok
      ensures forestSoFar == (old(forestSoFar) && Forest(fwd))
    {
      var executed;
      executed, ok := Deliver();
      forestSoFar := forestSoFar && Forest(fwd);
    }

    /** A node stops: its own sessions go, sessions towards it stay where they are held. */
    method NodeLeaves(n: NodeId)
      requires Valid()
      modifies this`live, this`fwd, this`bcast
      ensures Valid()
      ensures live == old(live) - {n} && fwd == Cleared(old(fwd), {n}) && bcast == old(bcast) - {n}
    {
      live, fwd, bcast := live - {n}, Cleared(fwd, {n}), bcast - {n};
    }

    /** A node starts, without sessions, advertising or not. */
    method NodeJoins(n: NodeId, advertising: bool)
      requires Valid() && n !in live
      modifies this`live, this`bcast
      ensures Valid()
      ensures live == old(live) + {n} && bcast == if advertising then old(bcast) + {n} else old(bcast) - {n}
    {
      live, bcast := live + {n}, if advertising then bcast + {n} else bcast - {n};
    }
  }
}
