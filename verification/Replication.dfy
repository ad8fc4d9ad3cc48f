/**
  Replicas of the store fed from one committed log (cmd/mgmt/raft/store.go:207-261, 317-343), and
  the Raft membership changes made by Join (cmd/mgmt/raft/store.go:166-204).

  Consensus itself is not modelled: the log only grows, every replica applies it in order, and a
  replica may at any time persist a snapshot, install any persisted snapshot, or lose its table.
 */
module Replication {
  import opened Store

  /** A replica's table together with the number of log entries it reflects. */
  datatype Replica = Replica(pos: nat, table: Table)

  datatype System = System(log: seq<Command>, replicas: map<string, Replica>, snapshots: set<Replica>)

  datatype Step =
    | Commit(c: Command)
    | ApplyNext(r: string)
    | Persist(r: string)
    | Install(r: string, snapshot: Replica)
    | Restart(r: string)

  predicate Enabled(s: System, step: Step) {
    match step
    case Commit(_) => true
    case ApplyNext(r) => r in s.replicas && s.replicas[r].pos < |s.log|
    case Persist(r) => r in s.replicas
    case Install(r, snapshot) => r in s.replicas && snapshot in s.snapshots
    case Restart(r) => r in s.replicas
  }

  function Take(s: System, step: Step): System
    requires Enabled(s, step)
  {
    match step
    case Commit(c) => s.(log := s.log + [c])
    case ApplyNext(r) =>
      var at := s.replicas[r];
      s.(replicas := s.replicas[r := Replica(at.pos + 1, ApplyCommand(at.table, s.log[at.pos]))])
    case Persist(r) => s.(snapshots := s.snapshots + {s.replicas[r]})
    case Install(r, snapshot) => s.(replicas := s.replicas[r := snapshot])
    case Restart(r) => s.(replicas := s.replicas[r := Replica(0, map[])])
  }

  /** `states` is a run: it starts with empty replicas and an empty log, and follows `steps`. */
  ghost predicate IsRun(states: seq<System>, steps: seq<Step>) {
    && |states| == |steps| + 1
    && states[0].log == [] && states[0].snapshots == {}
    && (forall r | r in states[0].replicas :: states[0].replicas[r] == Replica(0, map[]))
    && (forall i | 0 <= i < |steps| :: Enabled(states[i], steps[i]) && states[i + 1] == Take(states[i], steps[i]))
  }

  ghost predicate Reflects(log: seq<Command>, r: Replica) {
    r.pos <= |log| && r.table == Replay(map[], log[..r.pos])
  }

  ghost predicate Consistent(s: System) {
    && (forall r | r in s.replicas :: Reflects(s.log, s.replicas[r]))
    && (forall p | p in s.snapshots :: Reflects(s.log, p))
  }

  lemma ReflectsGrownLog(log: seq<Command>, c: Command, r: Replica)
    requires Reflects(log, r)
    ensures Reflects(log + [c], r)
  {
    assert (log + [c])[..r.pos] == log[..r.pos];
  }

  lemma TakeKeepsConsistent(s: System, step: Step)
    requires Consistent(s) && Enabled(s, step)
    ensures Consistent(Take(s, step))
  {
    match step
    case Commit(c) =>
      forall r | r in s.replicas ensures Reflects(s.log + [c], s.replicas[r]) {
        ReflectsGrownLog(s.log, c, s.replicas[r]);
      }
      forall p | p in s.snapshots ensures Reflects(s.log + [c], p) {
        ReflectsGrownLog(s.log, c, p);
      }
    case ApplyNext(r) =>
      var pos := s.replicas[r].pos;
      assert s.log[..pos + 1][..pos] == s.log[..pos];
    case Persist(_) =>
    case Install(_, _) =>
    case Restart(_) =>
  }

  lemma {:induction false} RunsAreConsistent(states: seq<System>, steps: seq<Step>, i: nat)
    requires IsRun(states, steps) && i <= |steps|
    ensures Consistent(states[i])
  {
    if i > 0 {
      RunsAreConsistent(states, steps, i - 1);
      TakeKeepsConsistent(states[i - 1], steps[i - 1]);
    }
  }

  /**
    In every run, whatever mixture of applies, snapshots, installs and restarts brought two replicas
    where they are, the one that is ahead holds exactly what the other would hold after applying the
    log entries between them; at equal positions the tables are equal.
   */
  lemma ReplicasAgree(states: seq<System>, steps: seq<Step>, i: nat, a: string, b: string)
    requires IsRun(states, steps) && i <= |steps|
    requires a in states[i].replicas && b in states[i].replicas
    requires states[i].replicas[a].pos <= states[i].replicas[b].pos
    ensures states[i].replicas[b].pos <= |states[i].log|
    ensures states[i].replicas[b].table
         == Replay(states[i].replicas[a].table, states[i].log[states[i].replicas[a].pos..states[i].replicas[b].pos])
    ensures states[i].replicas[a].pos == states[i].replicas[b].pos ==>
              states[i].replicas[a].table == states[i].replicas[b].table
  {
    RunsAreConsistent(states, steps, i);
    var log := states[i].log;
    var p, q := states[i].replicas[a].pos, states[i].replicas[b].pos;
    assert log[..q] == log[..p] + log[p..q];
    ReplaySplit(map[], log[..p], log[p..q]);
  }
}

/**
  Raft membership as Join changes it (cmd/mgmt/raft/store.go:166-204). The configuration is a set:
  Raft gives its order no meaning, and Join may meet the servers in any order.
 */
module Membership {

  datatype Server = Server(id: string, address: string)

  /** No two servers share an ID or an address. */
  ghost predicate OneToOne(servers: set<Server>) {
    forall x, y | x in servers && y in servers && x != y :: x.id != y.id && x.address != y.address
  }

  predicate Shares(s: Server, id: string, address: string) {
    s.id == id || s.address == address
  }

  function Unrelated(servers: set<Server>, id: string, address: string): set<Server> {
    set s | s in servers && !Shares(s, id, address)
  }

  class RaftConfiguration {
    var servers: set<Server>
    const leader: bool

    constructor (leader: bool)
      ensures servers == {} && this.leader == leader
    {
      servers := {};
      this.leader := leader;
    }

    /** Raft removes by ID alone. */
    method RemoveServer(id: string) returns (ok: bool)
      modifies this
      ensures servers == if ok then set s | s in old(servers) && s.id != id else old(servers)
    {
      ok := *;
      if ok {
        servers := set s | s in servers && s.id != id;
      }
    }

    /** Raft replaces the address of an ID it already has. */
    method AddVoter(id: string, address: string) returns (ok: bool)
      modifies this
      ensures servers == if ok then (set s | s in old(servers) && s.id != id) + {Server(id, address)} else old(servers)
    {
      ok := *;
      if ok {
        servers := (set s | s in servers && s.id != id) + {Server(id, address)};
      }
    }

    /**
      Keeps the membership one-to-one. After success on the leader the ID and the address are paired
      with each other and with nothing else, servers sharing neither are untouched, and rejoining an
      existing pair changes nothing. A failure part-way has lost nothing unrelated and added nothing.
     */
    method Join(nodeId: string, nodeAddress: string) returns (ok: bool)
      requires OneToOne(servers)
      modifies this
      ensures OneToOne(servers)
      ensures !leader ==> ok && servers == old(servers)
      ensures leader && ok && Server(nodeId, nodeAddress) in old(servers) ==> servers == old(servers)
      ensures leader && ok && Server(nodeId, nodeAddress) !in old(servers) ==>
                servers == Unrelated(old(servers), nodeId, nodeAddress) + {Server(nodeId, nodeAddress)}
      ensures !ok ==> Unrelated(old(servers), nodeId, nodeAddress) <= servers <= old(servers)
    {
      if !leader {
        return true;
      }
      var rest := servers;
      while rest != {}
        invariant rest <= servers <= old(servers)
        invariant Unrelated(old(servers), nodeId, nodeAddress) <= servers
        invariant forall s | s in servers && Shares(s, nodeId, nodeAddress) :: s in rest
        invariant Server(nodeId, nodeAddress) in old(servers) ==> servers == old(servers)
        decreases rest
      {
        var srv :| srv in rest;
        if Shares(srv, nodeId, nodeAddress) {
          if srv == Server(nodeId, nodeAddress) {
            return true;
          }
          var removed := RemoveServer(srv.id);
          if !removed {
            return false;
          }
        }
        rest := rest - {srv};
      }
      ok := AddVoter(nodeId, nodeAddress);
    }
  }
}
