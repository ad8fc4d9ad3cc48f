/**
  Safety over every run of the zone protocol: the stored zones and the live forwarding graph agree
  after every operation and every membership event.
 */
module ZoneRuns {
  import opened Store
  import opened Fleet
  import opened ZoneSpec
  import opened ZoneInvariant
  import ZoneRemoval
  import ZoneService

  // ---------------------------------------------------------------------------
  // Runs
  // ---------------------------------------------------------------------------

  datatype Event =
    | Create(id: string, displayName: string, ids: seq<NodeId>)
    | Add(zoneId: string, ids: seq<NodeId>)
    | Remove(zoneId: string, ids: seq<NodeId>)
    | Delete(zoneId: string)
    | Leave(n: NodeId)
    | Join(n: NodeId, advertising: bool)

  /** One event, handled without a failing call; operations may still report errors, for instance on dead speakers. */
  ghost predicate Next(s: State, ev: Event, t: State) {
    match ev
    case Create(id, displayName, ids) => id != "" && t == CreateZone(s, id, displayName, ids).state
    case Add(zoneId, ids) => t == AddSpeakers(s, zoneId, ids).state
    case Remove(zoneId, ids) => t == RemoveSpeakers(s, zoneId, ids).state
    case Delete(zoneId) => t == DeleteZone(s, zoneId).state
    case Leave(n) => n in s.live && ZoneService.LeaveHandled(Left(s, n), n, t)
    case Join(n, advertising) => n !in s.live && n != "" && ZoneService.JoinHandled(Joined(s, n, advertising), n, t)
  }

  /** One event in which some call or commit fails. */
  ghost predicate Fails(s: State, ev: Event, t: State) {
    match ev
    case Create(_, _, ids) => CreateInterrupted(s, ids, t)
    case Add(zoneId, ids) => AddInterrupted(s, zoneId, ids, t)
    case Remove(zoneId, ids) => RemoveInterrupted(s, zoneId, ids, t)
    case Delete(zoneId) => DeleteInterrupted(s, zoneId, t)
    case Leave(n) => n in s.live && LeaveInterrupted(Left(s, n), n, t)
    case Join(n, advertising) => n !in s.live && n != "" && JoinInterrupted(Joined(s, n, advertising), n, t)
  }

  /** A new zone gets an unused ID, and no creation or addition names a speaker of another zone. */
  ghost predicate NoOverlap(s: State, ev: Event) {
    match ev
    case Create(id, _, ids) => id !in s.zones && forall x | x in ids :: Free(s, x, id)
    case Add(zoneId, ids) => forall x | x in ids :: Free(s, x, zoneId)
    case _ => true
  }

  /** Also, a removal names no follower that the stored list would keep. */
  ghost predicate Admissible(s: State, ev: Event) {
    && NoOverlap(s, ev)
    && (ev.Remove? && ev.zoneId in s.zones ==> RemovesAll(s.zones[ev.zoneId], ev.ids))
  }

  ghost predicate Initial(s: State) {
    s.zones == map[] && s.fwd == {} && "" !in s.live
  }

  /** Any events whatever, from an empty store. */
  ghost predicate IsExecution(states: seq<State>, events: seq<Event>) {
    && |states| == |events| + 1
    && Initial(states[0])
    && (forall i | 0 <= i < |events| :: Next(states[i], events[i], states[i + 1]))
  }

  ghost predicate IsRun(states: seq<State>, events: seq<Event>) {
    && IsExecution(states, events)
    && (forall i | 0 <= i < |events| :: Admissible(states[i], events[i]))
  }

  // ---------------------------------------------------------------------------
  // Every event keeps the forwarding invariant
  // ---------------------------------------------------------------------------

  lemma NoSessionsFrom(s: State, x: NodeId)
    requires ForwardInv(s)
    requires forall k | k in s.zones :: s.zones[k].leader != x
    ensures forall e | e in s.fwd :: e.from != x
  {
  }

  lemma NoSessionsTo(s: State, x: NodeId)
    requires ForwardInv(s)
    requires forall k | k in s.zones :: x !in s.zones[k].speakers
    ensures forall e | e in s.fwd :: e.dest != x
  {
  }

  lemma CreateKeepsForwardInv(s: State, id: string, displayName: string, ids: seq<NodeId>)
    requires ForwardInv(s) && id != "" && Admissible(s, Create(id, displayName, ids))
    ensures ForwardInv(CreateZone(s, id, displayName, ids).state)
  {
    var r := CreateZone(s, id, displayName, ids);
    forall x | x in ids ensures forall e | e in s.fwd :: (e.from == x ==> e.from == "") && e.dest != x {
      if x != "" {
        NoSessionsFrom(s, x);
      }
      assert Free(s, x, id);
      NoSessionsTo(s, x);
    }
    assert Cleared(s.fwd, SetOf(ids)) == s.fwd;
    if r.ok {
      assert forall x | x in ids :: x in s.live;
      assert ids[..|ids|] == ids;
      assert Cut(s.fwd, s.live, s.live, SetOf(ids)) == s.fwd;
      CreatedMatches(s, r.state, id);
    } else {
      assert r.state.fwd == s.fwd;
      SameZonesMatch(s, r.state);
    }
  }

  lemma SameZonesMatch(s: State, t: State)
    requires ForwardInv(s) && t.live == s.live && t.fwd == s.fwd && t.zones == s.zones
    ensures ForwardInv(t)
  {
  }

  lemma CreatedMatches(s: State, t: State, id: string)
    requires ForwardInv(s) && id !in s.zones && id in t.zones && t.live == s.live
    requires t.zones == s.zones[id := t.zones[id]]
    requires var z := t.zones[id];
             && (z.leader == "" ==> z.speakers == [])
             && (forall x | x in Members(z) :: x in s.live && Free(s, x, id))
             && t.fwd == if z.leader == "" then s.fwd else Linked(s.fwd, s.live, z.leader, SetOf(z.speakers))
    ensures ForwardInv(t)
  {
    var z := t.zones[id];
    forall e | e in t.fwd ensures e.from in t.live && e.dest != e.from && Wanted(t, e) {
      if e in s.fwd {
        var k :| k in s.zones && s.zones[k].leader == e.from && e.dest in s.zones[k].speakers;
        assert t.zones[k] == s.zones[k];
      } else {
        assert z.leader in Members(z);
      }
    }
  }

  lemma AddKeepsForwardInv(s: State, zoneId: string, ids: seq<NodeId>)
    requires ForwardInv(s) && Admissible(s, Add(zoneId, ids))
    ensures ForwardInv(AddSpeakers(s, zoneId, ids).state)
  {
    if ids != [] && zoneId in s.zones {
      var zone := s.zones[zoneId];
      var r := AddSpeakers(s, zoneId, ids);
      forall x | x in ids && x != zone.leader && x != "" ensures forall e | e in s.fwd :: e.from != x {
        assert Free(s, x, zoneId);
        NoSessionsFrom(s, x);
      }
      assert Cleared(s.fwd, SetOf(ids) - {zone.leader}) == s.fwd;
      assert ids[..|ids|] == ids;
      if Reached(ids, s.live, zone.leader) < |ids| {
        assert r.state.fwd == s.fwd;
        SameZonesMatch(s, r.state);
      } else {
        forall e | e in s.fwd && e.dest in ids ensures e.from == zone.leader {
          SessionIntoZone(s, e, zoneId);
        }
        if zone.leader !in s.live {
          assert r.state.fwd == s.fwd;
          SameZonesMatch(s, r.state);
        } else {
          AddedMatches(s, r.state, zoneId, ids);
        }
      }
    }
  }

  /** A session to a node free of other zones is held by this zone's leader. */
  lemma SessionIntoZone(s: State, e: Edge, zoneId: string)
    requires ForwardInv(s) && zoneId in s.zones && e in s.fwd && Free(s, e.dest, zoneId)
    ensures e.from == s.zones[zoneId].leader && e.dest in s.zones[zoneId].speakers
  {
  }

  lemma AddedMatches(s: State, t: State, zoneId: string, ids: seq<NodeId>)
    requires ForwardInv(s) && zoneId in s.zones && t.live == s.live
    requires var zone := s.zones[zoneId];
             && zone.leader in s.live
             && (forall x | x in ids :: x in s.live && Free(s, x, zoneId))
             && t.zones == s.zones[zoneId := zone.(speakers := zone.speakers + ids)]
             && t.fwd == Linked(Cut(s.fwd, s.live, s.live, SetOf(ids)), s.live, zone.leader, SetOf(ids))
    ensures ForwardInv(t)
  {
    var zone := s.zones[zoneId];
    assert Members(t.zones[zoneId]) == Members(zone) + SetOf(ids);
    forall k | k in s.zones && k != zoneId ensures Members(t.zones[k]) !! Members(t.zones[zoneId]) {
      assert forall x | x in ids :: Free(s, x, zoneId);
    }
    forall e | e in t.fwd ensures e.from in t.live && e.dest != e.from && Wanted(t, e) {
      if e in s.fwd {
        var k :| k in s.zones && s.zones[k].leader == e.from && e.dest in s.zones[k].speakers;
        assert t.zones[k].leader == e.from && e.dest in t.zones[k].speakers;
      } else {
        assert t.zones[zoneId].leader == e.from && e.dest in t.zones[zoneId].speakers;
      }
    }
    forall k, x | k in t.zones && x in t.zones[k].speakers && x in t.live && t.zones[k].leader in t.live
      ensures x == t.zones[k].leader || Edge(t.zones[k].leader, x) in t.fwd
    {
      if k != zoneId {
        assert x in Members(s.zones[k]);
        assert x !in ids;
      }
    }
  }

  lemma RemoveKeepsForwardInv(s: State, zoneId: string, ids: seq<NodeId>)
    requires ForwardInv(s) && Admissible(s, Remove(zoneId, ids))
    ensures ForwardInv(RemoveSpeakers(s, zoneId, ids).state)
  {
    var r := RemoveSpeakers(s, zoneId, ids);
    if !r.ok || ids == [] {
      SameZonesMatch(s, r.state);
    } else {
      assert ids[..|ids|] == ids;
      ZoneRemoval.KeptFollowers(s.zones[zoneId], ids);
      RemovedMatches(s, r.state, zoneId, SetOf(ids));
    }
  }

  lemma RemovedMatches(s: State, t: State, zoneId: string, ids: set<NodeId>)
    requires ForwardInv(s) && zoneId in s.zones && zoneId in t.zones && t.live == s.live
    requires var zone, left := s.zones[zoneId], t.zones[zoneId];
             && zone.leader in s.live && (forall x | x in ids :: x in s.live || x == zone.leader)
             && t.zones == s.zones[zoneId := left]
             && left.leader == zone.leader
             && (forall x | x != zone.leader :: x in left.speakers <==> x in zone.speakers && x !in ids)
             && t.fwd == Cut(s.fwd, s.live, {zone.leader}, ids)
    ensures ForwardInv(t)
  {
    var zone := s.zones[zoneId];
    assert Members(t.zones[zoneId]) <= Members(zone);
    forall e | e in t.fwd ensures Wanted(t, e) {
      var k :| k in s.zones && s.zones[k].leader == e.from && e.dest in s.zones[k].speakers;
      LeadersDiffer(s, k, zoneId);
      assert t.zones[k].leader == e.from && e.dest in t.zones[k].speakers;
    }
    forall k, x | k in t.zones && x in t.zones[k].speakers && x in t.live && t.zones[k].leader in t.live
      ensures x == t.zones[k].leader || Edge(t.zones[k].leader, x) in t.fwd
    {
      LeadersDiffer(s, k, zoneId);
    }
  }

  lemma DeleteKeepsForwardInv(s: State, zoneId: string)
    requires ForwardInv(s)
    ensures ForwardInv(DeleteZone(s, zoneId).state)
  {
    var t := DeleteZone(s, zoneId).state;
    if !DeleteZone(s, zoneId).ok {
      SameZonesMatch(s, t);
    } else {
      var zone := s.zones[zoneId];
      forall e | e in t.fwd ensures Wanted(t, e) {
        var k :| k in s.zones && s.zones[k].leader == e.from && e.dest in s.zones[k].speakers;
        assert k != zoneId;
        assert t.zones[k] == s.zones[k];
      }
      forall k, x | k in t.zones && x in t.zones[k].speakers && x in t.live && t.zones[k].leader in t.live
        ensures x == t.zones[k].leader || Edge(t.zones[k].leader, x) in t.fwd
      {
        LeadersDiffer(s, k, zoneId);
      }
    }
  }

  lemma LeftMatches(s: State, n: NodeId)
    requires ForwardInv(s)
    ensures ForwardInv(Left(s, n))
  {
  }

  lemma LeaveKeepsForwardInv(s: State, n: NodeId, t: State)
    requires ForwardInv(s) && Next(s, Leave(n), t)
    ensures ForwardInv(t)
  {
    var u := Left(s, n);
    LeftMatches(s, n);
    if t != u {
      var zoneId, heir :| zoneId in u.zones && u.zones[zoneId].leader == n && heir in Candidates(u, u.zones[zoneId])
                          && t == Promoted(u, zoneId, heir);
      PromotedMatches(u, zoneId, heir);
    }
  }

  lemma PromotedMatches(s: State, zoneId: string, heir: NodeId)
    requires ForwardInv(s) && zoneId in s.zones && s.zones[zoneId].leader !in s.live
    requires heir in Candidates(s, s.zones[zoneId])
    ensures ForwardInv(Promoted(s, zoneId, heir))
  {
    var t := Promoted(s, zoneId, heir);
    var zone := s.zones[zoneId];
    assert Members(t.zones[zoneId]) <= Members(zone);
    forall e | e in t.fwd ensures e.from in t.live && e.dest != e.from && Wanted(t, e) {
      if e in s.fwd {
        var k :| k in s.zones && s.zones[k].leader == e.from && e.dest in s.zones[k].speakers;
        assert t.zones[k] == s.zones[k];
      } else {
        assert t.zones[zoneId].leader == e.from && e.dest in t.zones[zoneId].speakers;
      }
    }
  }

  lemma JoinedMatches(s: State, n: NodeId, advertising: bool)
    requires ForwardInv(s) && n != "" && n !in s.live
    ensures WellFormed(Joined(s, n, advertising))
    ensures forall e | e in s.fwd :: e.from in s.live && e.dest != e.from && Wanted(Joined(s, n, advertising), e)
  {
  }

  lemma JoinKeepsForwardInv(s: State, n: NodeId, advertising: bool, t: State)
    requires ForwardInv(s) && Next(s, Join(n, advertising), t)
    ensures ForwardInv(t)
  {
    var u := Joined(s, n, advertising);
    JoinedMatches(s, n, advertising);
    if zoneId :| zoneId in u.zones && n in Members(u.zones[zoneId]) && t == Back(u, u.zones[zoneId], n) {
      var zone := u.zones[zoneId];
      forall e | e in s.fwd && e.dest == n ensures e.from == zone.leader {
        WantedInOwnZone(s, e, zoneId);
      }
      if zone.leader == n {
        LeaderBackMatches(s, u, zoneId, n);
      } else {
        MemberBackMatches(s, u, zoneId, n);
      }
    } else {
      assert t == u;
    }
  }

  lemma LeaderBackMatches(s: State, u: State, zoneId: string, n: NodeId)
    requires ForwardInv(s) && n != "" && n !in s.live
    requires u.live == s.live + {n} && u.fwd == s.fwd && u.zones == s.zones && WellFormed(u)
    requires zoneId in s.zones && s.zones[zoneId].leader == n
    requires forall e | e in s.fwd && e.dest == n :: e.from == n
    ensures ForwardInv(LeaderBack(u, s.zones[zoneId], n))
  {
  }

  lemma MemberBackMatches(s: State, u: State, zoneId: string, n: NodeId)
    requires ForwardInv(s) && n != "" && n !in s.live
    requires u.live == s.live + {n} && u.fwd == s.fwd && u.zones == s.zones && WellFormed(u)
    requires zoneId in s.zones && n in s.zones[zoneId].speakers && s.zones[zoneId].leader != n
    requires forall e | e in s.fwd && e.dest == n :: e.from == s.zones[zoneId].leader
    ensures ForwardInv(MemberBack(u, s.zones[zoneId], n))
  {
    var t := MemberBack(u, s.zones[zoneId], n);
    forall e | e in t.fwd ensures e.from in t.live && e.dest != e.from && Wanted(t, e) {
      if e in s.fwd {
        assert Wanted(s, e);
      } else {
        assert t.zones[zoneId].leader == e.from && e.dest in t.zones[zoneId].speakers;
      }
    }
    forall k, x | k in t.zones && x in t.zones[k].speakers && x in t.live && t.zones[k].leader in t.live
      ensures x == t.zones[k].leader || Edge(t.zones[k].leader, x) in t.fwd
    {
      assert n in Members(t.zones[zoneId]);
      if k != zoneId {
        assert x in Members(t.zones[k]) && t.zones[k].leader in Members(t.zones[k]);
      }
    }
  }

  lemma NextKeepsForwardInv(s: State, ev: Event, t: State)
    requires ForwardInv(s) && Next(s, ev, t) && Admissible(s, ev)
    ensures ForwardInv(t)
  {
    match ev
    case Create(id, displayName, ids) => CreateKeepsForwardInv(s, id, displayName, ids);
    case Add(zoneId, ids) => AddKeepsForwardInv(s, zoneId, ids);
    case Remove(zoneId, ids) => RemoveKeepsForwardInv(s, zoneId, ids);
    case Delete(zoneId) => DeleteKeepsForwardInv(s, zoneId);
    case Leave(n) => LeaveKeepsForwardInv(s, n, t);
    case Join(n, advertising) => JoinKeepsForwardInv(s, n, advertising, t);
  }

  lemma {:induction false} RunsKeepForwardInv(states: seq<State>, events: seq<Event>, i: nat)
    requires IsRun(states, events) && i <= |events|
    ensures ForwardInv(states[i])
  {
    if i > 0 {
      RunsKeepForwardInv(states, events, i - 1);
      NextKeepsForwardInv(states[i - 1], events[i - 1], states[i]);
    }
  }

  /** In every state of every run the music flows from live leaders to their live members and nowhere else. */
  lemma MusicFlowsInEveryRun(states: seq<State>, events: seq<Event>, i: nat)
    requires IsRun(states, events) && i <= |events|
    ensures MusicFlows(states[i]) && Forest(states[i].fwd)
  {
    RunsKeepForwardInv(states, events, i);
    InvariantMeansMusicFlows(states[i]);
    InvariantMeansForest(states[i]);
  }

  // ---------------------------------------------------------------------------
  // The service takes exactly the steps of a run
  // ---------------------------------------------------------------------------

  /**
    Handling an event with the service's own code is one step of a run, or a failing one if a call
    or a commit fails.
   */
  method Handle(service: ZoneService.DistributedMgmtService, ev: Event)
    requires service.Valid()
    requires match ev
             case Create(id, _, _) => id != ""
             case Leave(n) => n in service.nodes.live && n != ""
             case Join(n, _) => n !in service.nodes.live && n != ""
             case _ => true
    modifies service.nodes, service.store.m
    ensures service.Valid()
    ensures Next(old(service.State()), ev, service.State())
            || (!service.Undisturbed() && Fails(old(service.State()), ev, service.State()))
    ensures old(service.nodes.SoundGraph()) && OwnLeaders(old(service.State())) ==> service.nodes.SoundGraph()
  {
    match ev {
      case Create(id, displayName, ids) => var _ := service.CreateZone(id, displayName, ids);
      case Add(zoneId, ids) => var _ := service.AddSpeakersToZone(zoneId, ids);
      case Remove(zoneId, ids) => var _ := service.RemoveSpeakersFromZone(zoneId, ids);
      case Delete(zoneId) => var _ := service.DeleteZone(zoneId);
      case Leave(n) => HandleLeave(service, n);
      case Join(n, advertising) => HandleJoin(service, n, advertising);
    }
  }

  method HandleLeave(service: ZoneService.DistributedMgmtService, n: NodeId)
    requires service.Valid() && n in service.nodes.live && n != ""
    modifies service.nodes, service.store.m
    ensures service.Valid()
    ensures Next(old(service.State()), Leave(n), service.State())
            || (!service.Undisturbed() && Fails(old(service.State()), Leave(n), service.State()))
    ensures old(service.nodes.SoundGraph()) && OwnLeaders(old(service.State())) ==> service.nodes.SoundGraph()
  {
    ghost var s := service.State();
    ghost var sound := service.nodes.SoundGraph() && OwnLeaders(s);
    LeftKeepsOwnLeaders(s, n);
    service.nodes.NodeLeaves(n);
    ghost var u := service.State();
    assert u == Left(s, n);
    assert sound ==> service.nodes.SoundGraph() && OwnLeaders(u);
    var _ := service.HandleMusicNodeLeave(n);
    LeaveIsStep(s, n, u, service.State());
  }

  lemma LeftKeepsOwnLeaders(s: State, n: NodeId)
    ensures OwnLeaders(s) ==> OwnLeaders(Left(s, n))
    ensures Forest(s.fwd) ==> Forest(Left(s, n).fwd)
  {
    if Forest(s.fwd) {
      SubForest(s.fwd, Left(s, n).fwd);
    }
  }

  lemma LeaveIsStep(s: State, n: NodeId, u: State, t: State)
    requires n in s.live && u == Left(s, n)
    ensures ZoneService.LeaveHandled(u, n, t) ==> Next(s, Leave(n), t)
    ensures LeaveInterrupted(u, n, t) ==> Fails(s, Leave(n), t)
  {
  }

  method HandleJoin(service: ZoneService.DistributedMgmtService, n: NodeId, advertising: bool)
    requires service.Valid() && n !in service.nodes.live && n != ""
    modifies service.nodes, service.store.m
    ensures service.Valid()
    ensures Next(old(service.State()), Join(n, advertising), service.State())
            || (!service.Undisturbed() && Fails(old(service.State()), Join(n, advertising), service.State()))
    ensures old(service.nodes.SoundGraph()) && OwnLeaders(old(service.State())) ==> service.nodes.SoundGraph()
  {
    ghost var s := service.State();
    ghost var sound := service.nodes.SoundGraph() && OwnLeaders(s);
    JoinedKeepsOwnLeaders(s, n, advertising);
    service.nodes.NodeJoins(n, advertising);
    ghost var u := service.State();
    assert u == Joined(s, n, advertising);
    assert sound ==> service.nodes.SoundGraph() && OwnLeaders(u) && ZoneService.HoldsNone(u.fwd, n);
    var _ := service.HandleMusicNodeJoin(n);
    JoinIsStep(s, n, advertising, u, service.State());
  }

  lemma JoinedKeepsOwnLeaders(s: State, n: NodeId, advertising: bool)
    requires n !in s.live && n != ""
    ensures OwnLeaders(s) ==> OwnLeaders(Joined(s, n, advertising)) && ZoneService.HoldsNone(s.fwd, n)
  {
  }

  lemma JoinIsStep(s: State, n: NodeId, advertising: bool, u: State, t: State)
    requires n !in s.live && n != "" && u == Joined(s, n, advertising)
    ensures ZoneService.JoinHandled(u, n, t) ==> Next(s, Join(n, advertising), t)
    ensures JoinInterrupted(u, n, t) ==> Fails(s, Join(n, advertising), t)
  {
  }
}
