/**
  Nothing stops a request from naming speakers of other zones (cmd/mgmt/raft/service.go:127-186,
  224-264). When such a request costs somebody the music, and when it does not.
 */
module ZoneOverlap {
  import opened Store
  import opened Fleet
  import opened ZoneSpec
  import opened ZoneInvariant
  import opened ZoneRuns
  import opened ZoneExample
  import ZoneRemoval

  // ---------------------------------------------------------------------------
  // Requests that only drop sessions
  // ---------------------------------------------------------------------------

  /** Every live follower of a live leader is still served. */
  ghost predicate Served(s: State, fwd: set<Edge>) {
    forall k, y | k in s.zones && y in s.zones[k].speakers && y in s.live && s.zones[k].leader in s.live ::
      y == s.zones[k].leader || Edge(s.zones[k].leader, y) in fwd
  }

  lemma DroppedExactlyWhen(s: State, t: State)
    requires ForwardInv(s) && t.live == s.live && t.zones == s.zones && t.fwd <= s.fwd
    ensures MusicFlows(t) <==> Served(s, t.fwd)
  {
    InvariantMeansMusicFlows(s);
    if Served(s, t.fwd) {
      forall k, x | k in t.zones && x in t.zones[k].speakers && x in t.live && x != t.zones[k].leader
        ensures forall n :: Edge(n, x) in t.fwd <==> n == t.zones[k].leader && n in t.live
      {
        assert forall n :: Edge(n, x) in s.fwd <==> n == s.zones[k].leader && n in s.live;
      }
    }
  }

  /** None of the nodes is the live leader of another live speaker. */
  ghost predicate LeadNobody(s: State, nodes: set<NodeId>) {
    forall k, y | k in s.zones && s.zones[k].leader in nodes && s.zones[k].leader in s.live
                  && y in s.zones[k].speakers && y in s.live :: y == s.zones[k].leader
  }

  /** None of the nodes follows a live leader. */
  ghost predicate FollowNobody(s: State, nodes: set<NodeId>) {
    forall k, y | k in s.zones && s.zones[k].leader in s.live && y in s.zones[k].speakers && y in s.live
        && y in nodes ::
      y == s.zones[k].leader
  }

  lemma ClearedExactlyWhen(s: State, nodes: set<NodeId>)
    requires ForwardInv(s)
    ensures Served(s, Cleared(s.fwd, nodes)) <==> LeadNobody(s, nodes)
  {
  }

  lemma CutExactlyWhen(s: State, nodes: set<NodeId>, ids: set<NodeId>)
    requires ForwardInv(s)
    ensures Served(s, Cut(Cleared(s.fwd, nodes), s.live, s.live, ids)) <==> LeadNobody(s, nodes) && FollowNobody(s, ids)
  {
  }

  // ---------------------------------------------------------------------------
  // Creation
  // ---------------------------------------------------------------------------

  /**
    What a new zone may share with an old one: the new leader may take followers it already had, it
    may have led a zone all of whose live speakers come along, and it may have followed a dead leader.
   */
  ghost predicate SharesSafely(s: State, ids: seq<NodeId>, zone: ZoneConfig)
    requires ids != []
  {
    forall x | x in ids && x in Members(zone) ::
      if x != ids[0] then zone.leader == ids[0]
      else if zone.leader == ids[0] then forall y | y in zone.speakers && y in s.live :: y in ids
      else zone.leader !in s.live
  }

  /** The sessions after a creation. */
  ghost predicate Formed(s: State, fwd: set<Edge>, leader: NodeId, ids: set<NodeId>) {
    forall e :: e in fwd <==>
      (e in s.fwd && e.from !in ids && e.dest !in ids) || (e.from == leader && e.dest in ids && e.dest != leader)
  }

  lemma CreatedIsFormed(s: State, ids: set<NodeId>, leader: NodeId)
    requires ForwardInv(s) && ids <= s.live
    ensures Formed(s, Linked(Cut(Cleared(s.fwd, ids), s.live, s.live, ids), s.live, leader, ids), leader, ids)
  {
  }

  /** What the new zone does to an old one. */
  lemma OldZoneExactlyWhen(s: State, fwd: set<Edge>, ids: seq<NodeId>, k: string)
    requires ForwardInv(s) && ids != [] && SetOf(ids) <= s.live && Formed(s, fwd, ids[0], SetOf(ids)) && k in s.zones
    ensures SharesSafely(s, ids, s.zones[k]) <==> ZoneFlows(s.live, fwd, s.zones[k])
  {
    InvariantMeansMusicFlows(s);
    var zone := s.zones[k];
    assert ids[0] in ids;
    if SharesSafely(s, ids, zone) {
      forall x | x in zone.speakers && x in s.live && x != zone.leader
        ensures forall n :: Edge(n, x) in fwd <==> n == zone.leader && n in s.live
      {
        assert forall n :: Edge(n, x) in s.fwd <==> n == zone.leader && n in s.live;
      }
    } else {
      var x :| x in ids && x in Members(zone) && !(if x != ids[0] then zone.leader == ids[0]
        else if zone.leader == ids[0] then forall y | y in zone.speakers && y in s.live :: y in ids
        else zone.leader !in s.live);
      if x != ids[0] {
        assert Edge(ids[0], x) in fwd;
      } else if zone.leader == ids[0] {
        var y :| y in zone.speakers && y in s.live && y !in ids;
        assert Edge(zone.leader, y) !in fwd;
      } else {
        assert Edge(zone.leader, x) !in fwd;
      }
    }
  }

  /** How many of the ids the first loop of CreateZone gets through. */
  function Gone(s: State, ids: seq<NodeId>): (k: nat)
    ensures k <= |ids|
  {
    if ids != [] && ids[0] !in s.live then 0 else Reached(ids, s.live, FirstOf(ids))
  }

  /** Whether a creation with these speakers leaves the music as it should be. */
  ghost predicate CreateIsHarmless(s: State, ids: seq<NodeId>) {
    if Gone(s, ids) < |ids| then LeadNobody(s, SetOf(ids[..Gone(s, ids)]))
    else ids == [] || forall k | k in s.zones :: SharesSafely(s, ids, s.zones[k])
  }

  lemma NewZoneFlows(s: State, fwd: set<Edge>, id: string, displayName: string, ids: seq<NodeId>)
    requires ForwardInv(s) && ids != [] && SetOf(ids) <= s.live && Formed(s, fwd, ids[0], SetOf(ids))
    ensures ZoneFlows(s.live, fwd, ZoneConfig(id, displayName, ids[0], ids))
    ensures forall d, e | d in fwd && e in fwd :: d.dest != e.from
  {
    assert ids[0] in ids;
    forall d, e | d in fwd && e in fwd ensures d.dest != e.from {
      if d in s.fwd && e in s.fwd {
        OneHop(s, d, e);
      }
    }
  }

  /** A creation, successful or not, leaves the music as it should be exactly when it is harmless in that sense. */
  lemma CreateMusicExactlyWhen(s: State, id: string, displayName: string, ids: seq<NodeId>)
    requires ForwardInv(s) && id !in s.zones
    ensures MusicFlows(CreateZone(s, id, displayName, ids).state) <==> CreateIsHarmless(s, ids)
  {
    var t := CreateZone(s, id, displayName, ids).state;
    var gone := SetOf(ids[..Gone(s, ids)]);
    if Gone(s, ids) < |ids| {
      DroppedExactlyWhen(s, t);
      ClearedExactlyWhen(s, gone);
    } else if ids == [] {
      assert t.fwd == s.fwd;
      InvariantMeansMusicFlows(s);
    } else {
      assert ids[..|ids|] == ids;
      assert forall x | x in ids :: x in s.live;
      CreatedIsFormed(s, SetOf(ids), ids[0]);
      CreatedExactlyWhen(s, t, id, displayName, ids);
    }
  }

  lemma CreatedExactlyWhen(s: State, t: State, id: string, displayName: string, ids: seq<NodeId>)
    requires ForwardInv(s) && id !in s.zones && ids != [] && SetOf(ids) <= s.live && t.live == s.live
    requires Formed(s, t.fwd, ids[0], SetOf(ids))
    requires t.zones == s.zones[id := ZoneConfig(id, displayName, ids[0], ids)]
    ensures MusicFlows(t) <==> forall k | k in s.zones :: SharesSafely(s, ids, s.zones[k])
  {
    NewZoneFlows(s, t.fwd, id, displayName, ids);
    forall k | k in s.zones
      ensures t.zones[k] == s.zones[k]
      ensures SharesSafely(s, ids, s.zones[k]) <==> ZoneFlows(t.live, t.fwd, t.zones[k])
    {
      OldZoneExactlyWhen(s, t.fwd, ids, k);
    }
  }

  // ---------------------------------------------------------------------------
  // Addition
  // ---------------------------------------------------------------------------

  /** Whether adding these speakers to the zone leaves the music as it should be. */
  ghost predicate AddIsHarmless(s: State, zoneId: string, ids: seq<NodeId>) {
    ids != [] && zoneId in s.zones ==>
      var leader := s.zones[zoneId].leader;
      var k := Reached(ids, s.live, leader);
      if k < |ids| then LeadNobody(s, SetOf(ids[..k]) - {leader})
      else if leader !in s.live then LeadNobody(s, SetOf(ids) - {leader}) && FollowNobody(s, SetOf(ids))
      else forall x | x in ids :: Free(s, x, zoneId)
  }

  /** An addition, successful or not; a successful one has to leave all other zones alone. */
  lemma AddMusicExactlyWhen(s: State, zoneId: string, ids: seq<NodeId>)
    requires ForwardInv(s)
    ensures MusicFlows(AddSpeakers(s, zoneId, ids).state) <==> AddIsHarmless(s, zoneId, ids)
  {
    var t := AddSpeakers(s, zoneId, ids).state;
    if ids == [] || zoneId !in s.zones {
      InvariantMeansMusicFlows(s);
    } else {
      var leader := s.zones[zoneId].leader;
      var k := Reached(ids, s.live, leader);
      if k < |ids| {
        DroppedExactlyWhen(s, t);
        ClearedExactlyWhen(s, SetOf(ids[..k]) - {leader});
      } else {
        assert ids[..|ids|] == ids;
        if leader !in s.live {
          DroppedExactlyWhen(s, t);
          CutExactlyWhen(s, SetOf(ids) - {leader}, SetOf(ids));
        } else if forall x | x in ids :: Free(s, x, zoneId) {
          AddKeepsForwardInv(s, zoneId, ids);
          InvariantMeansMusicFlows(t);
        } else {
          var x, j :| x in ids && j in s.zones && j != zoneId && x in Members(s.zones[j]);
          StolenSpeaker(s, t, zoneId, ids, x, j);
        }
      }
    }
  }

  /** A speaker taken from another zone hears the wrong leader. */
  lemma StolenSpeaker(s: State, t: State, zoneId: string, ids: seq<NodeId>, x: NodeId, j: string)
    requires ForwardInv(s) && zoneId in s.zones && j in s.zones && j != zoneId && x in ids && x in Members(s.zones[j])
    requires s.zones[zoneId].leader in s.live && x in s.live
    requires Edge(s.zones[zoneId].leader, x) in t.fwd || x == s.zones[zoneId].leader
    requires t.live == s.live && j in t.zones && t.zones[j] == s.zones[j]
    ensures !MusicFlows(t)
  {
    LeadersDiffer(s, j, zoneId);
    assert s.zones[zoneId].leader in Members(s.zones[zoneId]);
    assert Edge(s.zones[zoneId].leader, x) in t.fwd;
    assert !ZoneFlows(t.live, t.fwd, t.zones[j]);
  }

  // ---------------------------------------------------------------------------
  // Removal
  // ---------------------------------------------------------------------------

  /**
    A removal leaves the music as it should be exactly when somebody it needs is dead, so that it
    fails, or no follower is named that the stored list would keep.
   */
  lemma RemoveMusicExactlyWhen(s: State, zoneId: string, ids: seq<NodeId>)
    requires ForwardInv(s) && zoneId in s.zones && ids != []
    ensures MusicFlows(RemoveSpeakers(s, zoneId, ids).state) <==>
              !CanRemove(s, s.zones[zoneId], ids) || RemovesAll(s.zones[zoneId], ids)
  {
    var r, zone := RemoveSpeakers(s, zoneId, ids), s.zones[zoneId];
    RemoveOkExactlyWhen(s, zoneId, ids);
    if RemovesAll(zone, ids) || !r.ok {
      if r.ok {
        RemoveKeepsForwardInv(s, zoneId, ids);
      } else {
        SameZonesMatch(s, r.state);
      }
      InvariantMeansMusicFlows(r.state);
    } else {
      assert ids[..|ids|] == ids;
      var x :| x in zone.speakers && x in ids && x != ids[0] && x != zone.leader;
      ZoneRemoval.KeptMembers(zone.speakers, ids, x);
      assert x in r.state.zones[zoneId].speakers && Edge(zone.leader, x) !in r.state.fwd;
      assert !ZoneFlows(r.state.live, r.state.fwd, r.state.zones[zoneId]);
    }
  }

  // ---------------------------------------------------------------------------
  // It really happens
  // ---------------------------------------------------------------------------

  /** A live follower of a live leader hears nobody. */
  ghost predicate CutOff(s: State, k: string, x: NodeId) {
    && k in s.zones && x in s.zones[k].speakers && x != s.zones[k].leader
    && x in s.live && s.zones[k].leader in s.live
    && forall n :: Edge(n, x) !in s.fwd
  }

  lemma CutOffMeansNoMusic(s: State, k: string, x: NodeId)
    requires CutOff(s, k, x)
    ensures !MusicFlows(s)
  {
    assert Edge(s.zones[k].leader, x) !in s.fwd;
    assert !ZoneFlows(s.live, s.fwd, s.zones[k]);
  }

  const DEN := ZoneConfig("1", "den", "a", ["a", "b"])
  const HALL := ZoneConfig("2", "hall", "b", ["b", "c"])

  /** Two creations on an empty store: the follower of the first zone leads the second, and hears nobody. */
  lemma OverlapCutsFollowerOff() returns (states: seq<State>, events: seq<Event>)
    ensures IsExecution(states, events) && |events| == 2 && CutOff(states[2], "1", "b") && !MusicFlows(states[2])
  {
    var s0 := State({"a", "b", "c"}, {}, {}, map[]);
    var s1 := State({"a", "b", "c"}, {Edge("a", "b")}, {"a"}, map["1" := DEN]);
    var s2 := State({"a", "b", "c"}, {Edge("b", "c")}, {"a", "b"}, map["1" := DEN, "2" := HALL]);
    CreateDen(s0, s1);
    CreateHall(s1, s2);
    HallCutsOff(s2);
    CutOffMeansNoMusic(s2, "1", "b");
    states, events := [s0, s1, s2], [Create("1", "den", ["a", "b"]), Create("2", "hall", ["b", "c"])];
    TwoSteps(states, events);
  }

  lemma HallCutsOff(s: State)
    requires s == State({"a", "b", "c"}, {Edge("b", "c")}, {"a", "b"}, map["1" := DEN, "2" := HALL])
    ensures CutOff(s, "1", "b")
  {
    assert DEN.speakers[1] == "b";
  }

  lemma CreateDen(s0: State, s1: State)
    requires s0 == State({"a", "b", "c"}, {}, {}, map[])
    requires s1 == State({"a", "b", "c"}, {Edge("a", "b")}, {"a"}, map["1" := DEN])
    ensures Next(s0, Create("1", "den", ["a", "b"]), s1)
  {
    var ids: seq<NodeId> := ["a", "b"];
    ReachedIs(ids, s0.live, "a", 2);
    assert ids[..2] == ids && SetOf(ids) == {"a", "b"};
  }

  lemma CreateHall(s1: State, s2: State)
    requires s1 == State({"a", "b", "c"}, {Edge("a", "b")}, {"a"}, map["1" := DEN])
    requires s2 == State({"a", "b", "c"}, {Edge("b", "c")}, {"a", "b"}, map["1" := DEN, "2" := HALL])
    ensures Next(s1, Create("2", "hall", ["b", "c"]), s2)
  {
    var ids: seq<NodeId> := ["b", "c"];
    ReachedIs(ids, s1.live, "b", 2);
    assert ids[..2] == ids && SetOf(ids) == {"b", "c"};
    assert Cut(Cleared(s1.fwd, {"b", "c"}), s1.live, s1.live, {"b", "c"}) == {};
    assert Linked({}, s1.live, "b", {"b", "c"}) == {Edge("b", "c")};
  }

  /** One removal of two followers: the second stays in the stored list, and hears nobody. */
  lemma RemovalCutsFollowerOff() returns (states: seq<State>, events: seq<Event>)
    ensures IsExecution(states, events) && |events| == 2 && events[1] == Remove("1", ["b", "c"])
    ensures CutOff(states[2], "1", "c") && !MusicFlows(states[2])
  {
    CreateTrio();
    var t := RemoveSpeakers(WITH_TRIO, "1", ["b", "c"]).state;
    RemovePair(t);
    CutOffMeansNoMusic(t, "1", "c");
    states, events := [WITHOUT_ZONES, WITH_TRIO, t], [Create("1", "den", ["a", "b", "c"]), Remove("1", ["b", "c"])];
    TwoSteps(states, events);
  }

  lemma RemovePair(t: State)
    requires t == RemoveSpeakers(WITH_TRIO, "1", ["b", "c"]).state
    ensures CutOff(t, "1", "c")
  {
    assert ["b", "c"][1] == "c" && TRIO.speakers[2] == "c";
    StoredButSilent(WITH_TRIO, "1", ["b", "c"], "c");
  }

  /** A follower named after the first id stays in the stored list and loses its session. */
  lemma StoredButSilent(s: State, zoneId: string, ids: seq<NodeId>, x: NodeId)
    requires zoneId in s.zones && CanRemove(s, s.zones[zoneId], ids)
    requires x in s.zones[zoneId].speakers && x != s.zones[zoneId].leader && x in ids && x != ids[0]
    requires forall e | e in s.fwd && e.dest == x :: e.from == s.zones[zoneId].leader
    ensures CutOff(RemoveSpeakers(s, zoneId, ids).state, zoneId, x)
  {
    RemoveOkExactlyWhen(s, zoneId, ids);
    ZoneRemoval.KeptMembers(s.zones[zoneId].speakers, ids, x);
  }
}
