/**
  Runs in which calls and commits fail anywhere. Zones may then miss music, but they never hear the
  wrong music, as long as no interrupted promotion leaves sessions behind.
 */
module ZoneFailures {
  import opened Store
  import opened Fleet
  import opened ZoneSpec
  import opened ZoneInvariant
  import opened ZoneRuns
  import opened ZoneExample
  import ZoneRemoval
  import ZoneService

  /** Not an interrupted promotion, or one that has opened no session. */
  ghost predicate OpensNothing(s: State, ev: Event, t: State) {
    ev.Leave? ==> t.fwd <= Left(s, ev.n).fwd
  }

  ghost predicate HappensSafely(s: State, ev: Event, t: State) {
    Next(s, ev, t) || (Fails(s, ev, t) && OpensNothing(s, ev, t))
  }

  /** Every event succeeds or fails in any possible way, except that no interrupted promotion leaves sessions behind. */
  ghost predicate IsFailingRun(states: seq<State>, events: seq<Event>) {
    && |states| == |events| + 1
    && Initial(states[0])
    && (forall i | 0 <= i < |events| :: NoOverlap(states[i], events[i]))
    && (forall i | 0 <= i < |events| :: HappensSafely(states[i], events[i], states[i + 1]))
  }

  /** A zone member hears nobody but its own live leader, and a leader hears nobody. */
  ghost predicate NoStrayMusic(s: State) {
    forall e, k | e in s.fwd && k in s.zones && e.dest in Members(s.zones[k]) ::
      e.from == s.zones[k].leader && e.from in s.live && e.dest != s.zones[k].leader
  }

  ghost predicate SafeInv(s: State) {
    OwnLeaders(s) && Forest(s.fwd)
  }

  // ---------------------------------------------------------------------------
  // Every event keeps it
  // ---------------------------------------------------------------------------

  lemma NoSpeakers(speakers: seq<NodeId>)
    ensures speakers != [] ==> SetOf(speakers) != {}
  {
    if speakers != [] {
      assert speakers[0] in SetOf(speakers);
    }
  }

  /** Zones and members only go. */
  ghost predicate Shrunk(zones: map<string, ZoneConfig>, left: map<string, ZoneConfig>) {
    && left.Keys <= zones.Keys
    && forall k | k in left :: left[k].leader == zones[k].leader && SetOf(left[k].speakers) <= SetOf(zones[k].speakers)
  }

  lemma ShrunkWellFormed(s: State, t: State)
    requires WellFormed(s) && t.live == s.live && Shrunk(s.zones, t.zones)
    ensures WellFormed(t) && forall k | k in t.zones :: Members(t.zones[k]) <= Members(s.zones[k])
  {
    forall k | k in t.zones && t.zones[k].leader == "" ensures t.zones[k].speakers == [] {
      NoSpeakers(t.zones[k].speakers);
    }
  }

  lemma ShrunkIsSafe(s: State, t: State)
    requires SafeInv(s) && t.live == s.live && t.fwd <= s.fwd && Shrunk(s.zones, t.zones)
    ensures SafeInv(t)
  {
    SubForest(s.fwd, t.fwd);
    ShrunkWellFormed(s, t);
    forall e, k | e in t.fwd && k in t.zones ensures InsideZone(e, t.zones[k]) {
      assert InsideZone(e, s.zones[k]);
    }
  }

  lemma DroppedIsSafe(s: State, t: State)
    requires SafeInv(s) && OnlyDropped(s, t)
    ensures SafeInv(t)
  {
    ShrunkIsSafe(s, t);
  }

  /** Gathering free nodes under a node that is free, or leads the zone they come to. */
  lemma RegroupedIsSafe(s: State, zones: map<string, ZoneConfig>, cleared: set<NodeId>, leader: NodeId,
      ids: set<NodeId>, t: State)
    requires SafeInv(s) && ids <= s.live && leader in s.live && cleared <= ids && ids <= cleared + {leader}
    requires t == s.(bcast := t.bcast, zones := zones, fwd := Regrouped(s, cleared, leader, ids)) && WellFormed(t)
    requires forall k | k in zones ::
               || (Members(zones[k]) !! ids + {leader} && k in s.zones && zones[k] == s.zones[k])
               || (zones[k].leader == leader && (if k in s.zones then s.zones[k].leader == leader else leader in ids)
                   && forall x | x in Members(zones[k]) && x !in ids && x != leader :: k in s.zones
                       && x in Members(s.zones[k]))
    ensures SafeInv(t)
  {
    var cut := Cut(Cleared(s.fwd, cleared), s.live, s.live, ids);
    SubForest(s.fwd, cut);
    LinkKeepsForest(cut, s.live, leader, ids);
    forall e, k | e in t.fwd && k in zones ensures InsideZone(e, zones[k]) {
      if e in s.fwd && k in s.zones {
        assert InsideZone(e, s.zones[k]);
      }
    }
  }

  lemma CreateIsSafe(s: State, id: string, displayName: string, ids: seq<NodeId>, t: State)
    requires SafeInv(s) && NoOverlap(s, Create(id, displayName, ids))
    requires Next(s, Create(id, displayName, ids), t) || Fails(s, Create(id, displayName, ids), t)
    ensures SafeInv(t)
  {
    assert ids[..|ids|] == ids;
    if OnlyDropped(s, t) {
      DroppedIsSafe(s, t);
    } else if ids == [] {
      assert Cleared(s.fwd, {}) == s.fwd;
      EmptyZoneIsSafe(s, t, id, displayName);
    } else {
      assert forall x | x in ids :: Free(s, x, id) && x in s.live;
      CreatedIsSafe(s, t, ZoneConfig(id, displayName, ids[0], ids));
    }
  }

  lemma EmptyZoneIsSafe(s: State, t: State, id: string, displayName: string)
    requires SafeInv(s) && id !in s.zones && t.live == s.live && t.fwd == s.fwd
    requires t.zones == s.zones[id := ZoneConfig(id, displayName, "", [])]
    ensures SafeInv(t)
  {
  }

  lemma CreatedIsSafe(s: State, t: State, zone: ZoneConfig)
    requires SafeInv(s) && zone.id !in s.zones && zone.speakers != [] && zone.leader == zone.speakers[0]
    requires forall x | x in zone.speakers :: Free(s, x, zone.id) && x in s.live
    requires t.live == s.live && (t.zones == s.zones || t.zones == s.zones[zone.id := zone])
    requires t.fwd == Regrouped(s, SetOf(zone.speakers), zone.leader, SetOf(zone.speakers))
    ensures SafeInv(t)
  {
    assert zone.leader in zone.speakers && Members(zone) == SetOf(zone.speakers);
    RegroupedIsSafe(s, t.zones, SetOf(zone.speakers), zone.leader, SetOf(zone.speakers), t);
  }

  lemma AddIsSafe(s: State, zoneId: string, ids: seq<NodeId>, t: State)
    requires SafeInv(s) && NoOverlap(s, Add(zoneId, ids))
    requires Next(s, Add(zoneId, ids), t) || Fails(s, Add(zoneId, ids), t)
    ensures SafeInv(t)
  {
    assert ids[..|ids|] == ids;
    assert forall x | x in ids :: Free(s, x, zoneId);
    if OnlyDropped(s, t) {
      DroppedIsSafe(s, t);
    } else {
      assert forall x | x in ids :: x in s.live;
      AddedIsSafe(s, t, zoneId, ids);
    }
  }

  lemma AddedIsSafe(s: State, t: State, zoneId: string, ids: seq<NodeId>)
    requires SafeInv(s) && zoneId in s.zones && t.live == s.live
    requires forall x | x in ids :: Free(s, x, zoneId) && x in s.live
    requires var zone := s.zones[zoneId];
             && zone.leader in s.live
             && (t.zones == s.zones || t.zones == s.zones[zoneId := zone.(speakers := zone.speakers + ids)])
             && t.fwd == Regrouped(s, SetOf(ids) - {zone.leader}, zone.leader, SetOf(ids))
    ensures SafeInv(t)
  {
    var zone := s.zones[zoneId];
    assert zone.leader in Members(zone);
    assert Members(t.zones[zoneId]) <= Members(zone) + SetOf(ids);
    forall k | k in s.zones && k != zoneId ensures Members(s.zones[k]) !! Members(zone) + SetOf(ids) {
      assert forall x | x in ids :: Free(s, x, zoneId);
    }
    RegroupedIsSafe(s, t.zones, SetOf(ids) - {zone.leader}, zone.leader, SetOf(ids), t);
  }

  lemma RemovalShrinks(s: State, zoneId: string, ids: seq<NodeId>)
    ensures var t := RemoveSpeakers(s, zoneId, ids).state;
            t.live == s.live && t.fwd <= s.fwd && Shrunk(s.zones, t.zones)
  {
    if zoneId in s.zones {
      ZoneRemoval.KeptSubset(s.zones[zoneId].speakers, ids);
    }
  }

  lemma RemoveIsSafe(s: State, zoneId: string, ids: seq<NodeId>, t: State)
    requires SafeInv(s) && (Next(s, Remove(zoneId, ids), t) || Fails(s, Remove(zoneId, ids), t))
    ensures SafeInv(t)
  {
    if Next(s, Remove(zoneId, ids), t) {
      RemovalShrinks(s, zoneId, ids);
      ShrunkIsSafe(s, t);
    } else {
      DroppedIsSafe(s, t);
    }
  }

  lemma DeleteIsSafe(s: State, zoneId: string, t: State)
    requires SafeInv(s) && (Next(s, Event.Delete(zoneId), t) || Fails(s, Event.Delete(zoneId), t))
    ensures SafeInv(t)
  {
    ShrunkIsSafe(s, t);
  }

  lemma LeftIsSafe(s: State, n: NodeId)
    requires SafeInv(s)
    ensures SafeInv(Left(s, n))
  {
    SubForest(s.fwd, Left(s, n).fwd);
  }

  lemma LeaveIsSafe(s: State, n: NodeId, t: State)
    requires SafeInv(s) && HappensSafely(s, Leave(n), t)
    ensures SafeInv(t)
  {
    var u := Left(s, n);
    LeftIsSafe(s, n);
    if t.zones == u.zones && t.live == u.live && t.fwd <= u.fwd {
      DroppedIsSafe(u, t);
    } else {
      var zoneId, heir :| zoneId in u.zones && u.zones[zoneId].leader == n && heir in Candidates(u, u.zones[zoneId])
                          && t == Promoted(u, zoneId, heir);
      PromotedIsSafe(u, zoneId, heir);
    }
  }

  lemma PromotedIsSafe(s: State, zoneId: string, heir: NodeId)
    requires SafeInv(s) && zoneId in s.zones && s.zones[zoneId].leader !in s.live
    requires heir in Candidates(s, s.zones[zoneId])
    ensures SafeInv(Promoted(s, zoneId, heir))
  {
    ZoneService.HeirKeepsForest(s, zoneId, heir);
    var t := Promoted(s, zoneId, heir);
    PromotedWellFormed(s, zoneId, heir);
    forall e, k | e in t.fwd && k in t.zones ensures InsideZone(e, t.zones[k]) {
      if e in s.fwd {
        assert InsideZone(e, s.zones[k]) && InsideZone(e, s.zones[zoneId]);
      } else {
        assert e.from in Members(s.zones[zoneId]) && e.dest in Members(s.zones[zoneId]);
      }
    }
  }

  lemma PromotedWellFormed(s: State, zoneId: string, heir: NodeId)
    requires WellFormed(s) && zoneId in s.zones && heir in Candidates(s, s.zones[zoneId])
    ensures WellFormed(Promoted(s, zoneId, heir))
    ensures forall k | k in s.zones :: Members(Promoted(s, zoneId, heir).zones[k]) <= Members(s.zones[k])
  {
  }

  lemma JoinIsSafe(s: State, n: NodeId, advertising: bool, t: State)
    requires SafeInv(s) && (Next(s, Join(n, advertising), t) || Fails(s, Join(n, advertising), t))
    ensures SafeInv(t)
  {
    var u := Joined(s, n, advertising);
    assert SafeInv(u);
    if OnlyDropped(u, t) {
      DroppedIsSafe(u, t);
    } else {
      var k :| k in u.zones && n in Members(u.zones[k]) && OnlyUnsaved(u, t, Back(u, u.zones[k], n).fwd);
      BackIsSafe(u, t, k, n);
    }
  }

  lemma BackIsSafe(s: State, t: State, zoneId: string, n: NodeId)
    requires SafeInv(s) && zoneId in s.zones && n in Members(s.zones[zoneId]) && ZoneService.HoldsNone(s.fwd, n)
    requires OnlyUnsaved(s, t, Back(s, s.zones[zoneId], n).fwd) && n in s.live
    ensures SafeInv(t)
  {
    ZoneService.BackKeepsForest(s, zoneId, n);
    var zone := s.zones[zoneId];
    forall e, k | e in t.fwd && k in t.zones ensures InsideZone(e, t.zones[k]) {
      if e in s.fwd {
        assert InsideZone(e, s.zones[k]);
      } else {
        assert e.from in Members(zone) && e.dest in Members(zone);
      }
    }
  }

  // ---------------------------------------------------------------------------
  // Over whole runs
  // ---------------------------------------------------------------------------

  lemma StepIsSafe(s: State, ev: Event, t: State)
    requires SafeInv(s) && NoOverlap(s, ev) && HappensSafely(s, ev, t)
    ensures SafeInv(t)
  {
    match ev
    case Create(id, displayName, ids) => CreateIsSafe(s, id, displayName, ids, t);
    case Add(zoneId, ids) => AddIsSafe(s, zoneId, ids, t);
    case Remove(zoneId, ids) => RemoveIsSafe(s, zoneId, ids, t);
    case Delete(zoneId) => DeleteIsSafe(s, zoneId, t);
    case Leave(n) => LeaveIsSafe(s, n, t);
    case Join(n, advertising) => JoinIsSafe(s, n, advertising, t);
  }

  lemma InitialIsSafe(s: State)
    requires Initial(s)
    ensures SafeInv(s)
  {
    EmptyIsForest();
  }

  lemma RunStepIsSafe(states: seq<State>, events: seq<Event>, i: nat)
    requires IsFailingRun(states, events) && i < |events| && SafeInv(states[i])
    ensures SafeInv(states[i + 1])
  {
    StepIsSafe(states[i], events[i], states[i + 1]);
  }

  lemma {:induction false} FailingRunsAreSafe(states: seq<State>, events: seq<Event>, i: nat)
    requires IsFailingRun(states, events) && i <= |events|
    ensures SafeInv(states[i])
  {
    if i == 0 {
      InitialIsSafe(states[0]);
    } else {
      FailingRunsAreSafe(states, events, i - 1);
      RunStepIsSafe(states, events, i - 1);
    }
  }

  lemma EmptyIsForest()
    ensures Forest({})
  {
    var none: set<Edge> := {};
    forall p: seq<NodeId> ensures !Path(none, p) {
      if |p| >= 2 {
        assert Edge(p[0], p[0 + 1]) !in none;
      }
    }
  }

  /**
    Whatever calls and commits fail, short of a promotion that leaves sessions without its commit: in
    every state of every run a zone member hears nobody but its own live leader, a leader hears
    nobody, and the graph is a forest.
   */
  lemma NoStrayMusicInEveryRun(states: seq<State>, events: seq<Event>, i: nat)
    requires IsFailingRun(states, events) && i <= |events|
    ensures NoStrayMusic(states[i]) && Forest(states[i].fwd)
  {
    FailingRunsAreSafe(states, events, i);
    var s := states[i];
    forall e, k | e in s.fwd && k in s.zones && e.dest in Members(s.zones[k])
      ensures e.from == s.zones[k].leader && e.from in s.live && e.dest != s.zones[k].leader
    {
      assert InsideZone(e, s.zones[k]);
    }
  }

  // ---------------------------------------------------------------------------
  // An interrupted promotion
  // ---------------------------------------------------------------------------

  /** The sessions of a promotion without its commit are harmless exactly when the heir has nobody to serve. */
  lemma InterruptedPromotionExactlyWhen(s: State, t: State, zoneId: string, heir: NodeId)
    requires SafeInv(s) && zoneId in s.zones && s.zones[zoneId].leader !in s.live
    requires heir in Candidates(s, s.zones[zoneId]) && OnlyUnsaved(s, t, Promoted(s, zoneId, heir).fwd)
    ensures SafeInv(t) <==> forall x | x in s.zones[zoneId].speakers && x in s.live :: x == heir
  {
    var zone := s.zones[zoneId];
    if x :| x in zone.speakers && x in s.live && x != heir {
      assert Edge(heir, x) in t.fwd && !InsideZone(Edge(heir, x), zone);
    } else {
      assert t.fwd == s.fwd;
    }
  }

  /**
    The leader leaves, its promoted follower starts to forward but is not saved, and the leader comes
    back: a member has two forwarders. The leader leaves again, another follower is promoted, and the
    two forward to each other.
   */
  lemma ForwardingCycle() returns (s2: State, s3: State, s4: State)
    ensures Initial(WITHOUT_ZONES) && Next(WITHOUT_ZONES, Create("1", "den", ["a", "b", "c"]), WITH_TRIO)
    ensures Fails(WITH_TRIO, Leave("a"), s2) && Next(s2, Join("a", true), s3) && Next(s3, Leave("a"), s4)
    ensures Edge("a", "c") in s3.fwd && Edge("b", "c") in s3.fwd && !OneForwarder(s3.fwd)
    ensures Edge("b", "c") in s4.fwd && Edge("c", "b") in s4.fwd && !Acyclic(s4.fwd)
  {
    s2 := State({"b", "c"}, {Edge("b", "c")}, {}, map["1" := TRIO]);
    s3 := State({"a", "b", "c"}, {Edge("b", "c"), Edge("a", "b"), Edge("a", "c")}, {"a"}, map["1" := TRIO]);
    s4 := State({"b", "c"}, {Edge("b", "c"), Edge("c", "b")}, {"c"}, map["1" := TRIO.(leader := "c")]);
    CreateTrio();
    HalfPromote(WITH_TRIO, s2);
    LeaderReturns(s2, s3);
    LeaderLeavesAgain(s3, s4);
    BackAndForth(s4.fwd, "b", "c");
  }

  lemma BackAndForth(fwd: set<Edge>, x: NodeId, y: NodeId)
    requires Edge(x, y) in fwd && Edge(y, x) in fwd
    ensures !Acyclic(fwd)
  {
    assert Path(fwd, [x, y, x]);
  }

  lemma LeaderLeavesAgain(s3: State, s4: State)
    requires s3 == State({"a", "b", "c"}, {Edge("b", "c"), Edge("a", "b"), Edge("a", "c")}, {"a"}, map["1" := TRIO])
    requires s4 == State({"b", "c"}, {Edge("b", "c"), Edge("c", "b")}, {"c"}, map["1" := TRIO.(leader := "c")])
    ensures Next(s3, Leave("a"), s4)
  {
    var u := Left(s3, "a");
    assert u.fwd == {Edge("b", "c")} && u.live == {"b", "c"};
    assert TRIO.speakers[2] == "c" && "c" in Candidates(u, TRIO);
    assert SetOf(TRIO.speakers) == {"a", "b", "c"};
    assert Promoted(u, "1", "c") == s4;
  }

  lemma HalfPromote(s1: State, s2: State)
    requires s1 == State({"a", "b", "c"}, {Edge("a", "b"), Edge("a", "c")}, {"a"}, map["1" := TRIO])
    requires s2 == State({"b", "c"}, {Edge("b", "c")}, {}, map["1" := TRIO])
    ensures Fails(s1, Leave("a"), s2)
  {
    var u := Left(s1, "a");
    assert u.fwd == {} && u.live == {"b", "c"};
    assert TRIO.speakers[1] == "b" && "b" in Candidates(u, TRIO);
    assert SetOf(TRIO.speakers) == {"a", "b", "c"};
    assert Promoted(u, "1", "b").fwd == {Edge("b", "c")};
  }

  lemma LeaderReturns(s2: State, s3: State)
    requires s2 == State({"b", "c"}, {Edge("b", "c")}, {}, map["1" := TRIO])
    requires s3 == State({"a", "b", "c"}, {Edge("b", "c"), Edge("a", "b"), Edge("a", "c")}, {"a"}, map["1" := TRIO])
    ensures Next(s2, Join("a", true), s3)
  {
    var u := Joined(s2, "a", true);
    assert u.live == {"a", "b", "c"} && SetOf(TRIO.speakers) == {"a", "b", "c"};
    assert "1" in u.zones && u.zones["1"] == TRIO && "a" in Members(u.zones["1"]);
    assert Back(u, TRIO, "a") == s3;
  }
}
