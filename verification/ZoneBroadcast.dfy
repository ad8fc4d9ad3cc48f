/** Who advertises: live zone leaders do, their live followers do not, and when a request can spoil that. */
module ZoneBroadcast {
  import opened Store
  import opened Fleet
  import opened ZoneSpec
  import opened ZoneInvariant
  import opened ZoneRuns
  import ZoneRemoval

  // ---------------------------------------------------------------------------
  // Broadcasting
  // ---------------------------------------------------------------------------

  /** No live follower comes before the first dead one in the speaker list. */
  predicate DeadFollowerFirst(zone: ZoneConfig, live: set<NodeId>) {
    forall i | 0 <= i < |zone.speakers| && zone.speakers[i] in live && zone.speakers[i] != zone.leader ::
      exists j :: 0 <= j < i && zone.speakers[j] !in live && zone.speakers[j] != zone.leader
  }

  /** The whole zone is live. */
  predicate AllLive(zone: ZoneConfig, live: set<NodeId>) {
    forall x | x in Members(zone) :: x in live
  }

  /** The followers that removal switches on: those named before the first dead one. */
  function SwitchedOn(zone: ZoneConfig, ids: seq<NodeId>, live: set<NodeId>): set<NodeId> {
    SetOf(ids[..Reached(ids, live, zone.leader)]) - {zone.leader}
  }

  /** `x` is removed by the request or was no follower of the zone, and it follows in no other zone. */
  predicate HarmlessToSwitch(s: State, zoneId: string, ok: bool, x: NodeId)
    requires zoneId in s.zones
  {
    && (ok || x !in s.zones[zoneId].speakers)
    && forall k | k in s.zones && k != zoneId && x in Members(s.zones[k]) :: x == s.zones[k].leader
  }

  /**
    Removal and deletion switch followers back to broadcasting before they find out that somebody
    they need is dead, and then give up; removal also switches on followers of other zones that it
    is given. These are the requests for which that does no harm.
   */
  predicate Careful(s: State, ev: Event) {
    match ev
    case Remove(zoneId, ids) =>
      zoneId in s.zones ==>
        var zone := s.zones[zoneId];
        forall x | x in SwitchedOn(zone, ids, s.live) :: HarmlessToSwitch(s, zoneId, CanRemove(s, zone, ids), x)
    case Delete(zoneId) =>
      zoneId in s.zones ==> AllLive(s.zones[zoneId], s.live) || DeadFollowerFirst(s.zones[zoneId], s.live)
    case _ => true
  }

  lemma CreateKeepsBroadcastInv(s: State, id: string, displayName: string, ids: seq<NodeId>)
    requires ForwardInv(s) && BroadcastInv(s) && Admissible(s, Create(id, displayName, ids))
    ensures BroadcastInv(CreateZone(s, id, displayName, ids).state)
  {
    var t := CreateZone(s, id, displayName, ids).state;
    forall k, x | k in t.zones && x in Members(t.zones[k]) && x in t.live
      ensures x in t.bcast <==> x == t.zones[k].leader
    {
      assert forall y | y in ids :: Free(s, y, id);
      if k in s.zones {
        assert x !in ids;
      } else {
        assert ids[..|ids|] == ids;
      }
    }
  }

  lemma AddKeepsBroadcastInv(s: State, zoneId: string, ids: seq<NodeId>)
    requires ForwardInv(s) && BroadcastInv(s) && Admissible(s, Add(zoneId, ids))
    ensures BroadcastInv(AddSpeakers(s, zoneId, ids).state)
  {
    if ids != [] && zoneId in s.zones {
      var t := AddSpeakers(s, zoneId, ids).state;
      forall k, x | k in t.zones && x in Members(t.zones[k]) && x in t.live
        ensures x in t.bcast <==> x == t.zones[k].leader
      {
        assert forall y | y in ids :: Free(s, y, zoneId);
        assert ids[..|ids|] == ids;
        if k != zoneId {
          assert x in Members(s.zones[k]);
          assert x !in ids;
        } else {
          assert x in Members(s.zones[k]) || x in ids;
        }
      }
    }
  }

  lemma RemoveKeepsBroadcastInvExactlyWhen(s: State, zoneId: string, ids: seq<NodeId>)
    requires ForwardInv(s) && BroadcastInv(s) && Admissible(s, Remove(zoneId, ids))
    ensures BroadcastInv(RemoveSpeakers(s, zoneId, ids).state) <==> Careful(s, Remove(zoneId, ids))
  {
    if zoneId in s.zones && ids != [] {
      var zone, r := s.zones[zoneId], RemoveSpeakers(s, zoneId, ids);
      var on := SwitchedOn(zone, ids, s.live);
      assert r.state.bcast == s.bcast + on;
      RemoveOkExactlyWhen(s, zoneId, ids);
      ZoneRemoval.KeptFollowers(zone, ids);
      SwitchedOnExactlyWhen(s, r.state, zoneId, on);
      assert r.ok ==> forall x | x in on :: x in ids;
      HarmlessExactlyWhen(s, r.state, zoneId, r.ok, on);
    }
  }

  lemma HarmlessExactlyWhen(s: State, t: State, zoneId: string, ok: bool, on: set<NodeId>)
    requires zoneId in s.zones && zoneId in t.zones && t.zones == s.zones[zoneId := t.zones[zoneId]]
    requires s.zones[zoneId].leader !in on
    requires if ok then Members(t.zones[zoneId]) !! on else t.zones[zoneId] == s.zones[zoneId]
    ensures (forall x | x in on :: HarmlessToSwitch(s, zoneId, ok, x)) <==>
              forall k, x | k in t.zones && x in on && x in Members(t.zones[k]) :: x == t.zones[k].leader
  {
    if x :| x in on && !HarmlessToSwitch(s, zoneId, ok, x) {
      if !ok && x in s.zones[zoneId].speakers {
        assert x in Members(t.zones[zoneId]);
      } else {
        var k :| k in s.zones && k != zoneId && x in Members(s.zones[k]) && x != s.zones[k].leader;
        assert t.zones[k] == s.zones[k];
      }
    }
  }

  /** Switching some live nodes on keeps the rule exactly when they follow nowhere afterwards. */
  lemma SwitchedOnExactlyWhen(s: State, t: State, zoneId: string, on: set<NodeId>)
    requires BroadcastInv(s) && t.live == s.live && t.bcast == s.bcast + on && on <= s.live
    requires zoneId in s.zones && zoneId in t.zones && t.zones == s.zones[zoneId := t.zones[zoneId]]
    requires Members(t.zones[zoneId]) <= Members(s.zones[zoneId]) && t.zones[zoneId].leader == s.zones[zoneId].leader
    ensures BroadcastInv(t) <==>
              forall k, x | k in t.zones && x in on && x in Members(t.zones[k]) :: x == t.zones[k].leader
  {
  }

  lemma DeleteOkExactlyWhen(s: State, zoneId: string)
    requires WellFormed(s) && zoneId in s.zones
    ensures DeleteZone(s, zoneId).ok <==> AllLive(s.zones[zoneId], s.live)
  {
  }

  lemma DeletedKeepsBroadcastInv(s: State, zoneId: string)
    requires ForwardInv(s) && BroadcastInv(s) && zoneId in s.zones && DeleteZone(s, zoneId).ok
    ensures BroadcastInv(DeleteZone(s, zoneId).state)
  {
  }

  /** A deletion that gives up after reaching a live follower leaves it broadcasting. */
  lemma HalfDeletedBreaksBroadcastInv(s: State, zoneId: string)
    requires zoneId in s.zones && !DeleteZone(s, zoneId).ok && !DeadFollowerFirst(s.zones[zoneId], s.live)
    ensures !BroadcastInv(DeleteZone(s, zoneId).state)
  {
  }

  lemma DeleteKeepsBroadcastInvExactlyWhen(s: State, zoneId: string)
    requires ForwardInv(s) && BroadcastInv(s)
    ensures BroadcastInv(DeleteZone(s, zoneId).state) <==> Careful(s, Event.Delete(zoneId))
  {
    if zoneId in s.zones {
      DeleteOkExactlyWhen(s, zoneId);
      if DeleteZone(s, zoneId).ok {
        DeletedKeepsBroadcastInv(s, zoneId);
      } else if DeadFollowerFirst(s.zones[zoneId], s.live) {
        NobodySwitched(s.zones[zoneId], s.live);
        assert DeleteZone(s, zoneId).state == s;
      } else {
        HalfDeletedBreaksBroadcastInv(s, zoneId);
      }
    }
  }

  lemma NobodySwitched(zone: ZoneConfig, live: set<NodeId>)
    requires DeadFollowerFirst(zone, live)
    ensures SetOf(zone.speakers[..Reached(zone.speakers, live, zone.leader)]) - {zone.leader} == {}
  {
  }

  lemma PromotedBroadcasts(s: State, zoneId: string, heir: NodeId)
    requires WellFormed(s) && BroadcastInv(s) && zoneId in s.zones && s.zones[zoneId].leader !in s.live
    requires heir in Candidates(s, s.zones[zoneId])
    ensures BroadcastInv(Promoted(s, zoneId, heir))
  {
  }

  lemma LeaveKeepsBroadcastInv(s: State, n: NodeId, t: State)
    requires ForwardInv(s) && BroadcastInv(s) && Next(s, Leave(n), t)
    ensures BroadcastInv(t)
  {
    var u := Left(s, n);
    if t != u {
      var zoneId, heir :| zoneId in u.zones && u.zones[zoneId].leader == n && heir in Candidates(u, u.zones[zoneId])
                          && t == Promoted(u, zoneId, heir);
      PromotedBroadcasts(u, zoneId, heir);
    }
  }

  lemma JoinKeepsBroadcastInv(s: State, n: NodeId, advertising: bool, t: State)
    requires ForwardInv(s) && BroadcastInv(s) && Next(s, Join(n, advertising), t)
    ensures BroadcastInv(t)
  {
    var u := Joined(s, n, advertising);
    assert forall k, x | k in s.zones && x in Members(s.zones[k]) && x in s.live :: x in u.bcast <==>
        x == s.zones[k].leader;
    if zoneId :| zoneId in u.zones && n in Members(u.zones[zoneId]) && t == Back(u, u.zones[zoneId], n) {
      BackBroadcasts(u, zoneId, n);
    } else {
      assert t == u;
    }
  }

  /** `n` is set right, everybody else was. */
  lemma BackBroadcasts(s: State, zoneId: string, n: NodeId)
    requires WellFormed(s) && zoneId in s.zones && n in Members(s.zones[zoneId])
    requires forall k, x | k in s.zones && x in Members(s.zones[k]) && x in s.live && x != n ::
               x in s.bcast <==> x == s.zones[k].leader
    ensures BroadcastInv(Back(s, s.zones[zoneId], n))
  {
  }

  /** One event keeps the broadcast rule exactly when the request was careful. */
  lemma NextKeepsBroadcastInvExactlyWhen(s: State, ev: Event, t: State)
    requires ForwardInv(s) && BroadcastInv(s) && Next(s, ev, t) && Admissible(s, ev)
    ensures BroadcastInv(t) <==> Careful(s, ev)
  {
    match ev
    case Create(id, displayName, ids) => CreateKeepsBroadcastInv(s, id, displayName, ids);
    case Add(zoneId, ids) => AddKeepsBroadcastInv(s, zoneId, ids);
    case Remove(zoneId, ids) => RemoveKeepsBroadcastInvExactlyWhen(s, zoneId, ids);
    case Delete(zoneId) => DeleteKeepsBroadcastInvExactlyWhen(s, zoneId);
    case Leave(n) => LeaveKeepsBroadcastInv(s, n, t);
    case Join(n, advertising) => JoinKeepsBroadcastInv(s, n, advertising, t);
  }

  /** In every run of careful requests, live leaders broadcast and the other live members do not, in every state. */
  lemma {:induction false} LeadersBroadcastInEveryRun(states: seq<State>, events: seq<Event>, i: nat)
    requires IsRun(states, events) && i <= |events|
    requires forall j | 0 <= j < |events| :: Careful(states[j], events[j])
    ensures BroadcastInv(states[i])
  {
    if i > 0 {
      LeadersBroadcastInEveryRun(states, events, i - 1);
      RunsKeepForwardInv(states, events, i - 1);
      NextKeepsBroadcastInvExactlyWhen(states[i - 1], events[i - 1], states[i]);
    }
  }

  // ---------------------------------------------------------------------------
  // The rule can really be lost
  // ---------------------------------------------------------------------------

  const PAIR := ZoneConfig("1", "den", "a", ["a", "b"])

  /** The state two speakers are left in when one zone is created and both go down, follower first; `b` is back. */
  const ORPHAN := State({"b"}, {}, {}, map["1" := PAIR])

  /**
    The broadcast rule can really be lost: a zone of two is created, its follower leaves, its leader
    leaves with nobody to promote, the follower rejoins, and removing it, or deleting the zone,
    fails for want of a leader.
   */
  lemma BroadcastRuleLost(last: Event)
    requires last == Remove("1", ["b"]) || last == Event.Delete("1")
    ensures exists states, events ::
              && IsRun(states, events) && |events| == 5 && events[4] == last
              && !BroadcastInv(states[5]) && !Careful(states[4], last)
  {
    var t := ORPHAN.(bcast := {"b"});
    RemoveOrphan(t);
    DeleteOrphan(t);
    var states, events := OrphanRun(last, t);
  }

  lemma OrphanRun(last: Event, t: State) returns (states: seq<State>, events: seq<Event>)
    requires Next(ORPHAN, last, t) && Admissible(ORPHAN, last)
    ensures IsRun(states, events) && |events| == 5 && events[4] == last && states[4] == ORPHAN && states[5] == t
  {
    states, events := OrphanPrefix();
    RunGoesOn(states, events, last, t);
    states, events := states + [t], events + [last];
  }

  lemma OrphanPrefix() returns (states: seq<State>, events: seq<Event>)
    ensures IsRun(states, events) && |events| == 4 && states[4] == ORPHAN
  {
    var s0 := State({"a", "b"}, {}, {}, map[]);
    var s1 := State({"a", "b"}, {Edge("a", "b")}, {"a"}, map["1" := PAIR]);
    var s2 := State({"a"}, {Edge("a", "b")}, {"a"}, map["1" := PAIR]);
    var s3 := State({}, {}, {}, map["1" := PAIR]);
    CreatePair(s0, s1);
    LoseFollower(s1, s2);
    LoseLeader(s2, s3);
    RegainFollower(s3);
    var e0, e1, e2, e3 := Create("1", "den", ["a", "b"]), Leave("b"), Leave("a"), Join("b", false);
    RunGoesOn([s0], [], e0, s1);
    RunGoesOn([s0] + [s1], [] + [e0], e1, s2);
    RunGoesOn([s0] + [s1] + [s2], [] + [e0] + [e1], e2, s3);
    states, events := [s0] + [s1] + [s2] + [s3], [] + [e0] + [e1] + [e2];
    RunGoesOn(states, events, e3, ORPHAN);
    states, events := states + [ORPHAN], events + [e3];
  }

  lemma RunGoesOn(states: seq<State>, events: seq<Event>, ev: Event, t: State)
    requires IsRun(states, events) && Next(states[|events|], ev, t) && Admissible(states[|events|], ev)
    ensures IsRun(states + [t], events + [ev])
  {
  }

  lemma LoseFollower(s1: State, s2: State)
    requires s1 == State({"a", "b"}, {Edge("a", "b")}, {"a"}, map["1" := PAIR])
    requires s2 == State({"a"}, {Edge("a", "b")}, {"a"}, map["1" := PAIR])
    ensures Next(s1, Leave("b"), s2)
  {
  }

  lemma LoseLeader(s2: State, s3: State)
    requires s2 == State({"a"}, {Edge("a", "b")}, {"a"}, map["1" := PAIR])
    requires s3 == State({}, {}, {}, map["1" := PAIR])
    ensures Next(s2, Leave("a"), s3)
  {
  }

  lemma RegainFollower(s3: State)
    requires s3 == State({}, {}, {}, map["1" := PAIR])
    ensures Next(s3, Join("b", false), ORPHAN)
  {
  }

  lemma CreatePair(s0: State, s1: State)
    requires s0 == State({"a", "b"}, {}, {}, map[])
    requires s1 == State({"a", "b"}, {Edge("a", "b")}, {"a"}, map["1" := PAIR])
    ensures Next(s0, Create("1", "den", ["a", "b"]), s1) && Admissible(s0, Create("1", "den", ["a", "b"]))
  {
  }

  lemma RemoveOrphan(t: State)
    requires t == ORPHAN.(bcast := {"b"})
    ensures Next(ORPHAN, Remove("1", ["b"]), t) && Admissible(ORPHAN, Remove("1", ["b"]))
    ensures !Careful(ORPHAN, Remove("1", ["b"])) && !BroadcastInv(t)
  {
    ReachedIs(["b"], ORPHAN.live, "a", 1);
    assert ["b"][..1] == ["b"] && "b" in SwitchedOn(PAIR, ["b"], ORPHAN.live);
    assert PAIR.speakers[1] == "b" && "b" in Members(PAIR);
    assert !HarmlessToSwitch(ORPHAN, "1", false, "b");
  }

  lemma DeleteOrphan(t: State)
    requires t == ORPHAN.(bcast := {"b"})
    ensures Next(ORPHAN, Event.Delete("1"), t) && Admissible(ORPHAN, Event.Delete("1"))
    ensures !Careful(ORPHAN, Event.Delete("1")) && !BroadcastInv(t)
  {
    ReachedIs(PAIR.speakers, ORPHAN.live, "a", 2);
    assert PAIR.speakers[..2] == ["a", "b"] && SetOf(["a", "b"]) == {"a", "b"};
    assert PAIR.speakers[1] == "b" && "b" in Members(PAIR);
    assert PAIR.speakers[0] == "a" && "a" in Members(PAIR);
  }
}
