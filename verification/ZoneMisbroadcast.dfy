/**
  Who broadcasts, in runs in which calls and commits fail anywhere, promotions included: whoever
  broadcasts wrongly has been touched by an event of a few kinds.
 */
module ZoneMisbroadcast {
  import opened Store
  import opened Fleet
  import opened ZoneSpec
  import opened ZoneInvariant
  import opened ZoneRuns
  import ZoneRemoval
  import ZoneFailures

  /** Every event succeeds or fails in any possible way. */
  ghost predicate IsDisturbedRun(states: seq<State>, events: seq<Event>) {
    && |states| == |events| + 1
    && Initial(states[0])
    && (forall i | 0 <= i < |events| :: NoOverlap(states[i], events[i]))
    && (forall i | 0 <= i < |events| :: Happens(states[i], events[i], states[i + 1]))
  }

  ghost predicate Happens(s: State, ev: Event, t: State) {
    Next(s, ev, t) || Fails(s, ev, t)
  }

  /** A live leader that does not broadcast, or a live follower that does. */
  ghost predicate Wrong(s: State, x: NodeId) {
    exists k :: k in s.zones && x in Members(s.zones[k]) && x in s.live && (x in s.bcast) != (x == s.zones[k].leader)
  }

  /**
    A removal that names it, a deletion of its zone, a promotion in its zone that fails, or its own
    rejoining that fails.
   */
  ghost predicate Touched(s: State, ev: Event, t: State, x: NodeId) {
    match ev
    case Remove(zoneId, ids) => zoneId in s.zones && x in ids
    case Delete(zoneId) => zoneId in s.zones && x in s.zones[zoneId].speakers
    case Leave(n) =>
      !Next(s, ev, t) && exists k :: k in s.zones && s.zones[k].leader == n && x in s.zones[k].speakers
    case Join(n, _) => !Next(s, ev, t) && x == n
    case _ => false
  }

  // ---------------------------------------------------------------------------
  // Creation and addition
  // ---------------------------------------------------------------------------

  /** Zones and broadcasts of the others are as before. */
  lemma OthersAsBefore(s: State, t: State, nodes: set<NodeId>, x: NodeId)
    requires t.live == s.live && SwitchedOnly(s, t, nodes) && x !in nodes
    requires forall k | k in t.zones && x in Members(t.zones[k]) ::
               k in s.zones && x in Members(s.zones[k]) && t.zones[k].leader == s.zones[k].leader
    ensures Wrong(t, x) ==> Wrong(s, x)
  {
  }

  lemma CreateTouchesNobody(s: State, id: string, displayName: string, ids: seq<NodeId>, t: State, x: NodeId)
    requires WellFormed(s) && NoOverlap(s, Create(id, displayName, ids)) && Happens(s, Create(id, displayName, ids), t)
    ensures Wrong(t, x) ==> Wrong(s, x)
  {
    assert ids[..|ids|] == ids;
    assert forall y | y in ids :: Free(s, y, id);
    if x !in ids {
      OthersAsBefore(s, t, SetOf(ids), x);
    } else if t.zones != s.zones {
      NewMemberIsRight(s, t, ZoneConfig(id, displayName, ids[0], ids), x);
    }
  }

  lemma NewMemberIsRight(s: State, t: State, zone: ZoneConfig, x: NodeId)
    requires zone.id !in s.zones && t.zones == s.zones[zone.id := zone] && Free(s, x, zone.id)
    requires x in t.bcast <==> x == zone.leader
    ensures !Wrong(t, x)
  {
  }

  lemma AddTouchesNobody(s: State, zoneId: string, ids: seq<NodeId>, t: State, x: NodeId)
    requires WellFormed(s) && NoOverlap(s, Add(zoneId, ids)) && Happens(s, Add(zoneId, ids), t)
    ensures Wrong(t, x) ==> Wrong(s, x)
  {
    assert ids[..|ids|] == ids;
    assert forall y | y in ids :: Free(s, y, zoneId);
    if zoneId in s.zones && ids != [] {
      var zone := s.zones[zoneId];
      if x !in ids || x == zone.leader {
        OthersAsBefore(s, t, SetOf(ids) - {zone.leader}, x);
      } else {
        NewcomerIsRight(s, t, zoneId, x);
      }
    }
  }

  /** Switched off, or left alone, a node of this zone at most. */
  lemma NewcomerIsRight(s: State, t: State, zoneId: string, x: NodeId)
    requires zoneId in s.zones && Free(s, x, zoneId) && x != s.zones[zoneId].leader && t.live == s.live
    requires zoneId in t.zones && t.zones == s.zones[zoneId := t.zones[zoneId]]
    requires t.zones[zoneId].leader == s.zones[zoneId].leader
    requires x !in t.bcast || (x in s.bcast && t.zones == s.zones)
    ensures Wrong(t, x) ==> Wrong(s, x)
  {
  }

  // ---------------------------------------------------------------------------
  // Removal and deletion
  // ---------------------------------------------------------------------------

  lemma RemoveTouchesNamed(s: State, zoneId: string, ids: seq<NodeId>, t: State, x: NodeId)
    requires Happens(s, Remove(zoneId, ids), t)
    ensures Wrong(t, x) ==> Wrong(s, x) || (zoneId in s.zones && x in ids)
  {
    if zoneId in s.zones && x !in ids {
      ZoneRemoval.KeptSubset(s.zones[zoneId].speakers, ids);
      OthersAsBefore(s, t, SetOf(ids), x);
    }
  }

  lemma DeleteTouchesSpeakers(s: State, zoneId: string, t: State, x: NodeId)
    requires Happens(s, Event.Delete(zoneId), t)
    ensures Wrong(t, x) ==> Wrong(s, x) || (zoneId in s.zones && x in s.zones[zoneId].speakers)
  {
    if zoneId in s.zones && x !in s.zones[zoneId].speakers {
      OthersAsBefore(s, t, SetOf(s.zones[zoneId].speakers), x);
    }
  }

  // ---------------------------------------------------------------------------
  // Membership events
  // ---------------------------------------------------------------------------

  lemma PromotionIsRight(s: State, zoneId: string, heir: NodeId, x: NodeId)
    requires WellFormed(s) && zoneId in s.zones && s.zones[zoneId].leader !in s.live
    requires heir in Candidates(s, s.zones[zoneId])
    ensures Wrong(Promoted(s, zoneId, heir), x) ==> Wrong(s, x)
  {
    var t := Promoted(s, zoneId, heir);
    assert heir in Members(s.zones[zoneId]) && Members(t.zones[zoneId]) <= Members(s.zones[zoneId]);
    if k :| k in t.zones && x in Members(t.zones[k]) && x in t.live && (x in t.bcast) != (x == t.zones[k].leader) {
      assert k in s.zones && x in Members(s.zones[k]);
    }
  }

  lemma LeaveTouchesHeirs(s: State, n: NodeId, t: State, x: NodeId)
    requires WellFormed(s) && Happens(s, Leave(n), t)
    ensures Wrong(t, x) ==> Wrong(s, x) || Touched(s, Leave(n), t, x)
  {
    var u := Left(s, n);
    assert Wrong(u, x) ==> Wrong(s, x);
    if Next(s, Leave(n), t) {
      if t != u {
        var zoneId, heir :| zoneId in u.zones && u.zones[zoneId].leader == n && heir in Candidates(u, u.zones[zoneId])
                            && t == Promoted(u, zoneId, heir);
        PromotionIsRight(u, zoneId, heir, x);
      }
    } else {
      var k, heir :| k in u.zones && u.zones[k].leader == n && heir in Candidates(u, u.zones[k])
                     && OnlySwitchedOn(u, t, {heir})
                     && (OnlyUnsaved(u, t, u.fwd) || OnlyUnsaved(u, t, Promoted(u, k, heir).fwd));
      if x != heir {
        OthersAsBefore(u, t, {heir}, x);
      }
    }
  }

  lemma JoinTouchesItself(s: State, n: NodeId, advertising: bool, t: State, x: NodeId)
    requires WellFormed(s) && Happens(s, Join(n, advertising), t)
    ensures Wrong(t, x) ==> Wrong(s, x) || Touched(s, Join(n, advertising), t, x)
  {
    var u := Joined(s, n, advertising);
    if x != n {
      assert Wrong(u, x) ==> Wrong(s, x);
      OthersAsBefore(u, t, {n}, x);
    } else if Next(s, Join(n, advertising), t) {
      if k :| k in u.zones && n in Members(u.zones[k]) && t == Back(u, u.zones[k], n) {
        BackIsRight(u, k, n);
      } else {
        assert t == u;
      }
    }
  }

  lemma BackIsRight(s: State, zoneId: string, n: NodeId)
    requires WellFormed(s) && zoneId in s.zones && n in Members(s.zones[zoneId])
    ensures !Wrong(Back(s, s.zones[zoneId], n), n)
  {
  }

  // ---------------------------------------------------------------------------
  // Over whole runs
  // ---------------------------------------------------------------------------

  lemma StepTouches(s: State, ev: Event, t: State, x: NodeId)
    requires WellFormed(s) && NoOverlap(s, ev) && Happens(s, ev, t)
    ensures Wrong(t, x) ==> Wrong(s, x) || Touched(s, ev, t, x)
  {
    match ev
    case Create(id, displayName, ids) => CreateTouchesNobody(s, id, displayName, ids, t, x);
    case Add(zoneId, ids) => AddTouchesNobody(s, zoneId, ids, t, x);
    case Remove(zoneId, ids) => RemoveTouchesNamed(s, zoneId, ids, t, x);
    case Delete(zoneId) => DeleteTouchesSpeakers(s, zoneId, t, x);
    case Leave(n) => LeaveTouchesHeirs(s, n, t, x);
    case Join(n, advertising) => JoinTouchesItself(s, n, advertising, t, x);
  }

  lemma ChangedZoneWellFormed(s: State, t: State, id: string)
    requires WellFormed(s) && "" !in t.live && id in t.zones && t.zones == s.zones[id := t.zones[id]]
    requires t.zones[id].leader == "" ==> t.zones[id].speakers == []
    requires forall x | x in Members(t.zones[id]) :: Free(s, x, id)
    ensures WellFormed(t)
  {
  }

  lemma MembersAreFree(s: State, id: string)
    requires WellFormed(s) && id in s.zones
    ensures forall x | x in Members(s.zones[id]) :: Free(s, x, id)
  {
  }

  lemma CreateKeepsWellFormed(s: State, id: string, displayName: string, ids: seq<NodeId>, t: State)
    requires WellFormed(s) && NoOverlap(s, Create(id, displayName, ids))
    requires Happens(s, Create(id, displayName, ids), t) && t.zones != s.zones
    ensures WellFormed(t)
  {
    assert forall x | x in ids :: Free(s, x, id);
    ChangedZoneWellFormed(s, t, id);
  }

  lemma AddKeepsWellFormed(s: State, zoneId: string, ids: seq<NodeId>, t: State)
    requires WellFormed(s) && NoOverlap(s, Add(zoneId, ids)) && Happens(s, Add(zoneId, ids), t) && t.zones != s.zones
    ensures WellFormed(t)
  {
    assert forall x | x in ids :: Free(s, x, zoneId);
    MembersAreFree(s, zoneId);
    ChangedZoneWellFormed(s, t, zoneId);
  }

  lemma RemoveKeepsWellFormed(s: State, zoneId: string, ids: seq<NodeId>, t: State)
    requires WellFormed(s) && Happens(s, Remove(zoneId, ids), t) && t.zones != s.zones
    ensures WellFormed(t)
  {
    ZoneFailures.RemovalShrinks(s, zoneId, ids);
    ZoneFailures.ShrunkWellFormed(s, t);
  }

  lemma StepKeepsWellFormed(s: State, ev: Event, t: State)
    requires WellFormed(s) && NoOverlap(s, ev) && Happens(s, ev, t)
    ensures WellFormed(t)
  {
    if t.zones != s.zones {
      match ev
      case Create(id, displayName, ids) => CreateKeepsWellFormed(s, id, displayName, ids, t);
      case Add(zoneId, ids) => AddKeepsWellFormed(s, zoneId, ids, t);
      case Remove(zoneId, ids) => RemoveKeepsWellFormed(s, zoneId, ids, t);
      case Delete(_) => ZoneFailures.ShrunkWellFormed(s, t);
      case Leave(n) => LeaveKeepsWellFormed(s, n, t);
      case Join(_, _) =>
    }
  }

  lemma LeaveKeepsWellFormed(s: State, n: NodeId, t: State)
    requires WellFormed(s) && Happens(s, Leave(n), t) && t.zones != s.zones
    ensures WellFormed(t)
  {
    var u := Left(s, n);
    var k, heir :| k in u.zones && u.zones[k].leader == n && heir in Candidates(u, u.zones[k])
                   && t == Promoted(u, k, heir);
    MembersAreFree(s, k);
    assert Members(t.zones[k]) <= Members(s.zones[k]);
    ChangedZoneWellFormed(s, t, k);
  }

  lemma {:induction false} DisturbedRunsWellFormed(states: seq<State>, events: seq<Event>, i: nat)
    requires IsDisturbedRun(states, events) && i <= |events|
    ensures WellFormed(states[i])
  {
    if i > 0 {
      DisturbedRunsWellFormed(states, events, i - 1);
      StepKeepsWellFormed(states[i - 1], events[i - 1], states[i]);
    }
  }

  /**
    Whatever fails: in every state of every run, a live leader that does not broadcast and a live
    follower that does have been named in a removal, were in a zone that somebody tried to delete,
    followed in a zone whose promotion failed, or rejoined with a failing call.
   */
  lemma {:induction false} WrongOnesWereTouched(states: seq<State>, events: seq<Event>, i: nat, x: NodeId)
      returns (j: nat)
    requires IsDisturbedRun(states, events) && i <= |events| && Wrong(states[i], x)
    ensures j < i && Touched(states[j], events[j], states[j + 1], x)
  {
    DisturbedRunsWellFormed(states, events, i - 1);
    StepTouches(states[i - 1], events[i - 1], states[i], x);
    if Touched(states[i - 1], events[i - 1], states[i], x) {
      j := i - 1;
    } else {
      j := WrongOnesWereTouched(states, events, i - 1, x);
    }
  }
}
