/**
  What each operation does to every single node, session and stored zone, and what it leaves alone,
  over every state: who broadcasts afterwards, who keeps which session, which zone keeps its name.
 */
module ZoneEffects {
  import opened Store
  import opened Fleet
  import opened ZoneSpec
  import opened ZoneRuns
  import ZoneRemoval
  import ZoneService

  // ---------------------------------------------------------------------------
  // When an operation succeeds
  // ---------------------------------------------------------------------------

  lemma CreateOkExactlyWhen(s: State, id: string, displayName: string, ids: seq<NodeId>)
    ensures CreateZone(s, id, displayName, ids).ok <==> forall x | x in ids :: x in s.live
  {
    var k := Reached(ids, s.live, FirstOf(ids));
    assert k < |ids| ==> ids[k] in ids;
    assert ids != [] ==> ids[0] in ids;
  }

  lemma AddOkExactlyWhen(s: State, zoneId: string, ids: seq<NodeId>)
    ensures AddSpeakers(s, zoneId, ids).ok <==>
              ids == [] || (zoneId in s.zones && s.zones[zoneId].leader in s.live && forall x | x in ids :: x in s.live)
  {
    if ids != [] && zoneId in s.zones {
      var k := Reached(ids, s.live, s.zones[zoneId].leader);
      assert k < |ids| ==> ids[k] in ids;
    }
  }

  lemma RemoveReply(s: State, zoneId: string, ids: seq<NodeId>)
    ensures RemoveSpeakers(s, zoneId, ids).ok <==>
              ids == [] || (zoneId in s.zones && s.zones[zoneId].leader in s.live && forall x | x in ids :: x in s.live)
  {
    if ids != [] && zoneId in s.zones {
      RemoveOkExactlyWhen(s, zoneId, ids);
    }
  }

  lemma DeleteOkExactlyWhen(s: State, zoneId: string)
    ensures DeleteZone(s, zoneId).ok <==>
              && zoneId in s.zones
              && (forall x | x in s.zones[zoneId].speakers && x != s.zones[zoneId].leader :: x in s.live)
              && (s.zones[zoneId].leader == "" || s.zones[zoneId].leader in s.live)
  {
    if zoneId in s.zones {
      var zone := s.zones[zoneId];
      var k := Reached(zone.speakers, s.live, zone.leader);
      assert k < |zone.speakers| ==> zone.speakers[k] in zone.speakers;
    }
  }

  // ---------------------------------------------------------------------------
  // Who broadcasts afterwards
  // ---------------------------------------------------------------------------

  /** `x` is named before the first dead speaker; `leader` is passed over without a look. */
  predicate Passed(ids: seq<NodeId>, live: set<NodeId>, leader: NodeId, x: NodeId) {
    exists i :: 0 <= i < |ids| && ids[i] == x && forall j | 0 <= j <= i :: ids[j] in live || ids[j] == leader
  }

  lemma PassedIsReached(ids: seq<NodeId>, live: set<NodeId>, leader: NodeId, x: NodeId)
    ensures Passed(ids, live, leader, x) <==> x in SetOf(ids[..Reached(ids, live, leader)])
  {
    var k := Reached(ids, live, leader);
    if x in ids[..k] {
      var i :| 0 <= i < k && ids[..k][i] == x;
      assert ids[i] == x;
    }
    if Passed(ids, live, leader, x) {
      var i :| 0 <= i < |ids| && ids[i] == x && forall j | 0 <= j <= i :: ids[j] in live || ids[j] == leader;
      assert i < k && ids[..k][i] == x;
    }
  }

  /** Nobody is switched on or off. */
  predicate SameBroadcast(s: State, t: State, x: NodeId) {
    x in t.bcast <==> x in s.bcast
  }

  /** A new zone's first speaker is switched on, its others off, up to the first dead one; nobody else is touched. */
  lemma CreateBroadcasts(s: State, id: string, displayName: string, ids: seq<NodeId>, x: NodeId)
    ensures var t := CreateZone(s, id, displayName, ids).state;
            if ids != [] && ids[0] in s.live && Passed(ids, s.live, ids[0], x) then x in t.bcast <==> x == ids[0]
            else SameBroadcast(s, t, x)
  {
    PassedIsReached(ids, s.live, FirstOf(ids), x);
  }

  /** Newcomers are switched off, up to the first dead one; nobody else is touched. */
  lemma AddBroadcasts(s: State, zoneId: string, ids: seq<NodeId>, x: NodeId)
    ensures var t := AddSpeakers(s, zoneId, ids).state;
            if zoneId in s.zones && x != s.zones[zoneId].leader && Passed(ids, s.live, s.zones[zoneId].leader, x)
            then x !in t.bcast
            else SameBroadcast(s, t, x)
  {
    if zoneId in s.zones {
      PassedIsReached(ids, s.live, s.zones[zoneId].leader, x);
    }
  }

  /** Whoever is named, other than the leader, is switched on, up to the first dead one; nobody else is touched. */
  lemma RemoveBroadcasts(s: State, zoneId: string, ids: seq<NodeId>, x: NodeId)
    ensures var t := RemoveSpeakers(s, zoneId, ids).state;
            if zoneId in s.zones && x != s.zones[zoneId].leader && Passed(ids, s.live, s.zones[zoneId].leader, x)
            then x in t.bcast
            else SameBroadcast(s, t, x)
  {
    if zoneId in s.zones {
      PassedIsReached(ids, s.live, s.zones[zoneId].leader, x);
    }
  }

  /** Every follower is switched on, up to the first dead one; nobody else is touched. */
  lemma DeleteBroadcasts(s: State, zoneId: string, x: NodeId)
    ensures var t := DeleteZone(s, zoneId).state;
            if zoneId in s.zones && x != s.zones[zoneId].leader
               && Passed(s.zones[zoneId].speakers, s.live, s.zones[zoneId].leader, x)
            then x in t.bcast
            else SameBroadcast(s, t, x)
  {
    if zoneId in s.zones {
      PassedIsReached(s.zones[zoneId].speakers, s.live, s.zones[zoneId].leader, x);
    }
  }

  lemma AllPassed(ids: seq<NodeId>, live: set<NodeId>, leader: NodeId, x: NodeId)
    requires x in ids && forall y | y in ids && y != leader :: y in live
    ensures Passed(ids, live, leader, x)
  {
    var i :| 0 <= i < |ids| && ids[i] == x;
    assert forall j | 0 <= j <= i :: ids[j] in ids;
  }

  /** After a successful deletion every former follower broadcasts again. */
  lemma DeletedFollowersBroadcast(s: State, zoneId: string, x: NodeId)
    requires DeleteZone(s, zoneId).ok && x in s.zones[zoneId].speakers && x != s.zones[zoneId].leader
    ensures x in DeleteZone(s, zoneId).state.bcast
  {
    DeleteOkExactlyWhen(s, zoneId);
    AllPassed(s.zones[zoneId].speakers, s.live, s.zones[zoneId].leader, x);
    DeleteBroadcasts(s, zoneId, x);
  }

  /** After a successful removal everybody named broadcasts again, and the first id is out of the stored zone. */
  lemma RemovedFollowersBroadcast(s: State, zoneId: string, ids: seq<NodeId>, x: NodeId)
    requires zoneId in s.zones && RemoveSpeakers(s, zoneId, ids).ok && x in ids && x != s.zones[zoneId].leader
    ensures x in RemoveSpeakers(s, zoneId, ids).state.bcast
    ensures ids[0] !in RemoveSpeakers(s, zoneId, ids).state.zones[zoneId].speakers
  {
    RemoveOkExactlyWhen(s, zoneId, ids);
    AllPassed(ids, s.live, s.zones[zoneId].leader, x);
    RemoveBroadcasts(s, zoneId, ids, x);
    ZoneRemoval.KeptMembers(s.zones[zoneId].speakers, ids, ids[0]);
  }

  /** In every run, when a zone is deleted with all its members live, its followers broadcast again. */
  lemma DeletionInRunFreesFollowers(states: seq<State>, events: seq<Event>, i: nat, zoneId: string, x: NodeId)
    requires IsExecution(states, events) && i < |events| && events[i] == Event.Delete(zoneId)
    requires zoneId in states[i].zones && x in states[i].zones[zoneId].speakers
    requires forall y | y in Members(states[i].zones[zoneId]) :: y in states[i].live
    ensures zoneId !in states[i + 1].zones
    ensures x in states[i + 1].bcast <==> x != states[i].zones[zoneId].leader || x in states[i].bcast
  {
    DeleteOkExactlyWhen(states[i], zoneId);
    DeleteBroadcasts(states[i], zoneId, x);
    if x != states[i].zones[zoneId].leader {
      DeletedFollowersBroadcast(states[i], zoneId, x);
    }
  }

  // ---------------------------------------------------------------------------
  // Who keeps which session
  // ---------------------------------------------------------------------------

  /** A session is lost when its holder is cleared, or when it leads to a live node that is named. */
  lemma RegroupedSessions(s: State, cleared: set<NodeId>, leader: NodeId, ids: set<NodeId>, e: Edge)
    requires forall d | d in s.fwd :: d.from in s.live && d.dest != d.from
    ensures e in Regrouped(s, cleared, leader, ids) <==>
              || (e.from == leader && e.dest in ids && e.dest in s.live && e.dest != leader)
              || (e in s.fwd && e.from !in cleared && !(e.dest in ids && e.dest in s.live))
  {
  }

  /**
    A successful creation: its leader forwards to the others; sessions of and to its speakers are
    gone; the rest stay.
   */
  lemma CreateSessions(s: State, id: string, displayName: string, ids: seq<NodeId>, e: Edge)
    requires forall d | d in s.fwd :: d.from in s.live && d.dest != d.from
    requires CreateZone(s, id, displayName, ids).ok
    ensures e in CreateZone(s, id, displayName, ids).state.fwd <==>
              || (ids != [] && e.from == ids[0] && e.dest in ids && e.dest != ids[0])
              || (e in s.fwd && e.from !in ids && e.dest !in ids)
  {
    CreateOkExactlyWhen(s, id, displayName, ids);
    assert ids[..|ids|] == ids;
    RegroupedSessions(s, SetOf(ids), FirstOf(ids), SetOf(ids), e);
  }

  /** A successful addition: the leader forwards to the newcomers, and keeps what it had. */
  lemma AddSessions(s: State, zoneId: string, ids: seq<NodeId>, e: Edge)
    requires forall d | d in s.fwd :: d.from in s.live && d.dest != d.from
    requires zoneId in s.zones && ids != [] && AddSpeakers(s, zoneId, ids).ok
    ensures var leader := s.zones[zoneId].leader;
            e in AddSpeakers(s, zoneId, ids).state.fwd <==>
              || (e.from == leader && e.dest in ids && e.dest != leader)
              || (e in s.fwd && (e.from !in ids || e.from == leader) && e.dest !in ids)
  {
    AddOkExactlyWhen(s, zoneId, ids);
    assert ids[..|ids|] == ids;
    var leader := s.zones[zoneId].leader;
    RegroupedSessions(s, SetOf(ids) - {leader}, leader, SetOf(ids), e);
  }

  /** A successful removal: exactly the leader's sessions to the speakers named are gone. */
  lemma RemoveSessions(s: State, zoneId: string, ids: seq<NodeId>, e: Edge)
    requires forall d | d in s.fwd :: d.from in s.live && d.dest != d.from
    requires zoneId in s.zones && RemoveSpeakers(s, zoneId, ids).ok
    ensures e in RemoveSpeakers(s, zoneId, ids).state.fwd <==>
              e in s.fwd && !(e.from == s.zones[zoneId].leader && e.dest in ids)
  {
    if ids != [] {
      RemoveOkExactlyWhen(s, zoneId, ids);
    }
  }

  /** A successful deletion: exactly the leader's sessions are gone. */
  lemma DeleteSessions(s: State, zoneId: string, e: Edge)
    requires DeleteZone(s, zoneId).ok
    ensures e in DeleteZone(s, zoneId).state.fwd <==>
              e in s.fwd && (s.zones[zoneId].leader == "" || e.from != s.zones[zoneId].leader)
  {
  }

  /** A creation that fails: the speakers named before the first dead one have lost their sessions, nobody else any. */
  lemma FailedCreateSessions(s: State, id: string, displayName: string, ids: seq<NodeId>, e: Edge)
    requires !CreateZone(s, id, displayName, ids).ok
    ensures e in CreateZone(s, id, displayName, ids).state.fwd <==>
              e in s.fwd && !(ids[0] in s.live && Passed(ids, s.live, ids[0], e.from))
  {
    PassedIsReached(ids, s.live, FirstOf(ids), e.from);
  }

  /**
    An addition that fails: so have the newcomers; and if only the leader is dead, nobody forwards
    to them any more.
   */
  lemma FailedAddSessions(s: State, zoneId: string, ids: seq<NodeId>, e: Edge)
    requires forall d | d in s.fwd :: d.from in s.live && d.dest != d.from
    requires zoneId in s.zones && !AddSpeakers(s, zoneId, ids).ok
    ensures var leader := s.zones[zoneId].leader;
            e in AddSpeakers(s, zoneId, ids).state.fwd <==>
              && e in s.fwd && (e.from == leader || !Passed(ids, s.live, leader, e.from))
              && ((forall x | x in ids :: x in s.live || x == leader) ==> !(e.dest in ids && e.dest in s.live))
  {
    var leader := s.zones[zoneId].leader;
    var k := Reached(ids, s.live, leader);
    PassedIsReached(ids, s.live, leader, e.from);
    assert k < |ids| ==> ids[k] in ids;
    assert ids[..|ids|] == ids;
  }

  /** Removals and deletions that fail change no session. */
  lemma FailedRemovalSessions(s: State, zoneId: string, ids: seq<NodeId>)
    ensures !RemoveSpeakers(s, zoneId, ids).ok ==> RemoveSpeakers(s, zoneId, ids).state.fwd == s.fwd
    ensures !DeleteZone(s, zoneId).ok ==> DeleteZone(s, zoneId).state.fwd == s.fwd
  {
  }

  /** A promotion: the heir is switched on and forwards to the other live speakers; nobody else is touched. */
  lemma PromotionEffects(s: State, k: string, heir: NodeId, x: NodeId, e: Edge)
    requires k in s.zones && heir in Candidates(s, s.zones[k])
    ensures var t := Promoted(s, k, heir);
            && heir in t.bcast && (x != heir ==> SameBroadcast(s, t, x))
            && (e in t.fwd <==>
                  e in s.fwd
                  || (e.from == heir && e.dest in s.zones[k].speakers && e.dest in s.live && e.dest != heir))
  {
  }

  /** A return: the node leads and forwards again, or is silent and served again by its live leader alone. */
  lemma ReturnEffects(s: State, k: string, n: NodeId, x: NodeId, e: Edge)
    requires forall d | d in s.fwd :: d.from in s.live && d.dest != d.from
    requires k in s.zones && n in Members(s.zones[k]) && n in s.live
    ensures var t, zone := Back(s, s.zones[k], n), s.zones[k];
            && (n in t.bcast <==> n == zone.leader) && (x != n ==> SameBroadcast(s, t, x))
            && (e in t.fwd <==>
                  || (e in s.fwd && e.dest != n)
                  || (n == zone.leader && e.from == n && e.dest in zone.speakers && e.dest in s.live && e.dest != n)
                  || (n != zone.leader && zone.leader in s.live && e == Edge(zone.leader, n)))
  {
  }

  // ---------------------------------------------------------------------------
  // Which zones are stored, and under which names
  // ---------------------------------------------------------------------------

  ghost predicate Happens(s: State, ev: Event, t: State) {
    Next(s, ev, t) || Fails(s, ev, t)
  }

  /**
    The name stays; the leader changes only when it leaves; the speakers change only when the event
    adds or removes some.
   */
  ghost predicate SameZone(s: State, ev: Event, t: State, was: ZoneConfig, now: ZoneConfig, k: string) {
    && now.id == was.id && now.displayName == was.displayName
    && (now.leader == was.leader || (ev == Leave(was.leader) && now.leader in was.speakers && now.leader in t.live))
    && (|| now.speakers == was.speakers
        || (ev.Add? && ev.zoneId == k && now.speakers == was.speakers + ev.ids)
        || (ev.Remove? && ev.zoneId == k && now.speakers == Kept(was.speakers, ev.ids)))
  }

  /**
    Every event, with or without failing calls, leaves every stored zone as it was, as far as it
    does not concern it.
   */
  lemma ZonesFrame(s: State, ev: Event, t: State, k: string)
    requires Happens(s, ev, t)
    ensures k in s.zones && k !in t.zones ==> ev == Event.Delete(k)
    ensures k in t.zones ==>
              || (k in s.zones && SameZone(s, ev, t, s.zones[k], t.zones[k], k))
              || (ev.Create? && ev.id == k && t.zones[k] == ZoneConfig(k, ev.displayName, FirstOf(ev.ids), ev.ids))
  {
    match ev
    case Leave(n) => LeaveFrame(s, n, t, k);
    case _ =>
  }

  lemma LeaveFrame(s: State, n: NodeId, t: State, k: string)
    requires Happens(s, Leave(n), t)
    ensures k in s.zones <==> k in t.zones
    ensures k in s.zones ==> SameZone(s, Leave(n), t, s.zones[k], t.zones[k], k)
  {
    var u := Left(s, n);
    if t.zones != u.zones {
      var j, heir :| j in u.zones && u.zones[j].leader == n && heir in Candidates(u, u.zones[j])
                     && t == Promoted(u, j, heir);
    }
  }

  ghost predicate IsDisturbed(states: seq<State>, events: seq<Event>) {
    && |states| == |events| + 1 && Initial(states[0])
    && forall i | 0 <= i < |events| :: Happens(states[i], events[i], states[i + 1])
  }

  /** In every run, whatever fails, a stored zone bears its own ID and the name that it was created with. */
  lemma {:induction false} StoredZoneWasCreated(states: seq<State>, events: seq<Event>, i: nat, k: string)
      returns (j: nat)
    requires IsDisturbed(states, events) && i <= |events| && k in states[i].zones
    ensures j < i && events[j].Create? && events[j].id == k
    ensures states[i].zones[k].id == k && states[i].zones[k].displayName == events[j].displayName
    ensures forall l | j < l <= i :: k in states[l].zones
  {
    var ev := events[i - 1];
    ZonesFrame(states[i - 1], ev, states[i], k);
    if k in states[i - 1].zones
        && SameZone(states[i - 1], ev, states[i], states[i - 1].zones[k], states[i].zones[k], k) {
      j := StoredZoneWasCreated(states, events, i - 1, k);
    } else {
      j := i - 1;
    }
  }

  // ---------------------------------------------------------------------------
  // Promotions really happen
  // ---------------------------------------------------------------------------

  /** When a leader leaves and the zone has another live speaker, one of them leads and broadcasts afterwards. */
  lemma LeavePromotes(s: State, n: NodeId, t: State, k: string, x: NodeId)
    requires n != "" && Disjoint(s.zones) && Next(s, Leave(n), t)
    requires k in s.zones && s.zones[k].leader == n && x in s.zones[k].speakers && x in s.live && x != n
    ensures n !in t.live && n !in t.bcast && k in t.zones
    ensures var leader := t.zones[k].leader;
            && leader in s.zones[k].speakers && leader in t.live && leader in t.bcast
            && (x != leader ==> Edge(leader, x) in t.fwd)
  {
    var u := Left(s, n);
    assert x in Candidates(u, u.zones[k]);
    forall j | j in s.zones && s.zones[j].leader == n ensures j == k {
      assert n in Members(s.zones[j]) && n in Members(s.zones[k]);
    }
    var heir :| heir in Candidates(u, u.zones[k]) && t == Promoted(u, k, heir);
    PromotionEffects(u, k, heir, n, Edge(heir, x));
  }
}
