/**
  The management service at the Raft leader (cmd/mgmt/raft/service.go): each method issues the
  calls of the original one by one, in the same order, and stops at the first one that fails.

  Contracts. Whenever an operation reports success, and always when no call and no commit fails,
  the state is the one given in ZoneSpec; an operation that reports an error has not touched the
  stored zones, and ZoneSpec says what it can have left behind. The forwarding graph stays a forest
  after every single call: in the four zone operations whatever fails and whatever zones overlap, in
  the two membership handlers whatever fails, if before them nobody but its leader forwarded into a
  zone.
 */
module ZoneService {
  import opened GoMaps
  import opened Store
  import opened Fleet
  import Spec = ZoneSpec
  import opened ZoneInvariant

  /** An operation that ends the process is `Fatal`. */
  datatype Reply = Done | Error | Fatal

  class DistributedMgmtService {
    const nodes: Speakers
    const store: DistributedStore

    constructor (nodes: Speakers, store: DistributedStore)
      ensures this.nodes == nodes && this.store == store
    {
      this.nodes, this.store := nodes, store;
    }

    ghost predicate Valid()
      reads nodes, store, store.m
    {
      nodes.Valid() && OwnKeys(store.m.entries)
    }

    ghost function State(): Spec.State
      reads nodes, store, store.m
    {
      Spec.State(nodes.live, nodes.fwd, nodes.bcast, Zones(store.m.entries))
    }

    /** No call to a live speaker fails and every command is committed. */
    predicate Undisturbed() {
      nodes.reliable && store.leader && store.healthy
    }

    /** The zone search at the head of every zone operation. */
    method FindZone(zoneId: string) returns (zone: ZoneConfig)
      requires Valid()
      ensures zone == if zoneId in Zones(store.m.entries) then Zones(store.m.entries)[zoneId] else NO_ZONE
      ensures zone.id != "" <==> zoneId in Zones(store.m.entries)
    {
      var zones := store.GetZoneConfigs();
      ghost var keys :| Enumerates(keys, store.m.entries.Keys) && zones == ZonesInOrder(store.m.entries, keys);
      SearchIgnoresOrder(store.m.entries, keys, zoneId);
      zone := NO_ZONE;
      var i := 0;
      while i < |zones|
        invariant 0 <= i <= |zones|
        invariant zone == NO_ZONE
        invariant FirstMatch(zones, zoneId) == FirstMatch(zones[i..], zoneId)
      {
        if zones[i].id == zoneId {
          zone := zones[i];
          break;
        }
        assert zones[i..][1..] == zones[i + 1..];
        i := i + 1;
      }
    }

    /** The stored zones in some order. */
    method ListZones() returns (zones: seq<ZoneConfig>)
      requires Valid()
      ensures forall i | 0 <= i < |zones| :: zones[i].id in State().zones && State().zones[zones[i].id] == zones[i]
      ensures forall k | k in State().zones :: exists i :: 0 <= i < |zones| && zones[i] == State().zones[k]
    {
      zones := store.GetZoneConfigs();
      ghost var keys :| Enumerates(keys, store.m.entries.Keys) && zones == ZonesInOrder(store.m.entries, keys);
      EachZoneListedOnce(store.m.entries, keys);
      assert forall i | 0 <= i < |zones| :: zones[i] in zones;
      assert forall k | k in State().zones :: State().zones[k] in zones;
    }

    /** No live speaker forwards to any of the live ids afterwards. */
    method RemoveFromAllSpeakers(ids: seq<NodeId>) returns (ok: bool)
      requires nodes.Valid()
      modifies nodes`fwd, nodes`forestSoFar
      ensures nodes.Valid() && nodes.fwd <= old(nodes.fwd)
      ensures old(nodes.SoundGraph()) ==> nodes.SoundGraph()
      ensures nodes.reliable ==> ok
      ensures ok ==> nodes.fwd == Cut(old(nodes.fwd), nodes.live, nodes.live, SetOf(ids))
    {
      var rest := nodes.live;
      while rest != {}
        modifies nodes`fwd, nodes`forestSoFar
        invariant rest <= nodes.live
        invariant nodes.fwd == Cut(old(nodes.fwd), nodes.live, nodes.live - rest, SetOf(ids))
        invariant old(nodes.SoundGraph()) ==> nodes.SoundGraph()
        decreases rest
      {
        var speaker :| speaker in rest;
        ok := nodes.RemoveForwardToNodes(speaker, ids);
        if old(nodes.SoundGraph()) {
          SubForest(old(nodes.fwd), nodes.fwd);
        }
        if !ok {
          return;
        }
        rest := rest - {speaker};
      }
      ok := true;
    }

    /** `id` is the printed random number that names the new zone. A failing commit ends the process. */
    method CreateZone(id: string, displayName: string, speakerIds: seq<NodeId>) returns (r: Reply)
      requires Valid() && id != ""
      modifies nodes`fwd, nodes`bcast, nodes`forestSoFar, store.m
      ensures Valid()
      ensures old(nodes.SoundGraph()) ==> nodes.SoundGraph()
      ensures !r.Done? ==> store.m.entries == old(store.m.entries)
      ensures !r.Done? ==> Spec.CreateInterrupted(old(State()), speakerIds, State())
      ensures r.Fatal? ==>
                var done := Spec.CreateZone(old(State()), id, displayName, speakerIds);
                !Undisturbed() && done.ok && State() == done.state.(zones := old(State()).zones)
      ensures r.Done? || Undisturbed() ==>
                Spec.Outcome(State(), r.Done?) == Spec.CreateZone(old(State()), id, displayName, speakerIds)
    {
      var leader := if |speakerIds| > 0 then speakerIds[0] else "";
      var ok := GatherMembers(speakerIds, leader);
      if !ok {
        return Error;
      }
      assert speakerIds[..|speakerIds|] == speakerIds;
      if |speakerIds| > 0 {
        ok := RemoveFromAllSpeakers(speakerIds);
        if !ok {
          return Error;
        }
        ghost var cut := nodes.fwd;
        var forwardToIds := Without(speakerIds, leader);
        if old(nodes.SoundGraph()) {
          SubForest(old(nodes.fwd), cut);
          LinkKeepsForest(cut, nodes.live, leader, SetOf(forwardToIds));
        }
        ok := nodes.ForwardToNodes(leader, forwardToIds);
        if !ok {
          return Error;
        }
        assert nodes.fwd == Linked(cut, nodes.live, leader, SetOf(speakerIds));
      }
      ok := store.SaveZoneConfig(ZoneConfig(id, displayName, leader, speakerIds));
      r := if ok then Done else Fatal;
    }

    /** The ids other than `skipped`, built by appending. */
    method Without(ids: seq<NodeId>, skipped: NodeId) returns (r: seq<NodeId>)
      ensures SetOf(r) == SetOf(ids) - {skipped}
    {
      r := [];
      for i := 0 to |ids|
        invariant SetOf(r) == SetOf(ids[..i]) - {skipped}
      {
        assert SetOf(ids[..i + 1]) == SetOf(ids[..i]) + {ids[i]};
        if ids[i] != skipped {
          assert SetOf(r + [ids[i]]) == SetOf(r) + {ids[i]};
          r := r + [ids[i]];
        }
      }
      assert ids[..|ids|] == ids;
    }

    /** The first loop of CreateZone: members lose their sessions, and only the leader broadcasts. */
    method GatherMembers(speakerIds: seq<NodeId>, leader: NodeId) returns (ok: bool)
      requires Valid()
      requires leader == Spec.FirstOf(speakerIds)
      modifies nodes`fwd, nodes`bcast, nodes`forestSoFar
      ensures nodes.Valid() && nodes.fwd <= old(nodes.fwd)
      ensures Spec.SwitchedOnly(old(State()), State(), SetOf(speakerIds))
      ensures old(nodes.SoundGraph()) ==> nodes.SoundGraph()
      ensures ok ==> State() == Spec.Gathered(old(State()), SetOf(speakerIds), leader)
      ensures ok ==> forall x | x in speakerIds :: x in nodes.live
      ensures !ok && nodes.reliable ==>
                Spec.Outcome(State(), false) == Spec.CreateZone(old(State()), "", "", speakerIds)
    {
      var i := 0;
      assert Cleared(nodes.fwd, SetOf(speakerIds[..0])) == nodes.fwd;
      while i < |speakerIds|
        modifies nodes`fwd, nodes`bcast, nodes`forestSoFar
        invariant 0 <= i <= |speakerIds|
        invariant forall j | 0 <= j < i :: speakerIds[j] in nodes.live
        invariant State() == Spec.Gathered(old(State()), SetOf(speakerIds[..i]), leader)
        invariant old(nodes.SoundGraph()) ==> nodes.SoundGraph()
      {
        var speakerId := speakerIds[i];
        assert speakerId in SetOf(speakerIds) && SetOf(speakerIds[..i]) <= SetOf(speakerIds);
        if speakerId !in nodes.live {
          Spec.GatheringStops(old(State()), "", "", speakerIds, i);
          if old(nodes.SoundGraph()) {
            SubForest(old(nodes.fwd), nodes.fwd);
          }
          return false;
        }
        assert SetOf(speakerIds[..i + 1]) == SetOf(speakerIds[..i]) + {speakerId};
        ok := GatherMember(speakerId, leader);
        if !ok {
          return;
        }
        i := i + 1;
      }
      assert speakerIds[..|speakerIds|] == speakerIds;
      if old(nodes.SoundGraph()) {
        SubForest(old(nodes.fwd), nodes.fwd);
      }
      ok := true;
    }

    /** One round of that loop. */
    method GatherMember(speakerId: NodeId, leader: NodeId) returns (ok: bool)
      requires nodes.Valid() && speakerId in nodes.live
      modifies nodes`fwd, nodes`bcast, nodes`forestSoFar
      ensures nodes.Valid() && nodes.fwd <= old(nodes.fwd)
      ensures forall x | x != speakerId :: x in nodes.bcast <==> x in old(nodes.bcast)
      ensures old(nodes.SoundGraph()) ==> nodes.SoundGraph()
      ensures nodes.reliable ==> ok
      ensures ok ==> nodes.fwd == Cleared(old(nodes.fwd), {speakerId})
      ensures ok ==> nodes.bcast == if speakerId == leader then old(nodes.bcast) + {speakerId}
              else old(nodes.bcast) - {speakerId}
    {
      ok := nodes.RemoveAllSessions(speakerId);
      if old(nodes.SoundGraph()) {
        SubForest(old(nodes.fwd), nodes.fwd);
      }
      if !ok {
        return;
      }
      if speakerId != leader {
        ok := nodes.ToggleBroadcast(speakerId, false);
      } else {
        ok := nodes.ChangeServiceName(speakerId);
        if !ok {
          return;
        }
        ok := nodes.ToggleBroadcast(speakerId, true);
      }
    }

    method AddSpeakersToZone(zoneId: string, speakerIds: seq<NodeId>) returns (ok: bool)
      requires Valid()
      modifies nodes`fwd, nodes`bcast, nodes`forestSoFar, store.m
      ensures Valid()
      ensures old(nodes.SoundGraph()) ==> nodes.SoundGraph()
      ensures !ok ==> store.m.entries == old(store.m.entries)
      ensures !ok ==> Spec.AddInterrupted(old(State()), zoneId, speakerIds, State())
      ensures ok || Undisturbed() ==> Spec.Outcome(State(), ok) == Spec.AddSpeakers(old(State()), zoneId, speakerIds)
    {
      if |speakerIds| == 0 {
        return true;
      }
      var zone := FindZone(zoneId);
      if zone.id == "" {
        return false;
      }
      ok := SilenceNewcomers(zone, speakerIds);
      if !ok {
        return;
      }
      assert speakerIds[..|speakerIds|] == speakerIds;
      ok := RemoveFromAllSpeakers(speakerIds);
      if !ok {
        return;
      }
      if zone.leader !in nodes.live {
        return false;
      }
      if old(nodes.SoundGraph()) {
        LinkKeepsForest(nodes.fwd, nodes.live, zone.leader, SetOf(speakerIds));
      }
      ok := nodes.ForwardToNodes(zone.leader, speakerIds);
      if !ok {
        return;
      }
      ok := store.SaveZoneConfig(zone.(speakers := zone.speakers + speakerIds));
    }

    /** The first loop of AddSpeakersToZone: everybody named but the leader loses its sessions and its broadcast. */
    method SilenceNewcomers(zone: ZoneConfig, speakerIds: seq<NodeId>) returns (ok: bool)
      requires nodes.Valid()
      modifies nodes`fwd, nodes`bcast, nodes`forestSoFar
      ensures nodes.Valid() && nodes.fwd <= old(nodes.fwd) && nodes.bcast <= old(nodes.bcast)
      ensures old(nodes.bcast) <= nodes.bcast + (SetOf(speakerIds) - {zone.leader})
      ensures old(nodes.SoundGraph()) ==> nodes.SoundGraph()
      ensures nodes.reliable ==> ok == (Spec.Reached(speakerIds, nodes.live, zone.leader) == |speakerIds|)
      ensures ok ==> Spec.Reached(speakerIds, nodes.live, zone.leader) == |speakerIds|
      ensures ok || nodes.reliable ==>
                var newcomers := SetOf(speakerIds[..Spec.Reached(speakerIds, nodes.live, zone.leader)]) - {zone.leader};
                nodes.fwd == Cleared(old(nodes.fwd), newcomers) && nodes.bcast == old(nodes.bcast) - newcomers
    {
      var i := 0;
      assert Cleared(nodes.fwd, {}) == nodes.fwd;
      while i < |speakerIds|
        modifies nodes`fwd, nodes`bcast, nodes`forestSoFar
        invariant 0 <= i <= |speakerIds|
        invariant forall j | 0 <= j < i :: speakerIds[j] in nodes.live || speakerIds[j] == zone.leader
        invariant nodes.fwd == Cleared(old(nodes.fwd), SetOf(speakerIds[..i]) - {zone.leader})
        invariant nodes.bcast == old(nodes.bcast) - (SetOf(speakerIds[..i]) - {zone.leader})
        invariant old(nodes.SoundGraph()) ==> nodes.SoundGraph()
      {
        var speakerId := speakerIds[i];
        assert speakerId in SetOf(speakerIds) && SetOf(speakerIds[..i]) <= SetOf(speakerIds);
        assert SetOf(speakerIds[..i + 1]) == SetOf(speakerIds[..i]) + {speakerId};
        if speakerId != zone.leader {
          if speakerId !in nodes.live {
            Spec.ReachedIs(speakerIds, nodes.live, zone.leader, i);
            return false;
          }
          ghost var before := nodes.bcast;
          ok := SilenceNewcomer(speakerId);
          assert old(nodes.bcast) <= before + (SetOf(speakerIds) - {zone.leader})
              && before <= nodes.bcast + {speakerId};
          if !ok {
            return;
          }
        }
        i := i + 1;
      }
      Spec.ReachedIs(speakerIds, nodes.live, zone.leader, i);
      ok := true;
    }

    /** One round of that loop. */
    method SilenceNewcomer(speakerId: NodeId) returns (ok: bool)
      requires nodes.Valid() && speakerId in nodes.live
      modifies nodes`fwd, nodes`bcast, nodes`forestSoFar
      ensures nodes.Valid() && nodes.fwd <= old(nodes.fwd)
      ensures nodes.bcast <= old(nodes.bcast) <= nodes.bcast + {speakerId}
      ensures old(nodes.SoundGraph()) ==> nodes.SoundGraph()
      ensures nodes.reliable ==> ok
      ensures ok ==> nodes.fwd == Cleared(old(nodes.fwd), {speakerId}) && nodes.bcast == old(nodes.bcast) - {speakerId}
    {
      ok := nodes.RemoveAllSessions(speakerId);
      if old(nodes.SoundGraph()) {
        SubForest(old(nodes.fwd), nodes.fwd);
      }
      if !ok {
        return;
      }
      ok := nodes.ToggleBroadcast(speakerId, false);
    }

    method RemoveSpeakersFromZone(zoneId: string, speakerIds: seq<NodeId>) returns (ok: bool)
      requires Valid()
      modifies nodes`fwd, nodes`bcast, nodes`forestSoFar, store.m
      ensures Valid()
      ensures old(nodes.SoundGraph()) ==> nodes.SoundGraph()
      ensures !ok ==> store.m.entries == old(store.m.entries)
      ensures !ok ==> Spec.RemoveInterrupted(old(State()), zoneId, speakerIds, State())
      ensures ok || Undisturbed() ==> Spec.Outcome(State(), ok) == Spec.RemoveSpeakers(old(State()), zoneId, speakerIds)
    {
      if |speakerIds| == 0 {
        return true;
      }
      var zone := FindZone(zoneId);
      if zone.id == "" {
        return false;
      }
      ok := BroadcastAgain(zone, speakerIds);
      if !ok {
        return;
      }
      assert speakerIds[..|speakerIds|] == speakerIds;
      if zone.leader !in nodes.live {
        return false;
      }
      ok := nodes.RemoveForwardToNodes(zone.leader, speakerIds);
      if old(nodes.SoundGraph()) {
        SubForest(old(nodes.fwd), nodes.fwd);
      }
      if !ok {
        return;
      }
      var newSpeakers := KeepSpeakers(zone.speakers, speakerIds);
      ok := store.SaveZoneConfig(zone.(speakers := newSpeakers));
    }

    /** The loop of RemoveSpeakersFromZone and DeleteZone: everybody listed but the leader broadcasts again. */
    method BroadcastAgain(zone: ZoneConfig, speakerIds: seq<NodeId>) returns (ok: bool)
      modifies nodes`bcast, nodes`forestSoFar
      ensures old(nodes.SoundGraph()) ==> nodes.SoundGraph()
      ensures old(nodes.bcast) <= nodes.bcast <= old(nodes.bcast) + (SetOf(speakerIds) - {zone.leader})
      ensures nodes.reliable ==> ok == (Spec.Reached(speakerIds, nodes.live, zone.leader) == |speakerIds|)
      ensures ok ==> Spec.Reached(speakerIds, nodes.live, zone.leader) == |speakerIds|
      ensures ok || nodes.reliable ==>
                var reached := SetOf(speakerIds[..Spec.Reached(speakerIds, nodes.live, zone.leader)]);
                nodes.bcast == old(nodes.bcast) + (reached - {zone.leader})
    {
      var i := 0;
      while i < |speakerIds|
        modifies nodes`bcast, nodes`forestSoFar
        invariant 0 <= i <= |speakerIds|
        invariant forall j | 0 <= j < i :: speakerIds[j] in nodes.live || speakerIds[j] == zone.leader
        invariant nodes.bcast == old(nodes.bcast) + (SetOf(speakerIds[..i]) - {zone.leader})
        invariant old(nodes.SoundGraph()) ==> nodes.SoundGraph()
      {
        var speakerId := speakerIds[i];
        assert SetOf(speakerIds[..i + 1]) == SetOf(speakerIds[..i]) + {speakerId};
        if speakerId != zone.leader {
          if speakerId !in nodes.live {
            Spec.ReachedIs(speakerIds, nodes.live, zone.leader, i);
            return false;
          }
          ok := nodes.ToggleBroadcast(speakerId, true);
          if !ok {
            return;
          }
        }
        i := i + 1;
      }
      Spec.ReachedIs(speakerIds, nodes.live, zone.leader, i);
      ok := true;
    }

    /** The nested loop that rebuilds the speaker list, appending inside the inner loop. */
    method KeepSpeakers(speakers: seq<NodeId>, speakerIds: seq<NodeId>) returns (newSpeakers: seq<NodeId>)
      ensures newSpeakers == Spec.Kept(speakers, speakerIds)
    {
      newSpeakers := [];
      for i := 0 to |speakers|
        invariant newSpeakers == Spec.Kept(speakers[..i], speakerIds)
      {
        ghost var before := newSpeakers;
        var found := false;
        for j := 0 to |speakerIds|
          invariant found == (Spec.Copies(speakers[i], speakerIds) < j)
          invariant newSpeakers
                    == before + Spec.Repeat(speakers[i], if found then Spec.Copies(speakers[i], speakerIds) else j)
        {
          if speakerIds[j] == speakers[i] {
            found := true;
          }
          if !found {
            newSpeakers := newSpeakers + [speakers[i]];
          }
        }
        assert speakers[..i + 1][..i] == speakers[..i];
      }
      assert speakers[..|speakers|] == speakers;
    }

    method DeleteZone(zoneId: string) returns (ok: bool)
      requires Valid()
      modifies nodes`fwd, nodes`bcast, nodes`forestSoFar, store.m
      ensures Valid()
      ensures old(nodes.SoundGraph()) ==> nodes.SoundGraph()
      ensures !ok ==> store.m.entries == old(store.m.entries) && Spec.DeleteInterrupted(old(State()), zoneId, State())
      ensures ok || Undisturbed() ==> Spec.Outcome(State(), ok) == Spec.DeleteZone(old(State()), zoneId)
    {
      var zone := FindZone(zoneId);
      if zone.id == "" {
        return false;
      }
      ok := BroadcastAgain(zone, zone.speakers);
      if !ok {
        return;
      }
      if zone.leader != "" {
        if zone.leader !in nodes.live {
          return false;
        }
        ok := nodes.RemoveAllSessions(zone.leader);
        if old(nodes.SoundGraph()) {
          SubForest(old(nodes.fwd), nodes.fwd);
        }
        if !ok {
          return;
        }
        ok := nodes.ChangeServiceName(zone.leader);
        if !ok {
          return;
        }
      }
      ok := store.DeleteZoneConfig(zone.id);
    }

    /** `n` has just left; the zone it led, if any, passes to one of its live members. */
    method HandleMusicNodeLeave(n: NodeId) returns (alive: bool)
      requires Valid() && n != ""
      modifies nodes`fwd, nodes`bcast, nodes`forestSoFar, store.m
      ensures Valid()
      ensures old(nodes.SoundGraph()) && OwnLeaders(old(State())) && n !in nodes.live ==> nodes.SoundGraph()
      ensures LeaveHandled(old(State()), n, State())
              || (!Undisturbed() && Spec.LeaveInterrupted(old(State()), n, State()))
      ensures !alive ==> !Undisturbed() && PromotionLost(old(State()), n, State())
    {
      alive := true;
      var needToUpdate, updateZone := FindLedZone(n);
      if !needToUpdate {
        return;
      }
      var candidates := set x | x in nodes.live && x in updateZone.speakers;
      assert candidates == Spec.Candidates(State(), updateZone);
      if candidates != {} {
        var newLeader :| newLeader in candidates;
        if old(nodes.SoundGraph()) && OwnLeaders(State()) && n !in nodes.live {
          HeirKeepsForest(State(), updateZone.id, newLeader);
        }
        var r := Promote(updateZone, newLeader);
        alive := !r.Fatal?;
        if r.Done? {
          assert State() == Spec.Promoted(old(State()), updateZone.id, newLeader);
        }
      }
    }

    /** A zone led by `n`, if there is one. */
    method FindLedZone(n: NodeId) returns (found: bool, zone: ZoneConfig)
      requires Valid()
      ensures found ==> zone.id in State().zones && State().zones[zone.id] == zone && zone.leader == n
      ensures !found ==> forall k | k in State().zones :: State().zones[k].leader != n
    {
      var zones := ListZones();
      zone, found := NO_ZONE, false;
      var i := 0;
      while i < |zones| && !found
        invariant 0 <= i <= |zones|
        invariant found ==> zone.id in State().zones && State().zones[zone.id] == zone && zone.leader == n
        invariant !found ==> forall j | 0 <= j < i :: zones[j].leader != n
      {
        if zones[i].leader == n {
          zone, found := zones[i], true;
        }
        i := i + 1;
      }
    }

    /** The calls and the commit that make `newLeader` the leader of the zone. */
    method Promote(zone: ZoneConfig, newLeader: NodeId) returns (r: Reply)
      requires Valid() && zone.id in State().zones && State().zones[zone.id] == zone
      requires newLeader in nodes.live
      modifies nodes`fwd, nodes`bcast, nodes`forestSoFar, store.m
      ensures Valid()
      ensures old(nodes.SoundGraph()) && Forest(Spec.Promoted(old(State()), zone.id, newLeader).fwd) ==>
                nodes.SoundGraph()
      ensures Undisturbed() ==> r.Done?
      ensures r.Done? ==> State() == Spec.Promoted(old(State()), zone.id, newLeader)
      ensures r.Fatal? ==> State() == Spec.Promoted(old(State()), zone.id, newLeader).(zones := old(State()).zones)
      ensures !r.Done? ==>
                && Spec.OnlySwitchedOn(old(State()), State(), {newLeader})
                && (|| Spec.OnlyUnsaved(old(State()), State(), old(nodes.fwd))
                    || Spec.OnlyUnsaved(old(State()), State(), Spec.Promoted(old(State()), zone.id, newLeader).fwd))
    {
      var ids := Without(zone.speakers, newLeader);
      var ok := nodes.ForwardToNodes(newLeader, ids);
      if !ok {
        return Error;
      }
      assert nodes.fwd == Linked(old(nodes.fwd), nodes.live, newLeader, SetOf(zone.speakers));
      ok := nodes.ChangeServiceName(newLeader);
      if !ok {
        return Error;
      }
      ok := nodes.ToggleBroadcast(newLeader, true);
      if !ok {
        return Error;
      }
      ok := store.SaveZoneConfig(zone.(leader := newLeader));
      r := if ok then Done else Fatal;
    }

    /** `n` has just joined; if it belongs to a zone it is brought back into it. */
    method HandleMusicNodeJoin(n: NodeId) returns (alive: bool)
      requires Valid() && n != "" && n in nodes.live
      modifies nodes`fwd, nodes`bcast, nodes`forestSoFar
      ensures Valid()
      ensures old(nodes.SoundGraph()) && OwnLeaders(old(State())) && HoldsNone(old(nodes.fwd), n) ==> nodes.SoundGraph()
      ensures JoinHandled(old(State()), n, State())
              || (!Undisturbed() && Spec.JoinInterrupted(old(State()), n, State()))
      ensures !alive ==> !Undisturbed() && State().bcast == old(State()).bcast
    {
      alive := true;
      var needToUpdate, wasLeader, updateZone := FindHome(n);
      if !needToUpdate {
        return;
      }
      var ok := RemoveFromAllSpeakers([n]);
      if !ok {
        return false;
      }
      assert SetOf([n]) == {n};
      if old(nodes.SoundGraph()) && OwnLeaders(old(State())) && HoldsNone(old(nodes.fwd), n) {
        BackKeepsForest(old(State()), updateZone.id, n);
      }
      if wasLeader {
        ok := RestoreLeader(updateZone, n);
      } else {
        ok := RestoreMember(updateZone, n);
      }
      HomeIsReached(old(State()), updateZone.id, n, State());
    }

    method RestoreLeader(zone: ZoneConfig, n: NodeId) returns (ok: bool)
      requires nodes.Valid() && n in nodes.live
      modifies nodes`fwd, nodes`bcast, nodes`forestSoFar
      ensures nodes.Valid()
      ensures old(nodes.SoundGraph()) && Forest(Linked(old(nodes.fwd), nodes.live, n, SetOf(zone.speakers))) ==>
                nodes.SoundGraph()
      ensures forall x | x != n :: x in nodes.bcast <==> x in old(nodes.bcast)
      ensures nodes.reliable ==> ok
      ensures nodes.fwd == Linked(old(nodes.fwd), nodes.live, n, SetOf(zone.speakers))
              || (!ok && nodes.fwd == old(nodes.fwd))
      ensures ok ==> nodes.bcast == old(nodes.bcast) + {n}
    {
      var active := set x | x in nodes.live && x in zone.speakers;
      var ids := Listed(active - {n});
      assert Linked(nodes.fwd, nodes.live, n, SetOf(ids)) == Linked(nodes.fwd, nodes.live, n, SetOf(zone.speakers));
      ok := nodes.ForwardToNodes(n, ids);
      if !ok {
        return;
      }
      ok := nodes.ToggleBroadcast(n, true);
      if !ok {
        return;
      }
      ok := nodes.ChangeServiceName(n);
    }

    method RestoreMember(zone: ZoneConfig, n: NodeId) returns (ok: bool)
      requires nodes.Valid() && n in nodes.live
      modifies nodes`fwd, nodes`bcast, nodes`forestSoFar
      ensures nodes.Valid()
      ensures old(nodes.SoundGraph()) && Forest(Relinked(old(nodes.fwd), nodes.live, zone.leader, n)) ==>
              nodes.SoundGraph()
      ensures forall x | x != n :: x in nodes.bcast <==> x in old(nodes.bcast)
      ensures nodes.reliable ==> ok
      ensures nodes.fwd == Relinked(old(nodes.fwd), nodes.live, zone.leader, n) || (!ok && nodes.fwd == old(nodes.fwd))
      ensures ok ==> nodes.bcast == old(nodes.bcast) - {n}
    {
      assert SetOf([n]) == {n};
      if zone.leader in nodes.live {
        ok := nodes.ForwardToNodes(zone.leader, [n]);
        if !ok {
          return;
        }
      }
      ok := nodes.ToggleBroadcast(n, false);
    }

    /** The search of HandleMusicNodeJoin: a zone led by `n` ends it, otherwise the last zone listing `n` counts. */
    method FindHome(n: NodeId) returns (needToUpdate: bool, wasLeader: bool, updateZone: ZoneConfig)
      requires Valid() && n != ""
      ensures needToUpdate ==> updateZone.id in State().zones && State().zones[updateZone.id] == updateZone
      ensures needToUpdate ==> n in Spec.Members(updateZone)
      ensures needToUpdate && wasLeader ==> updateZone.leader == n
      ensures !wasLeader ==> forall k | k in State().zones :: State().zones[k].leader != n
      ensures !needToUpdate ==> forall k | k in State().zones :: n !in Spec.Members(State().zones[k])
    {
      var zones := ListZones();
      needToUpdate, wasLeader, updateZone := false, false, NO_ZONE;
      var i := 0;
      while i < |zones| && !wasLeader
        invariant 0 <= i <= |zones|
        invariant needToUpdate ==> updateZone.id in State().zones && State().zones[updateZone.id] == updateZone
        invariant needToUpdate ==> n in Spec.Members(updateZone)
        invariant wasLeader ==> needToUpdate && updateZone.leader == n
        invariant needToUpdate && !wasLeader ==> updateZone.leader != n
        invariant !wasLeader ==> forall j | 0 <= j < i :: zones[j].leader != n
        invariant !needToUpdate ==> forall j | 0 <= j < i :: n !in Spec.Members(zones[j])
      {
        var zone := zones[i];
        if zone.leader == n {
          updateZone, needToUpdate, wasLeader := zone, true, true;
        } else {
          for k := 0 to |zone.speakers|
            invariant needToUpdate ==> updateZone.id in State().zones && State().zones[updateZone.id] == updateZone
            invariant needToUpdate ==> n in Spec.Members(updateZone) && updateZone.leader != n
            invariant !needToUpdate ==> n !in zone.speakers[..k]
            invariant !needToUpdate ==> forall j | 0 <= j < i :: n !in Spec.Members(zones[j])
          {
            if zone.speakers[k] == n {
              updateZone, needToUpdate := zone, true;
            }
          }
        }
        i := i + 1;
      }
    }

    method Listed(s: set<NodeId>) returns (r: seq<NodeId>)
      ensures SetOf(r) == s
    {
      r := [];
      var rest := s;
      while rest != {}
        invariant rest <= s && SetOf(r) == s - rest
        decreases rest
      {
        var x :| x in rest;
        assert SetOf(r + [x]) == SetOf(r) + {x};
        r := r + [x];
        rest := rest - {x};
      }
    }
  }

  /** The leave handler: one of the zones led by `n`, if there are any, passes to a live member, if it has one. */
  ghost predicate LeaveHandled(s: Spec.State, n: NodeId, t: Spec.State) {
    || ((forall k | k in s.zones :: s.zones[k].leader != n) && t == s)
    || (exists k :: k in s.zones && s.zones[k].leader == n && Spec.Candidates(s, s.zones[k]) == {} && t == s)
    || (exists k, heir ::
          && k in s.zones && s.zones[k].leader == n && heir in Spec.Candidates(s, s.zones[k])
          && t == Spec.Promoted(s, k, heir))
  }

  /** Everything of a promotion but its commit. */
  ghost predicate PromotionLost(s: Spec.State, n: NodeId, t: Spec.State) {
    exists k, heir ::
      && k in s.zones && s.zones[k].leader == n && heir in Spec.Candidates(s, s.zones[k])
      && t == Spec.Promoted(s, k, heir).(zones := s.zones)
  }

  /** The join handler: `n` comes back into a zone that it led, otherwise into one that listed it. */
  ghost predicate JoinHandled(s: Spec.State, n: NodeId, t: Spec.State) {
    || ((forall k | k in s.zones :: n !in Spec.Members(s.zones[k])) && t == s)
    || (exists k ::
          && k in s.zones && n in Spec.Members(s.zones[k]) && t == Spec.Back(s, s.zones[k], n)
          && (s.zones[k].leader == n || forall j | j in s.zones :: s.zones[j].leader != n))
  }

  lemma HomeIsReached(s: Spec.State, zoneId: string, n: NodeId, t: Spec.State)
    requires zoneId in s.zones && n in Spec.Members(s.zones[zoneId])
    requires s.zones[zoneId].leader == n || forall j | j in s.zones :: s.zones[j].leader != n
    ensures t == Spec.Back(s, s.zones[zoneId], n) ==> JoinHandled(s, n, t)
    ensures Spec.SwitchedOnly(s, t, {n})
            && (Spec.OnlyDropped(s, t) || Spec.OnlyUnsaved(s, t, Spec.Back(s, s.zones[zoneId], n).fwd)) ==>
              Spec.JoinInterrupted(s, n, t)
  {
  }

  /** A live leader forwards to a member again. */
  function Relinked(fwd: set<Edge>, live: set<NodeId>, leader: NodeId, n: NodeId): set<Edge> {
    if leader in live then Linked(fwd, live, leader, {n}) else fwd
  }

  predicate HoldsNone(fwd: set<Edge>, n: NodeId) {
    forall e | e in fwd :: e.from != n
  }

  lemma HeirKeepsForest(s: Spec.State, zoneId: string, heir: NodeId)
    requires OwnLeaders(s) && Forest(s.fwd) && zoneId in s.zones && s.zones[zoneId].leader !in s.live
    requires heir in Spec.Candidates(s, s.zones[zoneId])
    ensures Forest(Spec.Promoted(s, zoneId, heir).fwd)
  {
    var zone := s.zones[zoneId];
    forall e | e in s.fwd ensures e.from !in zone.speakers && e.dest !in zone.speakers {
      assert InsideZone(e, zone);
    }
    LinkKeepsForest(s.fwd, s.live, heir, SetOf(zone.speakers));
  }

  lemma BackKeepsForest(s: Spec.State, zoneId: string, n: NodeId)
    requires OwnLeaders(s) && Forest(s.fwd) && zoneId in s.zones && n in Spec.Members(s.zones[zoneId])
            && HoldsNone(s.fwd, n)
    ensures Forest(Spec.Back(s, s.zones[zoneId], n).fwd)
  {
    var zone, cut := s.zones[zoneId], Cut(s.fwd, s.live, s.live, {n});
    SubForest(s.fwd, cut);
    forall e | e in s.fwd ensures InsideZone(e, zone) {
    }
    if zone.leader == n {
      LinkKeepsForest(cut, s.live, n, SetOf(zone.speakers));
    } else if zone.leader in s.live {
      LinkKeepsForest(cut, s.live, zone.leader, {n});
    }
  }
}
