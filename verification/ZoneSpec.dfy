/**
  What each operation of the management service does when every call succeeds, as a function of
  the state before it (cmd/mgmt/raft/service.go). The service code itself is in ZoneService.dfy,
  where its loops are proved to compute these functions.
 */
module ZoneSpec {
  import opened Store
  import opened Fleet

  datatype State = State(live: set<NodeId>, fwd: set<Edge>, bcast: set<NodeId>, zones: map<string, ZoneConfig>)

  /** The state after an operation, and whether it reported success. */
  datatype Outcome = Outcome(state: State, ok: bool)

  /**
    How many leading ids the per-speaker loop gets through: it skips `leader` and stops at the first
    other id that is not a live speaker.
   */
  function Reached(ids: seq<NodeId>, live: set<NodeId>, leader: NodeId): (k: nat)
    ensures k <= |ids|
    ensures forall i | 0 <= i < k :: ids[i] in live || ids[i] == leader
    ensures k < |ids| ==> ids[k] !in live && ids[k] != leader
  {
    if ids == [] then 0
    else if ids[0] !in live && ids[0] != leader then 0
    else 1 + Reached(ids[1..], live, leader)
  }

  lemma ReachedIs(ids: seq<NodeId>, live: set<NodeId>, leader: NodeId, k: nat)
    requires k <= |ids|
    requires forall i | 0 <= i < k :: ids[i] in live || ids[i] == leader
    requires k < |ids| ==> ids[k] !in live && ids[k] != leader
    ensures Reached(ids, live, leader) == k
  {
  }

  // ---------------------------------------------------------------------------
  // CreateZone
  // ---------------------------------------------------------------------------

  /** The first of the speakers leads; an empty zone has no leader. */
  function FirstOf(ids: seq<NodeId>): NodeId {
    if ids == [] then "" else ids[0]
  }

  /** After the loop that clears the new members and sets their broadcasting. */
  function Gathered(s: State, ids: set<NodeId>, leader: NodeId): State {
    s.(fwd := Cleared(s.fwd, ids), bcast := (s.bcast - ids) + (ids * {leader}))
  }

  /** The sessions after `cleared` lost theirs, everybody stopped forwarding to `ids`, and `leader` started to. */
  function Regrouped(s: State, cleared: set<NodeId>, leader: NodeId, ids: set<NodeId>): set<Edge> {
    Linked(Cut(Cleared(s.fwd, cleared), s.live, s.live, ids), s.live, leader, ids)
  }

  function CreateZone(s: State, id: string, displayName: string, ids: seq<NodeId>): Outcome {
    var leader := FirstOf(ids);
    // the leader is not skipped here: it has to be live as well
    var k := if ids != [] && leader !in s.live then 0 else Reached(ids, s.live, leader);
    var s1 := Gathered(s, SetOf(ids[..k]), leader);
    if k < |ids| then Outcome(s1, false)
    else
      var s2 := if ids == [] then s1
                else s1.(fwd := Regrouped(s, SetOf(ids), leader, SetOf(ids)));
      Outcome(s2.(zones := s.zones[id := ZoneConfig(id, displayName, leader, ids)]), true)
  }

  /** The first loop stops at a speaker that is not live. */
  lemma GatheringStops(s: State, id: string, displayName: string, ids: seq<NodeId>, i: nat)
    requires i < |ids| && ids[i] !in s.live && forall j | 0 <= j < i :: ids[j] in s.live
    ensures CreateZone(s, id, displayName, ids) == Outcome(Gathered(s, SetOf(ids[..i]), FirstOf(ids)), false)
  {
    if i > 0 {
      ReachedIs(ids, s.live, ids[0], i);
    }
  }

  // ---------------------------------------------------------------------------
  // AddSpeakersToZone
  // ---------------------------------------------------------------------------

  function AddSpeakers(s: State, zoneId: string, ids: seq<NodeId>): Outcome {
    if ids == [] then Outcome(s, true)
    else if zoneId !in s.zones then Outcome(s, false)
    else
      var zone := s.zones[zoneId];
      var k := Reached(ids, s.live, zone.leader);
      var newcomers := SetOf(ids[..k]) - {zone.leader};
      var s1 := s.(fwd := Cleared(s.fwd, newcomers), bcast := s.bcast - newcomers);
      if k < |ids| then Outcome(s1, false)
      else
        var s2 := s1.(fwd := Cut(s1.fwd, s.live, s.live, SetOf(ids)));
        if zone.leader !in s.live then Outcome(s2, false)
        else Outcome(s2.(fwd := Regrouped(s, newcomers, zone.leader, SetOf(ids)),
                         zones := s.zones[zoneId := zone.(speakers := zone.speakers + ids)]), true)
  }

  // ---------------------------------------------------------------------------
  // RemoveSpeakersFromZone
  // ---------------------------------------------------------------------------

  /** How often the inner loop keeps `speaker`: once for every id before its first match. */
  function Copies(speaker: NodeId, ids: seq<NodeId>): (k: nat)
    ensures k <= |ids|
    ensures forall i | 0 <= i < k :: ids[i] != speaker
    ensures k < |ids| ==> ids[k] == speaker
  {
    if ids == [] || ids[0] == speaker then 0 else 1 + Copies(speaker, ids[1..])
  }

  function Repeat(x: NodeId, n: nat): seq<NodeId> {
    if n == 0 then [] else Repeat(x, n - 1) + [x]
  }

  /** The speaker list the nested loop leaves behind. */
  function Kept(speakers: seq<NodeId>, ids: seq<NodeId>): seq<NodeId> {
    if speakers == [] then [] else
      var last := speakers[|speakers| - 1];
      Kept(speakers[..|speakers| - 1], ids) + Repeat(last, Copies(last, ids))
  }

  /** No member is named that the nested loop would keep, other than the leader: only the first id is really removed. */
  predicate RemovesAll(zone: ZoneConfig, ids: seq<NodeId>) {
    forall x | x in zone.speakers && x in ids :: x == ids[0] || x == zone.leader
  }

  function RemoveSpeakers(s: State, zoneId: string, ids: seq<NodeId>): Outcome {
    if ids == [] then Outcome(s, true)
    else if zoneId !in s.zones then Outcome(s, false)
    else
      var zone := s.zones[zoneId];
      var k := Reached(ids, s.live, zone.leader);
      var s1 := s.(bcast := s.bcast + (SetOf(ids[..k]) - {zone.leader}));
      if k < |ids| || zone.leader !in s.live then Outcome(s1, false)
      else Outcome(s1.(fwd := Cut(s.fwd, s.live, {zone.leader}, SetOf(ids)),
                       zones := s.zones[zoneId := zone.(speakers := Kept(zone.speakers, ids))]), true)
  }

  /** Everybody that the removal needs is live. */
  predicate CanRemove(s: State, zone: ZoneConfig, ids: seq<NodeId>) {
    zone.leader in s.live && forall x | x in ids :: x in s.live
  }

  lemma RemoveOkExactlyWhen(s: State, zoneId: string, ids: seq<NodeId>)
    requires zoneId in s.zones && ids != []
    ensures RemoveSpeakers(s, zoneId, ids).ok <==> CanRemove(s, s.zones[zoneId], ids)
  {
    var k := Reached(ids, s.live, s.zones[zoneId].leader);
    assert k < |ids| ==> ids[k] in ids;
  }

  // ---------------------------------------------------------------------------
  // DeleteZone
  // ---------------------------------------------------------------------------

  function DeleteZone(s: State, zoneId: string): Outcome {
    if zoneId !in s.zones then Outcome(s, false)
    else
      var zone := s.zones[zoneId];
      var k := Reached(zone.speakers, s.live, zone.leader);
      var s1 := s.(bcast := s.bcast + (SetOf(zone.speakers[..k]) - {zone.leader}));
      if k < |zone.speakers| || (zone.leader != "" && zone.leader !in s.live) then Outcome(s1, false)
      else
        var s2 := if zone.leader == "" then s1 else s1.(fwd := Cleared(s.fwd, {zone.leader}));
        Outcome(s2.(zones := s.zones - {zoneId}), true)
  }

  // ---------------------------------------------------------------------------
  // Membership events
  // ---------------------------------------------------------------------------

  /** Everybody the zone speaks for, its leader included. */
  function Members(zone: ZoneConfig): set<NodeId> {
    SetOf(zone.speakers) + if zone.leader == "" then {} else {zone.leader}
  }

  ghost predicate Disjoint(zones: map<string, ZoneConfig>) {
    forall j, k | j in zones && k in zones && j != k :: Members(zones[j]) !! Members(zones[k])
  }

  function Left(s: State, n: NodeId): State {
    s.(live := s.live - {n}, fwd := Cleared(s.fwd, {n}), bcast := s.bcast - {n})
  }

  function Joined(s: State, n: NodeId, advertising: bool): State {
    s.(live := s.live + {n}, bcast := if advertising then s.bcast + {n} else s.bcast - {n})
  }

  function Candidates(s: State, zone: ZoneConfig): set<NodeId> {
    set x | x in zone.speakers && x in s.live
  }

  /** `heir` takes over the zone. */
  function Promoted(s: State, zoneId: string, heir: NodeId): State
    requires zoneId in s.zones
  {
    var zone := s.zones[zoneId];
    s.(fwd := Linked(s.fwd, s.live, heir, SetOf(zone.speakers)),
       bcast := s.bcast + {heir},
       zones := s.zones[zoneId := zone.(leader := heir)])
  }

  /** A zone's leader is back: it forwards to the live members again. */
  function LeaderBack(s: State, zone: ZoneConfig, n: NodeId): State {
    s.(fwd := Linked(Cut(s.fwd, s.live, s.live, {n}), s.live, n, SetOf(zone.speakers)),
       bcast := s.bcast + {n})
  }

  /** A zone's member is back: its leader, if live, forwards to it again. */
  function MemberBack(s: State, zone: ZoneConfig, n: NodeId): State {
    var cut := Cut(s.fwd, s.live, s.live, {n});
    s.(fwd := if zone.leader in s.live then Linked(cut, s.live, zone.leader, {n}) else cut,
       bcast := s.bcast - {n})
  }

  // ---------------------------------------------------------------------------
  // What a failing call can leave behind
  // ---------------------------------------------------------------------------

  /** The stored zones are as before, and sessions were only dropped. */
  predicate OnlyDropped(s: State, t: State) {
    t.live == s.live && t.zones == s.zones && t.fwd <= s.fwd
  }

  /** The stored zones are as before, but the sessions are those of a success. */
  predicate OnlyUnsaved(s: State, t: State, fwd: set<Edge>) {
    t.live == s.live && t.zones == s.zones && t.fwd == fwd
  }

  /** Nobody outside `nodes` was switched on or off. */
  ghost predicate SwitchedOnly(s: State, t: State, nodes: set<NodeId>) {
    forall x | x !in nodes :: x in t.bcast <==> x in s.bcast
  }

  /** Some of `nodes` may have been switched on. */
  predicate OnlySwitchedOn(s: State, t: State, nodes: set<NodeId>) {
    s.bcast <= t.bcast <= s.bcast + nodes
  }

  ghost predicate CreateInterrupted(s: State, ids: seq<NodeId>, t: State) {
    && SwitchedOnly(s, t, SetOf(ids))
    && (|| OnlyDropped(s, t)
        || (ids != [] && SetOf(ids) <= s.live && OnlyUnsaved(s, t, Regrouped(s, SetOf(ids), ids[0], SetOf(ids)))))
  }

  ghost predicate AddInterrupted(s: State, zoneId: string, ids: seq<NodeId>, t: State) {
    if zoneId !in s.zones then t == s
    else
      var leader := s.zones[zoneId].leader;
      && t.bcast <= s.bcast && SwitchedOnly(s, t, SetOf(ids) - {leader})
      && (|| OnlyDropped(s, t)
          || (leader in s.live && SetOf(ids) <= s.live
              && OnlyUnsaved(s, t, Regrouped(s, SetOf(ids) - {leader}, leader, SetOf(ids)))))
  }

  predicate RemoveInterrupted(s: State, zoneId: string, ids: seq<NodeId>, t: State) {
    if zoneId !in s.zones then t == s
    else OnlyDropped(s, t) && OnlySwitchedOn(s, t, SetOf(ids) - {s.zones[zoneId].leader})
  }

  predicate DeleteInterrupted(s: State, zoneId: string, t: State) {
    if zoneId !in s.zones then t == s
    else OnlyDropped(s, t) && OnlySwitchedOn(s, t, SetOf(s.zones[zoneId].speakers) - {s.zones[zoneId].leader})
  }

  /** `n` has left, and the promotion in a zone that it led stops before the new leader is saved. */
  ghost predicate LeaveInterrupted(s: State, n: NodeId, t: State) {
    exists k, heir ::
      && k in s.zones && s.zones[k].leader == n && heir in Candidates(s, s.zones[k])
      && OnlySwitchedOn(s, t, {heir})
      && (OnlyUnsaved(s, t, s.fwd) || OnlyUnsaved(s, t, Promoted(s, k, heir).fwd))
  }

  /** `n` has joined, and its return to a zone stops half-way. */
  ghost predicate JoinInterrupted(s: State, n: NodeId, t: State) {
    exists k ::
      && k in s.zones && n in Members(s.zones[k])
      && SwitchedOnly(s, t, {n})
      && (OnlyDropped(s, t) || OnlyUnsaved(s, t, Back(s, s.zones[k], n).fwd))
  }

  /** `n` is back in its zone. */
  function Back(s: State, zone: ZoneConfig, n: NodeId): State {
    if zone.leader == n then LeaderBack(s, zone, n) else MemberBack(s, zone, n)
  }
}
