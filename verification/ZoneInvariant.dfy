/** How the stored zones and the live forwarding graph are meant to agree, and what that means for the music. */
module ZoneInvariant {
  import opened Store
  import opened Fleet
  import opened ZoneSpec

  /** `x` belongs to no zone but possibly `zoneId`. */
  ghost predicate Free(s: State, x: NodeId, zoneId: string) {
    forall k | k in s.zones && k != zoneId :: x !in Members(s.zones[k])
  }

  // ---------------------------------------------------------------------------
  // The invariants
  // ---------------------------------------------------------------------------

  ghost predicate WellFormed(s: State) {
    && "" !in s.live
    && Disjoint(s.zones)
    && (forall k | k in s.zones && s.zones[k].leader == "" :: s.zones[k].speakers == [])
  }

  /** Some stored zone asks for this session. */
  ghost predicate Wanted(s: State, e: Edge) {
    exists k :: k in s.zones && s.zones[k].leader == e.from && e.dest in s.zones[k].speakers
  }

  /** Exactly the wanted sessions between live nodes exist; sessions to dead members may linger. */
  ghost predicate Matches(s: State) {
    && (forall e | e in s.fwd :: e.from in s.live && e.dest != e.from && Wanted(s, e))
    && (forall k, x | k in s.zones && x in s.zones[k].speakers && x in s.live && s.zones[k].leader in s.live ::
          x == s.zones[k].leader || Edge(s.zones[k].leader, x) in s.fwd)
  }

  ghost predicate ForwardInv(s: State) {
    WellFormed(s) && Matches(s)
  }

  /** Nobody forwards into a zone but its leader, and no follower forwards. Failing calls cannot spoil that. */
  ghost predicate OwnLeaders(s: State) {
    && WellFormed(s)
    && (forall e | e in s.fwd :: e.from in s.live && e.dest != e.from)
    && (forall e, k | e in s.fwd && k in s.zones :: InsideZone(e, s.zones[k]))
  }

  predicate InsideZone(e: Edge, zone: ZoneConfig) {
    e.from in Members(zone) || e.dest in Members(zone) ==> e.from == zone.leader
  }

  /** Live zone leaders broadcast, the other live members do not. */
  ghost predicate BroadcastInv(s: State) {
    forall k, x | k in s.zones && x in Members(s.zones[k]) && x in s.live ::
      x in s.bcast <==> x == s.zones[k].leader
  }

  // ---------------------------------------------------------------------------
  // What the forwarding invariant means for the music
  // ---------------------------------------------------------------------------

  /**
    A live member that does not lead receives from its zone's leader alone if that leader is live and
    from nobody otherwise; the leader receives from nobody.
   */
  ghost predicate ZoneFlows(live: set<NodeId>, fwd: set<Edge>, zone: ZoneConfig) {
    && (forall x | x in zone.speakers && x in live && x != zone.leader ::
          forall n :: Edge(n, x) in fwd <==> n == zone.leader && n in live)
    && (zone.leader != "" ==> forall n :: Edge(n, zone.leader) !in fwd)
  }

  /** The music flows as it should in every zone, and nobody who receives forwards. */
  ghost predicate MusicFlows(s: State) {
    && (forall k | k in s.zones :: ZoneFlows(s.live, s.fwd, s.zones[k]))
    && (forall d, e | d in s.fwd && e in s.fwd :: d.dest != e.from)
  }

  /** A session to a member of zone `k` is held by the leader of zone `k`. */
  lemma WantedInOwnZone(s: State, e: Edge, k: string)
    requires ForwardInv(s) && e in s.fwd && k in s.zones && e.dest in Members(s.zones[k])
    ensures e.from == s.zones[k].leader
  {
  }

  lemma LeadersDiffer(s: State, j: string, k: string)
    requires Disjoint(s.zones) && j in s.zones && k in s.zones
    ensures s.zones[j].leader == s.zones[k].leader && s.zones[j].leader != "" ==> j == k
  {
  }

  lemma OneHop(s: State, d: Edge, e: Edge)
    requires ForwardInv(s) && d in s.fwd && e in s.fwd
    ensures d.dest != e.from
    ensures d.dest == e.dest ==> d.from == e.from
  {
    var k :| k in s.zones && s.zones[k].leader == e.from && e.dest in s.zones[k].speakers;
    if d.dest == e.from || d.dest == e.dest {
      WantedInOwnZone(s, d, k);
    }
  }

  lemma ReceivesFromLeader(s: State, k: string, x: NodeId, n: NodeId)
    requires ForwardInv(s) && k in s.zones && x in s.zones[k].speakers && x in s.live && x != s.zones[k].leader
    ensures Edge(n, x) in s.fwd <==> n == s.zones[k].leader && n in s.live
  {
    if Edge(n, x) in s.fwd {
      WantedInOwnZone(s, Edge(n, x), k);
    }
  }

  lemma InvariantMeansMusicFlows(s: State)
    requires ForwardInv(s)
    ensures MusicFlows(s)
  {
    forall k | k in s.zones ensures ZoneFlows(s.live, s.fwd, s.zones[k]) {
      forall x, n | x in s.zones[k].speakers && x in s.live && x != s.zones[k].leader
        ensures Edge(n, x) in s.fwd <==> n == s.zones[k].leader && n in s.live
      {
        ReceivesFromLeader(s, k, x, n);
      }
      forall n | s.zones[k].leader != "" ensures Edge(n, s.zones[k].leader) !in s.fwd {
        if Edge(n, s.zones[k].leader) in s.fwd {
          WantedInOwnZone(s, Edge(n, s.zones[k].leader), k);
        }
      }
    }
    forall d, e | d in s.fwd && e in s.fwd ensures d.dest != e.from {
      OneHop(s, d, e);
    }
  }

  lemma InvariantMeansForest(s: State)
    requires ForwardInv(s)
    ensures Forest(s.fwd)
  {
    forall p | Path(s.fwd, p) ensures p[0] != p[|p| - 1] {
      assert Edge(p[0], p[1]) in s.fwd;
      if |p| > 2 {
        assert Edge(p[1], p[2]) in s.fwd;
        OneHop(s, Edge(p[0], p[1]), Edge(p[1], p[2]));
      }
    }
    forall d, e | d in s.fwd && e in s.fwd && d.dest == e.dest ensures d.from == e.from {
      OneHop(s, d, e);
    }
  }
}
