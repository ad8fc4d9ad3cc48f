/**
  The nested loop with which RemoveSpeakersFromZone rebuilds a speaker list
  (cmd/mgmt/raft/service.go:326-338), against its intent: keep the unnamed speakers, in order.
 */
module ZoneRemoval {
  import opened Store
  import opened Fleet
  import opened ZoneSpec

  /** The intent. */
  function Unnamed(speakers: seq<NodeId>, ids: seq<NodeId>): seq<NodeId> {
    if speakers == [] then [] else
      var last := speakers[|speakers| - 1];
      Unnamed(speakers[..|speakers| - 1], ids) + if last in ids then [] else [last]
  }

  lemma {:induction false} RepeatCount(y: NodeId, n: nat, x: NodeId)
    ensures multiset(Repeat(y, n))[x] == if x == y then n else 0
  {
    if n > 0 {
      RepeatCount(y, n - 1, x);
    }
  }

  lemma LastKept(speakers: seq<NodeId>, ids: seq<NodeId>, x: NodeId)
    requires speakers != []
    ensures multiset(Kept(speakers, ids))[x]
         == multiset(Kept(speakers[..|speakers| - 1], ids))[x] + if x == speakers[|speakers| - 1] then Copies(x, ids)
             else 0
  {
    var last := speakers[|speakers| - 1];
    RepeatCount(last, Copies(last, ids), x);
  }

  /** The loop keeps each occurrence of a speaker once for every id before its first match. */
  lemma {:induction false} KeptCount(speakers: seq<NodeId>, ids: seq<NodeId>, x: NodeId)
    ensures multiset(Kept(speakers, ids))[x] == multiset(speakers)[x] * Copies(x, ids)
  {
    if speakers != [] {
      var front := speakers[..|speakers| - 1];
      KeptCount(front, ids, x);
      LastKept(speakers, ids, x);
      LastCount(speakers, x);
      Distribute(multiset(front)[x], Copies(x, ids));
    }
  }

  lemma Distribute(c: nat, k: nat)
    ensures (c + 1) * k == c * k + k
  {
  }

  lemma LastCount(speakers: seq<NodeId>, x: NodeId)
    requires speakers != []
    ensures multiset(speakers)[x] == multiset(speakers[..|speakers| - 1])[x] + if x
            == speakers[|speakers| - 1] then 1 else 0
  {
    assert speakers == speakers[..|speakers| - 1] + [speakers[|speakers| - 1]];
  }

  lemma {:induction false} UnnamedCount(speakers: seq<NodeId>, ids: seq<NodeId>, x: NodeId)
    ensures multiset(Unnamed(speakers, ids))[x] == if x in ids then 0 else multiset(speakers)[x]
  {
    if speakers != [] {
      var front, last := speakers[..|speakers| - 1], speakers[|speakers| - 1];
      UnnamedCount(front, ids, x);
      LastCount(speakers, x);
    }
  }

  lemma KeptMembers(speakers: seq<NodeId>, ids: seq<NodeId>, x: NodeId)
    ensures x in Kept(speakers, ids) <==> x in speakers && Copies(x, ids) > 0
  {
    KeptCount(speakers, ids, x);
    assert x in Kept(speakers, ids) <==> x in multiset(Kept(speakers, ids));
    assert x in speakers <==> x in multiset(speakers);
  }

  /** One id: the loop does what it is meant to do. */
  lemma {:induction false} OneIdIsFilter(speakers: seq<NodeId>, id: NodeId)
    ensures Kept(speakers, [id]) == Unnamed(speakers, [id])
  {
    if speakers != [] {
      OneIdIsFilter(speakers[..|speakers| - 1], id);
      assert Repeat(speakers[|speakers| - 1], 1) == [speakers[|speakers| - 1]];
    }
  }

  lemma {:induction false} OnlyFirstNamedIsFilter(speakers: seq<NodeId>, ids: seq<NodeId>)
    requires ids != [] && forall i | 0 <= i < |speakers| :: speakers[i] == ids[0]
    ensures Kept(speakers, ids) == Unnamed(speakers, ids) == []
  {
    if speakers != [] {
      OnlyFirstNamedIsFilter(speakers[..|speakers| - 1], ids);
    }
  }

  /** A speaker other than the first id is either kept although it is named, or kept more than once. */
  lemma OtherSpeakerMiscounted(speakers: seq<NodeId>, ids: seq<NodeId>, x: NodeId)
    requires |ids| >= 2 && x in speakers && x != ids[0]
    ensures multiset(Kept(speakers, ids))[x] != multiset(Unnamed(speakers, ids))[x]
  {
    KeptCount(speakers, ids, x);
    UnnamedCount(speakers, ids, x);
    var c, k := multiset(speakers)[x], Copies(x, ids);
    assert c > 0;
    assert k >= 1 && (x !in ids ==> k >= 2);
    Times(c, k);
  }

  lemma Times(c: nat, k: nat)
    requires c > 0 && k >= 1
    ensures c * k >= c && (k >= 2 ==> c * k > c)
  {
  }

  /** Several ids: the loop is the filter only when the zone has no speaker but the first id. */
  lemma FilterExactlyWhen(speakers: seq<NodeId>, ids: seq<NodeId>)
    requires ids != []
    ensures Kept(speakers, ids) == Unnamed(speakers, ids) <==>
              |ids| == 1 || forall i | 0 <= i < |speakers| :: speakers[i] == ids[0]
  {
    if |ids| == 1 {
      assert ids == [ids[0]];
      OneIdIsFilter(speakers, ids[0]);
    } else if i :| 0 <= i < |speakers| && speakers[i] != ids[0] {
      OtherSpeakerMiscounted(speakers, ids, speakers[i]);
    } else {
      OnlyFirstNamedIsFilter(speakers, ids);
    }
  }

  /** As a set, the stored list is right exactly when no member is named other than by the first id. */
  lemma MembersExactlyWhen(speakers: seq<NodeId>, ids: seq<NodeId>)
    requires ids != []
    ensures SetOf(Kept(speakers, ids)) == SetOf(speakers) - SetOf(ids) <==>
              forall x | x in speakers && x in ids :: x == ids[0]
  {
    forall x ensures x in Kept(speakers, ids) <==> x in speakers && Copies(x, ids) > 0 {
      KeptMembers(speakers, ids, x);
    }
    forall x | x in speakers ensures Copies(x, ids) > 0 <==> x != ids[0] {
    }
    if x :| x in speakers && x in ids && x != ids[0] {
      assert x in SetOf(Kept(speakers, ids)) && x !in SetOf(speakers) - SetOf(ids);
    }
  }

  /** The followers that stay are the unnamed ones, when no other follower than the first id is named. */
  lemma KeptFollowers(zone: ZoneConfig, ids: seq<NodeId>)
    requires ids != [] && RemovesAll(zone, ids)
    ensures forall x | x != zone.leader :: x in Kept(zone.speakers, ids) <==> x in zone.speakers && x !in ids
  {
    forall x ensures x in Kept(zone.speakers, ids) <==> x in zone.speakers && Copies(x, ids) > 0 {
      KeptMembers(zone.speakers, ids, x);
    }
  }

  /** Nobody is added. */
  lemma KeptSubset(speakers: seq<NodeId>, ids: seq<NodeId>)
    ensures forall x | x in Kept(speakers, ids) :: x in speakers
  {
    forall x | x in Kept(speakers, ids) ensures x in speakers {
      KeptMembers(speakers, ids, x);
    }
  }
}
