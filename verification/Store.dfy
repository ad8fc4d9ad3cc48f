/**
  The Raft-backed store of speaker and zone configurations (cmd/mgmt/raft/store.go).

  The replicated state is a table of entries. `ApplyCommand` and `Replay` give the meaning of a
  command and of a committed log; `DistributedStore` is the code that keeps one replica's table in
  a heap-allocated map, so that a snapshot which shared that map would be visible as aliasing.
 */
module Store {
  import opened GoMaps

  datatype SpeakerConfig = SpeakerConfig(id: string, displayName: string)
  datatype ZoneConfig = ZoneConfig(id: string, displayName: string, leader: string, speakers: seq<string>)
  datatype Entry = Entry(speaker: SpeakerConfig, zone: ZoneConfig)

  const NO_SPEAKER := SpeakerConfig("", "")
  const NO_ZONE := ZoneConfig("", "", "", [])

  /** A decoded log entry; `Other` is any command whose operation is neither "set" nor "delete". */
  datatype Command = Set(key: string, value: Entry) | Delete(key: string) | Other

  type Table = map<string, Entry>

  function ApplyCommand(t: Table, c: Command): Table {
    match c
    case Set(key, value) => t[key := value]
    case Delete(key) => t - {key}
    case Other => t
  }

  function Replay(t: Table, log: seq<Command>): Table {
    if log == [] then t else ApplyCommand(Replay(t, log[..|log| - 1]), log[|log| - 1])
  }

  /** Replaying a log equals replaying a prefix and then the rest on top of the result. */
  lemma {:induction false} ReplaySplit(t: Table, before: seq<Command>, after: seq<Command>)
    ensures Replay(t, before + after) == Replay(Replay(t, before), after)
  {
    if after == [] {
      assert before + after == before;
    } else {
      var init := after[..|after| - 1];
      assert (before + after)[..|before + after| - 1] == before + init;
      ReplaySplit(t, before, init);
    }
  }

  // ---------------------------------------------------------------------------
  // The last command about a key decides
  // ---------------------------------------------------------------------------

  predicate Mentions(c: Command, key: string) {
    (c.Set? || c.Delete?) && c.key == key
  }

  /** The position of the last command about the key, or -1. */
  function LastMention(log: seq<Command>, key: string): (i: int)
    ensures -1 <= i < |log|
    ensures i >= 0 ==> Mentions(log[i], key)
    ensures forall j | i < j < |log| :: !Mentions(log[j], key)
  {
    if log == [] then -1
    else if Mentions(log[|log| - 1], key) then |log| - 1
    else LastMention(log[..|log| - 1], key)
  }

  /** A key is held exactly when the last command about it sets it, and then with that value. */
  lemma {:induction false} LastCommandDecides(log: seq<Command>, key: string)
    ensures var t, i := Replay(map[], log), LastMention(log, key);
            if i >= 0 && log[i].Set? then key in t && t[key] == log[i].value else key !in t
  {
    if log != [] {
      var front := log[..|log| - 1];
      LastCommandDecides(front, key);
      assert LastMention(front, key) >= 0 ==> log[LastMention(front, key)] == front[LastMention(front, key)];
    }
  }

  // ---------------------------------------------------------------------------
  // Which tables the three save and delete calls can produce
  // ---------------------------------------------------------------------------

  function SaveSpeakerCommand(c: SpeakerConfig): Command { Set(c.id, Entry(c, NO_ZONE)) }
  function SaveZoneCommand(c: ZoneConfig): Command { Set(c.id, Entry(NO_SPEAKER, c)) }
  function DeleteZoneCommand(zoneId: string): Command { Delete(zoneId) }

  predicate IssuedByStore(c: Command) {
    || (c.Set? && c == SaveSpeakerCommand(c.value.speaker))
    || (c.Set? && c == SaveZoneCommand(c.value.zone))
    || c.Delete?
  }

  /** The entry is a speaker or a zone, never both, and it sits under its own ID. */
  predicate OwnKey(key: string, e: Entry) {
    || (e.zone == NO_ZONE && e.speaker.id == key)
    || (e.speaker == NO_SPEAKER && e.zone.id == key)
  }

  predicate OwnKeys(t: Table) {
    forall k | k in t :: OwnKey(k, t[k])
  }

  lemma {:induction false} IssuedLogsKeepOwnKeys(log: seq<Command>)
    requires forall i | 0 <= i < |log| :: IssuedByStore(log[i])
    ensures OwnKeys(Replay(map[], log))
  {
    if log != [] {
      IssuedLogsKeepOwnKeys(log[..|log| - 1]);
    }
  }

  // ---------------------------------------------------------------------------
  // Listing and searching the zones
  // ---------------------------------------------------------------------------

  /** The stored zones, keyed as they are stored. */
  function Zones(t: Table): map<string, ZoneConfig> {
    map k | k in t && t[k].zone.id != "" :: t[k].zone
  }

  /** After an issued log, the zones are exactly those whose last command saves them. */
  lemma ZonesAreLastSaved(log: seq<Command>, id: string)
    requires id != "" && forall i | 0 <= i < |log| :: IssuedByStore(log[i])
    ensures var t, i := Replay(map[], log), LastMention(log, id);
            if i >= 0 && log[i].Set? && log[i].value.zone.id == id then id in Zones(t)
                && Zones(t)[id] == log[i].value.zone
            else id !in Zones(t)
  {
    LastCommandDecides(log, id);
    IssuedLogsKeepOwnKeys(log);
  }

  /** The zones met when the table is walked in the order of `keys`. */
  function ZonesInOrder(t: Table, keys: seq<string>): seq<ZoneConfig>
    requires forall k | k in keys :: k in t
  {
    if keys == [] then [] else
      var front := keys[..|keys| - 1];
      var last := keys[|keys| - 1];
      ZonesInOrder(t, front) + if t[last].zone.id != "" then [t[last].zone] else []
  }

  /** The zone search used by every operation: the first listed zone with the wanted ID. */
  function FirstMatch(zones: seq<ZoneConfig>, zoneId: string): ZoneConfig {
    if zones == [] then NO_ZONE
    else if zones[0].id == zoneId then zones[0]
    else FirstMatch(zones[1..], zoneId)
  }

  lemma {:induction false} ListedZones(t: Table, keys: seq<string>)
    requires OwnKeys(t)
    requires forall k | k in keys :: k in t
    ensures forall z :: z in ZonesInOrder(t, keys) <==> z.id in keys && z.id in Zones(t) && z == Zones(t)[z.id]
  {
    if keys != [] {
      var front := keys[..|keys| - 1];
      assert forall k :: k in keys <==> k in front || k == keys[|keys| - 1];
      ListedZones(t, front);
    }
  }

  predicate DistinctIds(zones: seq<ZoneConfig>) {
    forall i, j | 0 <= i < j < |zones| :: zones[i].id != zones[j].id
  }

  /** Every iteration order of the table lists each stored zone exactly once. */
  lemma EachZoneListedOnce(t: Table, keys: seq<string>)
    requires OwnKeys(t)
    requires Enumerates(keys, t.Keys)
    ensures forall z :: z in ZonesInOrder(t, keys) <==> z.id in Zones(t) && z == Zones(t)[z.id]
    ensures DistinctIds(ZonesInOrder(t, keys))
  {
    ListedZones(t, keys);
    ListedZonesDistinct(t, keys);
  }

  lemma {:induction false} ListedZonesDistinct(t: Table, keys: seq<string>)
    requires OwnKeys(t)
    requires forall k | k in keys :: k in t
    requires forall i, j | 0 <= i < j < |keys| :: keys[i] != keys[j]
    ensures DistinctIds(ZonesInOrder(t, keys))
  {
    if keys != [] {
      var front := keys[..|keys| - 1];
      var last := keys[|keys| - 1];
      ListedZonesDistinct(t, front);
      ListedZones(t, front);
      assert last !in front;
      assert forall z :: z in ZonesInOrder(t, front) ==> z.id != last;
    }
  }

  /** The search result does not depend on the iteration order: it is the zone stored under that ID. */
  lemma {:induction false} SearchIgnoresOrder(t: Table, keys: seq<string>, zoneId: string)
    requires OwnKeys(t)
    requires Enumerates(keys, t.Keys)
    ensures FirstMatch(ZonesInOrder(t, keys), zoneId)
         == if zoneId in Zones(t) then Zones(t)[zoneId] else NO_ZONE
  {
    ListedZones(t, keys);
    FirstMatchFinds(ZonesInOrder(t, keys), zoneId);
  }

  lemma {:induction false} FirstMatchFinds(zones: seq<ZoneConfig>, zoneId: string)
    ensures var z := FirstMatch(zones, zoneId);
            if exists y :: y in zones && y.id == zoneId then z in zones && z.id == zoneId else z == NO_ZONE
  {
    if zones != [] {
      FirstMatchFinds(zones[1..], zoneId);
      assert forall y :: y in zones <==> y == zones[0] || y in zones[1..];
    }
  }

  // ---------------------------------------------------------------------------
  // One replica
  // ---------------------------------------------------------------------------

  /** A Go map value: it has identity, so two owners of one map would see each other's writes. */
  class EntryMap {
    var entries: Table

    constructor ()
      ensures entries == map[]
    {
      entries := map[];
    }
  }

  /** What the JSON decoder makes of a persisted snapshot. */
  datatype Decoding = Decoded(table: Table) | Garbled

  class DistributedStore {
    var m: EntryMap
    const leader: bool     // whether this replica is the Raft leader
    const healthy: bool    // whether Raft commits everything its leader proposes

    constructor (leader: bool, healthy: bool)
      ensures fresh(m) && m.entries == map[]
      ensures this.leader == leader && this.healthy == healthy
    {
      this.leader, this.healthy := leader, healthy;
      m := new EntryMap();
    }

    method Apply(c: Command)
      modifies m
      ensures m.entries == ApplyCommand(old(m.entries), c)
      ensures c.Set? ==> m.entries == old(m.entries)[c.key := c.value]
      ensures c.Delete? ==> m.entries == old(m.entries) - {c.key}
      ensures c.Other? ==> m.entries == old(m.entries)
    {
      match c {
        case Set(key, value) => m.entries := m.entries[key := value];
        case Delete(key) => m.entries := m.entries - {key};
        case Other =>
      }
    }

    /** Proposes a command; it is applied here exactly when the proposal reports success. */
    method Propose(c: Command) returns (ok: bool)
      modifies m
      ensures leader && healthy ==> ok
      ensures m.entries == if ok then ApplyCommand(old(m.entries), c) else old(m.entries)
    {
      if !leader {
        return false;
      }
      if healthy {
        ok := true;
      } else {
        ok := *;
      }
      if ok {
        Apply(c);
      }
    }

    method SaveSpeakerConfig(config: SpeakerConfig) returns (ok: bool)
      modifies m
      ensures leader && healthy ==> ok
      ensures m.entries == if ok then ApplyCommand(old(m.entries), SaveSpeakerCommand(config)) else old(m.entries)
      ensures ok ==> config.id in m.entries && m.entries[config.id] == Entry(config, NO_ZONE)
      ensures m.entries - {config.id} == old(m.entries) - {config.id}
      ensures old(OwnKeys(m.entries)) ==> OwnKeys(m.entries)
    {
      ok := Propose(SaveSpeakerCommand(config));
    }

    method SaveZoneConfig(config: ZoneConfig) returns (ok: bool)
      modifies m
      ensures leader && healthy ==> ok
      ensures m.entries == if ok then ApplyCommand(old(m.entries), SaveZoneCommand(config)) else old(m.entries)
      ensures old(OwnKeys(m.entries)) ==> OwnKeys(m.entries)
      ensures ok ==> config.id in m.entries && m.entries[config.id] == Entry(NO_SPEAKER, config)
      ensures m.entries - {config.id} == old(m.entries) - {config.id}
      ensures ok && config.id != "" ==> Zones(m.entries) == Zones(old(m.entries))[config.id := config]
    {
      ok := Propose(SaveZoneCommand(config));
    }

    method DeleteZoneConfig(zoneId: string) returns (ok: bool)
      modifies m
      ensures leader && healthy ==> ok
      ensures m.entries == if ok then ApplyCommand(old(m.entries), DeleteZoneCommand(zoneId)) else old(m.entries)
      ensures old(OwnKeys(m.entries)) ==> OwnKeys(m.entries)
      ensures m.entries == if ok then old(m.entries) - {zoneId} else old(m.entries)
      ensures ok ==> Zones(m.entries) == Zones(old(m.entries)) - {zoneId}
    {
      ok := Propose(DeleteZoneCommand(zoneId));
    }

    /** A missing entry reads as the empty configuration. */
    method GetSpeakerConfig(id: string) returns (config: SpeakerConfig)
      ensures id in m.entries ==> config == m.entries[id].speaker
      ensures id !in m.entries ==> config == SpeakerConfig("", "")
    {
      config := if id in m.entries then m.entries[id].speaker else NO_SPEAKER;
    }

    /** Lists the zones; the order is whatever order the map is walked in. */
    method GetZoneConfigs() returns (configs: seq<ZoneConfig>)
      ensures exists keys ::
                && Enumerates(keys, m.entries.Keys)
                && configs == ZonesInOrder(m.entries, keys)
    {
      configs := [];
      ghost var keys: seq<string> := [];
      var rest := m.entries.Keys;
      while rest != {}
        invariant rest <= m.entries.Keys
        invariant Enumerates(keys, m.entries.Keys - rest)
        invariant configs == ZonesInOrder(m.entries, keys)
        decreases rest
      {
        var k :| k in rest;
        var v := m.entries[k];
        if v.zone.id != "" {
          configs := configs + [v.zone];
        }
        assert (keys + [k])[..|keys + [k]| - 1] == keys;
        keys := keys + [k];
        rest := rest - {k};
      }
      assert m.entries.Keys - rest == m.entries.Keys;
    }

    /** Copies the table into a map of its own, entry by entry. */
    method Snapshot() returns (s: EntryMap)
      ensures fresh(s)
      ensures s.entries == m.entries
    {
      s := new EntryMap();
      var rest := m.entries.Keys;
      while rest != {}
        invariant rest <= m.entries.Keys
        invariant fresh(s) && s != m
        invariant m.entries == old(m.entries) && m == old(m)
        invariant s.entries == map k | k in m.entries.Keys - rest :: m.entries[k]
        decreases rest
      {
        var k :| k in rest;
        s.entries := s.entries[k := m.entries[k]];
        rest := rest - {k};
      }
    }

    /**
      Replaces the table by the decoded snapshot, held in a new map; a snapshot that cannot be
      decoded changes nothing.
     */
    method Restore(snapshot: Decoding) returns (ok: bool)
      modifies this`m
      ensures ok == snapshot.Decoded?
      ensures ok ==> fresh(m) && m.entries == snapshot.table
      ensures !ok ==> m == old(m)
    {
      if snapshot.Garbled? {
        return false;
      }
      var o := new EntryMap();
      o.entries := snapshot.table;
      m := o;
      ok := true;
    }

    method ApplyAll(log: seq<Command>)
      modifies m
      ensures m.entries == Replay(old(m.entries), log)
    {
      for i := 0 to |log|
        invariant m.entries == Replay(old(m.entries), log[..i])
      {
        assert log[..i + 1][..i] == log[..i];
        Apply(log[i]);
      }
      assert log[..|log|] == log;
    }
  }

  /**
    A snapshot taken at any point of a log, kept while the leader goes on applying, still brings a
    new replica to the leader's table once the rest of the log is applied to it.
   */
  method CatchUp(origin: DistributedStore, before: seq<Command>, after: seq<Command>, late: DistributedStore)
    requires origin != late && origin.m != late.m
    modifies origin.m, late`m
    ensures origin.m.entries == Replay(old(origin.m.entries), before + after)
    ensures late.m.entries == origin.m.entries
    ensures late.m != origin.m
  {
    ghost var t := origin.m.entries;
    origin.ApplyAll(before);
    var snap := origin.Snapshot();
    origin.ApplyAll(after);
    var _ := late.Restore(Decoded(snap.entries));
    late.ApplyAll(after);
    ReplaySplit(t, before, after);
  }
}
