# Bobcaygeon, verified

Bobcaygeon plays AirPlay music on many speakers. A management service keeps speakers and zones in a
Raft-replicated store and tells the speakers whom to forward the music to; the speakers talk RTSP,
SDP and DAAP to each other and pass decrypted audio packets and volumes along. This project models
three parts of that program in Dafny and proves what they promise.

- **Zones.** `Store`, `Replication`, `Fleet`, `ZoneService` are the code: the replicated store, the
  speaker API, and the service that issues calls to the speakers one by one, any of which may fail.
  `ZoneSpec` gives each operation's effect as a function on states, `ZoneEffects` what that means for
  every single node, session and stored zone, `ZoneInvariant` says how zones and
  sessions are meant to agree, `ZoneRuns` and `ZoneBroadcast` prove that they do over every run of
  operations, node failures and rejoins, `ZoneFailures` and `ZoneMisbroadcast` what is left of it when
  calls fail anywhere, `ZoneOverlap` and `ZoneRemoval` exactly which requests spoil it.
- **The wire.** `Rtsp` and `RtspRoundTrip`, `Sdp` and `SdpRoundTrip`, `Daap`, `Transport` are the
  readers and printers of the four text and byte formats with their round trips. `Airplay` is the
  server's session table and its handlers, `PlayerControl` what SET_PARAMETER asks of the player,
  `Server` one request and response as text, `Handshake` the client's state machine, and `Forwarding`
  a track or a volume on its way to the next speaker.
- **Audio.** `Receiver` is the receive goroutine with its channel in every interleaving,
  `CloseHandshake` the closing of a session with any number of receive loops, `Decrypter` the in-place
  AES-CBC loop, `Volume` the volume conversion over many hops.

`GoText` holds the Go string functions that the parsers use. `dafny verify dfyconfig.toml` checks
everything.

## What the proofs found

The following intentions do not hold of the code as it is; each has its exact condition.

- `RemoveSpeakersFromZone` appends inside its inner loop. The result is the intended filter if and
  only if one id is given or the zone has no speaker but the first id (`ZoneRemoval.FilterExactlyWhen`),
  and the zone's music stays right if and only if somebody it needs is dead, so that it fails, or no
  other follower than the first id is named (`ZoneOverlap.RemoveMusicExactlyWhen`). A creation and one
  removal of two followers cut a live follower off (`ZoneOverlap.RemovalCutsFollowerOff`).
- Nothing stops a request from naming speakers of other zones. A creation or an addition, successful
  or not, leaves the music as it should be if and only if it is harmless in a sense that can be read
  off the stored zones (`ZoneOverlap.CreateMusicExactlyWhen`, `ZoneOverlap.AddMusicExactlyWhen`): a
  successful addition may name no speaker of another zone, a creation may share a few. Two creations
  on an empty store cut a live follower off (`ZoneOverlap.OverlapCutsFollowerOff`).
- `RemoveSpeakersFromZone` and `DeleteZone` switch followers back to broadcasting before they find out
  that a speaker they need is dead, and then give up. The rule that only leaders broadcast survives
  if and only if the request is `Careful` (`ZoneBroadcast.NextKeepsBroadcastInvExactlyWhen`), and it is
  really lost in runs of five events, by a removal and by a deletion (`ZoneBroadcast.BroadcastRuleLost`).
- A promotion that fails between the new leader's first session and the commit leaves a follower
  forwarding. That is harmless if and only if the follower has nobody to serve
  (`ZoneFailures.InterruptedPromotionExactlyWhen`); when the old leader comes back, a member is
  forwarded to by two nodes, and when it leaves again two members can end up forwarding to each other
  (`ZoneFailures.ForwardingCycle`).
- Decoding panics, and ends the process, on every packet of fewer than 12 bytes in an encrypted session,
  and on every packet if the IV does not have 16 bytes (`Receiver.FatalExactlyWhen`).
- Closing a session comes to an end in every continuation or in none: it is served if one receive loop
  was started, has not gone and holds no such packet, waits for ever if none was started or the one
  has gone, and ends the process otherwise (`CloseHandshake.ClosingIsDecided`). All of that is reachable
  (`CloseHandshake.ClosedAfterRecords`, `CloseHandshake.DesertedHandler`, `Receiver.ShortPacketKills`).
  So no ANNOUNCE is answered while some session has been set up but not recorded
  (`Airplay.StalledUntilRecord`), which two requests bring about (`Airplay.StalledRun`), and none is ever
  answered again after a second RECORD or such a packet (`Airplay.HopelessForEver`).
- Unmuting a speaker sets it to full volume, whatever its volume was before it was muted
  (`Forwarding.ForwardMute`).
- RTSP header values and SDP attributes end at the first colon, and REDIRECT is missing from the
  method table; the messages that survive printing and parsing are exactly the well-formed ones
  (`RtspRoundTrip.RequestSurvivesExactlyWhen`, `SdpRoundTrip.SurvivesExactlyWhen`). The RTSP statement
  takes a Content-Length entry that the computed length replaces to be without a line break. Messages
  that are lost: `RtspRoundTrip.ColonIsLost`, `SdpRoundTrip.ColonIsLost`.

## Assumptions

- A forwarding session asked for is established before the next management step, a node that leaves
  loses its own sessions, all nodes see the same members during one operation, and each membership
  event is handled by the one Raft leader. Player state starts as in the commented constructor at
  player/forwarding/forwardingPlayer.go:94.
- A failing call may or may not have taken effect; a failing commit has not. A random zone ID is unused.
- Zone operations and membership handlers are carried out one after the other. The original serves
  requests concurrently and starts both handlers in goroutines (cmd/mgmt/bcg-mgmt.go:66, 80).
- Requests to one AirPlay server are handled one after the other, and one handler closes a given session
  at a time. In the session table, a receive loop that was started runs until its socket is closed or
  a packet makes decoding panic, and that panic is met by the next handler that closes the session;
  `CloseHandshake` and `Receiver` do without that.
- Printing a volume with "%f" gives digits, a point and possibly a sign; how a float is parsed is a
  parameter.
- A client's address is non-empty, without white space and at most 1000 characters long; status phrases
  are single words, as all in rtsp/status_string.go are.
- Strings are sequences of bytes written as characters, white space and case are those of ASCII.

## Model

| member | source | states |
|---|---|---|
| Store.ReplaySplit | cmd/mgmt/raft/store.go:207-261 | applying a log equals applying a prefix and then the rest, for every split point |
| Store.LastCommandDecides | cmd/mgmt/raft/store.go:207-236 | after every log, a key is held exactly when the last command about it sets it, and then with that value |
| Store.ZonesAreLastSaved | cmd/mgmt/raft/store.go:86-135 | after every log made by the three calls, the zones are exactly those whose last command saves them, as saved |
| Store.IssuedLogsKeepOwnKeys | cmd/mgmt/raft/store.go:66-135 | after every log made by the three save and delete calls each entry is a speaker or a zone, not both, under its own ID |
| Store.EachZoneListedOnce | cmd/mgmt/raft/store.go:106-116 | every iteration order of the map lists each stored zone exactly once and nothing else |
| Store.SearchIgnoresOrder | cmd/mgmt/raft/service.go:213-223 | the first-match search finds the zone stored under the ID, whatever the iteration order |
| Store.DistributedStore.Apply | cmd/mgmt/raft/store.go:207-236 | set replaces one entry, delete removes one, anything else changes nothing |
| Store.DistributedStore.SaveSpeakerConfig | cmd/mgmt/raft/store.go:66-84 | success stores exactly that configuration under its ID, as no zone, failure changes nothing; every other entry stays; entries stay under their own IDs |
| Store.DistributedStore.SaveZoneConfig | cmd/mgmt/raft/store.go:86-103 | success stores exactly that zone under its ID, failure changes nothing; every other entry stays; entries stay under their own IDs |
| Store.DistributedStore.DeleteZoneConfig | cmd/mgmt/raft/store.go:119-135 | success removes exactly that zone, failure changes nothing |
| Store.DistributedStore.GetSpeakerConfig | cmd/mgmt/raft/store.go:59-63 | the stored configuration, or the empty one |
| Store.DistributedStore.GetZoneConfigs | cmd/mgmt/raft/store.go:106-116 | the listing is the walk of the table in some iteration order |
| Store.DistributedStore.Snapshot | cmd/mgmt/raft/store.go:238-248 | the snapshot is a map of its own with the same entries |
| Store.DistributedStore.Restore | cmd/mgmt/raft/store.go:251-261 | the table becomes the decoded snapshot, in a new map; a snapshot that cannot be decoded changes nothing |
| Store.CatchUp | cmd/mgmt/raft/store.go:207-261 | a snapshot kept while the original goes on applying still brings another replica to the same table after the rest of the log |
| Replication.TakeKeepsConsistent | cmd/mgmt/raft/store.go:207-261 | every commit, apply, snapshot, install and restart leaves all tables and snapshots equal to the log prefix they stand for |
| Replication.ReplicasAgree | cmd/mgmt/raft/store.go:207-343 | in every run two replicas differ exactly by the log entries between them, and at equal positions not at all |
| Membership.RaftConfiguration.Join | cmd/mgmt/raft/store.go:166-204 | Raft membership stays one-to-one; after success the ID and the address are paired with each other, servers sharing neither are untouched, rejoining an identical pair changes nothing |
| Fleet.SubForest | cmd/mgmt/raft/service.go:541-556 | dropping sessions keeps an acyclic graph with one forwarder per node |
| Fleet.LinkKeepsForest | cmd/mgmt/raft/service.go:161-186 | forwarding to nodes that were cut off on both sides keeps it so |
| Fleet.Speakers.RemoveAllSessions | api/handler.go:81-88 | drops exactly the node's own sessions, or fails with or without effect |
| Fleet.Speakers.RemoveForwardToNodes | api/handler.go:67-91 | drops exactly the sessions to the named live nodes other than itself |
| Fleet.Speakers.ForwardToNodes | api/handler.go:44-64 | adds exactly the sessions to the named live nodes other than itself |
| Fleet.Speakers.ToggleBroadcast | api/handler.go:27-30 | sets one node's broadcast flag |
| ZoneService.DistributedMgmtService.FindZone | cmd/mgmt/raft/service.go:213-223 | finds the stored zone with the ID, or none |
| ZoneService.DistributedMgmtService.RemoveFromAllSpeakers | cmd/mgmt/raft/service.go:541-556 | on success no live speaker forwards to any of the live ids, and no other session is lost; never adds a session |
| ZoneService.DistributedMgmtService.CreateZone | cmd/mgmt/raft/service.go:103-192 | the graph is a forest after every single call whatever fails and overlaps; an error leaves the stored zones unchanged, the sessions only fewer or those of a success, and nobody unnamed switched on or off; a failing commit ends the process with everything done but the commit; success, or no failing call, gives exactly the state of the specification |
| ZoneService.DistributedMgmtService.AddSpeakersToZone | cmd/mgmt/raft/service.go:195-269 | as for CreateZone, including the unknown zone, the dead newcomer and the dead leader |
| ZoneService.DistributedMgmtService.RemoveSpeakersFromZone | cmd/mgmt/raft/service.go:272-345 | as for CreateZone, for any list of ids |
| ZoneService.DistributedMgmtService.DeleteZone | cmd/mgmt/raft/service.go:348-419 | as for CreateZone |
| ZoneService.DistributedMgmtService.KeepSpeakers | cmd/mgmt/raft/service.go:326-338 | the nested loop keeps each speaker once for every id before its first match |
| ZoneService.DistributedMgmtService.HandleMusicNodeLeave | cmd/mgmt/raft/service.go:720-787 | one of the zones led by the lost node, if any, passes to one of its live members, if it has one, and nothing else changes, also when zones overlap; a failing call leaves the stored zones and either the sessions before or those of the promotion, a failing commit ends the process; every call keeps the forest if only leaders forwarded into zones |
| ZoneService.DistributedMgmtService.HandleMusicNodeJoin | cmd/mgmt/raft/service.go:615-716 | a returning leader gets its live members and broadcasts again; otherwise a returning member is forwarded to by its live leader alone and does not broadcast, also when zones overlap; a failing call leaves the stored zones and fewer sessions or those of the return; every call keeps the forest if only leaders forwarded into zones |
| ZoneRemoval.KeptCount | cmd/mgmt/raft/service.go:326-338 | each speaker occurrence is kept as many times as there are ids before its first match |
| ZoneRemoval.OneIdIsFilter | cmd/mgmt/raft/service.go:326-338 | for one id the loop keeps exactly the unnamed speakers in order |
| ZoneRemoval.FilterExactlyWhen | cmd/mgmt/raft/service.go:326-338 | for any ids the loop is the filter if and only if there is one id or every speaker is the first id |
| ZoneRemoval.MembersExactlyWhen | cmd/mgmt/raft/service.go:326-338 | the set of kept speakers is right if and only if no member is named other than by the first id |
| ZoneRuns.CreateKeepsForwardInv | cmd/mgmt/raft/service.go:103-192 | creation, successful or not, keeps the invariant between stored zones and live sessions |
| ZoneRuns.AddKeepsForwardInv | cmd/mgmt/raft/service.go:195-269 | addition keeps it, also when it gives up part-way |
| ZoneRuns.RemoveKeepsForwardInv | cmd/mgmt/raft/service.go:272-345 | removal of any ids keeps it, if no follower is named that the stored list would keep |
| ZoneRuns.DeleteKeepsForwardInv | cmd/mgmt/raft/service.go:348-419 | deletion keeps it |
| ZoneRuns.LeaveKeepsForwardInv | cmd/mgmt/raft/service.go:720-787 | a lost node with its promotion keeps it, whichever live member is promoted |
| ZoneRuns.JoinKeepsForwardInv | cmd/mgmt/raft/service.go:615-716 | a rejoining leader or member keeps it |
| ZoneInvariant.InvariantMeansMusicFlows | cmd/mgmt/raft/service.go:161-186 | under the invariant a live follower is forwarded to by exactly its live leader, a leader by nobody, and no packet travels two hops |
| ZoneRuns.MusicFlowsInEveryRun | cmd/mgmt/raft/service.go:103-419 | that holds, and the graph is a forest, in every state of every run of create, add, remove, delete, leave and rejoin |
| ZoneOverlap.CreateMusicExactlyWhen | cmd/mgmt/raft/service.go:127-186 | a creation, successful or not, leaves the music as it should be if and only if: on success, shared speakers already followed the new leader, a zone it led comes along with all its live speakers, a leader it followed is dead; on failure, the speakers cleared so far led nobody live |
| ZoneOverlap.AddMusicExactlyWhen | cmd/mgmt/raft/service.go:213-264 | an addition leaves the music as it should be if and only if: on success, it names no speaker of another zone; on failure, the speakers cleared and cut off so far led nobody live and followed nobody live |
| ZoneOverlap.RemoveMusicExactlyWhen | cmd/mgmt/raft/service.go:317-339 | a removal leaves the music as it should be if and only if the leader or a named speaker is dead, or no follower other than the first id is named |
| ZoneSpec.RemoveOkExactlyWhen | cmd/mgmt/raft/service.go:301-325 | a removal succeeds if and only if the leader and all named speakers are live |
| ZoneEffects.CreateOkExactlyWhen | cmd/mgmt/raft/service.go:127-160 | a creation succeeds if and only if every speaker named is live |
| ZoneEffects.AddOkExactlyWhen | cmd/mgmt/raft/service.go:210-262 | an addition succeeds if and only if it names nobody, or the zone is stored and its leader and everybody named are live |
| ZoneEffects.RemoveReply | cmd/mgmt/raft/service.go:287-325 | a removal succeeds if and only if it names nobody, or the zone is stored and its leader and everybody named are live |
| ZoneEffects.DeleteOkExactlyWhen | cmd/mgmt/raft/service.go:364-413 | a deletion succeeds if and only if the zone is stored and its leader, if any, and all followers are live |
| ZoneEffects.CreateBroadcasts | cmd/mgmt/raft/service.go:139-158 | up to the first dead speaker the first is switched on and the others off; nobody else is touched |
| ZoneEffects.AddBroadcasts | cmd/mgmt/raft/service.go:224-245 | up to the first dead speaker newcomers are switched off; nobody else is touched |
| ZoneEffects.RemoveBroadcasts | cmd/mgmt/raft/service.go:301-315 | up to the first dead speaker everybody named but the leader is switched on; nobody else is touched |
| ZoneEffects.DeleteBroadcasts | cmd/mgmt/raft/service.go:375-390 | up to the first dead one every follower is switched on; nobody else is touched |
| ZoneEffects.DeletedFollowersBroadcast | cmd/mgmt/raft/service.go:384-389 | after a successful deletion every former follower broadcasts |
| ZoneEffects.RemovedFollowersBroadcast | cmd/mgmt/raft/service.go:310-314 | after a successful removal everybody named but the leader broadcasts, and the first id is out of the zone |
| ZoneEffects.DeletionInRunFreesFollowers | cmd/mgmt/raft/service.go:348-419 | in every run, deleting a zone with all members live removes it and leaves its followers broadcasting |
| ZoneEffects.CreateSessions | cmd/mgmt/raft/service.go:161-186 | after a success the leader forwards to the other speakers, sessions of and to them are gone, all others stay |
| ZoneEffects.AddSessions | cmd/mgmt/raft/service.go:247-262 | after a success the leader forwards to the newcomers too, sessions of and to newcomers are gone, all others stay |
| ZoneEffects.RemoveSessions | cmd/mgmt/raft/service.go:317-325 | after a success exactly the leader's sessions to the speakers named are gone |
| ZoneEffects.DeleteSessions | cmd/mgmt/raft/service.go:392-402 | after a success exactly the leader's sessions are gone |
| ZoneEffects.FailedCreateSessions | cmd/mgmt/raft/service.go:127-138 | after a failure exactly the speakers before the first dead one have lost their sessions |
| ZoneEffects.FailedAddSessions | cmd/mgmt/raft/service.go:224-256 | after a failure exactly those newcomers have, and with only the leader dead nobody forwards to them |
| ZoneEffects.FailedRemovalSessions | cmd/mgmt/raft/service.go:301-320 | removals and deletions that fail change no session |
| ZoneEffects.PromotionEffects | cmd/mgmt/raft/service.go:754-786 | the heir is switched on and forwards to the other live speakers; nobody else is touched |
| ZoneEffects.ReturnEffects | cmd/mgmt/raft/service.go:644-715 | a returning leader broadcasts and forwards, a returning member is silent and served by its live leader alone; nobody else is touched |
| ZoneEffects.LeavePromotes | cmd/mgmt/raft/service.go:740-786 | when a leader leaves and another speaker of the zone is live, one of them leads, broadcasts and forwards to the rest |
| ZoneEffects.ZonesFrame | cmd/mgmt/raft/service.go:103-787 | every event, failing or not, leaves ID and name of every stored zone, its leader unless it leaves, and its speakers unless the event adds or removes some; zones come only by creation, with the name asked for, and go only by deletion |
| ZoneEffects.StoredZoneWasCreated | cmd/mgmt/raft/service.go:103-787 | in every run, whatever fails, a stored zone bears its own ID and the name that it was created with |
| ZoneOverlap.RemovalCutsFollowerOff | cmd/mgmt/raft/service.go:322-339 | a creation and one removal of two followers after which the second, still stored, hears nobody |
| ZoneOverlap.OverlapCutsFollowerOff | cmd/mgmt/raft/service.go:161-186 | two creations from an empty store after which a live follower of a live leader hears nobody |
| ZoneFailures.StepIsSafe | cmd/mgmt/raft/service.go:127-419 | every event, failing anywhere short of a promotion that leaves sessions without its commit, keeps that nobody but its leader forwards into a zone, no follower forwards, and the graph is a forest |
| ZoneFailures.NoStrayMusicInEveryRun | cmd/mgmt/raft/service.go:103-787 | in every state of every run with calls and commits failing anywhere, short of a promotion that leaves sessions without its commit, a zone member hears nobody but its own live leader, a leader hears nobody, and the graph is a forest |
| ZoneFailures.InterruptedPromotionExactlyWhen | cmd/mgmt/raft/service.go:761-786 | a promotion stopped before its commit keeps that if and only if the heir has no other live speaker to serve |
| ZoneFailures.ForwardingCycle | cmd/mgmt/raft/service.go:650-787 | a zone is created, its leader leaves, the promotion stops before its commit, the leader returns: a member has two forwarders; the leader leaves again: two members forward to each other |
| ZoneBroadcast.RemoveKeepsBroadcastInvExactlyWhen | cmd/mgmt/raft/service.go:301-320 | removal keeps the broadcast rule if and only if every speaker named before the first dead one follows in no other zone and, if the leader or a named speaker is dead, not in this one |
| ZoneBroadcast.DeleteKeepsBroadcastInvExactlyWhen | cmd/mgmt/raft/service.go:375-413 | deletion keeps the broadcast rule if and only if the whole zone is live or a dead follower is listed before every live one |
| ZoneBroadcast.NextKeepsBroadcastInvExactlyWhen | cmd/mgmt/raft/service.go:103-419 | every event keeps the rule that live leaders broadcast and other live members do not, if and only if the request is careful in that sense |
| ZoneBroadcast.LeadersBroadcastInEveryRun | cmd/mgmt/raft/service.go:615-787 | the rule holds in every state of every run of careful requests, through promotion and rejoining |
| ZoneBroadcast.BroadcastRuleLost | cmd/mgmt/raft/service.go:301-396 | runs of five events from an empty store in which the rule is lost, by a removal and by a deletion |
| ZoneMisbroadcast.StepTouches | cmd/mgmt/raft/service.go:103-787 | every event, failing in any way, makes nobody broadcast wrongly but those it touches: named in a removal, in a zone being deleted, following where a promotion fails, rejoining with a failing call |
| ZoneMisbroadcast.WrongOnesWereTouched | cmd/mgmt/raft/service.go:103-787 | in every state of every run with calls and commits failing anywhere, a live leader that does not broadcast and a live follower that does were touched by an earlier event in that sense |
| ZoneRuns.Handle | cmd/mgmt/raft/service.go:103-787 | handling an event with the service's own code is exactly one step of a run, or one of the failing steps if a call or a commit fails; every call keeps the forest if only leaders forwarded into zones |
| GoText.AtoiOfItoa | sdp/parser.go:22-27 | a printed machine integer is parsed back |
| GoText.LineRoundTrip | rtsp/parser.go:21-25 | a trimmed line written with CRLF is read back, with the rest of the input after it |
| Rtsp.GetMethod | rtsp/rtsp.go:71-77 | a found method is never Redirect and has the given name up to case; nothing is found only if no method in the table has that name |
| Rtsp.StatusRanges | rtsp/rtsp.go:88-131 | exactly these statuses are known: those of section 7.1.1 of RFC 2326 without 302 and 304 |
| Rtsp.ReadRequest | rtsp/parser.go:14-79 | the reader computes the specified parse, errors included |
| Rtsp.ReadResponse | rtsp/parser.go:117-179 | likewise for responses |
| Rtsp.WriteRequest | rtsp/parser.go:100-115 | the writer prints the specified text for some header order |
| Rtsp.WriteResponse | rtsp/parser.go:82-98 | likewise for responses |
| RtspRoundTrip.MethodRoundTrip | rtsp/rtsp.go:56-77 | the printed method is found again if and only if it is not Redirect |
| RtspRoundTrip.MethodNames | rtsp/method_string.go:7-16 | which word on the wire is which method, for the four of the handshake |
| RtspRoundTrip.MoreMethodNames | rtsp/method_string.go:7-16 | likewise for SET_PARAMETER, FLUSH, TEARDOWN and REDIRECT |
| RtspRoundTrip.OtherMethodNames | rtsp/method_string.go:7-16 | likewise for the rest |
| RtspRoundTrip.WireRequest | rtsp/parser.go:14-79 | what a spelled-out request with one header and a body is read as, for every method name, URI, protocol, header and body |
| RtspRoundTrip.WireStatus | rtsp/parser.go:117-145 | what a spelled-out status line is read as |
| RtspRoundTrip.RequestIsRead | rtsp/parser.go:14-115 | every request with a good first line and headers on one line each is read, whatever the header order and whatever follows: each value up to its first colon and trimmed, the computed length in place of a stale one |
| RtspRoundTrip.RequestRoundTrip | rtsp/parser.go:14-115 | a well-formed request is read back for every header order and whatever follows it, with the computed length in place of a stale one |
| RtspRoundTrip.ResponseIsRead | rtsp/parser.go:82-179 | likewise for responses |
| RtspRoundTrip.ResponseRoundTrip | rtsp/parser.go:82-179 | a well-formed response is read back for every header order and whatever follows it |
| RtspRoundTrip.ParsedRequestIsWellFormed | rtsp/parser.go:14-79 | whatever is read as a request is well-formed |
| RtspRoundTrip.ParsedResponseIsWellFormed | rtsp/parser.go:117-179 | whatever is read as a response is well-formed |
| RtspRoundTrip.RequestSurvivesExactlyWhen | rtsp/parser.go:14-115 | a request survives printing and reading if and only if it is well-formed, given that a stale Content-Length has no line break |
| RtspRoundTrip.ResponseSurvivesExactlyWhen | rtsp/parser.go:82-179 | likewise for responses |
| RtspRoundTrip.ColonIsLost | rtsp/parser.go:54-58 | a request with a colon in a header value is read back without what follows the colon |
| Sdp.FieldsOfSpaced | sdp/parser.go:28-37 | splitting blank-separated words gives the words back |
| Sdp.Parse | sdp/parser.go:13-82 | the scanner loop computes the specified parse, errors and panics included |
| Sdp.Write | sdp/parser.go:85-107 | the printer writes the specified lines for some attribute order |
| SdpRoundTrip.RoundTrip | sdp/parser.go:13-107 | a well-formed description is parsed back, media order included, for any number of media and every attribute order |
| SdpRoundTrip.SurvivorIsWellFormed | sdp/parser.go:13-107 | a description that is parsed back under one attribute order is well-formed: a line over the scanner's limit always loses something |
| SdpRoundTrip.SurvivesExactlyWhen | sdp/parser.go:13-107 | for each attribute order a description is parsed back if and only if it is well-formed |
| SdpRoundTrip.ColonIsLost | sdp/parser.go:72-74 | a description with a colon in an attribute value is not parsed back |
| SdpRoundTrip.WireTexts | sdp/parser.go:39-78 | which letter stands for the session name and which for the information |
| SdpRoundTrip.WireNumbers | sdp/parser.go:21-60 | version and timing lines, spelled out |
| SdpRoundTrip.WireOrigin | sdp/parser.go:27-37 | the origin line, spelled out in its order |
| SdpRoundTrip.WireConnect | sdp/parser.go:41-48 | the connection line, spelled out in its order |
| SdpRoundTrip.WireMedia | sdp/parser.go:62-70 | a media line, spelled out in its order |
| SdpRoundTrip.WireAttribute | sdp/parser.go:72-74 | an attribute line, spelled out |
| Daap.ParseDaap | raop/daap.go:16-36 | the index loop computes the specified walk; it stays in bounds or stops where the original would panic |
| Daap.WalkItems | raop/daap.go:16-36 | on every item sequence, unknown codes and empty items included, the walk stays on item boundaries and takes in each item in turn |
| Daap.LastItemWins | raop/daap.go:22-32 | each field has the value of the last non-empty item that speaks about it |
| Daap.ParsedItems | raop/daap.go:16-36 | after eight bytes, any sequence of items is parsed, and under each name stands the value of the last non-empty item that speaks about it |
| Daap.ParsedTrack | raop/daap.go:75-98 | for any eight bytes and any items, the album is the data of the last non-empty "asal" item, the artist of "asar", the title of "minm", and empty without one |
| Daap.ParsedKind | raop/daap.go:81-84 | the item kind is the first byte of the last non-empty "mikd" item |
| Daap.BigEndianShifts | raop/daap.go:60-67 | lengths are written most significant byte first |
| Daap.TrackItems | player/forwarding/forwardingPlayer.go:256-260 | the album is written under "asal", the artist under "asar", the title under "minm" |
| Daap.TablesAgree | raop/daap.go:75-123 | looking up a known name and then its code leads to the same entry |
| Daap.EncodeDaap | raop/daap.go:39-73 | the encoder writes the specified bytes for some map order |
| Daap.EncodeRoundTrip | raop/daap.go:16-73 | parsing an encoding gives the input restricted to known names with non-empty values, for every map order |
| Daap.TrackForwardingIsLossless | player/forwarding/forwardingPlayer.go:254-264 | all three strings arrive, empty ones included, for every map order |
| PlayerControl.VolumeText | raop/airplay.go:318-320 | the number of a printed volume line is cut out again |
| PlayerControl.SecondPartBetween | raop/airplay.go:318-319 | of a body with the marker more than once the text between the first two counts, with one the text after it, without one there is none |
| PlayerControl.VolumeRequest | raop/airplay.go:316-339 | with a legible volume, the mute header "muted" mutes and changes nothing else, any other value unmutes and sets the volume, no header sets the volume and keeps muting |
| PlayerControl.BadVolumeRequest | raop/airplay.go:321-325 | an illegible volume is refused and changes nothing |
| PlayerControl.ArtworkRequest | raop/airplay.go:314-315 | a picture becomes the artwork and nothing else changes |
| PlayerControl.TrackRequest | raop/airplay.go:299-313 | any items become the track, field by field of their codes, and nothing else changes |
| PlayerControl.OtherRequest | raop/airplay.go:298-342 | any other content type, and text without a volume, changes nothing |
| Forwarding.TrackArrives | raop/airplay.go:299-313 | a track in a SET_PARAMETER request asks for exactly that track, through DAAP and RTSP text, for every map and header order and whatever follows the request |
| Forwarding.ForwardTrack | player/forwarding/forwardingPlayer.go:241-270 | sending a track leaves exactly that track at the next speaker's player and changes nothing else |
| Forwarding.ForwardVolume | player/forwarding/forwardingPlayer.go:149-177 | sending a volume leaves the next speaker's player one hop further, through the printed text, and changes nothing else |
| Forwarding.ForwardMute | cmd/mgmt/raft/service.go:790-840 | through the RTSP text, muting mutes the speaker's player and keeps its volume, unmuting unmutes it and sets full volume; nothing else changes |
| Forwarding.ForwardAlbumArt | player/forwarding/forwardingPlayer.go:274-300 | through the RTSP text, the next speaker's player ends with the same picture and nothing else changes |
| Transport.ReadPorts | raop/airplay.go:256-270 | the loop reads the last part with each name and fails exactly on a part with a name but no '=' |
| Transport.LastPartDecides | raop/client.go:151-161 | the last part with a name holds the number |
| Transport.UnreadablePartIsFatal | raop/client.go:151-161 | reading fails if and only if some part has the name but no '=' |
| Transport.ServerTransportText | raop/airplay.go:277 | the server's answer, spelled out |
| Transport.ClientTransportText | raop/client.go:138 | the client's request, spelled out |
| Transport.ServerPortsRead | raop/client.go:145-162 | the client reads the three ports that the server printed |
| Transport.ClientPortsRead | raop/airplay.go:256-270 | the server reads the two ports that the client printed |
| Airplay.AirplayServer.CloseSession | raop/airplay.go:363-381 | closing ends as the close handshake with the session's receive loops and the packet in their buffer does; the session is removed if and only if the handler is served |
| Airplay.AirplayServer.CloseAllSessions | raop/airplay.go:383-387 | closing by remote address comes to an end with an answer if and only if every session that was set up can be closed, and leaves exactly those never set up |
| Airplay.AirplayServer.HandleAnnounce | raop/airplay.go:206-251 | an answered ANNOUNCE leaves exactly the new session and those from other addresses never set up; every refusal has its status; one that is not answered hangs or dies on a session that was set up, with none lost that was never set up |
| Airplay.AirplayServer.HandleSetup | raop/airplay.go:253-282 | the session gets the requested remote and the fixed local ports, and the answer names them |
| Airplay.AirplayServer.HandleRecord | raop/airplay.go:284-296 | one more receive loop runs on the session; without a session the process dies |
| Airplay.AirplayServer.HandleTeardown | raop/airplay.go:348-351 | the session is closed under the condition of CloseSession; otherwise the handler hangs or dies as the session's receive loops decide |
| Airplay.AirplayServer.HandleSetParameter | raop/airplay.go:298-342 | the player gets exactly the call that content type, body and mute header ask for; a bad number is refused, a malformed body ends the process |
| Airplay.AirplayServer.Handle | raop/airplay.go:120-126 | each request reaches its own handler, all others are skipped; only SET_PARAMETER reaches the player |
| Airplay.ReplyStatus | raop/airplay.go:206-251 | 400 exactly for an illegible description or volume, 500 exactly for a missing key or socket, 200 otherwise |
| Airplay.Unhandled | rtsp/server.go:81-87 | exactly five methods have no handler, and those requests change nothing |
| Airplay.OptionsAnswer | raop/airplay.go:190-204 | OPTIONS answers with the list of methods, and with the answer to a challenge exactly if there is one |
| Airplay.SetupAnswers | raop/airplay.go:277-279 | the headers of the answer to SETUP, and no others |
| Airplay.RecordAnswers | raop/airplay.go:293 | the header of the answer to RECORD, and no other |
| Airplay.OthersKept | raop/airplay.go:72-101 | a request changes no other client's session, except that an ANNOUNCE closes those that were set up |
| Airplay.OwnSession | raop/airplay.go:237-249 | an announced session has the description and its data port and nothing else yet |
| Airplay.RunsStayKeyed | raop/airplay.go:72-101 | in every run a session's remote address is empty or its key |
| Airplay.OrderlyRunsHaveOneSession | raop/airplay.go:206-282 | when each client completes SETUP and RECORD before the next ANNOUNCE, and no packet makes decoding panic, every request is answered and there is at most one session |
| Airplay.StalledUntilRecord | raop/airplay.go:363-387 | while a session is set up but not recorded it stays, and no ANNOUNCE from anybody and no TEARDOWN of its own has been or would be answered |
| Airplay.StalledRun | raop/airplay.go:206-282 | an ANNOUNCE and a SETUP lead there from an empty table |
| Airplay.HopelessForEver | raop/airplay.go:383-387 | after a second RECORD on a session that was set up, or a packet on which decoding panics, no ANNOUNCE from anybody is answered again |
| Server.ReplyIsGood | rtsp/server.go:89-97 | every response that a handler builds for a request that was read is well-formed |
| Server.ReplyEchoes | rtsp/server.go:92 | every response carries the sequence number of its request |
| Server.NumberedHeaders | rtsp/client.go:27-28 | the two headers of every request, spelled out |
| Server.Serve | rtsp/server.go:65-107 | one round of the read loop handles exactly the request in the text, and reading its answer gives back the response |
| Server.Connection.Send | rtsp/client.go:26-39 | the k-th request is numbered k, reaches the server as text, and the response read back is the handler's, numbered k |
| Handshake.DescriptionSent | raop/client.go:88-121 | the announced description is parsed back from its printed form |
| Handshake.AnnouncedHead | raop/client.go:88-103 | the first lines of the announced description, spelled out |
| Handshake.AnnouncedTail | raop/client.go:104-116 | its media, attribute and last line, spelled out |
| Handshake.RequestLines | raop/client.go:66-172 | the first lines of the four requests, spelled out |
| Handshake.RequestHeaders | raop/client.go:84-138 | their headers, spelled out |
| Handshake.OptionsStep | raop/client.go:65-77 | OPTIONS is answered and changes no session |
| Handshake.AnnounceStep | raop/client.go:79-130 | ANNOUNCE succeeds if and only if the server can close every session that was set up and gets a socket, and then leaves the announced session |
| Handshake.SetupStep | raop/client.go:132-168 | the client ends with the server's data, control and timing ports, the server with the client's |
| Handshake.RecordStep | raop/client.go:170-184 | the server starts receiving on the session |
| Handshake.StateMachine.Transition | raop/client.go:27-34 | each transition leads to the next state of the handshake with both ends in step |
| Handshake.EstablishSession | raop/client.go:37-59 | the handshake succeeds if and only if the server can take the announcement; then OPTIONS, ANNOUNCE, SETUP, RECORD were answered once each in order with sequence numbers 1 to 4, and both ends agree on description and ports |
| Receiver.TakeKeepsInv | rtsp/session.go:77-111 | every step of receiver, player and closer keeps the pipeline invariant |
| Receiver.PipelineIsFaithful | rtsp/session.go:65-111 | in every interleaving the packets taken, queued and in flight are exactly those received and decoded, in order and outside the read buffer; the queue is bounded; the channel is closed at most once with nothing sent afterwards; a session out of the map has a closed channel; the process dies only on a packet that makes decoding panic |
| Receiver.HeldPacketsAreStable | rtsp/session.go:100-103 | a packet that the player holds never changes |
| CloseHandshake.ContinuationsEnd | rtsp/session.go:65-111 | once the socket is closed, every continuation without another RECORD is finite |
| CloseHandshake.SomeContinuation | rtsp/session.go:65-111 | and can be carried on to its end |
| CloseHandshake.ClosingIsDecided | raop/airplay.go:363-381 | from every reachable state with a waiting handler all continuations end alike: served, waiting for ever or dead, as the receive loops and the packets in their buffers decide |
| CloseHandshake.RecordsDecide | raop/airplay.go:284-296 | with no loop gone, the number of RECORD requests and a packet on which decoding panics decide |
| CloseHandshake.ClosedAfterRecords | raop/airplay.go:363-381 | for every number of RECORD requests such a state is reachable |
| CloseHandshake.DesertedHandler | rtsp/session.go:83-110 | a run after which the one loop has gone and the handler waits for ever |
| CloseHandshake.DoomedHandler | rtsp/session.go:92-99 | a run after which one loop holds a packet on which decoding panics and the handler waits |
| Receiver.StepRefines | rtsp/session.go:77-111 | every step with its packets, the panic of a decode included, is a step of the close handshake |
| Receiver.ClosingIsDecided | rtsp/session.go:65-111 | from every reachable state with a waiting closer every continuation is finite, and all end alike: with the session out of the map and its channel closed if the loop was started, has not gone and holds no packet on which decoding panics, dead if it holds one, and waiting otherwise |
| Receiver.DesertedSession | rtsp/session.go:83-110 | a run after which the loop has gone and the closer waits |
| Receiver.ShortPacketKills | raop/decrypter.go:25-26 | in an encrypted session with a good key, a run with any packet of fewer than 12 bytes that leads to a closer waiting for a loop about to panic |
| Receiver.FatalExactlyWhen | raop/decrypter.go:20-26 | decoding panics if and only if the key is good and the IV does not have 16 bytes or the packet fewer than 12 |
| Decrypter.DecryptedBlock | raop/decrypter.go:20-37 | the specification is cipher block chaining: each block depends on two ciphertext blocks only |
| Decrypter.DecryptUndoesEncrypt | raop/decrypter.go:20-37 | decryption undoes encryption for every cipher with that inverse, every IV and every payload |
| Decrypter.TailUnchanged | raop/decrypter.go:28-33 | a trailing partial block passes through |
| Decrypter.AesDecrypter.Decode | raop/decrypter.go:20-37 | the in-place loop decrypts the full blocks after the header, leaves the header, and returns the payload; bad keys and short packets fail without a change |
| Decrypter.VerdictSpelledOut | raop/decrypter.go:20-37 | the key error exactly for keys of other than 16, 24 or 32 bytes; with a 16-byte IV and twelve bytes or more, the decryption of what follows the twelve |
| Volume.NormalizeUndoesPrepare | raop/airplay.go:406-421 | without rounding the receiver sets exactly the sender's volume in [0,1] |
| Volume.PreparedScale | player/forwarding/forwardingPlayer.go:346-363 | silence is -144, half -15 and full volume 0, and louder is louder in between |
| Volume.NormalizedScale | raop/airplay.go:406-421 | -144 and -30 are silence, -15 half and 0 full volume, and louder is louder from -30 to 0 |
| Volume.ParsedIsStable | player/forwarding/forwardingPlayer.go:149-177 | a volume printed and parsed once comes through printing and parsing unchanged |
| Volume.EveryHopAlike | player/forwarding/forwardingPlayer.go:346-363 | every speaker after the first hop gets the volume of the first, for any number of hops and any tie rule |

## Left out

- The Raft consensus algorithm, memberlist gossip, mDNS, gRPC and Bolt storage: the model has a committed log, a set of live members and calls that succeed or fail.
- Forwarding of management requests to the Raft leader, and the network address lookups it needs.
- SetDisplayName, ChangeZoneName and the remaining getters: one store call and one speaker call each. A forwarded SetDisplayName drops updateBroadcast (cmd/mgmt/raft/service.go:64).
- Advertised service names: ChangeServiceName is a call that can fail, but the name itself is not kept.
- The join delegate of the bootstrap node (cmd/bcg.go:104-127), which adds sessions outside zone control.
- Music nodes only: nodes of other types, which never are speakers of a zone, are not in the fleet.
- ZoneRuns.MusicFlowsInEveryRun: runs without a failing call; with failing calls music can be missing, and ZoneFailures.NoStrayMusicInEveryRun says what remains.
- ZoneBroadcast.LeadersBroadcastInEveryRun: likewise runs without a failing call; ZoneMisbroadcast.WrongOnesWereTouched says what remains with failing calls.
- Interleavings of several zone operations and membership handlers.
- Airplay.AirplayServer.HandleAnnounce: RSA, base64 and the DACP client are outside; whether a key could be decoded is a parameter.
- Airplay.AirplayServer.Handle: the answer to an Apple challenge is a parameter.
- Rtsp.WriteResponse: the phrase of each status is a parameter, since readers ignore it.
- Server.Serve: several requests in one buffer; each read starts with a new buffered reader, so a message is claimed to be independent of what follows it, not that what follows is kept.
- RtspRoundTrip.RequestSurvivesExactlyWhen: a replaced Content-Length entry with a line break in it, which can survive or not depending on the other headers and the body.
- RtspRoundTrip.ResponseSurvivesExactlyWhen: likewise.
- Handshake.EstablishSession: network errors between the two ends; a request that is not answered is a failure.
- Volume.EveryHopAlike: 64-bit rounding of the intermediate arithmetic, which is exact here.
- Packet order downstream of the player: every packet is forwarded in a goroutine of its own, so no order is promised.
- Unicode white space and case, RSA challenge signing, the ALAC codec, AdjustAudio, and the frontend.
