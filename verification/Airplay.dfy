/** The session table of an AirPlay server and the handlers that change it (raop/airplay.go). */
module Airplay {
  import opened Wrappers
  import opened GoText
  import opened Rtsp
  import opened Transport
  import opened PlayerControl
  import Protocol = CloseHandshake
  import Daap
  import Sdp
  import Volume

  datatype PortSet = PortSet(address: string, control: int, timing: int, data: int)

  const NO_PORTS := PortSet("", 0, 0, 0)

  /**
    `receivers` counts the receive loops that were started on the session; `doomed` says that one of
    them holds a packet on which decoding panics.
   */
  datatype Session = Session(
    description: Sdp.Description, remote: PortSet, local: PortSet, receivers: nat, doomed: bool)

  type Sessions = map<string, Session>

  /** A session that was announced and given a data port. */
  function Announced(description: Sdp.Description, port: nat): Session {
    Session(description, NO_PORTS, NO_PORTS.(data := port), 0, false)
  }

  /** SETUP with a Transport header sets the remote address. */
  predicate SetUp(s: Session) {
    s.remote.address != ""
  }

  predicate Keyed(sessions: Sessions) {
    "" !in sessions && forall a | a in sessions :: SetUp(sessions[a]) ==> sessions[a].remote.address == a
  }

  /** The sessions that no SETUP with a Transport header has reached. */
  function NeverSetUp(sessions: Sessions): Sessions {
    map a | a in sessions && !SetUp(sessions[a]) :: sessions[a]
  }

  // ---------------------------------------------------------------------------
  // What an answered request does to the table
  // ---------------------------------------------------------------------------

  datatype Event =
    | Announce(address: string, description: Sdp.Description, socket: Socket)
    | Setup(address: string, transport: Asked)
    | Record(address: string)
    | Teardown(address: string)
    | Datagram(address: string)   // a packet on which decoding panics

  /** What becomes of the key and the data socket of an announced session. */
  datatype Socket = Bound(port: nat) | Refused

  /** The ports of the Transport header, if there is one. */
  datatype Asked = Ports(control: int, timing: int) | NoTransport

  /** The packets of the session are decrypted. */
  predicate Encrypted(s: Session) {
    "rsaaeskey" in s.description.attributes
  }

  /** Closing the session comes to an end with an answer. */
  predicate Closable(s: Session) {
    Protocol.FateOfLoops(s.receivers, s.doomed).Served?
  }

  /** Every session that was set up can be closed. */
  predicate AllClosable(sessions: Sessions) {
    forall a | a in sessions && SetUp(sessions[a]) :: Closable(sessions[a])
  }

  /**
    A request is answered unless its handler waits for ever, for a receive loop that was never
    started, or brings the process down, by using a missing session, closing a channel twice or
    decoding a packet that panics. A datagram needs no answer; it needs a loop to read it.
   */
  predicate Answered(sessions: Sessions, e: Event) {
    match e
    case Announce(_, _, _) => AllClosable(sessions)
    case Setup(address, _) => address in sessions
    case Record(address) => address in sessions
    case Teardown(address) => address in sessions ==> Closable(sessions[address])
    case Datagram(address) =>
      address in sessions && Encrypted(sessions[address]) && sessions[address].receivers > 0
  }

  function SetUpWith(s: Session, address: string, transport: Asked): Session {
    var remote :=
      if transport.Ports? then
        s.remote.(address := address, control := transport.control, timing := transport.timing)
      else s.remote;
    s.(remote := remote, local := s.local.(control := CONTROL_PORT, timing := TIMING_PORT))
  }

  function Next(sessions: Sessions, e: Event): Sessions
    requires Answered(sessions, e)
  {
    match e
    case Announce(address, description, Bound(port)) => NeverSetUp(sessions)[address := Announced(description, port)]
    case Announce(_, _, Refused) => NeverSetUp(sessions)
    case Setup(address, transport) => sessions[address := SetUpWith(sessions[address], address, transport)]
    case Record(address) => sessions[address := sessions[address].(receivers := sessions[address].receivers + 1)]
    case Teardown(address) => sessions - {address}
    case Datagram(address) => sessions[address := sessions[address].(doomed := true)]
  }

  // ---------------------------------------------------------------------------
  // The server
  // ---------------------------------------------------------------------------

  /** `Skipped` is a request for which no handler is registered. */
  datatype Outcome = Reply(status: int, headers: Headers) | Hang | Crash | Skipped

  /**
    What a handler takes from outside: whether the stream key could be decoded, the data socket, the
    order in which the method table is listed, the answer to an Apple challenge, and how a
    floating-point number is parsed.
   */
  datatype Environment = Environment(
    keyed: bool, socket: Socket, listing: seq<Method>, challengeAnswer: string, parseFloat: FloatParser)

  /** The server's read loop puts the sequence number of the request into the response. */
  function Echo(req: Request): Headers {
    map["CSeq" := if "CSeq" in req.headers then req.headers["CSeq"] else ""]
  }

  function Names(listing: seq<Method>): seq<string> {
    seq(|listing|, i requires 0 <= i < |listing| => UpperName(listing[i]))
  }

  function OptionsHeaders(req: Request, env: Environment): Headers {
    var headers := Echo(req)["Public" := Sdp.Spaced(Names(env.listing))];
    if "Apple-Challenge" in req.headers then headers["Apple-Response" := env.challengeAnswer] else headers
  }

  predicate HasDescription(req: Request) {
    "Content-Type" in req.headers && req.headers["Content-Type"] == "application/sdp"
  }

  /** The event that an ANNOUNCE with a legible description is. */
  function AnnounceEvent(d: Sdp.Description, address: string, env: Environment): Event {
    Event.Announce(address, d, if "rsaaeskey" in d.attributes && !env.keyed then Refused else env.socket)
  }

  /** What becomes of a handler that closes a session which cannot be closed. */
  function FateOfClosing(s: Session): Outcome {
    if s.receivers == 0 then Hang else Crash
  }

  ghost predicate AnnounceHandled(before: Sessions, req: Request, address: string, env: Environment, r: Outcome,
      after: Sessions) {
    if !HasDescription(req) then r == Reply(200, Echo(req)) && after == before
    else
      match Sdp.ParseText(req.body)
      case BadNumber => r == Reply(400, Echo(req)) && after == before
      case Panic => r == Crash && after == before
      case Ok(d) =>
        var e := AnnounceEvent(d, address, env);
        if Answered(before, e) then
          after == Next(before, e) && r == Reply(if e.socket.Bound? then 200 else 500, Echo(req))
        else
          && (r == Hang || r == Crash)
          && (exists a :: a in before && a in after && SetUp(before[a]) && FateOfClosing(before[a]) == r)
          && NeverSetUp(before).Items <= after.Items <= before.Items
  }

  predicate SetupHandled(before: Sessions, req: Request, address: string, r: Outcome, after: Sessions) {
    if address in before && AskedPorts(req).Legible? then
      && after == Next(before, Event.Setup(address, AskedPorts(req).asked))
      && r == Reply(200, SetupHeaders(Echo(req), before[address].local.data))
    else r == Crash && after == before
  }

  predicate RecordHandled(before: Sessions, req: Request, address: string, r: Outcome, after: Sessions) {
    if address in before then
      after == Next(before, Event.Record(address)) && r == Reply(200, Echo(req)["Audio-Latency" := "2205"])
    else r == Crash && after == before
  }

  predicate TeardownHandled(before: Sessions, req: Request, address: string, r: Outcome, after: Sessions) {
    if Answered(before, Event.Teardown(address)) then
      after == Next(before, Event.Teardown(address)) && r == Reply(200, Echo(req))
    else after == before && address in before && r == FateOfClosing(before[address])
  }

  /** How each request is answered and what it does to the table. */
  ghost predicate Handled(before: Sessions, req: Request, address: string, env: Environment, r: Outcome,
      after: Sessions) {
    match req.verb
    case Options => r == Reply(200, OptionsHeaders(req, env)) && after == before
    case Announce => AnnounceHandled(before, req, address, env, r, after)
    case Setup => SetupHandled(before, req, address, r, after)
    case Record => RecordHandled(before, req, address, r, after)
    case SetParameter => r == ParameterReply(req, env) && after == before
    case Flush => r == Reply(200, Echo(req)) && after == before
    case Teardown => TeardownHandled(before, req, address, r, after)
    case _ => r == Skipped && after == before
  }

  function ParameterReply(req: Request, env: Environment): Outcome {
    match ParameterOf(req.headers, req.body, env.parseFloat)
    case Fatal => Crash
    case BadRequest => Reply(400, Echo(req))
    case _ => Reply(200, Echo(req))
  }

  /** The player after a request: only SET_PARAMETER reaches it. */
  function PlayerAfter(p: Player, req: Request, env: Environment): Player {
    if req.verb.SetParameter? then Played(p, ParameterOf(req.headers, req.body, env.parseFloat)) else p
  }

  class AirplayServer {
    var sessions: Sessions
    var player: Player

    ghost predicate Valid() reads this {
      Keyed(sessions)
    }

    constructor (player: Player)
      ensures Valid() && sessions == map[] && this.player == player
    {
      sessions, this.player := map[], player;
    }

    /** Closing ends as the close handshake with that many receive loops does. */
    method CloseSession(address: string) returns (r: Protocol.Fate)
      modifies this`sessions
      ensures r == if address !in old(sessions) then Protocol.Served
                   else Protocol.FateOfLoops(old(sessions)[address].receivers, old(sessions)[address].doomed)
      ensures sessions == if r.Served? then old(sessions) - {address} else old(sessions)
    {
      r := Protocol.Served;
      if address in sessions {
        r := Protocol.FateOfLoops(sessions[address].receivers, sessions[address].doomed);
        if r.Served? {
          sessions := sessions - {address};
        }
      }
    }

    /** Closes by remote address: what was never set up stays. */
    method CloseAllSessions() returns (r: Protocol.Fate)
      requires Valid()
      modifies this`sessions
      ensures Valid()
      ensures r.Served? <==> AllClosable(old(sessions))
      ensures r.Served? ==> sessions == NeverSetUp(old(sessions))
      ensures !r.Served? ==>
                exists a :: a in sessions && SetUp(sessions[a]) && !Closable(sessions[a])
                            && Protocol.FateOfLoops(sessions[a].receivers, sessions[a].doomed) == r
      ensures NeverSetUp(old(sessions)).Items <= sessions.Items <= old(sessions).Items
    {
      var all := sessions;
      var rest := all.Keys;
      r := Protocol.Served;
      while rest != {}
        invariant rest <= all.Keys
        invariant r.Served?
        invariant sessions == map a | a in all && (a in rest || !SetUp(all[a])) :: all[a]
        invariant forall a | a in all && a !in rest && SetUp(all[a]) :: Closable(all[a])
        decreases rest
      {
        var a :| a in rest;
        assert all[a].remote.address in sessions ==> SetUp(all[a]);
        r := CloseSession(all[a].remote.address);
        if !r.Served? {
          return;
        }
        rest := rest - {a};
      }
    }

    method HandleAnnounce(req: Request, address: string, env: Environment) returns (r: Outcome)
      requires Valid() && address != ""
      modifies this`sessions
      ensures Valid() && AnnounceHandled(old(sessions), req, address, env, r, sessions)
    {
      var headers := Echo(req);
      if !HasDescription(req) {
        return Reply(200, headers);
      }
      var parsed := Sdp.Parse(req.body);
      if parsed.BadNumber? {
        return Reply(400, headers);
      }
      if parsed.Panic? {
        return Crash;
      }
      var closing := CloseAllSessions();
      if !closing.Served? {
        ghost var a :| a in sessions && SetUp(sessions[a]) && !Closable(sessions[a])
                       && Protocol.FateOfLoops(sessions[a].receivers, sessions[a].doomed) == closing;
        assert (a, sessions[a]) in sessions.Items;
        assert a in old(sessions) && old(sessions)[a] == sessions[a];
      }
      if closing.WaitsForEver? {
        return Hang;
      }
      if closing.Crashes? {
        return Crash;
      }
      if "rsaaeskey" in parsed.value.attributes && !env.keyed {
        return Reply(500, headers);
      }
      if env.socket.Refused? {
        return Reply(500, headers);
      }
      sessions := sessions[address := Announced(parsed.value, env.socket.port)];
      r := Reply(200, headers);
    }

    method HandleSetup(req: Request, address: string) returns (r: Outcome)
      requires Valid() && address != ""
      modifies this`sessions
      ensures Valid() && SetupHandled(old(sessions), req, address, r, sessions)
    {
      var asked := NoTransport;
      if "Transport" in req.headers {
        var ok, control, timing, _ := ReadPorts(req.headers["Transport"], false);
        if !ok {
          return Crash;
        }
        asked := Ports(control, timing);
      }
      if address !in sessions {
        return Crash;
      }
      var s := sessions[address];
      if asked.Ports? {
        s := s.(remote := s.remote.(address := address, control := asked.control, timing := asked.timing));
      }
      s := s.(local := s.local.(control := CONTROL_PORT, timing := TIMING_PORT));
      sessions := sessions[address := s];
      r := Reply(200, SetupHeaders(Echo(req), s.local.data));
    }

    method HandleRecord(req: Request, address: string) returns (r: Outcome)
      requires Valid() && address != ""
      modifies this`sessions
      ensures Valid() && RecordHandled(old(sessions), req, address, r, sessions)
    {
      if address !in sessions {
        return Crash;
      }
      var s := sessions[address];
      sessions := sessions[address := s.(receivers := s.receivers + 1)];
      r := Reply(200, Echo(req)["Audio-Latency" := "2205"]);
    }

    method HandleTeardown(req: Request, address: string) returns (r: Outcome)
      requires Valid()
      modifies this`sessions
      ensures Valid() && TeardownHandled(old(sessions), req, address, r, sessions)
    {
      var closing := CloseSession(address);
      match closing
      case Served => r := Reply(200, Echo(req));
      case WaitsForEver => r := Hang;
      case Crashes => r := Crash;
    }

    method HandleSetParameter(req: Request, env: Environment) returns (r: Outcome)
      modifies this`player
      ensures r == ParameterReply(req, env)
      ensures player == Played(old(player), ParameterOf(req.headers, req.body, env.parseFloat))
    {
      var kind := TypeOf(req.headers);
      r := Reply(200, Echo(req));
      if kind == TRACK_TYPE {
        var data := Daap.ParseDaap(req.body);
        if data.Panic? {
          return Crash;
        }
        player := player.(track := Daap.TrackOf(data.value));
      } else if kind == ART_TYPE {
        player := player.(artwork := req.body);
      } else if kind == TEXT_TYPE && Contains(req.body, "volume") {
        var text := SecondPart(req.body, "volume:");
        if text.None? {
          return Crash;
        }
        r := HandleVolume(req, env.parseFloat(TrimSpace(text.value)));
      }
    }

    method HandleVolume(req: Request, volume: Option<real>) returns (r: Outcome)
      modifies this`player
      ensures r == Reply(if volume.Some? then 200 else 400, Echo(req))
      ensures player == Played(old(player), VolumeOf(req.headers, volume))
    {
      if volume.None? {
        return Reply(400, Echo(req));
      }
      r := Reply(200, Echo(req));
      if "X-BCG-Muted" in req.headers {
        if req.headers["X-BCG-Muted"] == "muted" {
          player := player.(muted := true);
          return;
        }
        player := player.(muted := false);
      }
      player := player.(volume := Volume.NormalizeVolume(volume.value));
    }

    /** The handlers are registered by method. */
    method Handle(req: Request, address: string, env: Environment) returns (r: Outcome)
      requires Valid() && address != ""
      modifies this
      ensures Valid() && Handled(old(sessions), req, address, env, r, sessions)
      ensures player == PlayerAfter(old(player), req, env)
    {
      match req.verb
      case Options => r := Reply(200, OptionsHeaders(req, env));
      case Announce => r := HandleAnnounce(req, address, env);
      case Setup => r := HandleSetup(req, address);
      case Record => r := HandleRecord(req, address);
      case SetParameter => r := HandleSetParameter(req, env);
      case Flush => r := Reply(200, Echo(req));
      case Teardown => r := HandleTeardown(req, address);
      case _ => r := Skipped;
    }
  }

  datatype AskedResult = Legible(asked: Asked) | Illegible

  /** The ports a SETUP request asks for. */
  function AskedPorts(req: Request): AskedResult {
    if "Transport" !in req.headers then Legible(NoTransport)
    else
      var parts := Split(req.headers["Transport"], ';');
      var c, t := PortNamed(parts, "control_port", 0), PortNamed(parts, "timing_port", 0);
      if c.Found? && t.Found? then Legible(Ports(c.port, t.port)) else Illegible
  }

  function SetupHeaders(headers: Headers, data: int): Headers {
    headers["Transport" := ServerTransport(data)]["Session" := "1"]["Audio-Jack-Status" := "connected"]
  }

  // ---------------------------------------------------------------------------
  // Runs
  // ---------------------------------------------------------------------------

  predicate Addressed(e: Event) {
    e.address != ""
  }

  /** Every request of the run is answered; `states` are the tables before and after each. */
  predicate IsRun(states: seq<Sessions>, events: seq<Event>) {
    && |states| == |events| + 1 && states[0] == map[]
    && forall i | 0 <= i < |events| ::
         Addressed(events[i]) && Answered(states[i], events[i]) && states[i + 1] == Next(states[i], events[i])
  }

  lemma NextKeepsKeyed(sessions: Sessions, e: Event)
    requires Keyed(sessions) && Addressed(e) && Answered(sessions, e)
    ensures Keyed(Next(sessions, e))
  {
  }

  /** In every run a session's remote address is empty or its key. */
  lemma {:induction false} RunsStayKeyed(states: seq<Sessions>, events: seq<Event>, i: nat)
    requires IsRun(states, events) && i < |states|
    ensures Keyed(states[i])
  {
    if i > 0 {
      RunsStayKeyed(states, events, i - 1);
      NextKeepsKeyed(states[i - 1], events[i - 1]);
    }
  }

  /** How far the last client has got. */
  datatype Phase = Idle | HasAnnounced(address: string) | HasSetUp(address: string) | HasRecorded(address: string)

  /**
    The order of requests in which each client completes SETUP and RECORD before the next ANNOUNCE,
    with no datagram on which decoding panics.
   */
  predicate MayFollow(p: Phase, e: Event) {
    match e
    case Announce(_, _, _) => p.Idle? || p.HasRecorded?
    case Setup(address, transport) => (p == HasAnnounced(address) && transport.Ports?) || p == HasSetUp(address)
        || p == HasRecorded(address)
    case Record(address) => p == HasSetUp(address)
    case Teardown(address) => p.Idle? || address != p.address || p.HasRecorded?
    case Datagram(_) => false
  }

  function PhaseAfter(p: Phase, e: Event): Phase {
    match e
    case Announce(address, _, socket) => if socket.Bound? then HasAnnounced(address) else Idle
    case Setup(address, _) => if p.HasRecorded? then p else HasSetUp(address)
    case Record(address) => HasRecorded(address)
    case Teardown(address) => if !p.Idle? && p.address == address then Idle else p
    case Datagram(_) => p
  }

  function PhaseOf(events: seq<Event>): Phase {
    if events == [] then Idle else PhaseAfter(PhaseOf(events[..|events| - 1]), events[|events| - 1])
  }

  predicate Orderly(events: seq<Event>) {
    forall i | 0 <= i < |events| :: Addressed(events[i]) && MayFollow(PhaseOf(events[..i]), events[i])
  }

  predicate Loops(s: Session, n: nat) {
    s.receivers == n && !s.doomed
  }

  /** The whole table, as the phase alone determines it. */
  predicate Matches(sessions: Sessions, p: Phase) {
    match p
    case Idle => sessions == map[]
    case HasAnnounced(a) => sessions.Keys == {a} && !SetUp(sessions[a]) && Loops(sessions[a], 0)
    case HasSetUp(a) => sessions.Keys == {a} && SetUp(sessions[a]) && Loops(sessions[a], 0)
    case HasRecorded(a) => sessions.Keys == {a} && SetUp(sessions[a]) && Loops(sessions[a], 1)
  }

  lemma OrderlyStep(sessions: Sessions, p: Phase, e: Event)
    requires Matches(sessions, p) && MayFollow(p, e) && Addressed(e)
    ensures Answered(sessions, e) && Matches(Next(sessions, e), PhaseAfter(p, e))
  {
  }

  /** The table after some requests, as far as they are answered. */
  function After(events: seq<Event>): Option<Sessions> {
    if events == [] then Some(map[])
    else
      var before := After(events[..|events| - 1]);
      var e := events[|events| - 1];
      if before.Some? && Answered(before.value, e) then Some(Next(before.value, e)) else None
  }

  /** Orderly clients are always answered, and there is never more than one session. */
  lemma {:induction false} OrderlyRunsHaveOneSession(events: seq<Event>)
    requires Orderly(events)
    ensures After(events).Some? && Matches(After(events).value, PhaseOf(events))
    ensures |After(events).value| <= 1
  {
    if events != [] {
      var front, e := events[..|events| - 1], events[|events| - 1];
      assert forall i | 0 <= i < |front| :: front[..i] == events[..i];
      OrderlyRunsHaveOneSession(front);
      OrderlyStep(After(front).value, PhaseOf(front), e);
      AtMostOne(After(events).value, PhaseOf(events));
    }
  }

  lemma AtMostOne(sessions: Sessions, p: Phase)
    requires Matches(sessions, p)
    ensures |sessions| <= 1
  {
  }

  /** Set up, but nothing receives: a closer would wait for ever. */
  predicate Stalled(sessions: Sessions, a: string) {
    a in sessions && SetUp(sessions[a]) && sessions[a].receivers == 0
  }

  /**
    A session that is set up but not recorded stays until its RECORD comes: until then no ANNOUNCE
    of anybody and no TEARDOWN of its own has been or would be answered.
   */
  lemma {:induction false} StalledUntilRecord(states: seq<Sessions>, events: seq<Event>, i: nat, j: nat, a: string)
    requires IsRun(states, events) && i <= j < |states| && Stalled(states[i], a)
    requires forall k | i <= k < j :: events[k] != Event.Record(a)
    ensures Stalled(states[j], a)
    ensures forall k | i <= k < j :: !events[k].Announce? && events[k] != Event.Teardown(a)
    ensures forall e: Event | e.Announce? || e == Event.Teardown(a) :: !Answered(states[j], e)
    decreases j
  {
    if i < j {
      StalledUntilRecord(states, events, i, j - 1, a);
      assert Answered(states[j - 1], events[j - 1]);
    }
  }

  /** Nothing helps any more: the next closer brings the process down. */
  predicate Hopeless(sessions: Sessions, a: string) {
    a in sessions && SetUp(sessions[a]) && (sessions[a].receivers > 1 || sessions[a].doomed)
  }

  /** After a second RECORD, or a datagram on which decoding panics, no ANNOUNCE of anybody is answered ever again. */
  lemma {:induction false} HopelessForEver(states: seq<Sessions>, events: seq<Event>, i: nat, j: nat, a: string)
    requires IsRun(states, events) && i <= j < |states| && Hopeless(states[i], a)
    ensures Hopeless(states[j], a)
    ensures forall k | i <= k < j :: !events[k].Announce?
    ensures forall e: Event | e.Announce? :: !Answered(states[j], e)
    decreases j
  {
    if i < j {
      HopelessForEver(states, events, i, j - 1, a);
      assert Answered(states[j - 1], events[j - 1]);
      HopelessStep(states[j - 1], events[j - 1], a);
    }
  }

  lemma HopelessStep(sessions: Sessions, e: Event, a: string)
    requires Hopeless(sessions, a) && Addressed(e) && Answered(sessions, e) && !e.Announce?
    ensures Hopeless(Next(sessions, e), a)
  {
  }

  /** Two requests of one client are enough. */
  lemma StalledRun(a: string, d: Sdp.Description, port: nat, control: int, timing: int)
    returns (states: seq<Sessions>, events: seq<Event>)
    requires a != ""
    ensures events == [Event.Announce(a, d, Bound(port)), Event.Setup(a, Ports(control, timing))]
    ensures IsRun(states, events) && Stalled(states[|events|], a)
  {
    events := [Event.Announce(a, d, Bound(port)), Event.Setup(a, Ports(control, timing))];
    var announced := Next(map[], events[0]);
    states := [map[], announced, Next(announced, events[1])];
  }

  // ---------------------------------------------------------------------------
  // The answers, spelled out
  // ---------------------------------------------------------------------------

  /** Which answers say what went wrong: 400 for what cannot be read, 500 for a missing key or socket. */
  lemma ReplyStatus(before: Sessions, req: Request, address: string, env: Environment, r: Outcome, after: Sessions)
    requires Handled(before, req, address, env, r, after) && r.Reply?
    ensures r.status == 400 <==>
              || (req.verb.Announce? && HasDescription(req) && Sdp.ParseText(req.body).BadNumber?)
              || (req.verb.SetParameter? && ParameterOf(req.headers, req.body, env.parseFloat).BadRequest?)
    ensures r.status == 500 <==>
              && req.verb.Announce? && HasDescription(req) && Sdp.ParseText(req.body).Ok?
              && (env.socket.Refused? || ("rsaaeskey" in Sdp.ParseText(req.body).value.attributes && !env.keyed))
    ensures r.status == 200 || r.status == 400 || r.status == 500
  {
  }

  /** Requests without a handler get no answer and change nothing. */
  lemma Unhandled(before: Sessions, req: Request, address: string, env: Environment, r: Outcome, after: Sessions)
    requires Handled(before, req, address, env, r, after)
    ensures r == Skipped <==> req.verb in {Describe, GetParameter, Play, Pause, Redirect}
    ensures r == Skipped ==> after == before
  {
  }

  /** OPTIONS lists the methods, and answers a challenge if there is one. */
  lemma OptionsAnswer(req: Request, env: Environment)
    requires forall i | 0 <= i < |env.listing| :: Sdp.Word(UpperName(env.listing[i]))
    ensures var h := OptionsHeaders(req, env);
            && h.Keys == {"CSeq", "Public"} + (if "Apple-Challenge" in req.headers then {"Apple-Response"} else {})
            && Sdp.Fields(h["Public"]) == Names(env.listing)
            && ("Apple-Challenge" in req.headers ==> h["Apple-Response"] == env.challengeAnswer)
  {
    OptionsKeys();
    Sdp.FieldsOfSpaced(Names(env.listing));
  }

  lemma OptionsKeys()
    ensures "CSeq" != "Public" && "CSeq" != "Apple-Response" && "Public" != "Apple-Response"
  {
    assert |"CSeq"| == 4 && |"Public"| == 6 && |"Apple-Response"| == 14;
  }

  /** SETUP and RECORD answer with these headers and no others. */
  lemma SetupAnswers(req: Request, data: int)
    ensures SetupHeaders(Echo(req), data) - {"CSeq"}
         == map["Transport" := ServerTransport(data), "Session" := "1", "Audio-Jack-Status" := "connected"]
  {
    SetupKeys();
  }

  lemma SetupKeys()
    ensures "CSeq" != "Transport" && "CSeq" != "Session" && "CSeq" != "Audio-Jack-Status"
    ensures "Transport" != "Session" && "Transport" != "Audio-Jack-Status" && "Session" != "Audio-Jack-Status"
  {
    assert |"CSeq"| == 4 && |"Transport"| == 9 && |"Session"| == 7 && |"Audio-Jack-Status"| == 17;
  }

  lemma RecordAnswers(before: Sessions, req: Request, address: string, env: Environment, r: Outcome, after: Sessions)
    requires req.verb.Record? && Handled(before, req, address, env, r, after) && r.Reply?
    ensures r.headers - {"CSeq"} == map["Audio-Latency" := "2205"]
  {
    assert |"CSeq"| == 4 && |"Audio-Latency"| == 13;
  }

  /** Nobody else's session changes, except that an ANNOUNCE closes all that were set up. */
  lemma OthersKept(sessions: Sessions, e: Event, a: string)
    requires Answered(sessions, e) && a != e.address
    ensures a in Next(sessions, e) <==> a in sessions && (e.Announce? ==> sessions[a].remote.address == "")
    ensures a in Next(sessions, e) ==> Next(sessions, e)[a] == sessions[a]
  {
  }

  /** A new session has the announced description and its data port, and nothing else yet. */
  lemma OwnSession(sessions: Sessions, e: Event)
    requires Answered(sessions, e) && e.Announce?
    ensures if e.socket.Refused? then e.address in Next(sessions, e) ==> !SetUp(sessions[e.address])
            else var s := Next(sessions, e)[e.address];
              && s.description == e.description && s.local.data == e.socket.port
              && s.remote.address == "" && s.receivers == 0 && !s.doomed
  {
  }
}
