/** The client's handshake with a server (raop/client.go): OPTIONS, ANNOUNCE, SETUP, RECORD. */
module Handshake {
  import opened GoText
  import opened GoMaps
  import opened Rtsp
  import opened RtspRoundTrip
  import opened Transport
  import opened Airplay
  import opened Server
  import Sdp
  import SdpRoundTrip

  /** The control and timing ports that every client names. */
  const CLIENT_CONTROL := 8888
  const CLIENT_TIMING := 8889

  /** The text of an IP address. */
  predicate IpText(s: string) {
    Sdp.Word(s) && |s| <= 1000
  }

  // ---------------------------------------------------------------------------
  // The description
  // ---------------------------------------------------------------------------

  function DescriptionOf(local: string, now: int): Sdp.Description {
    Sdp.EMPTY.(
      origin := Sdp.Origin("bcp", Itoa(now), "0", "IN", "IP4", local),
      connect := Sdp.ConnectData("IN", "IP4", local),
      timing := Sdp.Timing(0, 0),
      media := [Sdp.Media("audio", "0", "RTP/AVP", "96")],
      attributes := map["rtpmap" := "96 AppleLossless"])
  }

  lemma OriginGood(local: string, now: int)
    requires IpText(local)
    ensures SdpRoundTrip.OriginWords(DescriptionOf(local, now).origin)
    ensures SdpRoundTrip.ConnectWords(DescriptionOf(local, now).connect)
  {
  }

  lemma MediaGood(local: string, now: int)
    ensures SdpRoundTrip.GoodMedia(DescriptionOf(local, now).media)
  {
  }

  lemma AttributesGood(local: string, now: int)
    ensures SdpRoundTrip.GoodAttributes(DescriptionOf(local, now).attributes)
  {
  }

  lemma DescriptionGood(local: string, now: int)
    requires IpText(local)
    ensures SdpRoundTrip.GoodFields(DescriptionOf(local, now))
  {
    OriginGood(local, now);
    MediaGood(local, now);
    AttributesGood(local, now);
  }

  lemma {:induction false} SpacedLength(words: seq<string>, bound: nat)
    requires forall i | 0 <= i < |words| :: |words[i]| <= bound
    ensures |Sdp.Spaced(words)| <= |words| * (bound + 1)
  {
    if |words| > 1 {
      SpacedLength(words[1..], bound);
    }
  }

  lemma ThreeDigits(n: nat)
    ensures |Digits(n)| <= 3 + |Digits(n / 1000)|
  {
    assert n / 10 / 10 / 10 == n / 1000;
    assert |Digits(n)| <= 1 + |Digits(n / 10)|;
    assert |Digits(n / 10)| <= 1 + |Digits(n / 10 / 10)|;
  }

  lemma ItoaLength(n: int)
    requires MIN_INT <= n <= MAX_INT
    ensures |Itoa(n)| <= 20
  {
    var a := if n < 0 then -n else n;
    ThreeDigits(a);
    ThreeDigits(a / 1000);
    ThreeDigits(a / 1000 / 1000);
    ThreeDigits(a / 1000 / 1000 / 1000);
    ThreeDigits(a / 1000 / 1000 / 1000 / 1000);
    ThreeDigits(a / 1000 / 1000 / 1000 / 1000 / 1000);
  }

  lemma OriginFits(o: Sdp.Origin)
    requires |o.username| <= 1000 && |o.sessionId| <= 1000 && |o.sessionVersion| <= 1000
    requires |o.netType| <= 1000 && |o.addrType| <= 1000 && |o.unicastAddress| <= 1000
    ensures SdpRoundTrip.Fits(Sdp.Text('o', Sdp.OriginValue(o)))
  {
    SpacedLength([o.username, o.sessionId, o.sessionVersion, o.netType, o.addrType, o.unicastAddress], 1000);
  }

  lemma ConnectFits(c: Sdp.ConnectData)
    requires |c.netType| <= 1000 && |c.addrType| <= 1000 && |c.connectionAddress| <= 1000
    ensures SdpRoundTrip.Fits(Sdp.Text('c', Sdp.ConnectValue(c)))
  {
    SpacedLength([c.netType, c.addrType, c.connectionAddress], 1000);
  }

  lemma MediaFits(m: Sdp.Media)
    requires |m.media| <= 1000 && |m.port| <= 1000 && |m.proto| <= 1000 && |m.fmt| <= 1000
    ensures SdpRoundTrip.Fits(Sdp.Text('m', Sdp.MediaValue(m)))
  {
    SpacedLength([m.media, m.port, m.proto, m.fmt], 1000);
  }

  lemma NumbersFit()
    ensures SdpRoundTrip.Fits(Sdp.Text('v', Itoa(0)))
            && SdpRoundTrip.Fits(Sdp.Text('t', Sdp.TimingValue(Sdp.Timing(0, 0))))
  {
  }

  lemma DescriptionFits(local: string, now: int)
    requires IpText(local) && MIN_INT <= now <= MAX_INT
    ensures SdpRoundTrip.LinesFit(DescriptionOf(local, now))
  {
    var d := DescriptionOf(local, now);
    ItoaLength(now);
    OriginFits(d.origin);
    ConnectFits(d.connect);
    MediaFits(d.media[0]);
    NumbersFit();
  }

  lemma {:induction false} LinesLength(texts: seq<string>)
    requires forall i | 0 <= i < |texts| :: SdpRoundTrip.Fits(texts[i])
    ensures |Sdp.Lines(texts)| <= |texts| * (Sdp.MAX_LINE + 1)
  {
    if texts != [] {
      LinesLength(texts[1..]);
    }
  }

  /** The printed description is a body that can be sent, and it is read back. */
  lemma DescriptionSent(local: string, now: int, body: string)
    requires IpText(local) && MIN_INT <= now <= MAX_INT
    requires exists order :: Enumerates(order, DescriptionOf(local, now).attributes.Keys)
                             && body == Sdp.Lines(Sdp.Texts(DescriptionOf(local, now), order))
    ensures |body| <= MAX_INT && Sdp.ParseText(body) == Sdp.Ok(DescriptionOf(local, now))
  {
    var d := DescriptionOf(local, now);
    var order :| Enumerates(order, d.attributes.Keys) && body == Sdp.Lines(Sdp.Texts(d, order));
    DescriptionGood(local, now);
    DescriptionFits(local, now);
    SdpRoundTrip.RoundTrip(d, order);
    SdpRoundTrip.TextsFit(d, order);
    LinesLength(Sdp.Texts(d, order));
    EnumeratesLength(order, d.attributes.Keys);
  }

  // ---------------------------------------------------------------------------
  // The requests
  // ---------------------------------------------------------------------------

  const PROTOCOL := "RTSP/1.0"

  function Uri(local: string, id: string): string {
    "rtsp://" + local + "/" + id
  }

  function OptionsRequest(): Request {
    Request(Method.Options, "*", PROTOCOL, map[], "")
  }

  function AnnounceRequest(local: string, id: string, body: string): Request {
    Request(Method.Announce, Uri(local, id), PROTOCOL, map["Content-Type" := "application/sdp"], body)
  }

  function SetupRequest(local: string, id: string): Request {
    Request(Method.Setup, Uri(local, id), PROTOCOL,
        map["Transport" := ClientTransport(CLIENT_CONTROL, CLIENT_TIMING)], "")
  }

  function RecordRequest(local: string, id: string): Request {
    Request(Method.Record, Uri(local, id), PROTOCOL, map[], "")
  }

  lemma GoodProtocol()
    ensures LinePart(PROTOCOL) && CleanStart(PROTOCOL) && CleanEnd(PROTOCOL)
  {
  }

  lemma GoodUri(local: string, id: string)
    requires Sdp.Word(local) && Sdp.Word(id)
    ensures LinePart(Uri(local, id))
  {
  }

  lemma PlainSendable(verb: Method, uri: string)
    requires verb != Redirect && LinePart(uri)
    ensures Sendable(Request(verb, uri, PROTOCOL, map[], ""))
  {
  }

  lemma OptionsSendable()
    ensures Sendable(OptionsRequest())
  {
  }

  lemma ContentTypeWords()
    ensures GoodField("Content-Type") && GoodField("application/sdp") && "Content-Type" != "Content-Length"
  {
  }

  lemma AnnounceSendable(local: string, id: string, body: string)
    requires Sdp.Word(local) && Sdp.Word(id) && |body| <= MAX_INT
    ensures Sendable(AnnounceRequest(local, id, body))
  {
    GoodUri(local, id);
    GoodProtocol();
    ContentTypeWords();
  }

  lemma SetupSendable(local: string, id: string)
    requires Sdp.Word(local) && Sdp.Word(id)
    ensures Sendable(SetupRequest(local, id))
  {
    GoodUri(local, id);
    PlainSendable(Method.Setup, Uri(local, id));
    GoodClientTransport(CLIENT_CONTROL, CLIENT_TIMING);
    SetupWords();
    SendableMore(Request(Method.Setup, Uri(local, id), PROTOCOL, map[], ""), "Transport",
        ClientTransport(CLIENT_CONTROL, CLIENT_TIMING));
  }

  lemma RecordSendable(local: string, id: string)
    requires Sdp.Word(local) && Sdp.Word(id)
    ensures Sendable(RecordRequest(local, id))
  {
    GoodUri(local, id);
    PlainSendable(Method.Record, Uri(local, id));
  }

  // ---------------------------------------------------------------------------
  // What the server makes of them
  // ---------------------------------------------------------------------------

  lemma AnnounceSeen(r: Request, number: int)
    requires r.headers == map["Content-Type" := "application/sdp"]
    ensures var seen := SeenRequest(Numbered(r, number));
            HasDescription(seen) && seen.body == r.body && seen.verb == r.verb
  {
  }

  lemma SetupSeen(r: Request, number: int)
    requires r.headers == map["Transport" := ClientTransport(CLIENT_CONTROL, CLIENT_TIMING)] && r.body == ""
    ensures AskedPorts(SeenRequest(Numbered(r, number))) == Legible(Ports(CLIENT_CONTROL, CLIENT_TIMING))
  {
    TransportKept(r, number);
    ClientPortsRead(CLIENT_CONTROL, CLIENT_TIMING);
  }

  lemma TransportKept(r: Request, number: int)
    requires "Transport" in r.headers && r.body == ""
    ensures var seen := SeenRequest(Numbered(r, number));
            "Transport" in seen.headers && seen.headers["Transport"] == r.headers["Transport"]
  {
  }

  lemma SetupAnswer(headers: Headers, data: int)
    ensures var h := SetupHeaders(headers, data); "Transport" in h && h["Transport"] == ServerTransport(data)
  {
  }

  method MakeAnnounce(local: string, now: int) returns (r: Request, d: Sdp.Description)
    requires IpText(local) && MIN_INT <= now <= MAX_INT
    ensures d == DescriptionOf(local, now) && Sdp.Word(d.origin.sessionId) && "rsaaeskey" !in d.attributes
    ensures Sendable(r) && r.verb == Method.Announce && r.headers == map["Content-Type" := "application/sdp"]
    ensures Sdp.ParseText(r.body) == Sdp.Ok(d)
  {
    d := DescriptionOf(local, now);
    SdpRoundTrip.ItoaIsWord(now);
    var body := Sdp.Write(d);
    DescriptionSent(local, now, body);
    AnnounceSendable(local, Itoa(now), body);
    NoKey(local, now);
    r := AnnounceRequest(local, Itoa(now), body);
  }

  lemma NoKey(local: string, now: int)
    ensures "rsaaeskey" !in DescriptionOf(local, now).attributes
  {
  }

  method MakeSetup(local: string, id: string) returns (r: Request)
    requires Sdp.Word(local) && Sdp.Word(id)
    ensures Sendable(r) && r.verb == Method.Setup
    ensures forall number ::
            AskedPorts(SeenRequest(Numbered(r, number))) == Legible(Ports(CLIENT_CONTROL, CLIENT_TIMING))
  {
    r := SetupRequest(local, id);
    SetupSendable(local, id);
    forall number ensures AskedPorts(SeenRequest(Numbered(r, number)))
        == Legible(Ports(CLIENT_CONTROL, CLIENT_TIMING)) {
      SetupSeen(r, number);
    }
  }

  /** The client's reading of the answer to SETUP. */
  method ReadAnswer(headers: Headers, ghost before: Headers, ghost port: nat)
    returns (legible: bool, control: int, timing: int, data: int)
    requires headers == SetupHeaders(before, port) && port <= 65535
    ensures legible && control == CONTROL_PORT && timing == TIMING_PORT && data == port
  {
    SetupAnswer(before, port);
    ServerPortsRead(port);
    var transport := if "Transport" in headers then headers["Transport"] else "";
    legible, control, timing, data := ReadPorts(transport, true);
  }

  lemma AnnounceOutcome(
    before: Sessions, seen: Request, address: string, d: Sdp.Description, env: Environment, r: Outcome, after: Sessions)
    requires seen.verb == Method.Announce && Handled(before, seen, address, env, r, after)
    requires HasDescription(seen) && Sdp.ParseText(seen.body) == Sdp.Ok(d) && "rsaaeskey" !in d.attributes
    ensures r.Reply? && r.status == 200 <==> env.socket.Bound? && AllClosable(before)
    ensures r.Reply? && r.status == 200 ==> after == NeverSetUp(before)[address := Announced(d, env.socket.port)]
  {
  }

  // ---------------------------------------------------------------------------
  // The four steps
  // ---------------------------------------------------------------------------

  /** What every step needs of the two ends. */
  ghost predicate Linked(server: AirplayServer, local: string, env: Environment, phrases: Phrases)
    reads server
  {
    server.Valid() && GoodEnvironment(env) && OneWordPhrases(phrases) && IpText(local)
  }

  method OptionsStep(connection: Connection, server: AirplayServer, local: string, env: Environment,
      phrases: Phrases) returns (ok: bool)
    requires Linked(server, local, env, phrases)
    modifies connection, server
    ensures ok && server.Valid() && server.sessions == old(server.sessions)
    ensures connection.next == old(connection.next) + 1
    ensures connection.log == old(connection.log) + [Exchange(Method.Options, Itoa(old(connection.next)))]
  {
    OptionsSendable();
    var r, reply := connection.Send(OptionsRequest(), server, local, env, phrases);
    ok := r.Got? && r.response.status == 200;
  }

  /** Succeeds exactly when the server can close every session that was set up and gets a socket. */
  method AnnounceStep(connection: Connection, server: AirplayServer, local: string, now: int, env: Environment,
      phrases: Phrases)
    returns (ok: bool, d: Sdp.Description)
    requires Linked(server, local, env, phrases) && MIN_INT <= now <= MAX_INT
    modifies connection, server
    ensures server.Valid() && d == DescriptionOf(local, now) && Sdp.Word(d.origin.sessionId)
    ensures connection.next == old(connection.next) + 1
    ensures ok == (env.socket.Bound? && AllClosable(old(server.sessions)))
    ensures ok ==> server.sessions == NeverSetUp(old(server.sessions))[local := Announced(d, env.socket.port)]
    ensures ok ==> connection.log == old(connection.log) + [Exchange(Method.Announce, Itoa(old(connection.next)))]
  {
    var request;
    request, d := MakeAnnounce(local, now);
    AnnounceSeen(request, connection.next);
    ghost var seen := SeenRequest(Numbered(request, connection.next));
    var r, reply := connection.Send(request, server, local, env, phrases);
    AnnounceOutcome(old(server.sessions), seen, local, d, env, reply, server.sessions);
    ok := r.Got? && r.response.status == 200;
  }

  /** The ports that the client reads are the server's. */
  method SetupStep(connection: Connection, server: AirplayServer, local: string, id: string, env: Environment,
      phrases: Phrases)
    returns (ok: bool, control: int, timing: int, data: int)
    requires Linked(server, local, env, phrases) && Sdp.Word(id)
    requires local in server.sessions && 0 <= server.sessions[local].local.data <= 65535
    modifies connection, server
    ensures ok && server.Valid() && connection.next == old(connection.next) + 1
    ensures connection.log == old(connection.log) + [Exchange(Method.Setup, Itoa(old(connection.next)))]
    ensures server.sessions == Next(old(server.sessions), Event.Setup(local, Ports(CLIENT_CONTROL, CLIENT_TIMING)))
    ensures control == CONTROL_PORT && timing == TIMING_PORT && data == old(server.sessions)[local].local.data
  {
    control, timing, data := 0, 0, 0;
    var request := MakeSetup(local, id);
    ghost var seen := SeenRequest(Numbered(request, connection.next));
    var r, reply := connection.Send(request, server, local, env, phrases);
    ok := r.Got? && r.response.status == 200;
    if ok {
      ok, control, timing, data := ReadAnswer(r.response.headers, Echo(seen), old(server.sessions)[local].local.data);
    }
  }

  method RecordStep(connection: Connection, server: AirplayServer, local: string, id: string, env: Environment,
      phrases: Phrases)
    returns (ok: bool)
    requires Linked(server, local, env, phrases) && Sdp.Word(id) && local in server.sessions
    modifies connection, server
    ensures ok && server.Valid() && connection.next == old(connection.next) + 1
    ensures connection.log == old(connection.log) + [Exchange(Method.Record, Itoa(old(connection.next)))]
    ensures server.sessions == Next(old(server.sessions), Event.Record(local))
  {
    RecordSendable(local, id);
    var r, reply := connection.Send(RecordRequest(local, id), server, local, env, phrases);
    ok := r.Got? && r.response.status == 200;
  }

  // ---------------------------------------------------------------------------
  // The state machine
  // ---------------------------------------------------------------------------

  datatype State = Initial | Announcing | SettingUp | Recording | Done

  /** The order of the exchanges, each with the sequence number in the response. */
  function Transcript(n: nat): seq<Exchange>
    requires n <= 4
  {
    [Exchange(Method.Options, Itoa(1)), Exchange(Method.Announce, Itoa(2)),
     Exchange(Method.Setup, Itoa(3)), Exchange(Method.Record, Itoa(4))][..n]
  }

  /** The server's session after ANNOUNCE, SETUP and RECORD. */
  function SessionAfter(state: State, local: string, d: Sdp.Description, port: nat): Session {
    var announced := Announced(d, port);
    var setUp := SetUpWith(announced, local, Ports(CLIENT_CONTROL, CLIENT_TIMING));
    match state
    case Recording => setUp
    case Done => setUp.(receivers := 1)
    case _ => announced
  }

  class StateMachine {
    const connection: Connection
    const server: AirplayServer
    const local: string
    const address: string
    const now: int
    const env: Environment
    const phrases: Phrases
    var current: State
    var description: Sdp.Description
    var remote: PortSet

    constructor (server: AirplayServer, local: string, address: string, now: int, env: Environment, phrases: Phrases)
      ensures this.server == server && this.local == local && this.address == address
      ensures this.now == now && this.env == env && this.phrases == phrases
      ensures current == Initial && fresh(connection) && connection.next == 1 && connection.log == []
    {
      this.server, this.local, this.address, this.now, this.env, this.phrases :=
          server, local, address, now, env, phrases;
      connection := new Connection();
      current, description, remote := Initial, Sdp.EMPTY, NO_PORTS.(address := address);
    }

    ghost predicate Ready() reads server {
      && Linked(server, local, env, phrases)
      && MIN_INT <= now <= MAX_INT && (env.socket.Bound? ==> env.socket.port <= 65535)
    }

    /** How far both ends are, when the server started with the sessions `start`. */
    ghost predicate Progress(start: Sessions)
      reads this, connection, server
    {
      && Ready()
      && match current
         case Initial => connection.next == 1 && connection.log == [] && server.sessions == start
         case Announcing => connection.next == 2 && connection.log == Transcript(1) && server.sessions == start
         case SettingUp => connection.next == 3 && connection.log == Transcript(2) && OnServer(start)
         case Recording => connection.next == 4 && connection.log == Transcript(3) && OnServer(start) && Connected()
         case Done => connection.next == 5 && connection.log == Transcript(4) && OnServer(start) && Connected()
    }

    ghost predicate OnServer(start: Sessions)
      reads this, server
    {
      && Accepts(start) && Sdp.Word(description.origin.sessionId)
      && server.sessions == NeverSetUp(start)[local := SessionAfter(current, local, description, env.socket.port)]
    }

    ghost predicate Connected()
      reads this
    {
      env.socket.Bound? && remote == PortSet(address, CONTROL_PORT, TIMING_PORT, env.socket.port)
    }

    /** The server can take the announcement: it can close every session that was set up, and it gets a socket. */
    ghost predicate Accepts(start: Sessions) {
      env.socket.Bound? && AllClosable(start)
    }

    method SendOptions(ghost start: Sessions) returns (ok: bool)
      requires Progress(start) && current.Initial?
      modifies this, connection, server
      ensures ok && Progress(start) && current.Announcing?
    {
      ok := OptionsStep(connection, server, local, env, phrases);
      if ok {
        current := Announcing;
      }
    }

    method SendAnnounce(ghost start: Sessions) returns (ok: bool)
      requires Progress(start) && current.Announcing?
      modifies this, connection, server
      ensures ok == Accepts(start)
      ensures ok ==> Progress(start) && current.SettingUp? && description == DescriptionOf(local, now)
    {
      ok, description := AnnounceStep(connection, server, local, now, env, phrases);
      if ok {
        current := SettingUp;
      }
    }

    method SendSetup(ghost start: Sessions) returns (ok: bool)
      requires Progress(start) && current.SettingUp?
      modifies this, connection, server
      ensures ok && Progress(start) && current.Recording? && description == old(description)
    {
      var control, timing, data;
      ok, control, timing, data := SetupStep(connection, server, local, description.origin.sessionId, env, phrases);
      if ok {
        remote := PortSet(address, control, timing, data);
        current := Recording;
      }
    }

    method SendRecord(ghost start: Sessions) returns (ok: bool)
      requires Progress(start) && current.Recording?
      modifies this, connection, server
      ensures ok && Progress(start) && current.Done? && description == old(description)
    {
      ok := RecordStep(connection, server, local, description.origin.sessionId, env, phrases);
      if ok {
        current := Done;
      }
    }

    /** One transition; the machine goes on until the state is Done or a request fails. */
    method Transition(ghost start: Sessions) returns (ok: bool)
      requires Progress(start) && !current.Done?
      modifies this, connection, server
      ensures ok ==> Progress(start)
      ensures ok && !current.Announcing? ==>
              description == if old(current).Announcing? then DescriptionOf(local, now) else old(description)
      ensures ok == (old(current).Announcing? ==> Accepts(start))
      ensures ok ==> current == match old(current)
                                case Initial => Announcing
                                case Announcing => SettingUp
                                case SettingUp => Recording
                                case _ => Done
    {
      match current
      case Initial => ok := SendOptions(start);
      case Announcing => ok := SendAnnounce(start);
      case SettingUp => ok := SendSetup(start);
      case Recording => ok := SendRecord(start);
    }
  }

  /** What the client holds at the end. */
  datatype ClientSession = ClientSession(description: Sdp.Description, remote: PortSet)

  datatype Established = Established(session: ClientSession) | Failed

  /** Both ends hold the same description and each other's ports, and the server receives. */
  predicate Agree(client: ClientSession, server: Session, local: string) {
    && client.description == server.description
    && client.remote.data == server.local.data
    && client.remote.control == server.local.control
    && client.remote.timing == server.local.timing
    && server.remote == PortSet(local, 8888, 8889, 0) && client.remote.control == 6001 && client.remote.timing == 6002
    && server.receivers == 1 && !server.doomed
  }

  /**
    The handshake succeeds exactly when the server can close every session that was set up and gets a
    data socket, whatever else it holds. `log` is what was sent and answered.
   */
  method EstablishSession(server: AirplayServer, local: string, address: string, now: int, env: Environment,
      phrases: Phrases)
    returns (r: Established, ghost log: seq<Exchange>)
    requires Linked(server, local, env, phrases) && MIN_INT <= now <= MAX_INT
    requires env.socket.Bound? ==> env.socket.port <= 65535
    modifies server
    ensures r.Established? <==> env.socket.Bound? && AllClosable(old(server.sessions))
    ensures r.Established? ==>
              && log == [Exchange(Method.Options, Itoa(1)), Exchange(Method.Announce, Itoa(2)),
                         Exchange(Method.Setup, Itoa(3)), Exchange(Method.Record, Itoa(4))]
              && local in server.sessions
              && server.sessions == NeverSetUp(old(server.sessions))[local := server.sessions[local]]
              && server.sessions[local].local.data == env.socket.port
              && r.session.remote.address == address
              && r.session.description == DescriptionOf(local, now)
              && Agree(r.session, server.sessions[local], local)
  {
    ghost var start := server.sessions;
    var machine := new StateMachine(server, local, address, now, env, phrases);
    while !machine.current.Done?
      invariant fresh(machine) && fresh(machine.connection)
      invariant machine.server == server && machine.local == local && machine.address == address
      invariant machine.now == now && machine.env == env && machine.phrases == phrases
      invariant machine.Progress(start)
      invariant machine.current.Initial? || machine.current.Announcing? ||
                (machine.Accepts(start) && machine.description == DescriptionOf(local, now))
      decreases StepsLeft(machine.current)
    {
      var ok := machine.Transition(start);
      if !ok {
        return Failed, machine.connection.log;
      }
    }
    log := machine.connection.log;
    r := Established(ClientSession(machine.description, machine.remote));
  }

  function StepsLeft(state: State): nat {
    match state
    case Initial => 4
    case Announcing => 3
    case SettingUp => 2
    case Recording => 1
    case Done => 0
  }

  // ---------------------------------------------------------------------------
  // On the wire
  // ---------------------------------------------------------------------------

  /** The first lines of the four requests. */
  lemma RequestLines(local: string, id: string, body: string)
    ensures RequestLine(OptionsRequest()) == "OPTIONS" + " " + "*" + " " + "RTSP/1.0"
    ensures RequestLine(AnnounceRequest(local, id, body))
            == "ANNOUNCE" + " " + ("rtsp://" + local + "/" + id) + " " + "RTSP/1.0"
    ensures RequestLine(SetupRequest(local, id)) == "SETUP" + " " + ("rtsp://" + local + "/" + id) + " " + "RTSP/1.0"
    ensures RequestLine(RecordRequest(local, id)) == "RECORD" + " " + ("rtsp://" + local + "/" + id) + " " + "RTSP/1.0"
  {
  }

  /** The headers that they carry besides the two of every request. */
  lemma RequestHeaders(local: string, id: string, body: string)
    ensures OptionsRequest().headers == map[] && RecordRequest(local, id).headers == map[]
    ensures AnnounceRequest(local, id, body).headers == map["Content-Type" := "application/sdp"]
    ensures SetupRequest(local, id).headers == map["Transport" :=
              Six("RTP/AVP/UDP", "unicast", "interleaved=0-1", "mode=record", "control_port=8888", "timing_port=8889")]
  {
    ClientTransportText();
  }

  lemma NumberTexts()
    ensures Sdp.Text('v', Itoa(0)) == "v=0" && Sdp.Text('t', Sdp.TimingValue(Sdp.Timing(0, 0))) == "t=0 0"
  {
    assert Itoa(0) == "0";
    SdpRoundTrip.TwoSpaced("0", "0");
  }

  lemma AddressTexts(local: string, now: int)
    ensures Sdp.Text('o', Sdp.OriginValue(DescriptionOf(local, now).origin))
         == "o=" + ("bcp" + " " + (Itoa(now) + " " + ("0" + " " + ("IN" + " " + ("IP4" + " " + local)))))
    ensures Sdp.Text('c', Sdp.ConnectValue(DescriptionOf(local, now).connect))
            == "c=" + ("IN" + " " + ("IP4" + " " + local))
  {
    SdpRoundTrip.SixSpaced("bcp", Itoa(now), "0", "IN", "IP4", local);
    SdpRoundTrip.FourSpaced("IN", "IP4", local, "");
  }

  lemma MediaText()
    ensures Sdp.Text('m', Sdp.MediaValue(Sdp.Media("audio", "0", "RTP/AVP", "96")))
         == "m=" + ("audio" + " " + ("0" + " " + ("RTP/AVP" + " " + "96")))
  {
    SdpRoundTrip.FourSpaced("audio", "0", "RTP/AVP", "96");
  }

  /** The announced description, line by line. */
  lemma AnnouncedHead(local: string, now: int)
    ensures Sdp.HeadTexts(DescriptionOf(local, now))
         == ["v=0",
             "o=" + ("bcp" + " " + (Itoa(now) + " " + ("0" + " " + ("IN" + " " + ("IP4" + " " + local))))),
             "s=",
             "c=" + ("IN" + " " + ("IP4" + " " + local)),
             "t=0 0"]
  {
    NumberTexts();
    AddressTexts(local, now);
    assert Sdp.Text('s', "") == "s=";
  }

  lemma AnnouncedTail(local: string, now: int)
    ensures var d := DescriptionOf(local, now);
            && Sdp.MediaTexts(d.media) == ["m=" + ("audio" + " " + ("0" + " " + ("RTP/AVP" + " " + "96")))]
            && d.attributes == map["rtpmap" := "96 AppleLossless"] && Sdp.Text('i', d.information) == "i="
  {
    MediaText();
  }
}
