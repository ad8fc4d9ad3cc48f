/** One request and its response over the wire (rtsp/server.go, rtsp/client.go). */
module Server {
  import opened GoText
  import opened GoMaps
  import opened Rtsp
  import opened RtspRoundTrip
  import opened Transport
  import opened Airplay
  import Sdp

  // ---------------------------------------------------------------------------
  // Every response that a handler builds can be read back
  // ---------------------------------------------------------------------------

  predicate GoodReply(headers: Headers) {
    GoodHeaders(headers) && "Content-Length" !in headers
  }

  predicate GoodEnvironment(env: Environment) {
    GoodField(env.challengeAnswer)
  }

  lemma GoodReplyMore(headers: Headers, name: string, value: string)
    requires GoodReply(headers) && GoodField(name) && GoodField(value) && name != "Content-Length"
    ensures GoodReply(headers[name := value])
  {
  }

  lemma GoodReplyThrice(headers: Headers, a: string, x: string, b: string, y: string, c: string, z: string)
    requires GoodReply(headers) && GoodField(a) && GoodField(x) && GoodField(b) && GoodField(y) && GoodField(c)
            && GoodField(z)
    requires a != "Content-Length" && b != "Content-Length" && c != "Content-Length"
    ensures GoodReply(headers[a := x][b := y][c := z])
  {
  }

  lemma GoodEcho(req: Request)
    requires GoodHeaders(req.headers)
    ensures GoodReply(Echo(req)) && "CSeq" in Echo(req)
  {
  }

  predicate Plain(s: string) {
    s != "" && forall i | 0 <= i < |s| :: s[i] != ':' && s[i] !in SPACES
  }

  lemma NamesPlain(m: Method)
    ensures Plain(UpperName(m))
  {
  }

  lemma {:induction false} SpacedGood(words: seq<string>)
    requires forall i | 0 <= i < |words| :: Plain(words[i])
    ensures GoodField(Sdp.Spaced(words)) && (words != [] ==> Sdp.Spaced(words) != "")
  {
    if |words| > 1 {
      SpacedGood(words[1..]);
      var s := Sdp.Spaced(words);
      assert s == words[0] + " " + Sdp.Spaced(words[1..]);
      assert s[0] == words[0][0];
    }
  }

  lemma GoodOptions(req: Request, env: Environment)
    requires GoodHeaders(req.headers) && GoodEnvironment(env)
    ensures GoodReply(OptionsHeaders(req, env))
  {
    GoodEcho(req);
    forall i | 0 <= i < |env.listing| ensures Plain(Names(env.listing)[i]) {
      NamesPlain(env.listing[i]);
    }
    SpacedGood(Names(env.listing));
    assert |"Public"| == 6;
    GoodReplyMore(Echo(req), "Public", Sdp.Spaced(Names(env.listing)));
    assert "Apple-Response"[0] == 'A';
    GoodReplyMore(Echo(req)["Public" := Sdp.Spaced(Names(env.listing))], "Apple-Response", env.challengeAnswer);
  }

  lemma {:induction false} JoinedGood(parts: seq<string>)
    requires parts != [] && forall i | 0 <= i < |parts| :: Joinable(parts[i])
    ensures GoodField(Joined(parts, ';')) && Joined(parts, ';') != ""
  {
    if |parts| > 1 {
      JoinedGood(parts[1..]);
      var s := Joined(parts, ';');
      assert s[0] == parts[0][0];
    }
  }

  predicate Joinable(s: string) {
    s != "" && GoodField(s)
  }

  lemma LabelledJoinable(name: string, n: int)
    requires name != "" && ':' !in name && '\n' !in name && name[0] !in SPACES
    ensures Joinable(Labelled(name, n))
  {
  }

  lemma WordsJoinable()
    ensures Joinable("RTP/AVP/UDP") && Joinable("unicast") && Joinable("interleaved=0-1") && Joinable("mode=record")
  {
  }

  lemma ServerPartJoinable(data: int, i: nat)
    requires i < 6
    ensures Joinable(ServerParts(data)[i])
  {
    if i < 3 {
      WordsJoinable();
    } else if i == 3 {
      LabelledJoinable("server_port", data);
    } else if i == 4 {
      LabelledJoinable("control_port", CONTROL_PORT);
    } else {
      LabelledJoinable("timing_port", TIMING_PORT);
    }
  }

  lemma ClientPartJoinable(control: int, timing: int, i: nat)
    requires i < 6
    ensures Joinable(ClientParts(control, timing)[i])
  {
    if i < 4 {
      WordsJoinable();
    } else if i == 4 {
      LabelledJoinable("control_port", control);
    } else {
      LabelledJoinable("timing_port", timing);
    }
  }

  lemma GoodServerTransport(data: int)
    ensures GoodField(ServerTransport(data))
  {
    forall i | 0 <= i < 6 ensures Joinable(ServerParts(data)[i]) {
      ServerPartJoinable(data, i);
    }
    JoinedGood(ServerParts(data));
  }

  lemma GoodClientTransport(control: int, timing: int)
    ensures GoodField(ClientTransport(control, timing))
  {
    forall i | 0 <= i < 6 ensures Joinable(ClientParts(control, timing)[i]) {
      ClientPartJoinable(control, timing, i);
    }
    JoinedGood(ClientParts(control, timing));
  }

  lemma SetupWords()
    ensures GoodField("Transport") && GoodField("Session") && GoodField("1")
    ensures GoodField("Audio-Jack-Status") && GoodField("connected")
    ensures "Transport" != "Content-Length" && "Session" != "Content-Length" && "Audio-Jack-Status" != "Content-Length"
  {
    assert |"Transport"| == 9 && |"Session"| == 7 && |"Audio-Jack-Status"| == 17;
  }

  lemma GoodSetup(headers: Headers, data: int)
    requires GoodReply(headers)
    ensures GoodReply(SetupHeaders(headers, data))
  {
    GoodServerTransport(data);
    SetupWords();
    GoodReplyThrice(headers, "Transport", ServerTransport(data), "Session", "1", "Audio-Jack-Status", "connected");
  }

  lemma GoodRecord(headers: Headers)
    requires GoodReply(headers)
    ensures GoodReply(headers["Audio-Latency" := "2205"])
  {
  }

  lemma ReplyIsGood(before: Sessions, req: Request, address: string, env: Environment, r: Outcome, after: Sessions)
    requires GoodHeaders(req.headers) && GoodEnvironment(env)
    requires Handled(before, req, address, env, r, after) && r.Reply?
    ensures GoodReply(r.headers) && r.status in STATUSES
  {
    GoodEcho(req);
    match req.verb
    case Options => GoodOptions(req, env);
    case Setup => GoodSetup(Echo(req), before[address].local.data);
    case Record => GoodRecord(Echo(req));
    case _ =>
  }

  /** No handler touches the sequence number. */
  lemma ReplyEchoes(before: Sessions, req: Request, address: string, env: Environment, r: Outcome, after: Sessions)
    requires Handled(before, req, address, env, r, after) && r.Reply?
    ensures "CSeq" in r.headers
    ensures r.headers["CSeq"] == if "CSeq" in req.headers then req.headers["CSeq"] else ""
  {
    assert |"CSeq"| == 4 && |"Public"| == 6 && |"Apple-Response"| == 14;
    assert |"Transport"| == 9 && |"Session"| == 7 && |"Audio-Jack-Status"| == 17 && |"Audio-Latency"| == 13;
  }

  // ---------------------------------------------------------------------------
  // The server's side of a connection
  // ---------------------------------------------------------------------------

  /** What the server sends: a response, or nothing because it closed the connection or gives no answer. */
  datatype Sent = Text(text: string) | Nothing

  /** One round of the read loop: read a request, have it handled, write the response. */
  method Serve(server: AirplayServer, input: string, address: string, env: Environment, phrases: Phrases)
    returns (out: Sent, ghost r: Outcome)
    requires server.Valid() && address != "" && GoodEnvironment(env) && OneWordPhrases(phrases)
    modifies server
    ensures server.Valid()
    ensures ParseRequest(input).Err? ==> out.Nothing? && server.sessions == old(server.sessions)
    ensures ParseRequest(input).Ok? ==>
              && Handled(old(server.sessions), ParseRequest(input).value, address, env, r, server.sessions)
              && server.player == PlayerAfter(old(server.player), ParseRequest(input).value, env)
              && out.Text? == r.Reply?
    ensures ParseRequest(input).Ok? && r.Reply? && CleanStart(ParseRequest(input).value.protocol) ==>
              ParseResponse(out.text) == Ok(Response(ParseRequest(input).value.protocol, r.status, r.headers, ""))
  {
    r := Skipped;
    var parsed := ReadRequest(input);
    if parsed.Err? {
      return Nothing, r;
    }
    var req := parsed.value;
    var outcome := server.Handle(req, address, env);
    r := outcome;
    if !outcome.Reply? {
      return Nothing, r;
    }
    ParsedRequestIsWellFormed(input);
    ReplyIsGood(old(server.sessions), req, address, env, outcome, server.sessions);
    var response := Response(req.protocol, outcome.status, outcome.headers, "");
    var text := WriteResponse(response, phrases);
    if CleanStart(req.protocol) {
      ResponseReads(response, phrases, text);
    }
    out := Text(text);
  }

  lemma ResponseReads(r: Response, phrases: Phrases, text: string)
    requires WellFormedResponse(r) && r.body == "" && OneWordPhrases(phrases)
    requires exists order :: Enumerates(order, r.headers.Keys) && text == ResponseText(r, phrases, order)
    ensures ParseResponse(text) == Ok(r)
  {
    var order :| Enumerates(order, r.headers.Keys) && text == ResponseText(r, phrases, order);
    ResponseRoundTrip(r, phrases, order, "");
    assert text + "" == text;
  }

  lemma RequestReads(r: Request, text: string)
    requires WellFormedRequest(r) && |r.body| <= MAX_INT
    requires exists order :: Enumerates(order, r.headers.Keys) && text == RequestText(r, order)
    ensures ParseRequest(text) == Ok(SeenRequest(r))
  {
    var order :| Enumerates(order, r.headers.Keys) && text == RequestText(r, order);
    RequestRoundTrip(r, order, "");
    assert text + "" == text;
  }

  // ---------------------------------------------------------------------------
  // The client's side
  // ---------------------------------------------------------------------------

  /** The request with the two headers that every request of a client carries. */
  function Numbered(request: Request, number: int): Request {
    request.(headers := request.headers["CSeq" := Itoa(number)]["User-Agent" := "Bobcaygeon/1.0"])
  }

  /** A request that the client may be given to send. */
  predicate Sendable(r: Request) {
    && WellFormedRequest(r) && CleanStart(r.protocol)
    && "Content-Length" !in r.headers && |r.body| <= MAX_INT
  }

  lemma SendableMore(r: Request, name: string, value: string)
    requires Sendable(r) && GoodField(name) && GoodField(value) && name != "Content-Length"
    ensures Sendable(r.(headers := r.headers[name := value]))
  {
  }

  lemma ItoaIsGood(n: int)
    ensures GoodField(Itoa(n))
  {
  }

  lemma ClientWords()
    ensures GoodField("CSeq") && GoodField("User-Agent") && GoodField("Bobcaygeon/1.0")
    ensures "CSeq" != "User-Agent" && "CSeq" != "Content-Length" && "User-Agent" != "Content-Length"
  {
    assert |"CSeq"| == 4 && |"User-Agent"| == 10 && |"Content-Length"| == 14;
  }

  lemma NumberedSendable(r: Request, n: int)
    requires Sendable(r)
    ensures Sendable(Numbered(r, n))
    ensures "CSeq" in Numbered(r, n).headers && Numbered(r, n).headers["CSeq"] == Itoa(n)
  {
    ItoaIsGood(n);
    ClientWords();
    SendableMore(r, "CSeq", Itoa(n));
    SendableMore(r.(headers := r.headers["CSeq" := Itoa(n)]), "User-Agent", "Bobcaygeon/1.0");
  }

  /** What became of a request: a response was read, or none came. */
  datatype Received = Got(response: Response) | Lost

  datatype Exchange = Exchange(verb: Method, cseq: string)

  class Connection {
    var next: int
    /** The requests that were answered so far, with the sequence number in the response. */
    ghost var log: seq<Exchange>

    constructor ()
      ensures next == 1 && log == []
    {
      next, log := 1, [];
    }

    /** The server at the other end sees the client under `address`. */
    method Send(request: Request, server: AirplayServer, address: string, env: Environment, phrases: Phrases)
      returns (r: Received, ghost reply: Outcome)
      requires server.Valid() && address != "" && GoodEnvironment(env) && OneWordPhrases(phrases) && Sendable(request)
      modifies this, server
      ensures server.Valid() && next == old(next) + 1
      ensures Handled(old(server.sessions), SeenRequest(Numbered(request, old(next))), address, env, reply,
              server.sessions)
      ensures server.player == PlayerAfter(old(server.player), SeenRequest(Numbered(request, old(next))), env)
      ensures r == if reply.Reply? then Got(Response(request.protocol, reply.status, reply.headers, "")) else Lost
      ensures log == if reply.Reply? then old(log) + [Exchange(request.verb, Itoa(old(next)))] else old(log)
    {
      var numbered := Numbered(request, next);
      NumberedSendable(request, next);
      next := next + 1;
      r, reply := Transmit(numbered, server, address, env, phrases);
      if r.Got? {
        log := log + [Exchange(request.verb, r.response.headers["CSeq"])];
      }
    }
  }

  /** One request and its response as text. */
  method Transmit(request: Request, server: AirplayServer, address: string, env: Environment, phrases: Phrases)
    returns (r: Received, ghost reply: Outcome)
    requires server.Valid() && address != "" && GoodEnvironment(env) && OneWordPhrases(phrases)
    requires Sendable(request) && "CSeq" in request.headers
    modifies server
    ensures server.Valid()
    ensures Handled(old(server.sessions), SeenRequest(request), address, env, reply, server.sessions)
    ensures server.player == PlayerAfter(old(server.player), SeenRequest(request), env)
    ensures r == if reply.Reply? then Got(Response(request.protocol, reply.status, reply.headers, "")) else Lost
    ensures reply.Reply? ==> "CSeq" in reply.headers && reply.headers["CSeq"] == request.headers["CSeq"]
  {
    var text := WriteRequest(request);
    RequestReads(request, text);
    var out;
    out, reply := Serve(server, text, address, env, phrases);
    if out.Nothing? {
      return Lost, reply;
    }
    SeenNumber(request);
    ReplyEchoes(old(server.sessions), SeenRequest(request), address, env, reply, server.sessions);
    var parsed := ReadResponse(out.text);
    r := Got(parsed.value);
  }

  lemma SeenNumber(r: Request)
    requires "CSeq" in r.headers
    ensures "CSeq" in SeenRequest(r).headers && SeenRequest(r).headers["CSeq"] == r.headers["CSeq"]
  {
  }

  /** The two headers of every request. */
  lemma NumberedHeaders(r: Request, number: int)
    requires r.headers == map[]
    ensures Numbered(r, number).headers == map["CSeq" := Itoa(number), "User-Agent" := "Bobcaygeon/1.0"]
  {
    ClientWords();
  }
}
