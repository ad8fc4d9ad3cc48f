/**
  Tracks and volumes on their way to the next speaker, in SET_PARAMETER requests
  (player/forwarding/forwardingPlayer.go:149-177, 234-270; raop/airplay.go:298-342).
 */
module Forwarding {
  import opened Wrappers
  import opened GoText
  import opened GoMaps
  import opened Rtsp
  import opened RtspRoundTrip
  import opened Server
  import opened Airplay
  import opened PlayerControl
  import Handshake
  import Daap
  import Sdp
  import SdpRoundTrip
  import Volume

  function ParameterRequest(local: string, id: string, kind: string, body: string): Request {
    Request(Method.SetParameter, Handshake.Uri(local, id), Handshake.PROTOCOL, map["Content-Type" := kind], body)
  }

  /** A request that carries parameters of some kind to the player. */
  predicate Carries(r: Request, kind: string) {
    TypeOf(r.headers) == kind && "X-BCG-Muted" !in r.headers
  }

  lemma TypeWords()
    ensures GoodField("Content-Type") && "Content-Type" != "Content-Length"
    ensures "Content-Type" != "CSeq" && "Content-Type" != "User-Agent"
  {
    assert |"Content-Type"| == 12 && |"Content-Length"| == 14 && |"CSeq"| == 4 && |"User-Agent"| == 10;
  }

  lemma KindWords()
    ensures GoodField(TRACK_TYPE) && GoodField(TEXT_TYPE)
  {
  }

  lemma MutedWords()
    ensures "X-BCG-Muted" != "Content-Type" && "X-BCG-Muted" != "Content-Length"
    ensures "X-BCG-Muted" != "CSeq" && "X-BCG-Muted" != "User-Agent"
  {
    assert |"X-BCG-Muted"| == 11 && |"Content-Type"| == 12 && |"Content-Length"| == 14;
    assert |"CSeq"| == 4 && |"User-Agent"| == 10;
  }

  predicate Encodable(t: Daap.Track) {
    |t.album| < Daap.LIMIT && |t.artist| < Daap.LIMIT && |t.title| < Daap.LIMIT
  }

  lemma {:induction false} WrittenLength(m: Daap.Fields, order: seq<string>)
    requires forall k | k in order :: k in m && m[k].Text? && |m[k].s| < Daap.LIMIT
    requires Daap.Written(m, order).Ok?
    ensures |Daap.Written(m, order).value| <= 8 + |order| * (Daap.LIMIT + 8)
  {
    if order != [] {
      var front, k := order[..|order| - 1], order[|order| - 1];
      WrittenLength(m, front);
      if Daap.KnownName(k) {
        Daap.TablesAgree(k);
      }
    }
  }

  lemma TrackLength(t: Daap.Track, order: seq<string>)
    requires Encodable(t) && Enumerates(order, Daap.TrackFields(t).Keys) && Daap.Written(Daap.TrackFields(t), order).Ok?
    ensures |Daap.Written(Daap.TrackFields(t), order).value| <= MAX_INT
  {
    var keys := Daap.TrackFields(t).Keys;
    EnumeratesLength(order, keys);
    ThreeKeys(Daap.SONG_ALBUM.name, Daap.ITEM_NAME.name, Daap.SONG_ARTIST.name, keys);
    WrittenLength(Daap.TrackFields(t), order);
  }

  lemma ThreeKeys(a: string, b: string, c: string, keys: set<string>)
    requires keys == {a, b, c}
    ensures |keys| <= 3
  {
  }

  lemma ParameterSendable(local: string, id: string, kind: string, body: string)
    requires Sdp.Word(local) && Sdp.Word(id) && GoodField(kind) && |body| <= MAX_INT
    ensures Sendable(ParameterRequest(local, id, kind, body))
  {
    Handshake.GoodUri(local, id);
    Handshake.GoodProtocol();
    TypeWords();
  }

  lemma KindKept(r: Request, kind: string, number: int)
    requires r.headers == map["Content-Type" := kind]
    ensures Carries(SeenRequest(Numbered(r, number)), kind) && SeenRequest(Numbered(r, number)).body == r.body
  {
    TypeWords();
    MutedWords();
  }

  /** The request that carries a track, as the connection numbers it. */
  function Carrier(local: string, now: int, number: int, body: string): Request {
    Numbered(ParameterRequest(local, Itoa(now), TRACK_TYPE, body), number)
  }

  /**
    Whatever the order in which the map and the headers are walked and whatever follows the request,
    the handler at the other end is asked to set exactly the track that was sent.
   */
  lemma TrackArrives(
    t: Daap.Track, order: seq<string>, local: string, now: int, number: int, fields: seq<string>, rest: string,
    parse: FloatParser)
    requires Encodable(t) && Handshake.IpText(local) && Enumerates(order, Daap.TrackFields(t).Keys)
    ensures Daap.Written(Daap.TrackFields(t), order).Ok?
    ensures var carrier := Carrier(local, now, number, Daap.Written(Daap.TrackFields(t), order).value);
            Enumerates(fields, carrier.headers.Keys) ==>
              var seen := ParseRequest(RequestText(carrier, fields) + rest);
              && seen.Ok? && seen.value.verb == Method.SetParameter
              && ParameterOf(seen.value.headers, seen.value.body, parse) == SetTrack(t)
  {
    Daap.TrackForwardingIsLossless(t, order);
    TrackLength(t, order);
    RequestArrives(local, now, number, Daap.Written(Daap.TrackFields(t), order).value, fields, rest);
  }

  lemma RequestArrives(local: string, now: int, number: int, body: string, fields: seq<string>, rest: string)
    requires Handshake.IpText(local) && |body| <= MAX_INT
    ensures var carrier := Carrier(local, now, number, body);
            Enumerates(fields, carrier.headers.Keys) ==>
              var seen := ParseRequest(RequestText(carrier, fields) + rest);
              && seen.Ok? && seen.value.verb == Method.SetParameter
              && Carries(seen.value, TRACK_TYPE) && seen.value.body == body
  {
    var plain := ParameterRequest(local, Itoa(now), TRACK_TYPE, body);
    SdpRoundTrip.ItoaIsWord(now);
    KindWords();
    ParameterSendable(local, Itoa(now), TRACK_TYPE, body);
    NumberedSendable(plain, number);
    KindKept(plain, TRACK_TYPE, number);
    if Enumerates(fields, Numbered(plain, number).headers.Keys) {
      RequestRoundTrip(Numbered(plain, number), fields, rest);
    }
  }

  // ---------------------------------------------------------------------------
  // The two calls of the forwarding player, for one session
  // ---------------------------------------------------------------------------

  /** What a body of some kind asks for. */
  function Asks(kind: string, body: string, parse: FloatParser): Parameter {
    ParameterOf(map["Content-Type" := kind], body, parse)
  }

  lemma AsksTheSame(r: Request, kind: string, parse: FloatParser)
    requires Carries(r, kind)
    ensures ParameterOf(r.headers, r.body, parse) == Asks(kind, r.body, parse)
  {
    MutedWords();
  }

  /** Sends parameters of one kind; the player at the other end does what they ask for. */
  method SendParameter(
    connection: Connection, server: AirplayServer, local: string, now: int, kind: string, body: string,
    env: Environment, phrases: Phrases)
    returns (r: Received)
    requires Handshake.Linked(server, local, env, phrases) && GoodField(kind) && |body| <= MAX_INT
    modifies connection, server
    ensures server.Valid() && server.sessions == old(server.sessions)
    ensures server.player == Played(old(server.player), Asks(kind, body, env.parseFloat))
    ensures r.Lost? <==> Asks(kind, body, env.parseFloat).Fatal?
  {
    SdpRoundTrip.ItoaIsWord(now);
    var request := ParameterRequest(local, Itoa(now), kind, body);
    ParameterSendable(local, Itoa(now), kind, body);
    KindKept(request, kind, connection.next);
    AsksTheSame(SeenRequest(Numbered(request, connection.next)), kind, env.parseFloat);
    var received, reply := connection.Send(request, server, local, env, phrases);
    r := received;
  }

  /** SetTrack: the next speaker's player ends with exactly the same track. */
  method ForwardTrack(
    connection: Connection, server: AirplayServer, local: string, now: int, t: Daap.Track, env: Environment,
        phrases: Phrases)
    returns (r: Received)
    requires Handshake.Linked(server, local, env, phrases) && Encodable(t)
    modifies connection, server
    ensures r.Got? && server.Valid() && server.sessions == old(server.sessions)
    ensures server.player == old(server.player).(track := t)
  {
    var body := Daap.EncodeDaap(Daap.TrackFields(t));
    ghost var order :| Enumerates(order, Daap.TrackFields(t).Keys) && body == Daap.Written(Daap.TrackFields(t), order);
    Daap.TrackForwardingIsLossless(t, order);
    TrackLength(t, order);
    KindWords();
    AsksForTrack(body.value, t, env.parseFloat);
    r := SendParameter(connection, server, local, now, TRACK_TYPE, body.value, env, phrases);
  }

  lemma AsksForTrack(body: string, t: Daap.Track, parse: FloatParser)
    requires Daap.Parse(body).Ok? && Daap.TrackOf(Daap.Parse(body).value) == t
    ensures Asks(TRACK_TYPE, body, parse) == SetTrack(t)
  {
  }

  /** `text` prints a number with "%f"; parsing what it prints is rounding it twice. */
  ghost predicate Prints(text: real -> string, show: Volume.Rounding, parse: Volume.Rounding, parseFloat: FloatParser) {
    forall x | -144.0 <= x <= 0.0 ::
      Numeral(text(x)) && |text(x)| <= 1000 && parseFloat(text(x)) == Some(parse(show(x)))
  }

  /** SetVolume: the next speaker's player ends one hop further, and is neither muted nor unmuted. */
  method ForwardVolume(
    connection: Connection, server: AirplayServer, local: string, now: int, vol: real, text: real -> string,
    ghost show: Volume.Rounding, ghost parse: Volume.Rounding, env: Environment, phrases: Phrases)
    returns (r: Received)
    requires Handshake.Linked(server, local, env, phrases) && Prints(text, show, parse, env.parseFloat)
    requires 0.0 <= vol <= 1.0
    modifies connection, server
    ensures r.Got? && server.Valid() && server.sessions == old(server.sessions)
    ensures server.player == old(server.player).(volume := Volume.Hop(show, parse, vol))
  {
    var printed := text(Volume.PrepareVolume(vol));
    KindWords();
    AsksForVolume(printed, env.parseFloat);
    r := SendParameter(connection, server, local, now, TEXT_TYPE, "volume: " + printed, env, phrases);
  }

  lemma AsksForVolume(printed: string, parseFloat: FloatParser)
    requires Numeral(printed) && parseFloat(printed).Some?
    ensures Asks(TEXT_TYPE, "volume: " + printed, parseFloat)
         == SetVolume(false, Volume.NormalizeVolume(parseFloat(printed).value))
  {
    VolumeText(printed);
    KindsDiffer();
    MutedWords();
  }

  lemma KindsDiffer()
    ensures TEXT_TYPE != TRACK_TYPE && TEXT_TYPE != ART_TYPE
  {
    assert |TEXT_TYPE| == 15 && |TRACK_TYPE| == 25 && |ART_TYPE| == 10;
  }

  // ---------------------------------------------------------------------------
  // Muting
  // ---------------------------------------------------------------------------

  function MuteRequest(local: string, id: string, value: string, body: string): Request {
    Request(Method.SetParameter, Handshake.Uri(local, id), Handshake.PROTOCOL,
            map["Content-Type" := TEXT_TYPE]["X-BCG-Muted" := value], body)
  }

  lemma MuteWords()
    ensures GoodField("X-BCG-Muted") && GoodField("muted") && GoodField("unmuted") && "muted" != "unmuted"
  {
    assert |"muted"| == 5 && |"unmuted"| == 7;
  }

  lemma MuteSendable(local: string, id: string, value: string, body: string)
    requires Sdp.Word(local) && Sdp.Word(id) && GoodField(value) && |body| <= MAX_INT
    ensures Sendable(MuteRequest(local, id, value, body))
  {
    KindWords();
    MuteWords();
    MutedWords();
    ParameterSendable(local, id, TEXT_TYPE, body);
    SendableMore(ParameterRequest(local, id, TEXT_TYPE, body), "X-BCG-Muted", value);
  }

  /** The handler sees the content type and the mute header as they were sent. */
  lemma MuteKept(r: Request, value: string, number: int)
    requires r.headers == map["Content-Type" := TEXT_TYPE]["X-BCG-Muted" := value]
    ensures var seen := SeenRequest(Numbered(r, number));
            && "Content-Type" in seen.headers && seen.headers["Content-Type"] == TEXT_TYPE
            && "X-BCG-Muted" in seen.headers && seen.headers["X-BCG-Muted"] == value
            && seen.body == r.body && seen.verb == r.verb
  {
    TypeWords();
    MutedWords();
  }

  /**
    SetMuteForSpeaker: muting mutes the player and keeps its volume; unmuting unmutes it and sets it
    to full volume, whatever it was before.
   */
  method ForwardMute(
    connection: Connection, server: AirplayServer, local: string, now: int, isMuted: bool, text: real -> string,
    ghost show: Volume.Rounding, ghost parse: Volume.Rounding, env: Environment, phrases: Phrases)
    returns (r: Received)
    requires Handshake.Linked(server, local, env, phrases) && Prints(text, show, parse, env.parseFloat)
    requires Volume.PrintsSixDecimals(show) && Volume.ParsesFloat32(parse)
    modifies connection, server
    ensures server.Valid() && server.sessions == old(server.sessions)
    ensures isMuted ==> server.player == old(server.player).(muted := true)
    ensures !isMuted ==> server.player == old(server.player).(muted := false, volume := 1.0)
  {
    SdpRoundTrip.ItoaIsWord(now);
    MuteWords();
    var value := if isMuted then "muted" else "unmuted";
    var printed := text(if isMuted then -144.0 else 0.0);
    var request := MuteRequest(local, Itoa(now), value, "volume: " + printed);
    MuteSendable(local, Itoa(now), value, "volume: " + printed);
    MuteKept(request, value, connection.next);
    ghost var seen := SeenRequest(Numbered(request, connection.next));
    VolumeRequest(seen.headers, printed, env.parseFloat, server.player);
    ZeroIsFull(show, parse);
    var received, reply := connection.Send(request, server, local, env, phrases);
    r := received;
  }

  lemma ZeroIsFull(show: Volume.Rounding, parse: Volume.Rounding)
    requires Volume.PrintsSixDecimals(show) && Volume.ParsesFloat32(parse)
    ensures Volume.NormalizeVolume(parse(show(0.0))) == 1.0
  {
    Volume.WholeNumber(0);
    Volume.PrintsExactly(show, 0.0);
    Volume.ParsesExactly(parse, 0.0);
  }

  /** SetAlbumArt: the next speaker's player ends with exactly the same picture. */
  method ForwardAlbumArt(
    connection: Connection, server: AirplayServer, local: string, now: int, artwork: string, env: Environment,
    phrases: Phrases)
    returns (r: Received)
    requires Handshake.Linked(server, local, env, phrases) && |artwork| <= MAX_INT
    modifies connection, server
    ensures r.Got? && server.Valid() && server.sessions == old(server.sessions)
    ensures server.player == old(server.player).(artwork := artwork)
  {
    ArtWords();
    AsksForArtwork(artwork, env.parseFloat);
    r := SendParameter(connection, server, local, now, ART_TYPE, artwork, env, phrases);
  }

  lemma ArtWords()
    ensures GoodField(ART_TYPE)
  {
  }

  lemma AsksForArtwork(artwork: string, parse: FloatParser)
    ensures Asks(ART_TYPE, artwork, parse) == SetAlbumArt(artwork)
  {
    KindsApart();
  }
}
