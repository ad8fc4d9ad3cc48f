/** What a SET_PARAMETER request asks of the player (raop/airplay.go:298-342). */
module PlayerControl {
  import opened Wrappers
  import opened GoText
  import opened Transport
  import Daap
  import Volume

  datatype Player = Player(track: Daap.Track, artwork: string, muted: bool, volume: real)

  /** The call on the player, or why there is none. */
  datatype Parameter =
    | SetTrack(track: Daap.Track)
    | SetAlbumArt(artwork: string)
    | Mute
    | SetVolume(unmute: bool, volume: real)
    | Ignored
    | BadRequest
    | Fatal        // the original panics

  /** strconv.ParseFloat with 32 bits. */
  type FloatParser = string -> Option<real>

  /** The position of the first `sub`. */
  function Find(s: string, sub: string): (i: Option<nat>)
    ensures i.Some? ==> i.value + |sub| <= |s|
  {
    if sub <= s then Some(0)
    else if s == "" then None
    else match Find(s[1..], sub)
      case Some(i) => Some(i + 1)
      case None => None
  }

  /** strings.Split(s, sub)[1]: what follows the first `sub`, up to the next. */
  function SecondPart(s: string, sub: string): Option<string> {
    match Find(s, sub)
    case None => None
    case Some(i) =>
      var rest := s[i + |sub|..];
      match Find(rest, sub)
      case None => Some(rest)
      case Some(j) => Some(rest[..j])
  }

  const TRACK_TYPE := "application/x-dmap-tagged"
  const ART_TYPE := "image/jpeg"
  const TEXT_TYPE := "text/parameters"

  function TypeOf(headers: map<string, string>): string {
    if "Content-Type" in headers then headers["Content-Type"] else ""
  }

  function ParameterOf(headers: map<string, string>, body: string, parse: FloatParser): Parameter {
    var kind := TypeOf(headers);
    if kind == TRACK_TYPE then
      (match Daap.Parse(body) case Ok(fields) => SetTrack(Daap.TrackOf(fields)) case Panic => Fatal)
    else if kind == ART_TYPE then SetAlbumArt(body)
    else if kind == TEXT_TYPE && Contains(body, "volume") then
      (match SecondPart(body, "volume:")
       case None => Fatal
       case Some(text) => VolumeOf(headers, parse(TrimSpace(text))))
    else Ignored
  }

  /** Muting is enough: the volume itself is then not set. */
  function VolumeOf(headers: map<string, string>, volume: Option<real>): Parameter {
    if volume.None? then BadRequest
    else if "X-BCG-Muted" in headers && headers["X-BCG-Muted"] == "muted" then Mute
    else SetVolume("X-BCG-Muted" in headers, Volume.NormalizeVolume(volume.value))
  }

  function Played(p: Player, c: Parameter): Player {
    match c
    case SetTrack(track) => p.(track := track)
    case SetAlbumArt(artwork) => p.(artwork := artwork)
    case Mute => p.(muted := true)
    case SetVolume(unmute, volume) => p.(muted := p.muted && !unmute, volume := volume)
    case _ => p
  }

  // ---------------------------------------------------------------------------
  // A printed volume
  // ---------------------------------------------------------------------------

  /** The text of a number, as "%f" prints it. */
  predicate Numeral(s: string) {
    s != "" && forall i | 0 <= i < |s| :: IsDigit(s[i]) || s[i] == '.' || s[i] == '-'
  }

  lemma {:induction false} NotFound(s: string, sub: string, c: char)
    requires c in sub && c !in s
    ensures Find(s, sub) == None
  {
    if sub <= s {
      PrefixHas(sub, s, c);
    }
    if s != "" {
      NotFound(s[1..], sub, c);
    }
  }

  /** The number is found behind its name. */
  lemma VolumeText(text: string)
    requires Numeral(text)
    ensures Contains("volume: " + text, "volume")
    ensures SecondPart("volume: " + text, "volume:") == Some(" " + text) && TrimSpace(" " + text) == text
  {
    var body := "volume: " + text;
    assert body == "volume:" + (" " + text);
    assert "volume:" <= body && "volume" <= body;
    assert body[7..] == " " + text;
    assert 'v' !in " " + text;
    NotFound(" " + text, "volume:", 'v');
    TrimLeftOf(" ", text, SPACES);
    TrimRightOf(text, "", SPACES);
    assert text + "" == text;
  }

  // ---------------------------------------------------------------------------
  // What each kind of request does to the player
  // ---------------------------------------------------------------------------

  lemma KindsApart()
    ensures "text/parameters" != "application/x-dmap-tagged" && "text/parameters" != "image/jpeg"
    ensures "image/jpeg" != "application/x-dmap-tagged"
  {
    assert |"text/parameters"| == 15 && |"application/x-dmap-tagged"| == 25 && |"image/jpeg"| == 10;
  }

  /** A volume: "muted" mutes and nothing else, any other value unmutes and sets it, no value just sets it. */
  lemma VolumeRequest(headers: map<string, string>, text: string, parse: FloatParser, p: Player)
    requires "Content-Type" in headers && headers["Content-Type"] == "text/parameters"
    requires Numeral(text) && parse(text).Some?
    ensures var now, volume :=
            Played(p, ParameterOf(headers, "volume: " + text, parse)), Volume.NormalizeVolume(parse(text).value);
            if "X-BCG-Muted" !in headers then now == p.(volume := volume)
            else if headers["X-BCG-Muted"] == "muted" then now == p.(muted := true)
            else now == p.(muted := false, volume := volume)
  {
    KindsApart();
    VolumeText(text);
    VolumeRequestParsed(headers, "volume: " + text, text, parse);
  }

  lemma VolumeRequestParsed(headers: map<string, string>, body: string, text: string, parse: FloatParser)
    requires "Content-Type" in headers && headers["Content-Type"] == TEXT_TYPE
    requires TEXT_TYPE != TRACK_TYPE && TEXT_TYPE != ART_TYPE
    requires Contains(body, "volume") && SecondPart(body, "volume:") == Some(" " + text)
            && TrimSpace(" " + text) == text
    ensures ParameterOf(headers, body, parse) == VolumeOf(headers, parse(text))
  {
  }

  /** A volume that is no number is refused and changes nothing. */
  lemma BadVolumeRequest(headers: map<string, string>, text: string, parse: FloatParser, p: Player)
    requires "Content-Type" in headers && headers["Content-Type"] == "text/parameters"
    requires Numeral(text) && parse(text).None?
    ensures ParameterOf(headers, "volume: " + text, parse) == BadRequest
    ensures Played(p, ParameterOf(headers, "volume: " + text, parse)) == p
  {
    KindsApart();
    VolumeText(text);
    VolumeRequestParsed(headers, "volume: " + text, text, parse);
  }

  /** A picture becomes the artwork, and nothing else changes. */
  lemma ArtworkRequest(headers: map<string, string>, body: string, parse: FloatParser, p: Player)
    requires "Content-Type" in headers && headers["Content-Type"] == "image/jpeg"
    ensures Played(p, ParameterOf(headers, body, parse)) == p.(artwork := body)
  {
    KindsApart();
  }

  /** Track information becomes the track, and nothing else changes. */
  lemma TrackRequest(headers: map<string, string>, padding: string, items: seq<Daap.Item>, parse: FloatParser,
      p: Player)
    requires "Content-Type" in headers && headers["Content-Type"] == "application/x-dmap-tagged"
    requires |padding| == 8 && forall j | 0 <= j < |items| :: Daap.GoodItem(items[j])
    ensures var now := Played(p, ParameterOf(headers, padding + Daap.AllBytes(items), parse));
            && now.track.album == Daap.LastData(items, "asal") && now.track.artist == Daap.LastData(items, "asar")
            && now.track.title == Daap.LastData(items, "minm")
            && now == p.(track := now.track)
  {
    Daap.ParsedTrack(padding, items);
  }

  /** Everything else is ignored. */
  lemma OtherRequest(headers: map<string, string>, body: string, parse: FloatParser, p: Player)
    requires "Content-Type" in headers ==>
               && headers["Content-Type"] != "application/x-dmap-tagged" && headers["Content-Type"] != "image/jpeg"
               && (headers["Content-Type"] == "text/parameters" ==> !Contains(body, "volume"))
    ensures ParameterOf(headers, body, parse) == Ignored && Played(p, Ignored) == p
  {
  }

  lemma {:induction false} FindAfter(before: string, sub: string, rest: string)
    requires sub != "" && sub[0] !in before
    ensures Find(before + sub + rest, sub) == Some(|before|)
  {
    var s := before + sub + rest;
    if before == "" {
      assert s == sub + rest;
    } else {
      assert s[0] == before[0];
      assert s[1..] == before[1..] + sub + rest;
      FindAfter(before[1..], sub, rest);
    }
  }

  /** Of a body with the marker more than once, the text between the first two counts. */
  lemma SecondPartBetween(before: string, text: string, after: string, sub: string)
    requires sub != "" && sub[0] !in before && sub[0] !in text
    ensures SecondPart(before + sub + (text + sub + after), sub) == Some(text)
    ensures SecondPart(before + sub + text, sub) == Some(text)
    ensures SecondPart(before, sub) == None
  {
    FindAfter(before, sub, text + sub + after);
    FindAfter(text, sub, after);
    assert (before + sub + (text + sub + after))[|before| + |sub|..] == text + sub + after;
    assert (text + sub + after)[..|text|] == text;
    FindAfter(before, sub, text);
    assert (before + sub + text)[|before| + |sub|..] == text;
    NotFound(text, sub, sub[0]);
    NotFound(before, sub, sub[0]);
  }
}
