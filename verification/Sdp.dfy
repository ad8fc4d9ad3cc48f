/** Session descriptions (sdp/parser.go, sdp/sdp.go; section 5 of RFC 4566): the parser and the printer. */
module Sdp {
  import opened GoMaps
  import opened GoText

  datatype Origin = Origin(
    username: string, sessionId: string, sessionVersion: string,
    netType: string, addrType: string, unicastAddress: string)

  datatype ConnectData = ConnectData(netType: string, addrType: string, connectionAddress: string)

  datatype Timing = Timing(startTime: int, stopTime: int)

  datatype Media = Media(media: string, port: string, proto: string, fmt: string)

  datatype Description = Description(
    version: int, origin: Origin, sessionName: string, information: string,
    connect: ConnectData, timing: Timing, media: seq<Media>, attributes: map<string, string>)

  const EMPTY := Description(0, Origin("", "", "", "", "", ""), "", "", ConnectData("", "", ""), Timing(0, 0), [],
      map[])

  /** A line without '=' and a line with too few parts index out of range in the original. */
  datatype Result = Ok(value: Description) | BadNumber | Panic

  // ---------------------------------------------------------------------------
  // strings.Fields
  // ---------------------------------------------------------------------------

  /** The position of the first white space, or the length of the string. */
  function SpaceIndex(s: string): (i: nat)
    ensures i <= |s| && (forall j | 0 <= j < i :: s[j] !in SPACES)
    ensures i < |s| ==> s[i] in SPACES
  {
    if s == "" || s[0] in SPACES then 0 else 1 + SpaceIndex(s[1..])
  }

  function Fields(s: string): seq<string>
    decreases |s|
  {
    TrimLeftShape(s, SPACES);
    var t := TrimLeft(s, SPACES);
    if t == "" then [] else
      var i := SpaceIndex(t);
      [t[..i]] + Fields(t[i..])
  }

  /** Non-empty and free of white space. */
  predicate Word(s: string) {
    s != "" && forall i | 0 <= i < |s| :: s[i] !in SPACES
  }

  /** The words with one blank between any two. */
  function Spaced(words: seq<string>): string {
    if words == [] then "" else if |words| == 1 then words[0] else words[0] + " " + Spaced(words[1..])
  }

  lemma FieldsHead(word: string, rest: string)
    requires Word(word) && (rest == "" || rest[0] in SPACES)
    ensures Fields(word + rest) == [word] + Fields(rest)
  {
    var s := word + rest;
    assert s[0] == word[0];
    assert TrimLeft(s, SPACES) == s;
    var i := SpaceIndex(s);
    assert i == |word| by {
      assert forall j | 0 <= j < |word| :: s[j] == word[j];
      assert rest != "" ==> s[|word|] == rest[0];
    }
    assert s[..i] == word && s[i..] == rest;
  }

  lemma FieldsBlank(s: string)
    ensures Fields(" " + s) == Fields(s)
  {
  }

  lemma {:induction false} FieldsOfSpaced(words: seq<string>)
    requires forall i | 0 <= i < |words| :: Word(words[i])
    ensures Fields(Spaced(words)) == words
  {
    if words == [] {
    } else if |words| == 1 {
      FieldsHead(words[0], "");
      assert words[0] + "" == words[0];
      assert words == [words[0]];
    } else {
      var rest := words[1..];
      FieldsOfSpaced(rest);
      FieldsBlank(Spaced(rest));
      FieldsHead(words[0], " " + Spaced(rest));
      assert Spaced(words) == words[0] + (" " + Spaced(rest));
      assert words == [words[0]] + rest;
    }
  }

  // ---------------------------------------------------------------------------
  // Parsing
  // ---------------------------------------------------------------------------

  /** The effect of one line, given its type and value. */
  function Assign(d: Description, kind: char, value: string): Result {
    if kind == 'v' then
      var version := Atoi(value);
      if version.ok then Ok(d.(version := version.value)) else BadNumber
    else if kind == 'o' then
      var f := Fields(value);
      if |f| < 6 then Panic else Ok(d.(origin := Origin(f[0], f[1], f[2], f[3], f[4], f[5])))
    else if kind == 's' then Ok(d.(sessionName := value))
    else if kind == 'c' then
      var f := Fields(value);
      if |f| < 3 then Panic else Ok(d.(connect := ConnectData(f[0], f[1], f[2])))
    else if kind == 't' then
      var f := Fields(value);
      if |f| < 1 then Panic
      else if !Atoi(f[0]).ok then BadNumber
      else if |f| < 2 then Panic
      else if !Atoi(f[1]).ok then BadNumber
      else Ok(d.(timing := Timing(Atoi(f[0]).value, Atoi(f[1]).value)))
    else if kind == 'm' then
      var f := Fields(value);
      if |f| < 4 then Panic else Ok(d.(media := d.media + [Media(f[0], f[1], f[2], f[3])]))
    else if kind == 'a' then
      var parts := Split(value, ':');
      if |parts| < 2 then Panic else Ok(d.(attributes := d.attributes[parts[0] := parts[1]]))
    else if kind == 'i' then Ok(d.(information := value))
    else Ok(d)
  }

  /** Line types are one letter; every other line with '=' is skipped. */
  function ParseLine(d: Description, text: string): Result {
    var i := IndexOf(text, '=');
    if i == |text| then Panic
    else if i != 1 then Ok(d)
    else Assign(d, text[0], text[2..])
  }

  /** The longest line, without its newline, that fits the scanner's buffer. */
  const MAX_LINE := 65535

  datatype Scanned = Scanned(text: string, rest: string) | Stopped

  /** bufio.Scanner: the next line without its line ending; a line that is too long ends the scan. */
  function Scan(s: string): (r: Scanned)
    ensures r.Scanned? ==> |r.rest| < |s|
  {
    var i := IndexOf(s, '\n');
    if s == "" || i > MAX_LINE then Stopped
    else
      var raw := s[..i];
      var text := if raw != "" && raw[|raw| - 1] == '\r' then raw[..|raw| - 1] else raw;
      Scanned(text, if i < |s| then s[i + 1..] else "")
  }

  type Step = (Description, string) -> Result

  /** Scans line after line and takes each with `step`. */
  function ScanLines(step: Step, s: string, d: Description): Result
    decreases |s|
  {
    match Scan(s)
    case Stopped => Ok(d)
    case Scanned(text, rest) =>
      match step(d, text)
      case Ok(next) => ScanLines(step, rest, next)
      case BadNumber => BadNumber
      case Panic => Panic
  }

  function ParseText(s: string): Result {
    ScanLines(ParseLine, s, EMPTY)
  }

  method Parse(input: string) returns (r: Result)
    ensures r == ParseText(input)
  {
    var d, rest := EMPTY, input;
    while true
      invariant ParseText(input) == ScanLines(ParseLine, rest, d)
      decreases |rest|
    {
      var line := Scan(rest);
      if line.Stopped? {
        return Ok(d);
      }
      var next := ParseLine(d, line.text);
      if !next.Ok? {
        return next;
      }
      d, rest := next.value, line.rest;
    }
  }

  // ---------------------------------------------------------------------------
  // Printing
  // ---------------------------------------------------------------------------

  function Text(kind: char, value: string): string {
    [kind] + "=" + value
  }

  function OriginValue(o: Origin): string {
    Spaced([o.username, o.sessionId, o.sessionVersion, o.netType, o.addrType, o.unicastAddress])
  }

  function ConnectValue(c: ConnectData): string {
    Spaced([c.netType, c.addrType, c.connectionAddress])
  }

  function TimingValue(t: Timing): string {
    Spaced([Itoa(t.startTime), Itoa(t.stopTime)])
  }

  function MediaValue(m: Media): string {
    Spaced([m.media, m.port, m.proto, m.fmt])
  }

  function Lines(texts: seq<string>): string {
    if texts == [] then "" else texts[0] + "\r\n" + Lines(texts[1..])
  }

  function MediaTexts(media: seq<Media>): seq<string> {
    seq(|media|, i requires 0 <= i < |media| => Text('m', MediaValue(media[i])))
  }

  function AttributeTexts(attributes: map<string, string>, order: seq<string>): seq<string>
    requires forall k | k in order :: k in attributes
  {
    seq(|order|, i requires 0 <= i < |order| => assert order[i] in order; Text('a', order[i] + ":"
        + attributes[order[i]]))
  }

  function HeadTexts(d: Description): seq<string> {
    [Text('v', Itoa(d.version)), Text('o', OriginValue(d.origin)), Text('s', d.sessionName),
     Text('c', ConnectValue(d.connect)), Text('t', TimingValue(d.timing))]
  }

  /** The lines of a description, for one iteration order of its attributes. */
  function Texts(d: Description, order: seq<string>): seq<string>
    requires forall k | k in order :: k in d.attributes
  {
    HeadTexts(d) + MediaTexts(d.media) + AttributeTexts(d.attributes, order) + [Text('i', d.information)]
  }

  lemma {:induction false} LinesAppend(texts: seq<string>, text: string)
    ensures Lines(texts + [text]) == Lines(texts) + text + "\r\n"
  {
    if texts == [] {
      assert texts + [text] == [text];
      assert [text][1..] == [];
    } else {
      LinesAppend(texts[1..], text);
      assert (texts + [text])[1..] == texts[1..] + [text];
    }
  }

  lemma AttributeTextsAppend(attributes: map<string, string>, order: seq<string>, k: string)
    requires k in attributes && forall j | j in order :: j in attributes
    ensures AttributeTexts(attributes, order + [k])
            == AttributeTexts(attributes, order) + [Text('a', k + ":" + attributes[k])]
  {
  }

  lemma Regroup(a: seq<string>, b: seq<string>, c: seq<string>)
    ensures a + b + c == a + (b + c)
  {
  }

  method Write(d: Description) returns (buf: string)
    ensures exists order :: Enumerates(order, d.attributes.Keys) && buf == Lines(Texts(d, order))
  {
    buf := WriteHead(Text('v', Itoa(d.version)), Text('o', OriginValue(d.origin)), Text('s', d.sessionName),
                     Text('c', ConnectValue(d.connect)), Text('t', TimingValue(d.timing)));
    buf := AppendMedia(buf, HeadTexts(d), d.media);
    ghost var texts := HeadTexts(d) + MediaTexts(d.media);
    ghost var order;
    buf, order := AppendAttributes(buf, texts, d.attributes);
    buf := AppendLine(buf, texts + AttributeTexts(d.attributes, order), Text('i', d.information));
    assert buf == Lines(Texts(d, order));
  }

  method WriteHead(v: string, o: string, s: string, c: string, t: string) returns (buf: string)
    ensures buf == Lines([v, o, s, c, t])
  {
    buf := AppendLine("", [], v);
    buf := AppendLine(buf, [v], o);
    assert [v] + [o] == [v, o];
    buf := AppendLine(buf, [v, o], s);
    assert [v, o] + [s] == [v, o, s];
    buf := AppendLine(buf, [v, o, s], c);
    assert [v, o, s] + [c] == [v, o, s, c];
    buf := AppendLine(buf, [v, o, s, c], t);
    assert [v, o, s, c] + [t] == [v, o, s, c, t];
  }

  method AppendMedia(start: string, ghost texts: seq<string>, media: seq<Media>) returns (buf: string)
    requires start == Lines(texts)
    ensures buf == Lines(texts + MediaTexts(media))
  {
    buf := start;
    assert texts + MediaTexts([]) == texts;
    for i := 0 to |media|
      invariant buf == Lines(texts + MediaTexts(media[..i]))
    {
      var text := Text('m', MediaValue(media[i]));
      buf := AppendLine(buf, texts + MediaTexts(media[..i]), text);
      assert texts + MediaTexts(media[..i + 1]) == texts + MediaTexts(media[..i]) + [text];
    }
    assert media[..|media|] == media;
  }

  /** Appends the attributes in whatever order the map yields them. */
  method AppendAttributes(start: string, ghost texts: seq<string>, attributes: map<string, string>)
    returns (buf: string, ghost order: seq<string>)
    requires start == Lines(texts)
    ensures Enumerates(order, attributes.Keys)
    ensures buf == Lines(texts + AttributeTexts(attributes, order))
  {
    buf, order := start, [];
    assert texts + AttributeTexts(attributes, []) == texts;
    var rest := attributes.Keys;
    while rest != {}
      invariant rest <= attributes.Keys
      invariant Enumerates(order, attributes.Keys - rest)
      invariant buf == Lines(texts + AttributeTexts(attributes, order))
      decreases rest
    {
      var k :| k in rest;
      buf := AppendLine(buf, texts + AttributeTexts(attributes, order), Text('a', k + ":" + attributes[k]));
      EnumeratesMore(order, attributes.Keys - rest, k);
      assert attributes.Keys - rest + {k} == attributes.Keys - (rest - {k});
      AttributeTextsAppend(attributes, order, k);
      Regroup(texts, AttributeTexts(attributes, order), [Text('a', k + ":" + attributes[k])]);
      order := order + [k];
      rest := rest - {k};
    }
    assert attributes.Keys - rest == attributes.Keys;
  }

  method AppendLine(buf: string, ghost texts: seq<string>, text: string) returns (r: string)
    requires buf == Lines(texts)
    ensures r == Lines(texts + [text])
  {
    LinesAppend(texts, text);
    r := buf + text + "\r\n";
  }
}
