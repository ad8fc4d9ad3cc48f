/** Parsing a printed session description gives it back: exactly for the well-formed ones. */
module SdpRoundTrip {
  import opened GoMaps
  import opened GoText
  import opened Sdp

  // ---------------------------------------------------------------------------
  // Lines
  // ---------------------------------------------------------------------------

  /** A line, with the carriage return that is written after it, that the scanner can hold. */
  predicate Fits(text: string) {
    |text| < MAX_LINE
  }

  predicate OneLine(text: string) {
    '\n' !in text
  }

  lemma ScanLine(text: string, rest: string)
    requires OneLine(text)
    ensures Scan(text + "\r\n" + rest) == if Fits(text) then Scanned(text, rest) else Stopped
  {
    CrlfSlices(text, rest);
    IndexOfHead(text + "\r", '\n', rest);
    assert (text + "\r")[..|text|] == text;
  }

  lemma CrlfSlices(text: string, rest: string)
    ensures var s := text + "\r\n" + rest;
            && s == (text + "\r") + ['\n'] + rest
            && s[..|text| + 1] == text + "\r" && s[|text| + 2..] == rest
  {
  }

  /** The effect of some lines. */
  function Absorb(step: Step, texts: seq<string>, d: Description): Result {
    if texts == [] then Ok(d)
    else
      match step(d, texts[0])
      case Ok(next) => Absorb(step, texts[1..], next)
      case BadNumber => BadNumber
      case Panic => Panic
  }

  /** Lines that lead from each of some descriptions to the next lead from the first to the last. */
  lemma {:induction false} AbsorbTrace(step: Step, texts: seq<string>, trace: seq<Description>)
    requires |trace| == |texts| + 1
    requires forall i | 0 <= i < |texts| :: step(trace[i], texts[i]) == Ok(trace[i + 1])
    ensures Absorb(step, texts, trace[0]) == Ok(trace[|texts|])
  {
    if texts != [] {
      AbsorbTrace(step, texts[1..], trace[1..]);
    }
  }

  lemma {:induction false} AbsorbSplit(step: Step, a: seq<string>, b: seq<string>, d: Description)
    ensures Absorb(step, a + b, d) == match Absorb(step, a, d)
                                      case Ok(next) => Absorb(step, b, next)
                                      case BadNumber => BadNumber
                                      case Panic => Panic
  {
    if a == [] {
      assert a + b == b;
    } else {
      assert (a + b)[1..] == a[1..] + b;
      match step(d, a[0])
      case Ok(next) => AbsorbSplit(step, a[1..], b, next);
      case _ =>
    }
  }

  lemma NextLine(step: Step, text: string, rest: string, d: Description)
    requires OneLine(text)
    ensures ScanLines(step, text + "\r\n" + rest, d) ==
            if !Fits(text) then Ok(d)
            else match step(d, text)
              case Ok(next) => ScanLines(step, rest, next)
              case BadNumber => BadNumber
              case Panic => Panic
  {
    ScanLine(text, rest);
  }

  /** The lines in `fit` are read, and the scan stops there if the next one is too long. */
  lemma {:induction false} ReadLines(step: Step, fit: seq<string>, more: seq<string>, d: Description)
    requires forall i | 0 <= i < |fit| :: OneLine(fit[i]) && Fits(fit[i])
    requires more == [] || (OneLine(more[0]) && !Fits(more[0]))
    ensures ScanLines(step, Lines(fit + more), d) == Absorb(step, fit, d)
    decreases |fit|
  {
    if fit == [] {
      assert fit + more == more;
      if more != [] {
        NextLine(step, more[0], Lines(more[1..]), d);
      }
    } else {
      var text, rest := fit[0], fit[1..];
      assert (fit + more)[1..] == rest + more;
      NextLine(step, text, Lines(rest + more), d);
      match step(d, text)
      case Ok(next) => ReadLines(step, rest, more, next);
      case _ =>
    }
  }

  /** The scan reads the lines before the first that does not fit. */
  lemma ReadFitting(step: Step, texts: seq<string>, d: Description) returns (n: nat)
    requires forall i | 0 <= i < |texts| :: OneLine(texts[i])
    ensures n <= |texts| && (forall i | 0 <= i < n :: Fits(texts[i]))
    ensures n < |texts| ==> !Fits(texts[n])
    ensures ScanLines(step, Lines(texts), d) == Absorb(step, texts[..n], d)
  {
    n := 0;
    while n < |texts| && Fits(texts[n])
      invariant n <= |texts| && (forall i | 0 <= i < n :: Fits(texts[i]))
    {
      n := n + 1;
    }
    ReadLines(step, texts[..n], texts[n..], d);
    assert texts[..n] + texts[n..] == texts;
  }

  // ---------------------------------------------------------------------------
  // Well-formed descriptions
  // ---------------------------------------------------------------------------

  predicate IsInt(n: int) {
    MIN_INT <= n <= MAX_INT
  }

  predicate OriginWords(o: Origin) {
    && Word(o.username) && Word(o.sessionId) && Word(o.sessionVersion)
    && Word(o.netType) && Word(o.addrType) && Word(o.unicastAddress)
  }

  predicate ConnectWords(c: ConnectData) {
    Word(c.netType) && Word(c.addrType) && Word(c.connectionAddress)
  }

  predicate MediaWords(m: Media) {
    Word(m.media) && Word(m.port) && Word(m.proto) && Word(m.fmt)
  }

  predicate Attribute(s: string) {
    ':' !in s && OneLine(s)
  }

  predicate GoodMedia(media: seq<Media>) {
    forall i | 0 <= i < |media| :: MediaWords(media[i])
  }

  predicate GoodAttributes(attributes: map<string, string>) {
    forall k | k in attributes :: Attribute(k) && Attribute(attributes[k])
  }

  /** The fields hold what their lines can carry. */
  predicate GoodFields(d: Description) {
    && IsInt(d.version) && IsInt(d.timing.startTime) && IsInt(d.timing.stopTime)
    && OriginWords(d.origin) && ConnectWords(d.connect)
    && OneLine(d.sessionName) && OneLine(d.information)
    && GoodMedia(d.media) && GoodAttributes(d.attributes)
  }

  predicate AttributesFit(attributes: map<string, string>) {
    forall k | k in attributes :: Fits(Text('a', k + ":" + attributes[k]))
  }

  predicate LinesFit(d: Description) {
    && Fits(Text('o', OriginValue(d.origin))) && Fits(Text('c', ConnectValue(d.connect)))
    && Fits(Text('v', Itoa(d.version))) && Fits(Text('t', TimingValue(d.timing)))
    && Fits(Text('s', d.sessionName)) && Fits(Text('i', d.information))
    && (forall i | 0 <= i < |d.media| :: Fits(Text('m', MediaValue(d.media[i]))))
    && AttributesFit(d.attributes)
  }

  predicate WellFormed(d: Description) {
    GoodFields(d) && LinesFit(d)
  }

  // ---------------------------------------------------------------------------
  // One line kind after another
  // ---------------------------------------------------------------------------

  /** `step` takes a line as the parser does. */
  ghost predicate IsParser(step: Step) {
    forall d, text {:trigger ParseLine(d, text)} :: step(d, text) == ParseLine(d, text)
  }

  lemma LineOfKind(step: Step, kind: char, value: string, d: Description)
    requires IsParser(step) && kind != '='
    ensures step(d, Text(kind, value)) == Assign(d, kind, value)
  {
    IndexOfHead([kind], '=', value);
    var text := Text(kind, value);
    assert text == [kind] + ['='] + value;
    assert text[0] == kind && text[2..] == value;
    assert ParseLine(d, text) == Assign(d, kind, value);
  }

  lemma VersionLine(step: Step, version: int, d: Description)
    requires IsParser(step) && IsInt(version)
    ensures step(d, Text('v', Itoa(version))) == Ok(d.(version := version))
  {
    AtoiOfItoa(version);
    LineOfKind(step, 'v', Itoa(version), d);
  }

  lemma OriginLine(step: Step, o: Origin, d: Description)
    requires IsParser(step) && OriginWords(o)
    ensures step(d, Text('o', OriginValue(o))) == Ok(d.(origin := o))
  {
    FieldsOfSpaced([o.username, o.sessionId, o.sessionVersion, o.netType, o.addrType, o.unicastAddress]);
    LineOfKind(step, 'o', OriginValue(o), d);
  }

  lemma SessionNameLine(step: Step, name: string, d: Description)
    requires IsParser(step)
    ensures step(d, Text('s', name)) == Ok(d.(sessionName := name))
  {
    LineOfKind(step, 's', name, d);
  }

  lemma ConnectLine(step: Step, c: ConnectData, d: Description)
    requires IsParser(step) && ConnectWords(c)
    ensures step(d, Text('c', ConnectValue(c))) == Ok(d.(connect := c))
  {
    FieldsOfSpaced([c.netType, c.addrType, c.connectionAddress]);
    LineOfKind(step, 'c', ConnectValue(c), d);
  }

  lemma ItoaIsWord(n: int)
    ensures Word(Itoa(n))
  {
  }

  lemma TimingLine(step: Step, t: Timing, d: Description)
    requires IsParser(step) && IsInt(t.startTime) && IsInt(t.stopTime)
    ensures step(d, Text('t', TimingValue(t))) == Ok(d.(timing := t))
  {
    ItoaIsWord(t.startTime);
    ItoaIsWord(t.stopTime);
    FieldsOfSpaced([Itoa(t.startTime), Itoa(t.stopTime)]);
    AtoiOfItoa(t.startTime);
    AtoiOfItoa(t.stopTime);
    LineOfKind(step, 't', TimingValue(t), d);
  }

  lemma MediaLine(step: Step, m: Media, d: Description)
    requires IsParser(step) && MediaWords(m)
    ensures step(d, Text('m', MediaValue(m))) == Ok(d.(media := d.media + [m]))
  {
    FieldsOfSpaced([m.media, m.port, m.proto, m.fmt]);
    LineOfKind(step, 'm', MediaValue(m), d);
  }

  lemma AttributeLine(step: Step, k: string, v: string, d: Description)
    requires IsParser(step) && Attribute(k) && Attribute(v)
    ensures step(d, Text('a', k + ":" + v)) == Ok(d.(attributes := d.attributes[k := v]))
  {
    SplitHead(k, ':', v);
    SplitWhole(v, ':');
    assert k + ":" + v == k + [':'] + v;
    LineOfKind(step, 'a', k + ":" + v, d);
  }

  lemma InformationLine(step: Step, information: string, d: Description)
    requires IsParser(step)
    ensures step(d, Text('i', information)) == Ok(d.(information := information))
  {
    LineOfKind(step, 'i', information, d);
  }

  function HeadOf(d: Description): Description {
    EMPTY.(
      version := d.version, origin := d.origin, sessionName := d.sessionName, connect := d.connect,
      timing := d.timing)
  }

  lemma HeadAbsorbed(step: Step, d: Description)
    requires IsParser(step) && GoodFields(d)
    ensures Absorb(step, HeadTexts(d), EMPTY) == Ok(HeadOf(d))
  {
    var v := EMPTY.(version := d.version);
    var o := v.(origin := d.origin);
    var s := o.(sessionName := d.sessionName);
    var c := s.(connect := d.connect);
    VersionLine(step, d.version, EMPTY);
    OriginLine(step, d.origin, v);
    SessionNameLine(step, d.sessionName, o);
    ConnectLine(step, d.connect, s);
    TimingLine(step, d.timing, c);
    AbsorbTrace(step, HeadTexts(d), [EMPTY, v, o, s, c, HeadOf(d)]);
  }

  function MediaTrace(d: Description, media: seq<Media>): seq<Description> {
    seq(|media| + 1, i requires 0 <= i <= |media| => d.(media := d.media + media[..i]))
  }

  lemma MediaStep(step: Step, media: seq<Media>, d: Description, i: nat)
    requires IsParser(step) && GoodMedia(media) && i < |media|
    ensures step(MediaTrace(d, media)[i], MediaTexts(media)[i]) == Ok(MediaTrace(d, media)[i + 1])
  {
    MediaLine(step, media[i], MediaTrace(d, media)[i]);
    assert d.media + media[..i + 1] == d.media + media[..i] + [media[i]];
  }

  lemma MediaAbsorbed(step: Step, media: seq<Media>, d: Description)
    requires IsParser(step) && GoodMedia(media)
    ensures Absorb(step, MediaTexts(media), d) == Ok(d.(media := d.media + media))
  {
    var texts, trace := MediaTexts(media), MediaTrace(d, media);
    forall i | 0 <= i < |media| ensures step(trace[i], texts[i]) == Ok(trace[i + 1]) {
      MediaStep(step, media, d, i);
    }
    AbsorbTrace(step, texts, trace);
    assert d.media + media[..0] == d.media && media[..|media|] == media;
  }

  function Listed(attributes: map<string, string>, order: seq<string>): map<string, string> {
    map k | k in attributes && k in order :: attributes[k]
  }

  function AttributeTrace(d: Description, attributes: map<string, string>, order: seq<string>): seq<Description> {
    seq(|order| + 1, i requires 0 <= i <= |order| => d.(attributes := d.attributes + Listed(attributes, order[..i])))
  }

  lemma AttributeStep(step: Step, attributes: map<string, string>, order: seq<string>, d: Description, i: nat)
    requires IsParser(step) && GoodAttributes(attributes) && i < |order| && forall k | k in order :: k in attributes
    ensures step(AttributeTrace(d, attributes, order)[i], AttributeTexts(attributes, order)[i])
         == Ok(AttributeTrace(d, attributes, order)[i + 1])
  {
    var e := AttributeTrace(d, attributes, order)[i];
    AttributeLine(step, order[i], attributes[order[i]], e);
    ListedMore(d.attributes, attributes, order, i);
  }

  lemma AttributesAbsorbed(step: Step, attributes: map<string, string>, order: seq<string>, d: Description)
    requires IsParser(step) && GoodAttributes(attributes) && forall k | k in order :: k in attributes
    ensures Absorb(step, AttributeTexts(attributes, order), d)
            == Ok(d.(attributes := d.attributes + Listed(attributes, order)))
  {
    var texts, trace := AttributeTexts(attributes, order), AttributeTrace(d, attributes, order);
    forall i | 0 <= i < |order| ensures step(trace[i], texts[i]) == Ok(trace[i + 1]) {
      AttributeStep(step, attributes, order, d, i);
    }
    AbsorbTrace(step, texts, trace);
    assert d.attributes + Listed(attributes, order[..0]) == d.attributes && order[..|order|] == order;
  }

  lemma ListedMore(had: map<string, string>, attributes: map<string, string>, order: seq<string>, i: nat)
    requires i < |order| && order[i] in attributes
    ensures had + Listed(attributes, order[..i + 1])
            == (had + Listed(attributes, order[..i]))[order[i] := attributes[order[i]]]
  {
  }

  lemma InformationAbsorbed(step: Step, d: Description, information: string)
    requires IsParser(step)
    ensures Absorb(step, [Text('i', information)], d) == Ok(d.(information := information))
  {
    InformationLine(step, information, d);
    AbsorbTrace(step, [Text('i', information)], [d, d.(information := information)]);
  }

  // ---------------------------------------------------------------------------
  // Well-formed descriptions come back
  // ---------------------------------------------------------------------------

  lemma AbsorbBoth(step: Step, a: seq<string>, b: seq<string>, d: Description, mid: Description, end: Description)
    requires Absorb(step, a, d) == Ok(mid) && Absorb(step, b, mid) == Ok(end)
    ensures Absorb(step, a + b, d) == Ok(end)
  {
    AbsorbSplit(step, a, b, d);
  }

  lemma MediaAbsorbedNext(step: Step, head: seq<string>, media: seq<Media>, d: Description)
    requires IsParser(step) && GoodMedia(media) && d.media == [] && Absorb(step, head, EMPTY) == Ok(d)
    ensures Absorb(step, head + MediaTexts(media), EMPTY) == Ok(d.(media := media))
  {
    MediaAbsorbed(step, media, d);
    assert [] + media == media;
    AbsorbBoth(step, head, MediaTexts(media), EMPTY, d, d.(media := media));
  }

  lemma AttributesAbsorbedNext(step: Step, head: seq<string>, attributes: map<string, string>, order: seq<string>,
      d: Description)
    requires IsParser(step) && GoodAttributes(attributes) && Enumerates(order, attributes.Keys)
    requires d.attributes == map[] && Absorb(step, head, EMPTY) == Ok(d)
    ensures Absorb(step, head + AttributeTexts(attributes, order), EMPTY) == Ok(d.(attributes := attributes))
  {
    AttributesAbsorbed(step, attributes, order, d);
    assert map[] + Listed(attributes, order) == attributes;
    AbsorbBoth(step, head, AttributeTexts(attributes, order), EMPTY, d, d.(attributes := attributes));
  }

  lemma AllAbsorbedNext(step: Step, head: seq<string>, d: Description, order: seq<string>)
    requires IsParser(step) && GoodFields(d) && Enumerates(order, d.attributes.Keys)
    requires Absorb(step, head, EMPTY) == Ok(HeadOf(d))
    ensures Absorb(step, head + MediaTexts(d.media) + AttributeTexts(d.attributes, order)
            + [Text('i', d.information)], EMPTY)
         == Ok(d)
  {
    MediaAbsorbedNext(step, head, d.media, HeadOf(d));
    var more := head + MediaTexts(d.media);
    var withMedia := HeadOf(d).(media := d.media);
    AttributesAbsorbedNext(step, more, d.attributes, order, withMedia);
    var withAttributes := withMedia.(attributes := d.attributes);
    InformationAbsorbed(step, withAttributes, d.information);
    AbsorbBoth(step, more + AttributeTexts(d.attributes, order), [Text('i', d.information)], EMPTY, withAttributes, d);
  }

  lemma AllAbsorbed(step: Step, d: Description, order: seq<string>)
    requires IsParser(step) && GoodFields(d) && Enumerates(order, d.attributes.Keys)
    ensures Absorb(step, Texts(d, order), EMPTY) == Ok(d)
  {
    HeadAbsorbed(step, d);
    AllAbsorbedNext(step, HeadTexts(d), d, order);
  }

  lemma {:induction false} SpacedOneLine(words: seq<string>)
    requires forall i | 0 <= i < |words| :: OneLine(words[i])
    ensures OneLine(Spaced(words))
  {
    if |words| > 1 {
      SpacedOneLine(words[1..]);
    }
  }

  /** What the fields hold, a field that was never assigned included. */
  predicate Clean(d: Description) {
    && IsInt(d.version) && IsInt(d.timing.startTime) && IsInt(d.timing.stopTime)
    && (OriginWords(d.origin) || d.origin == EMPTY.origin)
    && (ConnectWords(d.connect) || d.connect == EMPTY.connect)
    && OneLine(d.sessionName) && OneLine(d.information)
    && GoodMedia(d.media) && GoodAttributes(d.attributes)
  }

  lemma HeadTextsOneLine(d: Description, i: nat)
    requires Clean(d) && i < 5
    ensures OneLine(HeadTexts(d)[i])
  {
    var o, c := d.origin, d.connect;
    match i
    case 0 => ItoaIsWord(d.version);
    case 1 => SpacedOneLine([o.username, o.sessionId, o.sessionVersion, o.netType, o.addrType, o.unicastAddress]);
    case 2 =>
    case 3 => SpacedOneLine([c.netType, c.addrType, c.connectionAddress]);
    case 4 =>
      ItoaIsWord(d.timing.startTime);
      ItoaIsWord(d.timing.stopTime);
      SpacedOneLine([Itoa(d.timing.startTime), Itoa(d.timing.stopTime)]);
  }

  lemma MediaTextOneLine(m: Media)
    requires MediaWords(m)
    ensures OneLine(Text('m', MediaValue(m)))
  {
    SpacedOneLine([m.media, m.port, m.proto, m.fmt]);
  }

  lemma TextsOneLine(d: Description, order: seq<string>)
    requires Clean(d) && forall k | k in order :: k in d.attributes
    ensures forall i | 0 <= i < |Texts(d, order)| :: OneLine(Texts(d, order)[i])
  {
    forall i | 0 <= i < 5 ensures OneLine(HeadTexts(d)[i]) {
      HeadTextsOneLine(d, i);
    }
    forall i | 0 <= i < |d.media| ensures OneLine(MediaTexts(d.media)[i]) {
      MediaTextOneLine(d.media[i]);
    }
    forall i | 0 <= i < |order| ensures OneLine(AttributeTexts(d.attributes, order)[i]) {
      assert order[i] in order;
    }
  }

  /** For any number of media entries and every iteration order of the attributes. */
  lemma RoundTrip(d: Description, order: seq<string>)
    requires WellFormed(d) && Enumerates(order, d.attributes.Keys)
    ensures ParseText(Lines(Texts(d, order))) == Ok(d)
  {
    var texts := Texts(d, order);
    TextsOneLine(d, order);
    TextsFit(d, order);
    ReadLines(ParseLine, texts, [], EMPTY);
    assert texts + [] == texts;
    AllAbsorbed(ParseLine, d, order);
  }

  lemma TextsFit(d: Description, order: seq<string>)
    requires LinesFit(d) && forall k | k in order :: k in d.attributes
    ensures forall i | 0 <= i < |Texts(d, order)| :: Fits(Texts(d, order)[i])
  {
  }

  // ---------------------------------------------------------------------------
  // Whatever is parsed is clean
  // ---------------------------------------------------------------------------

  lemma {:induction false} FieldsAreWords(s: string)
    ensures forall i | 0 <= i < |Fields(s)| :: Word(Fields(s)[i])
    decreases |s|
  {
    TrimLeftShape(s, SPACES);
    var t := TrimLeft(s, SPACES);
    if t != "" {
      FieldsAreWords(t[SpaceIndex(t)..]);
      assert Word(t[..SpaceIndex(t)]);
    }
  }

  lemma WordsKeepClean(d: Description, kind: char, value: string)
    requires Clean(d) && kind in {'o', 'c', 'm'} && Assign(d, kind, value).Ok?
    ensures Clean(Assign(d, kind, value).value)
  {
    FieldsAreWords(value);
    var f := Fields(value);
    if kind == 'o' {
      assert OriginWords(Assign(d, kind, value).value.origin);
    } else if kind == 'c' {
      assert ConnectWords(Assign(d, kind, value).value.connect);
    } else {
      assert MediaWords(Media(f[0], f[1], f[2], f[3]));
    }
  }

  lemma AttributeKeepsClean(d: Description, value: string)
    requires Clean(d) && OneLine(value) && Assign(d, 'a', value).Ok?
    ensures Clean(Assign(d, 'a', value).value)
  {
    SplitShape(value, ':', 0);
    SplitShape(value, ':', 1);
  }

  lemma NumbersKeepClean(d: Description, kind: char, value: string)
    requires Clean(d) && kind in {'v', 't'} && Assign(d, kind, value).Ok?
    ensures Clean(Assign(d, kind, value).value)
  {
    forall s ensures Atoi(s).ok ==> IsInt(Atoi(s).value) {
    }
  }

  lemma AssignKeepsClean(d: Description, kind: char, value: string)
    requires Clean(d) && OneLine(value) && Assign(d, kind, value).Ok?
    ensures Clean(Assign(d, kind, value).value)
  {
    if kind in {'o', 'c', 'm'} {
      WordsKeepClean(d, kind, value);
    } else if kind == 'a' {
      AttributeKeepsClean(d, value);
    } else if kind in {'v', 't'} {
      NumbersKeepClean(d, kind, value);
    }
  }

  lemma StepKeepsClean(step: Step, d: Description, text: string)
    requires IsParser(step) && Clean(d) && OneLine(text) && step(d, text).Ok?
    ensures Clean(step(d, text).value)
  {
    assert step(d, text) == ParseLine(d, text);
    if IndexOf(text, '=') == 1 {
      AssignKeepsClean(d, text[0], text[2..]);
    }
  }

  lemma ScannedOneLine(s: string)
    requires Scan(s).Scanned?
    ensures OneLine(Scan(s).text)
  {
  }

  lemma {:induction false} ScannedIsClean(step: Step, s: string, d: Description)
    requires IsParser(step) && Clean(d) && ScanLines(step, s, d).Ok?
    ensures Clean(ScanLines(step, s, d).value)
    decreases |s|
  {
    match Scan(s)
    case Stopped =>
    case Scanned(text, rest) =>
      ScannedOneLine(s);
      StepKeepsClean(step, d, text);
      ScannedIsClean(step, rest, step(d, text).value);
  }

  // ---------------------------------------------------------------------------
  // A line that is too long is missed
  // ---------------------------------------------------------------------------

  /** Equality of the field that lines of the given kind set. */
  predicate SameField(kind: char, d: Description, e: Description) {
    match kind
    case 'v' => d.version == e.version
    case 'o' => d.origin == e.origin
    case 's' => d.sessionName == e.sessionName
    case 'c' => d.connect == e.connect
    case 't' => d.timing == e.timing
    case 'm' => d.media == e.media
    case 'a' => d.attributes == e.attributes
    case 'i' => d.information == e.information
    case _ => true
  }

  predicate OtherKind(text: string, kind: char) {
    |text| >= 2 && text[0] != kind && text[0] != '=' && text[1] == '='
  }

  lemma StepKeepsOthers(step: Step, text: string, kind: char, d: Description)
    requires IsParser(step) && OtherKind(text, kind) && step(d, text).Ok?
    ensures SameField(kind, d, step(d, text).value)
  {
    assert text == Text(text[0], text[2..]);
    LineOfKind(step, text[0], text[2..], d);
  }

  lemma {:induction false} AbsorbKeepsOthers(step: Step, texts: seq<string>, kind: char, d: Description)
    requires IsParser(step) && (forall i | 0 <= i < |texts| :: OtherKind(texts[i], kind))
    requires Absorb(step, texts, d).Ok?
    ensures SameField(kind, d, Absorb(step, texts, d).value)
  {
    if texts != [] {
      StepKeepsOthers(step, texts[0], kind, d);
      AbsorbKeepsOthers(step, texts[1..], kind, step(d, texts[0]).value);
    }
  }

  lemma StepAddsOneMedia(step: Step, text: string, d: Description)
    requires IsParser(step) && step(d, text).Ok?
    ensures |step(d, text).value.media| <= |d.media| + 1
  {
    assert step(d, text) == ParseLine(d, text);
  }

  lemma {:induction false} AbsorbAddsMedia(step: Step, texts: seq<string>, d: Description)
    requires IsParser(step) && Absorb(step, texts, d).Ok?
    ensures |Absorb(step, texts, d).value.media| <= |d.media| + |texts|
  {
    if texts != [] {
      StepAddsOneMedia(step, texts[0], d);
      AbsorbAddsMedia(step, texts[1..], step(d, texts[0]).value);
    }
  }

  /** Every line of a successful parse was taken from some description. */
  lemma {:induction false} SomeStep(step: Step, texts: seq<string>, j: nat, d: Description) returns (e: Description)
    requires j < |texts| && Absorb(step, texts, d).Ok?
    ensures step(e, texts[j]).Ok?
  {
    if j == 0 {
      e := d;
    } else {
      e := SomeStep(step, texts[1..], j - 1, step(d, texts[0]).value);
    }
  }

  const KINDS := ['v', 'o', 's', 'c', 't']

  /** The field of each head line that is too long differs from what it is before that line. */
  lemma HeadFits(step: Step, d: Description, j: nat)
    requires IsParser(step) && j < 5 && Absorb(step, HeadTexts(d)[..j], EMPTY) == Ok(d)
    ensures Fits(HeadTexts(d)[j])
  {
    var texts := HeadTexts(d)[..j];
    forall i | 0 <= i < |texts| ensures OtherKind(texts[i], KINDS[j]) {
      assert texts[i] == HeadTexts(d)[i] && texts[i][0] == KINDS[i];
    }
    AbsorbKeepsOthers(step, texts, KINDS[j], EMPTY);
    match j
    case 0 => assert d.version == 0;
    case 1 => assert d.origin == EMPTY.origin; EmptyOrigin();
    case 2 => assert d.sessionName == "";
    case 3 => assert d.connect == EMPTY.connect; EmptyConnect();
    case 4 => assert d.timing == Timing(0, 0);
  }

  lemma EmptyOrigin()
    ensures OriginValue(EMPTY.origin) == "     "
  {
  }

  lemma EmptyConnect()
    ensures ConnectValue(EMPTY.connect) == "  "
  {
  }

  lemma MediaMissed(step: Step, d: Description, head: seq<string>, texts: seq<string>)
    requires IsParser(step) && (forall i | 0 <= i < |head| :: OtherKind(head[i], 'm'))
    requires Absorb(step, head + texts, EMPTY) == Ok(d)
    ensures |d.media| <= |texts|
  {
    AbsorbSplit(step, head, texts, EMPTY);
    AbsorbKeepsOthers(step, head, 'm', EMPTY);
    AbsorbAddsMedia(step, texts, Absorb(step, head, EMPTY).value);
  }

  lemma AttributeMissed(step: Step, d: Description, head: seq<string>, order: seq<string>)
    requires IsParser(step) && (forall i | 0 <= i < |head| :: OtherKind(head[i], 'a'))
    requires GoodAttributes(d.attributes) && (forall k | k in order :: k in d.attributes)
    requires Absorb(step, head + AttributeTexts(d.attributes, order), EMPTY) == Ok(d)
    ensures forall k | k in d.attributes :: k in order
  {
    AbsorbSplit(step, head, AttributeTexts(d.attributes, order), EMPTY);
    AbsorbKeepsOthers(step, head, 'a', EMPTY);
    AttributesAbsorbed(step, d.attributes, order, Absorb(step, head, EMPTY).value);
    assert d.attributes == map[] + Listed(d.attributes, order);
  }

  lemma InformationMissed(step: Step, d: Description, head: seq<string>)
    requires IsParser(step) && (forall i | 0 <= i < |head| :: OtherKind(head[i], 'i'))
    requires Absorb(step, head, EMPTY) == Ok(d)
    ensures Fits(Text('i', d.information))
  {
    AbsorbKeepsOthers(step, head, 'i', EMPTY);
  }

  lemma HeadKinds(d: Description, kind: char)
    requires kind in {'m', 'a', 'i'}
    ensures forall i | 0 <= i < 5 :: OtherKind(HeadTexts(d)[i], kind)
  {
  }

  lemma AllAttributesRead(step: Step, d: Description, head: seq<string>, order: seq<string>, k: nat)
    requires IsParser(step) && (forall i | 0 <= i < |head| :: OtherKind(head[i], 'a'))
    requires GoodAttributes(d.attributes) && Enumerates(order, d.attributes.Keys) && k <= |order|
    requires Absorb(step, head + AttributeTexts(d.attributes, order)[..k], EMPTY) == Ok(d)
    ensures k == |order|
  {
    AttributeTextsPrefix(d.attributes, order, k);
    assert k < |order| ==> order[k] in d.attributes && order[k] !in order[..k];
    AttributeMissed(step, d, head, order[..k]);
  }

  /** A line that does not fit is the end of the scan, and what it held is not in the result. */
  lemma AllFit(step: Step, d: Description, order: seq<string>, n: nat)
    requires IsParser(step) && Clean(d) && Enumerates(order, d.attributes.Keys)
    requires n < |Texts(d, order)| && Absorb(step, Texts(d, order)[..n], EMPTY) == Ok(d)
    ensures Fits(Texts(d, order)[n])
  {
    HeadKinds(d, 'm');
    HeadKinds(d, 'a');
    HeadKinds(d, 'i');
    PartFits(step, d, order, HeadTexts(d), n);
  }

  lemma PartFits(step: Step, d: Description, order: seq<string>, head: seq<string>, n: nat)
    requires IsParser(step) && Clean(d) && Enumerates(order, d.attributes.Keys) && head == HeadTexts(d)
    requires forall i | 0 <= i < |head| ::
               OtherKind(head[i], 'm') && OtherKind(head[i], 'a') && OtherKind(head[i], 'i')
    requires n < |Texts(d, order)| && Absorb(step, Texts(d, order)[..n], EMPTY) == Ok(d)
    ensures Fits(Texts(d, order)[n])
  {
    var media, attributes := MediaTexts(d.media), AttributeTexts(d.attributes, order);
    var texts := Texts(d, order);
    if n < 5 {
      assert texts[..n] == head[..n];
      HeadFits(step, d, n);
    } else {
      assert texts == head + media + attributes + [Text('i', d.information)];
      AllMediaRead(step, d, head, texts, n);
      TailFits(step, d, order, head + media, n - 5 - |media|);
    }
  }

  lemma AllMediaRead(step: Step, d: Description, head: seq<string>, texts: seq<string>, n: nat)
    requires IsParser(step) && (forall i | 0 <= i < |head| :: OtherKind(head[i], 'm')) && |head| <= n <= |texts|
    requires head <= texts && Absorb(step, texts[..n], EMPTY) == Ok(d)
    ensures n >= |head| + |d.media|
  {
    assert texts[..n] == head + texts[|head|..n];
    MediaMissed(step, d, head, texts[|head|..n]);
  }

  lemma TailFits(step: Step, d: Description, order: seq<string>, head: seq<string>, k: nat)
    requires IsParser(step) && Clean(d) && Enumerates(order, d.attributes.Keys) && k <= |order|
    requires forall i | 0 <= i < |head| :: OtherKind(head[i], 'a') && OtherKind(head[i], 'i')
    requires var texts := head + AttributeTexts(d.attributes, order) + [Text('i', d.information)];
             Absorb(step, texts[..|head| + k], EMPTY) == Ok(d)
    ensures Fits((head + AttributeTexts(d.attributes, order) + [Text('i', d.information)])[|head| + k])
  {
    var attributes := AttributeTexts(d.attributes, order);
    var texts := head + attributes + [Text('i', d.information)];
    assert texts[..|head| + k] == head + attributes[..k];
    AllAttributesRead(step, d, head, order, k);
    assert attributes[..k] == attributes;
    InformationMissed(step, d, head + attributes);
  }

  lemma AttributeTextsPrefix(attributes: map<string, string>, order: seq<string>, k: nat)
    requires k <= |order| && forall j | j in order :: j in attributes
    ensures AttributeTexts(attributes, order)[..k] == AttributeTexts(attributes, order[..k])
  {
  }

  lemma BlankFields(s: string)
    requires forall i | 0 <= i < |s| :: s[i] in SPACES
    ensures Fields(s) == []
  {
    TrimLeftOf(s, "", SPACES);
    assert s + "" == s;
  }

  lemma EmptyFieldsPanic(step: Step, d: Description)
    requires IsParser(step)
    ensures step(d, Text('o', OriginValue(EMPTY.origin))) == Panic
    ensures step(d, Text('c', ConnectValue(EMPTY.connect))) == Panic
  {
    EmptyOrigin();
    EmptyConnect();
    BlankFields("     ");
    BlankFields("  ");
    LineOfKind(step, 'o', "     ", d);
    LineOfKind(step, 'c', "  ", d);
  }

  lemma ParsedHasWords(step: Step, d: Description, order: seq<string>)
    requires IsParser(step) && Clean(d) && (forall k | k in order :: k in d.attributes)
    requires Absorb(step, Texts(d, order), EMPTY).Ok?
    ensures GoodFields(d)
  {
    var o := SomeStep(step, Texts(d, order), 1, EMPTY);
    EmptyFieldsPanic(step, o);
    var c := SomeStep(step, Texts(d, order), 3, EMPTY);
    EmptyFieldsPanic(step, c);
  }

  /** A description that comes back, under one iteration order already, is well-formed. */
  lemma SurvivorIsWellFormed(step: Step, d: Description, order: seq<string>)
    requires IsParser(step) && Enumerates(order, d.attributes.Keys)
    requires ScanLines(step, Lines(Texts(d, order)), EMPTY) == Ok(d)
    ensures WellFormed(d)
  {
    ScannedIsClean(step, Lines(Texts(d, order)), EMPTY);
    TextsOneLine(d, order);
    var n := ReadFitting(step, Texts(d, order), EMPTY);
    if n < |Texts(d, order)| {
      AllFit(step, d, order, n);
    }
    assert Texts(d, order)[..n] == Texts(d, order);
    ParsedHasWords(step, d, order);
    AllLinesFit(d, order);
  }

  lemma AllLinesFit(d: Description, order: seq<string>)
    requires Enumerates(order, d.attributes.Keys)
    requires forall i | 0 <= i < |Texts(d, order)| :: Fits(Texts(d, order)[i])
    ensures LinesFit(d)
  {
    var texts, m := Texts(d, order), |d.media|;
    forall i | 0 <= i < m ensures Fits(Text('m', MediaValue(d.media[i]))) {
      assert texts[5 + i] == MediaTexts(d.media)[i];
    }
    forall k | k in d.attributes ensures Fits(Text('a', k + ":" + d.attributes[k])) {
      var i :| 0 <= i < |order| && order[i] == k;
      assert texts[5 + m + i] == AttributeTexts(d.attributes, order)[i];
    }
    assert texts[0] == HeadTexts(d)[0] && texts[1] == HeadTexts(d)[1] && texts[2] == HeadTexts(d)[2];
    assert texts[3] == HeadTexts(d)[3] && texts[4] == HeadTexts(d)[4];
    assert texts[5 + m + |order|] == Text('i', d.information);
  }

  /** For each iteration order, exactly the well-formed descriptions come back. */
  lemma SurvivesExactlyWhen(d: Description, order: seq<string>)
    requires Enumerates(order, d.attributes.Keys)
    ensures ParseText(Lines(Texts(d, order))) == Ok(d) <==> WellFormed(d)
  {
    if WellFormed(d) {
      RoundTrip(d, order);
    }
    if ParseText(Lines(Texts(d, order))) == Ok(d) {
      SurvivorIsWellFormed(ParseLine, d, order);
    }
  }

  /** An attribute whose value has a colon is not parsed back, whatever the rest of the description. */
  lemma ColonIsLost(d: Description, order: seq<string>)
    requires d.attributes == map["fmtp" := "96:1"] && Enumerates(order, d.attributes.Keys)
    ensures ParseText(Lines(Texts(d, order))) != Ok(d)
  {
    assert "96:1"[2] == ':' && "fmtp" in d.attributes && !Attribute(d.attributes["fmtp"]);
    SurvivesExactlyWhen(d, order);
  }

  // ---------------------------------------------------------------------------
  // On the wire
  // ---------------------------------------------------------------------------

  /** What each letter stands for, and in which order the parts of a line come. */
  lemma WireTexts(d: Description, value: string)
    ensures ParseLine(d, "s=" + value) == Ok(d.(sessionName := value))
    ensures ParseLine(d, "i=" + value) == Ok(d.(information := value))
  {
    assert "s=" + value == Text('s', value) && "i=" + value == Text('i', value);
    SessionNameLine(ParseLine, value, d);
    InformationLine(ParseLine, value, d);
  }

  lemma WireNumbers(d: Description, n: int, start: int, stop: int)
    requires IsInt(n) && IsInt(start) && IsInt(stop)
    ensures ParseLine(d, "v=" + Itoa(n)) == Ok(d.(version := n))
    ensures ParseLine(d, "t=" + (Itoa(start) + " " + Itoa(stop))) == Ok(d.(timing := Timing(start, stop)))
  {
    assert "v=" + Itoa(n) == Text('v', Itoa(n));
    VersionLine(ParseLine, n, d);
    TwoSpaced(Itoa(start), Itoa(stop));
    assert "t=" + TimingValue(Timing(start, stop)) == Text('t', TimingValue(Timing(start, stop)));
    TimingLine(ParseLine, Timing(start, stop), d);
  }

  lemma TwoSpaced(a: string, b: string)
    ensures Spaced([a, b]) == a + " " + b
  {
    assert [a, b][1..] == [b];
    assert Spaced([b]) == b;
  }

  lemma FourSpaced(a: string, b: string, c: string, e: string)
    ensures Spaced([a, b, c]) == a + " " + (b + " " + c)
    ensures Spaced([a, b, c, e]) == a + " " + (b + " " + (c + " " + e))
  {
    assert [b, c][1..] == [c] && [a, b, c][1..] == [b, c];
    assert [c, e][1..] == [e] && [b, c, e][1..] == [c, e] && [a, b, c, e][1..] == [b, c, e];
    assert Spaced([b, c]) == b + " " + c && Spaced([c, e]) == c + " " + e;
    assert Spaced([b, c, e]) == b + " " + (c + " " + e);
  }

  lemma SixSpaced(a: string, b: string, c: string, e: string, f: string, g: string)
    ensures Spaced([a, b, c, e, f, g]) == a + " " + (b + " " + (c + " " + (e + " " + (f + " " + g))))
  {
    FourSpaced(c, e, f, g);
    assert [b, c, e, f, g][1..] == [c, e, f, g] && [a, b, c, e, f, g][1..] == [b, c, e, f, g];
    assert Spaced([b, c, e, f, g]) == b + " " + Spaced([c, e, f, g]);
  }

  lemma WireOrigin(d: Description, o: Origin)
    requires OriginWords(o)
    ensures ParseLine(d, "o=" + (o.username + " " + (o.sessionId + " " + (o.sessionVersion + " "
                                 + (o.netType + " " + (o.addrType + " " + o.unicastAddress))))))
         == Ok(d.(origin := o))
  {
    SixSpaced(o.username, o.sessionId, o.sessionVersion, o.netType, o.addrType, o.unicastAddress);
    assert "o=" + OriginValue(o) == Text('o', OriginValue(o));
    OriginLine(ParseLine, o, d);
  }

  lemma WireConnect(d: Description, c: ConnectData)
    requires ConnectWords(c)
    ensures ParseLine(d, "c=" + (c.netType + " " + (c.addrType + " " + c.connectionAddress))) == Ok(d.(connect := c))
  {
    FourSpaced(c.netType, c.addrType, c.connectionAddress, "");
    assert "c=" + ConnectValue(c) == Text('c', ConnectValue(c));
    ConnectLine(ParseLine, c, d);
  }

  lemma WireMedia(d: Description, m: Media)
    requires MediaWords(m)
    ensures ParseLine(d, "m=" + (m.media + " " + (m.port + " " + (m.proto + " " + m.fmt))))
         == Ok(d.(media := d.media + [m]))
  {
    FourSpaced(m.media, m.port, m.proto, m.fmt);
    assert "m=" + MediaValue(m) == Text('m', MediaValue(m));
    MediaLine(ParseLine, m, d);
  }

  lemma WireAttribute(d: Description, key: string, value: string)
    requires Attribute(key) && Attribute(value)
    ensures ParseLine(d, "a=" + (key + ":" + value)) == Ok(d.(attributes := d.attributes[key := value]))
  {
    assert "a=" + (key + ":" + value) == Text('a', key + ":" + value);
    AttributeLine(ParseLine, key, value, d);
  }
}
