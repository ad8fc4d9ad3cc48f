/** Reading what was written gives back the message: exactly for the well-formed ones. */
module RtspRoundTrip {
  import opened GoText
  import opened GoMaps
  import opened Rtsp

  // ---------------------------------------------------------------------------
  // Header fields
  // ---------------------------------------------------------------------------

  /** A name or value that survives: no colon, no newline, no white space at its ends. */
  predicate GoodField(s: string) {
    ':' !in s && '\n' !in s && Trimmed(s, SPACES)
  }

  predicate GoodHeaders(headers: Headers) {
    forall k | k in headers :: GoodField(k) && GoodField(headers[k])
  }

  /** The entry that the length of a non-empty body replaces. */
  predicate Overwritten(name: string, body: string) {
    name == "Content-Length" && body != ""
  }

  /** Headers that survive: of an entry that is overwritten nothing is asked but to stay on one line. */
  predicate SafeHeaders(headers: Headers, body: string) {
    forall k | k in headers :: GoodField(k) && if Overwritten(k, body) then '\n' !in headers[k]
        else GoodField(headers[k])
  }

  /** What is left of a header value: it ends at the first colon, and loses the white space at its ends. */
  function Kept(value: string): string {
    TrimSpace(Split(value, ':')[0])
  }

  lemma KeptGood(value: string)
    requires GoodField(value)
    ensures Kept(value) == value
  {
    SplitWhole(value, ':');
    TrimOfTrimmed(value, SPACES);
  }

  lemma KeptBeforeColon(head: string, tail: string, rest: string)
    requires ':' !in head
    ensures TrimSpace(Split(" " + head + [':'] + rest, ':')[0]) == Kept(head + [':'] + tail)
  {
    SplitHead(" " + head, ':', rest);
    SplitHead(head, ':', tail);
    TrimPad(" ", head, "", SPACES);
    assert " " + head == " " + (head + "");
  }

  lemma KeptWhole(value: string, t: string, pad: string)
    requires ':' !in value && " " + value == t + pad && forall i | 0 <= i < |pad| :: pad[i] in CRLF
    ensures TrimSpace(Split(t, ':')[0]) == Kept(value)
  {
    assert forall c | c in t :: c in t + pad;
    SplitWhole(t, ':');
    SplitWhole(value, ':');
    TrimPad("", t, pad, SPACES);
    assert t + pad == "" + (t + pad);
    TrimPad(" ", value, "", SPACES);
    assert " " + value == " " + (value + "");
  }

  lemma CutAtColon(value: string, t: string, i: nat)
    requires i < |value| && value[i] == ':' && i + 2 <= |t| <= |value| + 1 && t == (" " + value)[..|t|]
    ensures t == " " + value[..i] + [':'] + t[i + 2..]
    ensures value == value[..i] + [':'] + value[i + 1..]
  {
  }

  /** The part after the name's colon, as the reader cuts it out. */
  lemma FirstPartKept(value: string)
    ensures TrimSpace(Split(TrimRight(" " + value, CRLF), ':')[0]) == Kept(value)
  {
    var w := " " + value;
    var t, i := TrimRight(w, CRLF), IndexOf(value, ':');
    TrimRightShape(w, CRLF);
    TrimRightRest(w, CRLF);
    if i < |value| {
      assert w[i + 1] == ':';
      CutAtColon(value, t, i);
      KeptBeforeColon(value[..i], value[i + 1..], t[i + 2..]);
    } else {
      assert w == t + w[|t|..];
      KeptWhole(value, t, w[|t|..]);
    }
  }

  lemma FieldLine(name: string, value: string)
    requires GoodField(name)
    ensures var field := Trim(name + ": " + value + "\r\n", CRLF);
            && field != "" && |Split(field, ':')| >= 2
            && TrimSpace(Split(field, ':')[0]) == name && TrimSpace(Split(field, ':')[1]) == Kept(value)
  {
    var p, w := name + ":", " " + value;
    var text := p + (w + "\r\n");
    assert text == name + ": " + value + "\r\n";
    assert text[0] == if name == "" then ':' else name[0];
    TrimRightAfter(p, w + "\r\n", CRLF);
    TrimRightPad(w, "\r\n", CRLF);
    var cut := TrimRight(w, CRLF);
    assert p + cut == name + [':'] + cut;
    SplitHead(name, ':', cut);
    TrimOfTrimmed(name, SPACES);
    FirstPartKept(value);
  }

  /** A name that survives and a value on one line. */
  predicate Readable(name: string, value: string) {
    GoodField(name) && '\n' !in value
  }

  lemma ReadField(name: string, value: string, tail: string, headers: Headers)
    requires Readable(name, value)
    ensures ParseHeaders(HeaderLine(name, value) + tail, headers) == ParseHeaders(tail, headers[name := Kept(value)])
  {
    var text := name + ": " + value + "\r";
    assert HeaderLine(name, value) + tail == text + "\n" + tail;
    ReadLineHead(text, tail);
    assert text + "\n" == name + ": " + value + "\r\n";
    FieldLine(name, value);
  }

  predicate ReadableHeaders(headers: Headers) {
    forall k | k in headers :: Readable(k, headers[k])
  }

  /** The listed headers, as far as their values are kept. */
  function KeptHeaders(headers: Headers, order: seq<string>): Headers {
    map k | k in headers && k in order :: Kept(headers[k])
  }

  lemma {:induction false} ReadFields(headers: Headers, order: seq<string>, tail: string)
    requires ReadableHeaders(headers) && forall k | k in order :: k in headers
    ensures ParseHeaders(HeaderLines(headers, order) + tail, map[]) == ParseHeaders(tail, KeptHeaders(headers, order))
  {
    if order == [] {
      assert HeaderLines(headers, order) + tail == tail;
      assert KeptHeaders(headers, order) == map[];
    } else {
      var front, k := order[..|order| - 1], order[|order| - 1];
      LastLine(headers, order, tail);
      ReadFields(headers, front, HeaderLine(k, headers[k]) + tail);
      ReadField(k, headers[k], tail, KeptHeaders(headers, front));
    }
  }

  lemma LastLine(headers: Headers, order: seq<string>, tail: string)
    requires order != [] && forall k | k in order :: k in headers
    ensures var front, k := order[..|order| - 1], order[|order| - 1];
            && HeaderLines(headers, order) + tail == HeaderLines(headers, front) + (HeaderLine(k, headers[k]) + tail)
            && KeptHeaders(headers, order) == KeptHeaders(headers, front)[k := Kept(headers[k])]
  {
    assert order == order[..|order| - 1] + [order[|order| - 1]];
  }

  // ---------------------------------------------------------------------------
  // The end of the message
  // ---------------------------------------------------------------------------

  /** The headers the reader sees: a non-empty body's length replaces any Content-Length, because it is written last. */
  function SeenHeaders(headers: Headers, body: string): Headers {
    if body != "" then headers["Content-Length" := Itoa(|body|)] else headers
  }

  lemma ReadEmptyLine(rest: string, headers: Headers)
    ensures ParseHeaders("\r\n" + rest, headers) == Ok(Parsed(headers, rest))
  {
    LineRoundTrip("", rest);
    assert "" + "\r\n" + rest == "\r\n" + rest;
  }

  lemma EndingSplits(body: string, rest: string)
    ensures Ending(body) + rest
         == if body == "" then "\r\n" + (body + rest)
            else HeaderLine("Content-Length", Itoa(|body|)) + ("\r\n" + (body + rest))
  {
  }

  lemma ReadEnding(body: string, rest: string, headers: Headers)
    ensures ParseHeaders(Ending(body) + rest, headers) == Ok(Parsed(SeenHeaders(headers, body), body + rest))
  {
    EndingSplits(body, rest);
    if body == "" {
      ReadEmptyLine(body + rest, headers);
    } else {
      GoodLength(body);
      ReadField("Content-Length", Itoa(|body|), "\r\n" + (body + rest), headers);
      KeptGood(Itoa(|body|));
      ReadEmptyLine(body + rest, headers["Content-Length" := Itoa(|body|)]);
    }
  }

  lemma GoodLength(body: string)
    ensures GoodField("Content-Length") && GoodField(Itoa(|body|))
  {
  }

  /** Without a body, a Content-Length field must not ask for one. */
  predicate LengthHarmless(headers: Headers, body: string) {
    body == "" && "Content-Length" in headers ==> Atoi(headers["Content-Length"]).value == 0
  }

  lemma ReadBody(headers: Headers, body: string, rest: string)
    requires LengthHarmless(headers, body) && |body| <= MAX_INT
    ensures ParseBody(SeenHeaders(headers, body), body + rest) == Ok(body)
  {
    if body != "" {
      AtoiOfItoa(|body|);
    }
    assert (body + rest)[..|body|] == body;
  }

  /** All headers, as far as their values are kept. */
  function AllKept(headers: Headers): Headers {
    map k | k in headers :: Kept(headers[k])
  }

  lemma ReadAllFields(headers: Headers, order: seq<string>, body: string, rest: string)
    requires ReadableHeaders(headers) && Enumerates(order, headers.Keys)
    ensures ParseHeaders(HeaderLines(headers, order) + Ending(body) + rest, map[])
         == Ok(Parsed(SeenHeaders(AllKept(headers), body), body + rest))
  {
    Appended(HeaderLines(headers, order), Ending(body), rest);
    ReadFields(headers, order, Ending(body) + rest);
    assert KeptHeaders(headers, order) == AllKept(headers);
    ReadEnding(body, rest, AllKept(headers));
  }

  /** Everything after the first line, for every order of the fields and everything that may follow the message. */
  lemma ReadRemainder(headers: Headers, order: seq<string>, body: string, rest: string)
    requires ReadableHeaders(headers) && Enumerates(order, headers.Keys)
    requires LengthHarmless(AllKept(headers), body) && |body| <= MAX_INT
    ensures ParseRemainder(HeaderLines(headers, order) + Ending(body) + rest)
         == Ok(Remainder(SeenHeaders(AllKept(headers), body), body))
  {
    ReadAllFields(headers, order, body, rest);
    ReadBody(AllKept(headers), body, rest);
  }

  lemma SafeHeadersKept(headers: Headers, body: string)
    requires SafeHeaders(headers, body)
    ensures ReadableHeaders(headers) && SeenHeaders(AllKept(headers), body) == SeenHeaders(headers, body)
    ensures LengthHarmless(AllKept(headers), body) <==> LengthHarmless(headers, body)
  {
    forall k | k in headers && !Overwritten(k, body) ensures Kept(headers[k]) == headers[k] {
      KeptGood(headers[k]);
    }
  }

  // ---------------------------------------------------------------------------
  // First lines
  // ---------------------------------------------------------------------------

  /** One of the three parts of a first line. */
  predicate LinePart(s: string) {
    ' ' !in s && '\n' !in s
  }

  predicate CleanStart(s: string) {
    s == "" || s[0] !in CRLF
  }

  predicate CleanEnd(s: string) {
    s == "" || s[|s| - 1] !in CRLF
  }

  lemma ThreeParts(a: string, b: string, c: string)
    requires LinePart(a) && LinePart(b) && LinePart(c)
    requires CleanStart(a) && CleanEnd(c)
    ensures var text := a + " " + b + " " + c;
            '\n' !in text && Trimmed(text, CRLF) && Split(text, ' ') == [a, b, c]
  {
    ThreePartsTrimmed(a, b, c);
    ThreePartsSplit(a, b, c);
  }

  lemma ThreePartsTrimmed(a: string, b: string, c: string)
    requires LinePart(a) && LinePart(b) && LinePart(c)
    requires CleanStart(a) && CleanEnd(c)
    ensures var text := a + " " + b + " " + c; '\n' !in text && Trimmed(text, CRLF)
  {
  }

  lemma TwoPartsSplit(b: string, c: string)
    requires LinePart(b) && LinePart(c)
    ensures Split(b + [' '] + c, ' ') == [b, c]
  {
    SplitHead(b, ' ', c);
    SplitWhole(c, ' ');
  }

  lemma ThreePartsSplit(a: string, b: string, c: string)
    requires LinePart(a) && LinePart(b) && LinePart(c)
    ensures Split(a + " " + b + " " + c, ' ') == [a, b, c]
  {
    var bc := b + [' '] + c;
    TwoPartsSplit(b, c);
    Regroup(a, b, c);
    SplitHead(a, ' ', bc);
  }

  lemma Regroup(a: string, b: string, c: string)
    ensures a + " " + b + " " + c == a + [' '] + (b + [' '] + c)
  {
  }

  lemma UpperNameIsPart(m: Method)
    ensures LinePart(UpperName(m)) && UpperName(m) != "" && UpperName(m)[0] !in CRLF
  {
  }

  lemma NamesDiffer(a: Method, b: Method)
    requires SameInLowerCase(UpperName(a), UpperName(b)) && a != Redirect && b != Redirect
    ensures a == b
  {
    assert Lower(UpperName(a)[0]) == Lower(UpperName(b)[0]);
    assert |UpperName(a)| == |UpperName(b)|;
  }

  lemma {:induction false} FoundInTable(m: Method, table: seq<Method>)
    requires m in table && Redirect !in table
    ensures GetMethodFrom(UpperName(m), table) == Ok(m)
  {
    if SameInLowerCase(UpperName(m), UpperName(table[0])) {
      NamesDiffer(m, table[0]);
    } else {
      FoundInTable(m, table[1..]);
    }
  }

  lemma MethodRoundTrip(m: Method)
    ensures GetMethod(UpperName(m)).Ok? <==> m != Redirect
    ensures m != Redirect ==> GetMethod(UpperName(m)) == Ok(m)
  {
    if m == Redirect {
      RedirectUnknown(TABLE);
    } else {
      assert m in TABLE;
      FoundInTable(m, TABLE);
    }
  }

  lemma StartsWithR(m: Method)
    requires m != Redirect
    ensures !SameInLowerCase(UpperName(Redirect), UpperName(m))
  {
    var name := UpperName(m);
    assert m == Record ==> |name| == 6;
    assert |UpperName(Redirect)| == 8 && Lower(UpperName(Redirect)[0]) == 'r';
    assert m != Record ==> Lower(name[0]) != 'r';
  }

  lemma {:induction false} RedirectUnknown(table: seq<Method>)
    requires Redirect !in table
    ensures GetMethodFrom(UpperName(Redirect), table).Err?
  {
    if table != [] {
      StartsWithR(table[0]);
      RedirectUnknown(table[1..]);
    }
  }

  // ---------------------------------------------------------------------------
  // Requests
  // ---------------------------------------------------------------------------

  predicate GoodRequestLine(r: Request) {
    r.verb != Redirect && LinePart(r.uri) && LinePart(r.protocol) && CleanEnd(r.protocol)
  }

  predicate WellFormedRequest(r: Request) {
    GoodRequestLine(r) && SafeHeaders(r.headers, r.body) && LengthHarmless(r.headers, r.body)
  }

  /** The request as the reader is meant to see it. */
  function SeenRequest(r: Request): Request {
    r.(headers := SeenHeaders(r.headers, r.body))
  }

  /** What becomes of every request with a good first line and headers on one line each. */
  lemma RequestIsRead(r: Request, order: seq<string>, rest: string)
    requires GoodRequestLine(r) && ReadableHeaders(r.headers) && LengthHarmless(AllKept(r.headers), r.body)
    requires |r.body| <= MAX_INT && Enumerates(order, r.headers.Keys)
    ensures ParseRequest(RequestText(r, order) + rest) == Ok(SeenRequest(r.(headers := AllKept(r.headers))))
  {
    var after := HeaderLines(r.headers, order) + Ending(r.body) + rest;
    RequestLineRoundTrip(r);
    LineRoundTrip(RequestLine(r), after);
    ReadRemainder(r.headers, order, r.body, rest);
    RequestSplits(r, order, rest);
  }

  /** For every field order and whatever follows the message, a well-formed request is read back. */
  lemma RequestRoundTrip(r: Request, order: seq<string>, rest: string)
    requires WellFormedRequest(r) && |r.body| <= MAX_INT && Enumerates(order, r.headers.Keys)
    ensures ParseRequest(RequestText(r, order) + rest) == Ok(SeenRequest(r))
  {
    SafeHeadersKept(r.headers, r.body);
    RequestIsRead(r, order, rest);
  }

  lemma RequestSplits(r: Request, order: seq<string>, rest: string)
    requires forall k | k in order :: k in r.headers
    ensures RequestText(r, order) + rest
         == RequestLine(r) + "\r\n" + (HeaderLines(r.headers, order) + Ending(r.body) + rest)
  {
  }

  lemma Appended(a: string, b: string, c: string)
    ensures (a + b) + c == a + (b + c)
  {
  }

  lemma RequestLineRoundTrip(r: Request)
    requires GoodRequestLine(r)
    ensures '\n' !in RequestLine(r) && Trimmed(RequestLine(r), CRLF)
    ensures ParseRequestLine(RequestLine(r)) == Ok(RequestStart(r.verb, r.uri, r.protocol))
  {
    UpperNameIsPart(r.verb);
    ThreeParts(UpperName(r.verb), r.uri, r.protocol);
    MethodRoundTrip(r.verb);
  }

  // ---------------------------------------------------------------------------
  // Responses
  // ---------------------------------------------------------------------------

  /** Every phrase is one word, as all of Status.String() are. */
  ghost predicate OneWordPhrases(phrases: Phrases) {
    forall status :: LinePart(phrases(status)) && CleanEnd(phrases(status))
  }

  predicate GoodStatusLine(r: Response) {
    LinePart(r.protocol) && CleanStart(r.protocol) && r.status in STATUSES
  }

  predicate WellFormedResponse(r: Response) {
    GoodStatusLine(r) && SafeHeaders(r.headers, r.body) && LengthHarmless(r.headers, r.body)
  }

  function SeenResponse(r: Response): Response {
    r.(headers := SeenHeaders(r.headers, r.body))
  }

  lemma ItoaIsPart(n: int)
    ensures LinePart(Itoa(n))
  {
  }

  lemma ResponseIsRead(r: Response, phrases: Phrases, order: seq<string>, rest: string)
    requires GoodStatusLine(r) && ReadableHeaders(r.headers) && LengthHarmless(AllKept(r.headers), r.body)
    requires |r.body| <= MAX_INT && Enumerates(order, r.headers.Keys) && OneWordPhrases(phrases)
    ensures ParseResponse(ResponseText(r, phrases, order) + rest) == Ok(SeenResponse(r.(headers := AllKept(r.headers))))
  {
    var after := HeaderLines(r.headers, order) + Ending(r.body) + rest;
    StatusLineRoundTrip(r, phrases);
    LineRoundTrip(StatusLine(r, phrases), after);
    ReadRemainder(r.headers, order, r.body, rest);
    Appended(StatusLine(r, phrases) + "\r\n", HeaderLines(r.headers, order) + Ending(r.body), rest);
  }

  lemma ResponseRoundTrip(r: Response, phrases: Phrases, order: seq<string>, rest: string)
    requires WellFormedResponse(r) && |r.body| <= MAX_INT && Enumerates(order, r.headers.Keys)
    requires OneWordPhrases(phrases)
    ensures ParseResponse(ResponseText(r, phrases, order) + rest) == Ok(SeenResponse(r))
  {
    SafeHeadersKept(r.headers, r.body);
    ResponseIsRead(r, phrases, order, rest);
  }

  lemma StatusLineRoundTrip(r: Response, phrases: Phrases)
    requires GoodStatusLine(r) && OneWordPhrases(phrases)
    ensures '\n' !in StatusLine(r, phrases) && Trimmed(StatusLine(r, phrases), CRLF)
    ensures ParseStatusLine(StatusLine(r, phrases)) == Ok(ResponseStart(r.protocol, r.status))
  {
    ItoaIsPart(r.status);
    ThreeParts(r.protocol, Itoa(r.status), phrases(r.status));
    StatusParts(StatusLine(r, phrases), r.protocol, r.status, phrases(r.status));
  }

  lemma StatusParts(line: string, protocol: string, status: int, phrase: string)
    requires Split(line, ' ') == [protocol, Itoa(status), phrase] && status in STATUSES
    ensures ParseStatusLine(line) == Ok(ResponseStart(protocol, status))
  {
    SmallStatus(status);
    AtoiOfItoa(status);
  }

  lemma SmallStatus(status: int)
    requires status in STATUSES
    ensures 0 <= status < 1000
  {
  }

  // ---------------------------------------------------------------------------
  // The well-formed messages are exactly those that survive
  // ---------------------------------------------------------------------------

  lemma {:induction false} ParsedHeadersAreGood(s: string, headers: Headers)
    requires GoodHeaders(headers) && ParseHeaders(s, headers).Ok?
    ensures GoodHeaders(ParseHeaders(s, headers).value.headers)
    decreases |s|
  {
    var line := ReadLine(s);
    var field := Trim(line.text, CRLF);
    if field != "" {
      var parts := Split(field, ':');
      TrimmedLine(s);
      ParsedFieldIsGood(field, 0);
      ParsedFieldIsGood(field, 1);
      ParsedHeadersAreGood(line.rest, headers[TrimSpace(parts[0]) := TrimSpace(parts[1])]);
    }
  }

  lemma ParsedFieldIsGood(field: string, j: nat)
    requires '\n' !in field && j < |Split(field, ':')|
    ensures GoodField(TrimSpace(Split(field, ':')[j]))
  {
    SplitShape(field, ':', j);
    TrimShape(Split(field, ':')[j], SPACES);
  }

  lemma ParsedRemainderIsGood(s: string)
    requires ParseRemainder(s).Ok?
    ensures var r := ParseRemainder(s).value; GoodHeaders(r.headers) && LengthHarmless(r.headers, r.body)
  {
    ParsedHeadersAreGood(s, map[]);
  }

  predicate EndsLike(t: string, s: string) {
    t == "" || (s != "" && t[|t| - 1] == s[|s| - 1])
  }

  lemma {:induction false} LastPartEnds(s: string, sep: char)
    ensures EndsLike(Split(s, sep)[|Split(s, sep)| - 1], s)
    decreases |s|
  {
    var i := IndexOf(s, sep);
    if i < |s| {
      var tail := s[i + 1..];
      LastPartEnds(tail, sep);
      var parts := Split(tail, sep);
      assert Split(s, sep) == [s[..i]] + parts;
      assert EndsLike(parts[|parts| - 1], s) by {
        assert tail != "" ==> tail[|tail| - 1] == s[|s| - 1];
      }
    }
  }

  lemma FirstPartStarts(s: string, sep: char)
    ensures var first := Split(s, sep)[0]; first == "" || (s != "" && first[0] == s[0])
  {
  }

  /** Whatever is read as a request is well-formed. */
  lemma ParsedRequestIsWellFormed(s: string)
    requires ParseRequest(s).Ok?
    ensures WellFormedRequest(ParseRequest(s).value) && GoodHeaders(ParseRequest(s).value.headers)
  {
    var line := ReadLine(s);
    var field := Trim(line.text, CRLF);
    TrimmedLine(s);
    SplitShape(field, ' ', 1);
    SplitShape(field, ' ', 2);
    LastPartEnds(field, ' ');
    ParsedRemainderIsGood(line.rest);
  }

  lemma ParsedResponseIsWellFormed(s: string)
    requires ParseResponse(s).Ok?
    ensures WellFormedResponse(ParseResponse(s).value) && GoodHeaders(ParseResponse(s).value.headers)
  {
    var line := ReadLine(s);
    var field := Trim(line.text, CRLF);
    TrimmedLine(s);
    SplitShape(field, ' ', 0);
    FirstPartStarts(field, ' ');
    ParsedRemainderIsGood(line.rest);
  }

  /** Every set has an iteration order. */
  lemma {:induction false} SomeOrder(s: set<string>) returns (order: seq<string>)
    ensures Enumerates(order, s)
  {
    if s == {} {
      order := [];
    } else {
      var k :| k in s;
      var rest := SomeOrder(s - {k});
      EnumeratesMore(rest, s - {k}, k);
      assert s - {k} + {k} == s;
      order := rest + [k];
    }
  }

  ghost predicate RequestSurvives(r: Request) {
    forall order, rest | Enumerates(order, r.headers.Keys) ::
      ParseRequest(RequestText(r, order) + rest) == Ok(SeenRequest(r))
  }

  ghost predicate ResponseSurvives(r: Response, phrases: Phrases) {
    forall order, rest | Enumerates(order, r.headers.Keys) ::
      ParseResponse(ResponseText(r, phrases, order) + rest) == Ok(SeenResponse(r))
  }

  /** An entry that is overwritten stays on one line. */
  predicate StaleOnOneLine(headers: Headers, body: string) {
    forall k | k in headers && Overwritten(k, body) :: '\n' !in headers[k]
  }

  /** Exactly the well-formed requests survive. */
  lemma RequestSurvivesExactlyWhen(r: Request)
    requires |r.body| <= MAX_INT && StaleOnOneLine(r.headers, r.body)
    ensures RequestSurvives(r) <==> WellFormedRequest(r)
  {
    if WellFormedRequest(r) {
      forall order, rest | Enumerates(order, r.headers.Keys)
        ensures ParseRequest(RequestText(r, order) + rest) == Ok(SeenRequest(r))
      {
        RequestRoundTrip(r, order, rest);
      }
    }
    if RequestSurvives(r) {
      var order := SomeOrder(r.headers.Keys);
      assert ParseRequest(RequestText(r, order) + "") == Ok(SeenRequest(r));
      ParsedRequestIsWellFormed(RequestText(r, order) + "");
      SeenHeadersGood(r.headers, r.body);
    }
  }

  lemma ResponseSurvivesExactlyWhen(r: Response, phrases: Phrases)
    requires |r.body| <= MAX_INT && StaleOnOneLine(r.headers, r.body) && OneWordPhrases(phrases)
    ensures ResponseSurvives(r, phrases) <==> WellFormedResponse(r)
  {
    if WellFormedResponse(r) {
      forall order, rest | Enumerates(order, r.headers.Keys)
        ensures ParseResponse(ResponseText(r, phrases, order) + rest) == Ok(SeenResponse(r))
      {
        ResponseRoundTrip(r, phrases, order, rest);
      }
    }
    if ResponseSurvives(r, phrases) {
      var order := SomeOrder(r.headers.Keys);
      assert ParseResponse(ResponseText(r, phrases, order) + "") == Ok(SeenResponse(r));
      ParsedResponseIsWellFormed(ResponseText(r, phrases, order) + "");
      SeenHeadersGood(r.headers, r.body);
    }
  }

  lemma SeenHeadersGood(headers: Headers, body: string)
    requires GoodHeaders(SeenHeaders(headers, body)) && LengthHarmless(SeenHeaders(headers, body), body)
    requires StaleOnOneLine(headers, body)
    ensures SafeHeaders(headers, body) && LengthHarmless(headers, body)
  {
    forall k | k in headers ensures GoodField(k) && (!Overwritten(k, body) ==> GoodField(headers[k])) {
      assert k in SeenHeaders(headers, body);
      assert !Overwritten(k, body) ==> SeenHeaders(headers, body)[k] == headers[k];
    }
  }

  // ---------------------------------------------------------------------------
  // A message that is lost
  // ---------------------------------------------------------------------------

  lemma OneHeaderRead(r: Request, name: string, value: string, order: seq<string>, rest: string)
    requires GoodRequestLine(r) && r.body == "" && r.headers == map[name := value]
    requires Readable(name, value) && name != "Content-Length" && Enumerates(order, r.headers.Keys)
    ensures ParseRequest(RequestText(r, order) + rest) == Ok(r.(headers := map[name := Kept(value)]))
    ensures Kept(value) != value ==> !RequestSurvives(r)
  {
    assert AllKept(r.headers) == map[name := Kept(value)];
    RequestIsRead(r, order, rest);
    if Kept(value) != value {
      assert map[name := Kept(value)][name] != r.headers[name];
    }
  }

  lemma KeptColon()
    ensures Kept("npt:0") == "npt" && "npt:0" != "npt"
  {
    assert "npt:0" == "npt" + [':'] + "0";
    SplitHead("npt", ':', "0");
    TrimOfTrimmed("npt", SPACES);
    assert |"npt:0"| == 5 && |"npt"| == 3;
  }

  lemma RangeIsReadable()
    ensures Readable("Range", "npt:0") && "Range" != "Content-Length"
  {
    assert |"Range"| == 5 && |"Content-Length"| == 14;
  }

  /** A header value with a colon comes back without what follows it. */
  lemma ColonIsLost(r: Request, order: seq<string>, rest: string)
    requires GoodRequestLine(r) && r.body == "" && r.headers == map["Range" := "npt:0"]
    requires Enumerates(order, r.headers.Keys)
    ensures ParseRequest(RequestText(r, order) + rest) == Ok(r.(headers := map["Range" := "npt"]))
    ensures !RequestSurvives(r)
  {
    KeptColon();
    RangeIsReadable();
    OneHeaderRead(r, "Range", "npt:0", order, rest);
  }

  // ---------------------------------------------------------------------------
  // On the wire
  // ---------------------------------------------------------------------------

  /** The names of the methods that the handshake and the player use. */
  lemma MethodNames()
    ensures GetMethod("OPTIONS") == Ok(Method.Options) && GetMethod("ANNOUNCE") == Ok(Method.Announce)
    ensures GetMethod("SETUP") == Ok(Method.Setup) && GetMethod("RECORD") == Ok(Method.Record)
  {
    MethodRoundTrip(Method.Options);
    MethodRoundTrip(Method.Announce);
    MethodRoundTrip(Method.Setup);
    MethodRoundTrip(Method.Record);
  }

  lemma MoreMethodNames()
    ensures GetMethod("SET_PARAMETER") == Ok(Method.SetParameter) && GetMethod("FLUSH") == Ok(Method.Flush)
    ensures GetMethod("TEARDOWN") == Ok(Method.Teardown) && GetMethod("REDIRECT").Err?
  {
    MethodRoundTrip(Method.SetParameter);
    MethodRoundTrip(Method.Flush);
    MethodRoundTrip(Method.Teardown);
    MethodRoundTrip(Method.Redirect);
  }

  lemma OtherMethodNames()
    ensures GetMethod("DESCRIBE") == Ok(Method.Describe) && GetMethod("GET_PARAMETER") == Ok(Method.GetParameter)
    ensures GetMethod("PLAY") == Ok(Method.Play) && GetMethod("PAUSE") == Ok(Method.Pause)
  {
    MethodRoundTrip(Method.Describe);
    MethodRoundTrip(Method.GetParameter);
    MethodRoundTrip(Method.Play);
    MethodRoundTrip(Method.Pause);
  }

  /** First the method, then the URI, then the protocol. */
  lemma WireLine(name: string, uri: string, protocol: string)
    requires GetMethod(name).Ok? && LinePart(name) && LinePart(uri) && LinePart(protocol)
    ensures ParseRequestLine(name + " " + uri + " " + protocol)
            == Ok(RequestStart(GetMethod(name).value, uri, protocol))
  {
    ThreePartsSplit(name, uri, protocol);
  }

  lemma WireRequestParts(line: string, fields: string, start: FirstLine, remainder: Remainder)
    requires '\n' !in line && Trimmed(line, CRLF) && start.RequestStart? && ParseRequestLine(line) == Ok(start)
    requires ParseRemainder(fields) == Ok(remainder)
    ensures ParseRequest(line + "\r\n" + fields)
         == Ok(Request(start.verb, start.uri, start.protocol, remainder.headers, remainder.body))
  {
    LineRoundTrip(line, fields);
  }

  /** A header field and the length, each as name, colon, blank and value, then an empty line and the body. */
  function Message(line: string, key: string, value: string, body: string): string {
    line + "\r\n"
    + (key + ": " + value + "\r\n" + ("Content-Length" + ": " + Itoa(|body|) + "\r\n" + ("\r\n" + body)))
  }

  /** What a request is when it is spelled out, for every method name, URI, protocol, header and body. */
  lemma WireRequest(name: string, uri: string, protocol: string, key: string, value: string, body: string)
    requires GetMethod(name).Ok? && LinePart(name) && CleanStart(name)
    requires LinePart(uri) && LinePart(protocol) && CleanEnd(protocol)
    requires GoodField(key) && GoodField(value) && key != "Content-Length" && 0 < |body| <= MAX_INT
    ensures ParseRequest(Message(name + " " + uri + " " + protocol, key, value, body))
         == Ok(Request(GetMethod(name).value, uri, protocol, map[key := value, "Content-Length" := Itoa(|body|)], body))
  {
    ThreePartsTrimmed(name, uri, protocol);
    WireLine(name, uri, protocol);
    WireFields(key, value, body, "");
    assert body + "" == body;
    var remainder := Remainder(map[key := value, "Content-Length" := Itoa(|body|)], body);
    WireRequestParts(name + " " + uri + " " + protocol,
                     HeaderLine(key, value) + (HeaderLine("Content-Length", Itoa(|body|)) + ("\r\n" + body)),
                     RequestStart(GetMethod(name).value, uri, protocol), remainder);
  }

  lemma WireFields(key: string, value: string, body: string, rest: string)
    requires GoodField(key) && GoodField(value) && key != "Content-Length" && 0 < |body| <= MAX_INT
    ensures ParseRemainder(
              HeaderLine(key, value) + (HeaderLine("Content-Length", Itoa(|body|)) + ("\r\n" + (body + rest))))
         == Ok(Remainder(map[key := value, "Content-Length" := Itoa(|body|)], body))
  {
    var end := "\r\n" + (body + rest);
    KeptGood(value);
    ReadField(key, value, HeaderLine("Content-Length", Itoa(|body|)) + end, map[]);
    GoodLength(body);
    KeptGood(Itoa(|body|));
    ReadField("Content-Length", Itoa(|body|), end, map[key := value]);
    ReadEmptyLine(body + rest, map[key := value, "Content-Length" := Itoa(|body|)]);
    AtoiOfItoa(|body|);
    assert (body + rest)[..|body|] == body;
  }

  /** First the protocol, then the number, then the phrase. */
  lemma WireStatus(protocol: string, status: int, phrase: string)
    requires LinePart(protocol) && LinePart(phrase) && status in STATUSES
    ensures ParseStatusLine(protocol + " " + Itoa(status) + " " + phrase) == Ok(ResponseStart(protocol, status))
  {
    ItoaIsPart(status);
    ThreePartsSplit(protocol, Itoa(status), phrase);
    StatusParts(protocol + " " + Itoa(status) + " " + phrase, protocol, status, phrase);
  }
}
