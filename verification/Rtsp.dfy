/**
  RTSP messages on the wire (rtsp/parser.go, rtsp/rtsp.go; sections 4, 6.1, 7.1 and 12.14 of
  RFC 2326): what the readers accept, what the writers print, and the round trip between them.
 */
module Rtsp {
  import opened GoText
  import opened GoMaps

  datatype Method =
    | Describe | Announce | GetParameter | Options | Play | Pause
    | Record | Redirect | Setup | SetParameter | Teardown | Flush

  type Headers = map<string, string>

  datatype Request = Request(verb: Method, uri: string, protocol: string, headers: Headers, body: string)
  datatype Response = Response(protocol: string, status: int, headers: Headers, body: string)

  datatype Error =
    | EndOfStream
    | BadRequestLine | UnknownMethod
    | BadStatusLine | BadStatusNumber | UnknownStatus
    | BadHeader
    | ShortBody        // the original ends the process
    | NegativeLength   // the original panics

  datatype Result<T> = Ok(value: T) | Err(error: Error)

  // ---------------------------------------------------------------------------
  // Tables
  // ---------------------------------------------------------------------------

  /** The name of a method in upper case, as it is written. */
  function UpperName(m: Method): string {
    match m
    case Describe => "DESCRIBE"
    case Announce => "ANNOUNCE"
    case GetParameter => "GET_PARAMETER"
    case Options => "OPTIONS"
    case Play => "PLAY"
    case Pause => "PAUSE"
    case Record => "RECORD"
    case Redirect => "REDIRECT"
    case Setup => "SETUP"
    case SetParameter => "SET_PARAMETER"
    case Teardown => "TEARDOWN"
    case Flush => "FLUSH"
  }

  function Lower(c: char): char {
    if 'A' <= c <= 'Z' then (c as int + 32) as char else c
  }

  /** Equality after strings.ToLower. */
  predicate SameInLowerCase(s: string, t: string) {
    |s| == |t| && forall i | 0 <= i < |s| :: Lower(s[i]) == Lower(t[i])
  }

  /** The methods in the lookup table: all but Redirect. */
  const TABLE: seq<Method> :=
    [Describe, Announce, GetParameter, Options, Play, Pause, Record, Setup, SetParameter, Teardown, Flush]

  /** getMethod: looks the name up without regard to case. */
  function GetMethod(name: string): (r: Result<Method>)
    ensures r.Ok? ==> r.value != Redirect && SameInLowerCase(name, UpperName(r.value))
    ensures r.Err? ==> forall m: Method | m in TABLE :: !SameInLowerCase(name, UpperName(m))
  {
    GetMethodFrom(name, TABLE)
  }

  function GetMethodFrom(name: string, table: seq<Method>): (r: Result<Method>)
    ensures r.Ok? ==> r.value in table && SameInLowerCase(name, UpperName(r.value))
    ensures r.Err? ==> forall m: Method | m in table :: !SameInLowerCase(name, UpperName(m))
  {
    if table == [] then Err(UnknownMethod)
    else if SameInLowerCase(name, UpperName(table[0])) then Ok(table[0])
    else GetMethodFrom(name, table[1..])
  }

  /** The numbers in the status table. */
  const STATUSES: set<int> := {
    100, 200, 201, 250, 300, 301, 303, 305, 400, 401, 402, 403, 404, 405, 406, 407, 408, 410, 411, 412, 413, 414, 415,
    451, 452, 453, 454, 455, 456, 457, 458, 459, 460, 461, 462, 500, 501, 502, 503, 504, 505, 551
  }

  /** Status.String(): the phrase printed after a status number. Readers ignore it. */
  type Phrases = int -> string

  // ---------------------------------------------------------------------------
  // What the readers compute
  // ---------------------------------------------------------------------------

  datatype Parsed = Parsed(headers: Headers, rest: string)

  /** Reads header lines up to the empty line; later fields replace earlier ones of the same name. */
  function ParseHeaders(s: string, headers: Headers): Result<Parsed>
    decreases |s|
  {
    match ReadLine(s)
    case EndOfInput => Err(EndOfStream)
    case Line(text, rest) =>
      var field := Trim(text, CRLF);
      if field == "" then Ok(Parsed(headers, rest))
      else
        var parts := Split(field, ':');
        if |parts| < 2 then Err(BadHeader)
        else ParseHeaders(rest, headers[TrimSpace(parts[0]) := TrimSpace(parts[1])])
  }

  /** The body: as many bytes as Content-Length says, none without that header. */
  function ParseBody(headers: Headers, rest: string): Result<string> {
    if "Content-Length" !in headers then Ok("")
    else
      var length := Atoi(headers["Content-Length"]).value;
      if length < 0 then Err(NegativeLength)
      else if length > |rest| then Err(ShortBody)
      else Ok(rest[..length])
  }

  datatype Remainder = Remainder(headers: Headers, body: string)

  /** Everything after the first line. */
  function ParseRemainder(s: string): Result<Remainder> {
    match ParseHeaders(s, map[])
    case Err(e) => Err(e)
    case Ok(Parsed(headers, rest)) =>
      match ParseBody(headers, rest)
      case Err(e) => Err(e)
      case Ok(body) => Ok(Remainder(headers, body))
  }

  datatype FirstLine =
    | RequestStart(verb: Method, uri: string, protocol: string)
    | ResponseStart(protocol: string, status: int)

  function ParseRequestLine(line: string): (r: Result<FirstLine>)
    ensures r.Ok? ==> r.value.RequestStart?
  {
    var parts := Split(line, ' ');
    if |parts| != 3 then Err(BadRequestLine)
    else
      match GetMethod(parts[0])
      case Err(_) => Err(UnknownMethod)
      case Ok(verb) => Ok(RequestStart(verb, parts[1], parts[2]))
  }

  function ParseStatusLine(line: string): (r: Result<FirstLine>)
    ensures r.Ok? ==> r.value.ResponseStart?
  {
    var parts := Split(line, ' ');
    if |parts| != 3 then Err(BadStatusLine)
    else
      var status := Atoi(parts[1]);
      if !status.ok then Err(BadStatusNumber)
      else if status.value !in STATUSES then Err(UnknownStatus)
      else Ok(ResponseStart(parts[0], status.value))
  }

  function ParseRequest(s: string): Result<Request> {
    match ReadLine(s)
    case EndOfInput => Err(EndOfStream)
    case Line(text, rest) =>
      match ParseRequestLine(Trim(text, CRLF))
      case Err(e) => Err(e)
      case Ok(start) =>
        match ParseRemainder(rest)
        case Err(e) => Err(e)
        case Ok(Remainder(headers, body)) => Ok(Request(start.verb, start.uri, start.protocol, headers, body))
  }

  function ParseResponse(s: string): Result<Response> {
    match ReadLine(s)
    case EndOfInput => Err(EndOfStream)
    case Line(text, rest) =>
      match ParseStatusLine(Trim(text, CRLF))
      case Err(e) => Err(e)
      case Ok(start) =>
        match ParseRemainder(rest)
        case Err(e) => Err(e)
        case Ok(Remainder(headers, body)) => Ok(Response(start.protocol, start.status, headers, body))
  }

  // ---------------------------------------------------------------------------
  // What the writers print, for one iteration order of the headers
  // ---------------------------------------------------------------------------

  function HeaderLine(name: string, value: string): string {
    name + ": " + value + "\r\n"
  }

  function HeaderLines(headers: Headers, order: seq<string>): string
    requires forall k | k in order :: k in headers
  {
    if order == [] then ""
    else HeaderLines(headers, order[..|order| - 1]) + HeaderLine(order[|order| - 1], headers[order[|order| - 1]])
  }

  /** The length line, when there is a body, the empty line, and the body. */
  function Ending(body: string): string {
    (if body != "" then HeaderLine("Content-Length", Itoa(|body|)) else "") + "\r\n" + body
  }

  function RequestLine(r: Request): string {
    UpperName(r.verb) + " " + r.uri + " " + r.protocol
  }

  function StatusLine(r: Response, phrases: Phrases): string {
    r.protocol + " " + Itoa(r.status) + " " + phrases(r.status)
  }

  function RequestText(r: Request, order: seq<string>): string
    requires forall k | k in order :: k in r.headers
  {
    RequestLine(r) + "\r\n" + (HeaderLines(r.headers, order) + Ending(r.body))
  }

  function ResponseText(r: Response, phrases: Phrases, order: seq<string>): string
    requires forall k | k in order :: k in r.headers
  {
    StatusLine(r, phrases) + "\r\n" + (HeaderLines(r.headers, order) + Ending(r.body))
  }

  // ---------------------------------------------------------------------------
  // The readers and writers themselves
  // ---------------------------------------------------------------------------

  method ReadHeaders(input: string) returns (r: Result<Parsed>)
    ensures r == ParseHeaders(input, map[])
  {
    var headers: Headers := map[];
    var rest := input;
    while true
      invariant ParseHeaders(input, map[]) == ParseHeaders(rest, headers)
      decreases |rest|
    {
      var line := ReadLine(rest);
      if line.EndOfInput? {
        return Err(EndOfStream);
      }
      var field := Trim(line.text, CRLF);
      if field == "" {
        return Ok(Parsed(headers, line.rest));
      }
      var parts := Split(field, ':');
      if |parts| < 2 {
        return Err(BadHeader);
      }
      headers := headers[TrimSpace(parts[0]) := TrimSpace(parts[1])];
      rest := line.rest;
    }
  }

  method ReadRequest(input: string) returns (r: Result<Request>)
    ensures r == ParseRequest(input)
  {
    var line := ReadLine(input);
    if line.EndOfInput? {
      return Err(EndOfStream);
    }
    var parts := Split(Trim(line.text, CRLF), ' ');
    if |parts| != 3 {
      return Err(BadRequestLine);
    }
    var verb := GetMethod(parts[0]);
    if verb.Err? {
      return Err(UnknownMethod);
    }
    var parsed := ReadHeaders(line.rest);
    if parsed.Err? {
      return Err(parsed.error);
    }
    var body := ParseBody(parsed.value.headers, parsed.value.rest);
    if body.Err? {
      return Err(body.error);
    }
    r := Ok(Request(verb.value, parts[1], parts[2], parsed.value.headers, body.value));
  }

  method ReadResponse(input: string) returns (r: Result<Response>)
    ensures r == ParseResponse(input)
  {
    var line := ReadLine(input);
    if line.EndOfInput? {
      return Err(EndOfStream);
    }
    var parts := Split(Trim(line.text, CRLF), ' ');
    if |parts| != 3 {
      return Err(BadStatusLine);
    }
    var status := Atoi(parts[1]);
    if !status.ok {
      return Err(BadStatusNumber);
    }
    if status.value !in STATUSES {
      return Err(UnknownStatus);
    }
    var parsed := ReadHeaders(line.rest);
    if parsed.Err? {
      return Err(parsed.error);
    }
    var body := ParseBody(parsed.value.headers, parsed.value.rest);
    if body.Err? {
      return Err(body.error);
    }
    r := Ok(Response(parts[0], status.value, parsed.value.headers, body.value));
  }

  /** Appends the header fields in whatever order the map yields them. */
  method WriteHeaders(headers: Headers) returns (buffer: string, ghost order: seq<string>)
    ensures Enumerates(order, headers.Keys)
    ensures buffer == HeaderLines(headers, order)
  {
    buffer, order := "", [];
    var rest := headers.Keys;
    while rest != {}
      invariant rest <= headers.Keys
      invariant Enumerates(order, headers.Keys - rest)
      invariant buffer == HeaderLines(headers, order)
      decreases rest
    {
      var k :| k in rest;
      buffer := buffer + HeaderLine(k, headers[k]);
      EnumeratesMore(order, headers.Keys - rest, k);
      assert (order + [k])[..|order + [k]| - 1] == order;
      assert headers.Keys - rest + {k} == headers.Keys - (rest - {k});
      order := order + [k];
      rest := rest - {k};
    }
    assert headers.Keys - rest == headers.Keys;
  }

  method WriteRequest(r: Request) returns (text: string)
    ensures exists order :: Enumerates(order, r.headers.Keys) && text == RequestText(r, order)
  {
    var fields, order := WriteHeaders(r.headers);
    text := RequestLine(r) + "\r\n" + (fields + Ending(r.body));
    assert text == RequestText(r, order);
  }

  method WriteResponse(r: Response, phrases: Phrases) returns (text: string)
    ensures exists order :: Enumerates(order, r.headers.Keys) && text == ResponseText(r, phrases, order)
  {
    var fields, order := WriteHeaders(r.headers);
    text := StatusLine(r, phrases) + "\r\n" + (fields + Ending(r.body));
    assert text == ResponseText(r, phrases, order);
  }

  /** The statuses in the table: those of section 7.1.1 of RFC 2326 without 302 and 304. */
  lemma StatusRanges(n: int)
    ensures n in STATUSES <==>
              || n == 100 || n == 200 || n == 201 || n == 250 || n == 300 || n == 301 || n == 303 || n == 305
              || (400 <= n <= 415 && n != 409) || 451 <= n <= 462 || 500 <= n <= 505 || n == 551
  {
  }
}
