/** The Transport header of SETUP (raop/airplay.go, raop/client.go; section 12.39 of RFC 2326). */
module Transport {
  import opened GoText

  // ---------------------------------------------------------------------------
  // Reading
  // ---------------------------------------------------------------------------

  /** strings.Contains */
  predicate Contains(s: string, sub: string) {
    sub <= s || (s != "" && Contains(s[1..], sub))
  }

  /** A part that has the name but no '=' indexes out of range in the original. */
  datatype Found = Found(port: int) | Panic

  /** The port with the given name in the parts, `port` when there is none. */
  function PortNamed(parts: seq<string>, name: string, port: int): Found {
    if parts == [] then Found(port)
    else if !Contains(parts[0], name) then PortNamed(parts[1..], name, port)
    else if |Split(parts[0], '=')| < 2 then Panic
    else PortNamed(parts[1..], name, Atoi(Split(parts[0], '=')[1]).value)
  }

  /** The loop of both ends; only the client asks for the data port. */
  method ReadPorts(transport: string, client: bool) returns (ok: bool, control: int, timing: int, data: int)
    ensures var parts := Split(transport, ';');
            var c, t, d := PortNamed(parts, "control_port", 0), PortNamed(parts, "timing_port", 0),
                PortNamed(parts, "server_port", 0);
            && ok == (c.Found? && t.Found? && (client ==> d.Found?))
            && (ok ==> c == Found(control) && t == Found(timing) && (if client then d == Found(data) else data == 0))
  {
    var parts := Split(transport, ';');
    ok, control, timing, data := true, 0, 0, 0;
    for i := 0 to |parts|
      invariant ok
      invariant PortNamed(parts, "control_port", 0) == PortNamed(parts[i..], "control_port", control)
      invariant PortNamed(parts, "timing_port", 0) == PortNamed(parts[i..], "timing_port", timing)
      invariant if client then PortNamed(parts, "server_port", 0) == PortNamed(parts[i..], "server_port", data)
                else data == 0
    {
      assert parts[i..][0] == parts[i] && parts[i..][1..] == parts[i + 1..];
      ok, control := ReadPort(parts[i], "control_port", control);
      if !ok {
        return;
      }
      ok, timing := ReadPort(parts[i], "timing_port", timing);
      if !ok {
        return;
      }
      if client {
        ok, data := ReadPort(parts[i], "server_port", data);
        if !ok {
          return;
        }
      }
    }
  }

  method ReadPort(part: string, name: string, port: int) returns (ok: bool, r: int)
    ensures ok == (Contains(part, name) ==> |Split(part, '=')| >= 2)
    ensures ok ==> r == if Contains(part, name) then Atoi(Split(part, '=')[1]).value else port
  {
    ok, r := true, port;
    if Contains(part, name) {
      var sides := Split(part, '=');
      ok := |sides| >= 2;
      if ok {
        r := Atoi(sides[1]).value;
      }
    }
  }

  // ---------------------------------------------------------------------------
  // Printing
  // ---------------------------------------------------------------------------

  function Joined(parts: seq<string>, sep: char): string
    requires parts != []
  {
    if |parts| == 1 then parts[0] else parts[0] + [sep] + Joined(parts[1..], sep)
  }

  function Labelled(name: string, n: int): string {
    name + "=" + Itoa(n)
  }

  const CONTROL_PORT := 6001
  const TIMING_PORT := 6002

  /** What the server answers. */
  function ServerParts(data: int): seq<string> {
    ["RTP/AVP/UDP", "unicast", "mode=record",
     Labelled("server_port", data), Labelled("control_port", CONTROL_PORT), Labelled("timing_port", TIMING_PORT)]
  }

  function ServerTransport(data: int): string {
    Joined(ServerParts(data), ';')
  }

  /** What the client asks for; the original always asks for 8888 and 8889. */
  function ClientParts(control: int, timing: int): seq<string> {
    ["RTP/AVP/UDP", "unicast", "interleaved=0-1", "mode=record",
     Labelled("control_port", control), Labelled("timing_port", timing)]
  }

  function ClientTransport(control: int, timing: int): string {
    Joined(ClientParts(control, timing), ';')
  }

  // ---------------------------------------------------------------------------
  // Reading what was printed
  // ---------------------------------------------------------------------------

  lemma {:induction false} SplitJoined(parts: seq<string>, sep: char)
    requires parts != [] && forall i | 0 <= i < |parts| :: sep !in parts[i]
    ensures Split(Joined(parts, sep), sep) == parts
  {
    if |parts| == 1 {
      SplitWhole(parts[0], sep);
    } else {
      SplitJoined(parts[1..], sep);
      SplitHead(parts[0], sep, Joined(parts[1..], sep));
    }
  }

  /** The only part with the name decides. */
  lemma {:induction false} OnlyPart(parts: seq<string>, j: nat, name: string, n: int, port: int)
    requires j < |parts| && (forall i | 0 <= i < |parts| && i != j :: !Contains(parts[i], name))
    requires Contains(parts[j], name) && |Split(parts[j], '=')| >= 2 && Atoi(Split(parts[j], '=')[1]).value == n
    ensures PortNamed(parts, name, port) == Found(n)
  {
    if j > 0 {
      OnlyPart(parts[1..], j - 1, name, n, port);
    } else {
      NoPart(parts[1..], name, n);
    }
  }

  lemma {:induction false} NoPart(parts: seq<string>, name: string, port: int)
    requires forall i | 0 <= i < |parts| :: !Contains(parts[i], name)
    ensures PortNamed(parts, name, port) == Found(port)
  {
    if parts != [] {
      NoPart(parts[1..], name, port);
    }
  }

  lemma PrefixHas(name: string, s: string, c: char)
    requires name <= s && c in name
    ensures c in s
  {
  }

  /** A string without one of the characters of a name does not contain the name. */
  lemma {:induction false} LacksCharacter(s: string, name: string, c: char)
    requires c in name && c !in s
    ensures !Contains(s, name)
  {
    if name <= s {
      PrefixHas(name, s, c);
    }
    if s != "" {
      LacksCharacter(s[1..], name, c);
    }
  }

  lemma LabelledLacks(name: string, n: int, c: char)
    requires c !in name && c != '=' && c != '-' && !IsDigit(c)
    ensures c !in Labelled(name, n)
  {
  }

  lemma LabelledHas(name: string, n: int)
    requires '=' !in name && MIN_INT <= n <= MAX_INT
    ensures Contains(Labelled(name, n), name)
    ensures |Split(Labelled(name, n), '=')| == 2 && Atoi(Split(Labelled(name, n), '=')[1]).value == n
  {
    var s := Labelled(name, n);
    assert name <= s;
    ItoaShape(n);
    assert s == name + ['='] + Itoa(n);
    SplitHead(name, '=', Itoa(n));
    SplitWhole(Itoa(n), '=');
    AtoiOfItoa(n);
  }

  lemma LabelDecides(parts: seq<string>, j: nat, name: string, n: int)
    requires j < |parts| && parts[j] == Labelled(name, n) && '=' !in name && MIN_INT <= n <= MAX_INT
    requires forall i | 0 <= i < |parts| && i != j :: !Contains(parts[i], name)
    ensures PortNamed(parts, name, 0) == Found(n)
  {
    LabelledHas(name, n);
    OnlyPart(parts, j, name, n, 0);
  }

  /** A labelled part does not contain a name with a character of its own. */
  lemma LabelLacks(name: string, n: int, other: string, c: char)
    requires c in other && c !in name && c != '=' && c != '-' && !IsDigit(c)
    ensures !Contains(Labelled(name, n), other)
  {
    LabelledLacks(name, n, c);
    LacksCharacter(Labelled(name, n), other, c);
  }

  lemma ServerLabelLacks(n: int)
    ensures !Contains(Labelled("server_port", n), "control_port")
            && !Contains(Labelled("server_port", n), "timing_port")
  {
    LabelLacks("server_port", n, "control_port", 'c');
    LabelLacks("server_port", n, "timing_port", 'm');
  }

  lemma ControlLabelLacks(n: int)
    ensures !Contains(Labelled("control_port", n), "server_port")
            && !Contains(Labelled("control_port", n), "timing_port")
  {
    LabelLacks("control_port", n, "server_port", 'v');
    LabelLacks("control_port", n, "timing_port", 'm');
  }

  lemma TimingLabelLacks(n: int)
    ensures !Contains(Labelled("timing_port", n), "server_port")
            && !Contains(Labelled("timing_port", n), "control_port")
  {
    LabelLacks("timing_port", n, "server_port", 'v');
    LabelLacks("timing_port", n, "control_port", 'c');
  }

  lemma WordsLack()
    ensures '_' !in "RTP/AVP/UDP" && '_' !in "unicast" && '_' !in "interleaved=0-1" && '_' !in "mode=record"
  {
  }

  lemma ServerPartsLack(data: int, i: nat)
    requires i < 6
    ensures i != 3 ==> !Contains(ServerParts(data)[i], "server_port")
    ensures i != 4 ==> !Contains(ServerParts(data)[i], "control_port")
    ensures i != 5 ==> !Contains(ServerParts(data)[i], "timing_port")
  {
    if i < 3 {
      WordsLack();
      PlainPartsLack(ServerParts(data)[i]);
    } else if i == 3 {
      ServerLabelLacks(data);
    } else if i == 4 {
      ControlLabelLacks(CONTROL_PORT);
    } else {
      TimingLabelLacks(TIMING_PORT);
    }
  }

  lemma PlainPartsLack(part: string)
    requires '_' !in part
    ensures !Contains(part, "server_port") && !Contains(part, "control_port") && !Contains(part, "timing_port")
  {
    LacksCharacter(part, "server_port", '_');
    LacksCharacter(part, "control_port", '_');
    LacksCharacter(part, "timing_port", '_');
  }

  lemma ClientPartsLack(control: int, timing: int, i: nat)
    requires i < 6
    ensures i != 4 ==> !Contains(ClientParts(control, timing)[i], "control_port")
    ensures i != 5 ==> !Contains(ClientParts(control, timing)[i], "timing_port")
  {
    if i < 4 {
      WordsLack();
      PlainPartsLack(ClientParts(control, timing)[i]);
    } else if i == 4 {
      ControlLabelLacks(control);
    } else {
      TimingLabelLacks(timing);
    }
  }

  lemma PlainWords(c: char)
    requires c in {';', ':', '\n'}
    ensures c !in "RTP/AVP/UDP" && c !in "unicast" && c !in "interleaved=0-1" && c !in "mode=record"
  {
  }

  /** The parts hold no semicolon, colon or newline. */
  lemma ServerPartsPlain(data: int, c: char, i: nat)
    requires c in {';', ':', '\n'} && i < 6
    ensures c !in ServerParts(data)[i]
  {
    if i < 3 {
      PlainWords(c);
    } else if i == 3 {
      LabelledLacks("server_port", data, c);
    } else if i == 4 {
      LabelledLacks("control_port", CONTROL_PORT, c);
    } else if i == 5 {
      LabelledLacks("timing_port", TIMING_PORT, c);
    }
  }

  lemma ClientPartsPlain(control: int, timing: int, c: char, i: nat)
    requires c in {';', ':', '\n'} && i < 6
    ensures c !in ClientParts(control, timing)[i]
  {
    if i < 4 {
      PlainWords(c);
    } else if i == 4 {
      LabelledLacks("control_port", control, c);
    } else if i == 5 {
      LabelledLacks("timing_port", timing, c);
    }
  }

  lemma ServerPartsSplit(data: int)
    ensures Split(ServerTransport(data), ';') == ServerParts(data)
  {
    forall i | 0 <= i < 6 ensures ';' !in ServerParts(data)[i] {
      ServerPartsPlain(data, ';', i);
    }
    SplitJoined(ServerParts(data), ';');
  }

  lemma ClientPartsSplit(control: int, timing: int)
    ensures Split(ClientTransport(control, timing), ';') == ClientParts(control, timing)
  {
    forall i | 0 <= i < 6 ensures ';' !in ClientParts(control, timing)[i] {
      ClientPartsPlain(control, timing, ';', i);
    }
    SplitJoined(ClientParts(control, timing), ';');
  }

  lemma ServerDataRead(data: int)
    requires MIN_INT <= data <= MAX_INT
    ensures PortNamed(ServerParts(data), "server_port", 0) == Found(data)
  {
    forall i | 0 <= i < 6 && i != 3 ensures !Contains(ServerParts(data)[i], "server_port") {
      ServerPartsLack(data, i);
    }
    LabelDecides(ServerParts(data), 3, "server_port", data);
  }

  lemma ServerControlRead(data: int)
    ensures PortNamed(ServerParts(data), "control_port", 0) == Found(CONTROL_PORT)
  {
    forall i | 0 <= i < 6 && i != 4 ensures !Contains(ServerParts(data)[i], "control_port") {
      ServerPartsLack(data, i);
    }
    LabelDecides(ServerParts(data), 4, "control_port", CONTROL_PORT);
  }

  lemma ServerTimingRead(data: int)
    ensures PortNamed(ServerParts(data), "timing_port", 0) == Found(TIMING_PORT)
  {
    forall i | 0 <= i < 6 && i != 5 ensures !Contains(ServerParts(data)[i], "timing_port") {
      ServerPartsLack(data, i);
    }
    LabelDecides(ServerParts(data), 5, "timing_port", TIMING_PORT);
  }

  /** The client reads the three ports that the server printed. */
  lemma ServerPortsRead(data: int)
    requires MIN_INT <= data <= MAX_INT
    ensures var parts := Split(ServerTransport(data), ';');
            && PortNamed(parts, "server_port", 0) == Found(data)
            && PortNamed(parts, "control_port", 0) == Found(CONTROL_PORT)
            && PortNamed(parts, "timing_port", 0) == Found(TIMING_PORT)
  {
    ServerPartsSplit(data);
    ServerDataRead(data);
    ServerControlRead(data);
    ServerTimingRead(data);
  }

  lemma ClientControlRead(control: int, timing: int)
    requires MIN_INT <= control <= MAX_INT
    ensures PortNamed(ClientParts(control, timing), "control_port", 0) == Found(control)
  {
    forall i | 0 <= i < 6 && i != 4 ensures !Contains(ClientParts(control, timing)[i], "control_port") {
      ClientPartsLack(control, timing, i);
    }
    LabelDecides(ClientParts(control, timing), 4, "control_port", control);
  }

  lemma ClientTimingRead(control: int, timing: int)
    requires MIN_INT <= timing <= MAX_INT
    ensures PortNamed(ClientParts(control, timing), "timing_port", 0) == Found(timing)
  {
    forall i | 0 <= i < 6 && i != 5 ensures !Contains(ClientParts(control, timing)[i], "timing_port") {
      ClientPartsLack(control, timing, i);
    }
    LabelDecides(ClientParts(control, timing), 5, "timing_port", timing);
  }

  /** The server reads the two ports that the client printed. */
  lemma ClientPortsRead(control: int, timing: int)
    requires MIN_INT <= control <= MAX_INT && MIN_INT <= timing <= MAX_INT
    ensures var parts := Split(ClientTransport(control, timing), ';');
            && PortNamed(parts, "control_port", 0) == Found(control)
            && PortNamed(parts, "timing_port", 0) == Found(timing)
  {
    ClientPartsSplit(control, timing);
    ClientControlRead(control, timing);
    ClientTimingRead(control, timing);
  }

  // ---------------------------------------------------------------------------
  // The two texts
  // ---------------------------------------------------------------------------

  lemma SmallNumbers()
    ensures Itoa(6001) == "6001" && Itoa(6002) == "6002" && Itoa(8888) == "8888" && Itoa(8889) == "8889"
  {
    TwoDigits(60, 0, 1);
    TwoDigits(60, 0, 2);
    TwoDigits(88, 8, 8);
    TwoDigits(88, 8, 9);
    assert Digits(60) == ['6', '0'] && Digits(88) == ['8', '8'];
  }

  lemma TwoDigits(n: nat, a: nat, b: nat)
    requires n > 0 && a < 10 && b < 10
    ensures Digits(100 * n + 10 * a + b) == Digits(n) + [Digit(a), Digit(b)]
  {
    var m := 10 * n + a;
    assert (10 * m + b) / 10 == m && (10 * m + b) % 10 == b && m / 10 == n && m % 10 == a;
    assert Digits(10 * m + b) == Digits(m) + [Digit(b)];
    assert Digits(m) == Digits(n) + [Digit(a)];
  }

  /** Six parts with a semicolon between any two. */
  function Six(a: string, b: string, c: string, d: string, e: string, f: string): string {
    a + ";" + (b + ";" + (c + ";" + (d + ";" + (e + ";" + f))))
  }

  lemma SixJoined(a: string, b: string, c: string, d: string, e: string, f: string)
    ensures Joined([a, b, c, d, e, f], ';') == Six(a, b, c, d, e, f)
  {
    var parts := [a, b, c, d, e, f];
    assert parts[1..] == [b, c, d, e, f] && [b, c, d, e, f][1..] == [c, d, e, f] && [c, d, e, f][1..] == [d, e, f];
    assert [d, e, f][1..] == [e, f] && [e, f][1..] == [f];
    assert Joined([e, f], ';') == e + ";" + f;
    assert Joined([d, e, f], ';') == d + ";" + (e + ";" + f);
    assert Joined([c, d, e, f], ';') == c + ";" + (d + ";" + (e + ";" + f));
  }

  lemma SixParts(parts: seq<string>, a: string, b: string, c: string, d: string, e: string, f: string)
    requires parts == [a, b, c, d, e, f]
    ensures Joined(parts, ';') == Six(a, b, c, d, e, f)
  {
    SixJoined(a, b, c, d, e, f);
  }

  lemma ServerLabels()
    ensures Labelled("control_port", CONTROL_PORT) == "control_port=6001"
    ensures Labelled("timing_port", TIMING_PORT) == "timing_port=6002"
  {
    SmallNumbers();
  }

  lemma ClientLabels()
    ensures Labelled("control_port", 8888) == "control_port=8888"
    ensures Labelled("timing_port", 8889) == "timing_port=8889"
  {
    SmallNumbers();
  }

  /** What the server answers, as it stands on the wire. */
  lemma ServerTransportText(data: int)
    ensures ServerTransport(data)
         == Six("RTP/AVP/UDP", "unicast", "mode=record",
                Labelled("server_port", data), "control_port=6001", "timing_port=6002")
  {
    ServerLabels();
    SixParts(ServerParts(data), "RTP/AVP/UDP", "unicast", "mode=record",
             Labelled("server_port", data), "control_port=6001", "timing_port=6002");
  }

  /** What the client asks for, as it stands on the wire. */
  lemma ClientTransportText()
    ensures ClientTransport(8888, 8889)
         == Six("RTP/AVP/UDP", "unicast", "interleaved=0-1", "mode=record", "control_port=8888", "timing_port=8889")
  {
    ClientLabels();
    SixParts(ClientParts(8888, 8889),
             "RTP/AVP/UDP", "unicast", "interleaved=0-1", "mode=record", "control_port=8888", "timing_port=8889");
  }

  // ---------------------------------------------------------------------------
  // The last part with a name decides
  // ---------------------------------------------------------------------------

  /** The position of the last part that contains the name, or -1. */
  function LastNamed(parts: seq<string>, name: string): (i: int)
    ensures -1 <= i < |parts|
    ensures i >= 0 ==> Contains(parts[i], name)
    ensures forall j | i < j < |parts| :: !Contains(parts[j], name)
  {
    if parts == [] then -1
    else if Contains(parts[|parts| - 1], name) then |parts| - 1
    else LastNamed(parts[..|parts| - 1], name)
  }

  /** A part with the name but nothing to read behind an '='. */
  predicate Unreadable(part: string, name: string) {
    Contains(part, name) && '=' !in part
  }

  lemma HasTwoSides(part: string)
    ensures '=' in part <==> |Split(part, '=')| >= 2
  {
  }

  /** A part with the name but without '=' is fatal. */
  lemma {:induction false} UnreadablePartIsFatal(parts: seq<string>, name: string, port: int)
    ensures PortNamed(parts, name, port).Panic? <==> exists j :: 0 <= j < |parts| && Unreadable(parts[j], name)
    decreases |parts|
  {
    if parts != [] {
      var rest := parts[1..];
      HasTwoSides(parts[0]);
      assert (exists j :: 0 <= j < |parts| && Unreadable(parts[j], name)) <==>
             Unreadable(parts[0], name) || (exists j :: 0 <= j < |rest| && Unreadable(rest[j], name)) by {
        if j :| 0 <= j < |rest| && Unreadable(rest[j], name) {
          assert parts[j + 1] == rest[j];
        }
        if j :| 0 < j < |parts| && Unreadable(parts[j], name) {
          assert parts[j] == rest[j - 1];
        }
      }
      if !Contains(parts[0], name) {
        UnreadablePartIsFatal(rest, name, port);
      } else if '=' in parts[0] {
        UnreadablePartIsFatal(rest, name, Atoi(Split(parts[0], '=')[1]).value);
      }
    }
  }

  /** Otherwise the last part with the name holds the number. */
  lemma {:induction false} LastPartDecides(parts: seq<string>, name: string, port: int)
    requires PortNamed(parts, name, port).Found?
    ensures var r, i := PortNamed(parts, name, port), LastNamed(parts, name);
            if i < 0 then r.port == port
            else |Split(parts[i], '=')| >= 2 && r.port == Atoi(Split(parts[i], '=')[1]).value
    decreases |parts|
  {
    if parts != [] {
      LastNamedOfRest(parts, name);
      LastPartDecides(parts[1..], name, if Contains(parts[0], name) then Atoi(Split(parts[0], '=')[1]).value else port);
    }
  }

  lemma {:induction false} LastNamedOfRest(parts: seq<string>, name: string)
    requires parts != []
    ensures var i := LastNamed(parts[1..], name);
            LastNamed(parts, name) == if i >= 0 then i + 1 else if Contains(parts[0], name) then 0 else -1
  {
    assert forall j | 1 <= j < |parts| :: parts[j] == parts[1..][j - 1];
  }
}
