/**
  The receive goroutine of a session, its packet channel and the close handshake
  (rtsp/session.go:65-111, raop/airplay.go:363-381), as a transition system over the steps of the
  receiver, the player and the closing handler in any interleaving.

  Memory is explicit: slices are locations, and every read from the socket overwrites the one
  location of the read buffer, so a packet that were passed on without being copied would change
  under the player's feet.
 */
module Receiver {
  import Protocol = CloseHandshake
  import Decrypter

  type Bytes = seq<bv8>
  type Loc = nat

  const BUFFER: Loc := 0
  const CAPACITY := 1000
  const READ_BUFFER := 16384

  /** What becomes of a packet: it is passed on, dropped, or the end of the process. */
  datatype Verdict = Plain(audio: Bytes) | Dropped | Fatal

  /** What a decrypter makes of a packet; a session without one passes packets through. */
  type Decoder = Bytes -> Verdict

  datatype Receiving =
    | NotStarted
    | Reading               // blocked in the socket read
    | Decoding              // a packet is in the buffer
    | Sending(packet: Loc)  // about to put the copy into the channel
    | Ended                 // the channel is closed, stopChan not yet looked at
    | Offering              // blocked in the send on stopChan
    | Exited

  datatype State = State(
    mem: map<Loc, Bytes>,
    next: Loc,              // the next fresh location
    receiving: Receiving,
    closer: Protocol.Closer,
    socketOpen: bool,
    queue: seq<Loc>,        // DataChan
    closes: nat,            // how often DataChan has been closed
    sentAfterClose: bool,
    consumed: seq<Loc>,     // what the player has taken
    received: seq<Bytes>,   // what has arrived, in order
    dead: bool              // decoding has panicked, the process is gone
  )

  datatype Step =
    | Start
    | Arrive(packet: Bytes)
    | Decode(scribble: Bytes)   // decryption leaves anything in the buffer
    | Send
    | Consume
    | ReadError                 // also spontaneous, with the socket still open
    | LookAtStop
    | SetStop
    | CloseSocket
    | Signal                    // both sides meet on stopChan
    | LeaveMap

  predicate Enabled(s: State, step: Step) {
    !s.dead &&
    match step
    case Start => s.receiving.NotStarted?
    case Arrive(packet) => s.receiving.Reading? && s.socketOpen && |packet| <= READ_BUFFER
    case Decode(_) => s.receiving.Decoding? && BUFFER in s.mem
    case Send => s.receiving.Sending? && |s.queue| < CAPACITY
    case Consume => s.queue != []
    case ReadError => s.receiving.Reading?
    case LookAtStop => s.receiving.Ended?
    case SetStop => s.closer.Idle?
    case CloseSocket => s.closer.StopSet?
    case Signal => s.receiving.Offering? && s.closer.Waiting?
    case LeaveMap => s.closer.Signalled?
  }

  function Take(decode: Decoder, s: State, step: Step): State
    requires Enabled(s, step)
  {
    match step
    case Start => s.(receiving := Reading)
    case Arrive(packet) =>
      s.(mem := s.mem[BUFFER := packet], received := s.received + [packet], receiving := Decoding)
    case Decode(scribble) =>
      (match decode(s.mem[BUFFER])
       case Fatal => s.(dead := true)
       case Dropped => s.(mem := s.mem[BUFFER := scribble], receiving := Reading)
       case Plain(d) =>
         s.(mem := s.mem[BUFFER := scribble][s.next := d], next := s.next + 1, receiving := Sending(s.next)))
    case Send =>
      s.(queue := s.queue + [s.receiving.packet], receiving := Reading,
         sentAfterClose := s.sentAfterClose || s.closes > 0)
    case Consume => s.(queue := s.queue[1..], consumed := s.consumed + [s.queue[0]])
    case ReadError => s.(closes := s.closes + 1, receiving := Ended)
    case LookAtStop => s.(receiving := if s.closer.Idle? then Exited else Offering)
    case SetStop => s.(closer := Protocol.StopSet)
    case CloseSocket => s.(closer := Protocol.Waiting, socketOpen := false)
    case Signal => s.(receiving := Exited, closer := Protocol.Signalled)
    case LeaveMap => s.(closer := Protocol.Removed)
  }

  ghost predicate Initial(s: State) {
    && s.mem.Keys == {BUFFER} && s.next == 1
    && s.receiving == NotStarted && s.closer == Protocol.Idle && s.socketOpen
    && s.queue == [] && s.consumed == [] && s.received == []
    && s.closes == 0 && !s.sentAfterClose && !s.dead
  }

  ghost predicate IsRun(decode: Decoder, states: seq<State>, steps: seq<Step>) {
    && |states| == |steps| + 1
    && Initial(states[0])
    && forall i | 0 <= i < |steps| :: Enabled(states[i], steps[i]) && states[i + 1] == Take(decode, states[i], steps[i])
  }

  // ---------------------------------------------------------------------------
  // The invariant
  // ---------------------------------------------------------------------------

  /** The packets that decode, decoded, in order. */
  function Decoded(decode: Decoder, packets: seq<Bytes>): seq<Bytes> {
    if packets == [] then [] else
      Decoded(decode, packets[..|packets| - 1])
          + match decode(packets[|packets| - 1]) case Plain(d) => [d] case _ => []
  }

  /** The packet copies in the order in which they were made: taken, queued, in flight. */
  function Passed(s: State): seq<Loc> {
    s.consumed + s.queue + if s.receiving.Sending? then [s.receiving.packet] else []
  }

  /** The received packets the decoder has seen. */
  function Seen(s: State): seq<Bytes> {
    if s.receiving.Decoding? && s.received != [] then s.received[..|s.received| - 1] else s.received
  }

  /** What these locations hold now. */
  function Contents(mem: map<Loc, Bytes>, locs: seq<Loc>): seq<Bytes>
    requires forall i | 0 <= i < |locs| :: locs[i] in mem
  {
    seq(|locs|, i requires 0 <= i < |locs| => mem[locs[i]])
  }

  /** Packets live in locations of their own, never in the read buffer and never shared. */
  ghost predicate Owned(s: State) {
    && (forall i | 0 <= i < |Passed(s)| :: BUFFER < Passed(s)[i] < s.next && Passed(s)[i] in s.mem)
    && (forall i, j | 0 <= i < j < |Passed(s)| :: Passed(s)[i] != Passed(s)[j])
  }

  ghost predicate Delivered(decode: Decoder, s: State)
    requires Owned(s)
  {
    Contents(s.mem, Passed(s)) == Decoded(decode, Seen(s))
  }

  predicate ReceiverDone(r: Receiving) {
    r.Ended? || r.Offering? || r.Exited?
  }

  ghost predicate Handshake(s: State) {
    && s.closes == (if ReceiverDone(s.receiving) then 1 else 0)
    && !s.sentAfterClose
    && |s.queue| <= CAPACITY
    && (s.receiving.Offering? ==> !s.closer.Idle?)
    && (s.closer.Signalled? || s.closer.Removed? ==> s.receiving.Exited?)
    && (s.receiving.Offering? ==> s.closer.StopSet? || s.closer.Waiting?)
  }

  ghost predicate Inv(decode: Decoder, s: State) {
    && BUFFER in s.mem && s.next > BUFFER
    && Owned(s) && Delivered(decode, s) && Handshake(s)
    && (s.receiving.Decoding? ==> s.received != [] && s.mem[BUFFER] == s.received[|s.received| - 1])
    && (s.dead ==> s.receiving.Decoding? && decode(s.mem[BUFFER]).Fatal?)
  }

  /** Overwriting the read buffer touches no packet. */
  lemma BufferHoldsNoPacket(s: State, t: State)
    requires Owned(s) && BUFFER in t.mem && t.mem == s.mem[BUFFER := t.mem[BUFFER]]
    requires t.next == s.next && Passed(t) == Passed(s)
    ensures Owned(t) && Contents(t.mem, Passed(t)) == Contents(s.mem, Passed(s))
  {
  }

  lemma ArriveKeepsInv(decode: Decoder, s: State, packet: Bytes)
    requires Inv(decode, s) && Enabled(s, Arrive(packet))
    ensures Inv(decode, Take(decode, s, Arrive(packet)))
  {
    var t := Take(decode, s, Arrive(packet));
    BufferHoldsNoPacket(s, t);
    assert Seen(t) == s.received;
  }

  lemma DecodeFailureKeepsInv(decode: Decoder, s: State, scribble: Bytes)
    requires Inv(decode, s) && Enabled(s, Decode(scribble)) && decode(s.mem[BUFFER]).Dropped?
    ensures Inv(decode, Take(decode, s, Decode(scribble)))
  {
    var t := Take(decode, s, Decode(scribble));
    BufferHoldsNoPacket(s, t);
    assert Seen(t)[..|Seen(t)| - 1] == Seen(s);
  }

  lemma DecodeSuccessKeepsInv(decode: Decoder, s: State, scribble: Bytes)
    requires Inv(decode, s) && Enabled(s, Decode(scribble)) && decode(s.mem[BUFFER]).Plain?
    ensures Inv(decode, Take(decode, s, Decode(scribble)))
  {
    var t := Take(decode, s, Decode(scribble));
    var d := decode(s.mem[BUFFER]).audio;
    assert Passed(t) == Passed(s) + [s.next];
    NewPacketOwned(s, t, d);
    assert Seen(t)[..|Seen(t)| - 1] == Seen(s);
  }

  /** A copy in a fresh location joins the packets; the others keep their contents. */
  lemma NewPacketOwned(s: State, t: State, d: Bytes)
    requires Owned(s) && s.next > BUFFER && Passed(t) == Passed(s) + [s.next] && t.next == s.next + 1
    requires BUFFER in t.mem && t.mem == s.mem[BUFFER := t.mem[BUFFER]][s.next := d]
    ensures Owned(t) && Contents(t.mem, Passed(t)) == Contents(s.mem, Passed(s)) + [d]
  {
    assert forall i | 0 <= i < |Passed(s)| :: Passed(t)[i] == Passed(s)[i];
  }

  lemma SameFlow(decode: Decoder, s: State, t: State)
    requires Owned(s) && Delivered(decode, s)
    requires t.mem == s.mem && t.next == s.next && Passed(t) == Passed(s) && Seen(t) == Seen(s)
    ensures Owned(t) && Delivered(decode, t)
  {
  }

  lemma SendKeepsFlow(s: State, decode: Decoder)
    requires Enabled(s, Send)
    ensures Passed(Take(decode, s, Send)) == Passed(s)
  {
  }

  lemma ConsumeKeepsFlow(s: State, decode: Decoder)
    requires Enabled(s, Consume)
    ensures Passed(Take(decode, s, Consume)) == Passed(s)
  {
  }

  lemma FlowKeepsInv(decode: Decoder, s: State, step: Step)
    requires Inv(decode, s) && Enabled(s, step) && (step.Send? || step.Consume?)
    ensures Inv(decode, Take(decode, s, step))
  {
    if step.Send? {
      SendKeepsFlow(s, decode);
    } else {
      ConsumeKeepsFlow(s, decode);
    }
    SameFlow(decode, s, Take(decode, s, step));
  }

  /** The steps that move no packet. */
  predicate MovesNothing(step: Step) {
    !step.Arrive? && !step.Decode? && !step.Send? && !step.Consume?
  }

  lemma HandshakeKeepsFlow(decode: Decoder, s: State, step: Step)
    requires Enabled(s, step) && MovesNothing(step)
    ensures var t := Take(decode, s, step);
            t.mem == s.mem && t.next == s.next && Passed(t) == Passed(s) && Seen(t) == Seen(s)
  {
  }

  lemma HandshakeKeepsInv(decode: Decoder, s: State, step: Step)
    requires Inv(decode, s) && Enabled(s, step) && MovesNothing(step)
    ensures Inv(decode, Take(decode, s, step))
  {
    HandshakeKeepsFlow(decode, s, step);
    SameFlow(decode, s, Take(decode, s, step));
  }

  lemma DecodeKeepsInv(decode: Decoder, s: State, scribble: Bytes)
    requires Inv(decode, s) && Enabled(s, Decode(scribble))
    ensures Inv(decode, Take(decode, s, Decode(scribble)))
  {
    match decode(s.mem[BUFFER])
    case Fatal => SameFlow(decode, s, s.(dead := true));
    case Dropped => DecodeFailureKeepsInv(decode, s, scribble);
    case Plain(_) => DecodeSuccessKeepsInv(decode, s, scribble);
  }

  lemma TakeKeepsInv(decode: Decoder, s: State, step: Step)
    requires Inv(decode, s) && Enabled(s, step)
    ensures Inv(decode, Take(decode, s, step))
  {
    if step.Arrive? {
      ArriveKeepsInv(decode, s, step.packet);
    } else if step.Decode? {
      DecodeKeepsInv(decode, s, step.scribble);
    } else if step.Send? || step.Consume? {
      FlowKeepsInv(decode, s, step);
    } else {
      HandshakeKeepsInv(decode, s, step);
    }
  }

  lemma {:induction false} RunsKeepInv(decode: Decoder, states: seq<State>, steps: seq<Step>, i: nat)
    requires IsRun(decode, states, steps) && i <= |steps|
    ensures Inv(decode, states[i])
  {
    if i > 0 {
      RunsKeepInv(decode, states, steps, i - 1);
      TakeKeepsInv(decode, states[i - 1], steps[i - 1]);
    }
  }

  // ---------------------------------------------------------------------------
  // What it means
  // ---------------------------------------------------------------------------

  /**
    In every state of every interleaving: what the player took, followed by what is queued and in
    flight, read from memory as it is now, is exactly what arrived and decoded, in order; the queue
    is bounded; the channel is closed at most once and nothing is sent afterwards; and a session
    that has left the map has a closed channel.
   */
  lemma PipelineIsFaithful(decode: Decoder, states: seq<State>, steps: seq<Step>, i: nat)
    requires IsRun(decode, states, steps) && i <= |steps|
    ensures var s := states[i];
            && (forall k | 0 <= k < |Passed(s)| :: Passed(s)[k] in s.mem && Passed(s)[k] != BUFFER)
            && Contents(s.mem, Passed(s)) == Decoded(decode, Seen(s))
            && |s.queue| <= 1000
            && s.closes <= 1 && !s.sentAfterClose
            && (s.closer.Removed? ==> s.closes == 1)
            && (s.dead ==> s.received != [] && decode(s.received[|s.received| - 1]).Fatal?)
  {
    RunsKeepInv(decode, states, steps, i);
  }

  /** A packet the player holds never changes afterwards. */
  lemma {:induction false} HeldPacketsAreStable(decode: Decoder, states: seq<State>, steps: seq<Step>, i: nat,
      j: nat, k: nat)
    requires IsRun(decode, states, steps) && i <= j <= |steps| && k < |states[i].consumed|
    ensures k < |states[j].consumed| && states[j].consumed[k] == states[i].consumed[k]
    ensures states[i].consumed[k] in states[i].mem && states[i].consumed[k] in states[j].mem
    ensures states[j].mem[states[i].consumed[k]] == states[i].mem[states[i].consumed[k]]
    decreases j - i
  {
    RunsKeepInv(decode, states, steps, i);
    assert Passed(states[i])[k] == states[i].consumed[k];
    if i < j {
      var t := Take(decode, states[i], steps[i]);
      assert t.consumed[k] == states[i].consumed[k];
      HeldPacketsAreStable(decode, states, steps, i + 1, j, k);
    }
  }

  // ---------------------------------------------------------------------------
  // When closing comes to an end
  // ---------------------------------------------------------------------------

  function LoopOf(r: Receiving, fatal: bool): seq<Protocol.Loop> {
    match r
    case NotStarted => []
    case Reading => [Protocol.Reading]
    case Decoding => [Protocol.Decoding(fatal)]
    case Sending(_) => [Protocol.Sending]
    case Ended => [Protocol.Ended]
    case Offering => [Protocol.Offering]
    case Exited => [Protocol.Exited]
  }

  /** Decoding the packet in the buffer will panic. */
  predicate Doomed(decode: Decoder, s: State) {
    s.receiving.Decoding? && BUFFER in s.mem && decode(s.mem[BUFFER]).Fatal?
  }

  /** The close handshake with the packets only counted. */
  function Abstract(decode: Decoder, s: State): Protocol.State {
    Protocol.State(
      LoopOf(s.receiving, Doomed(decode, s)), s.closer, s.socketOpen, |s.queue|, s.closes,
      s.dead || s.closes > 1 || s.sentAfterClose)
  }

  function AbstractStep(decode: Decoder, s: State, step: Step): Protocol.Step
    requires Enabled(s, step)
  {
    match step
    case Start => Protocol.Start
    case Arrive(packet) => Protocol.Arrive(0, decode(packet).Fatal?)
    case Decode(_) => Protocol.Decode(0, decode(s.mem[BUFFER]).Plain?)
    case Send => Protocol.Send(0)
    case Consume => Protocol.Consume
    case ReadError => Protocol.ReadError(0)
    case LookAtStop => Protocol.LookAtStop(0)
    case SetStop => Protocol.SetStop
    case CloseSocket => Protocol.CloseSocket
    case Signal => Protocol.Signal(0)
    case LeaveMap => Protocol.LeaveMap
  }

  ghost predicate Refines(decode: Decoder, s: State, step: Step)
    requires Enabled(s, step)
  {
    var a, b := Abstract(decode, s), AbstractStep(decode, s, step);
    Protocol.Enabled(a, b) && Protocol.Take(a, b) == Abstract(decode, Take(decode, s, step))
  }

  lemma PacketStepRefines(decode: Decoder, s: State, step: Step)
    requires Inv(decode, s) && Enabled(s, step) && !MovesNothing(step)
    ensures Refines(decode, s, step)
  {
  }

  lemma HandshakeStepRefines(decode: Decoder, s: State, step: Step)
    requires Inv(decode, s) && Enabled(s, step) && MovesNothing(step)
    ensures Refines(decode, s, step)
  {
  }

  /** Each step is a step of the close handshake. */
  lemma StepRefines(decode: Decoder, s: State, step: Step)
    requires Inv(decode, s) && Enabled(s, step)
    ensures Refines(decode, s, step)
  {
    if MovesNothing(step) {
      HandshakeStepRefines(decode, s, step);
    } else {
      PacketStepRefines(decode, s, step);
    }
  }

  /** Nothing can happen any more, short of a RECORD. */
  ghost predicate Stuck(s: State) {
    forall step: Step | !step.Start? :: !Enabled(s, step)
  }

  /** Where the close handshake can go on, so can the session. */
  lemma Reflected(decode: Decoder, s: State, a: Protocol.Step) returns (step: Step)
    requires Inv(decode, s) && Protocol.Enabled(Abstract(decode, s), a) && !a.Start?
    ensures Enabled(s, step) && !step.Start?
  {
    step :=
      match a
      case Arrive(_, _) => Arrive([])
      case Decode(_, _) => Decode([])
      case Send(_) => Send
      case Consume => Consume
      case ReadError(_) => ReadError
      case LookAtStop(_) => LookAtStop
      case SetStop => SetStop
      case CloseSocket => CloseSocket
      case Signal(_) => Signal
      case LeaveMap => LeaveMap;
  }

  lemma StuckTogether(decode: Decoder, s: State)
    requires Inv(decode, s) && Stuck(s)
    ensures Protocol.Stuck(Abstract(decode, s))
  {
    if a: Protocol.Step :| !a.Start? && Protocol.Enabled(Abstract(decode, s), a) {
      var step := Reflected(decode, s, a);
    }
  }

  /** The state after the steps, if each is enabled in turn. */
  ghost predicate Leads(decode: Decoder, s: State, steps: seq<Step>, t: State)
    decreases |steps|
  {
    if steps == [] then s == t
    else Enabled(s, steps[0]) && Leads(decode, Take(decode, s, steps[0]), steps[1..], t)
  }

  predicate Quiet(steps: seq<Step>) {
    forall i | 0 <= i < |steps| :: !steps[i].Start?
  }

  lemma {:induction false} LeadsRefines(decode: Decoder, s: State, steps: seq<Step>, t: State)
      returns (abs: seq<Protocol.Step>)
    requires Inv(decode, s) && Leads(decode, s, steps, t)
    ensures Inv(decode, t) && Protocol.Leads(Abstract(decode, s), abs, Abstract(decode, t)) && |abs| == |steps|
    ensures Quiet(steps) ==> Protocol.Quiet(abs)
    decreases |steps|
  {
    if steps == [] {
      abs := [];
    } else {
      TakeKeepsInv(decode, s, steps[0]);
      StepRefines(decode, s, steps[0]);
      var rest := LeadsRefines(decode, Take(decode, s, steps[0]), steps[1..], t);
      abs := [AbstractStep(decode, s, steps[0])] + rest;
      assert abs[1..] == rest;
    }
  }

  /**
    Waiting for ever if there is no loop or it has gone, dead if it holds a packet on which decoding
    panics, and served otherwise.
   */
  predicate Ends(decode: Decoder, s: State, t: State) {
    if s.receiving.NotStarted? || s.receiving.Exited? then !t.dead && t.closer.Waiting?
    else if Doomed(decode, s) then t.dead
    else !t.dead && t.closer.Removed? && t.closes == 1
  }

  lemma FateMeans(decode: Decoder, s: State, t: State)
    requires Inv(decode, t) && Protocol.Meets(Abstract(decode, t), Protocol.FateOf(Abstract(decode, s)))
    ensures Ends(decode, s, t)
  {
    var a := Abstract(decode, s);
    assert Doomed(decode, s) ==> a.loops[0] == Protocol.Decoding(true);
  }

  /**
    From every state of every run with a waiting closer, every continuation without another RECORD
    comes to an end, and all of them end alike. If the receive loop was started, has not gone and
    holds no packet on which decoding panics, the session ends out of the map with its channel
    closed; otherwise the closer is never served.
   */
  lemma ClosingIsDecided(
    decode: Decoder, start: State, past: seq<Step>, s: State, steps: seq<Step>, t: State)
    requires Initial(start) && Leads(decode, start, past, s) && s.closer.Waiting? && !s.dead
    requires Leads(decode, s, steps, t) && Quiet(steps)
    ensures |steps| <= Protocol.Remaining(Abstract(decode, s))
    ensures Stuck(t) ==> Ends(decode, s, t)
  {
    InitialInv(decode, start);
    var before := LeadsRefines(decode, start, past, s);
    Decided(decode, before, s, steps, t);
  }

  lemma InitialInv(decode: Decoder, start: State)
    requires Initial(start)
    ensures Inv(decode, start) && Abstract(decode, start) == Protocol.INITIAL
  {
  }

  lemma Decided(decode: Decoder, before: seq<Protocol.Step>, s: State, steps: seq<Step>, t: State)
    requires Inv(decode, s) && Protocol.Leads(Protocol.INITIAL, before, Abstract(decode, s))
    requires s.closer.Waiting? && !s.dead
    requires Leads(decode, s, steps, t) && Quiet(steps)
    ensures |steps| <= Protocol.Remaining(Abstract(decode, s))
    ensures Stuck(t) ==> Ends(decode, s, t)
  {
    var after := LeadsRefines(decode, s, steps, t);
    Protocol.ClosingIsDecided(before, Abstract(decode, s), after, Abstract(decode, t));
    if Stuck(t) {
      StuckTogether(decode, t);
      FateMeans(decode, s, t);
    }
  }

  lemma {:induction false} LeadsOn(decode: Decoder, s: State, steps: seq<Step>, t: State, step: Step)
    requires Leads(decode, s, steps, t) && Enabled(t, step)
    ensures Leads(decode, s, steps + [step], Take(decode, t, step))
    decreases |steps|
  {
    if steps == [] {
      assert steps + [step] == [step] && [step][1..] == [];
    } else {
      LeadsOn(decode, Take(decode, s, steps[0]), steps[1..], t, step);
      assert (steps + [step])[1..] == steps[1..] + [step];
    }
  }

  lemma On(decode: Decoder, start: State, past: seq<Step>, s: State, step: Step) returns (longer: seq<Step>, t: State)
    requires Leads(decode, start, past, s) && Enabled(s, step)
    ensures Leads(decode, start, longer, t) && t == Take(decode, s, step)
  {
    LeadsOn(decode, start, past, s, step);
    longer, t := past + [step], Take(decode, s, step);
  }

  /** The receive loop can be gone before the session is closed. */
  lemma DesertedSession(decode: Decoder, start: State) returns (past: seq<Step>, s: State)
    requires Initial(start)
    ensures Leads(decode, start, past, s) && s.closer.Waiting? && !s.dead && s.receiving.Exited?
  {
    past, s := [], start;
    past, s := On(decode, start, past, s, Start);
    past, s := On(decode, start, past, s, ReadError);
    past, s := On(decode, start, past, s, LookAtStop);
    past, s := On(decode, start, past, s, SetStop);
    past, s := On(decode, start, past, s, CloseSocket);
  }

  /** A packet on which decoding panics can be in the buffer when the session is closed. */
  lemma DoomedSession(decode: Decoder, start: State, packet: Bytes) returns (past: seq<Step>, s: State)
    requires Initial(start) && |packet| <= READ_BUFFER && decode(packet).Fatal?
    ensures Leads(decode, start, past, s) && s.closer.Waiting? && !s.dead && Doomed(decode, s)
  {
    past, s := [], start;
    past, s := On(decode, start, past, s, Start);
    past, s := On(decode, start, past, s, Arrive(packet));
    past, s := On(decode, start, past, s, SetStop);
    past, s := On(decode, start, past, s, CloseSocket);
  }

  /** The decoder of an encrypted session; `d` is the block decryption under its key. */
  ghost function AesDecoder(d: Decrypter.Cipher, aesKey: Bytes, aesIv: Bytes): Decoder
    requires Decrypter.OnBlocks(d)
  {
    (packet: Bytes) =>
      if !Decrypter.OnBlocks(d) then Dropped
      else
        match Decrypter.Verdict(d, aesKey, aesIv, packet)
        case Decoded(audio) => Plain(audio)
        case BadKey => Dropped
        case Panic => Fatal
  }

  /** In an encrypted session, any packet shorter than its header is the end of the process. */
  lemma ShortPacketKills(d: Decrypter.Cipher, aesKey: Bytes, aesIv: Bytes, start: State, packet: Bytes)
      returns (past: seq<Step>, s: State)
    requires Decrypter.OnBlocks(d) && |aesKey| in {16, 24, 32} && |packet| < 12 && Initial(start)
    ensures var decode := AesDecoder(d, aesKey, aesIv);
            Leads(decode, start, past, s) && s.closer.Waiting? && !s.dead && Doomed(decode, s)
  {
    past, s := DoomedSession(AesDecoder(d, aesKey, aesIv), start, packet);
  }

  /** Exactly then: a packet without its header, or an IV of the wrong length under a good key. */
  lemma FatalExactlyWhen(d: Decrypter.Cipher, aesKey: Bytes, aesIv: Bytes, packet: Bytes)
    requires Decrypter.OnBlocks(d)
    ensures AesDecoder(d, aesKey, aesIv)(packet).Fatal? <==>
              |aesKey| in {16, 24, 32} && (|aesIv| != 16 || |packet| < 12)
  {
  }
}
