/**
  Closing a session (rtsp/session.go:65-111, raop/airplay.go:363-381): the handler sets stopChan,
  closes the socket and waits on stopChan, while any number of receive loops, one for each RECORD,
  read from the socket and share one packet channel. Packets are only counted here; Receiver.dfy
  follows their contents through the one loop of an orderly session.
 */
module CloseHandshake {

  datatype Loop =
    | Reading     // blocked in the socket read
    | Decoding(fatal: bool)   // a packet is in the buffer; on some packets decoding panics
    | Sending     // about to put a packet into the channel
    | Ended       // has closed the channel, stopChan not yet looked at
    | Offering    // blocked in the send on stopChan
    | Exited

  datatype Closer =
    | Idle
    | StopSet     // stopChan is set, the socket still open
    | Waiting     // the socket is closed, blocked in the receive on stopChan
    | Signalled
    | Removed     // the session has left the map

  /** `dead` is the end of the process: a panic in a loop. */
  datatype State = State(loops: seq<Loop>, closer: Closer, socketOpen: bool, queued: nat, closes: nat, dead: bool)

  const CAPACITY := 1000

  datatype Step =
    | Start
    | Arrive(i: nat, fatal: bool)
    | Decode(i: nat, ok: bool)
    | Send(i: nat)
    | Consume
    | ReadError(i: nat)   // also spontaneous, with the socket still open
    | LookAtStop(i: nat)
    | SetStop
    | CloseSocket
    | Signal(i: nat)      // a loop and the handler meet on stopChan
    | LeaveMap

  predicate At(s: State, i: nat, loop: Loop) {
    i < |s.loops| && s.loops[i] == loop
  }

  predicate Enabled(s: State, step: Step) {
    !s.dead &&
    match step
    case Start => true
    case Arrive(i, _) => At(s, i, Reading) && s.socketOpen
    case Decode(i, _) => At(s, i, Decoding(false)) || At(s, i, Decoding(true))
    case Send(i) => At(s, i, Sending) && (s.queued < CAPACITY || s.closes > 0)
    case Consume => s.queued > 0
    case ReadError(i) => At(s, i, Reading)
    case LookAtStop(i) => At(s, i, Ended)
    case SetStop => s.closer.Idle?
    case CloseSocket => s.closer.StopSet?
    case Signal(i) => At(s, i, Offering) && s.closer.Waiting?
    case LeaveMap => s.closer.Signalled?
  }

  /** Sending on a closed channel, closing it again and some decoding are panics. */
  function Take(s: State, step: Step): State
    requires Enabled(s, step)
  {
    match step
    case Start => s.(loops := s.loops + [Reading])
    case Arrive(i, fatal) => s.(loops := s.loops[i := Decoding(fatal)])
    case Decode(i, ok) =>
      if s.loops[i].fatal then s.(dead := true) else s.(loops := s.loops[i := if ok then Sending else Reading])
    case Send(i) =>
      if s.closes > 0 then s.(dead := true) else s.(loops := s.loops[i := Reading], queued := s.queued + 1)
    case Consume => s.(queued := s.queued - 1)
    case ReadError(i) => s.(loops := s.loops[i := Ended], closes := s.closes + 1, dead := s.closes > 0)
    case LookAtStop(i) => s.(loops := s.loops[i := if s.closer.Idle? then Exited else Offering])
    case SetStop => s.(closer := StopSet)
    case CloseSocket => s.(closer := Waiting, socketOpen := false)
    case Signal(i) => s.(loops := s.loops[i := Exited], closer := Signalled)
    case LeaveMap => s.(closer := Removed)
  }

  const INITIAL := State([], Idle, true, 0, 0, false)

  /** The state after the steps, if each is enabled in turn. */
  ghost predicate Leads(s: State, steps: seq<Step>, t: State)
    decreases |steps|
  {
    if steps == [] then s == t
    else Enabled(s, steps[0]) && Leads(Take(s, steps[0]), steps[1..], t)
  }

  // ---------------------------------------------------------------------------
  // The invariant
  // ---------------------------------------------------------------------------

  predicate Done(loop: Loop) {
    loop.Ended? || loop.Offering? || loop.Exited?
  }

  function Sum(loops: seq<Loop>, weight: Loop -> nat): nat {
    if loops == [] then 0 else Sum(loops[..|loops| - 1], weight) + weight(loops[|loops| - 1])
  }

  lemma {:induction false} SumUpdate(loops: seq<Loop>, weight: Loop -> nat, i: nat, loop: Loop)
    requires i < |loops|
    ensures Sum(loops[i := loop], weight) + weight(loops[i]) == Sum(loops, weight) + weight(loop)
  {
    var front, last := loops[..|loops| - 1], |loops| - 1;
    if i == last {
      assert loops[i := loop][..last] == front;
    } else {
      assert loops[i := loop][..last] == front[i := loop];
      SumUpdate(front, weight, i, loop);
    }
  }

  lemma SumAppend(loops: seq<Loop>, weight: Loop -> nat, loop: Loop)
    ensures Sum(loops + [loop], weight) == Sum(loops, weight) + weight(loop)
  {
    assert (loops + [loop])[..|loops|] == loops;
  }

  /** Every element counts at least its weight. */
  lemma {:induction false} SumAll(loops: seq<Loop>, weight: Loop -> nat)
    requires forall i | 0 <= i < |loops| :: weight(loops[i]) >= 1
    ensures Sum(loops, weight) >= |loops|
  {
    if loops != [] {
      SumAll(loops[..|loops| - 1], weight);
    }
  }

  function DoneWeight(loop: Loop): nat {
    if Done(loop) then 1 else 0
  }

  /** Each loop that is done has closed the channel once; a second close is the end of the process. */
  ghost predicate Counted(s: State) {
    s.dead || s.closes == Sum(s.loops, DoneWeight) <= 1
  }

  ghost predicate SomeExited(s: State) {
    exists i :: 0 <= i < |s.loops| && s.loops[i].Exited?
  }

  ghost predicate Inv(s: State) {
    && s.queued <= CAPACITY
    && Counted(s)
    && (s.socketOpen <==> s.closer.Idle? || s.closer.StopSet?)
    && (s.closer.Idle? ==> forall i | 0 <= i < |s.loops| :: !s.loops[i].Offering?)
    && (s.closer.Signalled? || s.closer.Removed? ==> SomeExited(s))
  }

  lemma TakeKeepsCount(s: State, step: Step)
    requires Counted(s) && Enabled(s, step)
    ensures Counted(Take(s, step))
  {
    var t := Take(s, step);
    match step
    case Start => SumAppend(s.loops, DoneWeight, Reading);
    case Arrive(i, fatal) => SumUpdate(s.loops, DoneWeight, i, Decoding(fatal));
    case Decode(i, _) => SumUpdate(s.loops, DoneWeight, i, t.loops[i]);
    case Send(i) => SumUpdate(s.loops, DoneWeight, i, Reading);
    case ReadError(i) => SumUpdate(s.loops, DoneWeight, i, Ended);
    case LookAtStop(i) => SumUpdate(s.loops, DoneWeight, i, t.loops[i]);
    case Signal(i) => SumUpdate(s.loops, DoneWeight, i, Exited);
    case _ =>
  }

  lemma ExitedStays(s: State, step: Step)
    requires Enabled(s, step) && (SomeExited(s) || step.Signal?)
    ensures SomeExited(Take(s, step))
  {
    var t := Take(s, step);
    if step.Signal? {
      assert t.loops[step.i].Exited?;
    } else {
      var j :| 0 <= j < |s.loops| && s.loops[j].Exited?;
      assert t.loops[j].Exited?;
    }
  }

  lemma TakeKeepsInv(s: State, step: Step)
    requires Inv(s) && Enabled(s, step)
    ensures Inv(Take(s, step))
  {
    TakeKeepsCount(s, step);
    if SomeExited(s) || step.Signal? {
      ExitedStays(s, step);
    }
  }

  lemma {:induction false} LeadsKeepsInv(s: State, steps: seq<Step>, t: State)
    requires Inv(s) && Leads(s, steps, t)
    ensures Inv(t)
    decreases |steps|
  {
    if steps != [] {
      TakeKeepsInv(s, steps[0]);
      LeadsKeepsInv(Take(s, steps[0]), steps[1..], t);
    }
  }

  // ---------------------------------------------------------------------------
  // Once the socket is closed, everything comes to an end
  // ---------------------------------------------------------------------------

  predicate SocketClosed(s: State) {
    !s.socketOpen && !s.closer.Idle? && !s.closer.StopSet?
  }

  /** No further RECORD. */
  predicate Quiet(steps: seq<Step>) {
    forall i | 0 <= i < |steps| :: !steps[i].Start?
  }

  function Rank(loop: Loop): nat {
    match loop
    case Decoding(_) => 6
    case Sending => 5
    case Reading => 4
    case Ended => 3
    case Offering => 2
    case Exited => 0
  }

  /** A bound on the steps to come. */
  function Remaining(s: State): nat {
    2 * Sum(s.loops, Rank) + s.queued
    + (match s.closer case Signalled => 1 case Removed => 0 case _ => 2)
    + if s.dead then 0 else 1
  }

  lemma StepLowers(s: State, step: Step)
    requires SocketClosed(s) && Enabled(s, step) && !step.Start?
    ensures SocketClosed(Take(s, step)) && Remaining(Take(s, step)) < Remaining(s)
  {
    var t := Take(s, step);
    match step
    case Decode(i, _) => SumUpdate(s.loops, Rank, i, t.loops[i]);
    case Send(i) => SumUpdate(s.loops, Rank, i, Reading);
    case ReadError(i) => SumUpdate(s.loops, Rank, i, Ended);
    case LookAtStop(i) => SumUpdate(s.loops, Rank, i, t.loops[i]);
    case Signal(i) => SumUpdate(s.loops, Rank, i, Exited);
    case _ =>
  }

  /** Every continuation is finite. */
  lemma {:induction false} ContinuationsEnd(s: State, steps: seq<Step>, t: State)
    requires SocketClosed(s) && Leads(s, steps, t) && Quiet(steps)
    ensures |steps| + Remaining(t) <= Remaining(s)
    decreases |steps|
  {
    if steps != [] {
      StepLowers(s, steps[0]);
      ContinuationsEnd(Take(s, steps[0]), steps[1..], t);
    }
  }

  /** Nothing can happen any more, short of another RECORD. */
  ghost predicate Stuck(s: State) {
    forall step: Step | !step.Start? :: !Enabled(s, step)
  }

  /** Every state has a continuation that ends. */
  lemma {:induction false} SomeContinuation(s: State) returns (steps: seq<Step>, t: State)
    requires SocketClosed(s)
    ensures Leads(s, steps, t) && Quiet(steps) && Stuck(t)
    decreases Remaining(s)
  {
    if Stuck(s) {
      steps, t := [], s;
    } else {
      var step: Step :| !step.Start? && Enabled(s, step);
      StepLowers(s, step);
      var rest;
      rest, t := SomeContinuation(Take(s, step));
      steps := [step] + rest;
      assert steps[1..] == rest;
    }
  }

  // ---------------------------------------------------------------------------
  // How it ends
  // ---------------------------------------------------------------------------

  datatype Fate =
    | Served         // the session has left the map, its channel closed once
    | WaitsForEver   // the handler is still waiting
    | Crashes        // the process is dead

  /** Some loop holds a packet on which decoding panics. */
  predicate Doomed(s: State) {
    exists i :: 0 <= i < |s.loops| && s.loops[i] == Decoding(true)
  }

  function FateOf(s: State): Fate {
    if |s.loops| >= 2 || Doomed(s) then Crashes
    else if s.loops == [] || s.loops[0].Exited? then WaitsForEver
    else Served
  }

  /** The same, for a session none of whose loops has gone. */
  function FateOfLoops(n: nat, doomed: bool): Fate {
    if n == 0 then WaitsForEver else if n == 1 && !doomed then Served else Crashes
  }

  predicate Meets(s: State, fate: Fate) {
    match fate
    case Served => !s.dead && s.closer.Removed? && s.closes == 1
    case WaitsForEver => !s.dead && s.closer.Waiting?
    case Crashes => s.dead
  }

  /** What holds on the way there. */
  ghost predicate Heading(s: State, fate: Fate) {
    match fate
    case Served =>
      |s.loops| == 1 && !s.dead && s.loops[0] != Decoding(true) && (s.loops[0].Exited? <==> !s.closer.Waiting?)
    case WaitsForEver => |s.loops| <= 1 && (s.loops != [] ==> s.loops[0].Exited?) && s.closer.Waiting? && !s.dead
    case Crashes => |s.loops| >= 2 || (|s.loops| == 1 && (s.dead || s.loops[0] == Decoding(true)))
  }

  lemma OneLoop(s: State)
    requires |s.loops| == 1
    ensures Sum(s.loops, DoneWeight) == DoneWeight(s.loops[0])
  {
    assert s.loops == [] + [s.loops[0]];
    SumAppend([], DoneWeight, s.loops[0]);
  }

  lemma TakeKeepsHeading(s: State, step: Step, fate: Fate)
    requires Inv(s) && SocketClosed(s) && Heading(s, fate) && Enabled(s, step) && !step.Start?
    ensures Heading(Take(s, step), fate)
  {
    if fate.Served? {
      OneLoop(s);
    }
  }

  lemma HeadingIsMet(s: State, fate: Fate)
    requires Inv(s) && SocketClosed(s) && Heading(s, fate) && Stuck(s)
    ensures Meets(s, fate)
  {
    if !s.dead {
      NobodyBusy(s);
      assert !Enabled(s, LeaveMap);
      match fate
      case Served =>
        OneLoop(s);
        assert !Enabled(s, LookAtStop(0)) && !Enabled(s, Signal(0));
      case WaitsForEver =>
      case Crashes => SumAll(s.loops, DoneWeight);
    }
  }

  lemma NobodyBusy(s: State)
    requires Stuck(s) && !s.dead
    ensures forall i | 0 <= i < |s.loops| :: Done(s.loops[i])
  {
    assert !Enabled(s, Consume);
    forall i | 0 <= i < |s.loops| ensures Done(s.loops[i]) {
      assert !Enabled(s, Decode(i, true)) && !Enabled(s, Send(i)) && !Enabled(s, ReadError(i));
    }
  }

  lemma {:induction false} LeadsKeepsHeading(s: State, steps: seq<Step>, t: State, fate: Fate)
    requires Inv(s) && SocketClosed(s) && Heading(s, fate) && Leads(s, steps, t) && Quiet(steps)
    ensures Inv(t) && SocketClosed(t) && Heading(t, fate)
    decreases |steps|
  {
    if steps != [] {
      TakeKeepsInv(s, steps[0]);
      StepLowers(s, steps[0]);
      TakeKeepsHeading(s, steps[0], fate);
      LeadsKeepsHeading(Take(s, steps[0]), steps[1..], t, fate);
    }
  }

  /**
    From every state that a session can get into with a waiting handler, every continuation comes
    to an end, and all of them end alike: the handler is served if there is one loop that has not
    gone and holds no packet on which decoding panics, waits for ever if there is none or the one has
    gone, and dies with the process otherwise.
   */
  lemma ClosingIsDecided(past: seq<Step>, s: State, steps: seq<Step>, t: State)
    requires Leads(INITIAL, past, s) && s.closer.Waiting? && !s.dead
    requires Leads(s, steps, t) && Quiet(steps)
    ensures |steps| <= Remaining(s)
    ensures Stuck(t) ==> Meets(t, FateOf(s))
  {
    LeadsKeepsInv(INITIAL, past, s);
    ContinuationsEnd(s, steps, t);
    LeadsKeepsHeading(s, steps, t, FateOf(s));
    if Stuck(t) {
      HeadingIsMet(t, FateOf(s));
    }
  }

  /** With no loop gone, the number of RECORD requests and the packets in the buffers decide how closing ends. */
  lemma RecordsDecide(past: seq<Step>, s: State, steps: seq<Step>, t: State)
    requires Leads(INITIAL, past, s) && s.closer.Waiting? && !s.dead
    requires forall i | 0 <= i < |s.loops| :: !s.loops[i].Exited?
    requires Leads(s, steps, t) && Quiet(steps) && Stuck(t)
    ensures Meets(t, FateOfLoops(|s.loops|, Doomed(s)))
  {
    ClosingIsDecided(past, s, steps, t);
  }

  // ---------------------------------------------------------------------------
  // All three happen
  // ---------------------------------------------------------------------------

  lemma {:induction false} LeadsOn(s: State, steps: seq<Step>, t: State, step: Step)
    requires Leads(s, steps, t) && Enabled(t, step)
    ensures Leads(s, steps + [step], Take(t, step))
    decreases |steps|
  {
    if steps == [] {
      assert [step][1..] == [];
      assert steps + [step] == [step];
    } else {
      LeadsOn(Take(s, steps[0]), steps[1..], t, step);
      assert (steps + [step])[1..] == steps[1..] + [step];
    }
  }

  /** Sets stopChan and closes the socket, as the handler does. */
  lemma Close(past: seq<Step>, s: State) returns (longer: seq<Step>, t: State)
    requires Leads(INITIAL, past, s) && s.closer.Idle? && !s.dead
    ensures Leads(INITIAL, longer, t) && t == s.(closer := Waiting, socketOpen := false)
  {
    LeadsOn(INITIAL, past, s, SetStop);
    t := Take(s, SetStop);
    LeadsOn(INITIAL, past + [SetStop], t, CloseSocket);
    longer, t := past + [SetStop] + [CloseSocket], Take(t, CloseSocket);
  }

  lemma {:induction false} Recorded(n: nat) returns (past: seq<Step>, s: State)
    ensures Leads(INITIAL, past, s) && s == INITIAL.(loops := seq(n, _ => Reading))
  {
    if n == 0 {
      past, s := [], INITIAL;
    } else {
      past, s := Recorded(n - 1);
      LeadsOn(INITIAL, past, s, Start);
      past, s := past + [Start], Take(s, Start);
      assert s.loops == seq(n, _ => Reading);
    }
  }

  /** A session closed after any number of RECORD requests. */
  lemma ClosedAfterRecords(n: nat) returns (past: seq<Step>, s: State)
    ensures Leads(INITIAL, past, s) && s.closer.Waiting? && !s.dead && |s.loops| == n
            && FateOf(s) == FateOfLoops(n, false)
  {
    past, s := Recorded(n);
    past, s := Close(past, s);
  }

  /** RECORD; the socket fails and the loop goes; then the session is closed, and the handler waits for ever. */
  lemma DesertedHandler() returns (past: seq<Step>, s: State)
    ensures Leads(INITIAL, past, s) && s.closer.Waiting? && !s.dead && |s.loops| == 1 && FateOf(s) == WaitsForEver
  {
    past, s := Recorded(1);
    LeadsOn(INITIAL, past, s, ReadError(0));
    past, s := past + [ReadError(0)], Take(s, ReadError(0));
    LeadsOn(INITIAL, past, s, LookAtStop(0));
    past, s := past + [LookAtStop(0)], Take(s, LookAtStop(0));
    past, s := Close(past, s);
  }

  /** RECORD; a packet arrives on which decoding panics; then the session is closed, and the process dies. */
  lemma DoomedHandler() returns (past: seq<Step>, s: State)
    ensures Leads(INITIAL, past, s) && s.closer.Waiting? && !s.dead && |s.loops| == 1 && FateOf(s) == Crashes
  {
    past, s := Recorded(1);
    LeadsOn(INITIAL, past, s, Arrive(0, true));
    past, s := past + [Arrive(0, true)], Take(s, Arrive(0, true));
    past, s := Close(past, s);
    assert s.loops[0] == Decoding(true);
  }
}
