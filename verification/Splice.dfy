/**
 A tcp tunnel's data path: a public connection, the server's splice, a multiplexed stream, the
 client's splice and a local connection. Each splice copies both directions at once and half-closes a
 destination when its source ends; only when both its directions are done are its two connections
 closed outright. All copies, peers and failures interleave freely.
 */
module Splice {
  import opened Framing
  import opened Wrappers

  // One direction of one connection: bytes on their way, and whether an end-of-stream follows them.
  datatype Pipe = Pipe(buf: seq<byte>, eof: bool)

  // One copier of a splice: copying, with the bytes it has read and not yet written; past the copy,
  // about to half-close its destination; or done.
  datatype Copier = Copying(hand: seq<byte>) | HalfClosing | Done

  // One direction of the tunnel, end to end.
  datatype Lane = Lane(
    sent: seq<byte>,
    in0: Pipe,              // sender's connection
    copier0: Copier,        // the nearer splice
    in1: Pipe,              // the stream between server and client
    copier1: Copier,        // the farther splice
    in2: Pipe,              // receiver's connection
    delivered: seq<byte>,
    ended: bool)            // the receiver has seen the end of the stream

  const OPEN := Pipe([], false)
  const IDLE := Lane([], OPEN, Copying([]), OPEN, Copying([]), OPEN, [], false)

  // up runs from the public side to the local side, down the other way. The server's splice owns
  // the nearer copier of up and the farther one of down; the client's splice owns the other two.
  datatype System = System(up: Lane, down: Lane, serverClosed: bool, clientClosed: bool, failed: bool)

  const START := System(IDLE, IDLE, false, false, false)

  datatype LaneStep =
    | Send(bytes: seq<byte>)        // the sending peer
    | SendEof
    | Read0(n: nat)                 // the nearer copier
    | Write0(n: nat)
    | SourceEnded0
    | HalfClose0
    | Fail0
    | Read1(n: nat)                 // the farther copier
    | Write1(n: nat)
    | SourceEnded1
    | HalfClose1
    | Fail1
    | Receive(n: nat)               // the receiving peer
    | SeeEof

  datatype SysStep = Up(s: LaneStep) | Down(s: LaneStep) | CloseServer | CloseClient

  predicate Readable(c: Copier, p: Pipe, n: nat) { c == Copying([]) && 0 < n <= |p.buf| }

  predicate Writable(c: Copier, n: nat) { c.Copying? && 0 < n <= |c.hand| }

  predicate Exhausted(c: Copier, p: Pipe) { c == Copying([]) && p == Pipe([], true) }

  predicate CanLane(l: Lane, s: LaneStep) {
    match s
    case Send(bytes) => !l.in0.eof && bytes != []
    case SendEof => !l.in0.eof
    case Read0(n) => Readable(l.copier0, l.in0, n)
    case Write0(n) => Writable(l.copier0, n)
    case SourceEnded0 => Exhausted(l.copier0, l.in0)
    case HalfClose0 => l.copier0.HalfClosing?
    case Fail0 => l.copier0.Copying?
    case Read1(n) => Readable(l.copier1, l.in1, n)
    case Write1(n) => Writable(l.copier1, n)
    case SourceEnded1 => Exhausted(l.copier1, l.in1)
    case HalfClose1 => l.copier1.HalfClosing?
    case Fail1 => l.copier1.Copying?
    case Receive(n) => 0 < n <= |l.in2.buf|
    case SeeEof => l.in2 == Pipe([], true) && !l.ended
  }

  function StepLane(l: Lane, s: LaneStep): Lane
    requires CanLane(l, s)
  {
    match s
    case Send(bytes) => l.(sent := l.sent + bytes, in0 := l.in0.(buf := l.in0.buf + bytes))
    case SendEof => l.(in0 := l.in0.(eof := true))
    case Read0(n) => l.(copier0 := Copying(l.in0.buf[..n]), in0 := l.in0.(buf := l.in0.buf[n..]))
    case Write0(n) =>
      l.(in1 := l.in1.(buf := l.in1.buf + l.copier0.hand[..n]), copier0 := Copying(l.copier0.hand[n..]))
    case SourceEnded0 => l.(copier0 := HalfClosing)
    case HalfClose0 => l.(copier0 := Done, in1 := l.in1.(eof := true))
    case Fail0 => l.(copier0 := HalfClosing)
    case Read1(n) => l.(copier1 := Copying(l.in1.buf[..n]), in1 := l.in1.(buf := l.in1.buf[n..]))
    case Write1(n) =>
      l.(in2 := l.in2.(buf := l.in2.buf + l.copier1.hand[..n]), copier1 := Copying(l.copier1.hand[n..]))
    case SourceEnded1 => l.(copier1 := HalfClosing)
    case HalfClose1 => l.(copier1 := Done, in2 := l.in2.(eof := true))
    case Fail1 => l.(copier1 := HalfClosing)
    case Receive(n) => l.(delivered := l.delivered + l.in2.buf[..n], in2 := l.in2.(buf := l.in2.buf[n..]))
    case SeeEof => l.(ended := true)
  }

  predicate CanStep(sys: System, s: SysStep) {
    match s
    case Up(x) => CanLane(sys.up, x)
    case Down(x) => CanLane(sys.down, x)
    case CloseServer => sys.up.copier0.Done? && sys.down.copier1.Done? && !sys.serverClosed
    case CloseClient => sys.up.copier1.Done? && sys.down.copier0.Done? && !sys.clientClosed
  }

  predicate IsFailure(s: LaneStep) { s.Fail0? || s.Fail1? }

  // Closing a connection outright throws away whatever had arrived on it unread. What was written
  // to it before is still delivered.
  function Discard(p: Pipe): Pipe { p.(buf := []) }

  function Step(sys: System, s: SysStep): System
    requires CanStep(sys, s)
  {
    match s
    case Up(x) => sys.(up := StepLane(sys.up, x), failed := sys.failed || IsFailure(x))
    case Down(x) => sys.(down := StepLane(sys.down, x), failed := sys.failed || IsFailure(x))
    case CloseServer =>
      sys.(up := sys.up.(in0 := Discard(sys.up.in0)), down := sys.down.(in1 := Discard(sys.down.in1)), serverClosed := true)
    case CloseClient =>
      sys.(up := sys.up.(in1 := Discard(sys.up.in1)), down := sys.down.(in0 := Discard(sys.down.in0)), clientClosed := true)
  }

  ghost predicate Legal(sys: System, steps: seq<SysStep>)
    decreases |steps|
  {
    steps == [] || (CanStep(sys, steps[0]) && Legal(Step(sys, steps[0]), steps[1..]))
  }

  function Run(sys: System, steps: seq<SysStep>): System
    requires Legal(sys, steps)
    decreases |steps|
  {
    if steps == [] then sys else Run(Step(sys, steps[0]), steps[1..])
  }

  // ---------- Nothing is reordered, invented or duplicated ----------

  // What can still reach the farther copier, in order.
  function Behind1(l: Lane): seq<byte> {
    if l.copier0.Copying? then l.in1.buf + (l.copier0.hand + l.in0.buf) else l.in1.buf
  }

  // Everything delivered or still able to be, in order.
  function Stream(l: Lane): seq<byte> {
    if l.copier1.Copying? then (l.delivered + l.in2.buf) + (l.copier1.hand + Behind1(l)) else l.delivered + l.in2.buf
  }

  // As long as nothing has failed, a copier stops only when its source is exhausted, so nothing is
  // left behind it; each end-of-stream mark follows the last byte.
  ghost predicate Orderly(l: Lane) {
    && Stream(l) == l.sent
    && (!l.copier0.Copying? ==> l.in0 == Pipe([], true))
    && (l.in1.eof <==> l.copier0.Done?)
    && (!l.copier1.Copying? ==> l.in1 == Pipe([], true))
    && (l.in2.eof <==> l.copier1.Done?)
    && (l.ended ==> l.in2 == Pipe([], true))
  }

  // With failures, a copier that has stopped is past reading, and what it leaves is never delivered.
  ghost predicate LaneInv(l: Lane, failed: bool) {
    && Stream(l) <= l.sent
    && (l.copier1.Copying? && l.copier0.Copying? ==> Stream(l) == l.sent)
    && (!failed ==> Orderly(l))
  }

  ghost predicate SysInv(sys: System) {
    && LaneInv(sys.up, sys.failed) && LaneInv(sys.down, sys.failed)
    && (sys.serverClosed ==> sys.up.copier0.Done? && sys.down.copier1.Done?)
    && (sys.clientClosed ==> sys.up.copier1.Done? && sys.down.copier0.Done?)
  }

  lemma Shift(a: seq<byte>, b: seq<byte>, n: nat, c: seq<byte>)
    requires n <= |b|
    ensures (a + b[..n]) + (b[n..] + c) == a + (b + c)
  {
  }

  // Moving bytes along the near half changes nothing as seen from the far half.
  lemma NearMoveKeepsBehind(l: Lane, s: LaneStep)
    requires CanLane(l, s) && (s.Read0? || s.Write0? || s.SourceEnded0? || s.HalfClose0?)
    ensures Behind1(StepLane(l, s)) == Behind1(l)
  {
    match s
    case Read0(n) =>
      Shift([], l.in0.buf, n, []);
      assert l.in0.buf[..n] + l.in0.buf[n..] == [] + l.in0.buf;
    case Write0(n) => Shift(l.in1.buf, l.copier0.hand, n, l.in0.buf);
    case _ =>
  }

  lemma MoveKeepsStream(l: Lane, s: LaneStep)
    requires CanLane(l, s) && !IsFailure(s) && !s.Send? && !s.SendEof? && !s.SourceEnded1?
    ensures Stream(StepLane(l, s)) == Stream(l)
  {
    match s
    case Read1(n) =>
      var behind := if l.copier0.Copying? then l.copier0.hand + l.in0.buf else [];
      assert l.in1.buf[..n] + (l.in1.buf[n..] + behind) == [] + (l.in1.buf + behind);
      assert l.in1.buf + [] == l.in1.buf && l.in1.buf[n..] + [] == l.in1.buf[n..];
    case Write1(n) =>
      Shift(l.delivered + l.in2.buf, l.copier1.hand, n, Behind1(l));
      assert l.delivered + (l.in2.buf + l.copier1.hand[..n]) == (l.delivered + l.in2.buf) + l.copier1.hand[..n];
    case Receive(n) =>
      assert (l.delivered + l.in2.buf[..n]) + l.in2.buf[n..] == l.delivered + l.in2.buf;
    case SeeEof =>
    case HalfClose1 =>
    case _ => NearMoveKeepsBehind(l, s);
  }

  // Sending extends the far end of the stream while both copiers are at work, and is lost otherwise.
  lemma SendExtends(l: Lane, bytes: seq<byte>)
    ensures var l' := l.(in0 := l.in0.(buf := l.in0.buf + bytes));
            Stream(l') == if l.copier0.Copying? && l.copier1.Copying? then Stream(l) + bytes else Stream(l)
  {
    var l' := l.(in0 := l.in0.(buf := l.in0.buf + bytes));
    if l.copier0.Copying? && l.copier1.Copying? {
      assert Behind1(l') == Behind1(l) + bytes;
      assert (l.delivered + l.in2.buf) + (l.copier1.hand + (Behind1(l) + bytes))
          == (l.delivered + l.in2.buf) + (l.copier1.hand + Behind1(l)) + bytes;
    }
  }

  // Stopping a copier, for whatever reason, only cuts the tail off the stream; at the end of its
  // source there is no tail.
  lemma StopCutsTail(l: Lane, s: LaneStep)
    requires CanLane(l, s) && (IsFailure(s) || s.SourceEnded1?)
    ensures Stream(StepLane(l, s)) <= Stream(l)
    ensures s.SourceEnded1? && !l.copier0.Copying? ==> Stream(StepLane(l, s)) == Stream(l)
  {
    if s.Fail0? {
      if l.copier1.Copying? {
        assert Stream(l) == Stream(StepLane(l, s)) + (l.copier0.hand + l.in0.buf);
      }
    } else {
      assert Stream(StepLane(l, s)) == l.delivered + l.in2.buf;
      assert Stream(l) == (l.delivered + l.in2.buf) + (l.copier1.hand + Behind1(l));
    }
  }

  lemma LaneStepKeepsInv(l: Lane, s: LaneStep, failed: bool)
    requires CanLane(l, s) && LaneInv(l, failed)
    ensures LaneInv(StepLane(l, s), failed || IsFailure(s))
  {
    match s
    case Send(bytes) => SendExtends(l, bytes);
    case SendEof => assert Stream(StepLane(l, s)) == Stream(l);
    case Fail0 => StopCutsTail(l, s);
    case Fail1 => StopCutsTail(l, s);
    case SourceEnded1 => StopCutsTail(l, s);
    case _ => MoveKeepsStream(l, s);
  }

  // Outright closing, even with failures around, never touches what the stream still promises.
  lemma DiscardKeepsInv(l: Lane, failed: bool)
    requires LaneInv(l, failed)
    ensures l.copier0.Done? ==> LaneInv(l.(in0 := Discard(l.in0)), failed)
    ensures l.copier1.Done? ==> LaneInv(l.(in1 := Discard(l.in1)), failed)
  {
    if l.copier0.Done? {
      assert Stream(l.(in0 := Discard(l.in0))) == Stream(l);
    }
    if l.copier1.Done? {
      assert Stream(l.(in1 := Discard(l.in1))) == Stream(l);
    }
  }

  lemma StepKeepsInv(sys: System, s: SysStep)
    requires CanStep(sys, s) && SysInv(sys)
    ensures SysInv(Step(sys, s))
  {
    match s
    case Up(x) => LaneStepKeepsInv(sys.up, x, sys.failed);
    case Down(x) => LaneStepKeepsInv(sys.down, x, sys.failed);
    case CloseServer =>
      DiscardKeepsInv(sys.up, sys.failed);
      DiscardKeepsInv(sys.down, sys.failed);
    case CloseClient =>
      DiscardKeepsInv(sys.up, sys.failed);
      DiscardKeepsInv(sys.down, sys.failed);
  }

  lemma {:induction false} RunKeepsInv(sys: System, steps: seq<SysStep>)
    requires SysInv(sys) && Legal(sys, steps)
    ensures SysInv(Run(sys, steps))
    decreases |steps|
  {
    if steps != [] {
      StepKeepsInv(sys, steps[0]);
      RunKeepsInv(Step(sys, steps[0]), steps[1..]);
    }
  }

  // Over every run, whatever fails and whenever the connections are closed, the bytes delivered in
  // each direction are a prefix of the bytes sent in that direction.
  lemma DeliveredIsPrefixOfSent(steps: seq<SysStep>)
    requires Legal(START, steps)
    ensures var sys := Run(START, steps);
            sys.up.delivered <= sys.up.sent && sys.down.delivered <= sys.down.sent
  {
    RunKeepsInv(START, steps);
    var sys := Run(START, steps);
    assert sys.up.delivered <= Stream(sys.up) && sys.down.delivered <= Stream(sys.down);
  }

  // ---------- What a failure costs ----------

  predicate Stopped(l: Lane) { !l.copier0.Copying? || !l.copier1.Copying? }

  lemma StoppedLaneStep(l: Lane, s: LaneStep)
    requires CanLane(l, s) && Stopped(l)
    ensures Stopped(StepLane(l, s)) && Stream(StepLane(l, s)) <= Stream(l)
  {
    match s
    case Send(bytes) => SendExtends(l, bytes);
    case SendEof => assert Stream(StepLane(l, s)) == Stream(l);
    case Fail0 => StopCutsTail(l, s);
    case Fail1 => StopCutsTail(l, s);
    case SourceEnded1 => StopCutsTail(l, s);
    case _ => MoveKeepsStream(l, s);
  }

  lemma DiscardKeepsStream(l: Lane)
    ensures l.copier0.Done? ==> Stream(l.(in0 := Discard(l.in0))) == Stream(l)
    ensures l.copier1.Done? ==> Stream(l.(in1 := Discard(l.in1))) == Stream(l)
  {
  }

  lemma StoppedStep(sys: System, s: SysStep)
    requires CanStep(sys, s)
    ensures Stopped(sys.up) ==> Stopped(Step(sys, s).up) && Stream(Step(sys, s).up) <= Stream(sys.up)
    ensures Stopped(sys.down) ==> Stopped(Step(sys, s).down) && Stream(Step(sys, s).down) <= Stream(sys.down)
  {
    match s
    case Up(x) => if Stopped(sys.up) { StoppedLaneStep(sys.up, x); }
    case Down(x) => if Stopped(sys.down) { StoppedLaneStep(sys.down, x); }
    case _ =>
      DiscardKeepsStream(sys.up);
      DiscardKeepsStream(sys.down);
  }

  // From the moment a copier of a direction has stopped, nothing new gets onto its stream.
  lemma {:induction false} StoppedDeliversNoMore(sys: System, steps: seq<SysStep>)
    requires Legal(sys, steps)
    ensures Stopped(sys.up) ==> Run(sys, steps).up.delivered <= Stream(sys.up)
    ensures Stopped(sys.down) ==> Run(sys, steps).down.delivered <= Stream(sys.down)
    decreases |steps|
  {
    if steps != [] {
      StoppedStep(sys, steps[0]);
      StoppedDeliversNoMore(Step(sys, steps[0]), steps[1..]);
    }
  }

  // A copier may fail whenever it is copying. What it had read and not written, and whatever was
  // behind it then or is sent later, never arrives, in any run: at most what was past it does.
  lemma FailureIsFinal(sys: System, steps: seq<SysStep>)
    ensures sys.up.copier0.Copying? && sys.up.copier1.Copying? && Legal(sys, [Up(Fail0)] + steps) ==>
              Run(sys, [Up(Fail0)] + steps).up.delivered
                <= (sys.up.delivered + sys.up.in2.buf) + (sys.up.copier1.hand + sys.up.in1.buf)
    ensures sys.up.copier1.Copying? && Legal(sys, [Up(Fail1)] + steps) ==>
              Run(sys, [Up(Fail1)] + steps).up.delivered <= sys.up.delivered + sys.up.in2.buf
    ensures sys.up.copier0.Copying? <==> CanStep(sys, Up(Fail0))
    ensures sys.up.copier1.Copying? <==> CanStep(sys, Up(Fail1))
  {
    var fail0, fail1 := [Up(Fail0)] + steps, [Up(Fail1)] + steps;
    assert fail0[0] == Up(Fail0) && fail0[1..] == steps && fail1[0] == Up(Fail1) && fail1[1..] == steps;
    if CanStep(sys, Up(Fail0)) && Legal(Step(sys, Up(Fail0)), steps) {
      StoppedDeliversNoMore(Step(sys, Up(Fail0)), steps);
    }
    if CanStep(sys, Up(Fail1)) && Legal(Step(sys, Up(Fail1)), steps) {
      StoppedDeliversNoMore(Step(sys, Up(Fail1)), steps);
    }
  }

  // While nothing has failed, closing a connection outright throws nothing away: neither
  // direction's end-of-stream cuts the other short.
  lemma CloseDiscardsNothing(steps: seq<SysStep>)
    requires Legal(START, steps) && !Run(START, steps).failed
    ensures var sys := Run(START, steps);
            && (CanStep(sys, CloseServer) ==> sys.up.in0.buf == [] && sys.down.in1.buf == [])
            && (CanStep(sys, CloseClient) ==> sys.up.in1.buf == [] && sys.down.in0.buf == [])
  {
    RunKeepsInv(START, steps);
  }

  // ---------- Everything arrives, and everything stops ----------

  predicate FromPeer(s: SysStep) {
    (s.Up? || s.Down?) && (s.s.Send? || s.s.SendEof?)
  }

  // No step is left but what the sending peers may still do, and failures.
  ghost predicate Settled(sys: System) {
    forall s :: CanStep(sys, s) ==> FromPeer(s) || ((s.Up? || s.Down?) && IsFailure(s.s))
  }

  lemma LaneDelivers(l: Lane, up: bool, sys: System)
    requires Orderly(l) && l.in0.eof && Settled(sys) && l == (if up then sys.up else sys.down)
    ensures l.delivered == l.sent && l.ended && l.copier0.Done? && l.copier1.Done?
  {
    forall s | !IsFailure(s) ensures !CanLane(l, s) {
      assert CanLane(l, s) ==> CanStep(sys, if up then Up(s) else Down(s));
    }
    assert !CanLane(l, Read0(|l.in0.buf|)) && !CanLane(l, SourceEnded0) && !CanLane(l, HalfClose0);
    assert l.copier0.Copying? ==> !CanLane(l, Write0(|l.copier0.hand|));
    assert l.copier0.Done?;
    assert !CanLane(l, Read1(|l.in1.buf|)) && !CanLane(l, SourceEnded1) && !CanLane(l, HalfClose1);
    assert l.copier1.Copying? ==> !CanLane(l, Write1(|l.copier1.hand|));
    assert l.copier1.Done?;
    assert !CanLane(l, Receive(|l.in2.buf|)) && !CanLane(l, SeeEof);
  }

  // If nothing has failed and both peers have ended their streams, then as soon as only a failure
  // could still happen every byte has been delivered in both directions, both ends of stream have been seen, all four copiers are
  // done and both splices have closed their connections.
  lemma EverythingIsDelivered(steps: seq<SysStep>)
    requires Legal(START, steps)
    requires var sys := Run(START, steps); !sys.failed && sys.up.in0.eof && sys.down.in0.eof && Settled(sys)
    ensures var sys := Run(START, steps);
            && sys.up.delivered == sys.up.sent && sys.down.delivered == sys.down.sent
            && sys.up.ended && sys.down.ended
            && sys.serverClosed && sys.clientClosed
  {
    RunKeepsInv(START, steps);
    var sys := Run(START, steps);
    LaneDelivers(sys.up, true, sys);
    LaneDelivers(sys.down, false, sys);
    assert !CanStep(sys, CloseServer) && !CanStep(sys, CloseClient);
  }

  function CopierWeight(c: Copier): nat {
    match c
    case Copying(_) => 2
    case HalfClosing => 1
    case Done => 0
  }

  function InHand(c: Copier): nat { if c.Copying? then |c.hand| else 0 }

  // Each byte weighs as many steps as it may still take.
  function LaneWeight(l: Lane): nat {
    5 * |l.in0.buf| + 4 * InHand(l.copier0) + 3 * |l.in1.buf| + 2 * InHand(l.copier1) + |l.in2.buf|
    + CopierWeight(l.copier0) + CopierWeight(l.copier1) + (if l.ended then 0 else 1)
  }

  function Weight(sys: System): nat {
    LaneWeight(sys.up) + LaneWeight(sys.down) + (if sys.serverClosed then 0 else 1) + (if sys.clientClosed then 0 else 1)
  }

  lemma LaneStepDecreasesWeight(l: Lane, s: LaneStep)
    requires CanLane(l, s) && !s.Send? && !s.SendEof?
    ensures LaneWeight(StepLane(l, s)) < LaneWeight(l)
  {
  }

  // Every step other than a peer's own sending brings the system nearer to settling, failures
  // included.
  lemma StepsDecreaseWeight(sys: System, s: SysStep)
    requires CanStep(sys, s) && !FromPeer(s)
    ensures Weight(Step(sys, s)) < Weight(sys)
  {
    match s
    case Up(x) => LaneStepDecreasesWeight(sys.up, x);
    case Down(x) => LaneStepDecreasesWeight(sys.down, x);
    case CloseServer => assert LaneWeight(Step(sys, s).up) <= LaneWeight(sys.up) && LaneWeight(Step(sys, s).down) <= LaneWeight(sys.down);
    case CloseClient => assert LaneWeight(Step(sys, s).up) <= LaneWeight(sys.up) && LaneWeight(Step(sys, s).down) <= LaneWeight(sys.down);
  }

  ghost predicate PeersQuiet(steps: seq<SysStep>) {
    forall i :: 0 <= i < |steps| ==> !FromPeer(steps[i])
  }

  // So once the peers have stopped sending, the system settles within a bounded number of steps.
  lemma {:induction false} SettlesInBoundedSteps(sys: System, steps: seq<SysStep>)
    requires Legal(sys, steps) && PeersQuiet(steps)
    ensures |steps| + Weight(Run(sys, steps)) <= Weight(sys)
    decreases |steps|
  {
    if steps != [] {
      assert !FromPeer(steps[0]);
      StepsDecreaseWeight(sys, steps[0]);
      assert forall i :: 0 <= i < |steps[1..]| ==> steps[1..][i] == steps[i + 1];
      SettlesInBoundedSteps(Step(sys, steps[0]), steps[1..]);
    }
  }

  // ---------- One copier as the code runs it ----------

  const COPY_BUFFER: nat := 32768

  // A destination: a TCP connection has its own way to end its write side, a multiplexed stream
  // does the same with Close.
  class Conn {
    const sink: Writer
    const hasCloseWrite: bool
    var ended: bool

    constructor (sink: Writer, hasCloseWrite: bool)
      ensures this.sink == sink && this.hasCloseWrite == hasCloseWrite && !ended
    {
      this.sink, this.hasCloseWrite, ended := sink, hasCloseWrite, false;
    }

    method CloseWrite()
      requires hasCloseWrite
      modifies this
      ensures ended
    {
      ended := true;
    }

    method Close()
      modifies this
      ensures ended
    {
      ended := true;
    }
  }

  // One round of io.Copy: read a chunk, write it, and stop at the end of the source or at the first
  // failed write.
  method MoveChunk(sink: Writer, src: Reader) returns (going: bool, ghost moved: seq<byte>)
    requires src.Valid()
    modifies sink, src
    ensures src.Valid() && moved <= old(src.Unread())
    ensures sink.written == old(sink.written) + moved && sink.capacity == old(sink.capacity) - |moved|
    ensures going ==> moved != [] && old(src.Unread()) == moved + src.Unread()
    ensures !going ==> |moved| == Min(|old(src.Unread())|, old(sink.capacity))
    ensures !going && |moved| == |old(src.Unread())| ==> src.Unread() == []
  {
    var b := src.Read(COPY_BUFFER);
    if b.None? {
      return false, [];
    }
    going := sink.Write(b.value);
    moved := b.value[..Min(|b.value|, old(sink.capacity))];
  }

  lemma Regroup(copied: seq<byte>, moved: seq<byte>, unread: seq<byte>, rest: seq<byte>)
    requires moved <= unread
    ensures unread == moved + rest ==> copied + unread == (copied + moved) + rest
    ensures copied + moved <= copied + unread
  {
  }

  // All that the source yields, in order, or as much of it as the destination takes.
  method Copy(sink: Writer, src: Reader) returns (ghost copied: seq<byte>)
    requires src.Valid()
    modifies sink, src
    ensures sink.written == old(sink.written) + copied && copied <= old(src.Unread())
    ensures |copied| == Min(|old(src.Unread())|, old(sink.capacity))
    ensures |copied| == |old(src.Unread())| ==> src.Unread() == []
  {
    copied := [];
    while true
      invariant src.Valid() && old(src.Unread()) == copied + src.Unread()
      invariant sink.capacity == old(sink.capacity) - |copied| && sink.written == old(sink.written) + copied
      decreases |src.Unread()|
    {
      label next:
      var going, moved := MoveChunk(sink, src);
      Regroup(copied, moved, old@next(src.Unread()), src.Unread());
      copied := copied + moved;
      if !going {
        return;
      }
    }
  }

  // The destination's stream is ended in either case.
  method CopyThenHalfClose(dst: Conn, src: Reader) returns (ghost copied: seq<byte>)
    requires src.Valid() && !dst.ended
    modifies dst, dst.sink, src
    ensures dst.ended
    ensures dst.sink.written == old(dst.sink.written) + copied && copied <= old(src.Unread())
    ensures |old(src.Unread())| <= old(dst.sink.capacity) ==> copied == old(src.Unread()) && src.Unread() == []
  {
    copied := Copy(dst.sink, src);
    if dst.hasCloseWrite {
      dst.CloseWrite();
    } else {
      dst.Close();
    }
  }
}
