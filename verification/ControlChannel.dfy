/**
 One client and the server on the shared control stream: the handshake, then any number of concurrent
 callers whose requests and replies are serialised by the client's mutex and answered one by one by
 the server's loop. Each step is one locked region, one send or one receive; the stream may break at
 any time. A peer that keeps to none of this may write anything at all on the stream (Inject): what
 holds of the server then holds for every peer, and the rest holds while nothing has been injected.
 */
module ControlChannel {
  import opened Wrappers
  import opened Protocol

  // A caller inside request(): waiting for the mutex, holding it with the request still to write,
  // holding it and waiting for the reply; or back with what it got.
  datatype Caller =
    | Waiting(req: Message)
    | Holding(req: Message)
    | Awaiting(req: Message)
    | Returned(req: Message, reply: Option<Message>)

  datatype ClientSide = Connecting | AuthSent | Ready | Rejected

  datatype ServerSide = AwaitingAuth | Authenticated | Ended

  datatype Exchange = Exchange(req: Message, reply: Message)

  // What a frame holds for the server: a message, or something it cannot decode.
  datatype Incoming = Msg(m: Message) | Garbled

  datatype State = State(
    token: string,                  // what the client presents
    secret: string,                 // what the server expects
    client: ClientSide,
    server: ServerSide,
    callers: map<nat, Caller>,
    lock: Option<nat>,
    toServer: seq<Incoming>,
    toClient: seq<Message>,
    broken: bool,
    honest: bool,                   // nobody but the client has written to the server
    arrived: seq<Incoming>,         // everything ever written to the server, in order
    consumed: seq<Incoming>,        // what the server has read of it
    sent: seq<Message>,             // everything the server ever wrote, in order
    served: seq<Exchange>,          // every RPC the server processed, in order
    received: seq<Exchange>)        // every reply a caller got, with its own request, in order

  function Start(token: string, secret: string): State {
    State(token, secret, Connecting, AwaitingAuth, map[], None, [], [], false, true, [], [], [], [], [])
  }

  // The replies the server's dispatch may give to a message.
  predicate MayReply(req: Message, reply: Message) {
    match req
    case Register(_) => reply.Registered? || reply.Error?
    case Claim(_) => reply.OK? || reply.Error?
    case Unclaim(_) => reply.OK? || reply.Error?
    case ListTunnels => reply.TunnelList?
    case _ => reply.Error?
  }

  // What the client's API sends on the control stream once it is connected.
  predicate IsRpc(m: Message) {
    m.Register? || m.Claim? || m.Unclaim? || m.ListTunnels?
  }

  datatype Step =
    | SendAuth
    | ServerAuth
    | ReadAuthReply
    | Call(c: nat, req: Message)
    | Lock(c: nat)
    | Send(c: nat)
    | Serve(reply: Message)
    | Drop                          // the server gives up on a frame it cannot decode
    | Receive(c: nat)
    | Fail(c: nat)                  // a write or read on the broken stream
    | Break
    | Inject(x: Incoming)           // somebody other than this client writes to the server

  predicate Can(st: State, s: Step) {
    match s
    case SendAuth => st.client.Connecting? && !st.broken
    case ServerAuth => st.server.AwaitingAuth? && st.toServer != [] && !st.broken && st.toServer[0].Msg?
    case ReadAuthReply => st.client.AuthSent? && st.toClient != [] && !st.broken
    case Call(c, req) => st.client.Ready? && c !in st.callers && IsRpc(req)
    case Lock(c) => c in st.callers && st.callers[c].Waiting? && st.lock.None?
    case Send(c) => c in st.callers && st.callers[c].Holding? && !st.broken
    case Serve(reply) =>
      st.server.Authenticated? && st.toServer != [] && !st.broken && st.toServer[0].Msg? && MayReply(st.toServer[0].m, reply)
    case Drop => !st.server.Ended? && st.toServer != [] && !st.broken && st.toServer[0].Garbled?
    case Receive(c) => c in st.callers && st.callers[c].Awaiting? && st.toClient != [] && !st.broken
    case Fail(c) => c in st.callers && (st.callers[c].Holding? || st.callers[c].Awaiting?) && st.broken
    case Break => true
    case Inject(_) => true
  }

  function Put(st: State, x: Incoming): State {
    st.(toServer := st.toServer + [x], arrived := st.arrived + [x])
  }

  function Take(st: State): State
    requires st.toServer != []
  {
    st.(toServer := st.toServer[1..], consumed := st.consumed + [st.toServer[0]])
  }

  function Answer(st: State, reply: Message): State {
    st.(toClient := st.toClient + [reply], sent := st.sent + [reply])
  }

  function Next(st: State, s: Step): State
    requires Can(st, s)
  {
    match s
    case SendAuth => Put(st, Msg(Auth(st.token))).(client := AuthSent)
    case ServerAuth =>
      var m := st.toServer[0].m;
      if !m.Auth? then Answer(Take(st), Error("expected auth")).(server := Ended)
      else if m.token != st.secret then Answer(Take(st), Error("invalid token")).(server := Ended)
      else Answer(Take(st), AuthOK).(server := Authenticated)
    case ReadAuthReply =>
      st.(client := if st.toClient[0].AuthOK? then Ready else Rejected, toClient := st.toClient[1..])
    case Call(c, req) => st.(callers := st.callers[c := Waiting(req)])
    case Lock(c) => st.(lock := Some(c), callers := st.callers[c := Holding(st.callers[c].req)])
    case Send(c) =>
      var req := st.callers[c].req;
      Put(st, Msg(req)).(callers := st.callers[c := Awaiting(req)])
    case Serve(reply) => Answer(Take(st), reply).(served := st.served + [Exchange(st.toServer[0].m, reply)])
    case Drop => Take(st).(server := Ended)
    case Receive(c) =>
      var req, reply := st.callers[c].req, st.toClient[0];
      st.(toClient := st.toClient[1..], lock := None, received := st.received + [Exchange(req, reply)],
          callers := st.callers[c := Returned(req, Some(reply))])
    case Fail(c) => st.(lock := None, callers := st.callers[c := Returned(st.callers[c].req, None)])
    case Break => st.(broken := true)
    case Inject(x) => Put(st, x).(honest := false)
  }

  ghost predicate Legal(st: State, steps: seq<Step>)
    decreases |steps|
  {
    steps == [] || (Can(st, steps[0]) && Legal(Next(st, steps[0]), steps[1..]))
  }

  function Run(st: State, steps: seq<Step>): State
    requires Legal(st, steps)
    decreases |steps|
  {
    if steps == [] then st else Run(Next(st, steps[0]), steps[1..])
  }

  // ---------- The invariant ----------

  predicate Busy(c: Caller) { c.Holding? || c.Awaiting? }

  // Before the client is connected there are no callers, and what is on the stream is the handshake.
  ghost predicate HandshakeOk(st: State) {
    && (!st.client.Ready? ==> st.callers == map[] && st.served == [] && st.received == [])
    && (st.client.Connecting? ==> st.server.AwaitingAuth? && st.toServer == [] && st.toClient == [])
    && (st.client.AuthSent? ==>
          if st.server.AwaitingAuth? then st.toServer == [Msg(Auth(st.token))] && st.toClient == []
          else && st.toServer == [] && |st.toClient| == 1
               && (st.toClient[0].AuthOK? <==> st.server.Authenticated?)
               && (st.server.Ended? ==> st.toClient[0].Error?))
    && (!st.server.AwaitingAuth? ==> (st.server.Authenticated? <==> st.token == st.secret))
    && (st.client.Ready? ==> st.server.Authenticated?)
    && (st.client.Rejected? ==> st.server.Ended? && st.toServer == [] && st.toClient == [])
  }

  ghost predicate LockOk(st: State) {
    && (forall c :: c in st.callers && Busy(st.callers[c]) ==> st.lock == Some(c))
    && (st.lock.Some? ==> st.lock.value in st.callers && Busy(st.callers[st.lock.value]))
    && (forall c :: c in st.callers ==> IsRpc(st.callers[c].req))
  }

  // While the stream is whole, at most one request or reply is on it, and it belongs to the holder
  // of the mutex; everything else the server processed has been received, in the same order.
  ghost predicate WireOk(st: State)
    requires LockOk(st)
  {
    st.client.Ready? && !st.broken ==>
      if st.lock.Some? && st.callers[st.lock.value].Awaiting? then
        var req := st.callers[st.lock.value].req;
        || (st.toServer == [Msg(req)] && st.toClient == [] && st.served == st.received)
        || (st.toServer == [] && |st.toClient| == 1 && st.served == st.received + [Exchange(req, st.toClient[0])])
      else st.toServer == [] && st.toClient == [] && st.served == st.received
  }

  ghost predicate Fitting(log: seq<Exchange>) {
    forall i :: 0 <= i < |log| ==> MayReply(log[i].req, log[i].reply)
  }

  // Each caller that got a reply got one that the log of received exchanges holds with its request;
  // only a broken stream makes a caller return without one.
  ghost predicate ResultsOk(st: State) {
    forall c :: c in st.callers && st.callers[c].Returned? ==>
      if st.callers[c].reply.Some? then Exchange(st.callers[c].req, st.callers[c].reply.value) in st.received else st.broken
  }

  // What the server has read and written so far, whoever wrote to it.
  ghost predicate SessionOk(st: State) {
    && st.arrived == st.consumed + st.toServer
    && (st.server.AwaitingAuth? ==> st.consumed == [] && st.sent == [] && st.served == [])
    && (!st.server.AwaitingAuth? ==>
          st.consumed != [] && if st.consumed[0] == Msg(Auth(st.secret)) then Answered(st) else TurnedAway(st))
  }

  // The message that was not the token is the only one the server read.
  ghost predicate TurnedAway(st: State)
    requires st.consumed != []
  {
    && st.server.Ended? && st.served == [] && |st.consumed| == 1
    && st.sent == match st.consumed[0]
                  case Garbled => []
                  case Msg(m) => [Error(if m.Auth? then "invalid token" else "expected auth")]
  }

  // One reply to the token and one to each message after it, up to a frame that cannot be decoded.
  ghost predicate Answered(st: State) {
    && |st.sent| == 1 + |st.served| && st.sent[0] == AuthOK
    && |st.consumed| == 1 + |st.served| + (if st.server.Ended? then 1 else 0)
    && (forall i :: 0 <= i < |st.served| ==>
          st.consumed[i + 1] == Msg(st.served[i].req) && st.sent[i + 1] == st.served[i].reply)
    && (st.server.Ended? ==> st.consumed[1 + |st.served|] == Garbled)
  }

  ghost predicate CallersOk(st: State) {
    && LockOk(st) && ResultsOk(st) && Fitting(st.served)
    && (st.honest ==> HandshakeOk(st) && WireOk(st) && st.received <= st.served)
  }

  ghost predicate Inv(st: State) { SessionOk(st) && CallersOk(st) }

  lemma HandshakeKeepsCallersOk(st: State, s: Step)
    requires CallersOk(st) && Can(st, s) && (s.SendAuth? || s.ReadAuthReply?)
    ensures CallersOk(Next(st, s))
  {
  }

  lemma ServerAuthKeepsCallersOk(st: State)
    requires CallersOk(st) && Can(st, ServerAuth)
    ensures CallersOk(Next(st, ServerAuth))
  {
  }

  lemma MutexKeepsCallersOk(st: State, s: Step)
    requires CallersOk(st) && Can(st, s) && (s.Call? || s.Lock? || s.Fail?)
    ensures CallersOk(Next(st, s))
  {
  }

  lemma ExchangeKeepsCallersOk(st: State, s: Step)
    requires CallersOk(st) && Can(st, s) && (s.Send? || s.Serve? || s.Receive?)
    ensures CallersOk(Next(st, s))
  {
  }

  lemma StrangerKeepsCallersOk(st: State, s: Step)
    requires CallersOk(st) && Can(st, s) && (s.Inject? || s.Drop? || s.Break?)
    ensures CallersOk(Next(st, s))
  {
  }

  lemma ServerKeepsSessionOk(st: State, s: Step)
    requires SessionOk(st) && Can(st, s) && (s.ServerAuth? || s.Drop?)
    ensures SessionOk(Next(st, s))
  {
  }

  lemma ServeKeepsSessionOk(st: State, reply: Message)
    requires SessionOk(st) && Can(st, Serve(reply))
    ensures SessionOk(Next(st, Serve(reply)))
  {
  }

  lemma NextKeepsSessionOk(st: State, s: Step)
    requires SessionOk(st) && Can(st, s)
    ensures SessionOk(Next(st, s))
  {
    match s
    case ServerAuth => ServerKeepsSessionOk(st, s);
    case Drop => ServerKeepsSessionOk(st, s);
    case Serve(reply) => ServeKeepsSessionOk(st, reply);
    case _ =>
  }

  lemma NextKeepsInv(st: State, s: Step)
    requires Inv(st) && Can(st, s)
    ensures Inv(Next(st, s))
  {
    NextKeepsSessionOk(st, s);
    match s
    case SendAuth => HandshakeKeepsCallersOk(st, s);
    case ServerAuth => ServerAuthKeepsCallersOk(st);
    case ReadAuthReply => HandshakeKeepsCallersOk(st, s);
    case Call(_, _) => MutexKeepsCallersOk(st, s);
    case Lock(_) => MutexKeepsCallersOk(st, s);
    case Fail(_) => MutexKeepsCallersOk(st, s);
    case Send(_) => ExchangeKeepsCallersOk(st, s);
    case Serve(_) => ExchangeKeepsCallersOk(st, s);
    case Receive(_) => ExchangeKeepsCallersOk(st, s);
    case _ => StrangerKeepsCallersOk(st, s);
  }

  lemma {:induction false} RunKeepsInv(st: State, steps: seq<Step>)
    requires Inv(st) && Legal(st, steps)
    ensures Inv(Run(st, steps))
    decreases |steps|
  {
    if steps != [] {
      NextKeepsInv(st, steps[0]);
      RunKeepsInv(Next(st, steps[0]), steps[1..]);
    }
  }

  ghost predicate Reachable(st: State) {
    exists token, secret, steps :: Legal(Start(token, secret), steps) && Run(Start(token, secret), steps) == st
  }

  lemma ReachableInv(st: State)
    requires Reachable(st)
    ensures Inv(st)
  {
    var token, secret, steps :| Legal(Start(token, secret), steps) && Run(Start(token, secret), steps) == st;
    RunKeepsInv(Start(token, secret), steps);
  }

  // ---------- What callers can rely on ----------

  // At most one caller is inside the critical section and, while the stream is whole and the client's
  // own, at most one message is on it in either direction.
  lemma AtMostOneOutstanding(st: State)
    requires Reachable(st)
    ensures forall c, d :: c in st.callers && d in st.callers && Busy(st.callers[c]) && Busy(st.callers[d]) ==> c == d
    ensures st.honest && !st.broken ==> |st.toServer| + |st.toClient| <= 1
  {
    ReachableInv(st);
  }

  // The k-th reply a caller receives is the server's answer to the k-th request it processed, that
  // request is the caller's own, and the reply is of a kind the request can have.
  lemma RepliesMatchRequests(st: State, c: nat)
    requires Reachable(st) && st.honest && Can(st, Receive(c))
    ensures var k := |st.received|;
            && k < |st.served| && st.served[..k] == st.received
            && st.served[k] == Exchange(st.callers[c].req, st.toClient[0])
            && MayReply(st.callers[c].req, st.toClient[0])
  {
    ReachableInv(st);
    assert Busy(st.callers[c]);
  }

  // What a caller got back is a reply the server gave to that very request.
  lemma ResultsAreServed(st: State, c: nat)
    requires Reachable(st) && st.honest && c in st.callers && st.callers[c].Returned? && st.callers[c].reply.Some?
    ensures Exchange(st.callers[c].req, st.callers[c].reply.value) in st.served
    ensures MayReply(st.callers[c].req, st.callers[c].reply.value)
  {
    ReachableInv(st);
    var x := Exchange(st.callers[c].req, st.callers[c].reply.value);
    assert x in st.received;
    var i :| 0 <= i < |st.received| && st.received[i] == x;
    assert st.served[i] == x;
  }

  // Whoever writes to the server, and whatever: unless the very first message is the token, nothing
  // is ever processed. That message gets one Error, or nothing if it cannot be decoded, and the
  // server reads no further.
  lemma NothingBeforeTheToken(st: State)
    requires Reachable(st)
    ensures st.served != [] || st.server.Authenticated? || AuthOK in st.sent ==>
              st.arrived != [] && st.arrived[0] == Msg(Auth(st.secret))
    ensures st.arrived != [] && st.arrived[0] != Msg(Auth(st.secret)) ==>
              && st.served == [] && |st.consumed| <= 1
              && (st.consumed != [] ==> TurnedAway(st))
              && (st.consumed == [] ==> st.sent == [])
  {
    ReachableInv(st);
    assert st.consumed != [] ==> st.arrived[0] == st.consumed[0];
  }

  // After the token every message gets exactly one reply, in order and of a kind that fits it. Only
  // a frame that cannot be decoded ends the session, and it is the last thing read.
  lemma EveryMessageGetsOneReply(st: State)
    requires Reachable(st) && st.arrived != [] && st.arrived[0] == Msg(Auth(st.secret))
    ensures st.arrived == st.consumed + st.toServer
    ensures if st.server.AwaitingAuth? then st.consumed == [] && st.sent == [] else Answered(st) && Fitting(st.served)
    ensures st.server.Ended? <==> Garbled in st.consumed
  {
    ReachableInv(st);
    assert st.consumed != [] ==> st.arrived[0] == st.consumed[0];
    if st.server.Authenticated? {
      forall i | 0 <= i < |st.consumed| ensures st.consumed[i] != Garbled {
        assert i > 0 ==> st.consumed[(i - 1) + 1] == Msg(st.served[i - 1].req);
      }
    }
  }

  // With a client that keeps to the protocol: no RPC is processed, and no client is connected, unless
  // the client presented the server's token; and a client that presented it is never turned away.
  lemma TokenFirst(st: State)
    requires Reachable(st) && st.honest
    ensures st.served != [] || st.client.Ready? ==> st.token == st.secret
    ensures st.client.Rejected? ==> st.token != st.secret
    ensures st.token != st.secret ==> st.callers == map[]
  {
    ReachableInv(st);
  }

  predicate InHandshake(s: Step) { s.SendAuth? || s.ServerAuth? || s.ReadAuthReply? }

  // Steps until the client knows whether it is connected.
  ghost function HandshakeLeft(st: State): nat {
    match st.client
    case Connecting => 3
    case AuthSent => if st.toServer != [] then 2 else 1
    case _ => 0
  }

  // On a whole stream the handshake of a client that keeps to the protocol never gets stuck: until
  // it is over there is exactly one kind of step, and each one brings the end nearer.
  lemma HandshakeAdvances(st: State, s: Step)
    requires Inv(st) && st.honest && !st.broken && HandshakeLeft(st) > 0
    ensures Can(st, SendAuth) || Can(st, ServerAuth) || Can(st, ReadAuthReply)
    ensures Can(st, s) && IsProgress(s) ==> InHandshake(s) && HandshakeLeft(Next(st, s)) == HandshakeLeft(st) - 1
  {
  }

  // Three steps after its start, with no break, a client is connected exactly if it has the token,
  // and rejected otherwise.
  lemma {:induction false} HandshakeCompletes(st: State, steps: seq<Step>)
    requires Inv(st) && st.honest && !st.broken && Legal(st, steps) && |steps| == HandshakeLeft(st)
    requires forall i :: 0 <= i < |steps| ==> IsProgress(steps[i])
    ensures var st' := Run(st, steps); st'.client == if st.token == st.secret then Ready else Rejected
    decreases |steps|
  {
    if steps != [] {
      assert IsProgress(steps[0]);
      HandshakeAdvances(st, steps[0]);
      NextKeepsInv(st, steps[0]);
      assert forall i :: 0 <= i < |steps[1..]| ==> steps[1..][i] == steps[i + 1];
      HandshakeCompletes(Next(st, steps[0]), steps[1..]);
    }
  }

  // Whoever writes to it, the server never leaves a frame lying: while the stream is whole and it
  // has not hung up, the next frame is taken.
  lemma ServerNeverStuck(st: State)
    requires !st.broken && !st.server.Ended? && st.toServer != []
    ensures exists s :: Can(st, s) && Next(st, s).toServer == st.toServer[1..]
  {
    var s := if st.toServer[0].Garbled? then Drop
             else if st.server.AwaitingAuth? then ServerAuth
             else Serve(SomeReply(st.toServer[0].m));
    assert Can(st, s) && Next(st, s).toServer == st.toServer[1..];
  }

  // The replies the client's methods treat as unexpected.
  predicate Unexpected(req: Message, reply: Message) {
    match req
    case Register(_) => !reply.Registered? && !reply.Error?
    case ListTunnels => !reply.TunnelList? && !reply.Error?
    case _ => !reply.OK? && !reply.Error?
  }

  // Against this server those branches are dead, in the calls and in the handshake.
  lemma UnexpectedRepliesNeverArrive(st: State, c: nat)
    requires Reachable(st) && st.honest
    ensures Can(st, Receive(c)) ==> !Unexpected(st.callers[c].req, st.toClient[0])
    ensures Can(st, ReadAuthReply) ==> st.toClient[0].AuthOK? || st.toClient[0].Error?
  {
    ReachableInv(st);
    if Can(st, Receive(c)) {
      RepliesMatchRequests(st, c);
      assert IsRpc(st.callers[c].req);
    }
  }

  function SomeReply(req: Message): Message {
    if req.ListTunnels? then TunnelList([]) else Error("")
  }

  // While a caller waits, on a whole stream or a broken one, somebody other than a new caller can
  // move: the mutex and the one-reply loop never lock each other out.
  lemma CallersNeverStuck(st: State, c: nat)
    requires Reachable(st) && (st.honest || st.broken) && c in st.callers && !st.callers[c].Returned?
    ensures exists s :: Can(st, s) && IsProgress(s)
  {
    ReachableInv(st);
    match st.lock
    case None => assert Can(st, Lock(c));
    case Some(h) =>
      if st.broken {
        assert Can(st, Fail(h));
      } else if st.callers[h].Holding? {
        assert Can(st, Send(h));
      } else if st.toServer != [] {
        assert Can(st, Serve(SomeReply(st.toServer[0].m)));
      } else {
        assert Can(st, Receive(h));
      }
  }

  function WaitingCallers(st: State): set<nat> {
    set c | c in st.callers && st.callers[c].Waiting?
  }

  // Steps until every caller has its reply: four for each that waits for the mutex, and what is
  // left of the exchange of the one that holds it.
  ghost function Remaining(st: State): nat
    requires LockOk(st)
  {
    4 * |WaitingCallers(st)| +
    if st.lock.None? then 0
    else if st.callers[st.lock.value].Holding? then 3
    else if st.toServer != [] then 2
    else 1
  }

  predicate IsProgress(s: Step) { !s.Break? && !s.Call? && !s.Inject? }

  lemma WaitingAfter(st: State, s: Step)
    requires Can(st, s) && IsProgress(s)
    ensures s.Lock? ==> |WaitingCallers(Next(st, s))| == |WaitingCallers(st)| - 1
    ensures !s.Lock? ==> WaitingCallers(Next(st, s)) == WaitingCallers(st)
  {
    var before, after := WaitingCallers(st), WaitingCallers(Next(st, s));
    if s.Lock? {
      forall c ensures c in after <==> c in before && c != s.c {
      }
      assert after == before - {s.c};
    } else {
      forall c ensures c in after <==> c in before {
      }
    }
  }

  // One step of an exchange, one step less to go.
  lemma ProgressCounts(st: State, s: Step)
    requires Inv(st) && st.honest && st.client.Ready? && !st.broken && Can(st, s) && IsProgress(s)
    ensures LockOk(Next(st, s)) && Next(st, s).honest && Next(st, s).client.Ready? && !Next(st, s).broken
    ensures Remaining(Next(st, s)) == Remaining(st) - 1
  {
    assert LockOk(Next(st, s)) by { NextKeepsInv(st, s); }
    WaitingAfter(st, s);
  }

  predicate HasReply(c: Caller) { c.Returned? && c.reply.Some? }

  lemma NothingRemains(st: State)
    requires Inv(st) && !st.broken && Remaining(st) == 0
    ensures forall c :: c in st.callers ==> HasReply(st.callers[c])
  {
    forall c | c in st.callers ensures HasReply(st.callers[c]) {
      assert c !in WaitingCallers(st);
    }
  }

  // While the stream stays whole and no new calls come, the callers can make no more than that many
  // steps, and once they have made them every one of them has its reply.
  lemma {:induction false} EveryCallerIsAnswered(st: State, steps: seq<Step>)
    requires Inv(st) && st.honest && st.client.Ready? && !st.broken && Legal(st, steps)
    requires forall i :: 0 <= i < |steps| ==> IsProgress(steps[i])
    ensures |steps| <= Remaining(st)
    ensures |steps| == Remaining(st) ==>
              forall c :: c in Run(st, steps).callers ==> HasReply(Run(st, steps).callers[c])
    decreases |steps|
  {
    if steps == [] {
      if Remaining(st) == 0 {
        NothingRemains(st);
      }
    } else {
      assert IsProgress(steps[0]);
      ProgressCounts(st, steps[0]);
      NextKeepsInv(st, steps[0]);
      assert forall i :: 0 <= i < |steps[1..]| ==> steps[1..][i] == steps[i + 1];
      EveryCallerIsAnswered(Next(st, steps[0]), steps[1..]);
    }
  }

  // ---------- After a break ----------

  // Steps until every caller is back: two for each that waits for the mutex, one for its holder.
  ghost function LeftToReturn(st: State): nat {
    2 * |WaitingCallers(st)| + if st.lock.Some? then 1 else 0
  }

  lemma {:induction false} EveryCallerReturns(st: State, steps: seq<Step>)
    requires Inv(st) && st.broken && Legal(st, steps)
    requires forall i :: 0 <= i < |steps| ==> IsProgress(steps[i])
    ensures |steps| <= LeftToReturn(st)
    ensures |steps| == LeftToReturn(st) ==>
              forall c :: c in Run(st, steps).callers ==> Run(st, steps).callers[c].Returned?
    decreases |steps|
  {
    if steps == [] {
      forall c | c in st.callers && LeftToReturn(st) == 0 ensures st.callers[c].Returned? {
        assert c !in WaitingCallers(st);
      }
    } else {
      assert IsProgress(steps[0]);
      WaitingAfter(st, steps[0]);
      NextKeepsInv(st, steps[0]);
      assert forall i :: 0 <= i < |steps[1..]| ==> steps[1..][i] == steps[i + 1];
      EveryCallerReturns(Next(st, steps[0]), steps[1..]);
    }
  }
}
