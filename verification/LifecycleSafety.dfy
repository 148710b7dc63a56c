/**
 What the lifecycle machine guarantees in every reachable state and over every run, for any number
 of sessions and any interleaving of their steps.
 */
module LifecycleSafety {
  import opened Wrappers
  import opened Protocol
  import opened RoutingTables
  import opened Lifecycle

  // ---------- Runs ----------

  ghost predicate Legal(range: PortRange, st: State, acts: seq<Action>)
    decreases |acts|
  {
    acts == [] || (Enabled(st, acts[0]) && Legal(range, Step(range, st, acts[0]), acts[1..]))
  }

  function Run(range: PortRange, st: State, acts: seq<Action>): State
    requires Legal(range, st, acts)
    decreases |acts|
  {
    if acts == [] then st else Run(range, Step(range, st, acts[0]), acts[1..])
  }

  // st' comes after st in some run.
  ghost predicate RanTo(range: PortRange, st: State, st': State) {
    exists acts :: Legal(range, st, acts) && Run(range, st, acts) == st'
  }

  ghost predicate Reachable(range: PortRange, st: State) {
    RanTo(range, INIT, st)
  }

  lemma {:induction false} RunAppend(range: PortRange, st: State, acts: seq<Action>, more: seq<Action>)
    requires Legal(range, st, acts) && Legal(range, Run(range, st, acts), more)
    ensures Legal(range, st, acts + more)
    ensures Run(range, st, acts + more) == Run(range, Run(range, st, acts), more)
    decreases |acts|
  {
    if acts == [] {
      assert acts + more == more;
    } else {
      assert (acts + more)[1..] == acts[1..] + more;
      RunAppend(range, Step(range, st, acts[0]), acts[1..], more);
    }
  }

  lemma RanToTransitive(range: PortRange, st: State, mid: State, st': State)
    requires RanTo(range, st, mid) && RanTo(range, mid, st')
    ensures RanTo(range, st, st')
  {
    var acts :| Legal(range, st, acts) && Run(range, st, acts) == mid;
    var more :| Legal(range, mid, more) && Run(range, mid, more) == st';
    RunAppend(range, st, acts, more);
  }

  lemma StepIsARun(range: PortRange, st: State, a: Action)
    requires Enabled(st, a)
    ensures RanTo(range, st, Step(range, st, a))
  {
    var acts := [a];
    assert Legal(range, Step(range, st, a), acts[1..]);
    assert Legal(range, st, acts) && Run(range, st, acts) == Step(range, st, a);
  }

  lemma {:induction false} RunKeepsInv(range: PortRange, st: State, acts: seq<Action>)
    requires Inv(st, range) && Legal(range, st, acts)
    ensures Inv(Run(range, st, acts), range)
    decreases |acts|
  {
    if acts != [] {
      StepKeepsInv(range, st, acts[0]);
      RunKeepsInv(range, Step(range, st, acts[0]), acts[1..]);
    }
  }

  lemma ReachableInv(range: PortRange, st: State)
    requires Reachable(range, st)
    ensures Inv(st, range)
  {
    var acts :| Legal(range, INIT, acts) && Run(range, INIT, acts) == st;
    RunKeepsInv(range, INIT, acts);
  }

  // ---------- The tables in every reachable state ----------

  // The tables stay well-formed through every interleaving: each entry under its own key and of its
  // table's kind, ports in range, private listeners with an allowlist.
  lemma ReachableTablesWellFormed(range: PortRange, st: State)
    requires Reachable(range, st)
    ensures WellFormed(st.tables, range)
  {
    ReachableInv(range, st);
    forall k | k in st.tables.http
      ensures st.tables.http[k].typ == HTTP && st.tables.http[k].subdomain == k && st.tables.http[k].port == 0
    {
      assert HttpOk(st, k);
    }
    forall p | p in st.tables.tcp
      ensures range.Contains(p) && st.tables.tcp[p].typ == TCP && st.tables.tcp[p].port == p
      ensures st.tables.tcp[p].private ==> st.tables.tcp[p].allowIPs != []
    {
      assert TcpOk(st, range, p);
      assert IssuedOk(st, st.tables.tcp[p].id);
    }
  }

  // So in every state the server can get into, a registration that names no port is refused for
  // lack of ports exactly when as many tcp tunnels are registered as the range has ports.
  lemma RefusedForPortsIffFull(range: PortRange, st: State, req: RegisterRequest, s: SessionId, password: string, env: Env)
    requires Reachable(range, st)
    ensures RoutingTables.Register(st.tables, range, req, s, password, env).outcome == Err(PortsExhausted) <==>
              && (req.domain == "" || env.domainClaimed) && req.typ == TCP && (req.private ==> req.allowIPs != [])
              && req.remotePort == 0 && |st.tables.tcp| == range.Size()
  {
    ReachableTablesWellFormed(range, st);
    ExhaustedIffFull(st.tables, range, req.remotePort, req.localPort);
  }

  // ---------- Two locks and the operating system agree ----------

  // An insert never overwrites, and what it inserts is the port's one live listener.
  lemma InsertOverwritesNothing(range: PortRange, st: State, s: SessionId)
    requires Reachable(range, st) && Enabled(st, Insert(s))
    ensures var p := st.phase[s].tn.port;
            && p !in st.listeners && p in st.live && st.live[p] == st.phase[s].tn
            && p in st.tables.tcp && st.tables.tcp[p] == st.phase[s].tn && st.phase[s].tn.session == s
  {
    ReachableInv(range, st);
    assert PhaseOk(st, s);
  }

  // The listener a session takes out of the map for a port it freed is always there and always its
  // own, even if another session has registered the port since; closing it frees exactly that port.
  lemma CleanupClosesOnlyItsOwn(range: PortRange, st: State, s: SessionId)
    requires Reachable(range, st)
    ensures Enabled(st, Take(s)) ==>
              var p := st.phase[s].ports[0];
              p in st.listeners && st.listeners[p].session == s
    ensures Enabled(st, Close(s)) ==>
              var ln := st.phase[s].ln;
              && ln.session == s && ln.port in st.live && st.live[ln.port] == ln
              && Step(range, st, Close(s)).live == st.live - {ln.port}
  {
    ReachableInv(range, st);
    if s in st.phase {
      assert PhaseOk(st, s);
      if Enabled(st, Take(s)) {
        assert st.phase[s].ports[0] in st.phase[s].ports;
      }
    }
  }

  ghost predicate InTransit(ph: Phase) { ph.Inserting? || ph.Closing? }

  ghost function Carried(ph: Phase): Tunnel
    requires InTransit(ph)
  {
    if ph.Inserting? then ph.tn else ph.ln
  }

  // Sessions holding a bound listener that is not in the map.
  ghost function Carriers(st: State): set<SessionId> {
    set s | s in st.phase && InTransit(st.phase[s])
  }

  lemma {:induction false} InjectiveMapSize(m: map<nat, nat>)
    requires forall a, b :: a in m && b in m && a != b ==> m[a] != m[b]
    ensures |m.Values| == |m|
  {
    if m != map[] {
      var a :| a in m;
      var rest := m - {a};
      InjectiveMapSize(rest);
      forall v ensures v in m.Values <==> v in rest.Values + {m[a]} {
        if v in m.Values {
          var b :| b in m && m[b] == v;
          assert b == a || (b in rest && rest[b] == v);
        }
      }
      assert m.Values == rest.Values + {m[a]};
    } else {
      assert m.Values == {};
    }
  }

  // Conservation: every live listener is in the map or carried by exactly one handler, and every
  // listener in the map and every carried one is live.
  lemma LiveListenersAccountedFor(range: PortRange, st: State)
    requires Reachable(range, st)
    ensures forall p :: p in st.live ==>
              ((p in st.listeners && st.listeners[p] == st.live[p])
               <==> !(st.live[p].session in Carriers(st) && Carried(st.phase[st.live[p].session]) == st.live[p]))
    ensures forall p :: p in st.listeners ==> p in st.live && st.live[p] == st.listeners[p]
    ensures forall s :: s in Carriers(st) ==>
              var ln := Carried(st.phase[s]);
              ln.session == s && ln.port in st.live && st.live[ln.port] == ln && ln.port !in st.listeners
  {
    ReachableInv(range, st);
    forall p | p in st.listeners ensures p in st.live && st.live[p] == st.listeners[p] { assert ListenerOk(st, p); }
    forall s | s in Carriers(st)
      ensures var ln := Carried(st.phase[s]);
              ln.session == s && ln.port in st.live && st.live[ln.port] == ln && ln.port !in st.listeners
    {
      assert PhaseOk(st, s);
    }
    forall p | p in st.live
      ensures (p in st.listeners && st.listeners[p] == st.live[p])
              <==> !(st.live[p].session in Carriers(st) && Carried(st.phase[st.live[p].session]) == st.live[p])
    {
      assert LiveOk(st, p);
    }
  }

  ghost function CarriedPorts(st: State): map<nat, nat> {
    map s | s in Carriers(st) :: Carried(st.phase[s]).port
  }

  lemma CarriedAreTheUnlisted(range: PortRange, st: State)
    requires Reachable(range, st)
    ensures CarriedPorts(st).Values == st.live.Keys - st.listeners.Keys
  {
    LiveListenersAccountedFor(range, st);
    forall p | p in st.live.Keys - st.listeners.Keys ensures p in CarriedPorts(st).Values {
      ReachableInv(range, st);
      assert LiveOk(st, p);
      var s := st.live[p].session;
      assert s in CarriedPorts(st) && CarriedPorts(st)[s] == p;
    }
  }

  lemma OnePortPerCarrier(range: PortRange, st: State)
    requires Reachable(range, st)
    ensures |CarriedPorts(st).Values| == |Carriers(st)|
  {
    LiveListenersAccountedFor(range, st);
    var carried := CarriedPorts(st);
    assert carried.Keys == Carriers(st);
    forall r, s | r in carried && s in carried && r != s ensures carried[r] != carried[s] {
      assert st.live[carried[r]].session == r && st.live[carried[s]].session == s;
    }
    InjectiveMapSize(carried);
  }

  lemma DifferenceSize(a: set<nat>, b: set<nat>)
    requires b <= a
    ensures |a| == |b| + |a - b|
  {
    assert a == b + (a - b);
  }

  // So the numbers add up.
  lemma LiveListenersAddUp(range: PortRange, st: State)
    requires Reachable(range, st)
    ensures |st.live| == |st.listeners| + |Carriers(st)|
  {
    CarriedAreTheUnlisted(range, st);
    OnePortPerCarrier(range, st);
    assert st.listeners.Keys <= st.live.Keys by { LiveListenersAccountedFor(range, st); }
    DifferenceSize(st.live.Keys, st.listeners.Keys);
  }

  // When no handler is between two of its steps, the routing table, the server's listener map and
  // the operating system's bindings are one and the same map.
  lemma QuiescentStateAgrees(range: PortRange, st: State)
    requires Reachable(range, st)
    requires forall s :: s in st.phase ==> st.phase[s].Serving? || st.phase[s].Finished?
    ensures st.tables.tcp == st.listeners == st.live
  {
    ReachableInv(range, st);
    forall p ensures p in st.tables.tcp ==> p in st.listeners && st.listeners[p] == st.tables.tcp[p] {
      if p in st.tables.tcp { assert TcpOk(st, range, p); }
    }
    forall p ensures p in st.listeners ==> p in st.live && p in st.tables.tcp {
      if p in st.listeners { assert ListenerOk(st, p); }
    }
    forall p ensures p in st.live ==> p in st.listeners && st.listeners[p] == st.live[p] {
      if p in st.live { assert LiveOk(st, p); }
    }
  }

  ghost predicate NothingOf(st: State, s: SessionId) {
    && (forall k :: k in st.tables.http ==> st.tables.http[k].session != s)
    && (forall p :: p in st.tables.tcp ==> st.tables.tcp[p].session != s)
    && (forall p :: p in st.listeners ==> st.listeners[p].session != s)
    && (forall p :: p in st.live ==> st.live[p].session != s)
  }

  lemma NewcomerHasNothing(range: PortRange, st: State, s: SessionId)
    requires Inv(st, range) && s !in st.phase
    ensures NothingOf(st, s)
  {
    forall k | k in st.tables.http ensures st.tables.http[k].session != s { assert HttpOk(st, k); }
    forall p | p in st.tables.tcp ensures st.tables.tcp[p].session != s { assert TcpOk(st, range, p); }
    forall p | p in st.listeners ensures st.listeners[p].session != s { assert ListenerOk(st, p); }
    forall p | p in st.live ensures st.live[p].session != s { assert LiveOk(st, p); }
  }

  lemma FinishedLeavesNothing(range: PortRange, st: State, s: SessionId)
    requires Inv(st, range) && s in st.phase && st.phase[s].Finished?
    ensures NothingOf(st, s)
  {
    forall k | k in st.tables.http ensures st.tables.http[k].session != s { assert HttpOk(st, k); }
    forall p | p in st.tables.tcp ensures st.tables.tcp[p].session != s { assert TcpOk(st, range, p); }
    forall p | p in st.listeners ensures st.listeners[p].session != s {
      assert ListenerOk(st, p);
      if p in st.tables.tcp { assert TcpOk(st, range, p); }
    }
    forall p | p in st.live ensures st.live[p].session != s {
      assert LiveOk(st, p);
      if p in st.listeners {
        assert ListenerOk(st, p);
        if p in st.tables.tcp { assert TcpOk(st, range, p); }
      }
    }
  }

  // Once a session's handler has finished, nothing of it is left anywhere.
  lemma CleanExit(range: PortRange, st: State, s: SessionId)
    requires Reachable(range, st) && s in st.phase && st.phase[s].Finished?
    ensures NothingOf(st, s)
  {
    ReachableInv(range, st);
    FinishedLeavesNothing(range, st, s);
  }

  // ---------- Sessions do not disturb each other ----------

  ghost function Of<K>(m: map<K, Tunnel>, s: SessionId): map<K, Tunnel> {
    map k | k in m && m[k].session == s :: m[k]
  }

  ghost function NotOf<K>(m: map<K, Tunnel>, s: SessionId): map<K, Tunnel> {
    map k | k in m && m[k].session != s :: m[k]
  }

  ghost predicate OthersKeep(st: State, st': State, s: SessionId) {
    && NotOf(st'.tables.http, s) == NotOf(st.tables.http, s)
    && NotOf(st'.tables.tcp, s) == NotOf(st.tables.tcp, s)
    && NotOf(st'.listeners, s) == NotOf(st.listeners, s)
    && NotOf(st'.live, s) == NotOf(st.live, s)
    && (forall r :: r != s ==> (r in st'.phase <==> r in st.phase))
    && (forall r :: r in st.phase && r != s ==> st'.phase[r] == st.phase[r])
  }

  lemma RegisterTouchesOnlyItsOwn(range: PortRange, st: State, s: SessionId, req: RegisterRequest, generated: string, env: Env)
    ensures OthersKeep(st, DoRegister(range, st, s, req, generated, env), s)
  {
    RegisterAddsAtMostOne(st.tables, range, req, s, PasswordFor(req, generated), env);
  }

  // The tunnel a handler rolls back is the only entry with its identifier.
  lemma RollbackRemovesOne(range: PortRange, st: State, s: SessionId)
    requires Inv(st, range) && s in st.phase && st.phase[s].RollingBack?
    ensures var tn := st.phase[s].tn;
            && tn.session == s
            && (forall k :: k in st.tables.http ==> st.tables.http[k].id != tn.id)
            && (forall p :: p in st.tables.tcp && st.tables.tcp[p].id == tn.id ==> st.tables.tcp[p] == tn && p == tn.port)
  {
    assert PhaseOk(st, s);
    var tn := st.phase[s].tn;
    forall k | k in st.tables.http ensures st.tables.http[k].id != tn.id { assert HttpOk(st, k); }
    forall p | p in st.tables.tcp && st.tables.tcp[p].id == tn.id ensures st.tables.tcp[p] == tn && p == tn.port { assert TcpOk(st, range, p); }
  }

  lemma TakeTouchesOnlyItsOwn(st: State, s: SessionId, p: nat, rest: seq<nat>)
    requires s in st.phase && OwedOk(st, s, [p] + rest)
    ensures OthersKeep(st, DoTake(st, s, p, rest), s)
  {
    OwedTail(st, s, p, rest);
  }

  lemma BindTouchesOnlyItsOwn(st: State, s: SessionId, tn: Tunnel)
    requires tn.session == s
    ensures tn.port !in st.live ==> OthersKeep(st, DoBind(st, s, tn), s)
    ensures tn.port !in st.listeners ==> OthersKeep(st, DoInsert(st, s, tn), s)
  {
  }

  lemma CloseTouchesOnlyItsOwn(st: State, s: SessionId, ln: Tunnel, rest: seq<nat>)
    requires ln.session == s
    ensures OthersKeep(st, DoClose(st, s, ln, rest), s)
  {
  }

  lemma DisconnectTouchesOnlyItsOwn(st: State, s: SessionId, order: seq<nat>)
    ensures OthersKeep(st, DoDisconnect(st, s, order), s)
  {
  }

  // No step of a session's handler, of whatever kind, changes anything that belongs to the others.
  lemma StepTouchesOnlyItsOwn(range: PortRange, st: State, a: Action)
    requires Inv(st, range) && Enabled(st, a)
    ensures OthersKeep(st, Step(range, st, a), a.s)
  {
    match a
    case Register(s, req, generated, env) => RegisterTouchesOnlyItsOwn(range, st, s, req, generated, env);
    case Rollback(s) => RollbackRemovesOne(range, st, s);
    case Take(s) =>
      var ports := st.phase[s].ports;
      assert ports == [ports[0]] + ports[1..];
      assert PhaseOk(st, s);
      TakeTouchesOnlyItsOwn(st, s, ports[0], ports[1..]);
    case BindOk(s) =>
      assert PhaseOk(st, s);
      BindTouchesOnlyItsOwn(st, s, st.phase[s].tn);
    case Insert(s) =>
      assert PhaseOk(st, s);
      BindTouchesOnlyItsOwn(st, s, st.phase[s].tn);
    case Disconnect(s, order) => DisconnectTouchesOnlyItsOwn(st, s, order);
    case Close(s) =>
      assert PhaseOk(st, s);
      CloseTouchesOnlyItsOwn(st, s, st.phase[s].ln, st.phase[s].ports);
    case _ =>
  }
}
