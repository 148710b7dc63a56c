/**
 The life of tunnels on the server as an interleaved state machine. Every control session has one
 sequential handler; a step of the machine is one locked region or one operating-system call of one
 handler, and the steps of all handlers interleave freely.

 A listener is named by the tunnel whose connections it accepts. The map of live listeners is what
 the operating system has bound: it holds at most one listener per port.
 */
module Lifecycle {
  import opened Wrappers
  import opened Protocol
  import opened RoutingTables

  // Where a session's handler is between two of its steps.
  datatype Phase =
    | Serving                                    // waiting for the next control message
    | Binding(tn: Tunnel)                        // registered, listener not yet bound
    | Inserting(tn: Tunnel)                      // bound, not yet in the listener map
    | RollingBack(tn: Tunnel)                    // failed, table entry not yet removed
    | Cleaning(ports: seq<nat>)                  // connection gone, these listeners still to close
    | Closing(ln: Tunnel, ports: seq<nat>)       // ln is out of the map but still bound
    | Finished
  {
    predicate Active() { Serving? || Binding? || Inserting? || RollingBack? }

    predicate Owes(p: nat) { (Cleaning? || Closing?) && p in ports }

    predicate Holds(x: Tunnel) { (Binding? || Inserting? || RollingBack?) && tn == x }
  }

  datatype State = State(
    tables: Tables,
    listeners: map<nat, Tunnel>,                 // the server's own map, guarded by its own lock
    live: map<nat, Tunnel>,                      // what the operating system has bound
    phase: map<SessionId, Phase>,                // every session that ever connected
    issued: map<string, Tunnel>)                 // every tunnel ever created, by identifier

  const INIT := State(EMPTY, map[], map[], map[], map[])

  datatype Action =
    | Connect(s: SessionId)
    | Register(s: SessionId, req: RegisterRequest, generated: string, env: Env)
    | BindOk(s: SessionId)
    | BindFail(s: SessionId)
    | Insert(s: SessionId)
    | Rollback(s: SessionId)
    | Disconnect(s: SessionId, order: seq<nat>)
    | Take(s: SessionId)
    | Close(s: SessionId)
    | Finish(s: SessionId)

  // A bind succeeds only on a port nothing else has bound, and may fail for any other reason too.
  // Identifiers are drawn at random; they are taken never to repeat.
  ghost predicate Enabled(st: State, a: Action) {
    if a.Connect? then a.s !in st.phase
    else
      && a.s in st.phase
      && var ph := st.phase[a.s];
      match a
      case Connect(_) => false
      case Register(_, _, generated, env) => ph.Serving? && env.id !in st.issued && generated != ""
      case BindOk(_) => ph.Binding? && ph.tn.port !in st.live
      case BindFail(_) => ph.Binding?
      case Insert(_) => ph.Inserting?
      case Rollback(_) => ph.RollingBack?
      case Disconnect(s, order) => ph.Serving? && Enumerates(order, PortsOf(st.tables, s))
      case Take(_) => ph.Cleaning? && ph.ports != []
      case Close(_) => ph.Closing?
      case Finish(_) => ph.Cleaning? && ph.ports == []
  }

  // A private http tunnel registered without a password gets a generated one.
  function PasswordFor(req: RegisterRequest, generated: string): string {
    if req.typ == HTTP && req.private && req.password == "" then generated else req.password
  }

  function AfterRegister(tn: Tunnel): Phase {
    if tn.typ == HTTP then Serving else if tn.typ == TCP then Binding(tn) else RollingBack(tn)
  }

  function DoRegister(range: PortRange, st: State, s: SessionId, req: RegisterRequest, generated: string, env: Env): State {
    var r := RoutingTables.Register(st.tables, range, req, s, PasswordFor(req, generated), env);
    match r.outcome
    case Err(_) => st
    case Ok(tn) => Issue(st, s, r.tables, tn)
  }

  function Issue(st: State, s: SessionId, tables: Tables, tn: Tunnel): State {
    st.(tables := tables, issued := st.issued[tn.id := tn], phase := st.phase[s := AfterRegister(tn)])
  }

  function DoBind(st: State, s: SessionId, tn: Tunnel): State {
    st.(live := st.live[tn.port := tn], phase := st.phase[s := Inserting(tn)])
  }

  function DoInsert(st: State, s: SessionId, tn: Tunnel): State {
    st.(listeners := st.listeners[tn.port := tn], phase := st.phase[s := Serving])
  }

  function DoRollback(st: State, s: SessionId, tn: Tunnel): State {
    st.(tables := Remove(st.tables, tn.id), phase := st.phase[s := Serving])
  }

  function DoDisconnect(st: State, s: SessionId, order: seq<nat>): State {
    st.(tables := Without(st.tables, s), phase := st.phase[s := Cleaning(order)])
  }

  function DoTake(st: State, s: SessionId, p: nat, rest: seq<nat>): State {
    if p in st.listeners then
      st.(listeners := st.listeners - {p}, phase := st.phase[s := Closing(st.listeners[p], rest)])
    else st.(phase := st.phase[s := Cleaning(rest)])
  }

  function DoClose(st: State, s: SessionId, ln: Tunnel, rest: seq<nat>): State {
    st.(live := if ln.port in st.live && st.live[ln.port] == ln then st.live - {ln.port} else st.live,
        phase := st.phase[s := Cleaning(rest)])
  }

  function Become(st: State, s: SessionId, ph: Phase): State {
    st.(phase := st.phase[s := ph])
  }

  function Step(range: PortRange, st: State, a: Action): State
    requires Enabled(st, a)
  {
    match a
    case Connect(s) => Become(st, s, Serving)
    case Register(s, req, generated, env) => DoRegister(range, st, s, req, generated, env)
    case BindOk(s) => DoBind(st, s, st.phase[s].tn)
    case BindFail(s) => Become(st, s, RollingBack(st.phase[s].tn))
    case Insert(s) => DoInsert(st, s, st.phase[s].tn)
    case Rollback(s) => DoRollback(st, s, st.phase[s].tn)
    case Disconnect(s, order) => DoDisconnect(st, s, order)
    case Take(s) => DoTake(st, s, st.phase[s].ports[0], st.phase[s].ports[1..])
    case Close(s) => DoClose(st, s, st.phase[s].ln, st.phase[s].ports)
    case Finish(s) => Become(st, s, Finished)
  }

  // ---------- The invariant ----------

  ghost predicate Known(st: State, tn: Tunnel) {
    tn.id in st.issued && st.issued[tn.id] == tn
  }

  ghost predicate Routed(st: State, tn: Tunnel) {
    && Known(st, tn) && tn.session in st.phase && st.phase[tn.session].Active()
  }

  ghost predicate Unbound(st: State, tn: Tunnel) {
    && (tn.port in st.listeners ==> st.listeners[tn.port] != tn)
    && (tn.port in st.live ==> st.live[tn.port] != tn)
  }

  ghost predicate HttpOk(st: State, k: string)
    requires k in st.tables.http
  {
    var tn := st.tables.http[k];
    tn.typ == HTTP && tn.subdomain == k && tn.port == 0 && Routed(st, tn)
  }

  // A tcp entry has its own listener in the map, or its handler has not got that far.
  ghost predicate TcpOk(st: State, range: PortRange, p: nat)
    requires p in st.tables.tcp
  {
    var tn := st.tables.tcp[p];
    && range.Contains(p) && tn.typ == TCP && tn.port == p && Routed(st, tn)
    && ((p in st.listeners && st.listeners[p] == tn) || st.phase[tn.session].Holds(tn))
  }

  // A listener in the map is bound, and its owner holds the port or is about to close it.
  ghost predicate ListenerOk(st: State, p: nat)
    requires p in st.listeners
  {
    var ln := st.listeners[p];
    && ln.port == p && ln.typ == TCP && Known(st, ln) && ln.session in st.phase
    && p in st.live && st.live[p] == ln
    && ((p in st.tables.tcp && st.tables.tcp[p] == ln) || st.phase[ln.session].Owes(p))
  }

  // A bound listener is in the map, or about to be inserted, or just taken out.
  ghost predicate LiveOk(st: State, p: nat)
    requires p in st.live
  {
    var ln := st.live[p];
    && ln.port == p && ln.typ == TCP && Known(st, ln) && ln.session in st.phase
    && ((p in st.listeners && st.listeners[p] == ln)
        || st.phase[ln.session] == Inserting(ln)
        || (st.phase[ln.session].Closing? && st.phase[ln.session].ln == ln))
  }

  ghost predicate OwedOk(st: State, s: SessionId, ports: seq<nat>) {
    && (forall i, j :: 0 <= i < j < |ports| ==> ports[i] != ports[j])
    && (forall p :: p in ports ==> p in st.listeners && st.listeners[p].session == s)
  }

  ghost predicate PhaseOk(st: State, s: SessionId)
    requires s in st.phase
  {
    match st.phase[s]
    case Serving => true
    case Binding(tn) =>
      && tn.session == s && Known(st, tn) && tn.typ == TCP && Unbound(st, tn)
      && tn.port in st.tables.tcp && st.tables.tcp[tn.port] == tn
    case Inserting(tn) =>
      && tn.session == s && Known(st, tn) && tn.typ == TCP && tn.port !in st.listeners
      && tn.port in st.live && st.live[tn.port] == tn
      && tn.port in st.tables.tcp && st.tables.tcp[tn.port] == tn
    case RollingBack(tn) =>
      && tn.session == s && Known(st, tn) && tn.typ != HTTP && Unbound(st, tn)
    case Cleaning(ports) => OwedOk(st, s, ports)
    case Closing(ln, ports) =>
      && OwedOk(st, s, ports) && ln.session == s && Known(st, ln) && ln.port !in st.listeners
      && ln.port in st.live && st.live[ln.port] == ln
    case Finished => true
  }

  // A private tcp tunnel lists at least one address, a private http tunnel has a password.
  ghost predicate Guarded(tn: Tunnel) {
    && (tn.private && tn.typ == TCP ==> tn.allowIPs != [])
    && (tn.private && tn.typ == HTTP ==> tn.password != "")
  }

  ghost predicate IssuedOk(st: State, id: string)
    requires id in st.issued
  {
    st.issued[id].id == id && st.issued[id].session in st.phase && Guarded(st.issued[id])
  }

  // Each conjunct is used only where its predicate is mentioned, which keeps the proofs small.
  ghost predicate Inv(st: State, range: PortRange) {
    && (forall k {:trigger HttpOk(st, k)} :: k in st.tables.http ==> HttpOk(st, k))
    && (forall p {:trigger TcpOk(st, range, p)} :: p in st.tables.tcp ==> TcpOk(st, range, p))
    && (forall p {:trigger ListenerOk(st, p)} :: p in st.listeners ==> ListenerOk(st, p))
    && (forall p {:trigger LiveOk(st, p)} :: p in st.live ==> LiveOk(st, p))
    && (forall s {:trigger PhaseOk(st, s)} :: s in st.phase ==> PhaseOk(st, s))
    && (forall id {:trigger IssuedOk(st, id)} :: id in st.issued ==> IssuedOk(st, id))
  }

  lemma FreshIsUnbound(range: PortRange, st: State, tn: Tunnel)
    requires Inv(st, range) && tn.id !in st.issued
    ensures Unbound(st, tn)
  {
    assert tn.port in st.listeners ==> ListenerOk(st, tn.port);
    assert tn.port in st.live ==> LiveOk(st, tn.port);
  }

  lemma ListedPortIsLive(range: PortRange, st: State, p: nat)
    requires Inv(st, range)
    ensures p in st.listeners ==> p in st.live
  {
    if p in st.listeners {
      assert ListenerOk(st, p);
    }
  }

  // The tables a successful registration of tn leaves behind.
  ghost predicate Records(range: PortRange, t: Tables, tables: Tables, tn: Tunnel) {
    if tn.typ == HTTP then tn.port == 0 && tn.subdomain !in t.http && tables == t.(http := t.http[tn.subdomain := tn])
    else if tn.typ == TCP then
      range.Contains(tn.port) && tn.port !in t.tcp && tables == t.(tcp := t.tcp[tn.port := tn])
    else tables == t
  }

  lemma IssueKeepsRoutes(range: PortRange, st: State, s: SessionId, tables: Tables, tn: Tunnel)
    requires Inv(st, range) && s in st.phase && st.phase[s].Serving?
    requires tn.id !in st.issued && tn.session == s && Records(range, st.tables, tables, tn)
    ensures var st' := Issue(st, s, tables, tn);
            && (forall k :: k in st'.tables.http ==> HttpOk(st', k))
            && (forall p :: p in st'.tables.tcp ==> TcpOk(st', range, p))
  {
    var st' := Issue(st, s, tables, tn);
    forall k | k in st'.tables.http ensures HttpOk(st', k) { if k in st.tables.http { assert HttpOk(st, k); } }
    forall p | p in st'.tables.tcp ensures TcpOk(st', range, p) { if p in st.tables.tcp { assert TcpOk(st, range, p); } }
  }

  lemma IssueKeepsPorts(range: PortRange, st: State, s: SessionId, tables: Tables, tn: Tunnel)
    requires Inv(st, range) && s in st.phase && st.phase[s].Serving?
    requires tn.id !in st.issued && tn.session == s && Records(range, st.tables, tables, tn)
    ensures var st' := Issue(st, s, tables, tn);
            && (forall p :: p in st'.listeners ==> ListenerOk(st', p))
            && (forall p :: p in st'.live ==> LiveOk(st', p))
  {
    var st' := Issue(st, s, tables, tn);
    forall p | p in st'.listeners ensures ListenerOk(st', p) { assert ListenerOk(st, p); }
    forall p | p in st'.live ensures LiveOk(st', p) { assert LiveOk(st, p); }
  }

  lemma IssueKeepsPhases(range: PortRange, st: State, s: SessionId, tables: Tables, tn: Tunnel)
    requires Inv(st, range) && s in st.phase && st.phase[s].Serving?
    requires tn.id !in st.issued && tn.session == s && Records(range, st.tables, tables, tn)
    ensures var st' := Issue(st, s, tables, tn);
            forall r :: r in st'.phase ==> PhaseOk(st', r)
  {
    var st' := Issue(st, s, tables, tn);
    FreshIsUnbound(range, st, tn);
    forall r | r in st'.phase ensures PhaseOk(st', r) { assert PhaseOk(st, r); }
  }

  lemma IssueKeepsInv(range: PortRange, st: State, s: SessionId, tables: Tables, tn: Tunnel)
    requires Inv(st, range) && s in st.phase && st.phase[s].Serving?
    requires tn.id !in st.issued && tn.session == s && Guarded(tn) && Records(range, st.tables, tables, tn)
    ensures Inv(Issue(st, s, tables, tn), range)
  {
    var st' := Issue(st, s, tables, tn);
    IssueKeepsRoutes(range, st, s, tables, tn);
    IssueKeepsPorts(range, st, s, tables, tn);
    forall id | id in st'.issued ensures IssuedOk(st', id) { if id in st.issued { assert IssuedOk(st, id); } }
    IssueKeepsPhases(range, st, s, tables, tn);
  }

  lemma RegisterKeepsInv(range: PortRange, st: State, s: SessionId, req: RegisterRequest, generated: string, env: Env)
    requires Inv(st, range) && s in st.phase && st.phase[s].Serving? && env.id !in st.issued && generated != ""
    ensures Inv(DoRegister(range, st, s, req, generated, env), range)
  {
    var password := PasswordFor(req, generated);
    RegisterAddsAtMostOne(st.tables, range, req, s, password, env);
    var r := RoutingTables.Register(st.tables, range, req, s, password, env);
    if r.outcome.Ok? {
      IssueKeepsInv(range, st, s, r.tables, r.outcome.value);
    }
  }

  lemma BindKeepsInv(range: PortRange, st: State, s: SessionId, tn: Tunnel)
    requires Inv(st, range) && s in st.phase && st.phase[s] == Binding(tn) && tn.port !in st.live
    ensures Inv(DoBind(st, s, tn), range)
  {
    var st' := DoBind(st, s, tn);
    assert PhaseOk(st, s);
    ListedPortIsLive(range, st, tn.port);
    forall k | k in st'.tables.http ensures HttpOk(st', k) { assert HttpOk(st, k); }
    forall p | p in st'.tables.tcp ensures TcpOk(st', range, p) { assert TcpOk(st, range, p); }
    forall p | p in st'.listeners ensures ListenerOk(st', p) { assert ListenerOk(st, p); }
    forall p | p in st'.live ensures LiveOk(st', p) { if p in st.live { assert LiveOk(st, p); } }
    forall id | id in st'.issued ensures IssuedOk(st', id) { assert IssuedOk(st, id); }
    forall r | r in st'.phase ensures PhaseOk(st', r) { assert PhaseOk(st, r); }
  }

  lemma BindFailKeepsInv(range: PortRange, st: State, s: SessionId, tn: Tunnel)
    requires Inv(st, range) && s in st.phase && st.phase[s] == Binding(tn)
    ensures Inv(Become(st, s, RollingBack(tn)), range)
  {
    var st' := Become(st, s, RollingBack(tn));
    assert PhaseOk(st, s);
    forall k | k in st'.tables.http ensures HttpOk(st', k) { assert HttpOk(st, k); }
    forall p | p in st'.tables.tcp ensures TcpOk(st', range, p) { assert TcpOk(st, range, p); }
    forall p | p in st'.listeners ensures ListenerOk(st', p) { assert ListenerOk(st, p); }
    forall p | p in st'.live ensures LiveOk(st', p) { assert LiveOk(st, p); }
    forall id | id in st'.issued ensures IssuedOk(st', id) { assert IssuedOk(st, id); }
    forall r | r in st'.phase ensures PhaseOk(st', r) { assert PhaseOk(st, r); }
  }

  lemma InsertKeepsInv(range: PortRange, st: State, s: SessionId, tn: Tunnel)
    requires Inv(st, range) && s in st.phase && st.phase[s] == Inserting(tn)
    ensures Inv(DoInsert(st, s, tn), range)
  {
    var st' := DoInsert(st, s, tn);
    assert PhaseOk(st, s);
    forall k | k in st'.tables.http ensures HttpOk(st', k) { assert HttpOk(st, k); }
    forall p | p in st'.tables.tcp ensures TcpOk(st', range, p) { assert TcpOk(st, range, p); }
    forall p | p in st'.listeners ensures ListenerOk(st', p) { if p in st.listeners { assert ListenerOk(st, p); } }
    forall p | p in st'.live ensures LiveOk(st', p) { assert LiveOk(st, p); }
    forall id | id in st'.issued ensures IssuedOk(st', id) { assert IssuedOk(st, id); }
    forall r | r in st'.phase ensures PhaseOk(st', r) { assert PhaseOk(st, r); }
  }

  lemma RollbackKeepsInv(range: PortRange, st: State, s: SessionId, tn: Tunnel)
    requires Inv(st, range) && s in st.phase && st.phase[s] == RollingBack(tn)
    ensures Inv(DoRollback(st, s, tn), range)
  {
    var st' := DoRollback(st, s, tn);
    assert PhaseOk(st, s);
    forall k | k in st'.tables.http ensures HttpOk(st', k) { assert HttpOk(st, k); }
    forall p | p in st'.tables.tcp ensures TcpOk(st', range, p) { assert TcpOk(st, range, p); }
    forall p | p in st'.listeners ensures ListenerOk(st', p) { assert ListenerOk(st, p); }
    forall p | p in st'.live ensures LiveOk(st', p) { assert LiveOk(st, p); }
    forall id | id in st'.issued ensures IssuedOk(st', id) { assert IssuedOk(st, id); }
    forall r | r in st'.phase ensures PhaseOk(st', r) { assert PhaseOk(st, r); }
  }

  lemma DisconnectKeepsInv(range: PortRange, st: State, s: SessionId, order: seq<nat>)
    requires Inv(st, range) && s in st.phase && st.phase[s].Serving? && Enumerates(order, PortsOf(st.tables, s))
    ensures Inv(DoDisconnect(st, s, order), range)
  {
    var st' := DoDisconnect(st, s, order);
    forall k | k in st'.tables.http ensures HttpOk(st', k) { assert HttpOk(st, k); }
    forall p | p in st'.tables.tcp ensures TcpOk(st', range, p) { assert TcpOk(st, range, p); }
    forall p | p in st'.listeners ensures ListenerOk(st', p) {
      assert ListenerOk(st, p);
      assert st.listeners[p].session == s ==> p in PortsOf(st.tables, s);
    }
    forall p | p in st'.live ensures LiveOk(st', p) { assert LiveOk(st, p); }
    forall id | id in st'.issued ensures IssuedOk(st', id) { assert IssuedOk(st, id); }
    forall r | r in st'.phase ensures PhaseOk(st', r) {
      assert PhaseOk(st, r);
      if r == s {
        forall p | p in order ensures p in st.listeners && st.listeners[p].session == s {
          assert p in PortsOf(st.tables, s);
          assert TcpOk(st, range, p);
        }
      }
    }
  }

  lemma OwedTail(st: State, s: SessionId, p: nat, rest: seq<nat>)
    requires OwedOk(st, s, [p] + rest)
    ensures p in st.listeners && st.listeners[p].session == s && p !in rest && OwedOk(st, s, rest)
  {
    var ports := [p] + rest;
    assert ports[0] == p;
    assert forall i :: 0 <= i < |rest| ==> rest[i] == ports[i + 1];
  }

  lemma TakeKeepsPhases(range: PortRange, st: State, s: SessionId, p: nat, rest: seq<nat>)
    requires Inv(st, range) && s in st.phase && st.phase[s] == Cleaning([p] + rest)
    ensures var st' := DoTake(st, s, p, rest);
            forall r :: r in st'.phase ==> PhaseOk(st', r)
  {
    assert PhaseOk(st, s);
    OwedTail(st, s, p, rest);
    assert ListenerOk(st, p);
    var st' := DoTake(st, s, p, rest);
    forall r | r in st'.phase ensures PhaseOk(st', r) { assert PhaseOk(st, r); }
  }

  lemma TakeKeepsInv(range: PortRange, st: State, s: SessionId, p: nat, rest: seq<nat>)
    requires Inv(st, range) && s in st.phase && st.phase[s] == Cleaning([p] + rest)
    ensures p in st.listeners && st.listeners[p].session == s
    ensures Inv(DoTake(st, s, p, rest), range)
  {
    assert PhaseOk(st, s);
    OwedTail(st, s, p, rest);
    assert ListenerOk(st, p);
    var st' := DoTake(st, s, p, rest);
    forall k | k in st'.tables.http ensures HttpOk(st', k) { assert HttpOk(st, k); }
    forall q | q in st'.tables.tcp ensures TcpOk(st', range, q) { assert TcpOk(st, range, q); }
    forall q | q in st'.listeners ensures ListenerOk(st', q) { assert ListenerOk(st, q); }
    forall q | q in st'.live ensures LiveOk(st', q) { assert LiveOk(st, q); }
    forall id | id in st'.issued ensures IssuedOk(st', id) { assert IssuedOk(st, id); }
    TakeKeepsPhases(range, st, s, p, rest);
  }

  lemma CloseKeepsInv(range: PortRange, st: State, s: SessionId, ln: Tunnel, rest: seq<nat>)
    requires Inv(st, range) && s in st.phase && st.phase[s] == Closing(ln, rest)
    ensures Inv(DoClose(st, s, ln, rest), range)
  {
    var st' := DoClose(st, s, ln, rest);
    assert PhaseOk(st, s);
    forall k | k in st'.tables.http ensures HttpOk(st', k) { assert HttpOk(st, k); }
    forall p | p in st'.tables.tcp ensures TcpOk(st', range, p) { assert TcpOk(st, range, p); }
    forall p | p in st'.listeners ensures ListenerOk(st', p) { assert ListenerOk(st, p); }
    forall p | p in st'.live ensures LiveOk(st', p) { assert LiveOk(st, p); }
    forall id | id in st'.issued ensures IssuedOk(st', id) { assert IssuedOk(st, id); }
    forall r | r in st'.phase ensures PhaseOk(st', r) { assert PhaseOk(st, r); }
  }

  lemma BecomeKeepsInv(range: PortRange, st: State, s: SessionId, ph: Phase)
    requires Inv(st, range)
    requires if s in st.phase then st.phase[s] == Cleaning([]) && ph == Finished else ph == Serving
    ensures Inv(Become(st, s, ph), range)
  {
    var st' := Become(st, s, ph);
    forall k | k in st'.tables.http ensures HttpOk(st', k) { assert HttpOk(st, k); }
    forall p | p in st'.tables.tcp ensures TcpOk(st', range, p) { assert TcpOk(st, range, p); }
    forall p | p in st'.listeners ensures ListenerOk(st', p) { assert ListenerOk(st, p); }
    forall p | p in st'.live ensures LiveOk(st', p) { assert LiveOk(st, p); }
    forall id | id in st'.issued ensures IssuedOk(st', id) { assert IssuedOk(st, id); }
    forall r | r in st'.phase ensures PhaseOk(st', r) { if r in st.phase { assert PhaseOk(st, r); } }
  }

  lemma StepKeepsInv(range: PortRange, st: State, a: Action)
    requires Inv(st, range) && Enabled(st, a)
    ensures Inv(Step(range, st, a), range)
  {
    match a
    case Connect(s) => BecomeKeepsInv(range, st, s, Serving);
    case Register(s, req, generated, env) => RegisterKeepsInv(range, st, s, req, generated, env);
    case BindOk(s) => BindKeepsInv(range, st, s, st.phase[s].tn);
    case BindFail(s) => BindFailKeepsInv(range, st, s, st.phase[s].tn);
    case Insert(s) => InsertKeepsInv(range, st, s, st.phase[s].tn);
    case Rollback(s) => RollbackKeepsInv(range, st, s, st.phase[s].tn);
    case Disconnect(s, order) => DisconnectKeepsInv(range, st, s, order);
    case Take(s) =>
      var ports := st.phase[s].ports;
      assert ports == [ports[0]] + ports[1..];
      TakeKeepsInv(range, st, s, ports[0], ports[1..]);
    case Close(s) => CloseKeepsInv(range, st, s, st.phase[s].ln, st.phase[s].ports);
    case Finish(s) =>
      assert st.phase[s] == Cleaning([]);
      BecomeKeepsInv(range, st, s, Finished);
  }
}
