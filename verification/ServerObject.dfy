/**
 The server object: a registry with its own lock, a listener map with another,
 and handlers that hold neither between two of their steps. Wherever a handler lets go, the handlers
 of other sessions may run any number of steps.
 */
module ServerObject {
  import opened Wrappers
  import opened Protocol
  import opened RoutingTables
  import opened RegistryObject
  import opened Lifecycle
  import opened LifecycleSafety
  import opened LifecycleRuns
  import ControlChannel
  import ClaimStore
  import Hosts

  datatype Failure = Refusal(error: RegistryError) | BindFailed | UnknownType

  // The text sent to the client. That of a failed bind is the operating system's.
  function TextOf(f: Failure): string {
    match f
    case Refusal(NotClaimed) => "registry: subdomain not claimed"
    case Refusal(SubdomainInUse) => "registry: subdomain already has an http tunnel"
    case Refusal(PortInUse) => "registry: tcp port already in use"
    case Refusal(PortOutOfRange) => "registry: requested port outside allowed range"
    case Refusal(PortsExhausted) => "registry: no free tcp ports in range"
    case Refusal(AllowIPsRequired) => "registry: private tcp tunnel requires at least one --allow-ip"
    case BindFailed => "listen failed"
    case UnknownType => "unknown tunnel type"
  }

  // What a listing says about a tunnel: its own fields and the address its owner was given.
  ghost predicate Describes(info: TunnelInfo, tn: Tunnel, base: string) {
    && info.typ == tn.typ && info.subdomain == tn.subdomain && info.port == tn.port && info.localPort == tn.localPort
    && info.publicUrl == UrlText(tn, base)
  }

  ghost function UrlText(tn: Tunnel, base: string): string {
    var host := tn.subdomain + "." + base;
    if tn.typ == "http" then "https://" + host else "tcp://" + host + ":" + Hosts.Decimal(tn.port)
  }

  // One entry for every tunnel in the tables, none missed and none repeated.
  ghost predicate ListsTables(infos: seq<TunnelInfo>, t: Tables, subs: seq<string>, ports: seq<nat>, base: string) {
    && Enumerates(subs, t.http.Keys) && Enumerates(ports, t.tcp.Keys) && |infos| == |subs| + |ports|
    && (forall i :: 0 <= i < |subs| ==> subs[i] in t.http && Describes(infos[i], t.http[subs[i]], base))
    && (forall i :: 0 <= i < |ports| ==> ports[i] in t.tcp && Describes(infos[|subs| + i], t.tcp[ports[i]], base))
  }

  lemma UrlIsText(tn: Tunnel, host: string, url: string, base: string)
    requires host == Hosts.HostOf(tn.subdomain, base)
    requires url == if tn.typ == HTTP then "https://" + host else "tcp://" + host + ":" + Hosts.Decimal(tn.port)
    ensures url == UrlText(tn, base)
  {
  }

  lemma DescribedInOrder(
    infos: seq<TunnelInfo>, tunnels: seq<Tunnel>, t: Tables, subs: seq<string>, ports: seq<nat>, base: string)
    requires |infos| == |tunnels| == |subs| + |ports|
    requires forall k :: 0 <= k < |infos| ==> Describes(infos[k], tunnels[k], base)
    requires Lists(tunnels[..|subs|], t.http, subs) && Lists(tunnels[|subs|..], t.tcp, ports)
    ensures ListsTables(infos, t, subs, ports, base)
  {
    forall i | 0 <= i < |subs| ensures subs[i] in t.http && Describes(infos[i], t.http[subs[i]], base) {
      assert tunnels[..|subs|][i] == tunnels[i];
    }
    forall i | 0 <= i < |ports| ensures ports[i] in t.tcp && Describes(infos[|subs| + i], t.tcp[ports[i]], base) {
      assert tunnels[|subs|..][i] == tunnels[|subs| + i];
    }
  }

  // A control message as the lifecycle sees it, with what the outside world contributes.
  datatype Call = Call(req: RegisterRequest, generated: string, env: Env, bindWorks: bool)

  // What the client is told about a claim or its release; nothing if the process died in the save.
  // The text for a failed save is the operating system's.
  function ClaimReply(answer: Option<ClaimStore.SaveResult>): Option<Message> {
    match answer
    case None => Some(Message.Error("store: subdomain already claimed"))
    case Some(Saved) => Some(OK)
    case Some(Failed) => Some(Message.Error("save failed"))
    case Some(Crashed) => None
  }

  ghost predicate AllWorks(io: ClaimStore.SaveIo) {
    io.create == ClaimStore.Works == io.write && io.close == ClaimStore.Works == io.rename
  }

  // A claim of a held name is an error and touches nothing. Otherwise the name is taken in memory,
  // and the client is told OK exactly if the file was saved.
  ghost predicate ClaimHandled(
    st0: ClaimStore.State, st: ClaimStore.State, name: string, io: ClaimStore.SaveIo, reply: Option<Message>)
  {
    if name in st0.names && st0.names[name] then st == st0 && reply.Some? && reply.value.Error?
    else
      && st.names == st0.names[name := true]
      && (reply == Some(OK) <==> AllWorks(io)) && (reply == None <==> ClaimStore.SaveOutcome(io).Crashed?)
      && (reply == Some(OK) ==> st.file == Some(ClaimStore.Encoded(st.names)))
  }

  // A release takes the name out of memory, held or not; OK again stands for a saved file.
  ghost predicate ReleaseHandled(
    st0: ClaimStore.State, st: ClaimStore.State, name: string, io: ClaimStore.SaveIo, reply: Option<Message>)
  {
    && st.names == st0.names - {name}
    && (reply == Some(OK) <==> AllWorks(io)) && (reply == None <==> ClaimStore.SaveOutcome(io).Crashed?)
    && (reply == Some(OK) ==> st.file == Some(ClaimStore.Encoded(st.names)))
  }

  // st' is reached from st by steps of handlers other than that of s.
  ghost predicate OthersRan(range: PortRange, st: State, st': State, s: SessionId) {
    exists acts :: Legal(range, st, acts) && NoneBy(acts, s) && Run(range, st, acts) == st'
  }

  lemma OthersRanKeepsSame(range: PortRange, st: State, st': State, s: SessionId)
    requires Inv(st, range) && OthersRan(range, st, st', s)
    ensures Inv(st', range) && Same(st, st', s) && RanTo(range, st, st')
    ensures s in st.phase ==> s in st'.phase && st'.phase[s] == st.phase[s]
  {
    var acts :| Legal(range, st, acts) && NoneBy(acts, s) && Run(range, st, acts) == st';
    OthersRunKeepsSame(range, st, acts, s);
  }

  function HttpReply(tn: Tunnel, generated: string, base: string): Message {
    var host := Hosts.HostOf(tn.subdomain, base);
    Registered("https://" + host, host, 443, generated)
  }

  function TcpReply(tn: Tunnel, base: string): Message {
    var host := Hosts.HostOf(tn.subdomain, base);
    Registered("tcp://" + host + ":" + Hosts.Decimal(tn.port), host, tn.port, "")
  }

  // The reply gives the tunnel's public address as a listing will, and the password if one was made
  // up, which is for private http tunnels that brought none.
  ghost predicate Answers(reply: Message, tn: Tunnel, call: Call, base: string) {
    && reply.Registered?
    && reply.publicUrl == UrlText(tn, base)
    && reply.host == tn.subdomain + "." + base
    && reply.port == (if tn.typ == "http" then 443 else tn.port)
    && reply.generatedPassword ==
         (if tn.typ == "http" && call.req.private && call.req.password == "" then call.generated else "")
    && tn.password == (if reply.generatedPassword != "" then reply.generatedPassword else call.req.password)
    && tn.id == call.env.id && tn.localPort == call.req.localPort
    && tn.private == call.req.private && tn.allowIPs == call.req.allowIPs
  }

  lemma HttpReplyAnswers(t: Tables, range: PortRange, s: SessionId, tn: Tunnel, generated: string, call: Call, base: string)
    requires RoutingTables.Register(t, range, call.req, s, PasswordFor(call.req, call.generated), call.env).outcome == Ok(tn)
    requires tn.typ == HTTP && call.generated != ""
    requires generated == if call.req.private && call.req.password == "" then call.generated else ""
    ensures Answers(HttpReply(tn, generated, base), tn, call, base)
  {
    RegisterAddsAtMostOne(t, range, call.req, s, PasswordFor(call.req, call.generated), call.env);
  }

  lemma TcpReplyAnswers(t: Tables, range: PortRange, s: SessionId, tn: Tunnel, call: Call, base: string)
    requires RoutingTables.Register(t, range, call.req, s, PasswordFor(call.req, call.generated), call.env).outcome == Ok(tn)
    requires tn.typ == TCP
    ensures Answers(TcpReply(tn, base), tn, call, base)
  {
    RegisterAddsAtMostOne(t, range, call.req, s, PasswordFor(call.req, call.generated), call.env);
  }

  // Somebody who is leaving still has the port bound.
  ghost predicate LeaverHolds(st: State, p: nat) {
    exists r :: r in st.phase && (st.phase[r].Owes(p) || (st.phase[r].Closing? && st.phase[r].ln.port == p))
  }

  // The port of a tunnel about to be bound is taken exactly while a leaving session still has it.
  lemma TakenIffLeaverHolds(range: PortRange, st: State, s: SessionId)
    requires Inv(st, range) && s in st.phase && st.phase[s].Binding?
    ensures st.phase[s].tn.port in st.live <==> LeaverHolds(st, st.phase[s].tn.port)
  {
    var p := st.phase[s].tn.port;
    assert PhaseOk(st, s);
    if p in st.live {
      assert LiveOk(st, p);
      assert PhaseOk(st, st.live[p].session);
      if p in st.listeners {
        assert ListenerOk(st, p);
      }
    }
    if LeaverHolds(st, p) {
      var r :| r in st.phase && (st.phase[r].Owes(p) || (st.phase[r].Closing? && st.phase[r].ln.port == p));
      assert PhaseOk(st, r);
      ListedPortIsLive(range, st, p);
    }
  }

  // What the registry's part of a registration leaves behind.
  lemma AdmittedTunnel(range: PortRange, st: State, s: SessionId, call: Call, tn: Tunnel)
    requires Inv(st, range) && Enabled(st, Action.Register(s, call.req, call.generated, call.env))
    requires RoutingTables.Register(st.tables, range, call.req, s, PasswordFor(call.req, call.generated), call.env).outcome == Ok(tn)
    ensures var st' := Step(range, st, Action.Register(s, call.req, call.generated, call.env));
            && tn.id == call.env.id && tn.session == s && s in st'.phase && st'.phase[s] == AfterRegister(tn)
            && (tn.typ == HTTP ==> RoutesHttp(st', tn))
            && (tn.typ != HTTP ==> SameExcept(st, st', s, tn.id))
  {
    var asked := Action.Register(s, call.req, call.generated, call.env);
    RegisterAddsAtMostOne(st.tables, range, call.req, s, PasswordFor(call.req, call.generated), call.env);
    if tn.typ != HTTP {
      RegisterStarts(range, st, asked);
    }
  }

  // How a registration ends, for a session that was in st0 when it asked and in st when it was
  // answered; a tcp tunnel's port was bound, or was not, in atBind.
  ghost predicate Handled(
    range: PortRange, st0: State, atBind: State, st: State, s: SessionId, call: Call, base: string, reply: Message)
    requires Enabled(st0, Action.Register(s, call.req, call.generated, call.env))
  {
    var asked := Action.Register(s, call.req, call.generated, call.env);
    var r := RoutingTables.Register(st0.tables, range, call.req, s, PasswordFor(call.req, call.generated), call.env).outcome;
    match r
    case Err(e) => reply == Message.Error(TextOf(Refusal(e))) && st == st0
    case Ok(tn) =>
      if tn.typ == "http" then Answers(reply, tn, call, base) && RoutesHttp(st, tn) && tn.session == s
      else if tn.typ == "tcp" then
        && OthersRan(range, Step(range, st0, asked), atBind, s)
        && if call.bindWorks && !LeaverHolds(atBind, tn.port)
           then Answers(reply, tn, call, base) && RoutesTcp(st, tn) && tn.session == s
           else reply == Message.Error("listen failed") && Same(st0, st, s) && Gone(st, call.env.id)
      else reply == Message.Error("unknown tunnel type") && Same(st0, st, s) && Gone(st, call.env.id)
  }

  // The reason of a refusal by the registry, in the words the client gets.
  lemma RefusalInWords(t: Tables, range: PortRange, req: RegisterRequest, s: SessionId, password: string, env: Env)
    ensures var r := RoutingTables.Register(t, range, req, s, password, env).outcome;
            r.Err? ==>
              TextOf(Refusal(r.error)) ==
              if req.domain != "" && !env.domainClaimed then "registry: subdomain not claimed"
              else if req.typ == "http" then "registry: subdomain already has an http tunnel"
              else if req.private && req.allowIPs == [] then "registry: private tcp tunnel requires at least one --allow-ip"
              else if req.remotePort == 0 then "registry: no free tcp ports in range"
              else if range.min <= req.remotePort <= range.max then "registry: tcp port already in use"
              else "registry: requested port outside allowed range"
  {
    RefusalReasons(t, range, req, s, password, env);
  }

  class Server {
    const registry: Registry
    const base: string
    var tcpListeners: map<nat, Tunnel>
    var live: map<nat, Tunnel>                 // the operating system's side
    ghost var phase: map<SessionId, Phase>
    ghost var issued: map<string, Tunnel>

    ghost function St(): State
      reads this, registry
    {
      State(registry.Tables(), tcpListeners, live, phase, issued)
    }

    ghost predicate Valid()
      reads this, registry
    {
      Inv(St(), registry.range)
    }

    constructor (range: PortRange, base: string)
      ensures Valid() && St() == INIT && this.base == base
      ensures fresh(registry) && registry.range == range
    {
      registry := new Registry(range);
      this.base := base;
      tcpListeners, live, phase, issued := map[], map[], map[], map[];
    }

    // A client that has authenticated gets a session of its own, with nothing in it.
    method Connect(s: SessionId)
      requires Valid() && s !in phase
      modifies this`phase
      ensures Valid() && St() == Step(registry.range, old(St()), Lifecycle.Connect(s))
      ensures s in phase && phase[s].Serving? && NothingOf(St(), s)
    {
      StepKeepsInv(registry.range, St(), Lifecycle.Connect(s));
      NewcomerHasNothing(registry.range, St(), s);
      phase := phase[s := Serving];
    }

    // The other handlers run. Callers know only that what they do is legal.
    method Interference(ghost s: SessionId)
      requires Valid()
      modifies this, registry
      ensures Valid() && OthersRan(registry.range, old(St()), St(), s)
    {
      ghost var none: seq<Action> := [];
      assert Legal(registry.range, St(), none) && NoneBy(none, s) && Run(registry.range, St(), none) == St();
    }

    // net.Listen on the tunnel's port: it cannot work while something else has the port, and may
    // fail for any other reason.
    method Listen(tn: Tunnel, bindWorks: bool) returns (ok: bool)
      requires Valid() && tn.session in phase && phase[tn.session] == Binding(tn)
      modifies this`live, this`phase
      ensures Valid()
      ensures ok <==> bindWorks && tn.port !in old(live)
      ensures ok ==> Enabled(old(St()), BindOk(tn.session)) && St() == Step(registry.range, old(St()), BindOk(tn.session))
      ensures !ok ==> St() == Step(registry.range, old(St()), BindFail(tn.session))
    {
      ok := bindWorks && tn.port !in live;
      StepKeepsInv(registry.range, St(), if ok then BindOk(tn.session) else BindFail(tn.session));
      if ok {
        live := live[tn.port := tn];
        phase := phase[tn.session := Inserting(tn)];
      } else {
        phase := phase[tn.session := RollingBack(tn)];
      }
    }

    // Bind, then insert. In between the lock is free.
    method StartTcpTunnel(tn: Tunnel, bindWorks: bool, ghost st0: State) returns (ok: bool)
      requires Valid() && tn.session in phase && phase[tn.session] == Binding(tn)
      requires SameExcept(st0, St(), tn.session, tn.id)
      modifies this, registry
      ensures Valid() && tn.session in phase && RanTo(registry.range, old(St()), St())
      ensures ok <==> bindWorks && tn.port !in old(live)
      ensures ok ==> phase[tn.session] == Serving && RoutesTcp(St(), tn)
      ensures !ok ==> phase[tn.session] == RollingBack(tn) && SameExcept(st0, St(), tn.session, tn.id)
    {
      ok := Listen(tn, bindWorks);
      StepIsARun(registry.range, old(St()), if ok then BindOk(tn.session) else BindFail(tn.session));
      label bound:
      Interference(tn.session);
      OthersRanKeepsSame(registry.range, old@bound(St()), St(), tn.session);
      RanToTransitive(registry.range, old(St()), old@bound(St()), St());
      if ok {
        label waited:
        InsertListener(tn);
        StepIsARun(registry.range, old@waited(St()), Insert(tn.session));
        RanToTransitive(registry.range, old(St()), old@waited(St()), St());
      }
    }

    method InsertListener(tn: Tunnel)
      requires Valid() && tn.session in phase && phase[tn.session] == Inserting(tn)
      modifies this`tcpListeners, this`phase
      ensures Valid() && St() == Step(registry.range, old(St()), Insert(tn.session))
      ensures phase[tn.session] == Serving && RoutesTcp(St(), tn)
    {
      assert PhaseOk(St(), tn.session);
      StepKeepsInv(registry.range, St(), Insert(tn.session));
      tcpListeners := tcpListeners[tn.port := tn];
      phase := phase[tn.session := Serving];
    }

    method Rollback(tn: Tunnel)
      requires Valid() && tn.session in phase && phase[tn.session] == RollingBack(tn)
      modifies this`phase, registry
      ensures Valid() && St() == Step(registry.range, old(St()), Lifecycle.Rollback(tn.session))
    {
      StepKeepsInv(registry.range, St(), Lifecycle.Rollback(tn.session));
      registry.Remove(tn.id);
      phase := phase[tn.session := Serving];
    }

    // The registry's part of a registration, under its lock.
    method Admit(s: SessionId, call: Call) returns (r: Result<Tunnel, RegistryError>)
      requires Valid() && s in phase && phase[s].Serving? && call.env.id !in issued && call.generated != ""
      modifies this`phase, this`issued, registry
      ensures Valid()
      ensures St() == Step(registry.range, old(St()), Action.Register(s, call.req, call.generated, call.env))
      ensures r == RoutingTables.Register(old(registry.Tables()), registry.range, call.req, s,
                                          PasswordFor(call.req, call.generated), call.env).outcome
    {
      StepKeepsInv(registry.range, St(), Action.Register(s, call.req, call.generated, call.env));
      r := registry.Register(call.req, s, PasswordFor(call.req, call.generated), call.env);
      if r.Ok? {
        issued := issued[r.value.id := r.value];
        phase := phase[s := AfterRegister(r.value)];
      }
    }

    // The rest of a registration that the registry has let in but that has no route yet: a tcp
    // tunnel gets its listener or is rolled back, a tunnel of unknown type is always rolled back.
    method Establish(tn: Tunnel, bindWorks: bool, ghost st0: State) returns (failure: Option<Failure>, ghost atBind: State)
      requires Valid() && tn.session in phase && tn.typ != HTTP
      requires phase[tn.session] == (if tn.typ == TCP then Binding(tn) else RollingBack(tn))
      requires SameExcept(st0, St(), tn.session, tn.id)
      modifies this, registry
      ensures Valid() && tn.session in phase && phase[tn.session].Serving?
      ensures RanTo(registry.range, old(St()), St())
      ensures OthersRan(registry.range, old(St()), atBind, tn.session)
      ensures failure == if tn.typ != TCP then Some(UnknownType)
                         else if bindWorks && !LeaverHolds(atBind, tn.port) then None
                         else Some(BindFailed)
      ensures failure.None? ==> RoutesTcp(St(), tn)
      ensures failure.Some? ==> Same(st0, St(), tn.session) && Gone(St(), tn.id)
    {
      label registered:
      Interference(tn.session);
      OthersRanKeepsSame(registry.range, old@registered(St()), St(), tn.session);
      atBind := St();
      var cause := UnknownType;
      if tn.typ == TCP {
        TakenIffLeaverHolds(registry.range, St(), tn.session);
        label starting:
        var ok := StartTcpTunnel(tn, bindWorks, st0);
        RanToTransitive(registry.range, old(St()), old@starting(St()), St());
        if ok {
          return None, atBind;
        }
        cause := BindFailed;
      }
      label refused:
      RollbackErases(registry.range, st0, St(), tn.session);
      Rollback(tn);
      StepIsARun(registry.range, old@refused(St()), Lifecycle.Rollback(tn.session));
      RanToTransitive(registry.range, old(St()), old@refused(St()), St());
      return Some(cause), atBind;
    }

    // One registration, start to finish, with the other handlers running in between. Accepted, its
    // route is in place; refused, the session has exactly what it had before, and the tunnel made
    // for it is nowhere. A tcp tunnel the registry lets in is accepted exactly if the system lets it
    // bind and no leaving session still has the port at that moment.
    method HandleRegister(s: SessionId, call: Call) returns (reply: Message, ghost atBind: State)
      requires Valid() && s in phase && phase[s].Serving? && call.env.id !in issued && call.generated != ""
      modifies this, registry
      ensures Valid() && s in phase && phase[s].Serving? && RanTo(registry.range, old(St()), St())
      ensures Handled(registry.range, old(St()), atBind, St(), s, call, base, reply)
    {
      ghost var st0, asked := St(), Action.Register(s, call.req, call.generated, call.env);
      assert Enabled(st0, asked);
      var r := Admit(s, call);
      StepIsARun(registry.range, st0, asked);
      if r.Err? {
        return Message.Error(TextOf(Refusal(r.error))), St();
      }
      var tn := r.value;
      AdmittedTunnel(registry.range, st0, s, call, tn);
      if tn.typ == HTTP {
        var generated := if call.req.private && call.req.password == "" then call.generated else "";
        HttpReplyAnswers(st0.tables, registry.range, s, tn, generated, call, base);
        return HttpReply(tn, generated, base), St();
      }
      label admitted:
      var failure;
      failure, atBind := Establish(tn, call.bindWorks, st0);
      RanToTransitive(registry.range, st0, old@admitted(St()), St());
      if failure.Some? {
        return Message.Error(TextOf(failure.value)), atBind;
      }
      reply := TcpReply(tn, base);
      TcpReplyAnswers(st0.tables, registry.range, s, tn, call, base);
    }

    // Close one freed port's listener: out of the map under the lock, then closed without it.
    method CloseTcp(ghost s: SessionId, p: nat, ghost rest: seq<nat>)
      requires Valid() && s in phase && phase[s] == Cleaning([p] + rest)
      modifies this, registry
      ensures Valid() && s in phase && phase[s] == Cleaning(rest)
      ensures RanTo(registry.range, old(St()), St())
    {
      TakeKeepsInv(registry.range, St(), s, p, rest);
      assert ([p] + rest)[0] == p && ([p] + rest)[1..] == rest;
      StepIsARun(registry.range, St(), Take(s));
      var ln := tcpListeners[p];
      tcpListeners := tcpListeners - {p};
      phase := phase[s := Closing(ln, rest)];
      label taken:
      Interference(s);
      OthersRanKeepsSame(registry.range, old@taken(St()), St(), s);
      RanToTransitive(registry.range, old(St()), old@taken(St()), St());
      label closing:
      CloseListener(s, ln, rest);
      StepIsARun(registry.range, old@closing(St()), Close(s));
      RanToTransitive(registry.range, old(St()), old@closing(St()), St());
    }

    method CloseListener(ghost s: SessionId, ln: Tunnel, ghost rest: seq<nat>)
      requires Valid() && s in phase && phase[s] == Closing(ln, rest)
      modifies this`live, this`phase
      ensures Valid() && St() == Step(registry.range, old(St()), Close(s))
    {
      assert PhaseOk(St(), s);
      CloseKeepsInv(registry.range, St(), s, ln, rest);
      live := live - {ln.port};
      phase := phase[s := Cleaning(rest)];
    }

    // What a control connection leaves behind when it drops: nothing.
    method Cleanup(s: SessionId)
      requires Valid() && s in phase && phase[s].Serving?
      modifies this, registry
      ensures Valid() && s in phase && phase[s].Finished? && NothingOf(St(), s)
      ensures RanTo(registry.range, old(St()), St())
    {
      var ports := registry.RemoveSession(s);
      DisconnectKeepsInv(registry.range, old(St()), s, ports);
      StepIsARun(registry.range, old(St()), Disconnect(s, ports));
      phase := phase[s := Cleaning(ports)];
      assert ports[0..] == ports;
      for i := 0 to |ports|
        invariant Valid() && s in phase && phase[s] == Cleaning(ports[i..])
        invariant RanTo(registry.range, old(St()), St())
      {
        assert ports[i..] == [ports[i]] + ports[i + 1..];
        label before:
        CloseTcp(s, ports[i], ports[i + 1..]);
        RanToTransitive(registry.range, old(St()), old@before(St()), St());
      }
      assert ports[|ports|..] == [];
      label done:
      BecomeKeepsInv(registry.range, St(), s, Finished);
      StepIsARun(registry.range, St(), Finish(s));
      phase := phase[s := Finished];
      RanToTransitive(registry.range, old(St()), old@done(St()), St());
      FinishedLeavesNothing(registry.range, St(), s);
    }

    // One control message and its one reply, which is missing only if the process dies while saving
    // the claims. Claims go to the store and to nothing else: a claim is granted exactly if nobody
    // held the name and the save was done, a release exactly if the save was done.
    method Dispatch(
      s: SessionId, m: Message, call: Call, claims: ClaimStore.FileStore, tmp: string, io: ClaimStore.SaveIo)
      returns (reply: Option<Message>, ghost atBind: State)
      requires Valid() && s in phase && phase[s].Serving? && call.env.id !in issued && call.generated != ""
      requires m.Register? ==> m.req == call.req
      requires tmp != claims.path && tmp !in claims.disk.files
      modifies this, registry, claims, claims.disk
      ensures Valid() && s in phase && phase[s].Serving? && RanTo(registry.range, old(St()), St())
      ensures reply.Some? ==> ControlChannel.MayReply(m, reply.value)
      ensures !m.Register? ==> St() == old(St())
      ensures !m.Claim? && !m.Unclaim? ==> reply.Some? && claims.Snapshot() == old(claims.Snapshot())
      ensures match m
              case Register(_) => Handled(registry.range, old(St()), atBind, St(), s, call, base, reply.value)
              case ListTunnels => exists subs, ports :: ListsTables(reply.value.tunnels, registry.Tables(), subs, ports, base)
              case Claim(name) => ClaimHandled(old(claims.Snapshot()), claims.Snapshot(), name, io, reply)
              case Unclaim(name) => ReleaseHandled(old(claims.Snapshot()), claims.Snapshot(), name, io, reply)
              case _ => reply.value.Error?
    {
      ghost var none: seq<Action> := [];
      assert Legal(registry.range, St(), none) && Run(registry.range, St(), none) == St();
      atBind := St();
      ClaimStore.SaveOutcomeIff(io);
      match m
      case Register(_) =>
        var answer;
        answer, atBind := HandleRegister(s, call);
        reply := Some(answer);
      case ListTunnels =>
        var infos, _, _ := HandleList();
        reply := Some(TunnelList(infos));
      case Claim(name) =>
        var r := claims.ClaimName(name, tmp, io);
        reply := ClaimReply(r);
      case Unclaim(name) =>
        var r := claims.ReleaseName(name, tmp, io);
        reply := ClaimReply(r);
      case _ => reply := Some(Message.Error("unexpected message"));
    }

    method Describe(tunnels: seq<Tunnel>) returns (out: seq<TunnelInfo>)
      ensures |out| == |tunnels| && forall k :: 0 <= k < |out| ==> Describes(out[k], tunnels[k], base)
    {
      out := [];
      for i := 0 to |tunnels|
        invariant |out| == i && forall k :: 0 <= k < i ==> Describes(out[k], tunnels[k], base)
      {
        var tn := tunnels[i];
        var host := Hosts.HostOf(tn.subdomain, base);
        var url := if tn.typ == HTTP then "https://" + host else "tcp://" + host + ":" + Hosts.Decimal(tn.port);
        UrlIsText(tn, host, url, base);
        out := out + [TunnelInfo(tn.typ, tn.subdomain, url, tn.port, tn.localPort)];
      }
    }

    // One entry per active tunnel, with the address its owner was given.
    method HandleList() returns (out: seq<TunnelInfo>, ghost subs: seq<string>, ghost ports: seq<nat>)
      ensures ListsTables(out, registry.Tables(), subs, ports, base)
    {
      var tunnels;
      tunnels, subs, ports := registry.List();
      out := Describe(tunnels);
      DescribedInOrder(out, tunnels, registry.Tables(), subs, ports, base);
    }
  }
}
