/**
 Public traffic: the routing decision for one HTTP request, the proxy cache that is never evicted,
 and the allowlist gate of a tcp listener, all on top of the lifecycle machine.
 */
module Router {
  import opened Wrappers
  import opened Protocol
  import opened RoutingTables
  import opened RegistryObject
  import opened Framing
  import opened Messages
  import opened Hosts
  import opened Lifecycle
  import opened LifecycleSafety
  import opened LifecycleRuns

  datatype Credentials = Credentials(user: string, password: string)

  datatype Verdict = NotFound | Unauthorized | Forwarded(tn: Tunnel)

  const BASIC_AUTH_USER := "lotun"

  predicate BasicAuthOk(creds: Option<Credentials>, password: string) {
    creds.Some? && creds.value.user == BASIC_AUTH_USER && creds.value.password == password
  }

  function Route(http: map<string, Tunnel>, base: string, host: string, creds: Option<Credentials>): Verdict {
    match SubdomainFromHost(host, base)
    case None => NotFound
    case Some(sub) =>
      if sub !in http then NotFound
      else if http[sub].private && !BasicAuthOk(creds, http[sub].password) then Unauthorized
      else Forwarded(http[sub])
  }

  // For every request: not found exactly when its host is that of no tunnel; otherwise let through
  // to that tunnel if it is public or the request carries the fixed user name and its password.
  lemma RouteIff(http: map<string, Tunnel>, base: string, host: string, creds: Option<Credentials>)
    ensures Route(http, base, host, creds) == NotFound <==>
              forall k :: k in http ==> k == "" || HostPart(host) != k + "." + base
    ensures forall k :: k in http && k != "" && HostPart(host) == k + "." + base ==>
              Route(http, base, host, creds) ==
              if http[k].private && creds != Some(Credentials("lotun", http[k].password)) then Unauthorized
              else Forwarded(http[k])
  {
    forall k | k in http
      ensures SubdomainFromHost(host, base) == Some(k) <==> k != "" && HostPart(host) == k + "." + base
    {
      ResolvesOnlyItsOwnHost(host, base, k);
    }
  }

  // What a data stream opened for a request is bound to: the session that carries it and the
  // header that tells the client where to dial.
  datatype Dial = Dial(session: SessionId, tunnelId: string, localPort: int)

  function DialOf(tn: Tunnel): Dial {
    Dial(tn.session, tn.id, tn.localPort)
  }

  // The first thing on the stream opened for tn is its header, in one frame.
  method OpenDataStream(c: Codec, stream: Writer, tn: Tunnel) returns (ok: bool)
    modifies stream
    ensures var f := Frame(c.encode(Obj(map["tunnelId" := Str(tn.id), "localPort" := Num(tn.localPort)])));
            ok <==> |f| <= old(stream.capacity)
    ensures ok ==> stream.written ==
                   old(stream.written) + Frame(c.encode(Obj(map["tunnelId" := Str(tn.id), "localPort" := Num(tn.localPort)])))
  {
    var dial := DialOf(tn);
    ok := WriteStreamHeader(c, stream, StreamHeader(dial.tunnelId, dial.localPort));
  }

  // A cached proxy is known by the tunnel its dial function captured.
  function ProxyFor(proxies: map<string, Tunnel>, tn: Tunnel): Tunnel {
    if tn.id in proxies then proxies[tn.id] else tn
  }

  // Every tunnel in m is one of those issued under its identifier.
  ghost predicate AllIssued(m: map<string, Tunnel>, issued: map<string, Tunnel>) {
    forall k :: k in m ==> m[k].id in issued && issued[m[k].id] == m[k]
  }

  ghost predicate Grows(before: map<string, Tunnel>, after: map<string, Tunnel>) {
    forall id :: id in before ==> id in after && after[id] == before[id]
  }

  class HttpProxy {
    const registry: Registry
    const base: string
    var proxies: map<string, Tunnel>
    ghost var issued: map<string, Tunnel>      // every tunnel the registry ever held

    // Proxies are cached under their tunnel's identifier and never evicted.
    ghost predicate Valid()
      reads this, registry
    {
      && AllIssued(proxies, issued) && AllIssued(registry.httpBySub, issued)
      && forall id :: id in proxies ==> proxies[id].id == id
    }

    constructor (registry: Registry, base: string)
      ensures this.registry == registry && this.base == base && proxies == map[]
    {
      this.registry, this.base, this.proxies := registry, base, map[];
    }

    // Other requests and other sessions run: tunnels come and go, proxies are added.
    method Interference()
      requires Valid()
      modifies this, registry
      ensures Valid() && Grows(old(issued), issued)
    {
    }

    method ProxyForTunnel(tn: Tunnel) returns (rp: Tunnel)
      modifies this`proxies
      ensures rp == ProxyFor(old(proxies), tn) == if tn.id in old(proxies) then old(proxies)[tn.id] else tn
      ensures proxies == old(proxies)[tn.id := rp]
    {
      if tn.id in proxies {
        rp := proxies[tn.id];
        assert proxies == proxies[tn.id := rp];
        return;
      }
      rp := tn;
      proxies := proxies[tn.id := rp];
    }

    // One public request. Whatever runs between its lookup and its turn at the cache, the routing
    // decision stands as looked up, and a forwarded request dials the very tunnel its lookup found.
    method ServeHttp(host: string, creds: Option<Credentials>) returns (v: Verdict, dial: Option<Dial>)
      requires Valid()
      modifies this, registry
      ensures Valid() && Grows(old(issued), issued)
      ensures v == Route(old(registry.httpBySub), base, host, creds)
      ensures dial == if v.Forwarded? then Some(Dial(v.tn.session, v.tn.id, v.tn.localPort)) else None
      ensures v.Forwarded? ==> v.tn.id in proxies && proxies[v.tn.id] == v.tn
    {
      var sub := SubdomainFromHost(host, base);
      if sub.None? {
        return NotFound, None;
      }
      var found := registry.LookupHTTP(sub.value);
      if found.None? {
        return NotFound, None;
      }
      var tn := found.value;
      if tn.private && !BasicAuthOk(creds, tn.password) {
        return Unauthorized, None;
      }
      Interference();
      var rp := ProxyForTunnel(tn);
      return Forwarded(tn), Some(DialOf(rp));
    }
  }

  // ---------- Requests interleaved with everything the server does ----------

  // A request that has been looked up and let through waits, with the tunnel it found, until it
  // reaches the proxy cache; anything may happen in between.
  datatype RouterState = RouterState(server: State, pending: map<nat, Tunnel>, proxies: map<string, Tunnel>)

  datatype Event =
    | ServerStep(a: Action)
    | Arrive(request: nat, host: string, creds: Option<Credentials>)
    | Forward(request: nat)

  const QUIET := RouterState(INIT, map[], map[])

  ghost predicate CanHappen(rs: RouterState, e: Event) {
    match e
    case ServerStep(a) => Enabled(rs.server, a)
    case Arrive(r, _, _) => r !in rs.pending
    case Forward(r) => r in rs.pending
  }

  function Happen(range: PortRange, base: string, rs: RouterState, e: Event): RouterState
    requires CanHappen(rs, e)
  {
    match e
    case ServerStep(a) => rs.(server := Step(range, rs.server, a))
    case Arrive(r, host, creds) =>
      (match Route(rs.server.tables.http, base, host, creds)
       case Forwarded(tn) => rs.(pending := rs.pending[r := tn])
       case _ => rs)
    case Forward(r) =>
      var tn := rs.pending[r];
      rs.(pending := rs.pending - {r}, proxies := rs.proxies[tn.id := ProxyFor(rs.proxies, tn)])
  }

  ghost predicate Possible(range: PortRange, base: string, rs: RouterState, events: seq<Event>)
    decreases |events|
  {
    events == [] || (CanHappen(rs, events[0]) && Possible(range, base, Happen(range, base, rs, events[0]), events[1..]))
  }

  function After(range: PortRange, base: string, rs: RouterState, events: seq<Event>): RouterState
    requires Possible(range, base, rs, events)
    decreases |events|
  {
    if events == [] then rs else After(range, base, Happen(range, base, rs, events[0]), events[1..])
  }

  // The dial made for request r if it is forwarded now.
  function DialFor(rs: RouterState, r: nat): Dial
    requires r in rs.pending
  {
    DialOf(ProxyFor(rs.proxies, rs.pending[r]))
  }

  ghost predicate RouterInv(rs: RouterState, range: PortRange) {
    && Inv(rs.server, range)
    && (forall r :: r in rs.pending ==> Known(rs.server, rs.pending[r]))
    && (forall id :: id in rs.proxies ==> id in rs.server.issued && rs.proxies[id] == rs.server.issued[id])
  }

  lemma IssuedOnlyGrows(range: PortRange, st: State, a: Action, tn: Tunnel)
    requires Enabled(st, a) && Known(st, tn)
    ensures Known(Step(range, st, a), tn)
  {
    if a.Register? {
      RegisterAddsAtMostOne(st.tables, range, a.req, a.s, PasswordFor(a.req, a.generated), a.env);
    }
  }

  lemma EventKeepsRouterInv(range: PortRange, base: string, rs: RouterState, e: Event)
    requires RouterInv(rs, range) && CanHappen(rs, e)
    ensures RouterInv(Happen(range, base, rs, e), range)
  {
    match e
    case ServerStep(a) =>
      var rs' := Happen(range, base, rs, e);
      StepKeepsInv(range, rs.server, a);
      forall r | r in rs'.pending ensures Known(rs'.server, rs'.pending[r]) {
        IssuedOnlyGrows(range, rs.server, a, rs.pending[r]);
      }
      forall id | id in rs'.proxies ensures id in rs'.server.issued && rs'.proxies[id] == rs'.server.issued[id] {
        assert IssuedOk(rs.server, id);
        IssuedOnlyGrows(range, rs.server, a, rs.proxies[id]);
      }
    case Arrive(_, host, creds) =>
      var v := Route(rs.server.tables.http, base, host, creds);
      if v.Forwarded? {
        assert HttpOk(rs.server, SubdomainFromHost(host, base).value);
      }
    case Forward(_) =>
  }

  lemma {:induction false} RouterInvHolds(range: PortRange, base: string, rs: RouterState, events: seq<Event>)
    requires RouterInv(rs, range) && Possible(range, base, rs, events)
    ensures RouterInv(After(range, base, rs, events), range)
    decreases |events|
  {
    if events != [] {
      EventKeepsRouterInv(range, base, rs, events[0]);
      RouterInvHolds(range, base, Happen(range, base, rs, events[0]), events[1..]);
    }
  }

  // Over whole runs, although no cached proxy is ever evicted and subdomains are removed and taken
  // again, a forwarded request dials exactly the tunnel its own lookup found.
  lemma CacheNeverMisroutes(range: PortRange, base: string, events: seq<Event>, r: nat)
    requires Possible(range, base, QUIET, events)
    requires r in After(range, base, QUIET, events).pending
    ensures var tn := After(range, base, QUIET, events).pending[r];
            DialFor(After(range, base, QUIET, events), r) == Dial(tn.session, tn.id, tn.localPort)
  {
    RouterInvHolds(range, base, QUIET, events);
  }

  // ---------- From the answer to the client to the public request ----------

  // Whether the requests for one host reach the tunnel: let through if it is public or they carry
  // its password, refused otherwise, or not routed to it at all.
  ghost predicate Reaches(http: map<string, Tunnel>, base: string, host: string, tn: Tunnel) {
    forall creds :: Route(http, base, host, creds) ==
                      if tn.private && !BasicAuthOk(creds, tn.password) then Unauthorized else Forwarded(tn)
  }

  ghost predicate Misses(http: map<string, Tunnel>, base: string, host: string, tn: Tunnel) {
    forall creds :: Route(http, base, host, creds) != Forwarded(tn)
  }

  lemma RoutedHostReaches(range: PortRange, base: string, st: State, tn: Tunnel, host: string)
    requires Inv(st, range) && RoutesHttp(st, tn)
    ensures if SubdomainFromHost(host, base) == Some(tn.subdomain) then Reaches(st.tables.http, base, host, tn)
            else Misses(st.tables.http, base, host, tn)
  {
    forall creds | Route(st.tables.http, base, host, creds) == Forwarded(tn)
      ensures SubdomainFromHost(host, base) == Some(tn.subdomain)
    {
      assert HttpOk(st, SubdomainFromHost(host, base).value);
    }
  }

  // After an http registration is accepted, and whatever happens until its session disconnects, the
  // requests that reach that very tunnel are exactly those whose host part is the host the client was
  // given. That host itself does exactly when it does not read as a host with a port, and with a port
  // appended exactly when nothing in it is a colon or a bracket.
  lemma AcceptedHostReachesItsTunnel(
    range: PortRange, base: string, st: State, a: Action, later: seq<Action>, host: string, port: string)
    requires Reachable(range, st) && Enabled(st, a) && a.Register?
    requires AnswerOf(range, st, a).Some? && AnswerOf(range, st, a).value.Accepted?
    requires Legal(range, Step(range, st, a), later) && !Disconnects(later, a.s)
    ensures var tn := AnswerOf(range, st, a).value.tn;
            var http := Run(range, Step(range, st, a), later).tables.http;
            var given := HostOf(tn.subdomain, base);
            && (if tn.subdomain != "" && HostPart(host) == given then Reaches(http, base, host, tn)
                else Misses(http, base, host, tn))
            && (if tn.subdomain != "" && SplitHostPort(given) == None then Reaches(http, base, given, tn)
                else Misses(http, base, given, tn))
            && (if tn.subdomain != "" && Plain(given) && Plain(port) then Reaches(http, base, given + ":" + port, tn)
                else Misses(http, base, given + ":" + port, tn))
  {
    var tn, st' := AnswerOf(range, st, a).value.tn, Run(range, Step(range, st, a), later);
    var given := HostOf(tn.subdomain, base);
    ReachableInv(range, st);
    StepKeepsInv(range, st, a);
    AcceptedIsRouted(range, st, a);
    HttpRouteStable(range, Step(range, st, a), later, tn);
    RunKeepsInv(range, Step(range, st, a), later);
    ResolvesOnlyItsOwnHost(host, base, tn.subdomain);
    RoutedHostReaches(range, base, st', tn, host);
    HostResolvesIff(tn.subdomain, base);
    RoutedHostReaches(range, base, st', tn, given);
    HostWithPortResolvesIff(tn.subdomain, base, port);
    RoutedHostReaches(range, base, st', tn, given + ":" + port);
  }

  ghost predicate Leads(range: PortRange, base: string, rs: RouterState, events: seq<Event>, rs': RouterState) {
    Possible(range, base, rs, events) && After(range, base, rs, events) == rs'
  }

  ghost predicate Reached(range: PortRange, base: string, rs: RouterState) {
    exists events :: Leads(range, base, QUIET, events, rs)
  }

  ghost predicate NoneDisconnects(events: seq<Event>, s: SessionId) {
    forall i :: 0 <= i < |events| ==> events[i].ServerStep? ==> !(events[i].a.Disconnect? && events[i].a.s == s)
  }

  ghost predicate NoneForwards(events: seq<Event>, request: nat) {
    forall i :: 0 <= i < |events| ==> events[i] != Forward(request)
  }

  lemma {:induction false} ServerRan(range: PortRange, base: string, rs: RouterState, events: seq<Event>)
    requires Possible(range, base, rs, events)
    ensures RanTo(range, rs.server, After(range, base, rs, events).server)
    decreases |events|
  {
    if events == [] {
      var none: seq<Action> := [];
      assert Legal(range, rs.server, none) && Run(range, rs.server, none) == rs.server;
    } else {
      var rs' := Happen(range, base, rs, events[0]);
      ServerRan(range, base, rs', events[1..]);
      if events[0].ServerStep? {
        StepIsARun(range, rs.server, events[0].a);
        RanToTransitive(range, rs.server, rs'.server, After(range, base, rs', events[1..]).server);
      }
    }
  }

  lemma {:induction false} RouteSurvives(range: PortRange, base: string, rs: RouterState, events: seq<Event>, tn: Tunnel)
    requires RouterInv(rs, range) && Possible(range, base, rs, events) && NoneDisconnects(events, tn.session)
    requires RoutesHttp(rs.server, tn)
    ensures RoutesHttp(After(range, base, rs, events).server, tn)
    decreases |events|
  {
    if events != [] {
      EventKeepsRouterInv(range, base, rs, events[0]);
      if events[0].ServerStep? {
        HttpRouteStep(range, rs.server, events[0].a, tn);
      }
      assert forall i :: 0 <= i < |events[1..]| ==> events[1..][i] == events[i + 1];
      RouteSurvives(range, base, Happen(range, base, rs, events[0]), events[1..], tn);
    }
  }

  lemma {:induction false} PendingStays(range: PortRange, base: string, rs: RouterState, events: seq<Event>, request: nat)
    requires Possible(range, base, rs, events) && NoneForwards(events, request) && request in rs.pending
    ensures var rs' := After(range, base, rs, events); request in rs'.pending && rs'.pending[request] == rs.pending[request]
    decreases |events|
  {
    if events != [] {
      assert events[0] != Forward(request);
      assert forall i :: 0 <= i < |events[1..]| ==> events[1..][i] == events[i + 1];
      PendingStays(range, base, Happen(range, base, rs, events[0]), events[1..], request);
    }
  }

  ghost predicate AcceptedAs(range: PortRange, st: State, a: Action, tn: Tunnel) {
    a.Register? && a.req.typ == HTTP && Enabled(st, a) && AnswerOf(range, st, a) == Some(Accepted(tn))
  }

  lemma RegistrationIsRouted(range: PortRange, base: string, rs: RouterState, a: Action, tn: Tunnel)
    requires Reached(range, base, rs) && AcceptedAs(range, rs.server, a, tn)
    ensures var rs' := Happen(range, base, rs, ServerStep(a));
            && RouterInv(rs', range) && RoutesHttp(rs'.server, tn)
            && tn.id == a.env.id && tn.session == a.s && tn.localPort == a.req.localPort && tn.private == a.req.private
            && (tn.private ==> tn.password == if a.req.password != "" then a.req.password else a.generated)
  {
    var before :| Leads(range, base, QUIET, before, rs);
    ServerRan(range, base, QUIET, before);
    RouterInvHolds(range, base, QUIET, before);
    AcceptedIsRouted(range, rs.server, a);
    RegisterAddsAtMostOne(rs.server.tables, range, a.req, a.s, PasswordFor(a.req, a.generated), a.env);
    EventKeepsRouterInv(range, base, rs, ServerStep(a));
  }

  lemma ArrivalWaits(
    range: PortRange, base: string, rs: RouterState, tn: Tunnel, request: nat, host: string, creds: Option<Credentials>)
    requires RouterInv(rs, range) && RoutesHttp(rs.server, tn) && request !in rs.pending
    requires tn.subdomain != "" && HostPart(host) == tn.subdomain + "." + base
    requires tn.private ==> creds == Some(Credentials("lotun", tn.password))
    ensures var rs' := Happen(range, base, rs, Arrive(request, host, creds));
            RouterInv(rs', range) && request in rs'.pending && rs'.pending[request] == tn
  {
    ResolvesOnlyItsOwnHost(host, base, tn.subdomain);
    EventKeepsRouterInv(range, base, rs, Arrive(request, host, creds));
  }

  lemma WaitingDialsItsTunnel(range: PortRange, base: string, rs: RouterState, request: nat, later: seq<Event>)
    requires RouterInv(rs, range) && request in rs.pending
    requires Possible(range, base, rs, later) && NoneForwards(later, request)
    ensures var end, tn := After(range, base, rs, later), rs.pending[request];
            request in end.pending && DialFor(end, request) == Dial(tn.session, tn.id, tn.localPort)
  {
    PendingStays(range, base, rs, later, request);
    RouterInvHolds(range, base, rs, later);
  }

  // From the registration to the dial. A client registers an http tunnel and is accepted; whatever
  // else happens, as long as its session is connected, a request arrives for the host it was given,
  // with the password it brought or was given if the tunnel is private; whatever else happens then,
  // disconnection included, when the request is forwarded it dials that client's session with the
  // tunnel's identifier and the local port the client asked for.
  lemma RequestDialsTheRegistration(
    range: PortRange, base: string, rs0: RouterState, a: Action, tn: Tunnel, between: seq<Event>, rs: RouterState,
    request: nat, host: string, creds: Option<Credentials>, later: seq<Event>, end: RouterState)
    requires Reached(range, base, rs0) && AcceptedAs(range, rs0.server, a, tn)
    requires Leads(range, base, Happen(range, base, rs0, ServerStep(a)), between, rs) && NoneDisconnects(between, a.s)
    requires request !in rs.pending && tn.subdomain != "" && HostPart(host) == tn.subdomain + "." + base
    requires a.req.private ==>
               creds == Some(Credentials("lotun", if a.req.password != "" then a.req.password else a.generated))
    requires Leads(range, base, Happen(range, base, rs, Arrive(request, host, creds)), later, end)
    requires NoneForwards(later, request)
    ensures request in end.pending && DialFor(end, request) == Dial(a.s, a.env.id, a.req.localPort)
  {
    var rs1 := Happen(range, base, rs0, ServerStep(a));
    RegistrationIsRouted(range, base, rs0, a, tn);
    RouteSurvives(range, base, rs1, between, tn);
    RouterInvHolds(range, base, rs1, between);
    ArrivalWaits(range, base, rs, tn, request, host, creds);
    WaitingDialsItsTunnel(range, base, Happen(range, base, rs, Arrive(request, host, creds)), request, later);
  }

  // After its session has disconnected, no request is ever forwarded to it again.
  lemma DisconnectedTunnelIsNeverRouted(
    range: PortRange, base: string, st: State, tn: Tunnel, acts: seq<Action>, host: string, creds: Option<Credentials>)
    requires Reachable(range, st) && RoutesHttp(st, tn) && Legal(range, st, acts) && Disconnects(acts, tn.session)
    ensures Route(Run(range, st, acts).tables.http, base, host, creds) != Forwarded(tn)
  {
    ReachableInv(range, st);
    HttpRouteStable(range, st, acts, tn);
    RunKeepsInv(range, st, acts);
    var st' := Run(range, st, acts);
    var v := Route(st'.tables.http, base, host, creds);
    if v.Forwarded? {
      assert HttpOk(st', SubdomainFromHost(host, base).value);
    }
  }

  // ---------- The allowlist gate ----------

  // Whether an accepted tcp connection is spliced to the client or closed at once.
  predicate Admits(tn: Tunnel, remoteAddr: string) {
    !(tn.private && !IpAllowed(remoteAddr, tn.allowIPs))
  }

  // The allow-all reading of an empty list is never taken for a private tunnel: in every reachable
  // state a listener admits everybody if it is public and exactly the addresses on its list if not.
  lemma ListenerAdmits(range: PortRange, st: State, p: nat, remoteAddr: string)
    requires Reachable(range, st) && p in st.live
    ensures Admits(st.live[p], remoteAddr) <==> !st.live[p].private || HostPart(remoteAddr) in st.live[p].allowIPs
  {
    PrivateTunnelsAreGuarded(range, st);
  }

  // And a private http route is never reached without its nonempty password.
  lemma PrivateRouteNeedsItsPassword(range: PortRange, base: string, st: State, host: string, creds: Option<Credentials>)
    requires Reachable(range, st)
    ensures var v := Route(st.tables.http, base, host, creds);
            v.Forwarded? && v.tn.private ==> creds.Some? && creds.value.password == v.tn.password != ""
  {
    PrivateTunnelsAreGuarded(range, st);
  }
}
