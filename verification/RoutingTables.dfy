/**
 The two routing tables of the server's registry, as values: what each registry
 operation does to them, and what follows for sequences of operations.
 The class in Registry.dfy is proved to compute exactly these functions.
 */
module RoutingTables {
  import opened Protocol
  import opened Wrappers

  // A yamux session is only ever compared for identity.
  type SessionId = nat

  datatype Tunnel = Tunnel(
    id: string,
    typ: string,
    subdomain: string,
    port: nat,
    localPort: int,
    private: bool,
    password: string,
    allowIPs: seq<string>,
    session: SessionId)

  datatype RegistryError =
    | NotClaimed
    | SubdomainInUse
    | PortInUse
    | PortOutOfRange
    | PortsExhausted
    | AllowIPsRequired

  datatype Tables = Tables(http: map<string, Tunnel>, tcp: map<nat, Tunnel>)

  const EMPTY := Tables(map[], map[])

  // The inclusive range of public tcp ports. It may be empty: nothing checks that it is not.
  datatype PortBounds = PortBounds(min: nat, max: nat) {
    predicate Contains(p: int) { min <= p <= max }

    function Size(): nat { if min <= max then max - min + 1 else 0 }
  }

  // The ranges a server runs with. Nothing checks that they start above 0 either, but binding
  // port 0 binds some other port; AllocatesZeroIff says when the allocator returns it.
  type PortRange = r: PortBounds | 1 <= r.min witness PortBounds(1, 65535)

  // One name drawn from the generator, with the answer the claims store gave about it.
  // The store has its own lock, so two draws may see different claims.
  datatype Draw = Draw(name: string, claimed: bool)

  // What a registration takes from outside the registry: a random identifier, the claims
  // store's answer about the requested domain, and the names it draws when none is requested.
  datatype Env = Env(id: string, domainClaimed: bool, draws: nat -> Draw)

  const NAME_ATTEMPTS: nat := 1000

  // ---------- Port allocation ----------

  function ScanFrom(tcp: map<nat, Tunnel>, p: nat, max: nat): Option<nat>
    decreases max - p
  {
    if p > max then None
    else if p !in tcp then Some(p)
    else ScanFrom(tcp, p + 1, max)
  }

  function AllocPort(tcp: map<nat, Tunnel>, range: PortBounds, want: int, localPort: int): Result<nat, RegistryError> {
    if want != 0 then
      if !range.Contains(want) then Err(PortOutOfRange)
      else if want in tcp then Err(PortInUse)
      else Ok(want)
    else if range.Contains(localPort) && localPort !in tcp then Ok(localPort)
    else
      match ScanFrom(tcp, range.min, range.max)
      case Some(p) => Ok(p)
      case None => Err(PortsExhausted)
  }

  ghost predicate IsFree(tcp: map<nat, Tunnel>, range: PortBounds, p: int) {
    range.Contains(p) && p !in tcp
  }

  lemma {:induction false} ScanFindsLeast(tcp: map<nat, Tunnel>, p: nat, max: nat)
    ensures match ScanFrom(tcp, p, max)
            case Some(q) => p <= q <= max && q !in tcp && (forall k :: p <= k < q ==> k in tcp)
            case None => forall k :: p <= k <= max ==> k in tcp
    decreases max - p
  {
    if p <= max && p in tcp {
      ScanFindsLeast(tcp, p + 1, max);
    }
  }

  // The answer to a request that names no port: the local port when it is free, otherwise the
  // least free port; and the only way a request is turned down for each reason.
  lemma AllocPortIsLeastFree(tcp: map<nat, Tunnel>, range: PortBounds, want: int, localPort: int)
    ensures var r := AllocPort(tcp, range, want, localPort);
            && (r.Ok? ==> IsFree(tcp, range, r.value))
            && (r.Ok? && want != 0 ==> r.value == want)
            && (want == 0 && IsFree(tcp, range, localPort) ==> r == Ok(localPort))
            && (r.Ok? && want == 0 && !IsFree(tcp, range, localPort) ==>
                  forall q :: IsFree(tcp, range, q) ==> r.value <= q)
            && (r == Err(PortOutOfRange) <==> want != 0 && !range.Contains(want))
            && (r == Err(PortInUse) <==> want != 0 && range.Contains(want) && want in tcp)
            && (r == Err(PortsExhausted) <==> want == 0 && forall q :: !IsFree(tcp, range, q))
  {
    ScanFindsLeast(tcp, range.min, range.max);
    match ScanFrom(tcp, range.min, range.max)
    case Some(q) => assert IsFree(tcp, range, q);
    case None =>
  }

  // Port 0 is handed out exactly when the range starts there and a request without a port finds it
  // free and does not get its local port instead.
  lemma AllocatesZeroIff(tcp: map<nat, Tunnel>, range: PortBounds, want: int, localPort: int)
    ensures AllocPort(tcp, range, want, localPort) == Ok(0)
            <==> want == 0 && IsFree(tcp, range, 0) && (localPort == 0 || !IsFree(tcp, range, localPort))
  {
    AllocPortIsLeastFree(tcp, range, want, localPort);
  }

  ghost function PortsFrom(p: nat, max: nat): (s: set<nat>)
    ensures forall k :: k in s <==> p <= k <= max
    ensures |s| == if p <= max then max - p + 1 else 0
    decreases max - p
  {
    if p > max then {}
    else
      var rest := PortsFrom(p + 1, max);
      assert p !in rest;
      {p} + rest
  }

  lemma SubsetOfSameSize<T>(a: set<T>, b: set<T>)
    requires a <= b
    ensures |a| <= |b|
    ensures |a| == |b| <==> a == b
  {
    assert b == a + (b - a);
  }

  // Ports run out exactly when the table holds as many tunnels as the range has ports.
  lemma ExhaustedIffFull(t: Tables, range: PortBounds, want: int, localPort: int)
    requires PortsWellFormed(t, range)
    ensures AllocPort(t.tcp, range, want, localPort) == Err(PortsExhausted)
            <==> want == 0 && |t.tcp| == range.Size()
  {
    AllocPortIsLeastFree(t.tcp, range, want, localPort);
    var all := PortsFrom(range.min, range.max);
    SubsetOfSameSize(t.tcp.Keys, all);
    assert |t.tcp| == |t.tcp.Keys|;
    if forall q :: !IsFree(t.tcp, range, q) {
      forall q | q in all ensures q in t.tcp.Keys { assert !IsFree(t.tcp, range, q); }
    }
  }

  // ---------- Name allocation ----------

  predicate Acceptable(http: map<string, Tunnel>, d: Draw) {
    d.name !in http && !d.claimed
  }

  function FreeNameFrom(http: map<string, Tunnel>, draws: nat -> Draw, i: nat): string
    requires i <= NAME_ATTEMPTS
    decreases NAME_ATTEMPTS - i
  {
    if i == NAME_ATTEMPTS then draws(i).name
    else if Acceptable(http, draws(i)) then draws(i).name
    else FreeNameFrom(http, draws, i + 1)
  }

  ghost predicate AllRefused(http: map<string, Tunnel>, draws: nat -> Draw, i: nat, n: nat) {
    forall k: nat :: i <= k < n ==> !Acceptable(http, draws(k))
  }

  // The name is the first acceptable draw. After a thousand refusals the next draw is used
  // unchecked, so only then can the name be claimed or already serving.
  lemma {:induction false} FreeNameIsFirstAcceptable(http: map<string, Tunnel>, draws: nat -> Draw, i: nat)
    requires i <= NAME_ATTEMPTS
    ensures !AllRefused(http, draws, i, NAME_ATTEMPTS) ==>
              exists k: nat :: && i <= k < NAME_ATTEMPTS && AllRefused(http, draws, i, k)
                               && Acceptable(http, draws(k)) && FreeNameFrom(http, draws, i) == draws(k).name
    ensures AllRefused(http, draws, i, NAME_ATTEMPTS) ==>
              FreeNameFrom(http, draws, i) == draws(NAME_ATTEMPTS).name
    decreases NAME_ATTEMPTS - i
  {
    if i < NAME_ATTEMPTS {
      if Acceptable(http, draws(i)) {
        assert AllRefused(http, draws, i, i);
      } else {
        FreeNameIsFirstAcceptable(http, draws, i + 1);
        if !AllRefused(http, draws, i, NAME_ATTEMPTS) {
          assert !AllRefused(http, draws, i + 1, NAME_ATTEMPTS);
          var k: nat :| && i + 1 <= k < NAME_ATTEMPTS && AllRefused(http, draws, i + 1, k)
                        && Acceptable(http, draws(k)) && FreeNameFrom(http, draws, i + 1) == draws(k).name;
          assert AllRefused(http, draws, i, k);
        }
      }
    }
  }

  // ---------- The operations ----------

  function ResolveName(t: Tables, req: RegisterRequest, env: Env): Result<string, RegistryError> {
    if req.domain == "" then Ok(FreeNameFrom(t.http, env.draws, 0))
    else if env.domainClaimed then Ok(req.domain)
    else Err(NotClaimed)
  }

  function NewTunnel(req: RegisterRequest, s: SessionId, password: string, id: string, sub: string, port: nat): Tunnel {
    Tunnel(id, req.typ, sub, port, req.localPort, req.private, password, req.allowIPs, s)
  }

  datatype Registration = Registration(tables: Tables, outcome: Result<Tunnel, RegistryError>)

  function Register(t: Tables, range: PortBounds, req: RegisterRequest, s: SessionId, password: string, env: Env): Registration {
    match ResolveName(t, req, env)
    case Err(e) => Registration(t, Err(e))
    case Ok(sub) =>
      if req.typ == HTTP then
        if sub in t.http then Registration(t, Err(SubdomainInUse))
        else
          var tn := NewTunnel(req, s, password, env.id, sub, 0);
          Registration(t.(http := t.http[sub := tn]), Ok(tn))
      else if req.typ == TCP then
        if req.private && |req.allowIPs| == 0 then Registration(t, Err(AllowIPsRequired))
        else
          match AllocPort(t.tcp, range, req.remotePort, req.localPort)
          case Err(e) => Registration(t, Err(e))
          case Ok(port) =>
            var tn := NewTunnel(req, s, password, env.id, sub, port);
            Registration(t.(tcp := t.tcp[port := tn]), Ok(tn))
      else Registration(t, Ok(NewTunnel(req, s, password, env.id, sub, 0)))
  }

  function Remove(t: Tables, id: string): Tables {
    Tables(map k | k in t.http && t.http[k].id != id :: t.http[k],
           map p | p in t.tcp && t.tcp[p].id != id :: t.tcp[p])
  }

  // What is left of the tables when session s is gone.
  function Without(t: Tables, s: SessionId): Tables {
    Tables(map k | k in t.http && t.http[k].session != s :: t.http[k],
           map p | p in t.tcp && t.tcp[p].session != s :: t.tcp[p])
  }

  function PortsOf(t: Tables, s: SessionId): set<nat> {
    set p | p in t.tcp && t.tcp[p].session == s
  }

  // A set listed in some order without repetition: what ranging over a Go map yields.
  ghost predicate Enumerates<T>(order: seq<T>, s: set<T>) {
    && (forall i, j :: 0 <= i < j < |order| ==> order[i] != order[j])
    && (forall x :: x in order ==> x in s)
    && (forall x :: x in s ==> x in order)
  }

  // The tunnels of m, in the order of keys: one for every key, none missed and none repeated.
  ghost predicate Lists<K>(out: seq<Tunnel>, m: map<K, Tunnel>, keys: seq<K>) {
    && Enumerates(keys, m.Keys) && |out| == |keys|
    && forall i :: 0 <= i < |keys| ==> keys[i] in m && out[i] == m[keys[i]]
  }

  lemma {:induction false} EnumerationLength<T>(order: seq<T>, s: set<T>)
    requires Enumerates(order, s)
    ensures |order| == |s|
  {
    if order != [] {
      var x := order[0];
      assert order == [x] + order[1..];
      EnumerationLength(order[1..], s - {x});
    }
  }

  // ---------- What every operation keeps ----------

  ghost predicate PortsWellFormed(t: Tables, range: PortBounds) {
    forall p :: p in t.tcp ==> range.Contains(p)
  }

  // Every entry is filed under its own key and kind, and a private tcp tunnel has an allowlist.
  ghost predicate WellFormed(t: Tables, range: PortBounds) {
    && PortsWellFormed(t, range)
    && (forall k :: k in t.http ==> t.http[k].typ == HTTP && t.http[k].subdomain == k && t.http[k].port == 0)
    && (forall p :: p in t.tcp ==> t.tcp[p].typ == TCP && t.tcp[p].port == p
                                   && (t.tcp[p].private ==> t.tcp[p].allowIPs != []))
  }

  lemma RegisterKeepsWellFormed(t: Tables, range: PortBounds, req: RegisterRequest, s: SessionId, password: string, env: Env)
    requires WellFormed(t, range)
    ensures WellFormed(Register(t, range, req, s, password, env).tables, range)
  {
    AllocPortIsLeastFree(t.tcp, range, req.remotePort, req.localPort);
  }

  // A registration either fails and changes nothing, or adds one new entry for the tunnel it
  // returns and overwrites nothing; an unknown tunnel type adds no entry.
  lemma RegisterAddsAtMostOne(t: Tables, range: PortBounds, req: RegisterRequest, s: SessionId, password: string, env: Env)
    ensures var r := Register(t, range, req, s, password, env);
            && (r.outcome.Err? ==> r.tables == t)
            && (r.outcome.Ok? ==>
                  var tn := r.outcome.value;
                  && tn.id == env.id && tn.session == s && tn.typ == req.typ && tn.password == password
                  && (req.domain != "" ==> tn.subdomain == req.domain && env.domainClaimed)
                  && tn.localPort == req.localPort && tn.private == req.private && tn.allowIPs == req.allowIPs
                  && (tn.typ == HTTP ==> tn.subdomain !in t.http && tn.port == 0
                                         && r.tables == t.(http := t.http[tn.subdomain := tn]))
                  && (tn.typ == TCP ==> IsFree(t.tcp, range, tn.port)
                                        && (tn.private ==> tn.allowIPs != [])
                                        && r.tables == t.(tcp := t.tcp[tn.port := tn]))
                  && (tn.typ != HTTP && tn.typ != TCP ==> r.tables == t))
  {
    AllocPortIsLeastFree(t.tcp, range, req.remotePort, req.localPort);
  }

  // Each refusal has exactly its own reason: an unclaimed name comes first, then the checks of the
  // tunnel's type; a tunnel of unknown type passes them all.
  lemma RefusalReasons(t: Tables, range: PortBounds, req: RegisterRequest, s: SessionId, password: string, env: Env)
    ensures var refused := Register(t, range, req, s, password, env).outcome;
            var unclaimed := req.domain != "" && !env.domainClaimed;
            var listed := req.private ==> req.allowIPs != [];
            && (refused == Err(NotClaimed) <==> unclaimed)
            && (refused == Err(AllowIPsRequired) <==> !unclaimed && req.typ == TCP && !listed)
            && (refused == Err(PortOutOfRange) <==>
                  !unclaimed && req.typ == TCP && listed && req.remotePort != 0 && !range.Contains(req.remotePort))
            && (refused == Err(PortInUse) <==>
                  !unclaimed && req.typ == TCP && listed && req.remotePort != 0 && req.remotePort in t.tcp
                  && range.Contains(req.remotePort))
            && (refused == Err(PortsExhausted) <==>
                  !unclaimed && req.typ == TCP && listed && req.remotePort == 0 && forall q :: !IsFree(t.tcp, range, q))
            && (refused == Err(SubdomainInUse) ==> !unclaimed && req.typ == HTTP)
            && (req.domain != "" ==> (refused == Err(SubdomainInUse) <==>
                                        !unclaimed && req.typ == HTTP && req.domain in t.http))
  {
    AllocPortIsLeastFree(t.tcp, range, req.remotePort, req.localPort);
  }

  ghost predicate Serves(http: map<string, Tunnel>, d: Draw) { d.name in http }

  // name comes from the first draw that is neither serving nor claimed; or all of a thousand draws
  // were one or the other, and it is the draw after them.
  ghost predicate Drawn(http: map<string, Tunnel>, draws: nat -> Draw, name: string) {
    || (exists k: nat :: && k < 1000 && name == draws(k).name && !Serves(http, draws(k)) && !draws(k).claimed
                         && forall j: nat :: j < k ==> Serves(http, draws(j)) || draws(j).claimed)
    || (name == draws(1000).name && forall j: nat :: j < 1000 ==> Serves(http, draws(j)) || draws(j).claimed)
  }

  lemma FreeNameIsDrawn(http: map<string, Tunnel>, draws: nat -> Draw)
    ensures Drawn(http, draws, FreeNameFrom(http, draws, 0))
  {
    FreeNameIsFirstAcceptable(http, draws, 0);
    if !AllRefused(http, draws, 0, NAME_ATTEMPTS) {
      var k: nat :| && k < NAME_ATTEMPTS && AllRefused(http, draws, 0, k)
                    && Acceptable(http, draws(k)) && FreeNameFrom(http, draws, 0) == draws(k).name;
      assert !Serves(http, draws(k));
      forall j: nat | j < k ensures Serves(http, draws(j)) || draws(j).claimed {
        assert !Acceptable(http, draws(j));
      }
    } else {
      forall j: nat | j < 1000 ensures Serves(http, draws(j)) || draws(j).claimed {
        assert !Acceptable(http, draws(j));
      }
    }
  }

  // The name of every tunnel registered, of any type: the one asked for, if it is claimed, and
  // otherwise one drawn for it, which nobody serves or has claimed unless a thousand draws failed.
  lemma RegisteredName(t: Tables, range: PortBounds, req: RegisterRequest, s: SessionId, password: string, env: Env)
    requires Register(t, range, req, s, password, env).outcome.Ok?
    ensures var sub := Register(t, range, req, s, password, env).outcome.value.subdomain;
            && (req.domain != "" ==> sub == req.domain && env.domainClaimed)
            && (req.domain == "" ==> Drawn(t.http, env.draws, sub))
            && (req.domain == "" && (exists j: nat :: j < 1000 && !Serves(t.http, env.draws(j)) && !env.draws(j).claimed)
                ==> sub !in t.http && exists k: nat :: k < 1000 && env.draws(k).name == sub && !env.draws(k).claimed)
  {
    FreeNameIsDrawn(t.http, env.draws);
    var sub := Register(t, range, req, s, password, env).outcome.value.subdomain;
    if req.domain == "" && exists j: nat :: j < 1000 && !Serves(t.http, env.draws(j)) && !env.draws(j).claimed {
      var k: nat :| k < 1000 && sub == env.draws(k).name && !Serves(t.http, env.draws(k)) && !env.draws(k).claimed;
    }
  }

  // A registration that leaves the name to the server can only collide after a thousand refusals.
  lemma AssignedNameCollidesIff(t: Tables, range: PortBounds, req: RegisterRequest, s: SessionId, password: string, env: Env)
    requires req.domain == "" && req.typ == HTTP
    ensures Register(t, range, req, s, password, env).outcome == Err(SubdomainInUse)
            <==> AllRefused(t.http, env.draws, 0, NAME_ATTEMPTS) && env.draws(NAME_ATTEMPTS).name in t.http
  {
    FreeNameIsFirstAcceptable(t.http, env.draws, 0);
  }

  // ---------- Undo ----------

  // One registry call made on behalf of a session. Rollback removes a tunnel by its id.
  datatype Op =
    | OpRegister(s: SessionId, req: RegisterRequest, password: string, env: Env)
    | OpRollback(s: SessionId, id: string)
    | OpRemoveSession(s: SessionId)

  function Apply(t: Tables, range: PortBounds, op: Op): Tables {
    match op
    case OpRegister(s, req, password, env) => Register(t, range, req, s, password, env).tables
    case OpRollback(_, id) => Remove(t, id)
    case OpRemoveSession(s) => Without(t, s)
  }

  function ApplyAll(t: Tables, range: PortBounds, ops: seq<Op>): Tables
    decreases |ops|
  {
    if ops == [] then t else ApplyAll(Apply(t, range, ops[0]), range, ops[1..])
  }

  // A session rolls back only its own registrations.
  ghost predicate OwnsId(t: Tables, s: SessionId, id: string) {
    && (forall k :: k in t.http && t.http[k].id == id ==> t.http[k].session == s)
    && (forall p :: p in t.tcp && t.tcp[p].id == id ==> t.tcp[p].session == s)
  }

  ghost predicate OnlyBy(t: Tables, range: PortBounds, ops: seq<Op>, s: SessionId)
    decreases |ops|
  {
    ops == [] || (&& ops[0].s == s
                  && (ops[0].OpRollback? ==> OwnsId(t, s, ops[0].id))
                  && OnlyBy(Apply(t, range, ops[0]), range, ops[1..], s))
  }

  lemma StepInvisibleToOthers(t: Tables, range: PortBounds, op: Op)
    requires op.OpRollback? ==> OwnsId(t, op.s, op.id)
    ensures Without(Apply(t, range, op), op.s) == Without(t, op.s)
  {
    var u := Apply(t, range, op);
    if op.OpRegister? {
      RegisterAddsAtMostOne(t, range, op.req, op.s, op.password, op.env);
    }
    assert Without(u, op.s).http == Without(t, op.s).http;
    assert Without(u, op.s).tcp == Without(t, op.s).tcp;
  }

  // Whatever one session does, what the others have registered stays exactly as it was; so
  // removing the session afterwards undoes all of it, and restores tables in which it had nothing.
  lemma {:induction false} RemoveSessionUndoes(t: Tables, range: PortBounds, ops: seq<Op>, s: SessionId)
    requires OnlyBy(t, range, ops, s)
    ensures Without(ApplyAll(t, range, ops), s) == Without(t, s)
    ensures (forall k :: k in t.http ==> t.http[k].session != s) && PortsOf(t, s) == {} ==>
              Without(ApplyAll(t, range, ops), s) == t
    decreases |ops|
  {
    if ops != [] {
      StepInvisibleToOthers(t, range, ops[0]);
      RemoveSessionUndoes(Apply(t, range, ops[0]), range, ops[1..], s);
    }
    if (forall k :: k in t.http ==> t.http[k].session != s) && PortsOf(t, s) == {} {
      forall p | p in t.tcp ensures t.tcp[p].session != s { assert p !in PortsOf(t, s); }
      assert Without(t, s).tcp == t.tcp && Without(t, s).http == t.http;
    }
  }
}
