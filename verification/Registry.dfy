/** The registry object: two maps updated in place under one lock. */
module RegistryObject {
  import opened Wrappers
  import opened Protocol
  import opened RoutingTables

  class Registry {
    var httpBySub: map<string, Tunnel>
    var tcpByPort: map<nat, Tunnel>
    const range: PortRange

    function Tables(): Tables
      reads this
    {
      RoutingTables.Tables(httpBySub, tcpByPort)
    }

    constructor (range: PortRange)
      ensures Tables() == EMPTY && this.range == range
    {
      httpBySub, tcpByPort := map[], map[];
      this.range := range;
    }

    method FreeName(draws: nat -> Draw) returns (name: string)
      ensures name == FreeNameFrom(httpBySub, draws, 0) && Drawn(httpBySub, draws, name)
    {
      FreeNameIsDrawn(httpBySub, draws);
      for i: nat := 0 to NAME_ATTEMPTS
        invariant FreeNameFrom(httpBySub, draws, 0) == FreeNameFrom(httpBySub, draws, i)
      {
        var d := draws(i);
        if d.name !in httpBySub && !d.claimed {
          return d.name;
        }
      }
      return draws(NAME_ATTEMPTS).name;
    }

    method AllocatePort(want: int, localPort: int) returns (r: Result<nat, RegistryError>)
      ensures r == AllocPort(tcpByPort, range, want, localPort)
      ensures r.Ok? ==> IsFree(tcpByPort, range, r.value)
      ensures r == Err(PortsExhausted) ==> forall q :: !IsFree(tcpByPort, range, q)
    {
      AllocPortIsLeastFree(tcpByPort, range, want, localPort);
      if want != 0 {
        if want < range.min || want > range.max {
          return Err(PortOutOfRange);
        }
        if want in tcpByPort {
          return Err(PortInUse);
        }
        return Ok(want);
      }
      if localPort >= range.min && localPort <= range.max {
        if localPort !in tcpByPort {
          return Ok(localPort);
        }
      }
      var p := range.min;
      while p <= range.max
        invariant ScanFrom(tcpByPort, range.min, range.max) == ScanFrom(tcpByPort, p, range.max)
      {
        if p !in tcpByPort {
          return Ok(p);
        }
        p := p + 1;
      }
      return Err(PortsExhausted);
    }

    method Register(req: RegisterRequest, s: SessionId, password: string, env: Env)
      returns (outcome: Result<Tunnel, RegistryError>)
      modifies this
      ensures RoutingTables.Register(old(Tables()), range, req, s, password, env) == Registration(Tables(), outcome)
      ensures old(WellFormed(Tables(), range)) ==> WellFormed(Tables(), range)
      ensures outcome.Ok? && req.domain == "" ==> Drawn(old(httpBySub), env.draws, outcome.value.subdomain)
    {
      FreeNameIsDrawn(httpBySub, env.draws);
      if WellFormed(Tables(), range) {
        RegisterKeepsWellFormed(Tables(), range, req, s, password, env);
      }
      var sub := req.domain;
      if sub == "" {
        sub := FreeName(env.draws);
      } else if !env.domainClaimed {
        return Err(NotClaimed);
      }
      var tn := NewTunnel(req, s, password, env.id, sub, 0);
      if req.typ == HTTP {
        if sub in httpBySub {
          return Err(SubdomainInUse);
        }
        httpBySub := httpBySub[sub := tn];
      } else if req.typ == TCP {
        if req.private && |req.allowIPs| == 0 {
          return Err(AllowIPsRequired);
        }
        var port := AllocatePort(req.remotePort, req.localPort);
        if port.Err? {
          return Err(port.error);
        }
        tn := tn.(port := port.value);
        tcpByPort := tcpByPort[port.value := tn];
      }
      return Ok(tn);
    }

    method LookupHTTP(subdomain: string) returns (r: Option<Tunnel>)
      ensures r.Some? <==> subdomain in httpBySub
      ensures r.Some? ==> r.value == httpBySub[subdomain]
    {
      if subdomain in httpBySub {
        return Some(httpBySub[subdomain]);
      }
      return None;
    }

    method Remove(id: string)
      modifies this
      ensures Tables() == RoutingTables.Remove(old(Tables()), id)
      ensures old(WellFormed(Tables(), range)) ==> WellFormed(Tables(), range)
    {
      ghost var was := Tables();
      var subs := httpBySub.Keys;
      while subs != {}
        invariant subs <= was.http.Keys && tcpByPort == was.tcp
        invariant forall k :: k in httpBySub <==> k in was.http && (k in subs || was.http[k].id != id)
        invariant forall k :: k in httpBySub ==> httpBySub[k] == was.http[k]
        decreases subs
      {
        var sub :| sub in subs;
        subs := subs - {sub};
        if httpBySub[sub].id == id {
          httpBySub := httpBySub - {sub};
        }
      }
      var ports := tcpByPort.Keys;
      while ports != {}
        invariant ports <= was.tcp.Keys && httpBySub == RoutingTables.Remove(was, id).http
        invariant forall p :: p in tcpByPort <==> p in was.tcp && (p in ports || was.tcp[p].id != id)
        invariant forall p :: p in tcpByPort ==> tcpByPort[p] == was.tcp[p]
        decreases ports
      {
        var port :| port in ports;
        ports := ports - {port};
        if tcpByPort[port].id == id {
          tcpByPort := tcpByPort - {port};
        }
      }
    }

    // Deletes exactly the entries of s and returns each freed tcp port once.
    method RemoveSession(s: SessionId) returns (freed: seq<nat>)
      modifies this
      ensures Tables() == Without(old(Tables()), s)
      ensures Enumerates(freed, PortsOf(old(Tables()), s))
      ensures old(WellFormed(Tables(), range)) ==> WellFormed(Tables(), range)
    {
      ghost var was := Tables();
      var subs := httpBySub.Keys;
      while subs != {}
        invariant subs <= was.http.Keys && tcpByPort == was.tcp
        invariant forall k :: k in httpBySub <==> k in was.http && (k in subs || was.http[k].session != s)
        invariant forall k :: k in httpBySub ==> httpBySub[k] == was.http[k]
        decreases subs
      {
        var sub :| sub in subs;
        subs := subs - {sub};
        if httpBySub[sub].session == s {
          httpBySub := httpBySub - {sub};
        }
      }
      freed := [];
      var ports := tcpByPort.Keys;
      while ports != {}
        invariant ports <= was.tcp.Keys && httpBySub == Without(was, s).http
        invariant forall p :: p in tcpByPort <==> p in was.tcp && (p in ports || was.tcp[p].session != s)
        invariant forall p :: p in tcpByPort ==> tcpByPort[p] == was.tcp[p]
        invariant forall i, j :: 0 <= i < j < |freed| ==> freed[i] != freed[j]
        invariant forall p :: p in freed <==> p in was.tcp && p !in ports && was.tcp[p].session == s
        decreases ports
      {
        var port :| port in ports;
        ports := ports - {port};
        if tcpByPort[port].session == s {
          freed := freed + [port];
          tcpByPort := tcpByPort - {port};
        }
      }
    }

    method ListHttp() returns (out: seq<Tunnel>, ghost subs: seq<string>)
      ensures Lists(out, httpBySub, subs)
    {
      out, subs := [], [];
      var todo := httpBySub.Keys;
      while todo != {}
        invariant todo <= httpBySub.Keys && Enumerates(subs, httpBySub.Keys - todo) && |out| == |subs|
        invariant forall i :: 0 <= i < |subs| ==> subs[i] in httpBySub && out[i] == httpBySub[subs[i]]
        decreases todo
      {
        var sub :| sub in todo;
        todo := todo - {sub};
        out, subs := out + [httpBySub[sub]], subs + [sub];
      }
    }

    method ListTcp() returns (out: seq<Tunnel>, ghost ports: seq<nat>)
      ensures Lists(out, tcpByPort, ports)
    {
      out, ports := [], [];
      var todo := tcpByPort.Keys;
      while todo != {}
        invariant todo <= tcpByPort.Keys && Enumerates(ports, tcpByPort.Keys - todo) && |out| == |ports|
        invariant forall i :: 0 <= i < |ports| ==> ports[i] in tcpByPort && out[i] == tcpByPort[ports[i]]
        decreases todo
      {
        var port :| port in todo;
        todo := todo - {port};
        out, ports := out + [tcpByPort[port]], ports + [port];
      }
    }

    // One entry per table key, none repeated and none missed.
    method List() returns (out: seq<Tunnel>, ghost subs: seq<string>, ghost ports: seq<nat>)
      ensures |out| == |subs| + |ports| == |httpBySub| + |tcpByPort|
      ensures Lists(out[..|subs|], httpBySub, subs) && Lists(out[|subs|..], tcpByPort, ports)
    {
      var http, tcp;
      http, subs := ListHttp();
      tcp, ports := ListTcp();
      EnumerationLength(subs, httpBySub.Keys);
      EnumerationLength(ports, tcpByPort.Keys);
      out := http + tcp;
      assert out[..|subs|] == http && out[|subs|..] == tcp;
    }
  }
}
