/**
 The client's retry loop: how fast it can possibly reconnect, and which tunnels it asks for.
 Times are in nanoseconds.
 */
module Reconnect {
  import opened Wrappers
  import opened Protocol
  import opened RoutingTables

  const SECOND: nat := 1_000_000_000
  const MIN_BACKOFF: nat := SECOND
  const MAX_BACKOFF: nat := 30 * SECOND

  // A session that outlived the largest backoff counts as healthy and resets it.
  function Reset(backoff: nat, session: nat): nat {
    if session > MAX_BACKOFF then MIN_BACKOFF else backoff
  }

  function Grow(backoff: nat): nat {
    if backoff < MAX_BACKOFF then (if 2 * backoff > MAX_BACKOFF then MAX_BACKOFF else 2 * backoff) else backoff
  }

  // The backoff after a number of attempts whose sessions lasted this long.
  function BackoffAfter(sessions: seq<nat>): nat {
    if sessions == [] then MIN_BACKOFF
    else Grow(Reset(BackoffAfter(sessions[..|sessions| - 1]), sessions[|sessions| - 1]))
  }

  // The wait before the next attempt.
  function WaitAfter(sessions: seq<nat>): nat
    requires sessions != []
  {
    Reset(BackoffAfter(sessions[..|sessions| - 1]), sessions[|sessions| - 1])
  }

  // Session time plus waits, when no timer is late.
  function LeastElapsed(sessions: seq<nat>): nat {
    if sessions == [] then 0
    else LeastElapsed(sessions[..|sessions| - 1]) + sessions[|sessions| - 1] + WaitAfter(sessions)
  }

  function Total(times: seq<nat>): nat {
    if times == [] then 0 else Total(times[..|times| - 1]) + times[|times| - 1]
  }

  // Every attempt costs its session and the wait after it.
  lemma {:induction false} ElapsedAddsUp(sessions: seq<nat>, waits: seq<nat>)
    requires |waits| == |sessions| && forall i :: 0 <= i < |sessions| ==> waits[i] == WaitAfter(sessions[..i + 1])
    ensures LeastElapsed(sessions) == Total(sessions) + Total(waits)
    decreases |sessions|
  {
    if sessions != [] {
      var n := |sessions| - 1;
      assert sessions[..n + 1] == sessions;
      forall i | 0 <= i < n ensures waits[..n][i] == WaitAfter(sessions[..n][..i + 1]) {
        assert sessions[..n][..i + 1] == sessions[..i + 1];
      }
      ElapsedAddsUp(sessions[..n], waits[..n]);
    }
  }

  // ---------- The loop ----------

  // Runs until cancelled, here after the given attempts; lateness is by how much each timer is late.
  method ServeWithRetry(sessions: seq<nat>, lateness: seq<nat>) returns (waits: seq<nat>, elapsed: nat)
    requires |lateness| == |sessions|
    ensures |waits| == |sessions|
    ensures forall i :: 0 <= i < |sessions| ==> waits[i] == WaitAfter(sessions[..i + 1])
    ensures elapsed == LeastElapsed(sessions) + Total(lateness)
    ensures 4 * elapsed >= (45 * |sessions| - 120) * 1_000_000_000
  {
    var backoff := MIN_BACKOFF;
    waits, elapsed := [], 0;
    for i := 0 to |sessions|
      invariant backoff == BackoffAfter(sessions[..i])
      invariant |waits| == i && forall k :: 0 <= k < i ==> waits[k] == WaitAfter(sessions[..k + 1])
      invariant elapsed == LeastElapsed(sessions[..i]) + Total(lateness[..i])
    {
      assert sessions[..i + 1][..i] == sessions[..i] && lateness[..i + 1][..i] == lateness[..i];
      if sessions[i] > MAX_BACKOFF {
        backoff := MIN_BACKOFF;
      }
      waits := waits + [backoff];
      elapsed := elapsed + sessions[i] + backoff + lateness[i];
      if backoff < MAX_BACKOFF {
        backoff := backoff * 2;
        if backoff > MAX_BACKOFF {
          backoff := MAX_BACKOFF;
        }
      }
    }
    assert sessions[..|sessions|] == sessions && lateness[..|lateness|] == lateness;
    ReconnectRate(sessions);
  }

  // ---------- How long each wait is ----------

  function Power2(n: nat): nat { if n == 0 then 1 else 2 * Power2(n - 1) }

  // Short sessions in a row at the end, not counting the first attempt of all.
  function Streak(sessions: seq<nat>): nat
    requires sessions != []
  {
    if sessions[|sessions| - 1] > 30_000_000_000 || |sessions| == 1 then 0
    else 1 + Streak(sessions[..|sessions| - 1])
  }

  lemma {:induction false} Power2Grows(m: nat, n: nat)
    requires m <= n
    ensures 1 <= Power2(m) <= Power2(n)
    decreases n
  {
    if m < n {
      Power2Grows(m, n - 1);
    } else if m > 0 {
      Power2Grows(m - 1, n - 1);
    }
  }

  // Each wait is a power of two seconds, capped at thirty, in the number of short sessions since
  // the start or since the last long one.
  lemma {:induction false} WaitIsCappedPower(sessions: seq<nat>)
    requires sessions != []
    ensures WaitAfter(sessions) ==
            if Streak(sessions) < 5 then Power2(Streak(sessions)) * 1_000_000_000 else 30_000_000_000
    decreases |sessions|
  {
    var before, last := sessions[..|sessions| - 1], sessions[|sessions| - 1];
    if last <= MAX_BACKOFF && before != [] {
      WaitIsCappedPower(before);
      assert BackoffAfter(before) == Grow(WaitAfter(before));
      var k := Streak(before);
      assert Power2(0) == 1 && Power2(1) == 2 && Power2(2) == 4 && Power2(3) == 8 && Power2(4) == 16;
      assert k < 5 ==> k == 0 || k == 1 || k == 2 || k == 3 || k == 4;
    } else {
      assert Power2(0) == 1;
    }
  }

  // ---------- The rate ----------

  predicate OnLadder(backoff: nat) {
    backoff in [SECOND, 2 * SECOND, 4 * SECOND, 8 * SECOND, 16 * SECOND, MAX_BACKOFF]
  }

  // Attempts that came faster than the long-run rate are paid for by how far the backoff has climbed.
  function Potential(backoff: nat): nat {
    if backoff == SECOND then 120 * SECOND
    else if backoff == 2 * SECOND then 79 * SECOND
    else if backoff == 4 * SECOND then 42 * SECOND
    else if backoff == 8 * SECOND then 13 * SECOND
    else 0
  }

  lemma {:induction false} PotentialBound(sessions: seq<nat>)
    ensures OnLadder(BackoffAfter(sessions))
    ensures 4 * LeastElapsed(sessions) >= (45 * |sessions| - 120) * SECOND + Potential(BackoffAfter(sessions))
    decreases |sessions|
  {
    if sessions != [] {
      var before := sessions[..|sessions| - 1];
      PotentialBound(before);
      var b := BackoffAfter(before);
      assert b == SECOND || b == 2 * SECOND || b == 4 * SECOND || b == 8 * SECOND || b == 16 * SECOND || b == MAX_BACKOFF;
    }
  }

  // However short and long sessions are mixed, n attempts take at least 45n/4 - 30 seconds.
  lemma ReconnectRate(sessions: seq<nat>)
    ensures 4 * LeastElapsed(sessions) >= (45 * |sessions| - 120) * SECOND
  {
    PotentialBound(sessions);
  }

  // A session just long enough to reset the backoff, then three that fail at once.
  const FASTEST: seq<nat> := [MAX_BACKOFF + 1, 0, 0, 0]

  function Repeat(k: nat): seq<nat> {
    if k == 0 then [] else Repeat(k - 1) + FASTEST
  }

  lemma AppendFastest(sessions: seq<nat>)
    ensures LeastElapsed(sessions + FASTEST) == LeastElapsed(sessions) + 45 * SECOND + 1
  {
    var s1, s2, s3 := sessions + [MAX_BACKOFF + 1], sessions + [MAX_BACKOFF + 1, 0], sessions + [MAX_BACKOFF + 1, 0, 0];
    var s4 := sessions + FASTEST;
    assert s1[..|s1| - 1] == sessions && s2[..|s2| - 1] == s1 && s3[..|s3| - 1] == s2 && s4[..|s4| - 1] == s3;
    assert LeastElapsed(s1) == LeastElapsed(sessions) + MAX_BACKOFF + 1 + SECOND && BackoffAfter(s1) == 2 * SECOND;
    assert LeastElapsed(s2) == LeastElapsed(s1) + 2 * SECOND && BackoffAfter(s2) == 4 * SECOND;
    assert LeastElapsed(s3) == LeastElapsed(s2) + 4 * SECOND && BackoffAfter(s3) == 8 * SECOND;
  }

  // The rate cannot be improved: for every k there is a run of 4k attempts that misses 45n/4
  // seconds by less than a nanosecond an attempt. Nor can the constant: four attempts meet it.
  lemma {:induction false} RateIsTight(k: nat)
    ensures |Repeat(k)| == 4 * k
    ensures 4 * LeastElapsed(Repeat(k)) == 45 * |Repeat(k)| * SECOND + |Repeat(k)|
    ensures 4 * LeastElapsed([0, 0, 0, 0]) == (45 * 4 - 120) * SECOND
  {
    if k > 0 {
      RateIsTight(k - 1);
      AppendFastest(Repeat(k - 1));
    }
    var s4: seq<nat> := [0, 0, 0, 0];
    var s3: seq<nat> := [0, 0, 0];
    assert s4[..3] == s3 && s3[..2] == [0, 0] && [0, 0][..1] == [0] && [0][..0] == [];
    assert LeastElapsed([0]) == SECOND && BackoffAfter([0]) == 2 * SECOND;
    assert LeastElapsed([0, 0]) == 3 * SECOND && BackoffAfter([0, 0]) == 4 * SECOND;
    assert LeastElapsed(s3) == 7 * SECOND && BackoffAfter(s3) == 8 * SECOND;
  }

  // ---------- The tunnels asked for ----------

  datatype TunnelConfig = TunnelConfig(
    typ: string, domain: string, port: int, remotePort: int, private: bool, password: string, allowIPs: seq<string>)

  datatype Flaw = BadType | BadPort | PasswordOnTcp | PrivateWithoutAllowIPs

  datatype ConfigError = NoTunnels | Invalid(index: nat, flaw: Flaw)

  // No letter outside ASCII lower-cases to one of the letters of a tunnel type.
  function ToLower(s: string): string {
    seq(|s|, i requires 0 <= i < |s| => if 'A' <= s[i] <= 'Z' then (s[i] as int + 32) as char else s[i])
  }

  function FlawIn(t: TunnelConfig): Option<Flaw> {
    if ToLower(t.typ) != HTTP && ToLower(t.typ) != TCP then Some(BadType)
    else if t.port < 1 || t.port > 65535 then Some(BadPort)
    else if ToLower(t.typ) == TCP && t.password != "" then Some(PasswordOnTcp)
    else if ToLower(t.typ) == TCP && t.private && t.allowIPs == [] then Some(PrivateWithoutAllowIPs)
    else None
  }

  function RequestFor(t: TunnelConfig): RegisterRequest {
    RegisterRequest(ToLower(t.typ), t.domain, t.port, t.remotePort, t.private, t.password, t.allowIPs)
  }

  // The same letters in either case; word is in lower case.
  ghost predicate Spells(s: string, word: string) {
    |s| == |word| && forall i :: 0 <= i < |s| ==> s[i] == word[i] || ('A' <= s[i] <= 'Z' && s[i] as int == word[i] as int - 32)
  }

  lemma LowerSpells(s: string)
    ensures ToLower(s) == "http" <==> Spells(s, "http")
    ensures ToLower(s) == "tcp" <==> Spells(s, "tcp")
  {
  }

  ghost predicate Typed(t: TunnelConfig) { Spells(t.typ, "http") || Spells(t.typ, "tcp") }

  // Each flaw is reported for its own reason, in the order in which they are looked for.
  lemma FlawIff(t: TunnelConfig)
    ensures FlawIn(t) == Some(BadType) <==> !Typed(t)
    ensures FlawIn(t) == Some(BadPort) <==> Typed(t) && !(1 <= t.port <= 65535)
    ensures FlawIn(t) == Some(PasswordOnTcp) <==> Spells(t.typ, "tcp") && 1 <= t.port <= 65535 && t.password != ""
    ensures FlawIn(t) == Some(PrivateWithoutAllowIPs) <==>
              Spells(t.typ, "tcp") && 1 <= t.port <= 65535 && t.password == "" && t.private && t.allowIPs == []
  {
    LowerSpells(t.typ);
  }

  // The request asks for what the entry says, with its type in lower case.
  ghost predicate AsksFor(q: RegisterRequest, t: TunnelConfig) {
    && (q.typ == "http" <==> Spells(t.typ, "http")) && (q.typ == "tcp" <==> Spells(t.typ, "tcp"))
    && q.localPort == t.port && q.remotePort == t.remotePort && q.domain == t.domain
    && q.private == t.private && q.password == t.password && q.allowIPs == t.allowIPs
  }

  // One request per entry, in order, if every entry is sound; otherwise the first that is not.
  method TunnelRequests(tunnels: seq<TunnelConfig>) returns (r: Result<seq<RegisterRequest>, ConfigError>)
    ensures r.Ok? <==> tunnels != [] && forall i :: 0 <= i < |tunnels| ==> FlawIn(tunnels[i]) == None
    ensures r.Ok? ==> |r.value| == |tunnels|
    ensures r.Ok? ==> forall i :: 0 <= i < |tunnels| ==>
              r.value[i] == RequestFor(tunnels[i]) && AsksFor(r.value[i], tunnels[i])
    ensures r.Err? && r.error.NoTunnels? ==> tunnels == []
    ensures r.Err? && r.error.Invalid? ==>
              && r.error.index < |tunnels| && FlawIn(tunnels[r.error.index]) == Some(r.error.flaw)
              && forall i :: 0 <= i < r.error.index ==> FlawIn(tunnels[i]) == None
  {
    if |tunnels| == 0 {
      return Err(NoTunnels);
    }
    var reqs: seq<RegisterRequest> := [];
    for i := 0 to |tunnels|
      invariant |reqs| == i
      invariant forall k :: 0 <= k < i ==> FlawIn(tunnels[k]) == None && reqs[k] == RequestFor(tunnels[k])
      invariant forall k :: 0 <= k < i ==> AsksFor(reqs[k], tunnels[k])
    {
      var t := tunnels[i];
      LowerSpells(t.typ);
      var typ := ToLower(t.typ);
      if typ != HTTP && typ != TCP {
        return Err(Invalid(i, BadType));
      }
      if t.port < 1 || t.port > 65535 {
        return Err(Invalid(i, BadPort));
      }
      if typ == TCP {
        if t.password != "" {
          return Err(Invalid(i, PasswordOnTcp));
        }
        if t.private && |t.allowIPs| == 0 {
          return Err(Invalid(i, PrivateWithoutAllowIPs));
        }
      }
      reqs := reqs + [RegisterRequest(typ, t.domain, t.port, t.remotePort, t.private, t.password, t.allowIPs)];
    }
    return Ok(reqs);
  }

  // What the client's validation lets through, the server never turns down for a missing allowlist,
  // and never as a tunnel of unknown type.
  lemma ValidatedRequestsPassTheServersChecks(
    t: TunnelConfig, tables: Tables, range: PortRange, s: SessionId, password: string, env: Env)
    requires FlawIn(t) == None
    ensures RoutingTables.Register(tables, range, RequestFor(t), s, password, env).outcome != Err(AllowIPsRequired)
    ensures RequestFor(t).typ == HTTP || RequestFor(t).typ == TCP
  {
    AllocPortIsLeastFree(tables.tcp, range, t.remotePort, t.port);
  }
}
