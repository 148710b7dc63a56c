/**
 Host names and addresses as text: how a request's Host is resolved to a subdomain, how a remote
 address is checked against an allowlist, and the public addresses the server hands out.
 */
module Hosts {
  import opened Wrappers
  import opened Protocol
  import opened RoutingTables

  // ---------- Splitting host and port ----------

  function LastIndex(s: string, c: char): (i: int)
    ensures i == -1 <==> c !in s
    ensures i != -1 ==> 0 <= i < |s| && s[i] == c && c !in s[i + 1..]
  {
    if s == [] then -1
    else if s[|s| - 1] == c then |s| - 1
    else
      var i := LastIndex(s[..|s| - 1], c);
      assert s == s[..|s| - 1] + [s[|s| - 1]];
      assert i != -1 ==> s[i + 1..] == s[..|s| - 1][i + 1..] + [s[|s| - 1]];
      i
  }

  function FirstIndex(s: string, c: char): (i: int)
    ensures i == -1 <==> c !in s
    ensures i != -1 ==> 0 <= i < |s| && s[i] == c && c !in s[..i]
  {
    if s == [] then -1
    else if s[0] == c then 0
    else
      var i := FirstIndex(s[1..], c);
      assert s == [s[0]] + s[1..];
      assert i != -1 ==> s[..i + 1] == [s[0]] + s[1..][..i];
      if i == -1 then -1 else i + 1
  }

  // Go's net.SplitHostPort; None stands for any of its errors.
  function SplitHostPort(hostport: string): Option<(string, string)> {
    var i := LastIndex(hostport, ':');
    if i < 0 then None
    else if hostport[0] == '[' then
      var end := FirstIndex(hostport, ']');
      if end < 0 || end + 1 != i || '[' in hostport[1..] || ']' in hostport[end + 1..] then None
      else Some((hostport[1..end], hostport[i + 1..]))
    else if ':' in hostport[..i] || '[' in hostport || ']' in hostport then None
    else Some((hostport[..i], hostport[i + 1..]))
  }

  // What the callers of SplitHostPort keep: the host part, or the whole text if there is none.
  function HostPart(text: string): string {
    match SplitHostPort(text)
    case Some((h, _)) => h
    case None => text
  }

  predicate Plain(s: string) {
    ':' !in s && '[' !in s && ']' !in s
  }

  lemma LastIndexIs(s: string, c: char, i: nat)
    requires i < |s| && s[i] == c && c !in s[i + 1..]
    ensures LastIndex(s, c) == i
  {
  }

  lemma FirstIndexIs(s: string, c: char, i: nat)
    requires i < |s| && s[i] == c && c !in s[..i]
    ensures FirstIndex(s, c) == i
  {
  }

  function Bracketed(host: string): string { "[" + host + "]" }

  // What a text must look like to be split: host:port with nothing special in either, or
  // [host]:port with a host that may contain colons.
  ghost predicate Joins(text: string, host: string, port: string) {
    && Plain(port)
    && ((Plain(host) && text == host + ":" + port)
        || ('[' !in host && ']' !in host && text == Bracketed(host) + ":" + port))
  }

  lemma SplitJoins(text: string)
    ensures var r := SplitHostPort(text); r.Some? ==> Joins(text, r.value.0, r.value.1)
  {
    var r, i := SplitHostPort(text), LastIndex(text, ':');
    if r.Some? {
      assert text == text[..i] + ":" + text[i + 1..];
      if text[0] == '[' {
        assert text[..i] == Bracketed(r.value.0);
      }
    }
  }

  lemma PlainSplits(host: string, port: string)
    requires Plain(host) && Plain(port)
    ensures SplitHostPort(host + ":" + port) == Some((host, port))
  {
    var text := host + ":" + port;
    assert text[..|host|] == host && text[|host| + 1..] == port;
    LastIndexIs(text, ':', |host|);
    assert text[0] == if host == "" then ':' else host[0];
  }

  lemma BracketedParts(host: string, port: string)
    ensures var text, n := Bracketed(host) + ":" + port, |host| + 1;
            && |text| == n + 2 + |port| && text[0] == '[' && text[n] == ']' && text[n + 1] == ':'
            && text[1..n] == host && text[n + 2..] == port
            && text[..n] == "[" + host && text[1..] == host + "]:" + port && text[n + 1..] == ":" + port
  {
  }

  lemma BracketedSplits(host: string, port: string)
    requires '[' !in host && ']' !in host && Plain(port)
    ensures SplitHostPort(Bracketed(host) + ":" + port) == Some((host, port))
  {
    var text, n := Bracketed(host) + ":" + port, |host| + 1;
    BracketedParts(host, port);
    LastIndexIs(text, ':', n + 1);
    FirstIndexIs(text, ']', n);
  }

  // The parser splits exactly the texts of those two forms, and in just that way.
  lemma SplitHostPortIff(text: string, host: string, port: string)
    ensures SplitHostPort(text) == Some((host, port)) <==> Joins(text, host, port)
    ensures Joins(text, host, port) ==> HostPart(text) == host
  {
    SplitJoins(text);
    if Plain(host) && Plain(port) {
      PlainSplits(host, port);
    }
    if Joins(text, host, port) && text != host + ":" + port {
      BracketedSplits(host, port);
    }
  }

  // A text is its own host part exactly when it does not split, and a host with a port appended
  // gives the host back exactly when there is no colon and no bracket in either.
  lemma HostPartIff(host: string, port: string)
    ensures HostPart(host) == host <==> SplitHostPort(host) == None
    ensures HostPart(host + ":" + port) == host <==> Plain(host) && Plain(port)
  {
    SplitJoins(host);
    var text := host + ":" + port;
    SplitJoins(text);
    if Plain(host) && Plain(port) {
      PlainSplits(host, port);
    }
  }

  // ---------- Subdomains ----------

  predicate HasSuffix(s: string, suffix: string) {
    |suffix| <= |s| && s[|s| - |suffix|..] == suffix
  }

  function SubdomainFromHost(hostport: string, base: string): Option<string> {
    var host := HostPart(hostport);
    var suffix := "." + base;
    if !HasSuffix(host, suffix) then None
    else
      var sub := host[..|host| - |suffix|];
      if sub == "" then None else Some(sub)
  }

  function HostOf(sub: string, base: string): string {
    sub + "." + base
  }

  // A request reaches a subdomain exactly when its host part is the host handed out for it.
  lemma ResolvesOnlyItsOwnHost(hostport: string, base: string, sub: string)
    ensures SubdomainFromHost(hostport, base) == Some(sub) <==> sub != "" && HostPart(hostport) == sub + "." + base
    ensures HostOf(sub, base) == sub + "." + base
  {
    var host, suffix := HostPart(hostport), "." + base;
    assert HostOf(sub, base) == sub + suffix;
    if HasSuffix(host, suffix) {
      assert host == host[..|host| - |suffix|] + suffix;
    }
    if host == sub + suffix {
      assert host[|sub|..] == suffix && host[..|sub|] == sub;
    }
  }

  // The host handed out for a subdomain leads back to it exactly when it cannot itself be read as
  // a host with a port. Subdomain names are not validated, so a claimed name may contain colons.
  lemma HostResolvesIff(sub: string, base: string)
    ensures SubdomainFromHost(HostOf(sub, base), base) == Some(sub)
            <==> sub != "" && SplitHostPort(HostOf(sub, base)) == None
  {
    ResolvesOnlyItsOwnHost(HostOf(sub, base), base, sub);
    HostPartIff(HostOf(sub, base), "");
  }

  // With a port appended it does so exactly when there is no colon and no bracket anywhere in it.
  lemma HostWithPortResolvesIff(sub: string, base: string, port: string)
    ensures SubdomainFromHost(HostOf(sub, base) + ":" + port, base) == Some(sub)
            <==> sub != "" && Plain(HostOf(sub, base)) && Plain(port)
  {
    ResolvesOnlyItsOwnHost(HostOf(sub, base) + ":" + port, base, sub);
    HostPartIff(HostOf(sub, base), port);
  }

  lemma ColonIsInTheName(sub: string, suffix: string, left: string, port: string) returns (right: string)
    requires Plain(suffix) && Plain(port) && sub + suffix == left + ":" + port
    ensures Plain(right) && sub == left + ":" + right
  {
    var text, n := sub + suffix, |left|;
    assert text[n] == ':';
    assert n < |sub| by {
      assert ':' !in text[|sub|..];
    }
    right := port[..|sub| - n - 1];
    assert sub == text[..|sub|] == left + ":" + right;
  }

  // What follows a plain suffix of a split text belongs to the port, and conversely.
  lemma SuffixJoins(sub: string, suffix: string, host: string, port: string)
    requires Plain(suffix) && Joins(sub, host, port)
    ensures Joins(sub + suffix, host, port + suffix)
  {
    if Plain(host) && sub == host + ":" + port {
      assert sub + suffix == host + ":" + (port + suffix);
    } else {
      assert sub + suffix == Bracketed(host) + ":" + (port + suffix);
    }
  }

  lemma SuffixUnjoins(sub: string, suffix: string, host: string, port: string) returns (right: string)
    requires Plain(suffix) && Joins(sub + suffix, host, port)
    ensures Joins(sub, host, right)
  {
    if Plain(host) && sub + suffix == host + ":" + port {
      right := ColonIsInTheName(sub, suffix, host, port);
    } else {
      right := ColonIsInTheName(sub, suffix, Bracketed(host), port);
    }
  }

  lemma SuffixedSplitsIff(sub: string, suffix: string)
    requires Plain(suffix)
    ensures SplitHostPort(sub + suffix) == None <==> SplitHostPort(sub) == None
  {
    if SplitHostPort(sub).Some? {
      var (host, port) := SplitHostPort(sub).value;
      SplitHostPortIff(sub, host, port);
      SuffixJoins(sub, suffix, host, port);
      SplitHostPortIff(sub + suffix, host, port + suffix);
    }
    if SplitHostPort(sub + suffix).Some? {
      var (host, port) := SplitHostPort(sub + suffix).value;
      SplitHostPortIff(sub + suffix, host, port);
      var right := SuffixUnjoins(sub, suffix, host, port);
      SplitHostPortIff(sub, host, right);
    }
  }

  // In terms of the name: names are not validated when they are claimed or registered, and under an
  // ordinary base the host handed out for a name leads back to it exactly unless the name itself
  // reads as a host with a port, as a name with a single colon does.
  lemma NameResolvesIff(sub: string, base: string)
    requires Plain(base)
    ensures SubdomainFromHost(HostOf(sub, base), base) == Some(sub) <==> sub != "" && SplitHostPort(sub) == None
  {
    HostResolvesIff(sub, base);
    assert HostOf(sub, base) == sub + ("." + base);
    SuffixedSplitsIff(sub, "." + base);
  }

  lemma ColonNameMissesItsHost(left: string, right: string, base: string)
    requires Plain(left) && Plain(right) && Plain(base)
    ensures SubdomainFromHost(HostOf(left + ":" + right, base), base) != Some(left + ":" + right)
  {
    PlainSplits(left, right);
    NameResolvesIff(left + ":" + right, base);
  }

  // ---------- Allowlists ----------

  predicate IpAllowed(remoteAddr: string, allow: seq<string>) {
    allow == [] || HostPart(remoteAddr) in allow
  }

  method CheckIp(remoteAddr: string, allow: seq<string>) returns (ok: bool)
    ensures ok == IpAllowed(remoteAddr, allow)
    ensures ok <==> allow == [] || HostPart(remoteAddr) in allow
  {
    if |allow| == 0 {
      return true;
    }
    var ip := HostPart(remoteAddr);
    for i := 0 to |allow|
      invariant ip !in allow[..i]
    {
      if allow[i] == ip {
        return true;
      }
    }
    return false;
  }

  // ---------- Generated passwords ----------

  const PASSWORD_ALPHABET := "0123456789ABCDEFGHIJKLMNOPQRSTUVWXYZabcdefghijklmnopqrstuvwxyz"

  // The server draws sixteen random bytes; none of them can make the password short or odd.
  method GeneratePassword(random: seq<byte>) returns (password: string)
    requires |random| == 16
    ensures |password| == 16
    ensures forall i :: 0 <= i < 16 ==>
              password[i] == "0123456789ABCDEFGHIJKLMNOPQRSTUVWXYZabcdefghijklmnopqrstuvwxyz"[random[i] % 62]
  {
    assert |PASSWORD_ALPHABET| == 62;
    password := "";
    for i := 0 to 16
      invariant |password| == i
      invariant forall k :: 0 <= k < i ==> password[k] == PASSWORD_ALPHABET[random[k] % 62]
    {
      password := password + [PASSWORD_ALPHABET[random[i] % |PASSWORD_ALPHABET|]];
    }
  }

  // ---------- Public addresses ----------

  function Decimal(n: nat): string {
    if n < 10 then [('0' as int + n) as char] else Decimal(n / 10) + [('0' as int + n % 10) as char]
  }

  function FromDecimal(s: string): int {
    if s == "" then 0 else FromDecimal(s[..|s| - 1]) * 10 + (s[|s| - 1] as int - '0' as int)
  }

  // The printed port is the port, so tunnels on different ports have different addresses.
  lemma {:induction false} DecimalRoundTrip(n: nat)
    ensures Decimal(n) != "" && FromDecimal(Decimal(n)) == n
    ensures forall i :: 0 <= i < |Decimal(n)| ==> '0' <= Decimal(n)[i] <= '9'
    ensures n >= 10 ==> Decimal(n)[0] != '0' && Decimal(n)[..|Decimal(n)| - 1] == Decimal(n / 10)
    ensures Decimal(n)[|Decimal(n)| - 1] as int == '0' as int + n % 10 && (n < 10 ==> |Decimal(n)| == 1)
  {
    if n >= 10 {
      DecimalRoundTrip(n / 10);
      assert Decimal(n)[..|Decimal(n)| - 1] == Decimal(n / 10);
    } else {
      assert Decimal(n)[..0] == "";
    }
  }
}
