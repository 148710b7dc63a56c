/**
 Properties of the lifecycle machine that span a run: a refused registration is undone, an accepted
 one stays routed until its own session disconnects, and cleanup completes.
 */
module LifecycleRuns {
  import opened Wrappers
  import opened Protocol
  import opened RoutingTables
  import opened Lifecycle
  import opened LifecycleSafety

  // ---------- What the handler answers ----------

  datatype Answer = Accepted(tn: Tunnel) | Refused

  // The answer a step sends to the session's client, if that step ends a registration.
  function AnswerOf(range: PortRange, st: State, a: Action): Option<Answer>
    requires Enabled(st, a)
  {
    match a
    case Register(s, req, generated, env) =>
      (match RoutingTables.Register(st.tables, range, req, s, PasswordFor(req, generated), env).outcome
       case Err(_) => Some(Refused)
       case Ok(tn) =>
         if tn.typ == HTTP then Some(Accepted(tn)) else None)
    case Insert(s) => Some(Accepted(st.phase[s].tn))
    case Rollback(s) => Some(Refused)
    case _ => None
  }

  // ---------- Nothing comes back ----------

  ghost predicate Absent<K>(m: map<K, Tunnel>, id: string) {
    forall k :: k in m ==> m[k].id != id
  }

  ghost predicate Mentions(ph: Phase, id: string) {
    || ((ph.Binding? || ph.Inserting? || ph.RollingBack?) && ph.tn.id == id)
    || (ph.Closing? && ph.ln.id == id)
  }

  // The tunnel once issued under this identifier is nowhere any more.
  ghost predicate Gone(st: State, id: string) {
    && id in st.issued
    && Absent(st.tables.http, id) && Absent(st.tables.tcp, id) && Absent(st.listeners, id) && Absent(st.live, id)
    && (forall s :: s in st.phase ==> !Mentions(st.phase[s], id))
  }

  lemma GoneStaysGone(range: PortRange, st: State, a: Action, id: string)
    requires Enabled(st, a) && Gone(st, id)
    ensures Gone(Step(range, st, a), id)
  {
    if a.Register? {
      RegisterAddsAtMostOne(st.tables, range, a.req, a.s, PasswordFor(a.req, a.generated), a.env);
    }
  }

  lemma {:induction false} GoneForever(range: PortRange, st: State, acts: seq<Action>, id: string)
    requires Legal(range, st, acts) && Gone(st, id)
    ensures Gone(Run(range, st, acts), id)
    decreases |acts|
  {
    if acts != [] {
      GoneStaysGone(range, st, acts[0], id);
      GoneForever(range, Step(range, st, acts[0]), acts[1..], id);
    }
  }

  // ---------- A refused registration leaves no trace ----------

  ghost function Minus<K>(m: map<K, Tunnel>, id: string): map<K, Tunnel> {
    map k | k in m && m[k].id != id :: m[k]
  }

  // Apart from the tunnel in progress, the session has exactly what it had in st0.
  ghost predicate SameExcept(st0: State, st: State, s: SessionId, id: string) {
    && Minus(Of(st.tables.http, s), id) == Of(st0.tables.http, s)
    && Minus(Of(st.tables.tcp, s), id) == Of(st0.tables.tcp, s)
    && Minus(Of(st.listeners, s), id) == Of(st0.listeners, s)
    && Minus(Of(st.live, s), id) == Of(st0.live, s)
  }

  ghost predicate Same(st0: State, st: State, s: SessionId) {
    && Of(st.tables.http, s) == Of(st0.tables.http, s)
    && Of(st.tables.tcp, s) == Of(st0.tables.tcp, s)
    && Of(st.listeners, s) == Of(st0.listeners, s)
    && Of(st.live, s) == Of(st0.live, s)
  }

  ghost predicate InProgress(st: State, s: SessionId, id: string) {
    && s in st.phase && (st.phase[s].Binding? || st.phase[s].Inserting? || st.phase[s].RollingBack?)
    && st.phase[s].tn.id == id
  }

  lemma OfOther<K>(m: map<K, Tunnel>, m': map<K, Tunnel>, r: SessionId, s: SessionId)
    requires NotOf(m, r) == NotOf(m', r) && r != s
    ensures Of(m, s) == Of(m', s)
  {
    forall k ensures k in Of(m, s) <==> k in Of(m', s) {
      assert k in Of(m, s) ==> k in NotOf(m, r);
      assert k in Of(m', s) ==> k in NotOf(m', r);
    }
    forall k | k in Of(m, s) ensures Of(m, s)[k] == Of(m', s)[k] {
      assert k in NotOf(m, r) && NotOf(m, r)[k] == m[k];
      assert k in NotOf(m', r) && NotOf(m', r)[k] == m'[k];
    }
  }

  lemma OtherStepKeepsSame(range: PortRange, st: State, a: Action, s: SessionId)
    requires Inv(st, range) && Enabled(st, a) && a.s != s
    ensures Same(st, Step(range, st, a), s)
    ensures s in st.phase ==> s in Step(range, st, a).phase && Step(range, st, a).phase[s] == st.phase[s]
  {
    var st' := Step(range, st, a);
    StepTouchesOnlyItsOwn(range, st, a);
    OfOther(st'.tables.http, st.tables.http, a.s, s);
    OfOther(st'.tables.tcp, st.tables.tcp, a.s, s);
    OfOther(st'.listeners, st.listeners, a.s, s);
    OfOther(st'.live, st.live, a.s, s);
  }

  ghost predicate NoneBy(acts: seq<Action>, s: SessionId) {
    forall i :: 0 <= i < |acts| ==> acts[i].s != s
  }

  // While a handler waits, the others may take any number of steps; none of them shows.
  lemma {:induction false} OthersRunKeepsSame(range: PortRange, st: State, acts: seq<Action>, s: SessionId)
    requires Inv(st, range) && Legal(range, st, acts) && NoneBy(acts, s)
    ensures Same(st, Run(range, st, acts), s)
    ensures Inv(Run(range, st, acts), range)
    ensures s in st.phase ==> s in Run(range, st, acts).phase && Run(range, st, acts).phase[s] == st.phase[s]
    decreases |acts|
  {
    if acts != [] {
      assert acts[0].s != s;
      OtherStepKeepsSame(range, st, acts[0], s);
      StepKeepsInv(range, st, acts[0]);
      assert forall i :: 0 <= i < |acts[1..]| ==> acts[1..][i] == acts[i + 1];
      OthersRunKeepsSame(range, Step(range, st, acts[0]), acts[1..], s);
    }
  }

  lemma FreshIsAbsent(range: PortRange, st: State, id: string)
    requires Inv(st, range) && id !in st.issued
    ensures Absent(st.tables.http, id) && Absent(st.tables.tcp, id) && Absent(st.listeners, id) && Absent(st.live, id)
  {
    forall k | k in st.tables.http ensures st.tables.http[k].id != id { assert HttpOk(st, k); }
    forall p | p in st.tables.tcp ensures st.tables.tcp[p].id != id { assert TcpOk(st, range, p); }
    forall p | p in st.listeners ensures st.listeners[p].id != id { assert ListenerOk(st, p); }
    forall p | p in st.live ensures st.live[p].id != id { assert LiveOk(st, p); }
  }

  // A registration that does not answer at once is in progress, and has added nothing else.
  lemma RegisterStarts(range: PortRange, st: State, a: Action)
    requires Inv(st, range) && Enabled(st, a) && a.Register? && AnswerOf(range, st, a) == None
    ensures InProgress(Step(range, st, a), a.s, a.env.id)
    ensures SameExcept(st, Step(range, st, a), a.s, a.env.id)
  {
    FreshIsAbsent(range, st, a.env.id);
    RegisterAddsAtMostOne(st.tables, range, a.req, a.s, PasswordFor(a.req, a.generated), a.env);
  }

  lemma OwnStepKeepsInProgress(range: PortRange, st0: State, st: State, a: Action, id: string)
    requires Inv(st, range) && Enabled(st, a) && InProgress(st, a.s, id) && SameExcept(st0, st, a.s, id)
    requires AnswerOf(range, st, a) == None
    ensures InProgress(Step(range, st, a), a.s, id) && SameExcept(st0, Step(range, st, a), a.s, id)
  {
    if a.BindOk? {
      var st' := Step(range, st, a);
      assert Minus(Of(st'.live, a.s), id) == Minus(Of(st.live, a.s), id);
    }
  }

  lemma RollbackForgets(range: PortRange, st: State, s: SessionId)
    requires Inv(st, range) && s in st.phase && st.phase[s].RollingBack?
    ensures Gone(Step(range, st, Rollback(s)), st.phase[s].tn.id)
  {
    var tn, st' := st.phase[s].tn, Step(range, st, Rollback(s));
    assert PhaseOk(st, s);
    forall p | p in st.listeners ensures st.listeners[p].id != tn.id { assert ListenerOk(st, p); }
    forall p | p in st.live ensures st.live[p].id != tn.id { assert LiveOk(st, p); }
    forall r | r in st'.phase ensures !Mentions(st'.phase[r], tn.id) { assert PhaseOk(st, r); }
  }

  lemma RollbackErases(range: PortRange, st0: State, st: State, s: SessionId)
    requires Inv(st, range) && s in st.phase && st.phase[s].RollingBack?
    requires SameExcept(st0, st, s, st.phase[s].tn.id)
    ensures Same(st0, Step(range, st, Rollback(s)), s)
    ensures Gone(Step(range, st, Rollback(s)), st.phase[s].tn.id)
  {
    var id, st' := st.phase[s].tn.id, Step(range, st, Rollback(s));
    RollbackForgets(range, st, s);
    assert Of(st'.listeners, s) == Minus(Of(st.listeners, s), id);
    assert Of(st'.live, s) == Minus(Of(st.live, s), id);
    assert Of(st'.tables.http, s) == Minus(Of(st.tables.http, s), id);
    assert Of(st'.tables.tcp, s) == Minus(Of(st.tables.tcp, s), id);
  }

  // The session's answer comes with the last of these steps, and is a refusal.
  ghost predicate EndsRefused(range: PortRange, st: State, s: SessionId, acts: seq<Action>)
    requires Legal(range, st, acts)
    decreases |acts|
  {
    && acts != []
    && if |acts| == 1 then acts[0].s == s && AnswerOf(range, st, acts[0]) == Some(Refused)
       else (acts[0].s == s ==> AnswerOf(range, st, acts[0]) == None)
            && EndsRefused(range, Step(range, st, acts[0]), s, acts[1..])
  }

  lemma {:induction false} RefusalErases(range: PortRange, st0: State, st: State, s: SessionId, id: string, acts: seq<Action>)
    requires Inv(st, range) && Legal(range, st, acts) && EndsRefused(range, st, s, acts)
    requires InProgress(st, s, id) && SameExcept(st0, st, s, id)
    ensures Same(st0, Run(range, st, acts), s) && Gone(Run(range, st, acts), id)
    decreases |acts|
  {
    var a := acts[0];
    var st' := Step(range, st, a);
    if |acts| == 1 {
      RollbackErases(range, st0, st, s);
    } else {
      if a.s == s {
        OwnStepKeepsInProgress(range, st0, st, a, id);
      } else {
        OtherStepKeepsSame(range, st, a, s);
      }
      StepKeepsInv(range, st, a);
      RefusalErases(range, st0, st', s, id, acts[1..]);
    }
  }

  // Whatever the other sessions do between a registration and its refusal, when the client is
  // refused its session has exactly the routes, map entries and live listeners it had before, and
  // the tunnel created for it is nowhere, then and for ever.
  lemma RefusedRegistrationLeavesNoTrace(range: PortRange, st: State, s: SessionId, acts: seq<Action>, later: seq<Action>)
    requires Reachable(range, st) && Legal(range, st, acts) && acts != [] && acts[0].Register? && acts[0].s == s
    requires EndsRefused(range, st, s, acts)
    requires Legal(range, Run(range, st, acts), later)
    ensures Same(st, Run(range, st, acts), s)
    ensures |acts| > 1 ==> Gone(Run(range, Run(range, st, acts), later), acts[0].env.id)
    ensures |acts| == 1 ==> Run(range, st, acts) == st
  {
    ReachableInv(range, st);
    if |acts| > 1 {
      RegisterStarts(range, st, acts[0]);
      StepKeepsInv(range, st, acts[0]);
      RefusalErases(range, st, Step(range, st, acts[0]), s, acts[0].env.id, acts[1..]);
      GoneForever(range, Run(range, st, acts), later, acts[0].env.id);
    } else {
      RegisterAddsAtMostOne(st.tables, range, acts[0].req, s, PasswordFor(acts[0].req, acts[0].generated), acts[0].env);
    }
  }

  // ---------- An accepted one stays until its own session disconnects ----------

  ghost predicate Disconnects(acts: seq<Action>, s: SessionId) {
    exists i :: 0 <= i < |acts| && acts[i].Disconnect? && acts[i].s == s
  }

  ghost predicate RoutesHttp(st: State, tn: Tunnel) {
    tn.typ == HTTP && tn.subdomain in st.tables.http && st.tables.http[tn.subdomain] == tn
  }

  // The port is registered, in the listener map and bound, all for the same tunnel.
  ghost predicate RoutesTcp(st: State, tn: Tunnel) {
    && tn.port in st.tables.tcp && st.tables.tcp[tn.port] == tn
    && tn.port in st.listeners && st.listeners[tn.port] == tn
    && tn.port in st.live && st.live[tn.port] == tn
  }

  // An acceptance is answered only when the route is in place.
  lemma AcceptedIsRouted(range: PortRange, st: State, a: Action)
    requires Reachable(range, st) && Enabled(st, a)
    requires AnswerOf(range, st, a).Some? && AnswerOf(range, st, a).value.Accepted?
    ensures var tn := AnswerOf(range, st, a).value.tn;
            && tn.session == a.s
            && (RoutesHttp(Step(range, st, a), tn) || RoutesTcp(Step(range, st, a), tn))
  {
    ReachableInv(range, st);
    match a
    case Register(s, req, generated, env) =>
      RegisterAddsAtMostOne(st.tables, range, req, s, PasswordFor(req, generated), env);
    case Insert(s) => assert PhaseOk(st, s);
  }

  lemma HttpRouteStep(range: PortRange, st: State, a: Action, tn: Tunnel)
    requires Inv(st, range) && Enabled(st, a) && RoutesHttp(st, tn)
    ensures !(a.Disconnect? && a.s == tn.session) ==> RoutesHttp(Step(range, st, a), tn)
    ensures a.Disconnect? && a.s == tn.session ==> Absent(Step(range, st, a).tables.http, tn.id)
    ensures tn.id in Step(range, st, a).issued
  {
    assert HttpOk(st, tn.subdomain);
    match a
    case Register(s, req, generated, env) =>
      RegisterAddsAtMostOne(st.tables, range, req, s, PasswordFor(req, generated), env);
    case Rollback(s) => RollbackRemovesOne(range, st, s);
    case Disconnect(s, _) =>
      forall k | k in st.tables.http && st.tables.http[k].id == tn.id ensures st.tables.http[k].session == tn.session {
        assert HttpOk(st, k);
      }
    case _ =>
  }

  lemma {:induction false} UnroutedForever(range: PortRange, st: State, acts: seq<Action>, id: string)
    requires Legal(range, st, acts) && id in st.issued
    ensures Absent(st.tables.http, id) ==> Absent(Run(range, st, acts).tables.http, id)
    ensures Absent(st.tables.tcp, id) ==> Absent(Run(range, st, acts).tables.tcp, id)
    decreases |acts|
  {
    if acts != [] {
      var a := acts[0];
      if a.Register? {
        RegisterAddsAtMostOne(st.tables, range, a.req, a.s, PasswordFor(a.req, a.generated), a.env);
      }
      UnroutedForever(range, Step(range, st, a), acts[1..], id);
    }
  }

  lemma DisconnectsSplit(acts: seq<Action>, s: SessionId)
    requires acts != []
    ensures Disconnects(acts, s) <==> (acts[0].Disconnect? && acts[0].s == s) || Disconnects(acts[1..], s)
  {
    if Disconnects(acts, s) {
      var i :| 0 <= i < |acts| && acts[i].Disconnect? && acts[i].s == s;
      assert i == 0 || acts[1..][i - 1] == acts[i];
    }
    if Disconnects(acts[1..], s) {
      var i :| 0 <= i < |acts[1..]| && acts[1..][i].Disconnect? && acts[1..][i].s == s;
      assert acts[i + 1] == acts[1..][i];
    }
  }

  // Over any run, an http route is still in place at the end exactly when its own session has not
  // disconnected on the way, whatever the other sessions registered, rolled back or dropped.
  lemma {:induction false} HttpRouteStable(range: PortRange, st: State, acts: seq<Action>, tn: Tunnel)
    requires Inv(st, range) && Legal(range, st, acts) && RoutesHttp(st, tn)
    ensures RoutesHttp(Run(range, st, acts), tn) <==> !Disconnects(acts, tn.session)
    decreases |acts|
  {
    if acts != [] {
      var a, st' := acts[0], Step(range, st, acts[0]);
      DisconnectsSplit(acts, tn.session);
      HttpRouteStep(range, st, a, tn);
      if a.Disconnect? && a.s == tn.session {
        UnroutedForever(range, st', acts[1..], tn.id);
      } else {
        StepKeepsInv(range, st, a);
        HttpRouteStable(range, st', acts[1..], tn);
      }
    }
  }

  lemma TcpRouteStep(range: PortRange, st: State, a: Action, tn: Tunnel)
    requires Inv(st, range) && Enabled(st, a) && RoutesTcp(st, tn)
    ensures !(a.Disconnect? && a.s == tn.session) ==> RoutesTcp(Step(range, st, a), tn)
    ensures a.Disconnect? && a.s == tn.session ==> Absent(Step(range, st, a).tables.tcp, tn.id)
    ensures tn.id in Step(range, st, a).issued
  {
    assert TcpOk(st, range, tn.port);
    if a.s in st.phase {
      assert PhaseOk(st, a.s);
    }
    match a
    case Register(s, req, generated, env) =>
      RegisterAddsAtMostOne(st.tables, range, req, s, PasswordFor(req, generated), env);
    case Rollback(s) => RollbackRemovesOne(range, st, s);
    case Take(s) => assert st.phase[s].ports[0] in st.phase[s].ports;
    case Disconnect(s, _) =>
      forall p | p in st.tables.tcp && st.tables.tcp[p].id == tn.id ensures st.tables.tcp[p].session == tn.session {
        assert TcpOk(st, range, p);
      }
    case _ =>
  }

  lemma {:induction false} TcpRouteStable(range: PortRange, st: State, acts: seq<Action>, tn: Tunnel)
    requires Inv(st, range) && Legal(range, st, acts) && RoutesTcp(st, tn)
    ensures RoutesTcp(Run(range, st, acts), tn) <==> !Disconnects(acts, tn.session)
    decreases |acts|
  {
    if acts != [] {
      var a, st' := acts[0], Step(range, st, acts[0]);
      DisconnectsSplit(acts, tn.session);
      TcpRouteStep(range, st, a, tn);
      if a.Disconnect? && a.s == tn.session {
        UnroutedForever(range, st', acts[1..], tn.id);
      } else {
        StepKeepsInv(range, st, a);
        TcpRouteStable(range, st', acts[1..], tn);
      }
    }
  }

  // ---------- Cleanup completes ----------

  // Steps a leaving session's handler still has to take.
  function Work(ph: Phase): nat {
    match ph
    case Cleaning(ports) => 2 * |ports| + 1
    case Closing(_, ports) => 2 * |ports| + 2
    case _ => 0
  }

  function NextCleanup(ph: Phase, s: SessionId): Action {
    match ph
    case Closing(_, _) => Close(s)
    case Cleaning(ports) => if ports == [] then Finish(s) else Take(s)
    case _ => Finish(s)
  }

  function StepsOf(acts: seq<Action>, s: SessionId): nat {
    if acts == [] then 0 else (if acts[0].s == s then 1 else 0) + StepsOf(acts[1..], s)
  }

  // The handler of a leaving session always has exactly one step it can take, and that step
  // brings it one nearer to the end; nobody else can hold it up.
  lemma CleanupAdvances(range: PortRange, st: State, s: SessionId, a: Action)
    requires Inv(st, range) && s in st.phase && (st.phase[s].Cleaning? || st.phase[s].Closing?)
    ensures Enabled(st, NextCleanup(st.phase[s], s))
    ensures Enabled(st, a) && a.s == s ==>
              a == NextCleanup(st.phase[s], s) && Work(Step(range, st, a).phase[s]) == Work(st.phase[s]) - 1
    ensures Enabled(st, a) && a.s != s ==>
              s in Step(range, st, a).phase && Step(range, st, a).phase[s] == st.phase[s]
  {
    assert PhaseOk(st, s);
    if Enabled(st, a) {
      if a.s == s {
        if a.Take? {
          assert st.phase[s].ports[0] in st.phase[s].ports;
        }
      } else {
        OtherStepKeepsSame(range, st, a, s);
      }
    }
  }

  lemma {:induction false} CleanupCompletes(range: PortRange, st: State, s: SessionId, acts: seq<Action>)
    requires Inv(st, range) && Legal(range, st, acts)
    requires s in st.phase && (st.phase[s].Cleaning? || st.phase[s].Closing? || st.phase[s].Finished?)
    ensures s in Run(range, st, acts).phase
    ensures StepsOf(acts, s) <= Work(st.phase[s])
    ensures Run(range, st, acts).phase[s].Finished? <==> StepsOf(acts, s) == Work(st.phase[s])
    decreases |acts|
  {
    if acts != [] {
      var a, st' := acts[0], Step(range, st, acts[0]);
      StepKeepsInv(range, st, a);
      if st.phase[s].Finished? {
        OtherStepKeepsSame(range, st, a, s);
      } else {
        CleanupAdvances(range, st, s, a);
      }
      CleanupCompletes(range, st', s, acts[1..]);
    }
  }

  // ---------- Privacy ----------

  // In every reachable state, whatever can receive public traffic and is private has its guard:
  // a listener its allowlist, an http route its password.
  lemma PrivateTunnelsAreGuarded(range: PortRange, st: State)
    requires Reachable(range, st)
    ensures forall k :: k in st.tables.http && st.tables.http[k].private ==> st.tables.http[k].password != ""
    ensures forall p :: p in st.live && st.live[p].private ==> st.live[p].allowIPs != []
  {
    ReachableInv(range, st);
    forall k | k in st.tables.http && st.tables.http[k].private ensures st.tables.http[k].password != "" {
      assert HttpOk(st, k);
      assert IssuedOk(st, st.tables.http[k].id);
    }
    forall p | p in st.live && st.live[p].private ensures st.live[p].allowIPs != [] {
      assert LiveOk(st, p);
      assert IssuedOk(st, st.live[p].id);
    }
  }
}
