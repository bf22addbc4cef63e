/** The provider registry (packages/acip_gateway/registry.py): a snapshot of the
    admin tables cached for a while, and the chain built from it. */
module Registry {
  import opened Wrappers
  import opened Failover

  /** A row of ai_routes joined with its model and provider; NULL is None. */
  datatype Route = Route(task: string, provider: string, model: string, isLocal: bool,
                         maxRetries: Option<int>, backoffMs: Option<nat>)

  /** What one load reads: routes in (task, position) order and the switch's row. */
  datatype Tables = Tables(routes: seq<Route>, failover: Option<bool>)

  datatype Snapshot = Snapshot(byTask: map<string, seq<Endpoint>>, failover: bool, loadedAt: real)

  /** Python's `value or default`: an absent or zero value gives the default. */
  function OrElse(value: Option<nat>, fallback: nat): nat {
    if value.None? || value.value == 0 then fallback else value.value
  }

  function EndpointOf(r: Route): Endpoint {
    Endpoint(r.provider, r.model, r.isLocal, if r.maxRetries.None? then 0 else r.maxRetries.value,
             OrElse(r.backoffMs, 250))
  }

  /** The endpoints of one task, in route order. */
  function RoutesOf(routes: seq<Route>, task: string): seq<Endpoint> {
    if routes == [] then []
    else
      var init, r := RoutesOf(routes[..|routes| - 1], task), routes[|routes| - 1];
      if r.task == task then init + [EndpointOf(r)] else init
  }

  function TaskChain(byTask: map<string, seq<Endpoint>>, task: string): seq<Endpoint> {
    if task in byTask then byTask[task] else []
  }

  ghost predicate LoadedFrom(s: Snapshot, t: Tables) {
    && (forall task :: TaskChain(s.byTask, task) == RoutesOf(t.routes, task))
    && s.failover == (t.failover.None? || t.failover.value)
  }

  /** `_load`: groups the routes by task. */
  method Load(t: Tables, now: real) returns (s: Snapshot)
    ensures LoadedFrom(s, t) && s.loadedAt == now
  {
    var byTask: map<string, seq<Endpoint>> := map[];
    for i := 0 to |t.routes|
      invariant forall task :: TaskChain(byTask, task) == RoutesOf(t.routes[..i], task)
    {
      var r := t.routes[i];
      assert t.routes[..i + 1][..i] == t.routes[..i];
      byTask := byTask[r.task := TaskChain(byTask, r.task) + [EndpointOf(r)]];
    }
    assert t.routes[..|t.routes|] == t.routes;
    s := Snapshot(byTask, t.failover.None? || t.failover.value, now);
  }

  /** `_apply_failover_toggle`. */
  function Toggled(chain: seq<Endpoint>, enabled: bool): seq<Endpoint> {
    if enabled || |chain| <= 1 then chain
    else if chain[0].isLocal then [chain[0]]
    else
      var locals := OnlyLocal(chain[1..]);
      if locals != [] then [chain[0], locals[0]] else [chain[0]]
  }

  /** The chain of the environment: an optional frontier, then the local model. */
  datatype Env = Env(frontier: Option<Endpoint>, local: Endpoint)

  predicate EnvOk(env: Env) {
    env.local.isLocal && (env.frontier.Some? ==> !env.frontier.value.isLocal)
  }

  function EnvChain(env: Env): seq<Endpoint> {
    (if env.frontier.Some? then [env.frontier.value] else []) + [env.local]
  }

  function Chain(admin: seq<Endpoint>, failover: bool, env: Env): seq<Endpoint> {
    if admin == [] then EnvChain(env)
    else Toggled(if admin[|admin| - 1].isLocal then admin else admin + OnlyLocal(EnvChain(env)), failover)
  }

  // ---- what every configuration guarantees ---------------------------------------------------

  predicate Subsequence(s: seq<Endpoint>, t: seq<Endpoint>) {
    if s == [] then true
    else if t == [] then false
    else if s[|s| - 1] == t[|t| - 1] then Subsequence(s[..|s| - 1], t[..|t| - 1])
    else Subsequence(s, t[..|t| - 1])
  }

  lemma {:induction false} SubsequenceExtends(s: seq<Endpoint>, t: seq<Endpoint>, e: Endpoint)
    requires Subsequence(s, t)
    ensures Subsequence(s, t + [e]) && Subsequence(s + [e], t + [e])
    decreases |t|, 1
  {
    assert (t + [e])[..|t|] == t && (s + [e])[..|s|] == s;
    if s != [] && s[|s| - 1] == e {
      DropLast(s, t);
    }
  }

  lemma {:induction false} DropLast(s: seq<Endpoint>, t: seq<Endpoint>)
    requires s != [] && Subsequence(s, t)
    ensures Subsequence(s[..|s| - 1], t)
    decreases |t|, 0
  {
    var init, u := t[..|t| - 1], s[..|s| - 1];
    assert t == init + [t[|t| - 1]];
    if s[|s| - 1] == t[|t| - 1] {
      SubsequenceExtends(u, init, t[|t| - 1]);
    } else {
      DropLast(s, init);
      SubsequenceExtends(u, init, t[|t| - 1]);
    }
  }

  lemma {:induction false} SubsequenceReflexive(s: seq<Endpoint>)
    ensures Subsequence(s, s)
  {
    if s != [] {
      SubsequenceReflexive(s[..|s| - 1]);
    }
  }

  lemma {:induction false} SubsequenceAppends(s: seq<Endpoint>, t: seq<Endpoint>, u: seq<Endpoint>, v: seq<Endpoint>)
    requires Subsequence(s, t) && Subsequence(u, v)
    ensures Subsequence(s + u, t + v)
    decreases |v|
  {
    if v == [] {
      assert s + u == s && t + v == t;
    } else {
      var init, e := v[..|v| - 1], v[|v| - 1];
      assert t + v == (t + init) + [e];
      if u != [] && u[|u| - 1] == e {
        SubsequenceAppends(s, t, u[..|u| - 1], init);
        assert s + u == (s + u[..|u| - 1]) + [e];
      } else if u == [] {
        SubsequenceAppends(s, t, u, init);
      } else {
        SubsequenceAppends(s, t, u, init);
      }
      SubsequenceExtends(if u != [] && u[|u| - 1] == e then s + u[..|u| - 1] else s + u, t + init, e);
    }
  }

  lemma OnlyLocalStep(init: seq<Endpoint>, e: Endpoint)
    ensures OnlyLocal(init + [e]) == if e.isLocal then OnlyLocal(init) + [e] else OnlyLocal(init)
  {
    assert (init + [e])[..|init|] == init;
  }

  lemma {:induction false} OnlyLocalIsSubsequence(chain: seq<Endpoint>)
    ensures Subsequence(OnlyLocal(chain), chain)
  {
    if chain != [] {
      var init, e := chain[..|chain| - 1], chain[|chain| - 1];
      OnlyLocalIsSubsequence(init);
      LastJoins(OnlyLocal(init), init, e);
      OnlyLocalStep(init, e);
      assert chain == init + [e];
    }
  }

  lemma LastJoins(s: seq<Endpoint>, t: seq<Endpoint>, e: Endpoint)
    requires Subsequence(s, t)
    ensures Subsequence(if e.isLocal then s + [e] else s, t + [e])
  {
    SubsequenceExtends(s, t, e);
  }

  lemma {:induction false} SingletonIsSubsequence(chain: seq<Endpoint>, i: nat)
    requires i < |chain|
    ensures Subsequence([chain[i]], chain)
    decreases |chain|
  {
    if i < |chain| - 1 && chain[i] != chain[|chain| - 1] {
      SingletonIsSubsequence(chain[..|chain| - 1], i);
    }
  }

  lemma {:induction false} SubsequenceTrans(r: seq<Endpoint>, s: seq<Endpoint>, t: seq<Endpoint>)
    requires Subsequence(r, s) && Subsequence(s, t)
    ensures Subsequence(r, t)
    decreases |s| + |t|
  {
    if r != [] && s != [] {
      if s[|s| - 1] == t[|t| - 1] {
        var e := t[|t| - 1];
        assert t == t[..|t| - 1] + [e];
        if r[|r| - 1] == e {
          SubsequenceTrans(r[..|r| - 1], s[..|s| - 1], t[..|t| - 1]);
        } else {
          SubsequenceTrans(r, s[..|s| - 1], t[..|t| - 1]);
        }
      } else {
        SubsequenceTrans(r, s, t[..|t| - 1]);
        assert t == t[..|t| - 1] + [t[|t| - 1]];
        SubsequenceExtends(r, t[..|t| - 1], t[|t| - 1]);
      }
    }
  }

  /** The switch keeps order and membership, and a chain that ends local keeps
      doing so; switched off it leaves the primary and the first local after it. */
  lemma ToggleKeepsTerminal(chain: seq<Endpoint>, enabled: bool)
    requires EndsLocal(chain)
    ensures EndsLocal(Toggled(chain, enabled))
    ensures Toggled(chain, enabled)[0] == chain[0]
    ensures !enabled ==> |Toggled(chain, enabled)| == if chain[0].isLocal then 1 else 2
    ensures Subsequence(Toggled(chain, enabled), chain)
  {
    SubsequenceReflexive(chain);
    if !enabled && |chain| > 1 {
      var rest := chain[1..];
      assert chain == [chain[0]] + rest;
      if chain[0].isLocal {
        SingletonIsSubsequence(chain, 0);
      } else {
        var locals := OnlyLocal(rest);
        assert rest[|rest| - 1] in rest;
        OnlyLocalIsSubsequence(rest);
        SingletonIsSubsequence(locals, 0);
        SubsequenceTrans([locals[0]], locals, rest);
        SubsequenceReflexive([chain[0]]);
        SubsequenceAppends([chain[0]], [chain[0]], [locals[0]], rest);
        assert [chain[0]] + [locals[0]] == [chain[0], locals[0]];
      }
    }
  }

  /** The admin's routes, completed with the environment's local models if they do not
      end local. */
  function Completed(admin: seq<Endpoint>, env: Env): seq<Endpoint>
    requires admin != []
  {
    admin + if admin[|admin| - 1].isLocal then [] else OnlyLocal(EnvChain(env))
  }

  lemma ChainIsToggled(admin: seq<Endpoint>, failover: bool, env: Env)
    requires admin != []
    ensures Chain(admin, failover, env) == Toggled(Completed(admin, env), failover)
  {
    assert admin + [] == admin;
  }

  lemma CompletedEndsLocal(admin: seq<Endpoint>, env: Env)
    requires EnvOk(env) && admin != []
    ensures EndsLocal(Completed(admin, env))
  {
    EnvLocals(env);
  }

  lemma CompletedIsSubsequence(admin: seq<Endpoint>, env: Env)
    requires admin != []
    ensures Subsequence(Completed(admin, env), admin + EnvChain(env))
  {
    var tail := if admin[|admin| - 1].isLocal then [] else OnlyLocal(EnvChain(env));
    SubsequenceReflexive(admin);
    OnlyLocalIsSubsequence(EnvChain(env));
    assert Subsequence(tail, EnvChain(env));
    SubsequenceAppends(admin, admin, tail, EnvChain(env));
  }

  /** Whatever the admin configured and whichever way the switch is set, the chain
      is not empty, ends local, and takes its endpoints in order from the admin's
      routes followed by the environment's chain. */
  lemma ChainEndsLocal(admin: seq<Endpoint>, failover: bool, env: Env)
    requires EnvOk(env)
    ensures EndsLocal(Chain(admin, failover, env))
    ensures Subsequence(Chain(admin, failover, env), admin + EnvChain(env))
  {
    if admin == [] {
      SubsequenceReflexive(EnvChain(env));
      assert admin + EnvChain(env) == EnvChain(env);
    } else {
      var whole := Completed(admin, env);
      ChainIsToggled(admin, failover, env);
      CompletedEndsLocal(admin, env);
      CompletedIsSubsequence(admin, env);
      ToggleKeepsTerminal(whole, failover);
      SubsequenceTrans(Toggled(whole, failover), whole, admin + EnvChain(env));
    }
  }

  /** With failover on, the chain is the admin's routes and perhaps the environment's
      local model, or the environment's chain. */
  lemma FullChain(admin: seq<Endpoint>, env: Env)
    requires EnvOk(env)
    ensures admin == [] ==> Chain(admin, true, env) == EnvChain(env)
    ensures admin != [] ==> Chain(admin, true, env) == if admin[|admin| - 1].isLocal then admin else admin + [env.local]
    ensures forall e :: e in EnvChain(env) && e.isLocal ==> e == env.local
  {
    EnvLocals(env);
  }

  lemma EnvLocals(env: Env)
    requires EnvOk(env)
    ensures OnlyLocal(EnvChain(env)) == [env.local]
  {
    var chain := EnvChain(env);
    assert chain[|chain| - 1] == env.local;
    assert OnlyLocal(chain[..|chain| - 1]) == [] by {
      if env.frontier.Some? {
        assert chain[..1] == [env.frontier.value] && chain[..1][..0] == [];
      } else {
        assert chain[..0] == [];
      }
    }
  }

  lemma Reassociate(x: seq<Endpoint>, y: seq<Endpoint>, z: seq<Endpoint>)
    ensures (x + y) + z == x + (y + z)
  {
  }

  lemma {:induction false} OnlyLocalConcat(a: seq<Endpoint>, b: seq<Endpoint>)
    ensures OnlyLocal(a + b) == OnlyLocal(a) + OnlyLocal(b)
  {
    if b == [] {
      assert a + b == a;
    } else {
      var init, e, whole := b[..|b| - 1], b[|b| - 1], a + b;
      var last := if e.isLocal then [e] else [];
      OnlyLocalConcat(a, init);
      assert whole[..|whole| - 1] == a + init && whole[|whole| - 1] == e;
      assert OnlyLocal(whole) == OnlyLocal(a + init) + last;
      Reassociate(OnlyLocal(a), OnlyLocal(init), last);
    }
  }

  /** Switched off, a chain that ends local keeps its first local endpoint and no other. */
  lemma SwitchedOffKeepsFirstLocal(chain: seq<Endpoint>)
    requires EndsLocal(chain)
    ensures OnlyLocal(chain) != []
    ensures forall e :: e in Toggled(chain, false) && e.isLocal <==> e == OnlyLocal(chain)[0]
  {
    var rest := chain[1..];
    assert chain == [chain[0]] + rest && chain[|chain| - 1] in chain;
    OnlyLocalConcat([chain[0]], rest);
    assert [chain[0]][..0] == [] && OnlyLocal([chain[0]]) == if chain[0].isLocal then [chain[0]] else [];
    if |chain| > 1 && !chain[0].isLocal {
      assert rest[|rest| - 1] in rest && EndsLocal(rest);
    }
  }

  /** So with admin routes and the switch off, the only local endpoint is the first one
      routed to, or the environment's if none is. */
  lemma SwitchedOffLocal(admin: seq<Endpoint>, env: Env)
    requires EnvOk(env) && admin != []
    ensures forall e :: e in Chain(admin, false, env) && e.isLocal
                   <==> e == if OnlyLocal(admin) != [] then OnlyLocal(admin)[0] else env.local
  {
    var whole := Completed(admin, env);
    ChainIsToggled(admin, false, env);
    CompletedEndsLocal(admin, env);
    SwitchedOffKeepsFirstLocal(whole);
    CompletedFirstLocal(admin, env);
  }

  lemma CompletedFirstLocal(admin: seq<Endpoint>, env: Env)
    requires EnvOk(env) && admin != []
    ensures OnlyLocal(Completed(admin, env)) != []
    ensures OnlyLocal(Completed(admin, env))[0] == if OnlyLocal(admin) != [] then OnlyLocal(admin)[0] else env.local
  {
    EnvLocals(env);
    if admin[|admin| - 1].isLocal {
      assert Completed(admin, env) == admin && admin[|admin| - 1] in admin;
    } else {
      OnlyLocalConcat(admin, [env.local]);
      assert [env.local][..0] == [] && OnlyLocal([env.local]) == [env.local];
    }
  }

  /** With no admin routes the switch is not consulted: the environment's frontier
      is followed by its local model even when failover is off. */
  lemma EmptyConfigurationIgnoresSwitch(env: Env)
    requires EnvOk(env)
    ensures Chain([], false, env) == Chain([], true, env) == EnvChain(env)
    ensures Toggled(EnvChain(env), false) == EnvChain(env)
  {
    ToggleKeepsTerminal(EnvChain(env), false);
    if env.frontier.Some? {
      assert EnvChain(env)[1..] == [env.local];
      assert [env.local][..0] == [];
      assert OnlyLocal([env.local]) == [env.local];
    }
  }

  // ---- the cached snapshot -------------------------------------------------------------------

  /** A read of the registry at a time, with what loading would give then (None:
      the database is down), or an admin write dropping the cache. */
  datatype Event = Read(now: real, tables: Option<Tables>) | Invalidate

  class ProviderRegistry {
    const ttl: real
    var snap: Option<Snapshot>

    constructor (ttl: real)
      ensures snap == None && this.ttl == ttl
    {
      this.ttl, snap := ttl, None;
    }

    /** `snapshot`: the cached one while fresh, else a new load; when that fails
        the stale one, or with none an empty one that is cached like any other. */
    method GetSnapshot(now: real, tables: Option<Tables>) returns (s: Snapshot)
      modifies this
      ensures snap == Some(s)
      ensures var was := old(snap);
              if was.Some? && now - was.value.loadedAt < ttl then snap == was
              else if tables.Some? then LoadedFrom(s, tables.value) && s.loadedAt == now
              else if was.Some? then snap == was
              else s == Snapshot(map[], true, now)
      ensures ttl > 0.0 && now - s.loadedAt >= ttl ==> tables.None? && old(snap) == Some(s)
    {
      if snap.Some? && now - snap.value.loadedAt < ttl {
        return snap.value;
      }
      if tables.None? {
        if snap.Some? {
          return snap.value;
        }
        s := Snapshot(map[], true, now);
      } else {
        s := Load(tables.value, now);
      }
      snap := Some(s);
    }

    method Drop()
      modifies this
      ensures snap == None
    {
      snap := None;
    }

    /** `endpoints`: whatever the snapshot's state, a chain that ends local. */
    method Endpoints(task: string, env: Env, now: real, tables: Option<Tables>) returns (chain: seq<Endpoint>)
      requires EnvOk(env)
      modifies this
      ensures snap.Some?
      ensures chain == Chain(TaskChain(snap.value.byTask, task), snap.value.failover, env)
      ensures EndsLocal(chain)
    {
      var s := GetSnapshot(now, tables);
      chain := TaskChain(s.byTask, task);
      ChainEndsLocal(chain, s.failover, env);
      if chain == [] {
        return EnvChain(env);
      }
      if !chain[|chain| - 1].isLocal {
        chain := chain + OnlyLocal(EnvChain(env));
      }
      chain := Toggled(chain, s.failover);
    }

    /** `DynamicProviderChain.generate`: resolves the chain anew for each turn. */
    method Generate(task: string, env: Env, now: real, tables: Option<Tables>, preferLocal: bool, b: Behaviour)
      returns (tried: seq<Endpoint>, outcome: Outcome, contacted: nat)
      requires EnvOk(env)
      modifies this
      ensures snap.Some?
      ensures tried == Eligible(Chain(TaskChain(snap.value.byTask, task), snap.value.failover, env), preferLocal)
      ensures EndsLocal(tried) && Served(tried, b, outcome, contacted)
      ensures preferLocal ==> Locals(tried)
    {
      var chain := Endpoints(task, env, now, tables);
      LocalSuffices(chain, preferLocal);
      tried := Eligible(chain, preferLocal);
      var attempts;
      outcome, contacted, attempts := TryChain(chain, preferLocal, b);
    }
  }

  /** The cached snapshot after one event, as the class keeps it; `loaded` is what
      a successful load gives. */
  ghost predicate Steps(ttl: real, was: Option<Snapshot>, e: Event, now: Option<Snapshot>) {
    match e
    case Invalidate => now == None
    case Read(t, tables) =>
      now.Some? &&
      if was.Some? && t - was.value.loadedAt < ttl then now == was
      else if tables.Some? then LoadedFrom(now.value, tables.value) && now.value.loadedAt == t
      else if was.Some? then now == was
      else now.value == Snapshot(map[], true, t)
  }

  /** snaps[i] is the cache before event i. */
  ghost predicate History(ttl: real, events: seq<Event>, snaps: seq<Option<Snapshot>>) {
    && |snaps| == |events| + 1 && snaps[0] == None
    && forall i :: 0 <= i < |events| ==> Steps(ttl, snaps[i], events[i], snaps[i + 1])
  }

  /** Every cached snapshot comes whole from one earlier event: a load that
      succeeded, or a failed one with nothing to fall back on. No invalidation lies
      in between. */
  lemma {:induction false} SnapshotHasOrigin(ttl: real, events: seq<Event>, snaps: seq<Option<Snapshot>>, i: nat)
    returns (k: nat)
    requires History(ttl, events, snaps) && i <= |events| && snaps[i].Some?
    ensures k < i && events[k].Read? && events[k].now == snaps[i].value.loadedAt
    ensures if events[k].tables.Some? then LoadedFrom(snaps[i].value, events[k].tables.value)
            else snaps[k] == None && snaps[i].value.byTask == map[] && snaps[i].value.failover
    ensures forall j :: k <= j < i ==> events[j].Read? && snaps[j + 1] == snaps[i]
    decreases i
  {
    assert i > 0;
    assert Steps(ttl, snaps[i - 1], events[i - 1], snaps[i]);
    if snaps[i] == snaps[i - 1] {
      k := SnapshotHasOrigin(ttl, events, snaps, i - 1);
    } else {
      k := i - 1;
    }
  }

  /** An outage, however long, keeps serving the last snapshot. */
  lemma {:induction false} OutageKeepsSnapshot(ttl: real, events: seq<Event>, snaps: seq<Option<Snapshot>>, i: nat,
                                               j: nat)
    requires History(ttl, events, snaps) && i <= j <= |events| && snaps[i].Some?
    requires forall k :: i <= k < j ==> events[k].Read? && events[k].tables.None?
    ensures snaps[j] == snaps[i]
    decreases j
  {
    if i < j {
      OutageKeepsSnapshot(ttl, events, snaps, i, j - 1);
      assert Steps(ttl, snaps[j - 1], events[j - 1], snaps[j]);
    }
  }
}
