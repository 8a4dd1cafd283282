/**
 Which tenant's cycle a WireGuard peer belongs to, while the cycles run side by
 side over one shared ownership map (reconciler.js 145-293, 526-544, 894-906).
 */
module TenantScopes {
  import opened Basics
  import opened Text

  type Key = string
  type TenantId = string

  datatype Tenant = Tenant(id: TenantId, slug: string)

  // --------------------------------------------------------------- resolution

  /** The host of `host:port` or `[host]:port`; "" stands for none. */
  function EndpointHost(endpoint: string): string {
    var raw := Trim(endpoint, IsSpace);
    if raw == "" || raw == "(none)" then ""
    else
      var end := if raw[0] == '[' then IndexFrom(raw, ']', 0) else None;
      var colon := LastIndex(raw, ':', |raw|);
      if end.Some? && end.value > 1 then raw[1..end.value]
      else if colon.Some? && colon.value > 0 then raw[..colon.value]
      else raw
  }

  /** An endpoint as `wg` prints it names its host, whichever form it has: an
      IPv4 address before the last colon, ... */
  lemma HostOfEndpoint(host: string, port: string)
    requires host != "" && port != "" && ':' !in port && host[0] != '['
    requires !IsSpace(host[0]) && !IsSpace(port[|port| - 1])
    ensures EndpointHost(host + ":" + port) == host
  {
    var raw := host + ":" + port;
    assert raw[0] == host[0] && raw[|raw| - 1] == port[|port| - 1];
    assert Trim(raw, IsSpace) == raw;
    assert raw[|host|] == ':';
    assert forall i | |host| < i < |raw| :: raw[i] == port[i - |host| - 1];
    assert LastIndex(raw, ':', |raw|) == Some(|host|);
    assert raw[..|host|] == host;
    NotNone(raw, |host|);
  }

  lemma NotNone(raw: string, at: nat)
    requires at < |raw| && raw[at] == ':'
    ensures raw != "(none)"
  {
    assert forall i | 0 <= i < |"(none)"| :: "(none)"[i] != ':';
  }

  /** ... or an IPv6 address in brackets. */
  lemma HostOfBracketed(host: string, port: string)
    requires host != "" && port != "" && ']' !in host && !IsSpace(port[|port| - 1])
    ensures EndpointHost("[" + host + "]:" + port) == host
  {
    var raw := "[" + host + "]:" + port;
    assert raw[0] == '[' && raw[|raw| - 1] == port[|port| - 1];
    assert Trim(raw, IsSpace) == raw;
    assert raw[|host| + 1] == ']' && raw[|host| + 2] == ':';
    assert forall i | 1 <= i < |host| + 1 :: raw[i] == host[i - 1];
    assert IndexFrom(raw, ']', 0) == Some(|host| + 1);
    assert raw[1..|host| + 1] == host;
    NotNone(raw, |host| + 2);
  }

  /** No endpoint, or none that `wg` knows, names no host; anything else without a
      port or brackets is taken for one. */
  lemma HostOfBare(blank: string, raw: string, blank': string)
    requires Blank(blank, IsSpace) && Blank(blank', IsSpace) && Trimmed(raw, IsSpace)
    requires ':' !in raw && (raw != "" ==> raw[0] != '[')
    ensures EndpointHost(blank + raw + blank') == if raw == "(none)" then "" else raw
  {
    PaddingIsTrimmed(blank, raw, blank', IsSpace);
    assert LastIndex(raw, ':', |raw|) == None;
  }

  /** What a cycle resolves unknown peers by; the same for all tenants. */
  datatype Rules = Rules(byEndpoint: bool, slugOf: map<string, string>, bySlug: map<string, Tenant>,
                         fallback: Option<Tenant>)

  function Resolve(rules: Rules, endpoint: string): Option<Tenant> {
    if rules.fallback.None? || !rules.byEndpoint then rules.fallback
    else
      var host := EndpointHost(endpoint);
      if host == "" || host !in rules.slugOf || rules.slugOf[host] == "" then rules.fallback
      else if rules.slugOf[host] in rules.bySlug then Some(rules.bySlug[rules.slugOf[host]])
      else rules.fallback
  }

  /** A host put in the map sends its peers to the tenant of its slug, if there
      is one; any other host sends them to the default tenant. */
  lemma MappedHostResolves(rules: Rules, host: string, port: string)
    requires rules.byEndpoint && rules.fallback.Some?
    requires host != "" && port != "" && ':' !in port && host[0] != '['
    requires !IsSpace(host[0]) && !IsSpace(port[|port| - 1])
    ensures Resolve(rules, host + ":" + port) ==
            if host in rules.slugOf && rules.slugOf[host] != "" && rules.slugOf[host] in rules.bySlug
            then Some(rules.bySlug[rules.slugOf[host]]) else rules.fallback
  {
    HostOfEndpoint(host, port);
  }

  /** Without a default tenant nobody is resolved; without a host, or when the
      mode is not by endpoint, the default tenant is. */
  lemma OthersResolve(rules: Rules, endpoint: string)
    ensures rules.fallback.None? ==> Resolve(rules, endpoint) == None
    ensures !rules.byEndpoint || EndpointHost(endpoint) == "" ==> Resolve(rules, endpoint) == rules.fallback
  {
  }

  // ------------------------------------------------------------------ scoping

  datatype Peer = Peer(key: Key, endpoint: string)

  /** The tenant a peer is scoped to: the one known to own it, or else the one
      its endpoint resolves to. */
  function Owner(rules: Rules, known: map<Key, TenantId>, p: Peer): Option<TenantId> {
    if p.key in known && known[p.key] != "" then Some(known[p.key])
    else
      var t := Resolve(rules, p.endpoint);
      if t.Some? then Some(t.value.id) else None
  }

  function Scoped(rules: Rules, known: map<Key, TenantId>, actual: seq<Peer>, tenant: TenantId): seq<Peer> {
    if actual == [] then []
    else
      var p := actual[|actual| - 1];
      Scoped(rules, known, actual[..|actual| - 1], tenant) + if Owner(rules, known, p) == Some(tenant) then [p] else []
  }

  lemma {:induction false} ScopedIs(rules: Rules, known: map<Key, TenantId>, actual: seq<Peer>,
                                    tenant: TenantId, p: Peer)
    ensures p in Scoped(rules, known, actual, tenant) <==> p in actual && Owner(rules, known, p) == Some(tenant)
  {
    if actual != [] {
      ScopedIs(rules, known, actual[..|actual| - 1], tenant, p);
      assert actual == actual[..|actual| - 1] + [actual[|actual| - 1]];
    }
  }

  lemma {:induction false} ScopedSame(rules: Rules, known: map<Key, TenantId>, other: map<Key, TenantId>,
                                      actual: seq<Peer>, tenant: TenantId)
    requires forall i | 0 <= i < |actual| :: Owner(rules, known, actual[i]) == Owner(rules, other, actual[i])
    ensures Scoped(rules, known, actual, tenant) == Scoped(rules, other, actual, tenant)
  {
    if actual != [] {
      ScopedSame(rules, known, other, actual[..|actual| - 1], tenant);
    }
  }

  /** Scoping takes the peers one by one, in their order. */
  lemma ScopedSnoc(rules: Rules, known: map<Key, TenantId>, actual: seq<Peer>, p: Peer, tenant: TenantId)
    ensures Scoped(rules, known, actual + [p], tenant) ==
            Scoped(rules, known, actual, tenant) + if Owner(rules, known, p) == Some(tenant) then [p] else []
  {
    assert (actual + [p])[..|actual|] == actual;
  }

  /** A known owner decides, whatever the endpoint; the endpoint decides only for a
      peer without one. */
  ghost predicate Belongs(rules: Rules, known: map<Key, TenantId>, p: Peer, tenant: TenantId) {
    if p.key in known && known[p.key] != "" then tenant == known[p.key]
    else Resolve(rules, p.endpoint).Some? && tenant == Resolve(rules, p.endpoint).value.id
  }

  lemma OwnerIs(rules: Rules, known: map<Key, TenantId>, p: Peer, tenant: TenantId)
    ensures Owner(rules, known, p) == Some(tenant) <==> Belongs(rules, known, p, tenant)
  {
  }

  /** The scoping loop of a tenant's cycle. */
  method ScopeActual(rules: Rules, known: map<Key, TenantId>, actual: seq<Peer>, tenant: TenantId)
    returns (scoped: seq<Peer>)
    ensures scoped == Scoped(rules, known, actual, tenant)
  {
    scoped := [];
    for i := 0 to |actual|
      invariant scoped == Scoped(rules, known, actual[..i], tenant)
    {
      assert actual[..i + 1][..i] == actual[..i];
      var p := actual[i];
      if p.key in known && known[p.key] != "" {
        if known[p.key] == tenant {
          scoped := scoped + [p];
        }
        continue;
      }
      var resolved := Resolve(rules, p.endpoint);
      if resolved.Some? && resolved.value.id == tenant {
        scoped := scoped + [p];
      }
    }
    assert actual[..|actual|] == actual;
  }

  // ------------------------------------------------------------ state machine

  /** One reconcile pass: the shared map, and what each cycle that has reached
      scoping has scoped. */
  datatype State = State(known: map<Key, TenantId>, scoped: map<TenantId, seq<Peer>>)

  datatype Action =
    | Scope(tenant: TenantId)              // the loop above, between two awaits
    | Discover(tenant: TenantId, p: Peer)  // autoDiscoverPeer gets to its last line

  /** A cycle starts only for a listed tenant with an id; it discovers only peers
      it has scoped. */
  predicate Enabled(listed: set<TenantId>, s: State, a: Action) {
    match a
    case Scope(t) => t in listed && t != "" && t !in s.scoped
    case Discover(t, p) => t in s.scoped && p in s.scoped[t]
  }

  function Next(listed: set<TenantId>, rules: Rules, actual: seq<Peer>, s: State, a: Action): State
    requires Enabled(listed, s, a)
  {
    match a
    case Scope(t) => s.(scoped := s.scoped[t := Scoped(rules, s.known, actual, t)])
    case Discover(t, p) => s.(known := s.known[p.key := t])
  }

  ghost predicate Run(listed: set<TenantId>, rules: Rules, actual: seq<Peer>, s: State, acts: seq<Action>, t: State)
    decreases |acts|
  {
    if acts == [] then s == t
    else
      Enabled(listed, s, acts[0]) && Run(listed, rules, actual, Next(listed, rules, actual, s, acts[0]), acts[1..], t)
  }

  ghost predicate UniqueKeys(actual: seq<Peer>) {
    forall i, j | 0 <= i < j < |actual| :: actual[i].key != actual[j].key
  }

  /** Discoveries have moved no peer's owner: what every cycle scopes is what the
      first one would have. */
  ghost predicate Inv(rules: Rules, actual: seq<Peer>, first: map<Key, TenantId>, s: State) {
    && (forall i | 0 <= i < |actual| :: Owner(rules, s.known, actual[i]) == Owner(rules, first, actual[i]))
    && (forall t | t in s.scoped :: t != "" && s.scoped[t] == Scoped(rules, first, actual, t))
  }

  lemma NextKeepsInv(listed: set<TenantId>, rules: Rules, actual: seq<Peer>, first: map<Key, TenantId>,
                     s: State, a: Action)
    requires UniqueKeys(actual) && Inv(rules, actual, first, s) && Enabled(listed, s, a)
    ensures Inv(rules, actual, first, Next(listed, rules, actual, s, a))
  {
    match a
    case Scope(t) => ScopedSame(rules, s.known, first, actual, t);
    case Discover(t, p) =>
      ScopedIs(rules, first, actual, t, p);
      var after := s.known[p.key := t];
      forall i | 0 <= i < |actual| ensures Owner(rules, after, actual[i]) == Owner(rules, first, actual[i]) {
        if actual[i].key == p.key {
          var k :| 0 <= k < |actual| && actual[k] == p;
          assert i == k;
        }
      }
  }

  /** A cycle's scope is what belongs to its tenant as things are known by then. */
  lemma ScopeTakes(listed: set<TenantId>, rules: Rules, actual: seq<Peer>, s: State, tenant: TenantId, p: Peer)
    requires Enabled(listed, s, Scope(tenant))
    ensures var t := Next(listed, rules, actual, s, Scope(tenant));
            && t.known == s.known && tenant in t.scoped
            && (p in t.scoped[tenant] <==> p in actual && Belongs(rules, s.known, p, tenant))
  {
    ScopedIs(rules, s.known, actual, tenant, p);
    OwnerIs(rules, s.known, p, tenant);
  }

  /** A peer discovered belongs to the tenant from then on, wherever it connects
      from and however peers are resolved. */
  lemma DiscoveredBelongs(listed: set<TenantId>, rules: Rules, actual: seq<Peer>, s: State, tenant: TenantId, p: Peer,
                          later: Rules, endpoint: string, x: TenantId)
    requires Enabled(listed, s, Discover(tenant, p)) && tenant != ""
    ensures var known := Next(listed, rules, actual, s, Discover(tenant, p)).known;
            Owner(later, known, Peer(p.key, endpoint)) == Some(x) <==> x == tenant
  {
  }

  lemma {:induction false} RunKeepsInv(listed: set<TenantId>, rules: Rules, actual: seq<Peer>,
                                       first: map<Key, TenantId>, s: State, acts: seq<Action>, t: State)
    requires UniqueKeys(actual) && Inv(rules, actual, first, s) && Run(listed, rules, actual, s, acts, t)
    ensures Inv(rules, actual, first, t)
    decreases |acts|
  {
    if acts != [] {
      NextKeepsInv(listed, rules, actual, first, s, acts[0]);
      RunKeepsInv(listed, rules, actual, first, Next(listed, rules, actual, s, acts[0]), acts[1..], t);
    }
  }

  /** Over every interleaving of the cycles and their discoveries: no peer is
      scoped by two tenants; and a peer is scoped by exactly the tenant that owned
      it, or that it resolved to, when the pass began. */
  lemma ScopesPartition(listed: set<TenantId>, rules: Rules, actual: seq<Peer>, first: map<Key, TenantId>,
                        acts: seq<Action>, t: State)
    requires UniqueKeys(actual) && Run(listed, rules, actual, State(first, map[]), acts, t)
    ensures forall a, b, p | a in t.scoped && b in t.scoped && p in t.scoped[a] && p in t.scoped[b] :: a == b
    ensures forall a, p | a in t.scoped && p in actual && p.key in first && first[p.key] != "" ::
              p in t.scoped[a] <==> a == first[p.key]
    ensures forall a, p | a in t.scoped && p in actual && !(p.key in first && first[p.key] != "") ::
              p in t.scoped[a] <==> Resolve(rules, p.endpoint).Some? && a == Resolve(rules, p.endpoint).value.id
    ensures forall a, p | a in t.scoped && p in t.scoped[a] :: p in actual
  {
    RunKeepsInv(listed, rules, actual, first, State(first, map[]), acts, t);
    forall a, b, p | a in t.scoped && b in t.scoped && p in t.scoped[a] && p in t.scoped[b] ensures a == b {
      InScopeIff(rules, actual, first, t, a, p);
      InScopeIff(rules, actual, first, t, b, p);
    }
    forall a, p | a in t.scoped && p in t.scoped[a] ensures p in actual {
      InScopeIff(rules, actual, first, t, a, p);
    }
    forall a, p | a in t.scoped && p in actual ensures p in t.scoped[a] <==> Belongs(rules, first, p, a) {
      InScopeIff(rules, actual, first, t, a, p);
    }
  }

  lemma InScopeIff(rules: Rules, actual: seq<Peer>, first: map<Key, TenantId>, t: State, a: TenantId, p: Peer)
    requires Inv(rules, actual, first, t) && a in t.scoped
    ensures p in t.scoped[a] <==> p in actual && Belongs(rules, first, p, a)
  {
    ScopedIs(rules, first, actual, a, p);
    OwnerIs(rules, first, p, a);
  }
}
