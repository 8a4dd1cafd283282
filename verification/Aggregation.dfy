/** Peer counters summed up per router (reconciler.js 124-138, 295-418). */
module Aggregation {
  import opened Basics

  type Key = string
  type RouterId = string

  /** A byte counter as `wg` reports it, or something BigInt refuses. A missing
      one counts as 0. */
  datatype Metric = Bytes(n: int) | Malformed

  datatype Status = Status(status: string, rx: Metric, tx: Metric, handshakeAge: Option<int>)

  /** A desired peer; "" stands for a key, router or tenant that is not there. */
  datatype Peer = Peer(key: Key, routerId: RouterId, tenantId: string)

  datatype Agg = Agg(statuses: seq<string>, rx: int, tx: int, last: Option<int>)

  const MISSING := "MISSING"

  function HandshakeAt(s: Status, now: int): Option<int> {
    if s.handshakeAge.None? || s.handshakeAge.value < 0 then None else Some(now - 1000 * s.handshakeAge.value)
  }

  function Later(a: Option<int>, b: Option<int>): Option<int> {
    if b.None? then a else if a.None? || b.value > a.value then b else a
  }

  // ----------------------------------------------------- the status of a router

  function DeriveRouterStatus(statuses: seq<string>): string {
    if statuses == [] then "NO_PEERS"
    else if "ONLINE" in statuses then "ONLINE"
    else if "OFFLINE" in statuses then "OFFLINE"
    else if "NEVER_CONNECTED" in statuses then "NEVER_CONNECTED"
    else if MISSING in statuses then "MISSING"
    else "UNKNOWN"
  }

  /** Which status wins: the first of these that any peer has. */
  ghost predicate Wins(status: string, statuses: seq<string>) {
    var ranks := ["ONLINE", "OFFLINE", "NEVER_CONNECTED", "MISSING"];
    if statuses == [] then status == "NO_PEERS"
    else if exists k | 0 <= k < |ranks| :: ranks[k] in statuses then
      exists k | 0 <= k < |ranks| ::
        ranks[k] == status && status in statuses && forall l | 0 <= l < k :: ranks[l] !in statuses
    else status == "UNKNOWN"
  }

  lemma StatusWins(statuses: seq<string>, status: string)
    ensures DeriveRouterStatus(statuses) == status <==> Wins(status, statuses)
  {
    var ranks := ["ONLINE", "OFFLINE", "NEVER_CONNECTED", "MISSING"];
    assert ranks[0] == "ONLINE" && ranks[1] == "OFFLINE" && ranks[2] == "NEVER_CONNECTED" && ranks[3] == "MISSING";
    assert "ONLINE"[1] == 'N' && "OFFLINE"[1] == 'F' && "NEVER_CONNECTED"[1] == 'E' && "MISSING"[1] == 'I';
  }

  /** Neither the order of the peers nor how many share a status matters. */
  lemma StatusOfSet(a: seq<string>, b: seq<string>)
    requires forall x :: x in a <==> x in b
    ensures DeriveRouterStatus(a) == DeriveRouterStatus(b)
  {
    assert a != [] ==> a[0] in b;
    assert b != [] ==> b[0] in a;
  }

  // ------------------------------------------------------------- what is counted

  predicate InTenant(tenant: string, p: Peer) { tenant == "" || p.tenantId == "" || p.tenantId == tenant }

  /** The peers that count towards a router. */
  predicate Counts(tenant: string, p: Peer) { p.key != "" && InTenant(tenant, p) && p.routerId != "" }

  predicate CountsFor(tenant: string, p: Peer, r: RouterId) { Counts(tenant, p) && p.routerId == r }

  function StatusOf(statuses: map<Key, Status>, p: Peer): Option<Status> {
    if p.key in statuses then Some(statuses[p.key]) else None
  }

  function RxOf(statuses: map<Key, Status>, p: Peer): int {
    match StatusOf(statuses, p) case Some(Status(_, Bytes(n), _, _)) => n case _ => 0
  }

  /** A malformed receive counter drops the send counter with it. */
  function TxOf(statuses: map<Key, Status>, p: Peer): int {
    match StatusOf(statuses, p) case Some(Status(_, Bytes(_), Bytes(n), _)) => n case _ => 0
  }

  function NameOf(statuses: map<Key, Status>, p: Peer): string {
    match StatusOf(statuses, p) case Some(s) => s.status case None => MISSING
  }

  function SeenOf(statuses: map<Key, Status>, p: Peer, now: int): Option<int> {
    match StatusOf(statuses, p) case Some(s) => HandshakeAt(s, now) case None => None
  }

  /** A router's aggregate, read off the peers that count towards it. */
  function Expected(tenant: string, statuses: map<Key, Status>, now: int, peers: seq<Peer>, r: RouterId): Agg {
    if peers == [] then Agg([], 0, 0, None)
    else
      var p, rest := peers[|peers| - 1], Expected(tenant, statuses, now, peers[..|peers| - 1], r);
      if !CountsFor(tenant, p, r) then rest
      else Agg(rest.statuses + [NameOf(statuses, p)], rest.rx + RxOf(statuses, p), rest.tx + TxOf(statuses, p),
               Later(rest.last, SeenOf(statuses, p, now)))
  }

  function TotalRx(tenant: string, statuses: map<Key, Status>, peers: seq<Peer>): int {
    if peers == [] then 0
    else TotalRx(tenant, statuses, peers[..|peers| - 1])
         + if Counts(tenant, peers[|peers| - 1]) then RxOf(statuses, peers[|peers| - 1]) else 0
  }

  function TotalTx(tenant: string, statuses: map<Key, Status>, peers: seq<Peer>): int {
    if peers == [] then 0
    else TotalTx(tenant, statuses, peers[..|peers| - 1])
         + if Counts(tenant, peers[|peers| - 1]) then TxOf(statuses, peers[|peers| - 1]) else 0
  }

  /** What one peer more does to a router's aggregate. */
  lemma OnePeerMore(tenant: string, statuses: map<Key, Status>, now: int, peers: seq<Peer>, p: Peer, r: RouterId)
    ensures var before := Expected(tenant, statuses, now, peers, r);
            var after := Expected(tenant, statuses, now, peers + [p], r);
            var foreign := tenant != "" && p.tenantId != "" && p.tenantId != tenant;
            if p.key == "" || p.routerId == "" || p.routerId != r || foreign then after == before
            else if p.key !in statuses then after == before.(statuses := before.statuses + ["MISSING"])
            else
              var s := statuses[p.key];
              && after.statuses == before.statuses + [s.status]
              && after.rx == before.rx + (if s.rx.Bytes? then s.rx.n else 0)
              && after.tx == before.tx + (if s.rx.Bytes? && s.tx.Bytes? then s.tx.n else 0)
              && (if s.handshakeAge.Some? && s.handshakeAge.value >= 0
                  then after.last.Some? && now - after.last.value <= 1000 * s.handshakeAge.value
                       && (after.last == before.last || now - after.last.value == 1000 * s.handshakeAge.value)
                       && (before.last.Some? ==> before.last.value <= after.last.value)
                  else after.last == before.last)
    ensures Expected(tenant, statuses, now, [], r) == Agg([], 0, 0, None)
  {
    assert (peers + [p])[..|peers|] == peers;
  }

  // ------------------------------------------------------- the aggregation loop

  /** routerAgg: a map that remembers in which order its keys came. */
  datatype Table = Table(order: seq<RouterId>, rows: map<RouterId, Agg>)

  ghost predicate Shape(t: Table) {
    && (forall i, j | 0 <= i < j < |t.order| :: t.order[i] != t.order[j])
    && (forall r :: r in t.order <==> r in t.rows)
  }

  function Row(t: Table, r: RouterId): Agg { if r in t.rows then t.rows[r] else Agg([], 0, 0, None) }

  ghost predicate Aggregates(tenant: string, statuses: map<Key, Status>, now: int, peers: seq<Peer>, t: Table) {
    && Shape(t)
    && (forall r :: Row(t, r) == Expected(tenant, statuses, now, peers, r))
    && (forall r | r in t.rows :: t.rows[r].statuses != [])
  }

  function Sum(order: seq<RouterId>, f: RouterId -> int): int {
    if order == [] then 0 else Sum(order[..|order| - 1], f) + f(order[|order| - 1])
  }

  function SumRx(t: Table): int { Sum(t.order, r => Row(t, r).rx) }

  function SumTx(t: Table): int { Sum(t.order, r => Row(t, r).tx) }

  /** One value more for one router that is listed (once) adds up. */
  lemma {:induction false} SumBump(order: seq<RouterId>, f: RouterId -> int, g: RouterId -> int, r: RouterId, d: int)
    requires forall i, j | 0 <= i < j < |order| :: order[i] != order[j]
    requires forall x :: g(x) == f(x) + if x == r then d else 0
    ensures Sum(order, g) == Sum(order, f) + if r in order then d else 0
  {
    if order != [] {
      var init := order[..|order| - 1];
      SumBump(init, f, g, r, d);
      assert order == init + [order[|order| - 1]];
      if r in init {
        var i :| 0 <= i < |init| && init[i] == r;
        assert order[i] == r;
      }
    }
  }

  lemma {:induction false} SumZero(order: seq<RouterId>, f: RouterId -> int)
    requires forall x :: f(x) == 0
    ensures Sum(order, f) == 0
  {
    if order != [] {
      SumZero(order[..|order| - 1], f);
    }
  }

  lemma {:induction false} SumSame(order: seq<RouterId>, f: RouterId -> int, g: RouterId -> int)
    requires forall x :: f(x) == g(x)
    ensures Sum(order, f) == Sum(order, g)
  {
    if order != [] {
      SumSame(order[..|order| - 1], f, g);
    }
  }

  ghost predicate Covers(tenant: string, peers: seq<Peer>, order: seq<RouterId>) {
    && (forall i, j | 0 <= i < j < |order| :: order[i] != order[j])
    && (forall i | 0 <= i < |peers| && Counts(tenant, peers[i]) :: peers[i].routerId in order)
  }

  lemma {:induction false} ExpectedRxSum(tenant: string, statuses: map<Key, Status>, now: int, peers: seq<Peer>,
                                         order: seq<RouterId>)
    requires Covers(tenant, peers, order)
    ensures Sum(order, r => Expected(tenant, statuses, now, peers, r).rx) == TotalRx(tenant, statuses, peers)
  {
    if peers == [] {
      SumZero(order, r => Expected(tenant, statuses, now, peers, r).rx);
    } else {
      var init, p := peers[..|peers| - 1], peers[|peers| - 1];
      ExpectedRxSum(tenant, statuses, now, init, order);
      SumBump(order, r => Expected(tenant, statuses, now, init, r).rx,
              r => Expected(tenant, statuses, now, peers, r).rx,
              p.routerId, if Counts(tenant, p) then RxOf(statuses, p) else 0);
    }
  }

  lemma {:induction false} ExpectedTxSum(tenant: string, statuses: map<Key, Status>, now: int, peers: seq<Peer>,
                                         order: seq<RouterId>)
    requires Covers(tenant, peers, order)
    ensures Sum(order, r => Expected(tenant, statuses, now, peers, r).tx) == TotalTx(tenant, statuses, peers)
  {
    if peers == [] {
      SumZero(order, r => Expected(tenant, statuses, now, peers, r).tx);
    } else {
      var init, p := peers[..|peers| - 1], peers[|peers| - 1];
      ExpectedTxSum(tenant, statuses, now, init, order);
      SumBump(order, r => Expected(tenant, statuses, now, init, r).tx,
              r => Expected(tenant, statuses, now, peers, r).tx,
              p.routerId, if Counts(tenant, p) then TxOf(statuses, p) else 0);
    }
  }

  lemma {:induction false} CountedIsExpected(tenant: string, statuses: map<Key, Status>, now: int,
                                             peers: seq<Peer>, i: nat)
    requires i < |peers| && Counts(tenant, peers[i])
    ensures Expected(tenant, statuses, now, peers, peers[i].routerId).statuses != []
  {
    if i < |peers| - 1 {
      CountedIsExpected(tenant, statuses, now, peers[..|peers| - 1], i);
    }
  }

  /** No byte is lost or counted twice: the routers' totals are the totals over
      all the peers that count. */
  lemma Conservation(tenant: string, statuses: map<Key, Status>, now: int, peers: seq<Peer>, t: Table)
    requires Aggregates(tenant, statuses, now, peers, t)
    ensures SumRx(t) == TotalRx(tenant, statuses, peers)
    ensures SumTx(t) == TotalTx(tenant, statuses, peers)
  {
    forall i | 0 <= i < |peers| && Counts(tenant, peers[i]) ensures peers[i].routerId in t.order {
      CountedIsExpected(tenant, statuses, now, peers, i);
      assert Row(t, peers[i].routerId) == Expected(tenant, statuses, now, peers, peers[i].routerId);
    }
    ExpectedRxSum(tenant, statuses, now, peers, t.order);
    ExpectedTxSum(tenant, statuses, now, peers, t.order);
    SumSame(t.order, r => Row(t, r).rx, r => Expected(tenant, statuses, now, peers, r).rx);
    SumSame(t.order, r => Row(t, r).tx, r => Expected(tenant, statuses, now, peers, r).tx);
  }

  function Add(t: Table, r: RouterId, a: Agg): Table {
    Table(if r in t.rows then t.order else t.order + [r], t.rows[r := a])
  }

  /** The table with one more peer taken in. */
  function TakeIn(tenant: string, statuses: map<Key, Status>, now: int, t: Table, p: Peer): Table {
    if !Counts(tenant, p) then t
    else
      var a := Row(t, p.routerId);
      Add(t, p.routerId, Agg(a.statuses + [NameOf(statuses, p)], a.rx + RxOf(statuses, p), a.tx + TxOf(statuses, p),
                             Later(a.last, SeenOf(statuses, p, now))))
  }

  lemma AddKeepsShape(t: Table, r: RouterId, a: Agg)
    requires Shape(t)
    ensures Shape(Add(t, r, a)) && forall x :: Row(Add(t, r, a), x) == if x == r then a else Row(t, x)
  {
    var u := Add(t, r, a);
    forall x ensures x in u.order <==> x in u.rows {
      assert x in t.order <==> x in t.rows;
    }
    if r !in t.rows {
      assert r !in t.order;
    }
  }

  lemma TakeInKeeps(tenant: string, statuses: map<Key, Status>, now: int, peers: seq<Peer>, t: Table, p: Peer)
    requires Aggregates(tenant, statuses, now, peers, t)
    ensures Aggregates(tenant, statuses, now, peers + [p], TakeIn(tenant, statuses, now, t, p))
  {
    assert (peers + [p])[..|peers|] == peers;
    assert forall r :: Row(t, r) == Expected(tenant, statuses, now, peers, r);
    if Counts(tenant, p) {
      var u := TakeIn(tenant, statuses, now, t, p);
      AddKeepsShape(t, p.routerId, u.rows[p.routerId]);
      forall r | r in u.rows ensures u.rows[r].statuses != [] {
        assert Row(u, r) == if r == p.routerId then u.rows[r] else Row(t, r);
      }
    }
  }

  /** Bytes added to an aggregate, up to the first malformed counter. */
  method AddBytes(s: Status, rx: int, tx: int) returns (rx': int, tx': int)
    ensures rx' == rx + match s.rx case Bytes(n) => n case Malformed => 0
    ensures tx' == tx + match (s.rx, s.tx) case (Bytes(_), Bytes(n)) => n case _ => 0
  {
    rx', tx' := rx, tx;
    if s.rx.Malformed? {
      return;
    }
    rx' := rx' + s.rx.n;
    if s.tx.Malformed? {
      return;
    }
    tx' := tx' + s.tx.n;
  }

  method TakeInPeer(tenant: string, statuses: map<Key, Status>, now: int, t: Table, p: Peer)
    returns (t': Table, skipped: bool)
    ensures t' == TakeIn(tenant, statuses, now, t, p)
    ensures skipped <==> p.key != "" && !InTenant(tenant, p)
  {
    t', skipped := t, false;
    if p.key == "" {
      return;
    }
    if tenant != "" && p.tenantId != "" && p.tenantId != tenant {
      skipped := true;
      return;
    }
    if p.routerId == "" {
      return;
    }
    var agg := Row(t, p.routerId);
    if p.key !in statuses {
      t' := Add(t, p.routerId, agg.(statuses := agg.statuses + [MISSING]));
      return;
    }
    var status := statuses[p.key];
    var rx, tx := AddBytes(status, agg.rx, agg.tx);
    t' := Add(t, p.routerId, Agg(agg.statuses + [status.status], rx, tx, Later(agg.last, HandshakeAt(status, now))));
  }

  /** The peer loop of persistActualStateToDb. */
  method AggregatePeers(tenant: string, statuses: map<Key, Status>, now: int, peers: seq<Peer>)
    returns (t: Table, skipped: seq<Peer>)
    ensures Aggregates(tenant, statuses, now, peers, t)
    ensures SumRx(t) == TotalRx(tenant, statuses, peers) && SumTx(t) == TotalTx(tenant, statuses, peers)
    ensures forall p :: p in skipped <==>
              p in peers && p.key != "" && tenant != "" && p.tenantId != "" && p.tenantId != tenant
  {
    t, skipped := Table([], map[]), [];
    for i := 0 to |peers|
      invariant Aggregates(tenant, statuses, now, peers[..i], t)
      invariant forall p :: p in skipped <==> p in peers[..i] && p.key != "" && !InTenant(tenant, p)
    {
      assert peers[..i + 1] == peers[..i] + [peers[i]];
      TakeInKeeps(tenant, statuses, now, peers[..i], t, peers[i]);
      var skip: bool;
      t, skip := TakeInPeer(tenant, statuses, now, t, peers[i]);
      if skip {
        skipped := skipped + [peers[i]];
      }
    }
    assert peers[..|peers|] == peers;
    Conservation(tenant, statuses, now, peers, t);
  }

  // --------------------------------------------------------- router by router

  datatype Router = Router(id: RouterId, tenantId: string)

  datatype Update = Update(routerId: RouterId, statusWireguard: string, last: Option<int>, rx: int, tx: int)

  predicate Writable(tenant: string, routers: map<RouterId, Router>, r: RouterId) {
    r in routers && (tenant == "" || routers[r].tenantId == "" || routers[r].tenantId == tenant)
  }

  function UpdateOf(t: Table, r: RouterId): Update {
    var a := Row(t, r);
    Update(r, DeriveRouterStatus(a.statuses), a.last, a.rx, a.tx)
  }

  function UpdatesOf(tenant: string, routers: map<RouterId, Router>, t: Table, order: seq<RouterId>): seq<Update> {
    if order == [] then []
    else
      var r := order[|order| - 1];
      UpdatesOf(tenant, routers, t, order[..|order| - 1])
      + if Writable(tenant, routers, r) then [UpdateOf(t, r)] else []
  }

  lemma {:induction false} UpdatesFor(tenant: string, routers: map<RouterId, Router>, t: Table,
                                      order: seq<RouterId>, u: Update)
    ensures u in UpdatesOf(tenant, routers, t, order) <==>
            u.routerId in order && Writable(tenant, routers, u.routerId) && u == UpdateOf(t, u.routerId)
  {
    if order != [] {
      UpdatesFor(tenant, routers, t, order[..|order| - 1], u);
      assert order == order[..|order| - 1] + [order[|order| - 1]];
    }
  }

  lemma {:induction false} UpdatesDistinct(tenant: string, routers: map<RouterId, Router>, t: Table,
                                           order: seq<RouterId>)
    requires forall i, j | 0 <= i < j < |order| :: order[i] != order[j]
    ensures var us := UpdatesOf(tenant, routers, t, order);
            forall i, j | 0 <= i < j < |us| :: us[i].routerId != us[j].routerId
  {
    if order != [] {
      var init, r := order[..|order| - 1], order[|order| - 1];
      UpdatesDistinct(tenant, routers, t, init);
      var us := UpdatesOf(tenant, routers, t, init);
      forall i | 0 <= i < |us| ensures us[i].routerId != r {
        UpdatesFor(tenant, routers, t, init, us[i]);
      }
    }
  }

  /** The router loop: each known router of the tenant that has peers is written,
      once, with its aggregate. */
  method RouterUpdates(tenant: string, routers: map<RouterId, Router>, t: Table) returns (updates: seq<Update>)
    requires Shape(t)
    ensures forall u :: u in updates <==>
              && u.routerId in t.rows && u.routerId in routers
              && (tenant == "" || routers[u.routerId].tenantId == "" || routers[u.routerId].tenantId == tenant)
              && var row := t.rows[u.routerId];
                 u == Update(u.routerId, DeriveRouterStatus(row.statuses), row.last, row.rx, row.tx)
    ensures forall i, j | 0 <= i < j < |updates| :: updates[i].routerId != updates[j].routerId
  {
    updates := [];
    for i := 0 to |t.order|
      invariant updates == UpdatesOf(tenant, routers, t, t.order[..i])
    {
      assert t.order[..i + 1][..i] == t.order[..i];
      var r := t.order[i];
      if r !in routers {
        continue;
      }
      if tenant != "" && routers[r].tenantId != "" && routers[r].tenantId != tenant {
        continue;
      }
      updates := updates + [UpdateOf(t, r)];
    }
    assert t.order[..|t.order|] == t.order;
    UpdatesDistinct(tenant, routers, t, t.order);
    forall u ensures u in updates <==>
                     u.routerId in t.rows && Writable(tenant, routers, u.routerId) && u == UpdateOf(t, u.routerId)
    {
      UpdatesFor(tenant, routers, t, t.order, u);
      assert u.routerId in t.order <==> u.routerId in t.rows;
    }
  }

  // ------------------------------------------------------------ order of peers

  function Without(peers: seq<Peer>, i: nat): seq<Peer>
    requires i < |peers|
  {
    peers[..i] + peers[i + 1..]
  }

  /** The same sums, latest handshake and statuses, in whatever order. */
  ghost predicate Alike(a: Agg, b: Agg) {
    a.rx == b.rx && a.tx == b.tx && a.last == b.last && forall x :: x in a.statuses <==> x in b.statuses
  }

  function Plus(tenant: string, statuses: map<Key, Status>, now: int, a: Agg, p: Peer, r: RouterId): Agg {
    if !CountsFor(tenant, p, r) then a
    else Agg(a.statuses + [NameOf(statuses, p)], a.rx + RxOf(statuses, p), a.tx + TxOf(statuses, p),
             Later(a.last, SeenOf(statuses, p, now)))
  }

  lemma PlusAlike(tenant: string, statuses: map<Key, Status>, now: int, a: Agg, b: Agg, p: Peer, r: RouterId)
    requires Alike(a, b)
    ensures Alike(Plus(tenant, statuses, now, a, p, r), Plus(tenant, statuses, now, b, p, r))
  {
  }

  lemma PlusCommutes(tenant: string, statuses: map<Key, Status>, now: int, a: Agg, p: Peer, q: Peer, r: RouterId)
    ensures Alike(Plus(tenant, statuses, now, Plus(tenant, statuses, now, a, p, r), q, r),
                  Plus(tenant, statuses, now, Plus(tenant, statuses, now, a, q, r), p, r))
  {
  }

  lemma ExpectedOfLast(tenant: string, statuses: map<Key, Status>, now: int, peers: seq<Peer>, q: Peer, r: RouterId)
    ensures Expected(tenant, statuses, now, peers + [q], r)
         == Plus(tenant, statuses, now, Expected(tenant, statuses, now, peers, r), q, r)
  {
    assert (peers + [q])[..|peers|] == peers;
  }

  lemma WithoutInner(init: seq<Peer>, q: Peer, i: nat)
    requires i < |init|
    ensures Without(init + [q], i) == Without(init, i) + [q] && (init + [q])[i] == init[i]
  {
  }

  /** A peer may as well come last. */
  lemma {:induction false} MoveToEnd(tenant: string, statuses: map<Key, Status>, now: int, peers: seq<Peer>,
                                     i: nat, r: RouterId)
    requires i < |peers|
    ensures Alike(Expected(tenant, statuses, now, peers, r),
                  Plus(tenant, statuses, now, Expected(tenant, statuses, now, Without(peers, i), r), peers[i], r))
    decreases |peers|
  {
    var init, q := peers[..|peers| - 1], peers[|peers| - 1];
    assert peers == init + [q];
    ExpectedOfLast(tenant, statuses, now, init, q, r);
    if i == |init| {
      assert Without(peers, i) == init;
    } else {
      MoveToEnd(tenant, statuses, now, init, i, r);
      WithoutInner(init, q, i);
      ExpectedOfLast(tenant, statuses, now, Without(init, i), q, r);
      Exchange(tenant, statuses, now, Expected(tenant, statuses, now, init, r),
               Expected(tenant, statuses, now, Without(init, i), r), peers[i], q, r);
    }
  }

  lemma Exchange(tenant: string, statuses: map<Key, Status>, now: int, a: Agg, x: Agg, p: Peer, q: Peer, r: RouterId)
    requires Alike(a, Plus(tenant, statuses, now, x, p, r))
    ensures Alike(Plus(tenant, statuses, now, a, q, r),
                  Plus(tenant, statuses, now, Plus(tenant, statuses, now, x, q, r), p, r))
  {
    PlusAlike(tenant, statuses, now, a, Plus(tenant, statuses, now, x, p, r), q, r);
    PlusCommutes(tenant, statuses, now, x, p, q, r);
  }

  lemma BagWithout(peers: seq<Peer>, i: nat)
    requires i < |peers|
    ensures multiset(peers) == multiset(Without(peers, i)) + multiset([peers[i]])
  {
    assert peers == peers[..i] + ([peers[i]] + peers[i + 1..]);
  }

  lemma Cancel(a: multiset<Peer>, b: multiset<Peer>, c: multiset<Peer>)
    requires a + c == b + c
    ensures a == b
  {
    assert (a + c) - c == a && (b + c) - c == b;
  }

  lemma RestIsSame(peers: seq<Peer>, others: seq<Peer>, i: nat)
    requires peers != [] && multiset(peers) == multiset(others) && i < |others| && others[i] == peers[|peers| - 1]
    ensures multiset(peers[..|peers| - 1]) == multiset(Without(others, i))
  {
    BagWithout(peers, |peers| - 1);
    BagWithout(others, i);
    Cancel(multiset(Without(peers, |peers| - 1)), multiset(Without(others, i)), multiset([others[i]]));
    assert Without(peers, |peers| - 1) == peers[..|peers| - 1];
  }

  /** The order of the peers changes no router's totals, latest handshake or
      derived status. */
  lemma {:induction false} OrderDoesNotMatter(tenant: string, statuses: map<Key, Status>, now: int, peers: seq<Peer>,
                                              others: seq<Peer>, r: RouterId)
    requires multiset(peers) == multiset(others)
    ensures Alike(Expected(tenant, statuses, now, peers, r), Expected(tenant, statuses, now, others, r))
    ensures DeriveRouterStatus(Expected(tenant, statuses, now, peers, r).statuses)
         == DeriveRouterStatus(Expected(tenant, statuses, now, others, r).statuses)
    decreases |peers|
  {
    if peers == [] {
      assert |multiset(others)| == 0;
    } else {
      var init, p := peers[..|peers| - 1], peers[|peers| - 1];
      assert p in multiset(peers);
      var i :| 0 <= i < |others| && others[i] == p;
      RestIsSame(peers, others, i);
      OrderDoesNotMatter(tenant, statuses, now, init, Without(others, i), r);
      assert peers == init + [p];
      ExpectedOfLast(tenant, statuses, now, init, p, r);
      MoveToEnd(tenant, statuses, now, others, i, r);
      PlusAlike(tenant, statuses, now, Expected(tenant, statuses, now, init, r),
                Expected(tenant, statuses, now, Without(others, i), r), p, r);
    }
    StatusOfSet(Expected(tenant, statuses, now, peers, r).statuses,
                Expected(tenant, statuses, now, others, r).statuses);
  }

  /** The latest handshake is the maximum over the peers that count. */
  lemma {:induction false} LatestIsMaximum(tenant: string, statuses: map<Key, Status>, now: int,
                                           peers: seq<Peer>, r: RouterId)
    ensures var last := Expected(tenant, statuses, now, peers, r).last;
            && (last.Some? ==> exists i | 0 <= i < |peers| ::
                  CountsFor(tenant, peers[i], r) && SeenOf(statuses, peers[i], now) == last)
            && (forall i | 0 <= i < |peers| && CountsFor(tenant, peers[i], r)
                && SeenOf(statuses, peers[i], now).Some? ::
                  last.Some? && SeenOf(statuses, peers[i], now).value <= last.value)
  {
    if peers != [] {
      var init := peers[..|peers| - 1];
      LatestIsMaximum(tenant, statuses, now, init, r);
      assert forall i | 0 <= i < |init| :: init[i] == peers[i];
    }
  }
}
