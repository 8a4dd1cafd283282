/**
 Any number of authorizeSession calls on one session, interleaved between every
 two awaits (sessionStore.js 581-695 around hotspotManager.js 132-191).
 */
module AuthorizeProtocol {
  import opened Basics
  import opened Hotspot
  import opened SessionData
  import L = TokenLock

  /** Where one call stands. */
  datatype Pc =
    | Waiting            // trying to take the lock
    | Locked
    | Fetched            // status read and its transition allowed
    | Printed            // the router showed no bypassed binding for the IP
    | Adding             // the add has been sent
    | Landed             // and carried out; its reply is still to come
    | Bound              // the router confirmed the binding
    | Stored             // the session is written, its indices are not
    | Leaving(ok: bool)  // in the finally block
    | Returned(ok: bool)
    | Crashed

  predicate Inside(pc: Pc) { !pc.Waiting? && !pc.Returned? && !pc.Crashed? }

  /** `session` is the status in the store, None once the key is gone; `flight` the
      calls whose adds are on their way to the router, `lockedAt` when calls took
      the lock. */
  datatype State = State(
    now: int, cell: Option<L.Lock>, leases: map<L.Pid, L.Lock>, used: set<L.Token>, lockedAt: map<L.Pid, int>,
    session: Option<Status>, router: seq<Binding>, flight: set<L.Pid>, pcs: map<L.Pid, Pc>)

  datatype Action =
    | Tick(ms: nat)
    | SessionGone                            // the session key reaches its TTL
    | Traffic(table: seq<Binding>)           // the router's table changes elsewhere
    | Call(p: L.Pid)
    | TryLock(p: L.Pid, token: L.Token)      // one SET NX PX
    | GiveUp(p: L.Pid)                       // retries used up, or Redis failed
    | Read(p: L.Pid, reached: bool)
    | Print(p: L.Pid, delivery: Delivery)
    | Add(p: L.Pid)                          // the add is sent
    | Land(p: L.Pid)                         // the router carries it out, be the call still there or not
    | Drop(p: L.Pid)                         // or never gets it, or refuses it
    | Reply(p: L.Pid)
    | Lose(p: L.Pid)                         // no reply in time, or an error
    | Persist(p: L.Pid, delivery: Delivery)
    | Index(p: L.Pid, ok: bool)
    | Unlock(p: L.Pid, reached: bool)
    | Crash(p: L.Pid)

  predicate At(s: State, p: L.Pid, pc: Pc) { p in s.pcs && s.pcs[p] == pc }

  /** The environment is free except for two things: nobody else binds or unbinds
      this IP, and nobody revokes or updates the session. */
  predicate Enabled(ip: string, s: State, a: Action) {
    match a
    case Tick(_) => true
    case SessionGone => true
    case Traffic(table) => CountBypassed(table, ip) == CountBypassed(s.router, ip)
    case Call(p) => p !in s.pcs
    case TryLock(p, token) => At(s, p, Waiting) && token !in s.used
    case GiveUp(p) => At(s, p, Waiting)
    case Read(p, _) => At(s, p, Locked)
    case Print(p, _) => At(s, p, Fetched)
    case Add(p) => At(s, p, Printed)
    case Land(p) => p in s.flight
    case Drop(p) => p in s.flight
    case Reply(p) => At(s, p, Landed)
    case Lose(p) => At(s, p, Adding) || At(s, p, Landed)
    case Persist(p, _) => At(s, p, Bound)
    case Index(p, _) => At(s, p, Stored)
    case Unlock(p, _) => p in s.pcs && s.pcs[p].Leaving? && p in s.leases
    case Crash(p) => p in s.pcs && Inside(s.pcs[p])
  }

  function Goto(s: State, p: L.Pid, pc: Pc): State { s.(pcs := s.pcs[p := pc]) }

  function Bind(s: State, ip: string): State { s.(router := s.router + [Binding(ip, BYPASSED, "")]) }

  function Next(ip: string, s: State, a: Action): State
    requires Enabled(ip, s, a)
  {
    match a
    case Tick(ms) => s.(now := s.now + ms)
    case SessionGone => s.(session := None)
    case Traffic(table) => s.(router := table)
    case Call(p) => Goto(s, p, Waiting)
    case TryLock(p, token) =>
      if L.Free(L.RedisBackend, s.cell, s.now)
      then Goto(s, p, Locked).(
             cell := L.Acquire(L.RedisBackend, s.cell, token, L.LOCK_TTL_MS, s.now),
             leases := s.leases[p := L.Lock(token, s.now + L.LOCK_TTL_MS)],
             used := s.used + {token}, lockedAt := s.lockedAt[p := s.now])
      else s
    case GiveUp(p) => Goto(s, p, Returned(false))
    case Read(p, reached) =>
      if !reached || s.session.None? then Goto(s, p, Leaving(false))
      else if s.session.value == Authorized then Goto(s, p, Leaving(true))
      else if Allowed(s.session.value, Authorized) then Goto(s, p, Fetched)
      else Goto(s, p, Leaving(false))
    case Print(p, delivery) =>
      if !delivery.Acked? then Goto(s, p, Leaving(false))
      else if CountBypassed(s.router, ip) > 0 then Goto(s, p, Bound)
      else Goto(s, p, Printed)
    case Add(p) => Goto(s, p, Adding).(flight := s.flight + {p})
    case Land(p) =>
      var after := Bind(s, ip).(flight := s.flight - {p});
      if At(s, p, Adding) then Goto(after, p, Landed) else after
    case Drop(p) => s.(flight := s.flight - {p})
    case Reply(p) => Goto(s, p, Bound)
    case Lose(p) => Goto(s, p, Leaving(false))
    case Persist(p, delivery) =>
      var after := if delivery.NotDelivered? then s else s.(session := Some(Authorized));
      Goto(after, p, if delivery.Acked? then Stored else Leaving(false))
    case Index(p, ok) => Goto(s, p, Leaving(ok))
    case Unlock(p, reached) =>
      var after := s.(leases := s.leases - {p},
                      cell := if reached then L.Release(L.RedisBackend, s.cell, s.leases[p].token, s.now) else s.cell);
      Goto(after, p, Returned(s.pcs[p].ok))
    case Crash(p) => Goto(s.(leases := s.leases - {p}), p, Crashed)
  }

  ghost predicate Run(ip: string, s: State, acts: seq<Action>, t: State)
    decreases |acts|
  {
    if acts == [] then s == t
    else Enabled(ip, s, acts[0]) && Run(ip, Next(ip, s, acts[0]), acts[1..], t)
  }

  predicate Live(s: State, p: L.Pid) { p in s.leases && L.Held(L.RedisBackend, s.leases[p], s.now) }

  /** Every add is carried out while its call is inside, under a lock that has not
      run out. */
  ghost predicate Timely(ip: string, s: State, acts: seq<Action>)
    decreases |acts|
  {
    acts != [] && Enabled(ip, s, acts[0]) ==>
      (acts[0].Land? ==> Live(s, acts[0].p)) && Timely(ip, Next(ip, s, acts[0]), acts[1..])
  }

  /** No call yet, no lock, no binding for the IP, session not yet authorized. */
  ghost predicate Init(ip: string, s: State) {
    && s.cell == None && s.leases == map[] && s.used == {} && s.flight == {} && s.pcs == map[]
    && s.session != Some(Authorized)
    && CountBypassed(s.router, ip) == 0
  }

  /** The call has seen the binding on the router. */
  predicate Witnessed(pc: Pc) {
    pc.Landed? || pc.Bound? || pc.Stored? || pc == Leaving(true) || pc == Returned(true)
  }

  /** The call has written the session, or found it written. */
  predicate Recorded(pc: Pc) { pc.Stored? || pc == Leaving(true) || pc == Returned(true) }

  /** An add of the call may still be carried out. */
  predicate MayAdd(s: State, p: L.Pid) { At(s, p, Printed) || p in s.flight }

  /** Where a call may be while its add is on its way. */
  predicate Sent(pc: Pc) { pc.Adding? || pc == Leaving(false) || pc == Returned(false) || pc.Crashed? }

  /** A call holds a lease exactly inside its section; it has seen the binding it
      counts on; and none is there while it may still add one. */
  ghost predicate CallOk(ip: string, s: State, p: L.Pid)
    requires p in s.pcs
  {
    && (Inside(s.pcs[p]) <==> p in s.leases)
    && (Witnessed(s.pcs[p]) ==> CountBypassed(s.router, ip) == 1)
    && (Recorded(s.pcs[p]) ==> s.session in {None, Some(Authorized)})
    && (MayAdd(s, p) && Live(s, p) ==> CountBypassed(s.router, ip) == 0)
    && (p in s.flight ==> Sent(s.pcs[p]))
    && (p in s.leases ==> p in s.lockedAt && s.leases[p].expiresAt == s.lockedAt[p] + L.LOCK_TTL_MS)
  }

  ghost predicate Inv(ip: string, s: State) {
    && L.LeaseInv(L.RedisBackend, s.cell, s.leases, s.used, s.now)
    && s.leases.Keys <= s.pcs.Keys && s.flight <= s.pcs.Keys
    && CountBypassed(s.router, ip) <= 1
    && (s.session == Some(Authorized) ==> CountBypassed(s.router, ip) == 1)
    && (forall p | p in s.pcs :: CallOk(ip, s, p))
  }

  lemma TryLockKeepsInv(ip: string, s: State, p: L.Pid, token: L.Token)
    requires Inv(ip, s) && Enabled(ip, s, TryLock(p, token))
    ensures Inv(ip, Next(ip, s, TryLock(p, token)))
  {
    if L.Free(L.RedisBackend, s.cell, s.now) {
      var t := Next(ip, s, TryLock(p, token));
      assert CallOk(ip, s, p);
      L.AcquireKeepsLeases(L.RedisBackend, s.cell, s.leases, s.used, s.now, p, token, L.LOCK_TTL_MS);
      forall q | q in t.pcs ensures CallOk(ip, t, q) {
        assert CallOk(ip, s, q);
      }
    }
  }

  /** A call that moves on inside its section, having seen what its new place
      claims it has seen. */
  lemma GotoKeepsInv(ip: string, s: State, p: L.Pid, pc: Pc)
    requires Inv(ip, s) && p in s.leases && Inside(pc)
    requires Witnessed(pc) ==> CountBypassed(s.router, ip) == 1
    requires Recorded(pc) ==> s.session in {None, Some(Authorized)}
    requires (pc.Printed? ==> CountBypassed(s.router, ip) == 0) && (p in s.flight ==> Sent(pc))
    ensures Inv(ip, Goto(s, p, pc))
  {
    var t := Goto(s, p, pc);
    forall q | q in t.pcs ensures CallOk(ip, t, q) {
      assert CallOk(ip, s, q);
    }
  }

  /** While one call's lease is alive no other call may add. */
  lemma NobodyElseAdds(ip: string, s: State, p: L.Pid, q: L.Pid)
    requires Inv(ip, s) && Live(s, p) && Live(s, q)
    ensures p == q
  {
    L.LeaseExclusive(L.RedisBackend, s.cell, s.leases, s.used, s.now, p, q);
  }

  lemma SendKeepsInv(ip: string, s: State, a: Action)
    requires Inv(ip, s) && Enabled(ip, s, a) && (a.Add? || a.Drop?)
    ensures Inv(ip, Next(ip, s, a))
  {
    var t := Next(ip, s, a);
    forall q | q in t.pcs ensures CallOk(ip, t, q) {
      assert CallOk(ip, s, q);
    }
  }

  lemma CallAfterLand(ip: string, s: State, p: L.Pid, q: L.Pid)
    requires Inv(ip, s) && Enabled(ip, s, Land(p)) && Live(s, p) && q in s.pcs
    requires CountBypassed(s.router, ip) == 0 && CountBypassed(Next(ip, s, Land(p)).router, ip) == 1
    ensures CallOk(ip, Next(ip, s, Land(p)), q)
  {
    assert CallOk(ip, s, q);
    if Live(s, q) {
      NobodyElseAdds(ip, s, p, q);
    }
  }

  /** An add carried out under its call's lease makes the first binding. */
  lemma LandKeepsInv(ip: string, s: State, p: L.Pid)
    requires Inv(ip, s) && Enabled(ip, s, Land(p)) && Live(s, p)
    ensures Inv(ip, Next(ip, s, Land(p)))
    ensures CountBypassed(s.router, ip) == 0 && CountBypassed(Next(ip, s, Land(p)).router, ip) == 1
  {
    var t := Next(ip, s, Land(p));
    assert CallOk(ip, s, p);
    CountAppend(s.router, Binding(ip, BYPASSED, ""), ip);
    forall q | q in t.pcs ensures CallOk(ip, t, q) {
      CallAfterLand(ip, s, p, q);
    }
  }

  lemma ExitKeepsInv(ip: string, s: State, a: Action)
    requires Inv(ip, s) && Enabled(ip, s, a) && (a.Unlock? || a.Crash?)
    ensures Inv(ip, Next(ip, s, a))
  {
    var t := Next(ip, s, a);
    assert CallOk(ip, s, a.p);
    L.ReleaseKeepsLeases(L.RedisBackend, s.cell, s.leases, s.used, s.now, a.p);
    forall q | q in t.pcs ensures CallOk(ip, t, q) {
      assert CallOk(ip, s, q);
    }
  }

  lemma OutsideKeepsInv(ip: string, s: State, a: Action)
    requires Inv(ip, s) && Enabled(ip, s, a)
    requires a.Tick? || a.SessionGone? || a.Traffic? || a.Call? || a.GiveUp?
    ensures Inv(ip, Next(ip, s, a))
  {
    var t := Next(ip, s, a);
    if a.Tick? {
      L.TickKeepsLeases(L.RedisBackend, s.cell, s.leases, s.used, s.now, s.now + a.ms);
    }
    forall q | q in t.pcs ensures CallOk(ip, t, q) {
      if q in s.pcs {
        assert CallOk(ip, s, q);
      }
    }
  }

  lemma ReadKeepsInv(ip: string, s: State, p: L.Pid, pc: Pc)
    requires Inv(ip, s) && At(s, p, Locked)
    requires pc in {Fetched, Leaving(false)} || (pc == Leaving(true) && s.session == Some(Authorized))
    ensures Inv(ip, Goto(s, p, pc))
  {
    assert CallOk(ip, s, p);
    GotoKeepsInv(ip, s, p, pc);
  }

  lemma PrintKeepsInv(ip: string, s: State, p: L.Pid, pc: Pc)
    requires Inv(ip, s) && At(s, p, Fetched)
    requires pc == Leaving(false) || pc == if CountBypassed(s.router, ip) > 0 then Bound else Printed
    ensures Inv(ip, Goto(s, p, pc))
  {
    assert CallOk(ip, s, p);
    GotoKeepsInv(ip, s, p, pc);
  }

  lemma IndexKeepsInv(ip: string, s: State, p: L.Pid, ok: bool)
    requires Inv(ip, s) && At(s, p, Stored)
    ensures Inv(ip, Goto(s, p, Leaving(ok)))
  {
    assert CallOk(ip, s, p);
    GotoKeepsInv(ip, s, p, Leaving(ok));
  }

  lemma ReplyKeepsInv(ip: string, s: State, p: L.Pid, pc: Pc)
    requires Inv(ip, s) && (At(s, p, Landed) || (At(s, p, Adding) && pc.Leaving?)) && pc in {Bound, Leaving(false)}
    ensures Inv(ip, Goto(s, p, pc))
  {
    assert CallOk(ip, s, p);
    GotoKeepsInv(ip, s, p, pc);
  }

  /** A session is stored as authorized by a call that has seen the binding. */
  lemma StoredKeepsInv(ip: string, s: State)
    requires Inv(ip, s) && CountBypassed(s.router, ip) == 1
    ensures Inv(ip, s.(session := Some(Authorized)))
  {
    var t := s.(session := Some(Authorized));
    forall q | q in t.pcs ensures CallOk(ip, t, q) {
      assert CallOk(ip, s, q);
    }
  }

  lemma PersistKeepsInv(ip: string, s: State, p: L.Pid, d: Delivery)
    requires Inv(ip, s) && Enabled(ip, s, Persist(p, d))
    ensures Inv(ip, Next(ip, s, Persist(p, d)))
  {
    assert CallOk(ip, s, p);
    StoredKeepsInv(ip, s);
    var stored := if d.NotDelivered? then s else s.(session := Some(Authorized));
    GotoKeepsInv(ip, stored, p, if d.Acked? then Stored else Leaving(false));
  }

  lemma NextKeepsInv(ip: string, s: State, a: Action)
    requires Inv(ip, s) && Enabled(ip, s, a) && (a.Land? ==> Live(s, a.p))
    ensures Inv(ip, Next(ip, s, a))
  {
    match a
    case TryLock(p, token) => TryLockKeepsInv(ip, s, p, token);
    case Add(_) => SendKeepsInv(ip, s, a);
    case Drop(_) => SendKeepsInv(ip, s, a);
    case Land(p) => LandKeepsInv(ip, s, p);
    case Unlock(_, _) => ExitKeepsInv(ip, s, a);
    case Crash(_) => ExitKeepsInv(ip, s, a);
    case Persist(p, d) => PersistKeepsInv(ip, s, p, d);
    case Reply(p) => ReplyKeepsInv(ip, s, p, Bound);
    case Lose(p) => ReplyKeepsInv(ip, s, p, Leaving(false));
    case Read(p, _) => ReadKeepsInv(ip, s, p, Next(ip, s, a).pcs[p]);
    case Print(p, _) => PrintKeepsInv(ip, s, p, Next(ip, s, a).pcs[p]);
    case Index(p, ok) => IndexKeepsInv(ip, s, p, ok);
    case _ => OutsideKeepsInv(ip, s, a);
  }

  lemma {:induction false} RunKeepsInv(ip: string, s: State, acts: seq<Action>, t: State)
    requires Inv(ip, s) && Run(ip, s, acts, t) && Timely(ip, s, acts)
    ensures Inv(ip, t)
    decreases |acts|
  {
    if acts != [] {
      NextKeepsInv(ip, s, acts[0]);
      RunKeepsInv(ip, Next(ip, s, acts[0]), acts[1..], t);
    }
  }

  /** Over every interleaving, with failures and crashes anywhere, adds being
      carried out under their calls' leases or not at all: never two bypassed
      bindings for the IP; a session stored as authorized has its binding; and a
      call that returned success has the binding, and the session stored as
      authorized, unless its key has expired since. */
  lemma NeverTwoBindings(ip: string, s: State, acts: seq<Action>, t: State)
    requires Init(ip, s) && Run(ip, s, acts, t) && Timely(ip, s, acts)
    ensures CountBypassed(t.router, ip) <= 1
    ensures t.session == Some(Authorized) ==> CountBypassed(t.router, ip) == 1
    ensures forall p | At(t, p, Stored) || At(t, p, Leaving(true)) || At(t, p, Returned(true)) ::
              && CountBypassed(t.router, ip) == 1
              && (t.session == Some(Authorized) || t.session == None)
              && (s.session.Some? && SessionGone !in acts ==> t.session == Some(Authorized))
  {
    RunKeepsInv(ip, s, acts, t);
    assert forall p | p in t.pcs :: CallOk(ip, t, p);
    if s.session.Some? && SessionGone !in acts {
      SessionStays(ip, s, acts, t);
    }
  }

  lemma {:induction false} SessionStays(ip: string, s: State, acts: seq<Action>, t: State)
    requires s.session.Some? && SessionGone !in acts && Run(ip, s, acts, t)
    ensures t.session.Some?
    decreases |acts|
  {
    if acts != [] {
      assert acts[0] in acts && forall a | a in acts[1..] :: a in acts;
      SessionStays(ip, Next(ip, s, acts[0]), acts[1..], t);
    }
  }

  // --------------------------------------------------------- calls that succeed

  /** The call is inside under a live lease, and nothing has gone wrong for it. */
  ghost predicate Good(s: State, p: L.Pid) {
    && p in s.pcs && Live(s, p) && s.session.Some?
    && match s.pcs[p]
       case Locked => s.session.value != Revoked
       case Adding => p in s.flight
       case Leaving(ok) => ok
       case pc => Inside(pc)
  }

  /** Its next step, with router and Redis there and acknowledging. */
  function GoodStep(p: L.Pid, pc: Pc): Action {
    match pc
    case Locked => Read(p, true)
    case Fetched => Print(p, Acked)
    case Printed => Add(p)
    case Adding => Land(p)
    case Landed => Reply(p)
    case Bound => Persist(p, Acked)
    case Stored => Index(p, true)
    case _ => Unlock(p, true)
  }

  function StepsLeft(pc: Pc): nat {
    match pc
    case Locked => 8
    case Fetched => 7
    case Printed => 6
    case Adding => 5
    case Landed => 4
    case Bound => 3
    case Stored => 2
    case Leaving(_) => 1
    case _ => 0
  }

  lemma GoodStays(ip: string, s: State, p: L.Pid)
    requires Good(s, p)
    ensures var a := GoodStep(p, s.pcs[p]);
            && Enabled(ip, s, a) && (a.Land? ==> Live(s, a.p))
            && var t := Next(ip, s, a);
               && (if s.pcs[p].Leaving? then At(t, p, Returned(true)) && t.session.Some?
                   else Good(t, p) && StepsLeft(t.pcs[p]) < StepsLeft(s.pcs[p]))
  {
  }

  lemma StepBefore(ip: string, s: State, a: Action, acts: seq<Action>, t: State)
    requires Enabled(ip, s, a) && (a.Land? ==> Live(s, a.p))
    requires Run(ip, Next(ip, s, a), acts, t) && Timely(ip, Next(ip, s, a), acts)
    ensures Run(ip, s, [a] + acts, t) && Timely(ip, s, [a] + acts)
  {
    assert ([a] + acts)[1..] == acts;
  }

  lemma {:induction false} GoodEnds(ip: string, s: State, p: L.Pid) returns (acts: seq<Action>, t: State)
    requires Inv(ip, s) && Good(s, p)
    ensures Run(ip, s, acts, t) && Timely(ip, s, acts) && At(t, p, Returned(true)) && t.session.Some? && Inv(ip, t)
    decreases StepsLeft(s.pcs[p])
  {
    GoodStays(ip, s, p);
    var a := GoodStep(p, s.pcs[p]);
    NextKeepsInv(ip, s, a);
    if s.pcs[p].Leaving? {
      acts, t := [], Next(ip, s, a);
    } else {
      acts, t := GoodEnds(ip, Next(ip, s, a), p);
    }
    StepBefore(ip, s, a, acts, t);
    acts := [a] + acts;
  }

  /** A call that gets the free lock of a session that may be authorized, and finds
      router and Redis there, authorizes it: from any state that other calls have
      left, in whatever place. */
  lemma CallSucceeds(ip: string, s: State, p: L.Pid, token: L.Token) returns (acts: seq<Action>, t: State)
    requires Inv(ip, s) && p !in s.pcs && token !in s.used && L.Free(L.RedisBackend, s.cell, s.now)
    requires s.session.Some? && s.session.value != Revoked
    ensures Run(ip, s, acts, t) && Timely(ip, s, acts)
    ensures At(t, p, Returned(true)) && t.session == Some(Authorized) && CountBypassed(t.router, ip) == 1
  {
    var s1 := Next(ip, s, Call(p));
    NextKeepsInv(ip, s, Call(p));
    acts, t := WaiterSucceeds(ip, s1, p, token);
    StepBefore(ip, s, Call(p), acts, t);
    acts := [Call(p)] + acts;
  }

  lemma WaiterSucceeds(ip: string, s: State, p: L.Pid, token: L.Token) returns (acts: seq<Action>, t: State)
    requires Inv(ip, s) && At(s, p, Waiting) && token !in s.used && L.Free(L.RedisBackend, s.cell, s.now)
    requires s.session.Some? && s.session.value != Revoked
    ensures Run(ip, s, acts, t) && Timely(ip, s, acts)
    ensures At(t, p, Returned(true)) && t.session == Some(Authorized) && CountBypassed(t.router, ip) == 1
  {
    NextKeepsInv(ip, s, TryLock(p, token));
    acts, t := GoodEnds(ip, Next(ip, s, TryLock(p, token)), p);
    StepBefore(ip, s, TryLock(p, token), acts, t);
    acts := [TryLock(p, token)] + acts;
    assert CallOk(ip, t, p);
  }

  /** A call that is leaving can only unlock or crash; one that has ended stays so. */
  lemma LeavingIsFinal(ip: string, s: State, a: Action, p: L.Pid)
    requires Enabled(ip, s, a) && p in s.pcs
    ensures var t := Next(ip, s, a);
            && p in t.pcs
            && (s.pcs[p].Leaving? ==> t.pcs[p] in {s.pcs[p], Returned(s.pcs[p].ok), Crashed})
            && (s.pcs[p].Returned? || s.pcs[p].Crashed? ==> t.pcs[p] == s.pcs[p])
  {
  }

  lemma {:induction false} EndIsFinal(ip: string, s: State, acts: seq<Action>, t: State, p: L.Pid)
    requires Run(ip, s, acts, t) && p in s.pcs && s.pcs[p] in {Leaving(false), Returned(false), Crashed}
    ensures p in t.pcs && t.pcs[p] in {Leaving(false), Returned(false), Crashed}
    decreases |acts|
  {
    if acts != [] {
      LeavingIsFinal(ip, s, acts[0], p);
      EndIsFinal(ip, Next(ip, s, acts[0]), acts[1..], t, p);
    }
  }

  /** Something the call needs does not happen, or its outcome does not reach it. */
  predicate Fails(a: Action, p: L.Pid) {
    match a
    case GiveUp(q) => q == p
    case Read(q, reached) => q == p && !reached
    case Print(q, delivery) => q == p && !delivery.Acked?
    case Lose(q) => q == p
    case Persist(q, delivery) => q == p && !delivery.Acked?
    case Index(q, ok) => q == p && !ok
    case Crash(q) => q == p
    case _ => false
  }

  /** Then it does not return success, whatever happens later. */
  lemma {:induction false} FailureIsReported(ip: string, s: State, acts: seq<Action>, t: State, p: L.Pid, i: nat)
    requires Run(ip, s, acts, t) && i < |acts| && Fails(acts[i], p)
    ensures !At(t, p, Returned(true))
    decreases |acts|
  {
    var next := Next(ip, s, acts[0]);
    if i == 0 {
      EndIsFinal(ip, next, acts[1..], t, p);
    } else {
      FailureIsReported(ip, next, acts[1..], t, p, i - 1);
    }
  }

  /** What else a step does to the world: a command that never got there changes
      nothing, a crash leaves the lock behind, an add lands once. */
  lemma WorldAfter(ip: string, s: State, a: Action)
    requires Enabled(ip, s, a)
    ensures var t := Next(ip, s, a);
            && t.router == (if a.Traffic? then a.table
                            else if a.Land? then s.router + [Binding(ip, "bypassed", "")] else s.router)
            && t.session == (if a.SessionGone? then None
                             else if a.Persist? && !a.delivery.NotDelivered? then Some(Authorized) else s.session)
            && (a.Drop? || a.Land? ==> t.flight == s.flight - {a.p}) && (a.Add? ==> t.flight == s.flight + {a.p})
            && (t.cell != s.cell ==> a.TryLock? || (a.Unlock? && a.reached))
            && (a.Crash? ==> t.leases == s.leases - {a.p} && At(t, a.p, Crashed))
            && t.now == s.now + (if a.Tick? then a.ms else 0)
  {
  }

  /** Nobody gets past reading the session. */
  ghost predicate Refused(s: State) {
    && s.session in {None, Some(Revoked)} && s.flight == {}
    && forall p | p in s.pcs :: s.pcs[p] in {Waiting, Locked, Leaving(false), Returned(false), Crashed}
  }

  /** A session that was revoked is never bound or authorized again. */
  lemma {:induction false} RevokedStaysOut(ip: string, s: State, acts: seq<Action>, t: State)
    requires Refused(s) && Run(ip, s, acts, t)
    ensures Refused(t) && CountBypassed(t.router, ip) == CountBypassed(s.router, ip)
    decreases |acts|
  {
    if acts != [] {
      RefusedStep(ip, s, acts[0]);
      RevokedStaysOut(ip, Next(ip, s, acts[0]), acts[1..], t);
    }
  }

  lemma RefusedStep(ip: string, s: State, a: Action)
    requires Refused(s) && Enabled(ip, s, a)
    ensures Refused(Next(ip, s, a)) && CountBypassed(Next(ip, s, a).router, ip) == CountBypassed(s.router, ip)
  {
  }

  // --------------------------------------------------------- how long it takes

  /** Every add is carried out at most so long after its call took the lock, and,
      unless `late`, while the call is inside. */
  predicate InTimeStep(s: State, a: Action, most: nat, late: bool) {
    a.Land? ==> a.p in s.lockedAt && s.now <= s.lockedAt[a.p] + most && (late || a.p in s.leases)
  }

  ghost predicate InTime(ip: string, s: State, acts: seq<Action>, most: nat, late: bool)
    decreases |acts|
  {
    acts != [] && Enabled(ip, s, acts[0]) ==>
      InTimeStep(s, acts[0], most, late) && InTime(ip, Next(ip, s, acts[0]), acts[1..], most, late)
  }

  lemma {:induction false} InTimeIsTimely(ip: string, s: State, acts: seq<Action>, most: nat)
    requires Inv(ip, s) && InTime(ip, s, acts, most, false) && most < L.LOCK_TTL_MS
    ensures Timely(ip, s, acts)
    decreases |acts|
  {
    if acts != [] && Enabled(ip, s, acts[0]) {
      if acts[0].Land? {
        assert CallOk(ip, s, acts[0].p);
      }
      NextKeepsInv(ip, s, acts[0]);
      InTimeIsTimely(ip, Next(ip, s, acts[0]), acts[1..], most);
    }
  }

  ghost predicate OneIfInTime(ip: string, s: State, acts: seq<Action>, t: State, most: nat, late: bool) {
    Init(ip, s) && Run(ip, s, acts, t) && InTime(ip, s, acts, most, late) ==> CountBypassed(t.router, ip) <= 1
  }

  ghost predicate AlwaysOne(ip: string, most: nat, late: bool) {
    forall s, acts, t :: OneIfInTime(ip, s, acts, t, most, late)
  }

  /** No run binds the IP twice, exactly when every add is carried out before its
      call's lock can run out, and never after its call has left. */
  lemma OneBindingIff(ip: string, most: nat, late: bool)
    ensures AlwaysOne(ip, most, late) <==> most < L.LOCK_TTL_MS && !late
  {
    if most < L.LOCK_TTL_MS && !late {
      forall s, acts, t ensures OneIfInTime(ip, s, acts, t, most, late) {
        if Init(ip, s) && Run(ip, s, acts, t) && InTime(ip, s, acts, most, late) {
          InTimeIsTimely(ip, s, acts, most);
          NeverTwoBindings(ip, s, acts, t);
        }
      }
    } else {
      var acts, t := BindsTwice(ip, most, late);
      assert !OneIfInTime(ip, Start(), acts, t, most, late);
    }
  }

  function Start(): State { State(0, None, map[], {}, map[], Some(Pending), [], {}, map[]) }

  ghost predicate Reached(ip: string, most: nat, late: bool, acts: seq<Action>, t: State) {
    Run(ip, Start(), acts, t) && InTime(ip, Start(), acts, most, late)
  }

  lemma CarryOn(ip: string, most: nat, late: bool, acts: seq<Action>, t: State, a: Action)
    returns (longer: seq<Action>, u: State)
    requires Reached(ip, most, late, acts, t) && Enabled(ip, t, a) && InTimeStep(t, a, most, late)
    ensures u == Next(ip, t, a) && Reached(ip, most, late, longer, u)
  {
    longer, u := acts + [a], Next(ip, t, a);
    RunSnoc(ip, Start(), acts, t, a, most, late);
  }

  lemma {:induction false} RunSnoc(ip: string, s: State, acts: seq<Action>, t: State, a: Action, most: nat, late: bool)
    requires Run(ip, s, acts, t) && InTime(ip, s, acts, most, late) && Enabled(ip, t, a) && InTimeStep(t, a, most, late)
    ensures Run(ip, s, acts + [a], Next(ip, t, a)) && InTime(ip, s, acts + [a], most, late)
    decreases |acts|
  {
    if acts == [] {
      assert Run(ip, Next(ip, s, a), [], Next(ip, s, a));
    } else {
      assert (acts + [a])[1..] == acts[1..] + [a];
      RunSnoc(ip, Next(ip, s, acts[0]), acts[1..], t, a, most, late);
    }
  }

  lemma Reads(ip: string, most: nat, late: bool, acts: seq<Action>, t: State, p: L.Pid, token: L.Token)
    returns (longer: seq<Action>, u: State)
    requires Reached(ip, most, late, acts, t) && At(t, p, Waiting) && token !in t.used
    requires L.Free(L.RedisBackend, t.cell, t.now) && t.session == Some(Pending)
    ensures Reached(ip, most, late, longer, u)
    ensures var lock := L.Lock(token, t.now + L.LOCK_TTL_MS);
            u == t.(cell := Some(lock), leases := t.leases[p := lock], used := t.used + {token},
                    lockedAt := t.lockedAt[p := t.now], pcs := t.pcs[p := Fetched])
  {
    longer, u := CarryOn(ip, most, late, acts, t, TryLock(p, token));
    longer, u := CarryOn(ip, most, late, longer, u, Read(p, true));
    assert t.pcs[p := Locked][p := Fetched] == t.pcs[p := Fetched];
  }

  /** A call gets the lock, sees no binding and sends its add. */
  lemma Sends(ip: string, most: nat, late: bool, acts: seq<Action>, t: State, p: L.Pid, token: L.Token)
    returns (longer: seq<Action>, u: State)
    requires Reached(ip, most, late, acts, t) && At(t, p, Waiting) && token !in t.used
    requires L.Free(L.RedisBackend, t.cell, t.now) && t.session == Some(Pending) && t.router == []
    ensures Reached(ip, most, late, longer, u)
    ensures var lock := L.Lock(token, t.now + L.LOCK_TTL_MS);
            u == t.(cell := Some(lock), leases := t.leases[p := lock], used := t.used + {token},
                    lockedAt := t.lockedAt[p := t.now], flight := t.flight + {p}, pcs := t.pcs[p := Adding])
  {
    longer, u := Reads(ip, most, late, acts, t, p, token);
    longer, u := CarryOn(ip, most, late, longer, u, Print(p, Acked));
    longer, u := CarryOn(ip, most, late, longer, u, Add(p));
    assert t.pcs[p := Fetched][p := Printed][p := Adding] == t.pcs[p := Adding];
  }

  lemma FirstSends(ip: string, most: nat, late: bool) returns (acts: seq<Action>, t: State)
    ensures Reached(ip, most, late, acts, t)
    ensures var lock := L.Lock(10, L.LOCK_TTL_MS);
            t == State(0, Some(lock), map[1 := lock], {10}, map[1 := 0], Some(Pending), [], {1},
                       map[1 := Adding, 2 := Waiting])
  {
    acts, t := [], Start();
    acts, t := CarryOn(ip, most, late, acts, t, Call(1));
    acts, t := CarryOn(ip, most, late, acts, t, Call(2));
    acts, t := Sends(ip, most, late, acts, t, 1, 10);
  }

  /** The first call's lock runs out, or the call gives up and unlocks. */
  lemma LockIsFree(ip: string, most: nat, late: bool) returns (acts: seq<Action>, t: State)
    requires late || L.LOCK_TTL_MS <= most
    ensures Reached(ip, most, late, acts, t) && At(t, 2, Waiting) && t.used == {10} && t.lockedAt == map[1 := 0]
    ensures L.Free(L.RedisBackend, t.cell, t.now) && t.session == Some(Pending) && t.router == [] && t.flight == {1}
    ensures t.now <= most && (late || 1 in t.leases)
  {
    acts, t := FirstSends(ip, most, late);
    if late {
      acts, t := CarryOn(ip, most, late, acts, t, Lose(1));
      acts, t := CarryOn(ip, most, late, acts, t, Unlock(1, true));
    } else {
      acts, t := CarryOn(ip, most, late, acts, t, Tick(L.LOCK_TTL_MS));
    }
  }

  lemma BothSent(ip: string, most: nat, late: bool) returns (acts: seq<Action>, t: State)
    requires late || L.LOCK_TTL_MS <= most
    ensures Reached(ip, most, late, acts, t) && t.router == [] && t.flight == {1, 2}
    ensures InTimeStep(t, Land(1), most, late) && InTimeStep(t, Land(2), most, late)
  {
    acts, t := LockIsFree(ip, most, late);
    acts, t := Sends(ip, most, late, acts, t, 2, 20);
  }

  lemma BindsTwice(ip: string, most: nat, late: bool) returns (acts: seq<Action>, t: State)
    requires late || L.LOCK_TTL_MS <= most
    ensures Reached(ip, most, late, acts, t) && CountBypassed(t.router, ip) == 2
  {
    acts, t := BothSent(ip, most, late);
    acts, t := CarryOn(ip, most, late, acts, t, Land(2));
    acts, t := CarryOn(ip, most, late, acts, t, Land(1));
    var b := Binding(ip, BYPASSED, "");
    CountAppend([], b, ip);
    CountAppend([b], b, ip);
    assert [] + [b] == [b] && t.router == [b] + [b];
  }
}
