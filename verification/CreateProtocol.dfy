/**
 Any number of getOrCreateSession calls for one MAC, interleaved between every
 two Redis commands (sessionStore.js 427-579 with 147-213, 219-281, 283-371).
 */
module CreateProtocol {
  import opened Basics
  import opened SessionData
  import L = TokenLock

  datatype Request = Request(ip: Option<string>, mac: Option<string>, pedido: Option<string>)

  /** What a lookup goes by. */
  datatype By = ByPedido | ByMac | ByIp

  /** Where one call stands: the Redis command it sends next. `locked` tells the
      second round of lookups, made inside the create lock, from the first. */
  datatype Pc =
    | Look(via: By, locked: bool)              // GET of the index
    | Fetch(via: By, id: Id, locked: bool)     // GET of the session it names
    | Orphan(via: By, locked: bool)            // DEL of an index naming no session
    | Update(via: By, id: Id, locked: bool)    // updateSession's own GET
    | Write(session: Session, ttl: int, todo: seq<Key>, locked: bool)  // its SETs, in order
    | WaitLock
    | Create                                  // about to draw a session id
    | Unlock(result: Option<Id>)
    | Returned(id: Id)
    | LockTimedOut
    | Threw                                   // `updated` was null

  datatype Call = Call(req: Request, pc: Pc)

  datatype State = State(
    now: int, cells: map<string, L.Lock>, leases: map<L.Pid, L.Lock>, used: set<L.Token>,
    store: Store, created: set<Id>, maker: L.Pid, calls: map<L.Pid, Call>)

  datatype Action =
    | Tick(ms: nat)
    | Begin(p: L.Pid, req: Request)
    | TryLock(p: L.Pid, token: L.Token)
    | TimeOut(p: L.Pid)
    | Draw(p: L.Pid, id: Id)      // buildSession with a random UUID
    | Step(p: L.Pid)              // the next Redis command of the call

  // -------------------------------------------------------------- one command

  function Fingerprint(req: Request): Option<string> {
    if req.pedido.Some? then req.pedido else if req.mac.Some? then req.mac else req.ip
  }

  /** What the create lock is named after. */
  function LockName(req: Request): string { if Fingerprint(req).Some? then Fingerprint(req).value else "" }

  function IndexKey(req: Request, via: By): Option<Key> {
    match via
    case ByPedido => if req.pedido.Some? then Some(PedidoKey(req.pedido.value)) else None
    case ByMac => if req.mac.Some? then Some(MacKey(req.mac.value)) else None
    case ByIp => if req.ip.Some? then Some(IpKey(req.ip.value)) else None
  }

  /** The lookup made after the given ones came to nothing: pedido, MAC and IP
      before the lock, pedido and MAC again inside it. */
  function Onward(req: Request, after: seq<By>, locked: bool): (pc: Pc)
    ensures Locked(pc) == locked
    ensures pc.Look? || pc == Create || pc == WaitLock
    ensures pc.Look? ==> pc.via in after && IndexKey(req, pc.via).Some?
    ensures pc.Create? ==> forall v | v in after :: IndexKey(req, v).None?
    decreases |after|
  {
    if after == [] then (if locked then Create else WaitLock)
    else if IndexKey(req, after[0]).Some? then Look(after[0], locked)
    else Onward(req, after[1..], locked)
  }

  function Round(locked: bool): seq<By> { if locked then [ByPedido, ByMac] else [ByPedido, ByMac, ByIp] }

  function NotFound(req: Request, via: By, locked: bool): Pc {
    Onward(req, match via case ByPedido => Round(locked)[1..] case ByMac => Round(locked)[2..] case ByIp => [], locked)
  }

  /** `{ ...existing, ...data }` with the fields each call site passes: a session
      reused keeps what it is and has; the request gives its IP, unless the session
      was found by it, and its MAC, unless it was found by that. */
  function Merge(existing: Session, req: Request, via: By): (merged: Session)
    ensures merged.id == existing.id && merged.status == existing.status
    ensures merged.pedido == existing.pedido && merged.expiresAt == existing.expiresAt
    ensures merged.ip == if via == ByIp then existing.ip else req.ip
    ensures merged.mac == if via == ByMac then existing.mac else req.mac
  {
    match via
    case ByPedido => existing.(ip := req.ip, mac := req.mac)
    case ByMac => existing.(ip := req.ip)
    case ByIp => existing.(mac := req.mac)
  }

  function Writes(s: Session): seq<Key> { [SessionKey(s.id)] + IndexKeys(s) }

  function Finish(id: Id, locked: bool): Pc { if locked then Unlock(Some(id)) else Returned(id) }

  function Fail(locked: bool): Pc { if locked then Unlock(None) else Threw }

  predicate Locked(pc: Pc) {
    match pc
    case Look(_, l) => l
    case Fetch(_, _, l) => l
    case Orphan(_, l) => l
    case Update(_, _, l) => l
    case Write(_, _, _, l) => l
    case Create => true
    case Unlock(_) => true
    case _ => false
  }

  predicate Ready(call: Call) {
    match call.pc
    case Look(via, _) => IndexKey(call.req, via).Some?
    case Fetch(_, _, _) => true
    case Orphan(via, _) => IndexKey(call.req, via).Some?
    case Update(_, _, _) => true
    case Write(_, _, todo, _) => todo != []
    case Unlock(_) => true
    case _ => false
  }

  function Cell(s: State, fp: string): Option<L.Lock> { if fp in s.cells then Some(s.cells[fp]) else None }

  function WithCell(s: State, fp: string, cell: Option<L.Lock>): State {
    s.(cells := if cell.Some? then s.cells[fp := cell.value] else s.cells - {fp})
  }

  function Goto(s: State, p: L.Pid, pc: Pc): State
    requires p in s.calls
  {
    s.(calls := s.calls[p := s.calls[p].(pc := pc)])
  }

  function StepCall(s: State, p: L.Pid): State
    requires p in s.calls && Ready(s.calls[p])
    requires s.calls[p].pc.Unlock? ==> p in s.leases
  {
    var Call(req, pc) := s.calls[p];
    match pc
    case Look(via, locked) =>
      var hit := Get(s.store, IndexKey(req, via).value, s.now);
      if hit.Some? && hit.value.IdValue? then Goto(s, p, Fetch(via, hit.value.id, locked))
      else Goto(s, p, NotFound(req, via, locked))
    case Fetch(via, id, locked) =>
      if GetSession(s.store, id, s.now).Some? then Goto(s, p, Update(via, id, locked))
      else Goto(s, p, Orphan(via, locked))
    case Orphan(via, locked) =>
      Goto(s.(store := s.store - {IndexKey(req, via).value}), p, NotFound(req, via, locked))
    case Update(via, id, locked) =>
      var existing := GetSession(s.store, id, s.now);
      if existing.Some?
      then var merged := Merge(existing.value, req, via);
           Goto(s, p, Write(merged, ComputeTtl(merged, s.now), Writes(merged), locked))
      else Goto(s, p, Fail(locked))
    case Write(session, ttl, todo, locked) =>
      var after := s.(store := Set(s.store, session, todo[0], ttl, s.now));
      Goto(after, p, if |todo| == 1 then Finish(session.id, locked) else Write(session, ttl, todo[1..], locked))
    case Unlock(result) =>
      var fp := LockName(req);
      var cell := L.Release(L.RedisBackend, Cell(s, fp), s.leases[p].token, s.now);
      var after := WithCell(s, fp, cell).(leases := s.leases - {p});
      Goto(after, p, if result.Some? then Returned(result.value) else Threw)
  }

  /** An index whose session is gone is deleted, and the next lookup made; a session
      gone between its lookup and its update makes the call throw, once the lock is
      given back. */
  lemma GoneIs(s: State, p: L.Pid)
    requires p in s.calls && Ready(s.calls[p]) && !s.calls[p].pc.Unlock?
    ensures var Call(req, pc) := s.calls[p];
            var t := StepCall(s, p);
            match pc
            case Fetch(via, id, locked) =>
              GetSession(s.store, id, s.now).None? ==> t == Goto(s, p, Orphan(via, locked))
            case Orphan(via, locked) =>
              && t.store == s.store - {IndexKey(req, via).value}
              && t.calls[p].pc == NotFound(req, via, locked)
            case Update(_, id, locked) =>
              GetSession(s.store, id, s.now).None? ==> t == Goto(s, p, if locked then Unlock(None) else Threw)
            case _ => true
  {
  }

  // ------------------------------------------------------------ state machine

  /** All calls carry this MAC, and fingerprints among these; while any of them
      runs, no key expires and no critical section outlives its lock. */
  predicate Enabled(mac: string, fps: set<string>, s: State, a: Action) {
    match a
    case Tick(ms) =>
      && (forall k | k in s.store :: s.now + ms < s.store[k].expiresAt)
      && (forall p | p in s.leases :: L.Held(L.RedisBackend, s.leases[p], s.now + ms))
    case Begin(p, req) => p !in s.calls && req.mac == Some(mac) && Fingerprint(req).Some? && LockName(req) in fps
    case TryLock(p, token) => p in s.calls && s.calls[p].pc.WaitLock? && token !in s.used
    case TimeOut(p) => p in s.calls && s.calls[p].pc.WaitLock?
    case Draw(p, id) => p in s.calls && s.calls[p].pc.Create? && id !in s.created
    case Step(p) => p in s.calls && Ready(s.calls[p]) && (s.calls[p].pc.Unlock? ==> p in s.leases)
  }

  function Next(mac: string, fps: set<string>, s: State, a: Action): State
    requires Enabled(mac, fps, s, a)
  {
    match a
    case Tick(ms) => s.(now := s.now + ms)
    case Begin(p, req) => s.(calls := s.calls[p := Call(req, Onward(req, Round(false), false))])
    case TryLock(p, token) =>
      var req := s.calls[p].req;
      var cell := Cell(s, LockName(req));
      if L.Free(L.RedisBackend, cell, s.now)
      then Goto(WithCell(s, LockName(req), L.Acquire(L.RedisBackend, cell, token, L.LOCK_TTL_MS, s.now)).(
                  leases := s.leases[p := L.Lock(token, s.now + L.LOCK_TTL_MS)],
                  used := s.used + {token}), p, Onward(req, Round(true), true))
      else s
    case TimeOut(p) => Goto(s, p, LockTimedOut)
    case Draw(p, id) =>
      // createSession is not given the pedidoId
      var session := Session(id, s.calls[p].req.ip, s.calls[p].req.mac, None, Pending, None);
      Goto(s.(created := s.created + {id}, maker := p), p, Write(session, CREATE_TTL_MS, Writes(session), true))
    case Step(p) => StepCall(s, p)
  }

  /** Time passes for all; a call that has waited too long is out, and the rest as it
      was. */
  lemma OutsideStep(mac: string, fps: set<string>, s: State, a: Action)
    requires Enabled(mac, fps, s, a)
    ensures var t := Next(mac, fps, s, a);
            match a
            case Tick(ms) => t == s.(now := s.now + ms)
            case TimeOut(p) => t == s.(calls := s.calls[p := Call(s.calls[p].req, LockTimedOut)])
            case _ => t.now == s.now
  {
  }

  ghost predicate Run(mac: string, fps: set<string>, s: State, acts: seq<Action>, t: State)
    decreases |acts|
  {
    if acts == [] then s == t
    else Enabled(mac, fps, s, acts[0]) && Run(mac, fps, Next(mac, fps, s, acts[0]), acts[1..], t)
  }

  ghost predicate Init(s: State) {
    && s.cells == map[] && s.leases == map[] && s.used == {}
    && s.store == map[] && s.created == {} && s.calls == map[]
  }

  // ---------------------------------------------------------------- invariant

  /** The id names a created session that is in the store. */
  predicate Published(s: State, id: Id) { id in s.created && SessionKey(id) in s.store }

  predicate Genuine(mac: string, s: State, session: Session) {
    && session.id in s.created && session.mac == Some(mac) && session.pedido == None
    && session.status == Pending && session.expiresAt == None
  }

  predicate EntryOk(mac: string, s: State, k: Key)
    requires k in s.store
  {
    && s.now < s.store[k].expiresAt
    && !k.PedidoKey?
    && (if k.SessionKey? then
          && s.store[k].value.SessionValue?
          && s.store[k].value.session.id == k.id
          && Genuine(mac, s, s.store[k].value.session)
        else s.store[k].value.IdValue? && Published(s, s.store[k].value.id))
  }

  ghost predicate StoreOk(mac: string, s: State) {
    forall k {:trigger EntryOk(mac, s, k)} | k in s.store :: EntryOk(mac, s, k)
  }

  /** What a call leaves behind is filed under its MAC and its IP, or will be. */
  predicate Filed(mac: string, s: State, req: Request, todo: seq<Key>) {
    && (MacKey(mac) in s.store || MacKey(mac) in todo)
    && (req.ip.Some? ==> IpKey(req.ip.value) in s.store || IpKey(req.ip.value) in todo)
  }

  /** The index a session was found by. */
  predicate Found(s: State, req: Request, via: By) { IndexKey(req, via).Some? && IndexKey(req, via).value in s.store }

  predicate CallOk(mac: string, s: State, call: Call) {
    && call.req.mac == Some(mac)
    && match call.pc
       case Look(via, locked) => IndexKey(call.req, via).Some? && !(via == ByIp && locked)
       case Fetch(via, id, _) => Published(s, id) && Found(s, call.req, via)
       case Update(via, id, _) => Published(s, id) && Found(s, call.req, via)
       case Write(session, ttl, todo, _) =>
         && ttl > 0 && todo != [] && Genuine(mac, s, session)
         && (todo[0] == SessionKey(session.id) || SessionKey(session.id) in s.store)
         && (forall k | k in todo :: k == SessionKey(session.id) || k == MacKey(mac) || k.IpKey?)
         && Filed(mac, s, call.req, todo)
       case Create => s.created == {}
       case Unlock(result) => result.Some? && Published(s, result.value) && Filed(mac, s, call.req, [])
       case Returned(id) => Published(s, id) && Filed(mac, s, call.req, [])
       case Orphan(_, _) => false
       case Threw => false
       case WaitLock => true
       case LockTimedOut => true
  }

  /** While the MAC index is missing, the session's maker is still inside the
      lock, on its way to writing it. */
  predicate IndexComing(mac: string, s: State) {
    s.created != {} && MacKey(mac) !in s.store ==>
      && s.maker in s.leases && s.maker in s.calls
      && s.calls[s.maker].pc.Write? && MacKey(mac) in s.calls[s.maker].pc.todo
  }

  /** A call is inside the lock exactly when it holds a lease. */
  ghost predicate CallAt(mac: string, fp: string, s: State, p: L.Pid)
    requires p in s.calls
  {
    LockName(s.calls[p].req) == fp && (Locked(s.calls[p].pc) <==> p in s.leases) && CallOk(mac, s, s.calls[p])
  }

  ghost predicate LeaseAt(s: State, p: L.Pid)
    requires p in s.leases
  {
    L.Held(L.RedisBackend, s.leases[p], s.now) && p in s.calls
  }

  ghost predicate Inv(mac: string, fp: string, s: State) {
    && L.LeaseInv(L.RedisBackend, Cell(s, fp), s.leases, s.used, s.now)
    && (forall p {:trigger LeaseAt(s, p)} | p in s.leases :: LeaseAt(s, p))
    && (forall p {:trigger CallAt(mac, fp, s, p)} | p in s.calls :: CallAt(mac, fp, s, p))
    && StoreOk(mac, s)
    && (forall i, j | i in s.created && j in s.created :: i == j)
    && IndexComing(mac, s)
  }

  /** Time, store and sessions as they were: only calls and leases have moved. */
  ghost predicate SameStore(s: State, t: State) { t.store == s.store && t.created == s.created && t.now == s.now }

  lemma SameStoreOk(mac: string, s: State, t: State)
    requires SameStore(s, t) && StoreOk(mac, s)
    ensures StoreOk(mac, t)
  {
    forall k | k in t.store ensures EntryOk(mac, t, k) {
      assert EntryOk(mac, s, k);
    }
  }

  lemma SameCallOk(mac: string, s: State, t: State, call: Call)
    requires t.store == s.store && t.created == s.created && CallOk(mac, s, call)
    ensures CallOk(mac, t, call)
  {
  }

  lemma Alone(mac: string, fp: string, s: State, p: L.Pid, q: L.Pid)
    requires Inv(mac, fp, s) && p in s.leases && q in s.leases
    ensures p == q
  {
    assert LeaseAt(s, p) && LeaseAt(s, q);
    L.LeaseExclusive(L.RedisBackend, Cell(s, fp), s.leases, s.used, s.now, p, q);
  }

  /** A call inside the lock that finds no MAC index proves nothing was created. */
  lemma MissProvesNone(mac: string, fp: string, s: State, p: L.Pid)
    requires Inv(mac, fp, s) && p in s.leases && p in s.calls && s.calls[p].pc == Look(ByMac, true)
    requires MacKey(mac) !in s.store
    ensures s.created == {}
  {
    if s.created != {} {
      Alone(mac, fp, s, p, s.maker);
    }
  }

  /** A call that only moves on, staying on its side of the lock. */
  lemma GotoKeepsInv(mac: string, fp: string, s: State, p: L.Pid, pc: Pc)
    requires Inv(mac, fp, s) && p in s.calls
    requires Locked(pc) == Locked(s.calls[p].pc)
    requires CallOk(mac, s, s.calls[p].(pc := pc))
    requires p == s.maker ==> IndexComing(mac, Goto(s, p, pc))
    ensures Inv(mac, fp, Goto(s, p, pc))
  {
    var t := Goto(s, p, pc);
    SameStoreOk(mac, s, t);
    forall q | q in t.calls ensures CallAt(mac, fp, t, q) {
      assert CallAt(mac, fp, s, q);
      SameCallOk(mac, s, t, t.calls[q]);
    }
    forall q | q in t.leases ensures LeaseAt(t, q) {
      assert LeaseAt(s, q);
    }
  }

  lemma LookKeepsInv(mac: string, fp: string, s: State, p: L.Pid)
    requires Inv(mac, fp, s) && p in s.calls && s.calls[p].pc.Look? && Ready(s.calls[p])
    ensures Inv(mac, fp, StepCall(s, p))
  {
    var Call(req, pc) := s.calls[p];
    assert CallAt(mac, fp, s, p);
    if pc == Look(ByMac, true) && MacKey(mac) !in s.store {
      MissProvesNone(mac, fp, s, p);
    }
    var key := IndexKey(req, pc.via).value;
    assert CallAt(mac, fp, s, p) && (key in s.store ==> EntryOk(mac, s, key));
    assert IndexKey(req, ByMac) == Some(MacKey(mac));
    assert Round(true)[1..] == [ByMac] && ByMac in Round(true)[1..];
    GotoKeepsInv(mac, fp, s, p, StepCall(s, p).calls[p].pc);
  }

  lemma ReadKeepsInv(mac: string, fp: string, s: State, p: L.Pid)
    requires Inv(mac, fp, s) && p in s.calls && (s.calls[p].pc.Fetch? || s.calls[p].pc.Update?)
    ensures Inv(mac, fp, StepCall(s, p))
  {
    assert CallAt(mac, fp, s, p) && EntryOk(mac, s, SessionKey(s.calls[p].pc.id));
    GotoKeepsInv(mac, fp, s, p, StepCall(s, p).calls[p].pc);
  }

  /** One SET of a key the session owns. */
  lemma SetKeepsInv(mac: string, fp: string, s: State, session: Session, ttl: int, k: Key)
    requires Inv(mac, fp, s) && Genuine(mac, s, session) && ttl > 0
    requires k == SessionKey(session.id) || SessionKey(session.id) in s.store
    requires k == SessionKey(session.id) || !(k.SessionKey? || k.PedidoKey?)
    ensures Inv(mac, fp, s.(store := Set(s.store, session, k, ttl, s.now)))
  {
    var t := s.(store := Set(s.store, session, k, ttl, s.now));
    forall q | q in t.calls ensures CallAt(mac, fp, t, q) {
      assert CallAt(mac, fp, s, q);
    }
    forall q | q in t.leases ensures LeaseAt(t, q) {
      assert LeaseAt(s, q);
    }
    forall x | x in t.store ensures EntryOk(mac, t, x) {
      if x != k {
        assert EntryOk(mac, s, x);
      }
    }
  }

  lemma TailIn(todo: seq<Key>)
    requires todo != []
    ensures forall k :: k in todo <==> k == todo[0] || k in todo[1..]
  {
    assert todo == [todo[0]] + todo[1..];
  }

  lemma WriteKeepsInv(mac: string, fp: string, s: State, p: L.Pid)
    requires Inv(mac, fp, s) && p in s.calls && s.calls[p].pc.Write? && Ready(s.calls[p])
    ensures Inv(mac, fp, StepCall(s, p))
  {
    assert CallAt(mac, fp, s, p);
    var Write(session, ttl, todo, locked) := s.calls[p].pc;
    assert todo[0] in todo;
    SetKeepsInv(mac, fp, s, session, ttl, todo[0]);
    var t := s.(store := Set(s.store, session, todo[0], ttl, s.now));
    TailIn(todo);
    GotoKeepsInv(mac, fp, t, p, StepCall(s, p).calls[p].pc);
  }

  /** A call that changes sides: its leases are dealt with, the store is not. */
  lemma SideKeepsInv(mac: string, fp: string, s: State, t: State, p: L.Pid)
    requires Inv(mac, fp, s) && SameStore(s, t) && p in t.calls && t.calls == s.calls[p := t.calls[p]]
    requires L.LeaseInv(L.RedisBackend, Cell(t, fp), t.leases, t.used, t.now)
    requires forall q | q != p :: q in t.leases <==> q in s.leases
    requires forall q | q != p && q in t.leases :: t.leases[q] == s.leases[q]
    requires p in t.leases ==> L.Held(L.RedisBackend, t.leases[p], t.now)
    requires CallAt(mac, fp, t, p) && IndexComing(mac, t)
    ensures Inv(mac, fp, t)
  {
    SameStoreOk(mac, s, t);
    forall q | q in t.calls ensures CallAt(mac, fp, t, q) {
      if q != p {
        assert CallAt(mac, fp, s, q);
        SameCallOk(mac, s, t, t.calls[q]);
      }
    }
    forall q | q in t.leases ensures LeaseAt(t, q) {
      if q != p {
        assert LeaseAt(s, q);
      }
    }
  }

  lemma UnlockKeepsInv(mac: string, fp: string, s: State, p: L.Pid)
    requires Inv(mac, fp, s) && p in s.calls && s.calls[p].pc.Unlock?
    ensures p in s.leases && Inv(mac, fp, StepCall(s, p))
  {
    assert CallAt(mac, fp, s, p);
    L.ReleaseKeepsLeases(L.RedisBackend, Cell(s, fp), s.leases, s.used, s.now, p);
    SideKeepsInv(mac, fp, s, StepCall(s, p), p);
  }

  lemma LockKeepsInv(mac: string, fp: string, s: State, p: L.Pid, token: L.Token)
    requires Inv(mac, fp, s) && Enabled(mac, {fp}, s, TryLock(p, token))
    ensures Inv(mac, fp, Next(mac, {fp}, s, TryLock(p, token)))
  {
    assert CallAt(mac, fp, s, p);
    if L.Free(L.RedisBackend, Cell(s, fp), s.now) {
      L.AcquireKeepsLeases(L.RedisBackend, Cell(s, fp), s.leases, s.used, s.now, p, token, L.LOCK_TTL_MS);
      assert ByMac in Round(true) && IndexKey(s.calls[p].req, ByMac).Some?;
      SideKeepsInv(mac, fp, s, Next(mac, {fp}, s, TryLock(p, token)), p);
    }
  }

  lemma StoredMeansCreated(mac: string, s: State, k: Key)
    requires StoreOk(mac, s) && k in s.store
    ensures s.created != {}
  {
    assert EntryOk(mac, s, k);
  }

  lemma NothingStored(mac: string, s: State)
    requires StoreOk(mac, s) && s.created == {}
    ensures s.store == map[]
  {
    forall k ensures k !in s.store {
      if k in s.store {
        StoredMeansCreated(mac, s, k);
      }
    }
  }

  lemma DrawKeepsInv(mac: string, fp: string, s: State, p: L.Pid, id: Id)
    requires Inv(mac, fp, s) && Enabled(mac, {fp}, s, Draw(p, id))
    ensures Inv(mac, fp, Next(mac, {fp}, s, Draw(p, id)))
  {
    var t := Next(mac, {fp}, s, Draw(p, id));
    assert CallAt(mac, fp, s, p);
    forall q | q in t.calls ensures CallAt(mac, fp, t, q) {
      assert CallAt(mac, fp, s, q);
      if s.calls[q].pc.Create? {
        Alone(mac, fp, s, p, q);
      }
    }
    forall q | q in t.leases ensures LeaseAt(t, q) {
      assert LeaseAt(s, q);
    }
    NothingStored(mac, s);
  }

  lemma StoreLater(mac: string, s: State, t: State)
    requires StoreOk(mac, s) && t.store == s.store && t.created == s.created
    requires forall k | k in s.store :: t.now < s.store[k].expiresAt
    ensures StoreOk(mac, t)
  {
    forall k | k in t.store ensures EntryOk(mac, t, k) {
      assert EntryOk(mac, s, k);
    }
  }

  lemma CallLater(mac: string, fp: string, s: State, t: State, p: L.Pid)
    requires t.store == s.store && t.created == s.created && t.calls == s.calls && t.leases == s.leases
    requires p in s.calls && CallAt(mac, fp, s, p)
    ensures CallAt(mac, fp, t, p)
  {
    SameCallOk(mac, s, t, t.calls[p]);
  }

  lemma TickKeepsInv(mac: string, fp: string, s: State, ms: nat)
    requires Inv(mac, fp, s) && Enabled(mac, {fp}, s, Tick(ms))
    ensures Inv(mac, fp, Next(mac, {fp}, s, Tick(ms)))
  {
    var t := s.(now := s.now + ms);
    L.TickKeepsLeases(L.RedisBackend, Cell(s, fp), s.leases, s.used, s.now, t.now);
    StoreLater(mac, s, t);
    forall q | q in t.calls ensures CallAt(mac, fp, t, q) {
      assert CallAt(mac, fp, s, q);
      CallLater(mac, fp, s, t, q);
    }
    forall q | q in t.leases ensures LeaseAt(t, q) {
      assert LeaseAt(s, q);
    }
  }

  lemma LeaseHasCall(mac: string, fp: string, s: State, p: L.Pid)
    requires Inv(mac, fp, s) && p in s.leases
    ensures p in s.calls
  {
    assert LeaseAt(s, p);
  }

  lemma BeginKeepsInv(mac: string, fp: string, s: State, p: L.Pid, req: Request)
    requires Inv(mac, fp, s) && Enabled(mac, {fp}, s, Begin(p, req))
    ensures Inv(mac, fp, Next(mac, {fp}, s, Begin(p, req)))
  {
    if p in s.leases {
      LeaseHasCall(mac, fp, s, p);
    }
    SideKeepsInv(mac, fp, s, Next(mac, {fp}, s, Begin(p, req)), p);
  }

  lemma TimeOutKeepsInv(mac: string, fp: string, s: State, p: L.Pid)
    requires Inv(mac, fp, s) && Enabled(mac, {fp}, s, TimeOut(p))
    ensures Inv(mac, fp, Next(mac, {fp}, s, TimeOut(p)))
  {
    assert CallAt(mac, fp, s, p);
    SideKeepsInv(mac, fp, s, Next(mac, {fp}, s, TimeOut(p)), p);
  }

  lemma NextKeepsInv(mac: string, fp: string, s: State, a: Action)
    requires Inv(mac, fp, s) && Enabled(mac, {fp}, s, a)
    ensures Inv(mac, fp, Next(mac, {fp}, s, a))
  {
    match a
    case Tick(ms) => TickKeepsInv(mac, fp, s, ms);
    case Begin(p, req) => BeginKeepsInv(mac, fp, s, p, req);
    case TryLock(p, token) => LockKeepsInv(mac, fp, s, p, token);
    case TimeOut(p) => TimeOutKeepsInv(mac, fp, s, p);
    case Draw(p, id) => DrawKeepsInv(mac, fp, s, p, id);
    case Step(p) =>
      assert CallAt(mac, fp, s, p);
      if s.calls[p].pc.Look? { LookKeepsInv(mac, fp, s, p); }
      else if s.calls[p].pc.Write? { WriteKeepsInv(mac, fp, s, p); }
      else if s.calls[p].pc.Unlock? { UnlockKeepsInv(mac, fp, s, p); }
      else { ReadKeepsInv(mac, fp, s, p); }
  }

  lemma {:induction false} RunKeepsInv(mac: string, fp: string, s: State, acts: seq<Action>, t: State)
    requires Inv(mac, fp, s) && Run(mac, {fp}, s, acts, t)
    ensures Inv(mac, fp, t)
    decreases |acts|
  {
    if acts != [] {
      NextKeepsInv(mac, fp, s, acts[0]);
      RunKeepsInv(mac, fp, Next(mac, {fp}, s, acts[0]), acts[1..], t);
    }
  }

  // ------------------------------------------------------------------ theorem

  /** The call has given out the one session, and it is found by its id, by the MAC
      and by the IP the call came with. */
  ghost predicate Answered(mac: string, t: State, p: L.Pid)
    requires p in t.calls && t.calls[p].pc.Returned?
  {
    var id, ip := t.calls[p].pc.id, t.calls[p].req.ip;
    && t.created == {id}
    && GetSession(t.store, id, t.now).Some? && GetSession(t.store, id, t.now).value.status == Pending
    && GetSession(t.store, id, t.now).value.mac == Some(mac)
    && Get(t.store, MacKey(mac), t.now) == Some(IdValue(id))
    && (ip.Some? ==> Get(t.store, IpKey(ip.value), t.now) == Some(IdValue(id)))
  }

  lemma CallEnds(mac: string, fp: string, t: State, p: L.Pid)
    requires Inv(mac, fp, t) && p in t.calls
    ensures !t.calls[p].pc.Threw?
    ensures t.calls[p].pc.Returned? ==> Answered(mac, t, p)
  {
    assert CallAt(mac, fp, t, p);
    if t.calls[p].pc.Returned? {
      var id, ip := t.calls[p].pc.id, t.calls[p].req.ip;
      assert EntryOk(mac, t, SessionKey(id)) && EntryOk(mac, t, MacKey(mac));
      assert ip.Some? ==> EntryOk(mac, t, IpKey(ip.value));
    }
  }

  /** Over every interleaving of calls with one fingerprint: at most one session is
      ever created; a call that
      returns, returns that session's id, which is in the store; and no call
      fails except by waiting too long for the lock. */
  lemma {:induction false} OneSessionForAll(mac: string, fp: string, s: State, acts: seq<Action>, t: State)
    requires Init(s) && Run(mac, {fp}, s, acts, t)
    ensures forall i, j | i in t.created && j in t.created :: i == j
    ensures forall p | p in t.calls && t.calls[p].pc.Returned? :: Answered(mac, t, p)
    ensures forall p | p in t.calls :: !t.calls[p].pc.Threw?
    ensures forall k | k in t.store :: !k.PedidoKey?
  {
    RunKeepsInv(mac, fp, s, acts, t);
    forall p | p in t.calls
      ensures !t.calls[p].pc.Threw?
      ensures t.calls[p].pc.Returned? ==> Answered(mac, t, p)
    {
      CallEnds(mac, fp, t, p);
    }
    forall k | k in t.store ensures !k.PedidoKey? {
      assert EntryOk(mac, t, k);
    }
  }

  // ----------------------------------------------------------- calls that return

  /** How far a call is from its end. */
  function Rank(pc: Pc): nat {
    match pc
    case Look(via, locked) => (if locked then 10 else 14) + (if via == ByIp then 1 else if via == ByMac then 2 else 3)
    case WaitLock => 14
    case Create => 10
    case Fetch(_, _, _) => 10
    case Update(_, _, _) => 9
    case Write(_, _, todo, _) => 2 + |todo|
    case Unlock(_) => 1
    case Orphan(_, _) => 20
    case _ => 0
  }

  function NextOf(p: L.Pid, pc: Pc, token: L.Token, id: Id): Action {
    match pc case WaitLock => TryLock(p, token) case Create => Draw(p, id) case _ => Step(p)
  }

  /** The call is on its way, the lock is its own or free, and what it may draw is
      unused. */
  ghost predicate OnItsWay(mac: string, fp: string, s: State, p: L.Pid, token: L.Token) {
    && Inv(mac, fp, s) && p in s.calls && Rank(s.calls[p].pc) > 0
    && (!Locked(s.calls[p].pc) ==> L.Free(L.RedisBackend, Cell(s, fp), s.now) && token !in s.used)
  }

  /** Whichever lookup comes next, it is a later one. */
  lemma OnwardGoesDown(req: Request, via: By, locked: bool)
    requires req.mac.Some? && !(via == ByIp && locked)
    ensures Rank(NotFound(req, via, locked)) < Rank(Look(via, locked)) && Locked(NotFound(req, via, locked)) == locked
    ensures var first := Onward(req, Round(locked), locked);
            first.Look? && first.via in {ByPedido, ByMac} && Locked(first) == locked
  {
    assert Round(locked)[0] == ByPedido && Round(locked)[1..][0] == ByMac;
    assert Round(locked)[2..] == if locked then [] else [ByIp];
    assert [ByIp][1..] == [];
  }

  ghost predicate GoesDown(fp: string, s: State, t: State, p: L.Pid)
    requires p in s.calls
  {
    && p in t.calls && Rank(t.calls[p].pc) < Rank(s.calls[p].pc)
    && (Rank(t.calls[p].pc) == 0 ==> t.calls[p].pc.Returned?)
    && (Rank(t.calls[p].pc) > 0 && !Locked(t.calls[p].pc) ==>
          !Locked(s.calls[p].pc) && Cell(t, fp) == Cell(s, fp) && t.now == s.now && t.used == s.used)
  }

  lemma LookGoesDown(mac: string, fp: string, s: State, p: L.Pid)
    requires p in s.calls && s.calls[p].pc.Look? && CallAt(mac, fp, s, p)
    ensures GoesDown(fp, s, StepCall(s, p), p)
  {
    OnwardGoesDown(s.calls[p].req, s.calls[p].pc.via, s.calls[p].pc.locked);
  }

  lemma ReadGoesDown(mac: string, fp: string, s: State, p: L.Pid)
    requires Inv(mac, fp, s) && p in s.calls && (s.calls[p].pc.Fetch? || s.calls[p].pc.Update?)
    ensures GoesDown(fp, s, StepCall(s, p), p)
  {
    assert CallAt(mac, fp, s, p) && EntryOk(mac, s, SessionKey(s.calls[p].pc.id));
  }

  lemma EndGoesDown(mac: string, fp: string, s: State, p: L.Pid)
    requires p in s.calls && (s.calls[p].pc.Write? || s.calls[p].pc.Unlock?) && CallAt(mac, fp, s, p)
    ensures GoesDown(fp, s, StepCall(s, p), p)
  {
  }

  lemma LockGoesDown(mac: string, fp: string, s: State, p: L.Pid, token: L.Token)
    requires p in s.calls && s.calls[p].pc.WaitLock? && CallAt(mac, fp, s, p)
    requires L.Free(L.RedisBackend, Cell(s, fp), s.now) && token !in s.used
    ensures GoesDown(fp, s, Next(mac, {fp}, s, TryLock(p, token)), p)
  {
    OnwardGoesDown(s.calls[p].req, ByMac, true);
  }

  lemma StepGoesDown(mac: string, fp: string, s: State, p: L.Pid, token: L.Token, id: Id)
    requires OnItsWay(mac, fp, s, p, token)
    ensures var a := NextOf(p, s.calls[p].pc, token, id);
            Enabled(mac, {fp}, s, a) && GoesDown(fp, s, Next(mac, {fp}, s, a), p)
  {
    var pc := s.calls[p].pc;
    assert CallAt(mac, fp, s, p);
    if pc.Look? {
      LookGoesDown(mac, fp, s, p);
    } else if pc.WaitLock? {
      LockGoesDown(mac, fp, s, p, token);
    } else if pc.Fetch? || pc.Update? {
      ReadGoesDown(mac, fp, s, p);
    } else if pc.Write? || pc.Unlock? {
      EndGoesDown(mac, fp, s, p);
    }
  }

  lemma StepBefore(mac: string, fp: string, s: State, a: Action, acts: seq<Action>, t: State)
    requires Enabled(mac, {fp}, s, a) && Run(mac, {fp}, Next(mac, {fp}, s, a), acts, t)
    ensures Run(mac, {fp}, s, [a] + acts, t)
  {
    assert ([a] + acts)[1..] == acts;
  }

  lemma StillOnItsWay(mac: string, fp: string, s: State, t: State, p: L.Pid, token: L.Token)
    requires OnItsWay(mac, fp, s, p, token) && Inv(mac, fp, t) && GoesDown(fp, s, t, p)
    ensures Rank(t.calls[p].pc) > 0 ==> OnItsWay(mac, fp, t, p, token)
    ensures Rank(t.calls[p].pc) == 0 ==> t.calls[p].pc.Returned? && Answered(mac, t, p)
  {
    CallEnds(mac, fp, t, p);
  }

  lemma OneStepOn(mac: string, fp: string, s: State, p: L.Pid, token: L.Token, id: Id) returns (a: Action, next: State)
    requires OnItsWay(mac, fp, s, p, token)
    ensures Enabled(mac, {fp}, s, a) && next == Next(mac, {fp}, s, a)
    ensures p in next.calls && Rank(next.calls[p].pc) < Rank(s.calls[p].pc)
    ensures Rank(next.calls[p].pc) > 0 ==> OnItsWay(mac, fp, next, p, token)
    ensures Rank(next.calls[p].pc) == 0 ==> next.calls[p].pc.Returned? && Answered(mac, next, p)
  {
    a := NextOf(p, s.calls[p].pc, token, id);
    StepGoesDown(mac, fp, s, p, token, id);
    next := Next(mac, {fp}, s, a);
    NextKeepsInv(mac, fp, s, a);
    StillOnItsWay(mac, fp, s, next, p, token);
  }

  /** A call left to itself, from whatever place others have left it in, ends by
      returning the session. */
  lemma {:induction false} CallReturns(mac: string, fp: string, s: State, p: L.Pid, token: L.Token, id: Id)
    returns (acts: seq<Action>, t: State)
    requires OnItsWay(mac, fp, s, p, token)
    ensures Run(mac, {fp}, s, acts, t) && p in t.calls && t.calls[p].pc.Returned? && Answered(mac, t, p)
    decreases Rank(s.calls[p].pc)
  {
    var a, next := OneStepOn(mac, fp, s, p, token, id);
    acts, t := [], next;
    if Rank(next.calls[p].pc) > 0 {
      acts, t := CallReturns(mac, fp, next, p, token, id);
    }
    StepBefore(mac, fp, s, a, acts, t);
    acts := [a] + acts;
  }

  /** The lookups of a call that has everything: order, MAC and IP before the lock,
      order and MAC again inside it. The lock goes by the first of the three there. */
  lemma LooksInOrder(ip: string, mac: string, order: string)
    ensures var req := Request(Some(ip), Some(mac), Some(order));
            && Onward(req, Round(false), false) == Look(ByPedido, false)
            && NotFound(req, ByPedido, false) == Look(ByMac, false) && NotFound(req, ByMac, false) == Look(ByIp, false)
            && NotFound(req, ByIp, false) == WaitLock
            && Onward(req, Round(true), true) == Look(ByPedido, true)
            && NotFound(req, ByPedido, true) == Look(ByMac, true) && NotFound(req, ByMac, true) == Create
            && IndexKey(req, ByPedido) == Some(PedidoKey(order)) && IndexKey(req, ByMac) == Some(MacKey(mac))
            && IndexKey(req, ByIp) == Some(IpKey(ip)) && LockName(req) == order
            && LockName(req.(pedido := None)) == mac && LockName(Request(Some(ip), None, None)) == ip
  {
    assert Round(false)[1..][0] == ByMac && Round(false)[2..][0] == ByIp && Round(true)[1..][0] == ByMac;
    assert Round(true)[2..] == [];
  }

  // -------------------------------------------------- more than one fingerprint

  ghost predicate OneCreated(mac: string, fps: set<string>, s: State, acts: seq<Action>, t: State) {
    Init(s) && Run(mac, fps, s, acts, t) ==> forall i, j | i in t.created && j in t.created :: i == j
  }

  ghost predicate AlwaysOneCreated(mac: string, fps: set<string>) {
    forall s, acts, t :: OneCreated(mac, fps, s, acts, t)
  }

  /** Calls for one MAC never create two sessions exactly when their fingerprints
      are all the same: calls with different orders take different locks. */
  lemma OneCreatedIff(mac: string, fps: set<string>)
    ensures AlwaysOneCreated(mac, fps) <==> forall a, b | a in fps && b in fps :: a == b
  {
    if a, b :| a in fps && b in fps && a != b {
      var acts, t := TwoCreate(mac, fps, a, b);
      assert 1 in t.created && 2 in t.created;
      assert !OneCreated(mac, fps, Start(), acts, t);
    } else {
      forall s, acts, t ensures OneCreated(mac, fps, s, acts, t) {
        if Init(s) && Run(mac, fps, s, acts, t) {
          OneName(mac, fps, s, acts, t);
        }
      }
    }
  }

  lemma OneName(mac: string, fps: set<string>, s: State, acts: seq<Action>, t: State)
    requires Init(s) && Run(mac, fps, s, acts, t) && forall a, b | a in fps && b in fps :: a == b
    ensures forall i, j | i in t.created && j in t.created :: i == j
  {
    var fp := if a :| a in fps then a else mac;
    assert fps <= {fp};
    MoreNames(mac, fps, {fp}, s, acts, t);
    OneSessionForAll(mac, fp, s, acts, t);
  }

  lemma {:induction false} MoreNames(mac: string, fps: set<string>, more: set<string>, s: State,
                                     acts: seq<Action>, t: State)
    requires fps <= more && Run(mac, fps, s, acts, t)
    ensures Run(mac, more, s, acts, t)
    decreases |acts|
  {
    if acts != [] {
      assert Next(mac, fps, s, acts[0]) == Next(mac, more, s, acts[0]);
      MoreNames(mac, fps, more, Next(mac, fps, s, acts[0]), acts[1..], t);
    }
  }

  function Start(): State { State(0, map[], map[], {}, map[], {}, 0, map[]) }

  lemma CarryOn(mac: string, fps: set<string>, acts: seq<Action>, t: State, a: Action)
    returns (longer: seq<Action>, u: State)
    requires Run(mac, fps, Start(), acts, t) && Enabled(mac, fps, t, a)
    ensures u == Next(mac, fps, t, a) && Run(mac, fps, Start(), longer, u)
  {
    longer, u := acts + [a], Next(mac, fps, t, a);
    RunSnoc(mac, fps, Start(), acts, t, a);
  }

  lemma {:induction false} RunSnoc(mac: string, fps: set<string>, s: State, acts: seq<Action>, t: State, a: Action)
    requires Run(mac, fps, s, acts, t) && Enabled(mac, fps, t, a)
    ensures Run(mac, fps, s, acts + [a], Next(mac, fps, t, a))
    decreases |acts|
  {
    if acts == [] {
      assert Run(mac, fps, Next(mac, fps, s, a), [], Next(mac, fps, s, a));
    } else {
      assert (acts + [a])[1..] == acts[1..] + [a];
      RunSnoc(mac, fps, Next(mac, fps, s, acts[0]), acts[1..], t, a);
    }
  }

  /** A call with an order, for this MAC. */
  function Ordered(mac: string, order: string): Request { Request(None, Some(mac), Some(order)) }

  lemma WayOf(mac: string, order: string, locked: bool)
    ensures var req := Ordered(mac, order);
            && Onward(req, Round(locked), locked) == Look(ByPedido, locked)
            && NotFound(req, ByPedido, locked) == Look(ByMac, locked)
            && NotFound(req, ByMac, locked) == if locked then Create else WaitLock
  {
    assert Round(locked)[1..][0] == ByMac && Round(locked)[2..] == if locked then [] else [ByIp];
  }

  lemma LookMisses(mac: string, fps: set<string>, acts: seq<Action>, t: State, p: L.Pid)
    returns (longer: seq<Action>, u: State)
    requires Run(mac, fps, Start(), acts, t) && t.store == map[]
    requires p in t.calls && t.calls[p].pc.Look? && IndexKey(t.calls[p].req, t.calls[p].pc.via).Some?
    ensures Run(mac, fps, Start(), longer, u)
    ensures u == Goto(t, p, NotFound(t.calls[p].req, t.calls[p].pc.via, t.calls[p].pc.locked))
  {
    longer, u := CarryOn(mac, fps, acts, t, Step(p));
  }

  lemma BothLooksMiss(mac: string, fps: set<string>, acts: seq<Action>, t: State, p: L.Pid, order: string, locked: bool)
    returns (longer: seq<Action>, u: State)
    requires Run(mac, fps, Start(), acts, t) && t.store == map[]
    requires p in t.calls && t.calls[p] == Call(Ordered(mac, order), Look(ByPedido, locked))
    ensures Run(mac, fps, Start(), longer, u)
    ensures u == Goto(t, p, if locked then Create else WaitLock)
  {
    WayOf(mac, order, locked);
    longer, u := LookMisses(mac, fps, acts, t, p);
    longer, u := LookMisses(mac, fps, longer, u, p);
    assert u.calls == t.calls[p := t.calls[p].(pc := if locked then Create else WaitLock)];
  }

  lemma Begins(mac: string, fps: set<string>, acts: seq<Action>, t: State, p: L.Pid, order: string)
    returns (longer: seq<Action>, u: State)
    requires Run(mac, fps, Start(), acts, t) && p !in t.calls && order in fps
    ensures Run(mac, fps, Start(), longer, u)
    ensures u == t.(calls := t.calls[p := Call(Ordered(mac, order), Look(ByPedido, false))])
  {
    WayOf(mac, order, false);
    longer, u := CarryOn(mac, fps, acts, t, Begin(p, Ordered(mac, order)));
  }

  /** It finds nothing at all, */
  lemma Misses(mac: string, fps: set<string>, acts: seq<Action>, t: State, p: L.Pid, order: string)
    returns (longer: seq<Action>, u: State)
    requires Run(mac, fps, Start(), acts, t) && p !in t.calls && order in fps && t.store == map[]
    ensures Run(mac, fps, Start(), longer, u)
    ensures u == t.(calls := t.calls[p := Call(Ordered(mac, order), WaitLock)])
  {
    longer, u := Begins(mac, fps, acts, t, p, order);
    longer, u := BothLooksMiss(mac, fps, longer, u, p, order, false);
    assert u.calls == t.calls[p := Call(Ordered(mac, order), WaitLock)];
  }

  lemma Locks(mac: string, fps: set<string>, acts: seq<Action>, t: State, p: L.Pid, order: string, token: L.Token)
    returns (longer: seq<Action>, u: State)
    requires Run(mac, fps, Start(), acts, t) && token !in t.used && order !in t.cells
    requires p in t.calls && t.calls[p] == Call(Ordered(mac, order), WaitLock)
    ensures Run(mac, fps, Start(), longer, u)
    ensures u.store == t.store && u.created == t.created && u.used == t.used + {token}
    ensures u.cells.Keys == t.cells.Keys + {order}
    ensures u.calls == t.calls[p := Call(Ordered(mac, order), Look(ByPedido, true))]
  {
    WayOf(mac, order, true);
    longer, u := CarryOn(mac, fps, acts, t, TryLock(p, token));
  }

  /** and, its lock being free, again nothing: it is about to create a session. */
  lemma MissesAgain(mac: string, fps: set<string>, acts: seq<Action>, t: State, p: L.Pid, order: string, token: L.Token)
    returns (longer: seq<Action>, u: State)
    requires Run(mac, fps, Start(), acts, t) && t.store == map[] && token !in t.used && order !in t.cells
    requires p in t.calls && t.calls[p] == Call(Ordered(mac, order), WaitLock)
    ensures Run(mac, fps, Start(), longer, u)
    ensures u.store == map[] && u.created == t.created && u.used == t.used + {token}
    ensures u.cells.Keys == t.cells.Keys + {order} && u.calls == t.calls[p := Call(Ordered(mac, order), Create)]
  {
    longer, u := Locks(mac, fps, acts, t, p, order, token);
    longer, u := BothLooksMiss(mac, fps, longer, u, p, order, true);
    assert u.calls == t.calls[p := Call(Ordered(mac, order), Create)];
  }

  lemma BothMiss(mac: string, fps: set<string>, a: string, b: string) returns (acts: seq<Action>, t: State)
    requires a in fps && b in fps && a != b
    ensures Run(mac, fps, Start(), acts, t) && t.created == {}
    ensures 1 in t.calls && t.calls[1].pc == Create && 2 in t.calls && t.calls[2].pc == Create
  {
    acts, t := Misses(mac, fps, [], Start(), 1, a);
    acts, t := Misses(mac, fps, acts, t, 2, b);
    acts, t := MissesAgain(mac, fps, acts, t, 1, a, 10);
    acts, t := MissesAgain(mac, fps, acts, t, 2, b, 20);
  }

  lemma TwoCreate(mac: string, fps: set<string>, a: string, b: string) returns (acts: seq<Action>, t: State)
    requires a in fps && b in fps && a != b
    ensures Run(mac, fps, Start(), acts, t) && t.created == {1, 2}
  {
    acts, t := BothMiss(mac, fps, a, b);
    acts, t := CarryOn(mac, fps, acts, t, Draw(1, 1));
    acts, t := CarryOn(mac, fps, acts, t, Draw(2, 2));
  }
}
