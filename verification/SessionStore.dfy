/**
 The session store taken one operation at a time, and its MAC index
 (sessionStore.js 147-389, 581-801).
 */
module SessionStore {
  import opened Basics
  import opened SessionData
  import TokenLock

  /** A field of an update's data: absent, or there, if only to clear what is stored. */
  datatype Field<T> = Keep | Put(value: Option<T>)

  function Stored<T>(field: Field<T>, before: Option<T>): Option<T> { if field.Put? then field.value else before }

  datatype Patch = Patch(
    ip: Field<string>, mac: Field<string>, pedido: Field<string>, expiresAt: Field<int>, status: Option<Status>)

  function Apply(s: Session, patch: Patch): Session {
    s.(ip := Stored(patch.ip, s.ip), mac := Stored(patch.mac, s.mac), pedido := Stored(patch.pedido, s.pedido),
       expiresAt := Stored(patch.expiresAt, s.expiresAt),
       status := if patch.status.Some? then patch.status.value else s.status)
  }

  ghost predicate Fills<T>(field: Field<T>, before: Option<T>, after: Option<T>) {
    match field case Keep => after == before case Put(value) => after == value
  }

  /** Every field is what the update gives, or as it was where it gives none. */
  ghost predicate Patched(before: Session, patch: Patch, after: Session) {
    && after.id == before.id
    && Fills(patch.ip, before.ip, after.ip) && Fills(patch.mac, before.mac, after.mac)
    && Fills(patch.pedido, before.pedido, after.pedido) && Fills(patch.expiresAt, before.expiresAt, after.expiresAt)
    && after.status == match patch.status case Some(status) => status case None => before.status
  }

  /** Which MAC every session id has, and which session id every MAC has. */
  datatype Ownership = Ownership(macOf: Id -> Option<string>, idOf: string -> Id)

  ghost predicate Owns(own: Ownership, s: Session) {
    s.mac == own.macOf(s.id) && (s.mac.Some? ==> own.idOf(s.mac.value) == s.id)
  }

  // ---------------------------------------------------------------- the store

  /** The keys that index a session. */
  predicate Indexes(s: Session, k: Key) {
    match k
    case SessionKey(_) => false
    case IpKey(ip) => s.ip == Some(ip)
    case MacKey(mac) => s.mac == Some(mac)
    case PedidoKey(pedido) => s.pedido == Some(pedido)
  }

  /** persistIndices: every index key of the session is set, no other key moves. */
  function WithIndices(store: Store, s: Session, ttl: int, now: int): (after: Store)
    ensures forall k | k in after :: Indexes(s, k) || k in store
    ensures forall k | Indexes(s, k) :: k in after && after[k] == Entry(IdValue(s.id), now + ttl)
    ensures forall k | k in store && !Indexes(s, k) :: k in after && after[k] == store[k]
  {
    var a := if s.ip.Some? then Set(store, s, IpKey(s.ip.value), ttl, now) else store;
    var b := if s.mac.Some? then Set(a, s, MacKey(s.mac.value), ttl, now) else a;
    if s.pedido.Some? then Set(b, s, PedidoKey(s.pedido.value), ttl, now) else b
  }

  /** persistSession, then persistIndices `lag` milliseconds later. */
  function Persisted(store: Store, s: Session, ttl: int, now: int, lag: nat): Store {
    WithIndices(Set(store, s, SessionKey(s.id), ttl, now), s, ttl, now + lag)
  }

  ghost predicate Sound(own: Ownership, store: Store, k: Key)
    requires k in store
  {
    && (k.SessionKey? <==> store[k].value.SessionValue?)
    && (k.SessionKey? ==>
          var s := store[k].value.session;
          && s.id == k.id && Owns(own, s)
          && (s.mac.Some? && MacKey(s.mac.value) in store ==> store[MacKey(s.mac.value)].value == IdValue(k.id)))
    && (k.MacKey? ==> own.macOf(store[k].value.id) == Some(k.mac))
  }

  /** Sessions are filed under their own id and MAC; MAC indices name a session
      that has that MAC, the stored one if there is one. */
  ghost predicate IndexInv(own: Ownership, store: Store) {
    forall k {:trigger Sound(own, store, k)} | k in store :: Sound(own, store, k)
  }

  ghost predicate HasIndex(store: Store, now: int, k: Key)
    requires k in store
  {
    k.SessionKey? && store[k].value.SessionValue? && store[k].value.session.mac.Some? && now < store[k].expiresAt ==>
      var idx := MacKey(store[k].value.session.mac.value);
      idx in store && store[k].expiresAt <= store[idx].expiresAt
  }

  /** The index entry of every live session with a MAC is there, and outlives it. */
  ghost predicate Covered(store: Store, now: int) {
    forall k {:trigger HasIndex(store, now, k)} | k in store :: HasIndex(store, now, k)
  }

  lemma StaysCovered(store: Store, now: int, later: int)
    requires Covered(store, now) && now <= later
    ensures Covered(store, later)
  {
    forall k | k in store ensures HasIndex(store, later, k) {
      assert HasIndex(store, now, k);
    }
  }

  lemma StoredIsOwned(own: Ownership, store: Store, id: Id, now: int)
    requires IndexInv(own, store) && GetSession(store, id, now).Some?
    ensures Owns(own, GetSession(store, id, now).value) && GetSession(store, id, now).value.id == id
  {
    assert Sound(own, store, SessionKey(id));
  }

  /** What a full scan finds: the live sessions with the MAC (listSessions). */
  ghost function Scan(store: Store, mac: string, now: int): set<Session> {
    set k | k in store && k.SessionKey? && store[k].value.SessionValue?
            && now < store[k].expiresAt && store[k].value.session.mac == Some(mac) :: store[k].value.session
  }

  /** findByMac's answer: the session the index names, if both are live. */
  function Lookup(store: Store, mac: string, now: int): Option<Session> {
    var hit := Get(store, MacKey(mac), now);
    if hit.Some? && hit.value.IdValue? then GetSession(store, hit.value.id, now) else None
  }

  lemma PersistKeepsInv(own: Ownership, store: Store, s: Session, ttl: int, now: int, lag: nat)
    requires IndexInv(own, store) && Covered(store, now) && Owns(own, s)
    ensures IndexInv(own, Persisted(store, s, ttl, now, lag))
    ensures Covered(Persisted(store, s, ttl, now, lag), now + lag)
  {
    var after := Persisted(store, s, ttl, now, lag);
    var idx := if s.mac.Some? then MacKey(s.mac.value) else SessionKey(s.id);
    assert s.mac.Some? ==> Indexes(s, idx);
    forall k | k in after ensures Sound(own, after, k) && HasIndex(after, now + lag, k) {
      if k in store {
        assert Sound(own, store, k) && HasIndex(store, now, k);
      }
    }
  }

  ghost predicate LiveWith(store: Store, mac: string, now: int, k: Key)
    requires k in store
  {
    k.SessionKey? && store[k].value.SessionValue? && now < store[k].expiresAt && store[k].value.session.mac == Some(mac)
  }

  lemma LiveIsScanned(store: Store, mac: string, now: int, k: Key)
    requires k in store
    ensures LiveWith(store, mac, now, k) ==> Scan(store, mac, now) != {}
  {
    if LiveWith(store, mac, now, k) {
      assert store[k].value.session in Scan(store, mac, now);
    }
  }

  /** A session written is found again by its id, its IP, its MAC and its order, for
      as long as it is kept. */
  lemma PersistedIsFound(store: Store, s: Session, ttl: int, now: int, lag: nat, later: int)
    requires now + lag <= later < now + ttl
    ensures var after := Persisted(store, s, ttl, now, lag);
            && GetSession(after, s.id, later) == Some(s)
            && (s.ip.Some? ==> Get(after, IpKey(s.ip.value), later) == Some(IdValue(s.id)))
            && (s.mac.Some? ==> Get(after, MacKey(s.mac.value), later) == Some(IdValue(s.id)))
            && (s.pedido.Some? ==> Get(after, PedidoKey(s.pedido.value), later) == Some(IdValue(s.id)))
  {
  }

  /** A session may go, and an index that no live session needs. */
  lemma DroppingKeepsInv(own: Ownership, store: Store, k: Key, now: int)
    requires IndexInv(own, store) && Covered(store, now)
    requires k.SessionKey? || (k.MacKey? && Scan(store, k.mac, now) == {})
    ensures IndexInv(own, store - {k}) && Covered(store - {k}, now)
  {
    var after := store - {k};
    forall q | q in after ensures Sound(own, after, q) && HasIndex(after, now, q) {
      assert Sound(own, store, q) && HasIndex(store, now, q);
      if k.MacKey? {
        LiveIsScanned(store, k.mac, now, q);
      }
    }
  }

  /** The index finds exactly what the scan finds. */
  lemma LookupIsScan(own: Ownership, store: Store, mac: string, now: int)
    requires IndexInv(own, store) && Covered(store, now)
    ensures Scan(store, mac, now) == match Lookup(store, mac, now) case Some(s) => {s} case None => {}
  {
    forall s | s in Scan(store, mac, now) ensures Lookup(store, mac, now) == Some(s) {
      var k :| k in store && k.SessionKey? && now < store[k].expiresAt && store[k].value == SessionValue(s);
      assert Sound(own, store, k) && HasIndex(store, now, k);
      assert MacKey(mac) in store && store[MacKey(mac)].value == IdValue(k.id);
    }
    if Lookup(store, mac, now).Some? {
      var id := store[MacKey(mac)].value.id;
      assert Sound(own, store, MacKey(mac)) && Sound(own, store, SessionKey(id));
      assert SessionKey(id) in store && store[SessionKey(id)].value.session in Scan(store, mac, now);
    }
  }

  // ---------------------------------------------------------------- the class

  datatype Outcome =
    | LockFailed | NotFound | InvalidTransition | RouterFailed
    | Already(session: Session) | Done(session: Session)

  class SessionStore {
    var store: Store
    var now: int
    ghost const own: Ownership

    ghost predicate Valid()
      reads this
    {
      IndexInv(own, store) && Covered(store, now)
    }

    constructor (ghost own: Ownership, now: int)
      ensures Valid() && store == map[] && this.now == now && this.own == own
    {
      this.own := own;
      this.now := now;
      store := map[];
    }

    /** Time goes by and entries expire. */
    method Pass(ms: nat)
      requires Valid()
      modifies this`now
      ensures Valid() && now == old(now) + ms
    {
      StaysCovered(store, now, now + ms);
      now := now + ms;
    }

    method PersistIndices(s: Session, ttl: int)
      modifies this`store
      ensures store == WithIndices(old(store), s, ttl, now)
    {
      if s.ip.Some? {
        store := Set(store, s, IpKey(s.ip.value), ttl, now);
      }
      if s.mac.Some? {
        store := Set(store, s, MacKey(s.mac.value), ttl, now);
      }
      if s.pedido.Some? {
        store := Set(store, s, PedidoKey(s.pedido.value), ttl, now);
      }
    }

    /** persistSession and, `lag` later, persistIndices with the same ttl. */
    method Persist(s: Session, ttl: int, lag: nat)
      requires Valid() && Owns(own, s)
      modifies this
      ensures Valid() && now == old(now) + lag
      ensures store == Persisted(old(store), s, ttl, old(now), lag)
    {
      PersistKeepsInv(own, store, s, ttl, now, lag);
      store := Set(store, s, SessionKey(s.id), ttl, now);
      now := now + lag;
      PersistIndices(s, ttl);
    }

    /** A pending session, with the order and the expiry it is given. */
    method CreateSession(id: Id, ip: Option<string>, mac: Option<string>, pedido: Option<string>,
                         expiresAt: Option<int>, lag: nat)
      returns (s: Session)
      requires Valid() && Owns(own, Session(id, ip, mac, pedido, Pending, expiresAt))
      modifies this
      ensures Valid() && now == old(now) + lag
      ensures s == Session(id, ip, mac, pedido, Pending, expiresAt)
      ensures store == Persisted(old(store), s, CREATE_TTL_MS, old(now), lag)
    {
      s := Session(id, ip, mac, pedido, Pending, expiresAt);
      Persist(s, CREATE_TTL_MS, lag);
    }

    method UpdateSession(id: Id, patch: Patch, lag: nat) returns (updated: Option<Session>)
      requires Valid()
      requires GetSession(store, id, now).Some? ==> Owns(own, Apply(GetSession(store, id, now).value, patch))
      modifies this
      ensures Valid()
      ensures updated.Some? <==> GetSession(old(store), id, old(now)).Some?
      ensures updated.None? ==> store == old(store) && now == old(now)
      ensures updated.Some? ==>
                && Patched(GetSession(old(store), id, old(now)).value, patch, updated.value)
                && store == Persisted(old(store), updated.value, ComputeTtl(updated.value, old(now)), old(now), lag)
    {
      var existing := GetSession(store, id, now);
      if existing.None? {
        return None;
      }
      var s := Apply(existing.value, patch);
      Persist(s, ComputeTtl(s, now), lag);
      return Some(s);
    }

    /** Once the lock is won, `waited` later, the record is read, the router asked,
        and, `took` later, the record written back: even if it has expired in the
        meantime. */
    method AuthorizeSession(id: Id, pedido: Option<string>, expiresAt: int, lock: TokenLock.Acquisition, waited: nat,
                            routerOk: bool, took: nat, lag: nat)
      returns (out: Outcome)
      requires Valid()
      modifies this
      ensures Valid()
      ensures out.LockFailed? <==> !lock.Won?
      ensures var found := GetSession(old(store), id, old(now) + waited);
              match out
              case LockFailed => true
              case NotFound => found.None?
              case Already(s) => found == Some(s) && s.status == Authorized
              case InvalidTransition => found.Some? && found.value.status == Revoked
              case RouterFailed =>
                found.Some? && (found.value.status == Pending || found.value.status == Expired) && !routerOk
              case Done(s) =>
                && found.Some? && (found.value.status == Pending || found.value.status == Expired) && routerOk
                && s == found.value.(status := Authorized, expiresAt := Some(expiresAt), pedido := pedido)
                && var replied := old(now) + waited + took;
                   store == Persisted(old(store), s, ComputeTtl(s, replied), replied, lag)
      ensures !out.Done? ==> store == old(store)
      ensures now == old(now) + waited + match out case Done(_) => took + lag case RouterFailed => took case _ => 0
    {
      Pass(waited);
      if !lock.Won? {
        return LockFailed;
      }
      var existing := GetSession(store, id, now);
      if existing.None? {
        return NotFound;
      }
      var s := existing.value;
      if s.status == Authorized {
        return Already(s);
      }
      if !Allowed(s.status, Authorized) {
        return InvalidTransition;
      }
      StoredIsOwned(own, store, id, now);
      Pass(took);
      if !routerOk {
        return RouterFailed;
      }
      s := s.(status := Authorized, expiresAt := Some(expiresAt), pedido := pedido);
      Persist(s, ComputeTtl(s, now), lag);
      return Done(s);
    }

    method RevokeSession(id: Id, lock: TokenLock.Acquisition, waited: nat, routerOk: bool, took: nat, lag: nat)
      returns (out: Outcome)
      requires Valid()
      modifies this
      ensures Valid()
      ensures out.LockFailed? <==> !lock.Won?
      ensures var found := GetSession(old(store), id, old(now) + waited);
              match out
              case LockFailed => true
              case NotFound => found.None?
              case Already(s) => found == Some(s) && (s.status == Revoked || s.status == Expired)
              case InvalidTransition => false
              case RouterFailed =>
                found.Some? && (found.value.status == Pending || found.value.status == Authorized) && !routerOk
              case Done(s) =>
                && found.Some? && (found.value.status == Pending || found.value.status == Authorized) && routerOk
                && s == found.value.(status := Revoked)
                && store == Persisted(old(store), s, CLEANUP_WINDOW_MS, old(now) + waited + took, lag)
      ensures !out.Done? ==> store == old(store)
      ensures now == old(now) + waited + match out case Done(_) => took + lag case RouterFailed => took case _ => 0
    {
      Pass(waited);
      if !lock.Won? {
        return LockFailed;
      }
      var existing := GetSession(store, id, now);
      if existing.None? {
        return NotFound;
      }
      var s := existing.value;
      if s.status == Revoked || s.status == Expired {
        return Already(s);
      }
      assert Allowed(s.status, Revoked);
      StoredIsOwned(own, store, id, now);
      Pass(took);
      if !routerOk {
        return RouterFailed;
      }
      s := s.(status := Revoked);
      Persist(s, CLEANUP_WINDOW_MS, lag);
      return Done(s);
    }

    method DeleteSession(id: Id) returns (deleted: bool)
      requires Valid()
      modifies this`store
      ensures Valid()
      ensures deleted <==> Get(old(store), SessionKey(id), now).Some?
      ensures store == old(store) - {SessionKey(id)}
    {
      deleted := Get(store, SessionKey(id), now).Some?;
      DroppingKeepsInv(own, store, SessionKey(id), now);
      store := store - {SessionKey(id)};
    }

    /** Exactly the live session a scan finds; an index naming no live session
        is deleted on the way. */
    method FindByMac(mac: string) returns (found: Option<Session>)
      requires Valid()
      modifies this`store
      ensures Valid()
      ensures Scan(old(store), mac, now) == match found case Some(s) => {s} case None => {}
      ensures store == if Get(old(store), MacKey(mac), now).Some? && found.None? then old(store) - {MacKey(mac)}
                       else old(store)
    {
      LookupIsScan(own, store, mac, now);
      assert MacKey(mac) in store ==> Sound(own, store, MacKey(mac));
      var hit := Get(store, MacKey(mac), now);
      if hit.None? || !hit.value.IdValue? {
        return None;
      }
      found := GetSession(store, hit.value.id, now);
      if found.None? {
        DroppingKeepsInv(own, store, MacKey(mac), now);
        store := store - {MacKey(mac)};
      }
    }
  }
}
