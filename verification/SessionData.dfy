/** Sessions, their Redis keys and their time to live (sessionStore.js 5-65, 118-213). */
module SessionData {
  import opened Basics

  type Id = nat

  const CREATE_TTL_MS := 120000
  const CLEANUP_WINDOW_MS := 21600000
  const MIN_TTL_MS := 60000

  datatype Status = Pending | Authorized | Revoked | Expired

  /** ALLOWED_TRANSITIONS. */
  predicate Allowed(from: Status, to: Status) {
    match from
    case Pending => to != Pending
    case Authorized => to == Revoked || to == Expired
    case Revoked => false
    case Expired => to == Authorized
  }

  datatype Session = Session(
    id: Id, ip: Option<string>, mac: Option<string>, pedido: Option<string>,
    status: Status, expiresAt: Option<int>)

  datatype Key = SessionKey(id: Id) | IpKey(ip: string) | MacKey(mac: string) | PedidoKey(pedido: string)

  datatype Value = SessionValue(session: Session) | IdValue(id: Id)

  datatype Entry = Entry(value: Value, expiresAt: int)

  type Store = map<Key, Entry>

  /** The record of a session still to expire outlives it by exactly the cleanup
      window; any other record is kept for a minute. */
  function ComputeTtl(session: Session, now: int): (ttl: int)
    ensures session.expiresAt.Some? && now < session.expiresAt.value ==>
              now + ttl == session.expiresAt.value + CLEANUP_WINDOW_MS
    ensures session.expiresAt.None? || session.expiresAt.value <= now ==> ttl == MIN_TTL_MS
  {
    if session.expiresAt.None? || session.expiresAt.value - now <= 0 then MIN_TTL_MS
    else Max(session.expiresAt.value - now + CLEANUP_WINDOW_MS, MIN_TTL_MS)
  }

  function Get(store: Store, k: Key, now: int): Option<Value> {
    if k in store && now < store[k].expiresAt then Some(store[k].value) else None
  }

  function GetSession(store: Store, id: Id, now: int): Option<Session> {
    var v := Get(store, SessionKey(id), now);
    if v.Some? && v.value.SessionValue? then Some(v.value.session) else None
  }

  /** The index keys persistIndices sets, in the order it sends them. */
  function IndexKeys(s: Session): seq<Key> {
      (if s.ip.Some? then [IpKey(s.ip.value)] else [])
    + (if s.mac.Some? then [MacKey(s.mac.value)] else [])
    + (if s.pedido.Some? then [PedidoKey(s.pedido.value)] else [])
  }

  /** One key each for the IP, the MAC and the order it has. */
  lemma IndexKeysAre(s: Session, k: Key)
    ensures k in IndexKeys(s) <==>
              match k
              case SessionKey(_) => false
              case IpKey(ip) => s.ip == Some(ip)
              case MacKey(mac) => s.mac == Some(mac)
              case PedidoKey(pedido) => s.pedido == Some(pedido)
  {
  }

  function ValueFor(s: Session, k: Key): Value { if k.SessionKey? then SessionValue(s) else IdValue(s.id) }

  function Set(store: Store, s: Session, k: Key, ttl: int, now: int): Store {
    store[k := Entry(ValueFor(s, k), now + ttl)]
  }
}
