/**
 Token locks: SET NX PX with a random token, compare-and-delete release and
 compare-and-extend heartbeat (sessionStore.js 67-116, jobStore.js 43-121).
 One lock key is modelled; operations on other keys do not touch it.
 */
module TokenLock {
  import opened Basics

  type Token = nat
  type Pid = nat

  /** Redis forgets a key when its expiry is reached; the in-process map keeps
      an expired lock until somebody overwrites it, and still counts it as held
      in the very millisecond of its expiry. */
  datatype Backend = RedisBackend | MemoryBackend

  datatype Lock = Lock(token: Token, expiresAt: int)

  predicate Held(b: Backend, l: Lock, now: int) {
    match b
    case RedisBackend => now < l.expiresAt
    case MemoryBackend => now <= l.expiresAt
  }

  /** What a command sees in the lock's cell. */
  function Visible(b: Backend, cell: Option<Lock>, now: int): Option<Lock> {
    if b.RedisBackend? && cell.Some? && !Held(b, cell.value, now) then None else cell
  }

  predicate Free(b: Backend, cell: Option<Lock>, now: int) {
    cell.Some? ==> !Held(b, cell.value, now)
  }

  function Acquire(b: Backend, cell: Option<Lock>, token: Token, ttl: nat, now: int): Option<Lock> {
    if Free(b, cell, now) then Some(Lock(token, now + ttl)) else cell
  }

  function Extend(b: Backend, cell: Option<Lock>, token: Token, ttl: nat, now: int): Option<Lock> {
    var seen := Visible(b, cell, now);
    if seen.Some? && seen.value.token == token then Some(Lock(token, now + ttl)) else seen
  }

  function Release(b: Backend, cell: Option<Lock>, token: Token, now: int): Option<Lock> {
    var seen := Visible(b, cell, now);
    if seen.Some? && seen.value.token == token then None else seen
  }

  /** A heartbeat that comes after the expiry: Redis has forgotten the key, the
      in-process map has not, and the lock is held again. */
  lemma LateHeartbeat(lock: Lock, ttl: nat, now: int)
    requires lock.expiresAt < now
    ensures Extend(RedisBackend, Some(lock), lock.token, ttl, now) == None
    ensures Extend(MemoryBackend, Some(lock), lock.token, ttl, now) == Some(Lock(lock.token, now + ttl))
  {
  }

  // ---------------------------------------------------------------- invariant

  /** `leases` records, per process inside the section, the token it holds and
      the expiry it last obtained. A lease that has not run out is the lock. */
  ghost predicate LeaseOk(b: Backend, cell: Option<Lock>, leases: map<Pid, Lock>, used: set<Token>, now: int, p: Pid)
    requires p in leases
  {
    && leases[p].token in used
    && (cell.Some? && cell.value.token == leases[p].token ==> cell.value == leases[p])
    && (Held(b, leases[p], now) ==> cell == Some(leases[p]))
  }

  ghost predicate Apart(leases: map<Pid, Lock>, p: Pid, q: Pid)
    requires p in leases && q in leases
  {
    leases[p].token != leases[q].token
  }

  ghost predicate LeaseInv(b: Backend, cell: Option<Lock>, leases: map<Pid, Lock>, used: set<Token>, now: int) {
    && (cell.Some? ==> cell.value.token in used)
    && (forall p | p in leases :: LeaseOk(b, cell, leases, used, now, p))
    && (forall p, q | p in leases && q in leases && p != q :: Apart(leases, p, q))
  }

  lemma LeaseExclusive(b: Backend, cell: Option<Lock>, leases: map<Pid, Lock>, used: set<Token>, now: int,
                       p: Pid, q: Pid)
    requires LeaseInv(b, cell, leases, used, now)
    requires p in leases && Held(b, leases[p], now)
    requires q in leases && Held(b, leases[q], now)
    ensures p == q
  {
    assert LeaseOk(b, cell, leases, used, now, p) && LeaseOk(b, cell, leases, used, now, q);
    assert p != q ==> Apart(leases, p, q);
  }

  lemma AcquireKeepsLeases(b: Backend, cell: Option<Lock>, leases: map<Pid, Lock>, used: set<Token>, now: int,
                           p: Pid, token: Token, ttl: nat)
    requires LeaseInv(b, cell, leases, used, now)
    requires token !in used && p !in leases && Free(b, cell, now)
    ensures LeaseInv(b, Acquire(b, cell, token, ttl, now), leases[p := Lock(token, now + ttl)], used + {token}, now)
  {
    var cell', leases', used' := Acquire(b, cell, token, ttl, now), leases[p := Lock(token, now + ttl)], used + {token};
    forall q | q in leases' ensures LeaseOk(b, cell', leases', used', now, q) {
      if q != p {
        assert LeaseOk(b, cell, leases, used, now, q);
      }
    }
    forall q, r | q in leases' && r in leases' && q != r ensures Apart(leases', q, r) {
      if q != p && r != p {
        assert Apart(leases, q, r);
      } else {
        assert LeaseOk(b, cell, leases, used, now, if q == p then r else q);
      }
    }
  }

  lemma ReleaseKeepsLeases(b: Backend, cell: Option<Lock>, leases: map<Pid, Lock>, used: set<Token>, now: int, p: Pid)
    requires LeaseInv(b, cell, leases, used, now)
    requires p in leases
    ensures LeaseInv(b, Release(b, cell, leases[p].token, now), leases - {p}, used, now)
    ensures LeaseInv(b, cell, leases - {p}, used, now)
  {
    var cell', leases' := Release(b, cell, leases[p].token, now), leases - {p};
    forall q | q in leases'
      ensures LeaseOk(b, cell', leases', used, now, q) && LeaseOk(b, cell, leases', used, now, q)
    {
      assert LeaseOk(b, cell, leases, used, now, q) && Apart(leases, p, q);
    }
    forall q, r | q in leases' && r in leases' && q != r ensures Apart(leases', q, r) {
      assert Apart(leases, q, r);
    }
  }

  lemma ExtendKeepsLeases(b: Backend, cell: Option<Lock>, leases: map<Pid, Lock>, used: set<Token>, now: int,
                          p: Pid, ttl: nat)
    requires LeaseInv(b, cell, leases, used, now)
    requires p in leases
    ensures var after := Extend(b, cell, leases[p].token, ttl, now);
            LeaseInv(b, after,
                     if after == Some(Lock(leases[p].token, now + ttl)) then leases[p := after.value] else leases,
                     used, now)
  {
    var cell' := Extend(b, cell, leases[p].token, ttl, now);
    var leases' := if cell' == Some(Lock(leases[p].token, now + ttl)) then leases[p := cell'.value] else leases;
    assert LeaseOk(b, cell, leases, used, now, p);
    forall q | q in leases' ensures LeaseOk(b, cell', leases', used, now, q) {
      assert LeaseOk(b, cell, leases, used, now, q);
      assert q != p ==> Apart(leases, p, q);
    }
    forall q, r | q in leases' && r in leases' && q != r ensures Apart(leases', q, r) {
      assert Apart(leases, q, r);
    }
  }

  /** A release that names no token keeps the leases exactly when none of them is
      alive. */
  lemma ClearKeepsLeasesIff(b: Backend, cell: Option<Lock>, leases: map<Pid, Lock>, used: set<Token>, now: int)
    requires LeaseInv(b, cell, leases, used, now)
    ensures LeaseInv(b, None, leases, used, now) <==> forall p | p in leases :: !Held(b, leases[p], now)
  {
    forall p | p in leases
      ensures LeaseOk(b, None, leases, used, now, p) <==> !Held(b, leases[p], now)
    {
      assert LeaseOk(b, cell, leases, used, now, p);
    }
  }

  lemma TickKeepsLeases(b: Backend, cell: Option<Lock>, leases: map<Pid, Lock>, used: set<Token>, now: int, later: int)
    requires LeaseInv(b, cell, leases, used, now)
    requires now <= later
    ensures LeaseInv(b, cell, leases, used, later)
  {
    forall p | p in leases ensures LeaseOk(b, cell, leases, used, later, p) {
      assert LeaseOk(b, cell, leases, used, now, p);
    }
  }

  // ------------------------------------------------------------ state machine

  datatype State = State(now: int, cell: Option<Lock>, inside: map<Pid, Lock>, used: set<Token>, left: set<Pid>)

  datatype Action =
    | Tick(ms: nat)
    | Enter(p: Pid, token: Token, ttl: nat)   // one SET NX PX, whether or not it wins
    | Beat(p: Pid, ttl: nat)                  // one heartbeat
    | Leave(p: Pid)                           // compare-and-delete, then out
    | Crash(p: Pid)                           // out, the lock stays behind
    | Clear(p: Pid)                           // a release without a token, once out: the job's handler threw

  ghost predicate Init(s: State) { s.cell == None && s.inside == map[] && s.used == {} && s.left == {} }

  predicate Enabled(s: State, a: Action) {
    match a
    case Tick(_) => true
    case Enter(p, token, _) => p !in s.inside && token !in s.used
    case Beat(p, _) => p in s.inside
    case Leave(p) => p in s.inside
    case Crash(p) => p in s.inside
    case Clear(p) => p in s.left
  }

  function Next(b: Backend, s: State, a: Action): State
    requires Enabled(s, a)
  {
    match a
    case Tick(ms) => s.(now := s.now + ms)
    case Enter(p, token, ttl) =>
      if Free(b, s.cell, s.now)
      then s.(cell := Acquire(b, s.cell, token, ttl, s.now),
              inside := s.inside[p := Lock(token, s.now + ttl)], used := s.used + {token}, left := s.left - {p})
      else s.(used := s.used + {token})
    case Beat(p, ttl) =>
      var after := Extend(b, s.cell, s.inside[p].token, ttl, s.now);
      s.(cell := after,
         inside := if after == Some(Lock(s.inside[p].token, s.now + ttl)) then s.inside[p := after.value] else s.inside)
    case Leave(p) =>
      s.(cell := Release(b, s.cell, s.inside[p].token, s.now), inside := s.inside - {p}, left := s.left + {p})
    case Crash(p) => s.(inside := s.inside - {p})
    case Clear(p) => s.(cell := None, left := s.left - {p})
  }

  /** Who comes in, who goes, and what becomes of the lock: winning is being inside, a
      crash leaves the lock behind, a release without a token takes it from anyone,
      once. */
  lemma StepIs(b: Backend, s: State, a: Action)
    requires Enabled(s, a)
    ensures var t := Next(b, s, a);
            match a
            case Tick(ms) => t == s.(now := s.now + ms)
            case Enter(p, token, ttl) =>
              if Free(b, s.cell, s.now) then t.cell == Some(Lock(token, s.now + ttl)) && p in t.inside && p !in t.left
              else t.cell == s.cell && t.inside == s.inside && t.left == s.left
            case Beat(_, _) => t.inside.Keys == s.inside.Keys && t.left == s.left
            case Leave(p) => t.inside == s.inside - {p} && p in t.left
            case Crash(p) => t == s.(inside := s.inside - {p})
            case Clear(p) => t.cell == None && t.inside == s.inside && t.left == s.left - {p}
  {
  }

  /** `t` is reached from `s` by the actions, each enabled when it happens. */
  ghost predicate Run(b: Backend, s: State, acts: seq<Action>, t: State)
    decreases |acts|
  {
    if acts == [] then s == t
    else Enabled(s, acts[0]) && Run(b, Next(b, s, acts[0]), acts[1..], t)
  }

  /** Every holder leaves or renews in time: no state of the run has a process
      inside on a lease that has run out. */
  ghost predicate Prompt(b: Backend, s: State, acts: seq<Action>)
    decreases |acts|
  {
    && (forall p | p in s.inside :: Held(b, s.inside[p], s.now))
    && (acts != [] && Enabled(s, acts[0]) ==> Prompt(b, Next(b, s, acts[0]), acts[1..]))
  }

  ghost predicate NobodyLive(b: Backend, s: State) { forall p | p in s.inside :: !Held(b, s.inside[p], s.now) }

  /** Whoever releases without a token meets no live lease: so it is in a run in
      which no handler throws. */
  ghost predicate Careful(b: Backend, s: State, acts: seq<Action>)
    decreases |acts|
  {
    acts != [] && Enabled(s, acts[0]) ==>
      (acts[0].Clear? ==> NobodyLive(b, s)) && Careful(b, Next(b, s, acts[0]), acts[1..])
  }

  lemma {:induction false} NoThrowIsCareful(b: Backend, s: State, acts: seq<Action>)
    requires forall i | 0 <= i < |acts| :: !acts[i].Clear?
    ensures Careful(b, s, acts)
    decreases |acts|
  {
    if acts != [] && Enabled(s, acts[0]) {
      NoThrowIsCareful(b, Next(b, s, acts[0]), acts[1..]);
    }
  }

  ghost predicate Inv(b: Backend, s: State) { LeaseInv(b, s.cell, s.inside, s.used, s.now) }

  lemma NextKeepsInv(b: Backend, s: State, a: Action)
    requires Inv(b, s) && Enabled(s, a) && (a.Clear? ==> NobodyLive(b, s))
    ensures Inv(b, Next(b, s, a))
  {
    match a
    case Tick(ms) => TickKeepsLeases(b, s.cell, s.inside, s.used, s.now, s.now + ms);
    case Enter(p, token, ttl) =>
      if Free(b, s.cell, s.now) {
        AcquireKeepsLeases(b, s.cell, s.inside, s.used, s.now, p, token, ttl);
      }
    case Beat(p, ttl) => ExtendKeepsLeases(b, s.cell, s.inside, s.used, s.now, p, ttl);
    case Leave(p) => ReleaseKeepsLeases(b, s.cell, s.inside, s.used, s.now, p);
    case Crash(p) =>
    case Clear(p) => ClearKeepsLeasesIff(b, s.cell, s.inside, s.used, s.now);
  }

  lemma {:induction false} RunKeepsInv(b: Backend, s: State, acts: seq<Action>, t: State)
    requires Inv(b, s) && Run(b, s, acts, t) && Careful(b, s, acts)
    ensures Inv(b, t)
    decreases |acts|
  {
    if acts != [] {
      NextKeepsInv(b, s, acts[0]);
      RunKeepsInv(b, Next(b, s, acts[0]), acts[1..], t);
    }
  }

  // ----------------------------------------------------------------- theorems

  /** With no timing assumption at all: two processes never both hold a lease
      that has not run out. */
  lemma AtMostOneLiveHolder(b: Backend, s: State, acts: seq<Action>, t: State, p: Pid, q: Pid)
    requires Init(s) && Run(b, s, acts, t) && Careful(b, s, acts)
    requires p in t.inside && Held(b, t.inside[p], t.now)
    requires q in t.inside && Held(b, t.inside[q], t.now)
    ensures p == q
  {
    RunKeepsInv(b, s, acts, t);
    LeaseExclusive(b, t.cell, t.inside, t.used, t.now, p, q);
  }

  lemma {:induction false} PromptAtEnd(b: Backend, s: State, acts: seq<Action>, t: State)
    requires Run(b, s, acts, t) && Prompt(b, s, acts)
    ensures forall p | p in t.inside :: Held(b, t.inside[p], t.now)
    decreases |acts|
  {
    if acts != [] {
      PromptAtEnd(b, Next(b, s, acts[0]), acts[1..], t);
    }
  }

  ghost predicate Exclusive(s: State) { forall p, q | p in s.inside && q in s.inside :: p == q }

  /** When every holder leaves or renews before expiry, the section is
      exclusive, however long the run and however often a holder renews. */
  lemma MutualExclusion(b: Backend, s: State, acts: seq<Action>, t: State)
    requires Init(s) && Run(b, s, acts, t) && Careful(b, s, acts) && Prompt(b, s, acts)
    ensures Exclusive(t)
  {
    RunKeepsInv(b, s, acts, t);
    PromptAtEnd(b, s, acts, t);
    forall p, q | p in t.inside && q in t.inside ensures p == q {
      LeaseExclusive(b, t.cell, t.inside, t.used, t.now, p, q);
    }
  }

  /** With no timing assumption: a held lock changes hands or disappears only
      when a process presents that very token (to renew or to release it), or
      releases without one. */
  lemma OnlyTheTokenMovesTheLock(b: Backend, s: State, a: Action)
    requires Enabled(s, a)
    requires s.cell.Some? && Held(b, s.cell.value, s.now) && Next(b, s, a).cell != s.cell
    ensures a.Clear? || ((a.Leave? || a.Beat?) && s.inside[a.p].token == s.cell.value.token)
    ensures a.Leave? ==> Next(b, s, a).cell == None
    ensures a.Beat? ==> Next(b, s, a).cell == Some(Lock(s.cell.value.token, s.now + a.ttl))
  {
  }

  /** The timing condition is needed: a holder that overstays its lease shares
      the section with the next one. */
  lemma OverstayBreaksExclusion(b: Backend) returns (acts: seq<Action>, t: State)
    ensures Run(b, Start(), acts, t) && Careful(b, Start(), acts)
    ensures 1 in t.inside && 2 in t.inside
  {
    var s := Start();
    acts, t := [], s;
    acts, t := CarryOn(b, s, acts, t, Enter(1, 10, LOCK_TTL_MS));
    acts, t := CarryOn(b, s, acts, t, Tick(LOCK_TTL_MS + 1));
    acts, t := CarryOn(b, s, acts, t, Enter(2, 20, LOCK_TTL_MS));
    NoThrowIsCareful(b, s, acts);
  }

  function Start(): State { State(0, None, map[], {}, {}) }

  lemma CarryOn(b: Backend, s: State, acts: seq<Action>, t: State, a: Action) returns (longer: seq<Action>, u: State)
    requires Run(b, s, acts, t) && Enabled(t, a)
    ensures longer == acts + [a] && u == Next(b, t, a) && Run(b, s, longer, u)
  {
    longer, u := acts + [a], Next(b, t, a);
    RunSnoc(b, s, acts, t, a);
  }

  lemma {:induction false} RunSnoc(b: Backend, s: State, acts: seq<Action>, t: State, a: Action)
    requires Run(b, s, acts, t) && Enabled(t, a)
    ensures Run(b, s, acts + [a], Next(b, t, a))
    decreases |acts|
  {
    if acts == [] {
      assert Run(b, Next(b, s, a), [], Next(b, s, a));
    } else {
      assert (acts + [a])[1..] == acts[1..] + [a];
      RunSnoc(b, Next(b, s, acts[0]), acts[1..], t, a);
    }
  }

  // ------------------------------------------------ releases without a token

  lemma {:induction false} UnusedNumber(taken: set<nat>) returns (n: nat)
    ensures n !in taken && forall m | m in taken :: m < n
  {
    n := 0;
    if taken != {} {
      var m :| m in taken;
      var above := UnusedNumber(taken - {m});
      n := Max(above, m + 1);
      assert forall x | x in taken :: x == m || x in taken - {m};
    }
  }

  /** While a lease is alive, such a release lets another process in. */
  lemma ClearLetsAnotherIn(b: Backend, s: State, p: Pid, left: Pid) returns (q: Pid, enter: Action)
    requires p in s.inside && Held(b, s.inside[p], s.now) && left in s.left
    ensures var cleared := Next(b, s, Clear(left));
            && q != p && enter.Enter? && Enabled(cleared, enter)
            && var t := Next(b, cleared, enter);
               p in t.inside && q in t.inside && Held(b, t.inside[p], t.now) && Held(b, t.inside[q], t.now)
  {
    q := UnusedNumber(s.inside.Keys);
    var token := UnusedNumber(s.used);
    enter := Enter(q, token, 1);
  }

  /** The condition on runs is exact: one that is not careful has gone wrong
      already, or does with the next process that enters. */
  lemma {:induction false} CarelessRunsBreak(b: Backend, s: State, acts: seq<Action>, t: State)
    returns (n: nat, enter: Action, u: State, p: Pid, q: Pid)
    requires Run(b, s, acts, t) && !Careful(b, s, acts)
    ensures n <= |acts| && enter.Enter? && Run(b, s, acts[..n] + [enter], u)
    ensures p != q && p in u.inside && q in u.inside && Held(b, u.inside[p], u.now) && Held(b, u.inside[q], u.now)
    decreases |acts|
  {
    var a, next := acts[0], Next(b, s, acts[0]);
    if a.Clear? && !NobodyLive(b, s) {
      p :| p in s.inside && Held(b, s.inside[p], s.now);
      q, enter := ClearLetsAnotherIn(b, s, p, a.p);
      n, u := 1, Next(b, next, enter);
      assert Run(b, u, [], u) && Run(b, next, [enter], u);
      assert acts[..1] + [enter] == [a, enter] && [a, enter][1..] == [enter];
    } else {
      n, enter, u, p, q := CarelessRunsBreak(b, next, acts[1..], t);
      n := n + 1;
      assert (acts[..n] + [enter])[1..] == acts[1..][..n - 1] + [enter];
    }
  }

  // -------------------------------------------------------------- heartbeats

  /** Whether leases last longer than the time between two signs of life. */
  predicate Outlasts(b: Backend, ttl: nat, gap: nat) { if b.RedisBackend? then gap < ttl else gap <= ttl }

  predicate WithTtl(a: Action, ttl: nat) { (a.Enter? ==> a.ttl == ttl) && (a.Beat? ==> a.ttl == ttl) }

  /** When every process last got in or sent a heartbeat. */
  function Noted(b: Backend, s: State, last: map<Pid, int>, a: Action): map<Pid, int> {
    if a.Beat? || (a.Enter? && Free(b, s.cell, s.now)) then last[a.p := s.now] else last
  }

  ghost predicate InPace(s: State, last: map<Pid, int>, gap: nat) {
    forall p | p in s.inside :: p in last && s.now <= last[p] + gap
  }

  /** A run with one TTL in which no process inside is ever silent for longer than
      the gap. */
  ghost predicate Paced(b: Backend, s: State, last: map<Pid, int>, acts: seq<Action>, ttl: nat, gap: nat)
    decreases |acts|
  {
    && InPace(s, last, gap)
    && (acts != [] && Enabled(s, acts[0]) ==>
          WithTtl(acts[0], ttl) && Paced(b, Next(b, s, acts[0]), Noted(b, s, last, acts[0]), acts[1..], ttl, gap))
  }

  /** Every lease was obtained at the holder's last sign of life. */
  ghost predicate Renewed(s: State, last: map<Pid, int>, ttl: nat) {
    forall p | p in s.inside :: p in last && s.inside[p].expiresAt == last[p] + ttl
  }

  lemma BeatRenews(b: Backend, s: State, a: Action, last: map<Pid, int>, ttl: nat, gap: nat)
    requires Inv(b, s) && Enabled(s, a) && WithTtl(a, ttl) && Outlasts(b, ttl, gap)
    requires InPace(s, last, gap) && Renewed(s, last, ttl)
    ensures Renewed(Next(b, s, a), Noted(b, s, last, a), ttl)
  {
    if a.Beat? {
      assert LeaseOk(b, s.cell, s.inside, s.used, s.now, a.p);
    }
  }

  lemma {:induction false} PacedIsPrompt(b: Backend, s: State, last: map<Pid, int>, acts: seq<Action>, ttl: nat,
                                         gap: nat)
    requires Inv(b, s) && Renewed(s, last, ttl) && Paced(b, s, last, acts, ttl, gap) && Outlasts(b, ttl, gap)
    requires Careful(b, s, acts)
    ensures Prompt(b, s, acts)
    decreases |acts|
  {
    if acts != [] && Enabled(s, acts[0]) {
      NextKeepsInv(b, s, acts[0]);
      BeatRenews(b, s, acts[0], last, ttl, gap);
      PacedIsPrompt(b, Next(b, s, acts[0]), Noted(b, s, last, acts[0]), acts[1..], ttl, gap);
    }
  }

  ghost predicate PromptIfPaced(b: Backend, s: State, acts: seq<Action>, ttl: nat, gap: nat) {
    Init(s) && Careful(b, s, acts) && Paced(b, s, map[], acts, ttl, gap) ==> Prompt(b, s, acts)
  }

  ghost predicate AlwaysPrompt(b: Backend, ttl: nat, gap: nat) { forall s, acts :: PromptIfPaced(b, s, acts, ttl, gap) }

  lemma SilenceOverstays(b: Backend, ttl: nat, gap: nat)
    requires !Outlasts(b, ttl, gap)
    ensures !PromptIfPaced(b, Start(), [Enter(1, 10, ttl), Tick(gap)], ttl, gap)
  {
    var s := Start();
    var s1 := Next(b, s, Enter(1, 10, ttl));
    var s2 := Next(b, s1, Tick(gap));
    var acts := [Enter(1, 10, ttl), Tick(gap)];
    assert acts[1..] == [Tick(gap)] && acts[1..][1..] == [];
    assert Paced(b, s2, map[1 := 0], [], ttl, gap);
    assert Paced(b, s1, map[1 := 0], acts[1..], ttl, gap);
    assert !Prompt(b, s2, []);
    assert !Prompt(b, s1, acts[1..]);
    NoThrowIsCareful(b, s, acts);
  }

  /** The same of exclusion; `throws` admits runs in which a handler throws while
      somebody else holds a live lease. */
  ghost predicate ExclusiveIfPaced(b: Backend, s: State, acts: seq<Action>, t: State, ttl: nat, gap: nat,
                                   throws: bool) {
    Init(s) && Run(b, s, acts, t) && (throws || Careful(b, s, acts)) && Paced(b, s, map[], acts, ttl, gap) ==>
      Exclusive(t)
  }

  ghost predicate AlwaysExclusive(b: Backend, ttl: nat, gap: nat, throws: bool) {
    forall s, acts, t :: ExclusiveIfPaced(b, s, acts, t, ttl, gap, throws)
  }

  lemma SilenceLetsTwoIn(b: Backend, ttl: nat, gap: nat, throws: bool)
    requires !Outlasts(b, ttl, gap)
    ensures !AlwaysExclusive(b, ttl, gap, throws)
  {
    var s := Start();
    var s1 := Next(b, s, Enter(1, 10, ttl));
    var s2 := Next(b, s1, Tick(gap));
    var t := Next(b, s2, Enter(2, 20, ttl));
    var acts := [Enter(1, 10, ttl), Tick(gap), Enter(2, 20, ttl)];
    assert acts[1..] == [Tick(gap), Enter(2, 20, ttl)] && acts[1..][1..] == [Enter(2, 20, ttl)];
    assert acts[1..][1..][1..] == [];
    assert Run(b, t, [], t) && Paced(b, t, map[1 := 0, 2 := gap], [], ttl, gap);
    assert Run(b, s2, acts[1..][1..], t) && Paced(b, s2, map[1 := 0], acts[1..][1..], ttl, gap);
    assert Run(b, s1, acts[1..], t) && Paced(b, s1, map[1 := 0], acts[1..], ttl, gap);
    NoThrowIsCareful(b, s, acts);
    assert 1 in t.inside && 2 in t.inside;
    assert !ExclusiveIfPaced(b, s, acts, t, ttl, gap, throws);
  }

  /** A step before a paced run. */
  lemma PacedStep(b: Backend, s: State, last: map<Pid, int>, a: Action, acts: seq<Action>, t: State, ttl: nat, gap: nat)
    requires InPace(s, last, gap) && Enabled(s, a) && WithTtl(a, ttl)
    requires Run(b, Next(b, s, a), acts, t) && Paced(b, Next(b, s, a), Noted(b, s, last, a), acts, ttl, gap)
    ensures Run(b, s, [a] + acts, t) && Paced(b, s, last, [a] + acts, ttl, gap)
  {
    assert ([a] + acts)[1..] == acts;
  }

  /** In no time at all: one process gets in, and, the handler of another that is
      out having thrown, a second one. */
  lemma TwoGetIn(b: Backend, s: State, last: map<Pid, int>, ttl: nat, gap: nat) returns (acts: seq<Action>, t: State)
    requires s.inside == map[] && s.cell == None && 1 in s.left && 20 !in s.used && 30 !in s.used
    ensures Run(b, s, acts, t) && Paced(b, s, last, acts, ttl, gap) && 2 in t.inside && 3 in t.inside
  {
    var s1 := Next(b, s, Enter(2, 20, ttl));
    var s2 := Next(b, s1, Clear(1));
    var now := s.now;
    t := Next(b, s2, Enter(3, 30, ttl));
    assert Run(b, t, [], t) && Paced(b, t, last[2 := now][3 := now], [], ttl, gap);
    acts := [Enter(3, 30, ttl)] + [];
    PacedStep(b, s2, last[2 := now], Enter(3, 30, ttl), [], t, ttl, gap);
    PacedStep(b, s1, last[2 := now], Clear(1), acts, t, ttl, gap);
    acts := [Clear(1)] + acts;
    PacedStep(b, s, last, Enter(2, 20, ttl), acts, t, ttl, gap);
    acts := [Enter(2, 20, ttl)] + acts;
  }

  lemma ThrowLetsTwoIn(b: Backend, ttl: nat, gap: nat)
    ensures !AlwaysExclusive(b, ttl, gap, true)
  {
    var s := Start();
    var s1 := Next(b, s, Enter(1, 10, ttl));
    var acts, t := TwoGetIn(b, Next(b, s1, Leave(1)), map[1 := 0], ttl, gap);
    PacedStep(b, s1, map[1 := 0], Leave(1), acts, t, ttl, gap);
    acts := [Leave(1)] + acts;
    PacedStep(b, s, map[], Enter(1, 10, ttl), acts, t, ttl, gap);
    acts := [Enter(1, 10, ttl)] + acts;
    assert !ExclusiveIfPaced(b, s, acts, t, ttl, gap, true);
  }

  /** Heartbeats sent every so often and late by at most so much keep every lease
      alive in every run without a handler that throws out of turn, exactly when
      the two together stay within the TTL; and the section is exclusive in every
      run exactly when, besides, no handler throws out of turn. */
  lemma HeartbeatsKeepLeases(b: Backend, ttl: nat, every: nat, late: nat, throws: bool)
    ensures AlwaysPrompt(b, ttl, every + late) <==> Outlasts(b, ttl, every + late)
    ensures AlwaysExclusive(b, ttl, every + late, throws) <==> Outlasts(b, ttl, every + late) && !throws
  {
    var gap := every + late;
    if Outlasts(b, ttl, gap) {
      forall s, acts ensures PromptIfPaced(b, s, acts, ttl, gap) {
        if Init(s) && Careful(b, s, acts) && Paced(b, s, map[], acts, ttl, gap) {
          PacedIsPrompt(b, s, map[], acts, ttl, gap);
        }
      }
      forall s, acts, t ensures ExclusiveIfPaced(b, s, acts, t, ttl, gap, false) {
        if Init(s) && Run(b, s, acts, t) && Careful(b, s, acts) && Paced(b, s, map[], acts, ttl, gap) {
          PacedIsPrompt(b, s, map[], acts, ttl, gap);
          MutualExclusion(b, s, acts, t);
        }
      }
      ThrowLetsTwoIn(b, ttl, gap);
    } else {
      SilenceOverstays(b, ttl, gap);
      SilenceLetsTwoIn(b, ttl, gap, throws);
    }
  }

  const DEFAULT_LOCK_TTL_MS: nat := 30000

  /** The runner's interval, unless it is set. */
  function HeartbeatInterval(ttl: nat): nat { Max(1000, ttl / 2) }

  /** By default a heartbeat may be late by anything under fifteen seconds. */
  lemma DefaultHeartbeats(late: nat)
    ensures AlwaysPrompt(RedisBackend, DEFAULT_LOCK_TTL_MS, HeartbeatInterval(DEFAULT_LOCK_TTL_MS) + late) <==>
              late < 15000
  {
    HeartbeatsKeepLeases(RedisBackend, DEFAULT_LOCK_TTL_MS, HeartbeatInterval(DEFAULT_LOCK_TTL_MS), late, false);
  }

  /** Set to a second or less, the TTL runs out before the first heartbeat, however
      punctual. */
  lemma ShortTtlLapses(ttl: nat, late: nat)
    requires ttl <= 1000
    ensures !AlwaysPrompt(RedisBackend, ttl, HeartbeatInterval(ttl) + late)
  {
    HeartbeatsKeepLeases(RedisBackend, ttl, HeartbeatInterval(ttl), late, false);
  }

  // ------------------------------------------------------------ retrying SET

  const LOCK_TTL_MS: nat := 120000
  const LOCK_RETRY_MS: nat := 100
  const MAX_LOCK_RETRIES: nat := 60

  /** What a try meets: when it gets there, what the key holds then, since other
      clients act in between, and whether Redis throws instead. */
  datatype Try = Try(at: int, cell: Option<Lock>, error: bool)

  datatype Acquisition = Won(lock: Lock) | Threw | TimedOut

  /** Tries are a hundred milliseconds apart, or more. */
  ghost predicate Spaced(tries: nat -> Try, i: nat) { tries(i).at + LOCK_RETRY_MS <= tries(i + 1).at }

  ghost predicate TakenAt(tries: nat -> Try, i: nat) {
    !tries(i).error && !Free(RedisBackend, tries(i).cell, tries(i).at)
  }

  /** sessionStore's acquireLock: SET NX PX up to 60 times. */
  method AcquireLock(tries: nat -> Try, token: Token) returns (out: Acquisition, n: nat)
    requires forall i: nat :: Spaced(tries, i)
    ensures n <= MAX_LOCK_RETRIES && forall i: nat | i < n :: TakenAt(tries, i)
    ensures match out
            case Won(lock) =>
              && n < MAX_LOCK_RETRIES && !tries(n).error && Free(RedisBackend, tries(n).cell, tries(n).at)
              && Some(lock) == Acquire(RedisBackend, tries(n).cell, token, LOCK_TTL_MS, tries(n).at)
            case Threw => n < MAX_LOCK_RETRIES && tries(n).error
            case TimedOut => n == MAX_LOCK_RETRIES && tries(0).at + 6000 <= tries(n).at
  {
    n := 0;
    while n < MAX_LOCK_RETRIES
      invariant n <= MAX_LOCK_RETRIES && tries(0).at + n * LOCK_RETRY_MS <= tries(n).at
      invariant forall i: nat | i < n :: TakenAt(tries, i)
    {
      var Try(at, cell, error) := tries(n);
      if error {
        return Threw, n;
      }
      if Free(RedisBackend, cell, at) {
        return Won(Lock(token, at + LOCK_TTL_MS)), n;
      }
      assert Spaced(tries, n);
      n := n + 1;
    }
    return TimedOut, n;
  }
}

/** The lock table of jobStore.js in file mode: one map in the process. */
module JobLocks {
  import opened Basics
  import opened TokenLock

  class InMemoryLocks {
    var locks: map<string, Lock>

    constructor ()
      ensures locks == map[]
    {
      locks := map[];
    }

    ghost function Cell(jobId: string): Option<Lock>
      reads this
    {
      if jobId in locks then Some(locks[jobId]) else None
    }

    method AcquireLock(jobId: string, token: Token, ttl: nat, now: int) returns (won: Option<Token>)
      modifies this
      ensures Cell(jobId) == Acquire(MemoryBackend, old(Cell(jobId)), token, ttl, now)
      ensures won == if Free(MemoryBackend, old(Cell(jobId)), now) then Some(token) else None
      ensures forall k | k != jobId :: Cell(k) == old(Cell(k))
    {
      if jobId !in locks {
        locks := locks[jobId := Lock(token, now + ttl)];
        return Some(token);
      }
      if now > locks[jobId].expiresAt {
        locks := locks[jobId := Lock(token, now + ttl)];
        return Some(token);
      }
      return None;
    }

    method ExtendLock(jobId: string, token: Token, ttl: nat, now: int) returns (ok: bool)
      modifies this
      ensures Cell(jobId) == Extend(MemoryBackend, old(Cell(jobId)), token, ttl, now)
      ensures ok <==> old(Cell(jobId)).Some? && old(Cell(jobId)).value.token == token
      ensures forall k | k != jobId :: Cell(k) == old(Cell(k))
    {
      if jobId !in locks || locks[jobId].token != token {
        return false;
      }
      locks := locks[jobId := Lock(token, now + ttl)];
      return true;
    }

    /** Without a token the lock goes whoever holds it (jobRunner.js 130). */
    method ReleaseLock(jobId: string, token: Option<Token>, now: int)
      modifies this
      ensures Cell(jobId) == if token.Some? then Release(MemoryBackend, old(Cell(jobId)), token.value, now) else None
      ensures forall k | k != jobId :: Cell(k) == old(Cell(k))
    {
      if jobId !in locks {
        return;
      }
      if token.None? || locks[jobId].token == token.value {
        locks := locks - {jobId};
      }
    }
  }
}
