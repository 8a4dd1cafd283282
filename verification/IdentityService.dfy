/** Authorizing a pending payment, at once or by retry jobs
    (identityService.js 20-242). */
module IdentityService {
  import opened Basics
  import opened RouterHealth
  import opened RetryChain
  import opened IdentityStore
  import opened AppliedWindow
  import Text

  const PRUNE_COOLDOWN_MS: nat := 60000

  datatype Payload = Payload(
    sid: string, routerId: Option<string>, routerHint: Option<string>, identity: Option<string>,
    ip: Option<string>, mac: Option<string>, attempt: nat)

  datatype Job = Job(payload: Payload, runAt: nat)

  function LastSeenOf(all: seq<Record>, sid: string): LastSeen {
    var r := Find(all, sid);
    if r.Some? && r.value.lastSeen.Some? then r.value.lastSeen.value else LastSeen(None, None, None, 0)
  }

  function PickRouter(p: Payload, pendingRouterId: Option<string>, lastSeenRouterId: Option<string>): Option<string> {
    Or(p.routerHint, Or(p.identity, Or(Or(pendingRouterId, p.routerId), lastSeenRouterId)))
  }

  const RETRIES_EXHAUSTED := "authorization_failed_after_retries"

  function ActionKey(routerId: string, pedidoId: string): (key: string)
    ensures key != ""
  {
    routerId + ":" + pedidoId + ":AUTHORIZE"
  }

  /** Actions of different orders or routers have different keys. */
  lemma ActionKeyNames(routerId: string, pedidoId: string)
    requires ':' !in routerId && ':' !in pedidoId
    ensures Text.Split(ActionKey(routerId, pedidoId), ':') == [routerId, pedidoId, "AUTHORIZE"]
  {
    var parts := [routerId, pedidoId, "AUTHORIZE"];
    assert parts[1..] == [pedidoId, "AUTHORIZE"] && parts[1..][1..] == ["AUTHORIZE"];
    assert Text.Join(["AUTHORIZE"], ':') == "AUTHORIZE";
    assert Text.Join(parts[1..], ':') == pedidoId + [':'] + "AUTHORIZE";
    assert Text.Join(parts, ':') == ActionKey(routerId, pedidoId);
    Text.SplitOfJoin(parts, ':');
  }

  function Reset(p: Pending): Pending {
    p.(status := PENDING, failCode := None, failedAt := None, nextEligibleAt := None)
  }

  predicate CoolsDown(p: Pending, now: nat) {
    p.status == FAILED && p.nextEligibleAt.Some? && now < p.nextEligibleAt.value
  }

  /** What a run finds in the store, and the store once a failed payment past its
      cool-down is pending again. */
  datatype Sight = Sight(seen: Seen, all: seq<Record>, routerId: string, pedidoId: string)

  function Look(all: seq<Record>, p: Payload, now: nat): (s: Sight)
    ensures s.seen.Ready? ==> p.sid != "" && s.routerId != "" && GetPending(all, p.sid).Some?
    ensures s.seen.Ready? ==> GetPending(all, p.sid).value.pedidoId == s.pedidoId
  {
    var pending := GetPending(all, p.sid);
    if p.sid == "" then Sight(Unresolved, all, "", "")
    else if pending.None? then Sight(NoPending, all, "", "")
    else if CoolsDown(pending.value, now) then Sight(Cooling, all, "", "")
    else
      var after := if pending.value.status == FAILED then WithPending(all, p.sid, Reset(pending.value), now) else all;
      LookOn(after, p, pending.value)
  }

  /** The rest of the look, for the payment it has read. */
  function LookOn(all: seq<Record>, p: Payload, pending: Pending): (s: Sight)
    ensures s.all == all
    ensures s.seen.Ready? ==> s.routerId != "" && s.pedidoId == pending.pedidoId
    ensures s.seen.Ready? ==> !IsApplied(all, p.sid, ActionKey(s.routerId, s.pedidoId))
  {
    var lastSeen := LastSeenOf(all, p.sid);
    var router := PickRouter(p, pending.routerId, lastSeen.routerId);
    if !Given(router) then Sight(Unresolved, all, "", "")
    else if !Given(Or(p.ip, lastSeen.ip)) || !Given(Or(p.mac, lastSeen.mac))
    then Sight(Unresolved, all, router.value, pending.pedidoId)
    else
      var seen := if IsApplied(all, p.sid, ActionKey(router.value, pending.pedidoId)) then AlreadyApplied else Ready;
      Sight(seen, all, router.value, pending.pedidoId)
  }

  /** Which router is taken: the first that is given of the hint, the identity, the
      payment's, the job's and the one last seen. */
  lemma RouterIs(p: Payload, pending: Option<string>, lastSeen: Option<string>)
    ensures var options := [p.routerHint, p.identity, pending, p.routerId, lastSeen];
            var router := PickRouter(p, pending, lastSeen);
            && (Given(router) <==> exists i | 0 <= i < |options| :: Given(options[i]))
            && (Given(router) ==> exists i | 0 <= i < |options| ::
                  router == options[i] && forall j | 0 <= j < i :: !Given(options[j]))
  {
    var options := [p.routerHint, p.identity, pending, p.routerId, lastSeen];
    assert options[0] == p.routerHint && options[1] == p.identity && options[2] == pending;
    assert options[3] == p.routerId && options[4] == lastSeen;
  }

  /** The job a visit leaves: the same client's, with the router, the address and
      the MAC the visit went by. */
  ghost predicate JobOf(job: Payload, s: Sight, p: Payload) {
    var lastSeen := LastSeenOf(s.all, p.sid);
    && job.sid == p.sid && job.attempt == 0 && job.routerId == Some(s.routerId)
    && job.routerHint == p.routerHint && job.identity == p.identity
    && job.ip == (if p.ip.Some? && p.ip.value != "" then p.ip else lastSeen.ip)
    && job.mac == (if p.mac.Some? && p.mac.value != "" then p.mac else lastSeen.mac)
  }

  /** A run of the job, finding the store so, asks the same router for the same order. */
  ghost predicate Continues(s: Sight, all: seq<Record>, job: Payload, later: nat) {
    var again := Look(all, job, later);
    again.seen.Ready? && again.routerId == s.routerId && again.pedidoId == s.pedidoId && again.all == all
  }

  /** Its run goes on with this payment: unless the store is written in between, it
      finds the same order ready on the same router. */
  lemma JobContinues(all: seq<Record>, p: Payload, at: nat, job: Payload, later: nat)
    requires Distinct(all) && OrdersNamed(all) && Look(all, p, at).seen.Ready? && p.routerId == None
    requires JobOf(job, Look(all, p, at), p)
    ensures Continues(Look(all, p, at), Look(all, p, at).all, job, later)
  {
    var s, pending := Look(all, p, at), GetPending(all, p.sid).value;
    FindAfterPut(all, Fetch(all, p.sid, at).(pending := Some(Reset(pending)), updatedAt := at), p.sid);
    assert GetPending(s.all, p.sid).Some? && GetPending(s.all, p.sid).value.status == PENDING;
  }

  /** A retry's next job goes on with the payment as well. */
  lemma RetryContinues(all: seq<Record>, p: Payload, at: nat, attempt: nat, later: nat)
    requires Distinct(all) && OrdersNamed(all) && Look(all, p, at).seen.Ready?
    ensures Continues(Look(all, p, at), Look(all, p, at).all, p.(attempt := attempt), later)
  {
    var pending := GetPending(all, p.sid).value;
    FindAfterPut(all, Fetch(all, p.sid, at).(pending := Some(Reset(pending)), updatedAt := at), p.sid);
  }

  /** The payment of a record that is still to be granted. */
  predicate Pays(found: Option<Record>) {
    found.Some? && found.value.pending.Some? && found.value.pending.value.status != APPLIED
  }

  predicate Cools(found: Option<Record>, now: nat) {
    && Pays(found) && found.value.pending.value.status == FAILED
    && found.value.pending.value.nextEligibleAt.Some? && now < found.value.pending.value.nextEligibleAt.value
  }

  function RouterFor(r: Record, p: Payload): Option<string> {
    PickRouter(p, if r.pending.Some? then r.pending.value.routerId else None,
               if r.lastSeen.Some? then r.lastSeen.value.routerId else None)
  }

  /** Router, address and MAC are known, from the job or from the record. */
  predicate Resolved(r: Record, p: Payload) {
    && Given(RouterFor(r, p))
    && (Given(p.ip) || (r.lastSeen.Some? && Given(r.lastSeen.value.ip)))
    && (Given(p.mac) || (r.lastSeen.Some? && Given(r.lastSeen.value.mac)))
  }

  predicate IsGranted(r: Record, p: Payload) {
    Resolved(r, p) && r.pending.Some? && Lists(r.applied, ActionKey(RouterFor(r, p).value, r.pending.value.pedidoId))
  }

  /** What a run sees, told from the record it finds. */
  lemma LookIs(all: seq<Record>, p: Payload, at: nat)
    requires Distinct(all) && p.sid != ""
    ensures var found, seen := Find(all, p.sid), Look(all, p, at).seen;
            && (seen.NoPending? <==> !Pays(found)) && (seen.Cooling? <==> Cools(found, at))
            && (Pays(found) && !Cools(found, at) ==>
                  && (seen.Unresolved? <==> !Resolved(found.value, p))
                  && (seen.AlreadyApplied? <==> IsGranted(found.value, p))
                  && (seen.Ready? <==> Resolved(found.value, p) && !IsGranted(found.value, p)))
  {
    var pending := GetPending(all, p.sid);
    if pending.Some? {
      FindAfterPut(all, Fetch(all, p.sid, at).(pending := Some(Reset(pending.value)), updatedAt := at), p.sid);
    }
  }

  /** A failed payment that has cooled down is due again, as if it had just come in. */
  lemma ResetIs(all: seq<Record>, p: Payload, at: nat)
    requires Distinct(all) && p.sid != "" && Pays(Find(all, p.sid)) && !Cools(Find(all, p.sid), at)
    ensures var before, after := Find(all, p.sid).value, Find(Look(all, p, at).all, p.sid);
            var due := before.pending.value;
            if due.status == PENDING then Look(all, p, at).all == all
            else after == Some(before.(updatedAt := at, pending := Some(Pending(
                   due.pedidoId, PENDING, due.routerId, due.expiresAt, due.attempts, None, None, None))))
  {
    var pending := GetPending(all, p.sid).value;
    FindAfterPut(all, Fetch(all, p.sid, at).(pending := Some(Reset(pending)), updatedAt := at), p.sid);
  }

  /** What a run of a job comes to, told from the record it finds, the circuit and
      the reply. */
  lemma RunEnds(all: seq<Record>, p: Payload, h: Health, at: nat, replied: nat, reply: Reply, jitter: nat)
    requires Distinct(all) && p.sid != ""
    ensures var chain := Then(h, p.attempt, Turn(at, replied, Look(all, p, at).seen, reply, jitter));
            var found := Find(all, p.sid);
            var due := Pays(found) && !Cools(found, at);
            var ready := due && Resolved(found.value, p) && !IsGranted(found.value, p);
            var calls := ready && (h.openUntil == 0 || h.openUntil <= at);
            var passing := reply.Failed? && reply.error.kind == Transient;
            && (chain == Ended(NoPendingPayment) <==> !Pays(found))
            && (chain == Ended(StillCooling) <==> Cools(found, at))
            && (chain == Ended(NotResolved) <==> due && !Resolved(found.value, p))
            && (chain == Ended(Idempotent) <==> due && IsGranted(found.value, p))
            && (chain == Ended(Applied) <==> calls && reply.Granted?)
            && (chain == Ended(AuthorizeFailed) <==> calls && reply.Refused?)
            && (chain == Ended(FailedAfterRetries) <==> calls && passing && p.attempt + 1 >= 8)
            && (calls && reply.Failed? && !passing ==> chain == Ended(GivenUp(reply.error)))
            && (chain.Waiting? <==> ready && (calls ==> passing && p.attempt + 1 < 8))
            && (chain.Waiting? ==>
                  && chain.attempt == p.attempt + (if calls then 1 else 0)
                  && chain.runAt - (if calls then replied else at) == Base(chain.attempt) + jitter)
  {
    LookIs(all, p, at);
  }

  /** The action is in the applied list and the payment no longer pending. */
  function GrantedAt(s: Sight, sid: string, now: nat): seq<Record>
    requires Find(s.all, sid).Some?
  {
    WithPendingApplied(WithApplied(s.all, sid, ActionKey(s.routerId, s.pedidoId), now), sid, s.pedidoId, now)
  }

  /** The payment has failed, and cools down. */
  function ExhaustedAt(s: Sight, p: Payload, now: nat): seq<Record> {
    WithFailed(s.all, p.sid, s.pedidoId, RETRIES_EXHAUSTED, p.attempt + 1, now + COOLDOWN_MS, now)
  }

  /** The store after the run. */
  function Settled(s: Sight, p: Payload, chain: Chain, now: nat): seq<Record>
    requires s.seen.Ready? ==> Find(s.all, p.sid).Some?
  {
    if s.seen.Ready? && chain == Ended(Applied) then
      GrantedAt(s, p.sid, now)
    else if s.seen.Ready? && chain == Ended(FailedAfterRetries) then
      ExhaustedAt(s, p, now)
    else s.all
  }

  ghost predicate Attemptable(s: Sight, sid: string) {
    s.seen.Ready? ==> sid != "" && s.routerId != "" && s.pedidoId != "" && Find(s.all, sid).Some?
  }

  lemma JustApplied(applied: seq<Entry>, key: string, now: nat)
    requires now > 0
    ensures Lists(Window(applied + [Entry(key, now)], now), key)
  {
    var all := applied + [Entry(key, now)];
    assert all[..|applied|] == applied;
    var kept := Filter(all, now);
    assert kept[|kept| - 1] == Entry(key, now);
    var w := Window(all, now);
    assert w[|w| - 1] == Entry(key, now);
  }

  /** Once granted, a payment is neither pending nor tried again: a later run
      ends before it would call the router. */
  lemma GrantedIsNotRepeated(all: seq<Record>, p: Payload, at: nat, now: nat, again: Payload, later: nat)
    requires Distinct(all) && OrdersNamed(all) && Look(all, p, at).seen.Ready? && now > 0
    requires again.sid == p.sid
    ensures Attemptable(Look(all, p, at), p.sid)
    ensures var s := Look(all, p, at);
            var after := GrantedAt(s, p.sid, now);
            && IsApplied(after, p.sid, ActionKey(s.routerId, s.pedidoId))
            && GetPending(after, p.sid) == None
            && Look(after, again, later).seen == NoPending
  {
    StillThere(all, p, at);
    var s := Look(all, p, at);
    var r := Fetch(s.all, p.sid, now);
    var key := ActionKey(s.routerId, s.pedidoId);
    JustApplied(r.applied, key, now);
    DistinctStays(all, p, at);
    var r1 := r.(applied := Window(r.applied + [Entry(key, now)], now), updatedAt := now);
    FindAfterPut(s.all, r1, p.sid);
    var marked := WithApplied(s.all, p.sid, key, now);
    assert marked == Put(s.all, r1);
    FindAfterPut(marked, r1.(pending := Some(r1.pending.value.(status := APPLIED, failCode := None, failedAt := None,
                                                               nextEligibleAt := None)), updatedAt := now), p.sid);
  }

  lemma DistinctStays(all: seq<Record>, p: Payload, now: nat)
    requires Distinct(all) && Look(all, p, now).seen.Ready?
    ensures Distinct(Look(all, p, now).all)
  {
    var pending := GetPending(all, p.sid).value;
    FindAfterPut(all, Fetch(all, p.sid, now).(pending := Some(Reset(pending)), updatedAt := now), p.sid);
  }

  /** After its eighth transient failure a payment is left alone for ten minutes,
      and not a millisecond longer. */
  lemma ExhaustedCoolsDown(all: seq<Record>, p: Payload, at: nat, now: nat, again: Payload, later: nat)
    requires Distinct(all) && OrdersNamed(all) && Look(all, p, at).seen.Ready? && again.sid == p.sid
    ensures Look(ExhaustedAt(Look(all, p, at), p, now), again, later).seen == Cooling <==> later < now + COOLDOWN_MS
  {
    StillThere(all, p, at);
    DistinctStays(all, p, at);
    ExhaustedThen(Look(all, p, at), p, now, again, later);
  }

  lemma ExhaustedThen(s: Sight, p: Payload, now: nat, again: Payload, later: nat)
    requires Distinct(s.all) && Awaits(s.all, p.sid, s.pedidoId) && again.sid == p.sid && p.sid != ""
    ensures Look(ExhaustedAt(s, p, now), again, later).seen == Cooling <==> later < now + COOLDOWN_MS
  {
    FailedThen(s.all, p.sid, s.pedidoId, p.attempt + 1, now, again, later);
  }

  lemma FailedThen(all: seq<Record>, sid: string, pedidoId: string, attempts: nat, now: nat, again: Payload, later: nat)
    requires Distinct(all) && Awaits(all, sid, pedidoId) && again.sid == sid && sid != ""
    ensures var after := WithFailed(all, sid, pedidoId, RETRIES_EXHAUSTED, attempts, now + COOLDOWN_MS, now);
            Look(after, again, later).seen == Cooling <==> later < now + COOLDOWN_MS
  {
    var after := WithFailed(all, sid, pedidoId, RETRIES_EXHAUSTED, attempts, now + COOLDOWN_MS, now);
    MarkedIs(all, sid, pedidoId, RETRIES_EXHAUSTED, attempts, now + COOLDOWN_MS, now);
    FailedKeepsDistinct(all, sid, pedidoId, attempts, now);
    LookIs(after, again, later);
  }

  lemma FailedKeepsDistinct(all: seq<Record>, sid: string, pedidoId: string, attempts: nat, now: nat)
    requires Distinct(all) && Awaits(all, sid, pedidoId)
    ensures Distinct(WithFailed(all, sid, pedidoId, RETRIES_EXHAUSTED, attempts, now + COOLDOWN_MS, now))
  {
    var r := Fetch(all, sid, now);
    DistinctAfterPut(all, r.(pending := Some(r.pending.value.(status := FAILED, failCode := Some(RETRIES_EXHAUSTED),
                                                              failedAt := Some(now), attempts := attempts,
                                                              nextEligibleAt := Some(now + COOLDOWN_MS))),
                             updatedAt := now));
  }

  function EndOf(seen: Seen): Option<Verdict> {
    match seen
    case NoPending => Some(NoPendingPayment)
    case Cooling => Some(StillCooling)
    case Unresolved => Some(NotResolved)
    case AlreadyApplied => Some(Idempotent)
    case Ready => None
  }

  lemma StillThere(all: seq<Record>, p: Payload, now: nat)
    requires Distinct(all) && OrdersNamed(all) && Look(all, p, now).seen.Ready?
    ensures var s := Look(all, p, now);
            Find(s.all, p.sid).Some? && s.pedidoId != "" && Awaits(s.all, p.sid, s.pedidoId)
  {
    var pending := GetPending(all, p.sid).value;
    FindAfterPut(all, Fetch(all, p.sid, now).(pending := Some(Reset(pending)), updatedAt := now), p.sid);
  }

  function PrunedAll(all: seq<Record>, now: nat): seq<Record> {
    seq(|all|, i requires 0 <= i < |all| => Pruned(all[i], now))
  }

  /** The store once a visit is noted and, once a minute, pruned. */
  function Visited(all: seq<Record>, p: Payload, lastPruneAt: nat, now: nat): seq<Record> {
    var seen := Put(all, WithLastSeen(Fetch(all, p.sid, now), p.ip, p.mac, Or(p.routerHint, p.identity), now));
    if now - lastPruneAt < PRUNE_COOLDOWN_MS then seen else PrunedAll(seen, now)
  }

  /** What a visit leads to: a transient failure or an open circuit starts a
      chain, at attempt 0. */
  function Begin(h: Health, t: Turn): Chain {
    match Then(h, 0, t)
    case Waiting(attempt, _, _) => Schedule(0, t.jitter, if Postponed(h, t) then t.at else t.replied)
    case Ended(verdict) => Ended(verdict)
  }

  /** A chain begins with a failure already counted, its own or an earlier one
      that opened the circuit; so by NeverPostponedIff some pace of its runs
      meets an open circuit. */
  lemma ChainsBeginAfterAFailure(cfg: Config, h: Health, t: Turn)
    requires h.openUntil > 0 ==> h.consecutiveFails > 0
    requires Begin(h, t).Waiting?
    ensures HealthThen(cfg, h, t).consecutiveFails > 0
    ensures HealthThen(cfg, h, t).openUntil > 0 ==> HealthThen(cfg, h, t).consecutiveFails > 0
    ensures Begin(h, t).attempt == 0 && Begin(h, t).delay == 2000 + t.jitter
    ensures Begin(h, t).runAt == Begin(h, t).delay + if CanAttempt(h, t.at) then t.replied else t.at
  {
  }

  class IdentityService {
    const store: IdentityStore
    const health: RouterHealth
    const routers: set<string>
    var jobs: seq<Job>
    var lastPruneAt: nat

    ghost predicate Valid()
      reads this, store
    {
      store.Valid()
    }

    constructor (store: IdentityStore, health: RouterHealth, routers: set<string>)
      requires store.Valid()
      ensures Valid() && this.store == store && this.health == health && this.routers == routers
      ensures jobs == [] && lastPruneAt == 0
    {
      this.store, this.health, this.routers := store, health, routers;
      jobs, lastPruneAt := [], 0;
    }

    method ScheduleAuthorizePending(p: Payload, jitter: nat, now: nat)
      modifies this`jobs
      ensures jobs == old(jobs) + [Job(p, Schedule(p.attempt, jitter, now).runAt)]
    {
      jobs := jobs + [Job(p, now + Base(p.attempt) + jitter)];
    }

    /** What the stores say now; a failed payment past its cool-down is reset. */
    method LookUp(p: Payload, now: nat) returns (s: Sight)
      requires Valid() && store.last <= now
      modifies store
      ensures Valid() && store.last <= now
      ensures s == Look(old(store.all), p, now) && store.all == s.all
    {
      s := Look(store.all, p, now);
      var pending := GetPending(store.all, p.sid);
      if p.sid != "" && pending.Some? && pending.value.status == FAILED && !CoolsDown(pending.value, now) {
        CoherentNamed(store.all, store.history, store.trimmedAt, store.last);
        PendingNamed(store.all, p.sid);
        var out := store.MarkPending(p.sid, Reset(pending.value), now);
      }
    }

    method LookUpForAttempt(p: Payload, now: nat) returns (s: Sight)
      requires Valid() && store.last <= now
      modifies store
      ensures Valid() && store.last <= now
      ensures s == Look(old(store.all), p, now) && store.all == s.all
      ensures Attemptable(s, p.sid)
    {
      CoherentNamed(store.all, store.history, store.trimmedAt, store.last);
      s := LookUp(p, now);
      if s.seen.Ready? {
        StillThere(old(store.all), p, now);
      }
    }

    /** One call to the router; None when it failed in passing. */
    method Try(s: Sight, sid: string, replied: nat, reply: Reply) returns (verdict: Option<Verdict>)
      requires Valid() && store.last <= replied && store.all == s.all
      requires sid != "" && s.routerId != "" && s.pedidoId != "" && Find(s.all, sid).Some?
      modifies store, health
      ensures Valid() && store.last <= replied
      ensures verdict == match reply
                         case Granted => Some(Applied)
                         case Refused => Some(AuthorizeFailed)
                         case Failed(error) => if error.kind == Transient then None else Some(GivenUp(error))
      ensures store.all == if reply.Granted? then GrantedAt(s, sid, replied) else s.all
      ensures var h := old(health.GetHealth(s.routerId));
              health.GetHealth(s.routerId) == if reply.Failed? then HealthAfter(health.cfg, h, reply.error, replied)
                                              else h
      ensures forall r | r != s.routerId :: health.GetHealth(r) == old(health.GetHealth(r))
    {
      if reply.Granted? {
        var key := ActionKey(s.routerId, s.pedidoId);
        var marked := store.MarkApplied(sid, key, replied);
        marked := store.MarkPendingApplied(sid, s.pedidoId, replied);
        return Some(Applied);
      }
      if reply.Refused? {
        return Some(AuthorizeFailed);
      }
      health.UpdateRouterHealth(s.routerId, reply.error, replied);
      return if reply.error.kind == Transient then None else Some(GivenUp(reply.error));
    }

    /** The rest of a retry, once it has looked. */
    method Retry(s: Sight, p: Payload, at: nat, replied: nat, reply: Reply, jitter: nat) returns (chain: Chain)
      requires Valid() && store.last <= at <= replied && store.all == s.all && Attemptable(s, p.sid)
      modifies this`jobs, store, health
      ensures Valid()
      ensures var h, t := old(health.GetHealth(s.routerId)), Turn(at, replied, s.seen, reply, jitter);
              chain == Then(h, p.attempt, t) && health.GetHealth(s.routerId) == HealthThen(health.cfg, h, t)
      ensures store.all == Settled(s, p, chain, replied)
      ensures forall r | r != s.routerId :: health.GetHealth(r) == old(health.GetHealth(r))
      ensures jobs == if chain.Waiting? then old(jobs) + [Job(p.(attempt := chain.attempt), chain.runAt)] else old(jobs)
    {
      if EndOf(s.seen).Some? {
        return Ended(EndOf(s.seen).value);
      }
      if !CanAttempt(health.GetHealth(s.routerId), at) {
        ScheduleAuthorizePending(p, jitter, at);
        return Schedule(p.attempt, jitter, at);
      }
      var verdict := Try(s, p.sid, replied, reply);
      if verdict.Some? {
        return Ended(verdict.value);
      }
      chain := TryLater(s, p, replied, jitter);
    }

    /** After a transient failure: the next attempt's job, or the end. */
    method TryLater(s: Sight, p: Payload, now: nat, jitter: nat) returns (chain: Chain)
      requires Valid() && store.last <= now && store.all == s.all && p.sid != "" && s.pedidoId != ""
      modifies this`jobs, store
      ensures Valid()
      ensures chain == if p.attempt + 1 >= MAX_ATTEMPTS then Ended(FailedAfterRetries)
                       else Schedule(p.attempt + 1, jitter, now)
      ensures store.all == if chain.Waiting? then s.all else ExhaustedAt(s, p, now)
      ensures jobs == if chain.Waiting? then old(jobs) + [Job(p.(attempt := chain.attempt), chain.runAt)] else old(jobs)
    {
      if p.attempt + 1 >= MAX_ATTEMPTS {
        var out := store.MarkPendingFailed(p.sid, s.pedidoId, RETRIES_EXHAUSTED, p.attempt + 1, now + COOLDOWN_MS, now);
        return Ended(FailedAfterRetries);
      }
      ScheduleAuthorizePending(p.(attempt := p.attempt + 1), jitter, now);
      return Schedule(p.attempt + 1, jitter, now);
    }

    /** One run of a retry job: the chain, the router's health, the store and the
        job list all move as the chain says. */
    method RetryAuthorizePending(p: Payload, at: nat, replied: nat, reply: Reply, jitter: nat) returns (chain: Chain)
      requires Valid() && store.last <= at <= replied
      modifies this`jobs, store, health
      ensures Valid()
      ensures var s := Look(old(store.all), p, at);
              var h, t := old(health.GetHealth(s.routerId)), Turn(at, replied, s.seen, reply, jitter);
              && chain == Then(h, p.attempt, t)
              && health.GetHealth(s.routerId) == HealthThen(health.cfg, h, t)
              && Attemptable(s, p.sid)
              && store.all == Settled(s, p, chain, replied)
              && (forall r | r != s.routerId :: health.GetHealth(r) == old(health.GetHealth(r)))
      ensures jobs == if chain.Waiting? then old(jobs) + [Job(p.(attempt := chain.attempt), chain.runAt)] else old(jobs)
    {
      var s := LookUpForAttempt(p, at);
      chain := Retry(s, p, at, replied, reply, jitter);
    }

    /** The visit's own attempt; None stands for an exception. */
    method FirstAttempt(s: Sight, p: Payload, at: nat, replied: nat, reply: Reply, jitter: nat)
      returns (begun: Option<Chain>)
      requires Valid() && store.last <= at <= replied && store.all == s.all && Attemptable(s, p.sid)
      modifies this`jobs, store, health
      ensures Valid() && JobBegun(old(jobs), begun, s, p)
      ensures begun.None? <==> s.routerId != "" && s.routerId !in routers
      ensures begun.None? ==> store.all == s.all
      ensures begun.Some? ==>
                var h, t := old(health.GetHealth(s.routerId)), Turn(at, replied, s.seen, reply, jitter);
                && begun == Some(Begin(h, t))
                && health.GetHealth(s.routerId) == HealthThen(health.cfg, h, t)
                && store.all == Settled(s, p, begun.value, replied)
    {
      if s.routerId != "" && s.routerId !in routers {
        return None;
      }
      if EndOf(s.seen).Some? {
        return Some(Ended(EndOf(s.seen).value));
      }
      var job := p.(routerId := Some(s.routerId), ip := Or(p.ip, LastSeenOf(s.all, p.sid).ip),
                    mac := Or(p.mac, LastSeenOf(s.all, p.sid).mac), attempt := 0);
      if !CanAttempt(health.GetHealth(s.routerId), at) {
        ScheduleAuthorizePending(job, jitter, at);
        return Some(Schedule(0, jitter, at));
      }
      var verdict := Try(s, p.sid, replied, reply);
      if verdict.Some? {
        return Some(Ended(verdict.value));
      }
      ScheduleAuthorizePending(job, jitter, replied);
      return Some(Schedule(0, jitter, replied));
    }

    /** A job was added exactly when a chain was begun, due when the chain says, and
        for this payment. */
    ghost predicate JobBegun(before: seq<Job>, begun: Option<Chain>, s: Sight, p: Payload)
      reads this
    {
      if begun.Some? && begun.value.Waiting?
      then |jobs| == |before| + 1 && jobs[..|before|] == before
           && jobs[|before|].runAt == begun.value.runAt && JobOf(jobs[|before|].payload, s, p)
      else jobs == before
    }

    method NoteVisit(p: Payload, now: nat)
      requires Valid() && store.last <= now && p.sid != ""
      modifies this`lastPruneAt, store
      ensures Valid() && store.last <= now
      ensures store.all == Visited(old(store.all), p, old(lastPruneAt), now)
      ensures var router := if Given(p.routerHint) then p.routerHint else p.identity;
              var was := Fetch(old(store.all), p.sid, now);
              var seen := Put(old(store.all), WithLastSeen(was, p.ip, p.mac, router, now));
              if now - old(lastPruneAt) < 60000 then store.all == seen
              else |store.all| == |seen| && forall i | 0 <= i < |seen| :: store.all[i] == Pruned(seen[i], now)
      ensures lastPruneAt == if now - old(lastPruneAt) < PRUNE_COOLDOWN_MS then old(lastPruneAt) else now
    {
      var out := store.UpsertLastSeen(p.sid, p.ip, p.mac, Or(p.routerHint, p.identity), now);
      ghost var seen := store.all;
      if now - lastPruneAt < PRUNE_COOLDOWN_MS {
        return;
      }
      lastPruneAt := now;
      var count := store.Prune(now);
      assert store.all == PrunedAll(seen, now);
    }

    /** A visit of a client: its payment is tried at once, and a chain of retries
        begun as Begin says. */
    method RefreshAndAuthorize(p: Payload, at: nat, replied: nat, reply: Reply, jitter: nat)
      returns (begun: Option<Chain>)
      requires Valid() && store.last <= at <= replied && p.routerId == None
      modifies this`jobs, this`lastPruneAt, store, health
      ensures Valid()
      ensures p.sid == "" ==> begun == None && store.all == old(store.all) && jobs == old(jobs)
      ensures p.sid != "" ==>
                var s := Look(Visited(old(store.all), p, old(lastPruneAt), at), p, at);
                var h, t := old(health.GetHealth(s.routerId)), Turn(at, replied, s.seen, reply, jitter);
                JobBegun(old(jobs), begun, s, p) &&
                if s.routerId != "" && s.routerId !in routers then begun == None && store.all == s.all
                else
                  && begun == Some(Begin(h, t))
                  && health.GetHealth(s.routerId) == HealthThen(health.cfg, h, t)
                  && Attemptable(s, p.sid)
                  && store.all == Settled(s, p, begun.value, replied)
                  && (begun.value.Waiting? ==>
                        forall later :: Continues(s, store.all, jobs[|old(jobs)|].payload, later))
    {
      if p.sid == "" {
        return None;
      }
      NoteVisit(p, at);
      ghost var seen := store.all;
      CoherentNamed(store.all, store.history, store.trimmedAt, store.last);
      var s := LookUpForAttempt(p, at);
      begun := FirstAttempt(s, p, at, replied, reply, jitter);
      if begun.Some? && begun.value.Waiting? {
        forall later ensures Continues(s, store.all, jobs[|old(jobs)|].payload, later) {
          JobContinues(seen, p, at, jobs[|old(jobs)|].payload, later);
        }
      }
    }
  }
}
