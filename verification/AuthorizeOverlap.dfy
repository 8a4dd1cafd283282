/**
 Visits and retry runs of one client, overlapping at every await: the look at the
 store and the request to the router are one step, the reset of a failed payment
 and what follows the router's reply are others (identityService.js 27-242).
 */
module AuthorizeOverlap {
  import opened Basics
  import opened AppliedWindow
  import opened IdentityStore
  import opened RouterHealth
  import opened RetryChain
  import opened IdentityService

  type Pid = nat

  /** Where an attempt stands. */
  datatype Pc =
    | Resetting(pending: Pending)                    // a payment that has cooled down, seen but not yet reset
    | Asking(routerId: string, pedidoId: string)     // the router has been asked
    | Recording(routerId: string, pedidoId: string)  // it has granted the access
    | Closing(pedidoId: string)                      // the grant is in the applied list
    | Failing(pedidoId: string)                      // the last attempt has failed in passing
    | Over

  datatype Attempt = Attempt(p: Payload, pc: Pc)

  datatype Stage = Stage(now: nat, all: seq<Record>, attempts: map<Pid, Attempt>)

  datatype Action =
    | Tick(ms: nat)
    | Elsewhere(r: Record)                                                       // another client's record is written
    | Visit(ip: Option<string>, mac: Option<string>, routerId: Option<string>)
    | Prune
    | Order(pending: Pending)                                                    // a payment comes in
    | Enter(a: Pid, p: Payload, open: bool)                                       // `open`: the circuit is
    | Resume(a: Pid, open: bool)
    | Answer(a: Pid, reply: Reply)
    | Mark(a: Pid)
    | Close(a: Pid)
    | Fail(a: Pid)

  predicate Enabled(sid: string, s: Stage, act: Action) {
    match act
    case Elsewhere(r) => r.sid != sid
    case Enter(a, p, _) => a !in s.attempts && p.sid == sid
    case Resume(a, _) => a in s.attempts && s.attempts[a].pc.Resetting?
    case Answer(a, _) => a in s.attempts && s.attempts[a].pc.Asking?
    case Mark(a) => a in s.attempts && s.attempts[a].pc.Recording? && Find(s.all, sid).Some?
    case Close(a) => a in s.attempts && s.attempts[a].pc.Closing?
    case Fail(a) => a in s.attempts && s.attempts[a].pc.Failing?
    case _ => true
  }

  function Asked(s: Sight, open: bool): Pc { if s.seen.Ready? && !open then Asking(s.routerId, s.pedidoId) else Over }

  function FirstLook(s: Stage, p: Payload, open: bool): Pc {
    var pending := GetPending(s.all, p.sid);
    if p.sid == "" || pending.None? || CoolsDown(pending.value, s.now) then Over
    else if pending.value.status == FAILED then Resetting(pending.value)
    else Asked(LookOn(s.all, p, pending.value), open)
  }

  function Answered(p: Payload, routerId: string, pedidoId: string, reply: Reply): Pc {
    if reply.Granted? then Recording(routerId, pedidoId)
    else if reply.Failed? && reply.error.kind == Transient && p.attempt + 1 >= MAX_ATTEMPTS then Failing(pedidoId)
    else Over
  }

  function Goto(s: Stage, a: Pid, pc: Pc): Stage
    requires a in s.attempts
  {
    s.(attempts := s.attempts[a := s.attempts[a].(pc := pc)])
  }

  function Next(sid: string, s: Stage, act: Action): Stage
    requires Enabled(sid, s, act)
  {
    match act
    case Tick(ms) => s.(now := s.now + ms)
    case Elsewhere(r) => s.(all := Put(s.all, r))
    case Visit(ip, mac, routerId) =>
      s.(all := Put(s.all, WithLastSeen(Fetch(s.all, sid, s.now), ip, mac, routerId, s.now)))
    case Prune => s.(all := PrunedAll(s.all, s.now))
    case Order(pending) => s.(all := WithPending(s.all, sid, pending, s.now))
    case Enter(a, p, open) => s.(attempts := s.attempts[a := Attempt(p, FirstLook(s, p, open))])
    case Resume(a, open) =>
      var Attempt(p, Resetting(pending)) := s.attempts[a];
      var after := WithPending(s.all, sid, Reset(pending), s.now);
      Goto(s, a, Asked(LookOn(after, p, pending), open)).(all := after)
    case Answer(a, reply) =>
      var Attempt(p, Asking(routerId, pedidoId)) := s.attempts[a];
      Goto(s, a, Answered(p, routerId, pedidoId, reply))
    case Mark(a) =>
      var Recording(routerId, pedidoId) := s.attempts[a].pc;
      Goto(s, a, Closing(pedidoId)).(all := WithApplied(s.all, sid, ActionKey(routerId, pedidoId), s.now))
    case Close(a) => Goto(s, a, Over).(all := WithPendingApplied(s.all, sid, s.attempts[a].pc.pedidoId, s.now))
    case Fail(a) =>
      var Attempt(p, Failing(pedidoId)) := s.attempts[a];
      Goto(s, a, Over).(
        all := WithFailed(s.all, sid, pedidoId, RETRIES_EXHAUSTED, p.attempt + 1, s.now + COOLDOWN_MS, s.now))
  }

  ghost predicate Run(sid: string, s: Stage, acts: seq<Action>, t: Stage)
    decreases |acts|
  {
    if acts == [] then s == t
    else Enabled(sid, s, acts[0]) && Run(sid, Next(sid, s, acts[0]), acts[1..], t)
  }

  /** The client's payment is this order, and neither granted nor gone. */
  predicate Pays(all: seq<Record>, sid: string, pedidoId: string) {
    var pending := GetPending(all, sid);
    pending.Some? && pending.value.pedidoId == pedidoId
  }

  /** The attempt may yet write the order back as a payment that is not granted. */
  predicate MayReopen(a: Attempt, pedidoId: string) {
    match a.pc
    case Resetting(pending) => pending.pedidoId == pedidoId
    case Asking(_, asked) => asked == pedidoId && a.p.attempt + 1 >= MAX_ATTEMPTS
    case Failing(failed) => failed == pedidoId
    case _ => false
  }

  ghost predicate NobodyReopens(s: Stage, pedidoId: string) {
    forall a | a in s.attempts :: !MayReopen(s.attempts[a], pedidoId)
  }

  /** The order does not come in again. */
  ghost predicate NotAgain(acts: seq<Action>, pedidoId: string) {
    forall i | 0 <= i < |acts| :: acts[i].Order? ==> acts[i].pending.pedidoId != pedidoId
  }

  ghost predicate Inv(sid: string, s: Stage, pedidoId: string) {
    Distinct(s.all) && !Pays(s.all, sid, pedidoId) && NobodyReopens(s, pedidoId)
  }

  // ------------------------------------------------------------- step by step

  lemma FindAfterPrune(all: seq<Record>, now: nat, sid: string)
    requires Distinct(all)
    ensures Distinct(PrunedAll(all, now))
    ensures Find(PrunedAll(all, now), sid) ==
            match Find(all, sid) case Some(r) => Some(Pruned(r, now)) case None => None
  {
    var after := PrunedAll(all, now);
    forall i, j | 0 <= i < j < |after| ensures Apart(after, i, j) {
      assert Apart(all, i, j);
    }
    var idx := IndexOf(all, sid);
    if idx.Some? {
      assert after[idx.value].sid == sid;
      IndexOfIs(after, idx.value);
    } else {
      var again := IndexOf(after, sid);
      assert again.Some? ==> all[again.value].sid == sid;
    }
  }

  /** What a step does to the payment in the store. */
  lemma StoreStep(sid: string, s: Stage, act: Action, pedidoId: string)
    requires Distinct(s.all) && Enabled(sid, s, act)
    ensures var t := Next(sid, s, act);
            && Distinct(t.all)
            && (Pays(t.all, sid, pedidoId) ==>
                  || Pays(s.all, sid, pedidoId)
                  || (act.Order? && act.pending.pedidoId == pedidoId)
                  || ((act.Resume? || act.Fail?) && MayReopen(s.attempts[act.a], pedidoId)))
  {
    var r := Fetch(s.all, sid, s.now);
    match act
    case Tick(_) =>
    case Enter(_, _, _) =>
    case Answer(_, _) =>
    case Elsewhere(other) => FindAfterPut(s.all, other, sid);
    case Prune => FindAfterPrune(s.all, s.now, sid);
    case Visit(ip, mac, routerId) => FindAfterPut(s.all, WithLastSeen(r, ip, mac, routerId, s.now), sid);
    case Order(pending) => FindAfterPut(s.all, r.(pending := Some(pending), updatedAt := s.now), sid);
    case Resume(a, _) =>
      FindAfterPut(s.all, r.(pending := Some(Reset(s.attempts[a].pc.pending)), updatedAt := s.now), sid);
    case Mark(a) =>
      var key := ActionKey(s.attempts[a].pc.routerId, s.attempts[a].pc.pedidoId);
      FindAfterPut(s.all, r.(applied := Window(r.applied + [Entry(key, s.now)], s.now), updatedAt := s.now), sid);
    case Close(a) =>
      if Awaits(s.all, sid, s.attempts[a].pc.pedidoId) {
        FindAfterPut(s.all, r.(pending := Some(r.pending.value.(status := APPLIED, failCode := None, failedAt := None,
                                                               nextEligibleAt := None)), updatedAt := s.now), sid);
      }
    case Fail(a) =>
      if Awaits(s.all, sid, s.attempts[a].pc.pedidoId) {
        var p := r.pending.value.(status := FAILED, failCode := Some(RETRIES_EXHAUSTED), failedAt := Some(s.now),
                                  attempts := s.attempts[a].p.attempt + 1, nextEligibleAt := Some(s.now + COOLDOWN_MS));
        FindAfterPut(s.all, r.(pending := Some(p), updatedAt := s.now), sid);
      }
  }

  /** The router is asked for the order by those only who have asked already. */
  ghost predicate NobodyElseAsks(s: Stage, t: Stage, pedidoId: string) {
    forall a | a in t.attempts && t.attempts[a].pc.Asking? && t.attempts[a].pc.pedidoId == pedidoId ::
      a in s.attempts && s.attempts[a].pc == t.attempts[a].pc
  }

  /** What others write: another client's record, a sighting, a payment; pruning goes
      over the client's record like any other. */
  lemma OthersWrite(sid: string, s: Stage, act: Action)
    requires Distinct(s.all) && Enabled(sid, s, act)
    ensures var t, before := Next(sid, s, act), Find(s.all, sid);
            match act
            case Tick(ms) => t == s.(now := s.now + ms)
            case Elsewhere(r) => Find(t.all, r.sid) == Some(r) && Find(t.all, sid) == before
            case Visit(_, _, _) => Find(t.all, sid).Some? && Find(t.all, sid).value.lastSeen.Some?
                                   && Find(t.all, sid).value.lastSeen.value.ts == s.now
            case Prune => Find(t.all, sid) == if before.Some? then Some(Pruned(before.value, s.now)) else None
            case Order(pending) => Find(t.all, sid).Some? && Find(t.all, sid).value.pending == Some(pending)
            case _ => true
  {
    var r := Fetch(s.all, sid, s.now);
    match act
    case Elsewhere(other) =>
      FindAfterPut(s.all, other, sid);
      FindAfterPut(s.all, other, other.sid);
    case Prune => FindAfterPrune(s.all, s.now, sid);
    case Visit(ip, mac, routerId) => FindAfterPut(s.all, WithLastSeen(r, ip, mac, routerId, s.now), sid);
    case Order(pending) => FindAfterPut(s.all, r.(pending := Some(pending), updatedAt := s.now), sid);
    case _ =>
  }

  /** An attempt that asks for an order, or may reopen it, began when the order was
      a payment. */
  lemma AttemptStep(sid: string, s: Stage, act: Action, pedidoId: string)
    requires Enabled(sid, s, act) && !Pays(s.all, sid, pedidoId) && NobodyReopens(s, pedidoId)
    ensures NobodyReopens(Next(sid, s, act), pedidoId) && NobodyElseAsks(s, Next(sid, s, act), pedidoId)
  {
    var t := Next(sid, s, act);
    forall a | a in t.attempts ensures !MayReopen(t.attempts[a], pedidoId) {
      assert a in s.attempts ==> !MayReopen(s.attempts[a], pedidoId);
    }
    forall a | a in t.attempts && t.attempts[a].pc.Asking? && t.attempts[a].pc.pedidoId == pedidoId
      ensures a in s.attempts && s.attempts[a].pc == t.attempts[a].pc
    {
      assert a in s.attempts ==> !MayReopen(s.attempts[a], pedidoId);
    }
  }

  lemma {:induction false} RunKeepsClosed(sid: string, s: Stage, acts: seq<Action>, t: Stage, pedidoId: string)
    requires Inv(sid, s, pedidoId) && Run(sid, s, acts, t) && NotAgain(acts, pedidoId)
    ensures Inv(sid, t, pedidoId) && NobodyElseAsks(s, t, pedidoId)
    decreases |acts|
  {
    if acts != [] {
      assert acts[0].Order? ==> acts[0].pending.pedidoId != pedidoId;
      StoreStep(sid, s, acts[0], pedidoId);
      AttemptStep(sid, s, acts[0], pedidoId);
      RunKeepsClosed(sid, Next(sid, s, acts[0]), acts[1..], t, pedidoId);
    }
  }

  // ----------------------------------------------------------------- theorems

  ghost predicate StaysClosed(sid: string, s: Stage, acts: seq<Action>, t: Stage, pedidoId: string) {
    Run(sid, s, acts, t) && NotAgain(acts, pedidoId) ==>
      !Pays(t.all, sid, pedidoId) && NobodyElseAsks(s, t, pedidoId)
  }

  /** The order's payment has been granted and closed. */
  ghost predicate PaidFor(sid: string, s: Stage, pedidoId: string) {
    Distinct(s.all) && Awaits(s.all, sid, pedidoId) && !Pays(s.all, sid, pedidoId)
  }

  /** In every run, whoever overlaps, a granted payment stays closed and the router
      is not asked for it anew, exactly when none of the attempts already under way
      is about to reset it or to give it up after its last try. */
  lemma GrantedStaysClosedIff(sid: string, s: Stage, pedidoId: string)
    requires sid != "" && PaidFor(sid, s, pedidoId)
    ensures (forall acts, t :: StaysClosed(sid, s, acts, t, pedidoId)) <==> NobodyReopens(s, pedidoId)
  {
    if NobodyReopens(s, pedidoId) {
      forall acts, t ensures StaysClosed(sid, s, acts, t, pedidoId) {
        if Run(sid, s, acts, t) && NotAgain(acts, pedidoId) {
          RunKeepsClosed(sid, s, acts, t, pedidoId);
        }
      }
    } else {
      var a :| a in s.attempts && MayReopen(s.attempts[a], pedidoId);
      var acts, t := Reopens(sid, s, a, pedidoId);
      assert !StaysClosed(sid, s, acts, t, pedidoId);
    }
  }

  lemma Reopens(sid: string, s: Stage, a: Pid, pedidoId: string) returns (acts: seq<Action>, t: Stage)
    requires PaidFor(sid, s, pedidoId) && a in s.attempts && MayReopen(s.attempts[a], pedidoId)
    ensures Run(sid, s, acts, t) && NotAgain(acts, pedidoId) && Pays(t.all, sid, pedidoId)
  {
    if s.attempts[a].pc.Asking? {
      var error := Failed(Classification(Transient, "MIKROTIK_TIMEOUT", 0));
      var s1 := Next(sid, s, Answer(a, error));
      acts, t := LastWrite(sid, s1, a, Fail(a), pedidoId);
      assert ([Answer(a, error)] + acts)[1..] == acts;
      acts := [Answer(a, error)] + acts;
    } else {
      acts, t := LastWrite(sid, s, a, if s.attempts[a].pc.Failing? then Fail(a) else Resume(a, true), pedidoId);
    }
  }

  lemma LastWrite(sid: string, s: Stage, a: Pid, act: Action, pedidoId: string) returns (acts: seq<Action>, t: Stage)
    requires PaidFor(sid, s, pedidoId) && a in s.attempts && MayReopen(s.attempts[a], pedidoId)
    requires Enabled(sid, s, act) && act in {Fail(a), Resume(a, true)}
    ensures Run(sid, s, acts, t) && acts == [act] && Pays(t.all, sid, pedidoId)
  {
    acts, t := [act], Next(sid, s, act);
    assert acts[1..] == [] && Run(sid, t, [], t);
    var r := Fetch(s.all, sid, s.now);
    if act.Resume? {
      FindAfterPut(s.all, r.(pending := Some(Reset(s.attempts[a].pc.pending)), updatedAt := s.now), sid);
    } else {
      var p := r.pending.value.(status := FAILED, failCode := Some(RETRIES_EXHAUSTED), failedAt := Some(s.now),
                                attempts := s.attempts[a].p.attempt + 1, nextEligibleAt := Some(s.now + COOLDOWN_MS));
      FindAfterPut(s.all, r.(pending := Some(p), updatedAt := s.now), sid);
    }
  }

  /** An attempt that nobody interrupts looks at the store as Look does. */
  lemma LookAtOnce(sid: string, s: Stage, a: Pid, p: Payload, open: bool)
    requires Enabled(sid, s, Enter(a, p, open))
    ensures var t := Next(sid, s, Enter(a, p, open));
            var u := if t.attempts[a].pc.Resetting? then Next(sid, t, Resume(a, open)) else t;
            u.all == Look(s.all, p, s.now).all && u.attempts[a].pc == Asked(Look(s.all, p, s.now), open)
  {
  }

  /** What the store comes to with a reply, the circuit being closed. */
  function Outcome(s: Sight, p: Payload, reply: Reply, now: nat): seq<Record>
    requires s.seen.Ready? && Find(s.all, p.sid).Some?
  {
    Settled(s, p, Then(HEALTHY_DEFAULT, p.attempt, Turn(now, now, Ready, reply, 0)), now)
  }

  lemma StepBefore(sid: string, s: Stage, act: Action, acts: seq<Action>, t: Stage)
    requires Enabled(sid, s, act) && Run(sid, Next(sid, s, act), acts, t)
    ensures Run(sid, s, [act] + acts, t)
  {
    assert ([act] + acts)[1..] == acts;
  }

  lemma GrantsAlone(sid: string, s: Stage, a: Pid) returns (acts: seq<Action>, t: Stage)
    requires a in s.attempts && s.attempts[a].pc.Recording? && Find(s.all, sid).Some? && Distinct(s.all)
    ensures var pc := s.attempts[a].pc;
            && Run(sid, s, acts, t)
            && t.all == WithPendingApplied(WithApplied(s.all, sid, ActionKey(pc.routerId, pc.pedidoId), s.now), sid,
                                           pc.pedidoId, s.now)
  {
    var s1 := Next(sid, s, Mark(a));
    t := Next(sid, s1, Close(a));
    StepBefore(sid, s1, Close(a), [], t);
    StepBefore(sid, s, Mark(a), [Close(a)] + [], t);
    acts := [Mark(a)] + ([Close(a)] + []);
  }

  /** From the reply on: a grant is recorded and closed, the last failure marked. */
  lemma RepliesAlone(sid: string, s: Stage, a: Pid, sight: Sight, reply: Reply) returns (acts: seq<Action>, t: Stage)
    requires a in s.attempts && s.attempts[a].p.sid == sid && Distinct(s.all)
    requires sight.seen.Ready? && s.attempts[a].pc == Asked(sight, false)
    requires s.all == sight.all && Find(s.all, sid).Some?
    ensures Run(sid, s, acts, t) && t.all == Outcome(sight, s.attempts[a].p, reply, s.now)
  {
    var s1 := Next(sid, s, Answer(a, reply));
    if reply.Granted? {
      acts, t := GrantsAlone(sid, s1, a);
    } else if s1.attempts[a].pc.Failing? {
      t := Next(sid, s1, Fail(a));
      StepBefore(sid, s1, Fail(a), [], t);
      acts := [Fail(a)] + [];
    } else {
      acts, t := [], s1;
    }
    StepBefore(sid, s, Answer(a, reply), acts, t);
    acts := [Answer(a, reply)] + acts;
  }

  /** An attempt that nobody overlaps leaves the store as the retry chain says. */
  lemma AttemptAlone(sid: string, s: Stage, a: Pid, p: Payload, reply: Reply) returns (acts: seq<Action>, t: Stage)
    requires Enabled(sid, s, Enter(a, p, false)) && sid != "" && Distinct(s.all) && OrdersNamed(s.all)
    requires Look(s.all, p, s.now).seen.Ready?
    ensures Find(Look(s.all, p, s.now).all, sid).Some?
    ensures Run(sid, s, acts, t) && t.all == Outcome(Look(s.all, p, s.now), p, reply, s.now)
  {
    StillThere(s.all, p, s.now);
    DistinctStays(s.all, p, s.now);
    LookAtOnce(sid, s, a, p, false);
    var sight, s1 := Look(s.all, p, s.now), Next(sid, s, Enter(a, p, false));
    if s1.attempts[a].pc.Resetting? {
      acts, t := RepliesAlone(sid, Next(sid, s1, Resume(a, false)), a, sight, reply);
      StepBefore(sid, s1, Resume(a, false), acts, t);
      acts := [Resume(a, false)] + acts;
    } else {
      acts, t := RepliesAlone(sid, s1, a, sight, reply);
    }
    StepBefore(sid, s, Enter(a, p, false), acts, t);
    acts := [Enter(a, p, false)] + acts;
  }

  /** The step sends the attempt's request to the router. */
  predicate Sends(s: Stage, t: Stage, a: Pid) {
    a in t.attempts && t.attempts[a].pc.Asking? && !(a in s.attempts && s.attempts[a].pc.Asking?)
  }

  /** Nobody asks the router for an action that the applied list has. */
  lemma AppliedIsNotAsked(sid: string, s: Stage, act: Action, a: Pid)
    requires Enabled(sid, s, act) && Sends(s, Next(sid, s, act), a)
    ensures var t := Next(sid, s, act);
            !IsApplied(t.all, t.attempts[a].p.sid, ActionKey(t.attempts[a].pc.routerId, t.attempts[a].pc.pedidoId))
  {
  }

  /** Before the grant is in that list, overlapping attempts all ask. */
  lemma TwoAsk(sid: string, s: Stage, p: Payload, a: Pid, b: Pid) returns (acts: seq<Action>, t: Stage)
    requires sid != "" && p.sid == sid && a != b && a !in s.attempts && b !in s.attempts
    requires FirstLook(s, p, false).Asking?
    ensures Run(sid, s, acts, t) && a in t.attempts && b in t.attempts
    ensures t.attempts[a].pc == t.attempts[b].pc == FirstLook(s, p, false)
  {
    var s1 := Next(sid, s, Enter(a, p, false));
    t := Next(sid, s1, Enter(b, p, false));
    acts := [Enter(a, p, false), Enter(b, p, false)];
    assert acts[1..] == [Enter(b, p, false)] && acts[1..][1..] == [];
    assert Run(sid, t, [], t) && Run(sid, s1, acts[1..], t);
  }
}
