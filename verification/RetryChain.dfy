/**
 A chain of AUTHORIZE_PENDING jobs: each run of the job ends the chain or adds
 the next job (identityService.js 146-242, jobRunner.js 88-105).
 */
module RetryChain {
  import opened Basics
  import opened RouterHealth

  const AUTHORIZE_BACKOFF_MS: seq<nat> := [2000, 5000, 10000, 20000, 40000, 60000, 120000, 240000]
  const MAX_ATTEMPTS: nat := 8
  const COOLDOWN_MS: nat := 600000

  function Base(attempt: nat): (ms: nat)
    ensures ms >= 2000
  {
    AUTHORIZE_BACKOFF_MS[Min(attempt, MAX_ATTEMPTS - 1)]
  }

  /** floor(base * 0.2 * random), random being less than 1. */
  predicate IsJitter(jitter: nat, attempt: nat) { 5 * jitter < Base(attempt) }

  /** What the identity store says when the job runs. */
  datatype Seen = NoPending | Cooling | Unresolved | AlreadyApplied | Ready

  datatype Reply = Granted | Refused | Failed(error: Classification)

  /** One run of the job: when it starts, when the router has replied, what it
      sees, what the reply is, and the jitter of the job it may add. */
  datatype Turn = Turn(at: nat, replied: nat, seen: Seen, reply: Reply, jitter: nat)

  datatype Verdict =
    | NoPendingPayment | StillCooling | NotResolved | Idempotent | Applied | AuthorizeFailed
    | FailedAfterRetries | GivenUp(error: Classification)

  datatype Chain = Waiting(attempt: nat, delay: nat, runAt: nat) | Ended(verdict: Verdict)

  function Schedule(attempt: nat, jitter: nat, now: nat): Chain {
    Waiting(attempt, Base(attempt) + jitter, now + Base(attempt) + jitter)
  }

  predicate Postponed(h: Health, t: Turn) { t.seen.Ready? && !CanAttempt(h, t.at) }

  predicate Attempts(h: Health, t: Turn) { t.seen.Ready? && CanAttempt(h, t.at) }

  predicate IsTransient(t: Turn) { t.seen.Ready? && t.reply.Failed? && t.reply.error.kind == Transient }

  function HealthThen(cfg: Config, h: Health, t: Turn): Health {
    if Attempts(h, t) && t.reply.Failed? then HealthAfter(cfg, h, t.reply.error, t.replied) else h
  }

  function Then(h: Health, attempt: nat, t: Turn): Chain {
    match t.seen
    case NoPending => Ended(NoPendingPayment)
    case Cooling => Ended(StillCooling)
    case Unresolved => Ended(NotResolved)
    case AlreadyApplied => Ended(Idempotent)
    case Ready =>
      if !CanAttempt(h, t.at) then Schedule(attempt, t.jitter, t.at)
      else
        match t.reply
        case Granted => Ended(Applied)
        case Refused => Ended(AuthorizeFailed)
        case Failed(error) =>
          if error.kind != Transient then Ended(GivenUp(error))
          else if attempt + 1 >= MAX_ATTEMPTS then Ended(FailedAfterRetries)
          else Schedule(attempt + 1, t.jitter, t.replied)
  }

  /** The turns happen to the chain, each when its job is due or later; nothing
      else changes the router's health. */
  ghost predicate Follows(cfg: Config, h: Health, chain: Chain, turns: seq<Turn>)
    decreases |turns|
  {
    turns != [] ==>
      && chain.Waiting?
      && chain.runAt <= turns[0].at <= turns[0].replied
      && var next := Then(h, chain.attempt, turns[0]);
         && (next.Waiting? ==> IsJitter(turns[0].jitter, next.attempt))
         && Follows(cfg, HealthThen(cfg, h, turns[0]), next, turns[1..])
  }

  /** Where the turns leave the chain. */
  function After(cfg: Config, h: Health, chain: Chain, turns: seq<Turn>): Chain
    decreases |turns|
  {
    if turns == [] || chain.Ended? then chain
    else After(cfg, HealthThen(cfg, h, turns[0]), Then(h, chain.attempt, turns[0]), turns[1..])
  }

  // ------------------------------------------------------------- termination

  /** How often a job can find a circuit open that stays open for `open` more. */
  function Postponements(open: int): nat { if open <= 0 then 0 else open / 2000 + 1 }

  /** The runs left at an attempt whose job is due when the circuit closes. */
  function RunsLeft(cfg: Config, attempt: nat): nat
    decreases MAX_ATTEMPTS - attempt
  {
    if attempt + 1 >= MAX_ATTEMPTS then 1
    else 1 + Postponements(cfg.recoveryTimeoutMs) + RunsLeft(cfg, attempt + 1)
  }

  function Measure(cfg: Config, h: Health, chain: Chain): nat {
    if chain.Ended? then 0 else RunsLeft(cfg, chain.attempt) + Postponements(h.openUntil - chain.runAt)
  }

  lemma PostponementsMonotone(a: int, b: int)
    requires a <= b
    ensures Postponements(a) <= Postponements(b)
  {
  }

  /** Every run takes the chain down: to a later attempt, or, when the circuit is
      open, at least two seconds nearer its closing. */
  lemma TurnShrinks(cfg: Config, h: Health, attempt: nat, delay: nat, runAt: nat, t: Turn)
    requires runAt <= t.at <= t.replied
    ensures Measure(cfg, HealthThen(cfg, h, t), Then(h, attempt, t)) < Measure(cfg, h, Waiting(attempt, delay, runAt))
  {
    var next, h' := Then(h, attempt, t), HealthThen(cfg, h, t);
    if Postponed(h, t) {
      PostponementsMonotone(h.openUntil - next.runAt, h.openUntil - runAt - 2000);
    } else if next.Waiting? {
      PostponementsMonotone(h'.openUntil - next.runAt, cfg.recoveryTimeoutMs);
    }
  }

  /** Every chain ends, if nobody else moves the router's health: whatever the
      stores and the router answer, no chain is longer than its measure. */
  lemma {:induction false} ChainsEnd(cfg: Config, h: Health, chain: Chain, turns: seq<Turn>)
    requires Follows(cfg, h, chain, turns)
    ensures |turns| <= Measure(cfg, h, chain)
    decreases |turns|
  {
    if turns != [] {
      TurnShrinks(cfg, h, chain.attempt, chain.delay, chain.runAt, turns[0]);
      ChainsEnd(cfg, HealthThen(cfg, h, turns[0]), Then(h, chain.attempt, turns[0]), turns[1..]);
    }
  }

  lemma DefaultChainLength(h: Health, delay: nat, runAt: nat, turns: seq<Turn>)
    requires Follows(DEFAULT, h, Waiting(0, delay, runAt), turns) && h.openUntil <= runAt
    ensures |turns| <= 225
  {
    ChainsEnd(DEFAULT, h, Waiting(0, delay, runAt), turns);
    assert Postponements(60000) == 31;
    assert RunsLeft(DEFAULT, 7) == 1;
    assert RunsLeft(DEFAULT, 5) == 65;
    assert RunsLeft(DEFAULT, 3) == 129;
    assert RunsLeft(DEFAULT, 1) == 193;
  }

  // ----------------------------------------------------------- among others

  /** The turns happen to the chain, others changing the router's health as they
      like in between: turn i finds it as `healths[i]`. */
  ghost predicate FollowsAmong(chain: Chain, healths: seq<Health>, turns: seq<Turn>)
    requires |healths| == |turns|
    decreases |turns|
  {
    turns != [] ==>
      && chain.Waiting?
      && chain.runAt <= turns[0].at <= turns[0].replied
      && var next := Then(healths[0], chain.attempt, turns[0]);
         && (next.Waiting? ==> IsJitter(turns[0].jitter, next.attempt))
         && FollowsAmong(next, healths[1..], turns[1..])
  }

  function PutOff(healths: seq<Health>, turns: seq<Turn>): nat
    requires |healths| == |turns|
    decreases |turns|
  {
    if turns == [] then 0 else (if Postponed(healths[0], turns[0]) then 1 else 0) + PutOff(healths[1..], turns[1..])
  }

  /** Put off are the runs that would ask a router whose circuit is open. */
  lemma PutOffStep(h: Health, healths: seq<Health>, t: Turn, turns: seq<Turn>)
    requires |healths| == |turns|
    ensures PutOff([h] + healths, [t] + turns) ==
            PutOff(healths, turns) + if t.seen.Ready? && h.openUntil != 0 && t.at < h.openUntil then 1 else 0
  {
    assert ([h] + healths)[1..] == healths && ([t] + turns)[1..] == turns;
  }

  /** Whatever others do to the router's health, only runs that find the circuit
      open can lengthen a chain: the rest are eight at most. */
  lemma {:induction false} EightRunsAmongOthers(chain: Chain, healths: seq<Health>, turns: seq<Turn>)
    requires |healths| == |turns| && FollowsAmong(chain, healths, turns)
    requires chain.Waiting? ==> chain.attempt < MAX_ATTEMPTS
    ensures |turns| - PutOff(healths, turns) <= if chain.Waiting? then MAX_ATTEMPTS - chain.attempt else 0
    decreases |turns|
  {
    if turns != [] {
      EightRunsAmongOthers(Then(healths[0], chain.attempt, turns[0]), healths[1..], turns[1..]);
    }
  }

  /** And those can be any number, as long as others keep the circuit open. */
  lemma {:induction false} OthersKeepItWaiting(attempt: nat, delay: nat, runAt: nat, n: nat)
    returns (healths: seq<Health>, turns: seq<Turn>)
    ensures |healths| == |turns| == n == PutOff(healths, turns)
    ensures FollowsAmong(Waiting(attempt, delay, runAt), healths, turns)
    decreases n
  {
    healths, turns := [], [];
    if n > 0 {
      var h, t := Health(DOWN_TRANSIENT, 1, runAt + 1, ""), Turn(runAt, runAt, Ready, Granted, 0);
      healths, turns := OthersKeepItWaiting(attempt, Base(attempt), runAt + Base(attempt), n - 1);
      assert ([h] + healths)[1..] == healths && ([t] + turns)[1..] == turns;
      healths, turns := [h] + healths, [t] + turns;
    }
  }

  // -------------------------------------------------------------- eight runs

  /** Every run finds the circuit closed and fails transiently. */
  ghost predicate AllTransient(cfg: Config, h: Health, turns: seq<Turn>)
    decreases |turns|
  {
    turns != [] ==>
      && Attempts(h, turns[0]) && IsTransient(turns[0])
      && AllTransient(cfg, HealthThen(cfg, h, turns[0]), turns[1..])
  }

  /** The delays of all the jobs of the chain, the first one included. */
  function TotalDelay(cfg: Config, h: Health, chain: Chain, turns: seq<Turn>): nat
    decreases |turns|
  {
    if chain.Ended? then 0
    else chain.delay
         + if turns == [] then 0
           else TotalDelay(cfg, HealthThen(cfg, h, turns[0]), Then(h, chain.attempt, turns[0]), turns[1..])
  }

  function BaseFrom(attempt: nat): nat
    decreases MAX_ATTEMPTS - attempt
  {
    if attempt >= MAX_ATTEMPTS then 0 else Base(attempt) + BaseFrom(attempt + 1)
  }

  predicate Scheduled(chain: Chain) {
    chain.Waiting? ==>
      exists jitter: nat | jitter <= chain.delay ::
        IsJitter(jitter, chain.attempt) && chain.delay == Base(chain.attempt) + jitter
  }

  /** From attempt k there are exactly 8 - k transient runs to FAILED; while they
      last the chain waits for the attempt they have reached. */
  lemma {:induction false} TransientRuns(cfg: Config, h: Health, chain: Chain, turns: seq<Turn>)
    requires chain.Waiting? && chain.attempt < MAX_ATTEMPTS && Scheduled(chain)
    requires Follows(cfg, h, chain, turns) && AllTransient(cfg, h, turns)
    ensures |turns| <= MAX_ATTEMPTS - chain.attempt
    ensures var end := After(cfg, h, chain, turns);
            if |turns| == MAX_ATTEMPTS - chain.attempt then end == Ended(FailedAfterRetries)
            else end.Waiting? && end.attempt == chain.attempt + |turns|
    ensures |turns| == MAX_ATTEMPTS - chain.attempt ==>
              && BaseFrom(chain.attempt) <= TotalDelay(cfg, h, chain, turns)
              && 5 * TotalDelay(cfg, h, chain, turns) < 6 * BaseFrom(chain.attempt)
    decreases |turns|
  {
    if turns != [] {
      var next := Then(h, chain.attempt, turns[0]);
      if next.Waiting? {
        TransientRuns(cfg, HealthThen(cfg, h, turns[0]), next, turns[1..]);
      }
    }
  }

  /** With the circuit closed throughout, FAILED comes after exactly eight
      transient runs, whose scheduled delays total at least 497 seconds and less
      than 596.4. */
  lemma EightRunsThenFailed(cfg: Config, h: Health, jitter: nat, now: nat, turns: seq<Turn>)
    requires IsJitter(jitter, 0)
    requires Follows(cfg, h, Schedule(0, jitter, now), turns) && AllTransient(cfg, h, turns)
    ensures After(cfg, h, Schedule(0, jitter, now), turns) == Ended(FailedAfterRetries) <==> |turns| == 8
    ensures |turns| <= 8
    ensures |turns| == 8 ==> 497000 <= TotalDelay(cfg, h, Schedule(0, jitter, now), turns) < 596400
  {
    TransientRuns(cfg, h, Schedule(0, jitter, now), turns);
    assert BaseFrom(6) == 360000;
    assert BaseFrom(4) == 460000;
    assert BaseFrom(2) == 490000;
    assert BaseFrom(0) == 497000;
  }

  // ------------------------------------------- when the circuit stays closed

  ghost predicate AllReadyTransient(turns: seq<Turn>) { forall i | 0 <= i < |turns| :: IsTransient(turns[i]) }

  /** A run of the chain finds the circuit open. */
  ghost predicate SomePostponed(cfg: Config, h: Health, chain: Chain, turns: seq<Turn>)
    decreases |turns|
  {
    && turns != [] && chain.Waiting?
    && (Postponed(h, turns[0])
        || SomePostponed(cfg, HealthThen(cfg, h, turns[0]), Then(h, chain.attempt, turns[0]), turns[1..]))
  }

  /** On a router with as many failures as the chain itself has made, the breaker
      opens only for waits the chain makes anyway. */
  lemma {:induction false} OwnFailuresNeverPostpone(h: Health, chain: Chain, turns: seq<Turn>)
    requires Follows(DEFAULT, h, chain, turns) && AllReadyTransient(turns)
    requires chain.Waiting? ==> h.consecutiveFails == chain.attempt && h.openUntil <= chain.runAt
    ensures !SomePostponed(DEFAULT, h, chain, turns)
    decreases |turns|
  {
    if turns != [] {
      OwnFailuresNeverPostpone(HealthThen(DEFAULT, h, turns[0]), Then(h, chain.attempt, turns[0]), turns[1..]);
    }
  }

  /** One failure more, and prompt runs meet the open circuit. */
  lemma {:induction false} PromptRunsGetPostponed(h: Health, chain: Chain, c: Classification) returns (turns: seq<Turn>)
    requires chain.Waiting? && chain.attempt <= 3 && h.consecutiveFails > chain.attempt && h.openUntil <= chain.runAt
    requires c.kind == Transient
    ensures Follows(DEFAULT, h, chain, turns) && AllReadyTransient(turns)
    ensures SomePostponed(DEFAULT, h, chain, turns)
    decreases 4 - chain.attempt
  {
    var t := Turn(chain.runAt, chain.runAt, Ready, Failed(c), 0);
    var h', next := HealthThen(DEFAULT, h, t), Then(h, chain.attempt, t);
    var rest: seq<Turn>;
    if h.consecutiveFails + 1 < 5 {
      rest := PromptRunsGetPostponed(h', next, c);
    } else {
      rest := [Turn(next.runAt, next.runAt, Ready, Failed(c), 0)];
      assert rest[1..] == [];
    }
    turns := [t] + rest;
    assert turns[1..] == rest;
  }

  /** By default, a chain on a closed circuit is never postponed, at whatever
      pace its jobs run, exactly when the router had no failures before it. */
  lemma NeverPostponedIff(h: Health, jitter: nat, now: nat)
    requires h.openUntil <= Schedule(0, jitter, now).runAt
    ensures (forall turns | Follows(DEFAULT, h, Schedule(0, jitter, now), turns) && AllReadyTransient(turns) ::
               !SomePostponed(DEFAULT, h, Schedule(0, jitter, now), turns))
            <==> h.consecutiveFails == 0
  {
    if h.consecutiveFails == 0 {
      forall turns | Follows(DEFAULT, h, Schedule(0, jitter, now), turns) && AllReadyTransient(turns)
        ensures !SomePostponed(DEFAULT, h, Schedule(0, jitter, now), turns)
      {
        OwnFailuresNeverPostpone(h, Schedule(0, jitter, now), turns);
      }
    } else {
      var turns := PromptRunsGetPostponed(h, Schedule(0, jitter, now),
                                             Classification(Transient, "MIKROTIK_TIMEOUT", 0));
    }
  }
}
