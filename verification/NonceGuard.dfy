/** The nonce cache of security/hmacVerify.js. Times are in milliseconds. */
module NonceGuard {
  import opened Basics

  const TS_SKEW_MS := 120000.0
  const NONCE_TTL_MS := 300000.0
  const MIN_NONCE_LENGTH := 8

  datatype Config = Config(skew: real, ttl: real)

  /** `ts` is None when it is no finite number, `nonce` when it is no string;
      `genuine` tells whether the signature matches. */
  datatype Request = Request(
    secret: bool, signature: bool, ts: Option<real>, nonce: Option<string>, genuine: bool)

  datatype Arrival = Arrival(now: real, req: Request)

  datatype Verdict =
    | Accepted
    | SecretMissing | SignatureMissing | TsInvalid | NonceInvalid | TsOutOfRange | Replayed | SignatureInvalid

  type Cache = map<string, real>

  /** A clean request carries what the checks before the cache ask for. */
  predicate Timely(cfg: Config, a: Arrival) {
    && a.req.secret && a.req.signature
    && a.req.ts.Some? && a.req.nonce.Some? && |a.req.nonce.value| >= MIN_NONCE_LENGTH
    && -cfg.skew <= a.now - a.req.ts.value <= cfg.skew
  }

  /** The verdict on a request, given whether its nonce is remembered. */
  function Judge(cfg: Config, a: Arrival, remembered: bool): Verdict {
    if !a.req.secret then SecretMissing
    else if !a.req.signature then SignatureMissing
    else if a.req.ts.None? then TsInvalid
    else if a.req.nonce.None? || |a.req.nonce.value| < MIN_NONCE_LENGTH then NonceInvalid
    else if !Timely(cfg, a) then TsOutOfRange
    else if remembered then Replayed
    else if a.req.genuine then Accepted else SignatureInvalid
  }

  // ------------------------------------------- reference: verdicts by history

  /** A request uses its nonce up when it gets past the cache, even if its
      signature then proves wrong. */
  predicate UsesUp(v: Verdict) { v.Accepted? || v.SignatureInvalid? }

  /** An earlier request of the log used the nonce up, less than a TTL ago. */
  ghost predicate Remembered(cfg: Config, log: seq<Arrival>, nonce: string, now: real)
    decreases |log|, 1
  {
    exists i | 0 <= i < |log| ::
      log[i].req.nonce == Some(nonce) && now < log[i].now + cfg.ttl && UsesUp(Verdicts(cfg, log)[i])
  }

  /** What every request of the log is answered, without any cache. */
  ghost function Verdicts(cfg: Config, log: seq<Arrival>): (vs: seq<Verdict>)
    ensures |vs| == |log|
    decreases |log|, 0
  {
    if log == [] then []
    else
      var earlier, a := log[..|log| - 1], log[|log| - 1];
      Verdicts(cfg, earlier)
      + [Judge(cfg, a, a.req.nonce.Some? && Remembered(cfg, earlier, a.req.nonce.value, a.now))]
  }

  ghost predicate Ordered(log: seq<Arrival>) { forall i, j | 0 <= i <= j < |log| :: log[i].now <= log[j].now }

  lemma {:induction false} VerdictsOfPrefix(cfg: Config, log: seq<Arrival>, k: nat)
    requires k <= |log|
    ensures Verdicts(cfg, log)[..k] == Verdicts(cfg, log[..k])
    decreases |log|
  {
    if k < |log| {
      VerdictsOfPrefix(cfg, log[..|log| - 1], k);
      assert log[..|log| - 1][..k] == log[..k];
    } else {
      assert log[..k] == log;
    }
  }

  /** The verdict at a place of the log looks at what came before it only. */
  lemma VerdictAt(cfg: Config, log: seq<Arrival>, j: nat)
    requires j < |log|
    ensures Verdicts(cfg, log)[j] == Judge(cfg, log[j],
              log[j].req.nonce.Some? && Remembered(cfg, log[..j], log[j].req.nonce.value, log[j].now))
  {
    VerdictsOfPrefix(cfg, log, j + 1);
    assert log[..j + 1][..j] == log[..j];
    assert Verdicts(cfg, log)[j] == Verdicts(cfg, log)[..j + 1][j];
  }

  /** The nonce of a request was used less than a TTL ago, by an earlier one that
      was accepted or signed wrongly. */
  ghost predicate Known(cfg: Config, log: seq<Arrival>, i: nat)
    requires i < |log|
  {
    exists j | 0 <= j < i ::
      && log[j].req.nonce == log[i].req.nonce && log[i].now < log[j].now + cfg.ttl
      && (Verdicts(cfg, log)[j].Accepted? || Verdicts(cfg, log)[j].SignatureInvalid?)
  }

  lemma KnownIsRemembered(cfg: Config, log: seq<Arrival>, i: nat)
    requires i < |log| && log[i].req.nonce.Some?
    ensures Known(cfg, log, i) <==> Remembered(cfg, log[..i], log[i].req.nonce.value, log[i].now)
  {
    VerdictsOfPrefix(cfg, log, i);
    assert forall j | 0 <= j < i :: log[..i][j] == log[j] && Verdicts(cfg, log[..i])[j] == Verdicts(cfg, log)[j];
    if Known(cfg, log, i) {
      var j :| 0 <= j < i && log[j].req.nonce == log[i].req.nonce && log[i].now < log[j].now + cfg.ttl
          && (Verdicts(cfg, log)[j].Accepted? || Verdicts(cfg, log)[j].SignatureInvalid?);
      assert UsesUp(Verdicts(cfg, log[..i])[j]);
    }
  }

  /** What a request is answered, told from the requests alone: each check only if
      those before it are passed. */
  ghost predicate Answers(cfg: Config, log: seq<Arrival>, i: nat, v: Verdict)
    requires i < |log|
  {
    var Arrival(now, req) := log[i];
    var named := req.nonce.Some? && |req.nonce.value| >= 8;
    var signed := req.secret && req.signature;
    var inTime := req.ts.Some? && -cfg.skew <= now - req.ts.value <= cfg.skew;
    match v
    case SecretMissing => !req.secret
    case SignatureMissing => req.secret && !req.signature
    case TsInvalid => signed && req.ts.None?
    case NonceInvalid => signed && req.ts.Some? && !named
    case TsOutOfRange => signed && named && req.ts.Some? && !inTime
    case Replayed => signed && named && inTime && Known(cfg, log, i)
    case Accepted => signed && named && inTime && !Known(cfg, log, i) && req.genuine
    case SignatureInvalid => signed && named && inTime && !Known(cfg, log, i) && !req.genuine
  }

  /** Every request has exactly the one answer its checks ask for: accepted are the
      timely ones with a fresh nonce and a genuine signature. */
  lemma VerdictIs(cfg: Config, log: seq<Arrival>, i: nat, v: Verdict)
    requires i < |log|
    ensures Verdicts(cfg, log)[i] == v <==> Answers(cfg, log, i, v)
  {
    VerdictAt(cfg, log, i);
    if log[i].req.nonce.Some? {
      KnownIsRemembered(cfg, log, i);
    }
  }

  lemma RememberedInPrefix(cfg: Config, log: seq<Arrival>, i: nat, j: nat, nonce: string, now: real)
    requires i < j <= |log|
    requires log[i].req.nonce == Some(nonce) && now < log[i].now + cfg.ttl && UsesUp(Verdicts(cfg, log)[i])
    ensures Remembered(cfg, log[..j], nonce, now)
  {
    VerdictsOfPrefix(cfg, log, j);
    assert Verdicts(cfg, log)[..j][i] == Verdicts(cfg, log)[i];
    assert log[..j][i] == log[i];
  }

  // -------------------------------------------------------- at most once, iff

  /** Two accepted requests of the log carry the same timestamp and nonce. */
  ghost predicate AcceptedTwice(cfg: Config, log: seq<Arrival>) {
    exists i, j | 0 <= i < j < |log| ::
      && log[i].req.ts == log[j].req.ts && log[i].req.nonce == log[j].req.nonce
      && Verdicts(cfg, log)[i].Accepted? && Verdicts(cfg, log)[j].Accepted?
  }

  lemma NeverTwice(cfg: Config, log: seq<Arrival>)
    requires Ordered(log)
    requires cfg.skew < 0.0 || 2.0 * cfg.skew < cfg.ttl
    ensures !AcceptedTwice(cfg, log)
  {
    forall i, j | 0 <= i < j < |log| && Verdicts(cfg, log)[i].Accepted? && Verdicts(cfg, log)[j].Accepted?
                  && log[i].req.ts == log[j].req.ts && log[i].req.nonce == log[j].req.nonce
      ensures false
    {
      VerdictAt(cfg, log, i);
      VerdictAt(cfg, log, j);
      RememberedInPrefix(cfg, log, i, j, log[j].req.nonce.value, log[j].now);
    }
  }

  function Replay(cfg: Config): seq<Arrival> {
    var req := Request(true, true, Some(cfg.skew), Some("nonce-01"), true);
    [Arrival(0.0, req), Arrival(2.0 * cfg.skew, req)]
  }

  /** Sent a skew early, and again a skew late. */
  lemma ReplayWorks(cfg: Config)
    requires 0.0 <= cfg.skew && cfg.ttl <= 2.0 * cfg.skew
    ensures Ordered(Replay(cfg)) && AcceptedTwice(cfg, Replay(cfg))
  {
    var log := Replay(cfg);
    assert |"nonce-01"| == 8;
    VerdictAt(cfg, log, 0);
    VerdictAt(cfg, log, 1);
    assert log[..0] == [] && |log[..1]| == 1 && log[..1][0] == log[0];
    assert Verdicts(cfg, log)[0].Accepted? && Verdicts(cfg, log)[1].Accepted?;
  }

  /** A pair of timestamp and nonce is accepted at most once in every run
      exactly when the TTL exceeds twice the skew (or nothing is ever timely). */
  lemma AtMostOnce(cfg: Config)
    ensures (forall log | Ordered(log) :: !AcceptedTwice(cfg, log))
            <==> cfg.skew < 0.0 || 2.0 * cfg.skew < cfg.ttl
  {
    if cfg.skew < 0.0 || 2.0 * cfg.skew < cfg.ttl {
      forall log | Ordered(log) ensures !AcceptedTwice(cfg, log) {
        NeverTwice(cfg, log);
      }
    } else {
      ReplayWorks(cfg);
    }
  }

  lemma AtMostOnceByDefault(log: seq<Arrival>)
    requires Ordered(log)
    ensures !AcceptedTwice(Config(TS_SKEW_MS, NONCE_TTL_MS), log)
  {
    NeverTwice(Config(TS_SKEW_MS, NONCE_TTL_MS), log);
  }

  // ---------------------------------------------------------------- the cache

  /** From the moment `since` on, the unexpired nonces are the remembered ones. */
  ghost predicate Caches(cfg: Config, log: seq<Arrival>, cache: Cache, since: real) {
    forall n, t | since <= t :: (n in cache && t < cache[n]) <==> Remembered(cfg, log, n, t)
  }

  function Cleaned(cache: Cache, now: real): Cache { map n | n in cache && now < cache[n] :: cache[n] }

  lemma {:induction false} RememberedGrows(cfg: Config, log: seq<Arrival>, a: Arrival, n: string, t: real)
    ensures Remembered(cfg, log + [a], n, t) <==>
            Remembered(cfg, log, n, t)
            || (a.req.nonce == Some(n) && t < a.now + cfg.ttl && UsesUp(Verdicts(cfg, log + [a])[|log|]))
  {
    var longer := log + [a];
    assert longer[..|log|] == log;
    VerdictsOfPrefix(cfg, longer, |log|);
    assert forall i | 0 <= i < |log| :: Verdicts(cfg, longer)[i] == Verdicts(cfg, longer)[..|log|][i];
    if Remembered(cfg, log, n, t) {
      var i :| 0 <= i < |log| && log[i].req.nonce == Some(n) && t < log[i].now + cfg.ttl
          && UsesUp(Verdicts(cfg, log)[i]);
      assert longer[i] == log[i] && UsesUp(Verdicts(cfg, longer)[i]);
    }
  }

  /** A request answered without using its nonce up leaves the memory as it is. */
  lemma RefusalKeepsCache(cfg: Config, log: seq<Arrival>, a: Arrival, cache: Cache, since: real)
    requires Caches(cfg, log, cache, since) && since <= a.now
    requires !UsesUp(Verdicts(cfg, log + [a])[|log|])
    ensures Caches(cfg, log + [a], cache, a.now)
    ensures Caches(cfg, log + [a], Cleaned(cache, a.now), a.now)
  {
    forall n, t | a.now <= t ensures Remembered(cfg, log + [a], n, t) <==> Remembered(cfg, log, n, t) {
      RememberedGrows(cfg, log, a, n, t);
    }
  }

  lemma UseGoesToCache(cfg: Config, log: seq<Arrival>, a: Arrival, cache: Cache, since: real)
    requires Caches(cfg, log, cache, since) && since <= a.now
    requires a.req.nonce.Some? && UsesUp(Verdicts(cfg, log + [a])[|log|])
    requires a.req.nonce.value !in Cleaned(cache, a.now)
    ensures Caches(cfg, log + [a], Cleaned(cache, a.now)[a.req.nonce.value := a.now + cfg.ttl], a.now)
  {
    var after := Cleaned(cache, a.now)[a.req.nonce.value := a.now + cfg.ttl];
    forall n, t | a.now <= t ensures (n in after && t < after[n]) <==> Remembered(cfg, log + [a], n, t) {
      RememberedGrows(cfg, log, a, n, t);
      assert (n in cache && t < cache[n]) <==> Remembered(cfg, log, n, t);
    }
  }

  lemma LastVerdict(cfg: Config, log: seq<Arrival>, a: Arrival, cache: Cache, since: real)
    requires Caches(cfg, log, cache, since) && since <= a.now
    ensures Verdicts(cfg, log + [a])[|log|]
         == Judge(cfg, a, a.req.nonce.Some? && a.req.nonce.value in Cleaned(cache, a.now))
  {
    VerdictAt(cfg, log + [a], |log|);
    assert (log + [a])[..|log|] == log;
    if a.req.nonce.Some? {
      var n := a.req.nonce.value;
      assert (n in cache && a.now < cache[n]) <==> Remembered(cfg, log, n, a.now);
    }
  }

  class NonceGuard {
    const cfg: Config
    var nonceCache: Cache
    ghost var log: seq<Arrival>   // every call so far
    ghost var last: real          // and when the latest one was made

    ghost predicate Valid()
      reads this
    {
      Caches(cfg, log, nonceCache, last)
    }

    constructor (cfg: Config, start: real)
      ensures Valid() && this.cfg == cfg && log == [] && last == start
    {
      this.cfg := cfg;
      nonceCache := map[];
      log := [];
      last := start;
    }

    method Cleanup(now: real)
      modifies this`nonceCache
      ensures nonceCache == Cleaned(old(nonceCache), now)
    {
      var todo := nonceCache.Keys;
      while todo != {}
        invariant todo <= nonceCache.Keys <= old(nonceCache).Keys
        invariant forall n | n in nonceCache :: nonceCache[n] == old(nonceCache)[n]
        invariant forall n | n in nonceCache :: n in todo || now < nonceCache[n]
        invariant forall n | n in old(nonceCache) && n !in nonceCache :: old(nonceCache)[n] <= now
        decreases |todo|
      {
        var n :| n in todo;
        todo := todo - {n};
        if nonceCache[n] <= now {
          nonceCache := nonceCache - {n};
        }
      }
    }

    /** The verdict the whole history of calls asks for. */
    method VerifyRelaySignature(a: Arrival) returns (v: Verdict)
      requires Valid() && last <= a.now
      modifies this
      ensures Valid() && log == old(log) + [a] && last == a.now
      ensures v == Verdicts(cfg, log)[|old(log)|] && Answers(cfg, log, |old(log)|, v)
    {
      v := Check(a);
      VerdictIs(cfg, log, |log| - 1, v);
    }

    /** The checks, one by one. */
    method Check(a: Arrival) returns (v: Verdict)
      requires Valid() && last <= a.now
      modifies this
      ensures Valid() && log == old(log) + [a] && last == a.now
      ensures v == Verdicts(cfg, log)[|old(log)|]
    {
      LastVerdict(cfg, log, a, nonceCache, last);
      if !a.req.secret {
        v := SecretMissing;
      } else if !a.req.signature {
        v := SignatureMissing;
      } else if a.req.ts.None? {
        v := TsInvalid;
      } else if a.req.nonce.None? || |a.req.nonce.value| < MIN_NONCE_LENGTH {
        v := NonceInvalid;
      } else if a.now - a.req.ts.value > cfg.skew || a.req.ts.value - a.now > cfg.skew {
        v := TsOutOfRange;
      } else {
        v := CheckNonce(a);
        return;
      }
      RefusalKeepsCache(cfg, log, a, nonceCache, last);
      log, last := log + [a], a.now;
    }

    /** The part behind the timestamp check. */
    method CheckNonce(a: Arrival) returns (v: Verdict)
      requires Valid() && last <= a.now && Timely(cfg, a)
      modifies this
      ensures Valid() && log == old(log) + [a] && last == a.now
      ensures v == Verdicts(cfg, log)[|old(log)|]
    {
      LastVerdict(cfg, log, a, nonceCache, last);
      ghost var before := nonceCache;
      Cleanup(a.now);
      var nonce := a.req.nonce.value;
      if nonce in nonceCache {
        RefusalKeepsCache(cfg, log, a, before, last);
        v := Replayed;
      } else {
        UseGoesToCache(cfg, log, a, before, last);
        nonceCache := nonceCache[nonce := a.now + cfg.ttl];
        v := if a.req.genuine then Accepted else SignatureInvalid;
      }
      log, last := log + [a], a.now;
    }
  }
}
