/** The circuit breaker kept per router (routerHealth.js 95-163) and the error
    classes it goes by (errors/classifyError.js). */
module RouterHealth {

  datatype State = HEALTHY | DEGRADED | DOWN_TRANSIENT | AUTH_FAILED | MISCONFIGURED

  datatype ErrorClass = Setup | Auth | Transient | Inconsistent | Unknown

  /** `openCircuitMs` is 0 when the class does not ask for a time of its own. */
  datatype Classification = Classification(kind: ErrorClass, code: string, openCircuitMs: nat)

  /** `openUntil` is 0 for a circuit never opened. */
  datatype Health = Health(state: State, consecutiveFails: nat, openUntil: nat, lastErrCode: string)

  datatype Config = Config(failureThreshold: int, recoveryTimeoutMs: nat)

  const DEFAULT := Config(5, 60000)
  const SETUP_OPEN_MS: nat := 600000
  const AUTH_OPEN_MS: nat := 900000

  const SETUP_CODES := {
    "WG_INTERFACE_NOT_CONFIGURED", "MIKROTIK_NODES_NOT_CONFIGURED", "MIKROTIK_NODES_INVALID_JSON",
    "MIKROTIK_NODE_NOT_FOUND", "router_not_resolved", "missing_ip_or_mac"}
  const AUTH_CODES := {"MIKROTIK_AUTH_FAILED", "MIKROTIK_PERMISSION_DENIED"}
  const TRANSIENT_CODES := {
    "WG_COMMAND_FAILED", "WG_LIST_PEERS_FAILED", "MIKROTIK_TIMEOUT", "MIKROTIK_UNREACHABLE",
    "MIKROTIK_CONNECTION_RESET", "MIKROTIK_DNS_NOT_FOUND", "MIKROTIK_PROTOCOL_ERROR"}
  const INCONSISTENT_CODES := {"EVENT_INVALID_SCHEMA", "EVENT_INCONSISTENT"}

  function ClassifyError(code: string): Classification {
    if code == "" then Classification(Unknown, "UNKNOWN_ERROR", 0)
    else if code in SETUP_CODES then Classification(Setup, code, SETUP_OPEN_MS)
    else if code in AUTH_CODES then Classification(Auth, code, AUTH_OPEN_MS)
    else if code in TRANSIENT_CODES then Classification(Transient, code, 0)
    else if code in INCONSISTENT_CODES then Classification(Inconsistent, code, 0)
    else Classification(Unknown, code, 0)
  }

  const HEALTHY_DEFAULT := Health(HEALTHY, 0, 0, "")

  predicate CanAttempt(h: Health, now: nat) { h.openUntil == 0 || h.openUntil <= now }

  function OrElse(ms: nat, fallback: nat): nat { if ms == 0 then fallback else ms }

  function HealthAfter(cfg: Config, h: Health, c: Classification, now: nat): Health {
    var fails := h.consecutiveFails + 1;
    var code := if c.code == "" then h.lastErrCode else c.code;
    match c.kind
    case Setup => Health(MISCONFIGURED, fails, now + OrElse(c.openCircuitMs, SETUP_OPEN_MS), code)
    case Auth => Health(AUTH_FAILED, fails, now + OrElse(c.openCircuitMs, AUTH_OPEN_MS), code)
    case Transient =>
      if fails >= cfg.failureThreshold then Health(DOWN_TRANSIENT, fails, now + cfg.recoveryTimeoutMs, code)
      else Health(DEGRADED, fails, 0, code)
    case _ => h
  }

  /** The class of an error goes by its code alone. */
  lemma ClassIs(code: string)
    ensures var kind := ClassifyError(code).kind;
            && (kind.Setup? <==> code in SETUP_CODES) && (kind.Auth? <==> code in AUTH_CODES)
            && (kind.Transient? <==> code in TRANSIENT_CODES) && (kind.Inconsistent? <==> code in INCONSISTENT_CODES)
    ensures ClassifyError(code).code == if code == "" then "UNKNOWN_ERROR" else code
  {
    assert "" !in SETUP_CODES && "" !in AUTH_CODES && "" !in TRANSIENT_CODES && "" !in INCONSISTENT_CODES;
    var all := [SETUP_CODES, AUTH_CODES, TRANSIENT_CODES, INCONSISTENT_CODES];
    assert SETUP_CODES !! AUTH_CODES && SETUP_CODES !! TRANSIENT_CODES && AUTH_CODES !! TRANSIENT_CODES;
    assert INCONSISTENT_CODES !! (SETUP_CODES + AUTH_CODES + TRANSIENT_CODES);
  }

  /** What an error leaves in the router's entry: its code, a state that tells its
      class, and a circuit open for the time the class asks for. */
  lemma EntryIs(cfg: Config, h: Health, c: Classification, now: nat)
    ensures var after := HealthAfter(cfg, h, c, now);
            if c.kind.Inconsistent? || c.kind.Unknown? then after == h
            else
              && after.consecutiveFails == h.consecutiveFails + 1
              && after.lastErrCode == (if c.code == "" then h.lastErrCode else c.code)
              && (after.state == MISCONFIGURED <==> c.kind.Setup?) && (after.state == AUTH_FAILED <==> c.kind.Auth?)
              && (c.kind.Transient? ==>
                    && (after.state == DOWN_TRANSIENT <==> CircuitTrips(cfg, h))
                    && (after.state == DEGRADED <==> !CircuitTrips(cfg, h)))
              && (!c.kind.Transient? ==>
                    after.openUntil - now == if c.openCircuitMs > 0 then c.openCircuitMs
                                             else if c.kind.Setup? then 600000 else 900000)
  {
  }

  predicate CircuitTrips(cfg: Config, h: Health) { h.consecutiveFails + 1 >= cfg.failureThreshold }

  /** How long an error keeps the router from being tried: ten minutes for a setup
      error, fifteen for a refused login, the recovery time once transient errors
      have reached the threshold; other errors change nothing. */
  lemma CircuitOpensFor(cfg: Config, h: Health, code: string, now: nat, later: nat)
    requires now <= later
    ensures var after := HealthAfter(cfg, h, ClassifyError(code), now);
            CanAttempt(after, later) <==>
            if code in SETUP_CODES then now + 600000 <= later
            else if code in AUTH_CODES then now + 900000 <= later
            else if code in TRANSIENT_CODES then
              h.consecutiveFails + 1 < cfg.failureThreshold || now + cfg.recoveryTimeoutMs <= later
            else CanAttempt(h, later)
    ensures HealthAfter(cfg, h, ClassifyError(code), now).consecutiveFails
         == h.consecutiveFails + if code in SETUP_CODES + AUTH_CODES + TRANSIENT_CODES then 1 else 0
  {
    assert "" !in SETUP_CODES && "" !in AUTH_CODES && "" !in TRANSIENT_CODES;
  }

  class RouterHealth {
    const cfg: Config
    var store: map<string, Health>

    constructor (cfg: Config)
      ensures this.cfg == cfg && store == map[]
    {
      this.cfg := cfg;
      store := map[];
    }

    function GetHealth(routerId: string): Health
      reads this
    {
      if routerId in store then store[routerId] else HEALTHY_DEFAULT
    }

    /** Only this router's entry moves, and no outcome of a call brings its failure
        count down. */
    method UpdateRouterHealth(routerId: string, c: Classification, now: nat)
      modifies this
      ensures routerId != "" ==> GetHealth(routerId) == HealthAfter(cfg, old(GetHealth(routerId)), c, now)
      ensures GetHealth(routerId).consecutiveFails >= old(GetHealth(routerId)).consecutiveFails
      ensures forall r | r != routerId || r == "" :: GetHealth(r) == old(GetHealth(r))
    {
      if routerId == "" {
        return;
      }
      var h := GetHealth(routerId);
      var fails, code := h.consecutiveFails + 1, if c.code == "" then h.lastErrCode else c.code;
      var next := h.(lastErrCode := code);
      if c.kind.Setup? {
        next := next.(state := MISCONFIGURED, openUntil := now + OrElse(c.openCircuitMs, SETUP_OPEN_MS),
                      consecutiveFails := fails);
      } else if c.kind.Auth? {
        next := next.(state := AUTH_FAILED, openUntil := now + OrElse(c.openCircuitMs, AUTH_OPEN_MS),
                      consecutiveFails := fails);
      } else if c.kind.Transient? {
        next := next.(consecutiveFails := fails,
                      state := if fails >= cfg.failureThreshold then DOWN_TRANSIENT else DEGRADED,
                      openUntil := if fails >= cfg.failureThreshold then now + cfg.recoveryTimeoutMs else 0);
      } else {
        return;
      }
      store := store[routerId := next];
    }
  }
}
