/** The bounded list of applied actions, against the complete one
    (identityStore.js 236-289). */
module AppliedWindow {
  import opened Basics

  const APPLIED_MAX_AGE_MS := 1209600000
  const APPLIED_MAX_ITEMS := 50

  datatype Entry = Entry(actionKey: string, at: nat)

  predicate Fresh(e: Entry, now: nat) { e.at != 0 && now - e.at <= APPLIED_MAX_AGE_MS }

  function Filter(s: seq<Entry>, now: nat): seq<Entry> {
    if s == [] then []
    else Filter(s[..|s| - 1], now) + if Fresh(s[|s| - 1], now) then [s[|s| - 1]] else []
  }

  function LastItems(s: seq<Entry>): seq<Entry> {
    if |s| > APPLIED_MAX_ITEMS then s[|s| - APPLIED_MAX_ITEMS..] else s
  }

  function Window(history: seq<Entry>, now: nat): seq<Entry> { LastItems(Filter(history, now)) }

  ghost predicate Ordered(h: seq<Entry>) { forall i, j | 0 <= i < j < |h| :: h[i].at <= h[j].at }

  /** Where the fresh entries begin. */
  ghost function FirstFresh(h: seq<Entry>, now: nat): (c: nat)
    ensures c <= |h|
    ensures forall i | 0 <= i < c :: !Fresh(h[i], now)
    ensures c < |h| ==> Fresh(h[c], now)
  {
    if h == [] || Fresh(h[0], now) then 0
    else 1 + FirstFresh(h[1..], now)
  }

  lemma {:induction false} FilterIsSuffix(h: seq<Entry>, now: nat, c: nat)
    requires c <= |h|
    requires forall i | 0 <= i < c :: !Fresh(h[i], now)
    requires forall i | c <= i < |h| :: Fresh(h[i], now)
    ensures Filter(h, now) == h[c..]
  {
    if h != [] {
      var init, last := h[..|h| - 1], h[|h| - 1];
      FilterIsSuffix(init, now, Min(c, |init|));
      if c < |h| {
        assert h[c..] == init[c..] + [last];
      } else {
        assert init[|init|..] == [] && h[c..] == [];
      }
    }
  }

  /** In an ordered history the window is what lies from here on. */
  ghost function WindowStart(h: seq<Entry>, now: nat): (b: nat)
    ensures b <= |h|
  {
    Max(FirstFresh(h, now), |h| - APPLIED_MAX_ITEMS)
  }

  lemma WindowIsSuffix(h: seq<Entry>, now: nat)
    requires Ordered(h)
    ensures Window(h, now) == h[WindowStart(h, now)..]
  {
    FilterIsSuffix(h, now, FirstFresh(h, now));
  }

  lemma FreshFromThere(h: seq<Entry>, now: nat, i: nat)
    requires Ordered(h) && i < |h|
    ensures Fresh(h[i], now) <==> FirstFresh(h, now) <= i
  {
  }

  lemma StartOfSuffix(h: seq<Entry>, now: nat, b: nat)
    requires Ordered(h) && b <= WindowStart(h, now)
    ensures b + WindowStart(h[b..], now) == WindowStart(h, now)
  {
    var c, d := FirstFresh(h, now), FirstFresh(h[b..], now);
    if d < |h| - b {
      FreshFromThere(h, now, b + d);
    }
    if 0 < d {
      assert h[b..][d - 1] == h[b + d - 1];
      FreshFromThere(h, now, b + d - 1);
    }
  }

  lemma SuffixHasSameWindow(h: seq<Entry>, now: nat, b: nat)
    requires Ordered(h) && b <= WindowStart(h, now)
    ensures Window(h[b..], now) == Window(h, now)
  {
    WindowIsSuffix(h, now);
    WindowIsSuffix(h[b..], now);
    StartOfSuffix(h, now, b);
    assert h[b..][WindowStart(h[b..], now)..] == h[WindowStart(h, now)..];
  }

  lemma StartMovesOn(h: seq<Entry>, earlier: nat, more: seq<Entry>, now: nat)
    requires Ordered(h + more) && earlier <= now
    ensures WindowStart(h, earlier) <= WindowStart(h + more, now)
  {
    var c := FirstFresh(h + more, now);
    assert c < |h| ==> (h + more)[c] == h[c];
  }

  lemma DropOfConcat(h: seq<Entry>, more: seq<Entry>, b: nat)
    requires b <= |h|
    ensures h[b..] + more == (h + more)[b..]
    ensures Ordered(h + more) ==> Ordered(h)
  {
    assert forall i | 0 <= i < |h| :: (h + more)[i] == h[i];
  }

  /** Trimming the list now and then loses nothing a single trim at the end
      would keep. */
  lemma WindowStep(h: seq<Entry>, earlier: nat, more: seq<Entry>, now: nat)
    requires Ordered(h + more) && earlier <= now
    ensures Window(Window(h, earlier) + more, now) == Window(h + more, now)
  {
    var b := WindowStart(h, earlier);
    DropOfConcat(h, more, b);
    WindowIsSuffix(h, earlier);
    StartMovesOn(h, earlier, more, now);
    SuffixHasSameWindow(h + more, now, b);
  }

  /** An action is remembered as long as it is at most 14 days old and among the
      last 50. */
  ghost predicate Remembered(h: seq<Entry>, actionKey: string, now: nat) {
    exists i | 0 <= i < |h| :: h[i].actionKey == actionKey && Fresh(h[i], now) && |h| - i <= APPLIED_MAX_ITEMS
  }

  predicate Lists(s: seq<Entry>, actionKey: string) { exists i | 0 <= i < |s| :: s[i].actionKey == actionKey }

  lemma {:induction false} ListsSuffix(h: seq<Entry>, b: nat, actionKey: string)
    requires b <= |h|
    ensures Lists(h[b..], actionKey) <==> exists i | b <= i < |h| :: h[i].actionKey == actionKey
  {
    if i :| b <= i < |h| && h[i].actionKey == actionKey {
      assert h[b..][i - b] == h[i];
    }
    if k :| 0 <= k < |h[b..]| && h[b..][k].actionKey == actionKey {
      assert h[b + k] == h[b..][k];
    }
  }

  lemma WindowRemembers(h: seq<Entry>, actionKey: string, now: nat)
    requires Ordered(h)
    ensures Lists(Window(h, now), actionKey) <==> Remembered(h, actionKey, now)
  {
    WindowIsSuffix(h, now);
    ListsSuffix(h, WindowStart(h, now), actionKey);
    forall i | 0 <= i < |h| ensures Fresh(h[i], now) <==> FirstFresh(h, now) <= i {
      FreshFromThere(h, now, i);
    }
  }
}

/** The file-backed identity store; every operation is one read, change and
    write of the record array (identityStore.js 113-289). */
module IdentityStore {
  import opened Basics
  import opened AppliedWindow

  const LAST_SEEN_TTL_MS := 86400000

  datatype PendingStatus = PENDING | FAILED | APPLIED

  /** `expiresAt` is the parsed date, None when there is none or it is no date. */
  datatype Pending = Pending(
    pedidoId: string, status: PendingStatus, routerId: Option<string>, expiresAt: Option<int>,
    attempts: nat, failCode: Option<string>, failedAt: Option<nat>, nextEligibleAt: Option<nat>)

  datatype LastSeen = LastSeen(ip: Option<string>, mac: Option<string>, routerId: Option<string>, ts: nat)

  datatype Record = Record(
    sid: string, lastSeen: Option<LastSeen>, pending: Option<Pending>, applied: seq<Entry>, updatedAt: nat)

  /** A value that is there and not empty. */
  predicate Given(a: Option<string>) { a.Some? && a.value != "" }

  function Or(a: Option<string>, b: Option<string>): Option<string> { if Given(a) then a else b }

  // ------------------------------------------------------- the record array

  /** findIndex */
  function IndexOf(all: seq<Record>, sid: string): (idx: Option<nat>)
    ensures idx.Some? ==> idx.value < |all| && all[idx.value].sid == sid
    ensures idx.None? ==> forall i | 0 <= i < |all| :: all[i].sid != sid
  {
    if all == [] then None
    else if all[0].sid == sid then Some(0)
    else
      var idx := IndexOf(all[1..], sid);
      if idx.Some? then Some(idx.value + 1) else None
  }

  function Find(all: seq<Record>, sid: string): (r: Option<Record>)
    ensures r.Some? ==> r.value.sid == sid
  {
    var idx := IndexOf(all, sid);
    if idx.Some? then Some(all[idx.value]) else None
  }

  ghost predicate Apart(all: seq<Record>, i: nat, j: nat)
    requires i < |all| && j < |all|
  {
    all[i].sid != all[j].sid
  }

  ghost predicate Distinct(all: seq<Record>) { forall i, j | 0 <= i < j < |all| :: Apart(all, i, j) }

  /** The record replaced, or added at the end. */
  function Put(all: seq<Record>, r: Record): seq<Record> {
    var idx := IndexOf(all, r.sid);
    if idx.Some? then all[idx.value := r] else all + [r]
  }

  lemma IndexOfIs(all: seq<Record>, i: nat)
    requires Distinct(all) && i < |all|
    ensures IndexOf(all, all[i].sid) == Some(i)
  {
    var k := IndexOf(all, all[i].sid).value;
    assert k < i ==> Apart(all, k, i);
    assert i < k ==> Apart(all, i, k);
  }

  lemma DistinctAfterPut(all: seq<Record>, r: Record)
    requires Distinct(all)
    ensures Distinct(Put(all, r))
  {
    var after := Put(all, r);
    forall i, j | 0 <= i < j < |after| ensures Apart(after, i, j) {
      if j < |all| {
        assert Apart(all, i, j);
        var idx := IndexOf(all, r.sid);
        if idx.Some? && idx.value < j {
          assert Apart(all, idx.value, j);
        }
        if idx.Some? && i < idx.value {
          assert Apart(all, i, idx.value);
        }
      }
    }
  }

  lemma FindAfterPut(all: seq<Record>, r: Record, sid: string)
    requires Distinct(all)
    ensures Distinct(Put(all, r))
    ensures Find(Put(all, r), sid) == if sid == r.sid then Some(r) else Find(all, sid)
  {
    DistinctAfterPut(all, r);
    var after := Put(all, r);
    var idx := IndexOf(all, sid);
    if sid == r.sid {
      IndexOfIs(after, if idx.Some? then idx.value else |all|);
    } else if idx.Some? {
      IndexOfIs(after, idx.value);
    }
  }

  // -------------------------------------------------------------- operations

  function Fetch(all: seq<Record>, sid: string, now: nat): (r: Record)
    ensures r.sid == sid
  {
    var r := Find(all, sid);
    if r.Some? then r.value else Record(sid, None, None, [], now)
  }

  function GetPending(all: seq<Record>, sid: string): Option<Pending> {
    var r := Find(all, sid);
    if r.None? || r.value.pending.None? || r.value.pending.value.status == APPLIED then None else r.value.pending
  }

  function IsApplied(all: seq<Record>, sid: string, actionKey: string): bool {
    var r := Find(all, sid);
    r.Some? && Lists(r.value.applied, actionKey)
  }

  function WithLastSeen(r: Record, ip: Option<string>, mac: Option<string>, routerId: Option<string>,
                        now: nat): Record {
    var was := if r.lastSeen.Some? then r.lastSeen.value else LastSeen(None, None, None, now);
    r.(lastSeen := Some(LastSeen(Or(ip, was.ip), Or(mac, was.mac), Or(routerId, was.routerId), now)), updatedAt := now)
  }

  /** The record has a pending payment for this order. */
  predicate Awaits(all: seq<Record>, sid: string, pedidoId: string) {
    var r := Find(all, sid);
    r.Some? && r.value.pending.Some? && r.value.pending.value.pedidoId == pedidoId
  }

  function WithFailed(all: seq<Record>, sid: string, pedidoId: string, failCode: string, attempts: nat,
                      nextEligibleAt: nat, now: nat): seq<Record>
  {
    if !Awaits(all, sid, pedidoId) then all
    else
      var r := Fetch(all, sid, now);
      Put(all, r.(pending := Some(r.pending.value.(status := FAILED, failCode := Some(failCode), failedAt := Some(now),
                                                   attempts := attempts, nextEligibleAt := Some(nextEligibleAt))),
                  updatedAt := now))
  }

  function WithPendingApplied(all: seq<Record>, sid: string, pedidoId: string, now: nat): seq<Record> {
    if !Awaits(all, sid, pedidoId) then all
    else
      var r := Fetch(all, sid, now);
      Put(all, r.(pending := Some(r.pending.value.(status := APPLIED, failCode := None, failedAt := None,
                                                   nextEligibleAt := None)),
                  updatedAt := now))
  }

  function WithApplied(all: seq<Record>, sid: string, actionKey: string, now: nat): seq<Record>
    requires Find(all, sid).Some?
  {
    var r := Fetch(all, sid, now);
    Put(all, r.(applied := Window(r.applied + [Entry(actionKey, now)], now), updatedAt := now))
  }

  function WithPending(all: seq<Record>, sid: string, pending: Pending, now: nat): seq<Record> {
    Put(all, Fetch(all, sid, now).(pending := Some(pending), updatedAt := now))
  }

  function Pruned(r: Record, now: nat): Record {
    r.(lastSeen := if r.lastSeen.Some? && r.lastSeen.value.ts != 0 && now - r.lastSeen.value.ts > LAST_SEEN_TTL_MS
                   then None else r.lastSeen,
       pending := if r.pending.Some? && r.pending.value.expiresAt.Some? && r.pending.value.expiresAt.value < now
                  then None else r.pending,
       applied := Window(r.applied, now),
       updatedAt := now)
  }

  // ------------------------------------------- what the operations come to

  /** A visit: what it knows replaces what was known, the rest stays. */
  lemma SeenIs(all: seq<Record>, sid: string, ip: Option<string>, mac: Option<string>, routerId: Option<string>,
               now: nat)
    requires Distinct(all)
    ensures var before := Fetch(all, sid, now);
            var after := Put(all, WithLastSeen(before, ip, mac, routerId, now));
            && Find(after, sid).Some?
            && var r := Find(after, sid).value;
               && r.pending == before.pending && r.applied == before.applied && r.lastSeen.Some?
               && r.lastSeen.value.ts == now
               && (Given(ip) ==> r.lastSeen.value.ip == ip)
               && (Given(mac) ==> r.lastSeen.value.mac == mac)
               && (Given(routerId) ==> r.lastSeen.value.routerId == routerId)
               && (before.lastSeen.Some? ==>
                     && (!Given(ip) ==> r.lastSeen.value.ip == before.lastSeen.value.ip)
                     && (!Given(mac) ==> r.lastSeen.value.mac == before.lastSeen.value.mac)
                     && (!Given(routerId) ==> r.lastSeen.value.routerId == before.lastSeen.value.routerId))
  {
    FindAfterPut(all, WithLastSeen(Fetch(all, sid, now), ip, mac, routerId, now), sid);
  }

  /** A sighting is pruned after a day, a payment once it has expired. */
  lemma PrunedIs(r: Record, now: nat)
    ensures var after := Pruned(r, now);
            && after.sid == r.sid && after.applied == Window(r.applied, now)
            && after.lastSeen in {None, r.lastSeen} && after.pending in {None, r.pending}
            && (r.lastSeen.Some? ==>
                  (after.lastSeen.Some? <==> r.lastSeen.value.ts == 0 || now <= r.lastSeen.value.ts + 86400000))
            && (r.pending.Some? ==>
                  (after.pending.Some? <==> r.pending.value.expiresAt.None? || now <= r.pending.value.expiresAt.value))
  {
  }

  /** A payment that comes in replaces the client's, and an action applied joins its
      list; nothing else of the record moves but its date. */
  lemma WrittenIs(all: seq<Record>, sid: string, pending: Pending, actionKey: string, now: nat)
    requires Distinct(all)
    ensures Find(WithPending(all, sid, pending, now), sid) ==
            Some(Fetch(all, sid, now).(pending := Some(pending), updatedAt := now))
    ensures Find(all, sid).Some? ==>
              var r := Find(all, sid).value;
              Find(WithApplied(all, sid, actionKey, now), sid) ==
              Some(r.(applied := Window(r.applied + [Entry(actionKey, now)], now), updatedAt := now))
  {
    FindAfterPut(all, Fetch(all, sid, now).(pending := Some(pending), updatedAt := now), sid);
    if Find(all, sid).Some? {
      var r := Find(all, sid).value;
      FindAfterPut(all, r.(applied := Window(r.applied + [Entry(actionKey, now)], now), updatedAt := now), sid);
    }
  }

  /** A payment marked: its order, router and expiry stay, its status and what
      goes with it change; a payment for another order stays as it is. */
  lemma MarkedIs(all: seq<Record>, sid: string, pedidoId: string, code: string, attempts: nat, eligibleAt: nat,
                 now: nat)
    requires Distinct(all) && Find(all, sid).Some?
    ensures var before := Find(all, sid).value;
            var failed, applied := Find(WithFailed(all, sid, pedidoId, code, attempts, eligibleAt, now), sid),
                                   Find(WithPendingApplied(all, sid, pedidoId, now), sid);
            if before.pending.None? || before.pending.value.pedidoId != pedidoId
            then failed == Some(before) && applied == Some(before)
            else
              var p := before.pending.value;
              && failed == Some(before.(updatedAt := now, pending := Some(Pending(
                   pedidoId, FAILED, p.routerId, p.expiresAt, attempts, Some(code), Some(now), Some(eligibleAt)))))
              && applied == Some(before.(updatedAt := now, pending := Some(Pending(
                   pedidoId, APPLIED, p.routerId, p.expiresAt, p.attempts, None, None, None))))
  {
    var r := Find(all, sid).value;
    if Awaits(all, sid, pedidoId) {
      var p := r.pending.value;
      var failed := p.(status := FAILED, failCode := Some(code), failedAt := Some(now), attempts := attempts,
                       nextEligibleAt := Some(eligibleAt));
      FindAfterPut(all, r.(pending := Some(failed), updatedAt := now), sid);
      var applied := p.(status := APPLIED, failCode := None, failedAt := None, nextEligibleAt := None);
      FindAfterPut(all, r.(pending := Some(applied), updatedAt := now), sid);
    }
  }

  // --------------------------------------------------------------- the class

  /** The record's list is what its complete history leaves after the trim at `t`. */
  ghost predicate Kept(r: Record, h: seq<Entry>, t: nat, last: nat) {
    && Ordered(h) && t <= last
    && (forall k | 0 <= k < |h| :: h[k].at <= last)
    && r.applied == Window(h, t)
  }

  /** A payment is not pending without its order. */
  ghost predicate Named(r: Record) { r.pending.Some? ==> r.pending.value.pedidoId != "" }

  ghost predicate OrdersNamed(all: seq<Record>) { forall i | 0 <= i < |all| :: Named(all[i]) }

  lemma KeptAfterApply(r: Record, h: seq<Entry>, t: nat, last: nat, actionKey: string, now: nat)
    requires Kept(r, h, t, last) && last <= now
    ensures var e := Entry(actionKey, now);
            Kept(r.(applied := Window(r.applied + [e], now), updatedAt := now), h + [e], now, now)
  {
    WindowStep(h, t, [Entry(actionKey, now)], now);
  }

  lemma KeptAfterPrune(r: Record, h: seq<Entry>, t: nat, last: nat, now: nat)
    requires Kept(r, h, t, last) && last <= now
    ensures Kept(Pruned(r, now), h, now, now)
  {
    WindowStep(h, t, [], now);
    assert h + [] == h && Window(h, t) + [] == Window(h, t);
  }

  ghost predicate Sound(all: seq<Record>, i: nat, history: map<string, seq<Entry>>, trimmedAt: map<string, nat>,
                        last: nat)
    requires i < |all|
  {
    && Named(all[i])
    && all[i].sid in history && all[i].sid in trimmedAt
    && Kept(all[i], history[all[i].sid], trimmedAt[all[i].sid], last)
  }

  ghost predicate Coherent(all: seq<Record>, history: map<string, seq<Entry>>, trimmedAt: map<string, nat>, last: nat) {
    Distinct(all) && forall i | 0 <= i < |all| :: Sound(all, i, history, trimmedAt, last)
  }

  lemma CoherentNamed(all: seq<Record>, history: map<string, seq<Entry>>, trimmedAt: map<string, nat>, last: nat)
    requires Coherent(all, history, trimmedAt, last)
    ensures OrdersNamed(all)
  {
    forall i | 0 <= i < |all| ensures Named(all[i]) {
      assert Sound(all, i, history, trimmedAt, last);
    }
  }

  lemma PendingNamed(all: seq<Record>, sid: string)
    requires OrdersNamed(all) && GetPending(all, sid).Some?
    ensures GetPending(all, sid).value.pedidoId != ""
  {
    assert Named(all[IndexOf(all, sid).value]);
  }

  lemma CoherentAfterUpdate(all: seq<Record>, history: map<string, seq<Entry>>, trimmedAt: map<string, nat>, last: nat,
                            idx: nat, r: Record, h: seq<Entry>, t: nat, now: nat)
    requires Coherent(all, history, trimmedAt, last) && last <= now
    requires idx < |all| && IndexOf(all, r.sid) == Some(idx) && Kept(r, h, t, now) && Named(r)
    ensures Coherent(all[idx := r], history[r.sid := h], trimmedAt[r.sid := t], now)
  {
    DistinctAfterPut(all, r);
    var after, history', trimmedAt' := all[idx := r], history[r.sid := h], trimmedAt[r.sid := t];
    forall i | 0 <= i < |after| ensures Sound(after, i, history', trimmedAt', now) {
      if i != idx {
        assert Sound(all, i, history, trimmedAt, last);
        assert i < idx ==> Apart(all, i, idx);
        assert idx < i ==> Apart(all, idx, i);
      }
    }
  }

  lemma CoherentAfterAdd(all: seq<Record>, history: map<string, seq<Entry>>, trimmedAt: map<string, nat>, last: nat,
                         r: Record, now: nat)
    requires Coherent(all, history, trimmedAt, last) && last <= now
    requires IndexOf(all, r.sid).None? && r.applied == [] && Named(r)
    ensures Coherent(all + [r], history[r.sid := []], trimmedAt[r.sid := now], now)
  {
    DistinctAfterPut(all, r);
    var after, history', trimmedAt' := all + [r], history[r.sid := []], trimmedAt[r.sid := now];
    forall i | 0 <= i < |after| ensures Sound(after, i, history', trimmedAt', now) {
      if i < |all| {
        assert Sound(all, i, history, trimmedAt, last);
      }
    }
  }

  /** A pending order cannot be marked without a sid and an order. */
  datatype Outcome = Threw | Returned(done: bool)

  class IdentityStore {
    var all: seq<Record>
    ghost var history: map<string, seq<Entry>>   // every action ever applied, per sid
    ghost var trimmedAt: map<string, nat>        // when its list was last trimmed
    ghost var last: nat                          // when the store was last written

    /** Every stored list is the window of the complete history at its latest trim. */
    ghost predicate Valid()
      reads this
    {
      Coherent(all, history, trimmedAt, last)
    }

    ghost function History(sid: string): seq<Entry>
      reads this
    {
      if sid in history then history[sid] else []
    }

    ghost function TrimmedAt(sid: string): nat
      reads this
    {
      if sid in trimmedAt then trimmedAt[sid] else 0
    }

    constructor ()
      ensures Valid() && all == [] && history == map[] && last == 0
    {
      all, history, trimmedAt, last := [], map[], map[], 0;
    }

    /** Write back a record whose applied list is as it was. */
    method Write(r: Record, now: nat)
      requires Valid() && last <= now
      requires r.applied == Fetch(all, r.sid, now).applied
      requires Named(r)
      modifies this
      ensures Valid() && last == now
      ensures all == Put(old(all), r)
      ensures history == if Find(old(all), r.sid).Some? then old(history) else old(history)[r.sid := []]
      ensures trimmedAt == if Find(old(all), r.sid).Some? then old(trimmedAt) else old(trimmedAt)[r.sid := now]
    {
      var idx := IndexOf(all, r.sid);
      if idx.Some? {
        assert Sound(all, idx.value, history, trimmedAt, last);
        ghost var h, t := history[r.sid], trimmedAt[r.sid];
        CoherentAfterUpdate(all, history, trimmedAt, last, idx.value, r, h, t, now);
        assert history[r.sid := h] == history && trimmedAt[r.sid := t] == trimmedAt;
        all := all[idx.value := r];
      } else {
        CoherentAfterAdd(all, history, trimmedAt, last, r, now);
        all := all + [r];
        history := history[r.sid := []];
        trimmedAt := trimmedAt[r.sid := now];
      }
      last := now;
    }

    method UpsertLastSeen(sid: string, ip: Option<string>, mac: Option<string>, routerId: Option<string>, now: nat)
      returns (out: Outcome)
      requires Valid() && last <= now
      modifies this
      ensures Valid() && old(last) <= last <= now
      ensures out == if sid == "" then Threw else Returned(true)
      ensures all == if out.Threw? then old(all)
                     else Put(old(all), WithLastSeen(Fetch(old(all), sid, now), ip, mac, routerId, now))
    {
      if sid == "" {
        return Threw;
      }
      CoherentNamed(all, history, trimmedAt, last);
      Write(WithLastSeen(Fetch(all, sid, now), ip, mac, routerId, now), now);
      return Returned(true);
    }

    method MarkPending(sid: string, pending: Pending, now: nat) returns (out: Outcome)
      requires Valid() && last <= now
      modifies this
      ensures Valid() && old(last) <= last <= now
      ensures out == if sid == "" || pending.pedidoId == "" then Threw else Returned(true)
      ensures all == if out.Threw? then old(all) else WithPending(old(all), sid, pending, now)
    {
      if sid == "" || pending.pedidoId == "" {
        return Threw;
      }
      Write(Fetch(all, sid, now).(pending := Some(pending), updatedAt := now), now);
      return Returned(true);
    }

    method MarkPendingFailed(sid: string, pedidoId: string, failCode: string, attempts: nat,
                             nextEligibleAt: nat, now: nat)
      returns (out: Outcome)
      requires Valid() && last <= now
      modifies this
      ensures Valid() && old(last) <= last <= now
      ensures out == if sid == "" || pedidoId == "" then Threw else Returned(Awaits(old(all), sid, pedidoId))
      ensures all == if out.Threw? then old(all)
                     else WithFailed(old(all), sid, pedidoId, failCode, attempts, nextEligibleAt, now)
    {
      if sid == "" || pedidoId == "" {
        return Threw;
      }
      var idx := IndexOf(all, sid);
      if idx.None? || all[idx.value].pending.None? || all[idx.value].pending.value.pedidoId != pedidoId {
        return Returned(false);
      }
      var rec := all[idx.value];
      assert Sound(all, idx.value, history, trimmedAt, last);
      Write(rec.(pending := Some(rec.pending.value.(status := FAILED, failCode := Some(failCode), failedAt := Some(now),
                                                    attempts := attempts, nextEligibleAt := Some(nextEligibleAt))),
                 updatedAt := now), now);
      return Returned(true);
    }

    method MarkPendingApplied(sid: string, pedidoId: string, now: nat) returns (out: Outcome)
      requires Valid() && last <= now
      modifies this
      ensures Valid() && old(last) <= last <= now
      ensures out == if sid == "" || pedidoId == "" then Threw else Returned(Awaits(old(all), sid, pedidoId))
      ensures all == if out.Threw? then old(all) else WithPendingApplied(old(all), sid, pedidoId, now)
    {
      if sid == "" || pedidoId == "" {
        return Threw;
      }
      var idx := IndexOf(all, sid);
      if idx.None? || all[idx.value].pending.None? || all[idx.value].pending.value.pedidoId != pedidoId {
        return Returned(false);
      }
      var rec := all[idx.value];
      assert Sound(all, idx.value, history, trimmedAt, last);
      Write(rec.(pending := Some(rec.pending.value.(status := APPLIED, failCode := None, failedAt := None,
                                                    nextEligibleAt := None)),
                 updatedAt := now), now);
      return Returned(true);
    }

    method MarkApplied(sid: string, actionKey: string, now: nat) returns (out: Outcome)
      requires Valid() && last <= now
      modifies this
      ensures Valid() && old(last) <= last <= now
      ensures out == if sid == "" || actionKey == "" || Find(old(all), sid).None? then Threw else Returned(true)
      ensures out.Threw? ==> all == old(all) && history == old(history) && trimmedAt == old(trimmedAt)
      ensures out.Returned? ==>
                && all == WithApplied(old(all), sid, actionKey, now)
                && history == old(history)[sid := old(History(sid)) + [Entry(actionKey, now)]]
                && trimmedAt == old(trimmedAt)[sid := now]
    {
      var idx := IndexOf(all, sid);
      if sid == "" || actionKey == "" || idx.None? {
        return Threw;
      }
      var rec := all[idx.value];
      assert Sound(all, idx.value, history, trimmedAt, last);
      KeptAfterApply(rec, history[sid], trimmedAt[sid], last, actionKey, now);
      var applied := rec.applied + [Entry(actionKey, now)];
      applied := LastItems(Filter(applied, now));
      rec := rec.(applied := applied, updatedAt := now);
      ghost var h := history[sid] + [Entry(actionKey, now)];
      CoherentAfterUpdate(all, history, trimmedAt, last, idx.value, rec, h, now, now);
      history := history[sid := h];
      trimmedAt := trimmedAt[sid := now];
      all := all[idx.value := rec];
      last := now;
      return Returned(true);
    }

    method Prune(now: nat) returns (count: nat)
      requires Valid() && last <= now
      modifies this
      ensures Valid() && last == now && count == |old(all)|
      ensures |all| == |old(all)| && forall i | 0 <= i < |all| :: all[i] == Pruned(old(all)[i], now)
      ensures history == old(history) && trimmedAt == map sid | sid in old(trimmedAt) :: now
    {
      var pruned: seq<Record> := [];
      for i := 0 to |all|
        invariant |pruned| == i && forall k | 0 <= k < i :: pruned[k] == Pruned(all[k], now)
      {
        pruned := pruned + [Pruned(all[i], now)];
      }
      ghost var trimmed := map sid | sid in trimmedAt :: now;
      forall i, j | 0 <= i < j < |all| ensures Apart(pruned, i, j) {
        assert Apart(all, i, j);
      }
      forall i | 0 <= i < |all| ensures Sound(pruned, i, history, trimmed, now) {
        assert Sound(all, i, history, trimmedAt, last);
        KeptAfterPrune(all[i], history[all[i].sid], trimmedAt[all[i].sid], last, now);
      }
      all := pruned;
      trimmedAt := trimmed;
      last := now;
      return |pruned|;
    }

    /** Whether the action is in the complete history, at most 14 days old at the
        latest trim and among the last 50. */
    method IsActionApplied(sid: string, actionKey: string) returns (found: bool)
      requires Valid()
      ensures found == (sid != "" && actionKey != "" && IsApplied(all, sid, actionKey))
      ensures found <==> sid != "" && actionKey != "" && Find(all, sid).Some?
                         && Remembered(History(sid), actionKey, TrimmedAt(sid))
    {
      var r := Find(all, sid);
      if sid == "" || actionKey == "" || r.None? {
        return false;
      }
      assert Sound(all, IndexOf(all, sid).value, history, trimmedAt, last);
      WindowRemembers(history[sid], actionKey, trimmedAt[sid]);
      return Lists(r.value.applied, actionKey);
    }
  }
}
