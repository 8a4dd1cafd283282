/** The peer table of a WireGuard interface and the calls that change it
    (wireguardManager.js 120-219). */
module WireguardManager {
  import opened Basics
  import opened AllowedIps

  type Key = string
  type Device = string
  type Ip = string

  /** The allowed addresses of every peer, as the kernel keeps them: each address
      once, with one peer only, written in the kernel's own way (`canon`). */
  type Table = map<Key, set<Ip>>

  /** Which device every key was added for (peers.meta.json). */
  type Meta = map<Key, Device>

  /** A peer as desired; `allowed` is in normal form. */
  datatype Item = Item(device: Device, key: Key, allowed: string)

  /** A line of `wg show dump`. */
  datatype Row = Row(key: Key, text: string)

  const NONE := "(none)"

  function CidrsOf(canon: Ip -> Ip, pieces: seq<Ip>): set<Ip> { set i | 0 <= i < |pieces| :: canon(pieces[i]) }

  function Cidrs(canon: Ip -> Ip, allowed: string): set<Ip> { CidrsOf(canon, Pieces(allowed)) }

  /** Addresses are printed once each, in any order. */
  ghost predicate Prints(text: string, ips: set<Ip>) {
    if ips == {} then text == NONE else multiset(Pieces(text)) == multiset(ips)
  }

  ghost predicate RowOk(table: Table, row: Row) { row.key in table && Prints(row.text, table[row.key]) }

  ghost predicate Listed(dump: seq<Row>, key: Key) { exists i | 0 <= i < |dump| :: dump[i].key == key }

  ghost predicate RowOkAt(table: Table, dump: seq<Row>, i: nat)
    requires i < |dump|
  {
    RowOk(table, dump[i])
  }

  ghost predicate DumpOf(table: Table, dump: seq<Row>) {
    && (forall i | 0 <= i < |dump| :: RowOkAt(table, dump, i))
    && (forall k | k in table :: Listed(dump, k))
  }

  lemma DumpedRow(table: Table, dump: seq<Row>, row: Row)
    requires DumpOf(table, dump) && row in dump
    ensures RowOk(table, row)
  {
    var i :| 0 <= i < |dump| && dump[i] == row;
    assert RowOkAt(table, dump, i);
  }

  /** The peer addPeer takes for the one it is about to add: it has the key, or
      was added for the device. */
  predicate Matches(meta: Meta, item: Item, row: Row) {
    row.key == item.key || (row.key in meta && meta[row.key] == item.device)
  }

  /** The peer there has the key, or is filed under the device; none before it does. */
  ghost predicate FirstMatch(meta: Meta, item: Item, dump: seq<Row>, i: nat)
    requires i < |dump|
  {
    && (dump[i].key == item.key || (dump[i].key in meta && meta[dump[i].key] == item.device))
    && NoneTaken(meta, item, dump, i)
  }

  ghost predicate NoneTaken(meta: Meta, item: Item, dump: seq<Row>, i: nat)
    requires i <= |dump|
  {
    forall j | 0 <= j < i :: dump[j].key != item.key && !(dump[j].key in meta && meta[dump[j].key] == item.device)
  }

  function FindRow(meta: Meta, item: Item, dump: seq<Row>): (found: Option<Row>)
    ensures found.Some? ==> exists i | 0 <= i < |dump| :: FirstMatch(meta, item, dump, i) && dump[i] == found.value
    ensures found.None? ==> NoneTaken(meta, item, dump, |dump|)
  {
    if dump == [] then None else if Matches(meta, item, dump[0]) then Some(dump[0]) else FindRow(meta, item, dump[1..])
  }

  /** Whether addPeer issues its command. */
  predicate Issues(meta: Meta, item: Item, dump: seq<Row>) {
    var existing := FindRow(meta, item, dump);
    existing.None? || existing.value.text != item.allowed
  }

  /** `wg set <iface> peer <key> allowed-ips <list>`: the list replaces the peer's,
      and its addresses leave every other peer. */
  function WithPeer(canon: Ip -> Ip, table: Table, item: Item): Table {
    (map k | k in table :: table[k] - Cidrs(canon, item.allowed))[item.key := Cidrs(canon, item.allowed)]
  }

  class WireguardManager {
    const canon: Ip -> Ip
    var table: Table
    var meta: Meta

    constructor (canon: Ip -> Ip)
      ensures table == map[] && meta == map[] && this.canon == canon
    {
      this.canon, table, meta := canon, map[], map[];
    }

    /** One addPeer with nothing else going on; `dump` is what listPeers shows. */
    method AddPeer(item: Item, dump: seq<Row>) returns (created: bool, updated: bool)
      requires DumpOf(table, dump)
      modifies this
      ensures table == if Issues(old(meta), item, dump) then WithPeer(canon, old(table), item) else old(table)
      ensures meta == old(meta)[item.key := item.device]
      ensures created <==> NoneTaken(old(meta), item, dump, |dump|)
      ensures created || updated <==> Issues(old(meta), item, dump)
      ensures item.key !in old(table) && (forall k | k in old(meta) :: old(meta)[k] != item.device) ==> created
    {
      created, updated := false, false;
      var existing := FindRow(meta, item, dump);
      if existing.Some? {
        DumpedRow(table, dump, existing.value);
        if existing.value.text != item.allowed {
          table := WithPeer(canon, table, item);
          updated := true;
        }
      } else {
        table := WithPeer(canon, table, item);
        created := true;
      }
      meta := meta[item.key := item.device];
    }

    method RemovePeer(device: Device) returns (removed: bool)
      modifies this
      ensures removed <==> exists k :: k in old(meta) && old(meta)[k] == device
      ensures !removed ==> table == old(table) && meta == old(meta)
      ensures removed ==> exists k :: k in old(meta) && old(meta)[k] == device
                                      && table == old(table) - {k} && meta == old(meta) - {k}
    {
      if k :| k in meta && meta[k] == device {
        table := table - {k};
        meta := meta - {k};
        return true;
      }
      return false;
    }
  }
}

/** One reconcile pass over a desired list, its addPeer and removePeer calls
    interleaved (reconciler.js 567-576, 673-741). */
module Convergence {
  import opened Basics
  import opened AllowedIps
  import opened WireguardManager
  import TenantScopes
  import Text

  /** Whether the pass finds an item out of step with the rows it looks at. */
  predicate NeedsSync(rows: seq<Row>, item: Item) {
    var row := FindRow(map[], item, rows);
    row.None? || Normalize(Normalize(row.value.text)) != item.allowed
  }

  function Where(f: Item -> bool, items: seq<Item>): seq<Item> {
    if items == [] then []
    else Where(f, items[..|items| - 1]) + if f(items[|items| - 1]) then [items[|items| - 1]] else []
  }

  lemma {:induction false} WhereIs(f: Item -> bool, items: seq<Item>, x: Item)
    ensures x in Where(f, items) <==> x in items && f(x)
  {
    if items != [] {
      WhereIs(f, items[..|items| - 1], x);
      assert items == items[..|items| - 1] + [items[|items| - 1]];
    }
  }

  function OutOfStep(rows: seq<Row>, desired: seq<Item>): seq<Item> { Where(item => NeedsSync(rows, item), desired) }

  method ToAddOrUpdate(rows: seq<Row>, desired: seq<Item>) returns (todo: seq<Item>)
    ensures todo == OutOfStep(rows, desired)
  {
    todo := [];
    var f := item => NeedsSync(rows, item);
    for i := 0 to |desired|
      invariant todo == Where(f, desired[..i])
    {
      assert desired[..i + 1][..i] == desired[..i];
      if f(desired[i]) {
        todo := todo + [desired[i]];
      }
    }
    assert desired[..|desired|] == desired;
  }

  /** The rows of the dump that a tenant's pass looks at. */
  ghost predicate PartOf(rows: seq<Row>, dump: seq<Row>) { forall i | 0 <= i < |rows| :: rows[i] in dump }

  lemma ShownRow(table: Table, dump: seq<Row>, rows: seq<Row>, row: Row)
    requires DumpOf(table, dump) && PartOf(rows, dump) && row in rows
    ensures RowOk(table, row)
  {
    var i :| 0 <= i < |rows| && rows[i] == row;
    assert rows[i] in dump;
    DumpedRow(table, dump, row);
  }

  // ------------------------------------------------- what a list can agree to

  ghost predicate NoRepeats(s: seq<Ip>) { forall i, j | 0 <= i < j < |s| :: s[i] != s[j] }

  ghost predicate ExactList(canon: Ip -> Ip, p: seq<Ip>) {
    NoRepeats(p) && forall i | 0 <= i < |p| :: canon(p[i]) == p[i]
  }

  /** The list names every address once and in the kernel's own way. */
  ghost predicate Exact(canon: Ip -> Ip, item: Item) { ExactList(canon, Pieces(item.allowed)) }

  ghost predicate Idempotent(canon: Ip -> Ip) { forall x :: canon(canon(x)) == canon(x) }

  /** A list as desired lists are: in normal form, and naming some address. */
  ghost predicate Sane(item: Item) {
    item.allowed == Normalize(item.allowed) && Pieces(item.allowed) != [] && NONE !in Pieces(item.allowed)
  }

  ghost predicate Agrees(canon: Ip -> Ip, table: Table, item: Item) {
    item.key in table && table[item.key] == Cidrs(canon, item.allowed)
  }

  ghost predicate Canonical(canon: Ip -> Ip, table: Table) {
    forall k, x | k in table && x in table[k] :: canon(x) == x
  }

  lemma {:induction false} CountOfDistinct(s: seq<Ip>, x: Ip)
    requires NoRepeats(s)
    ensures multiset(s)[x] <= 1
  {
    if s != [] {
      assert s == s[..|s| - 1] + [s[|s| - 1]];
      CountOfDistinct(s[..|s| - 1], x);
      assert s[|s| - 1] !in s[..|s| - 1];
    }
  }

  lemma {:induction false} RepeatsShow(s: seq<Ip>, i: nat, j: nat)
    requires i < j < |s| && s[i] == s[j]
    ensures multiset(s)[s[i]] >= 2
  {
    assert s == s[..j] + s[j..];
    assert s[..j][i] == s[i] && s[j..][0] == s[i];
    assert s[i] in multiset(s[..j]) && s[i] in multiset(s[j..]);
  }

  /** A list is what the kernel makes of it exactly when it repeats nothing and
      spells every address the kernel's way. */
  lemma CidrsAreTheList(canon: Ip -> Ip, p: seq<Ip>)
    requires Idempotent(canon)
    ensures multiset(CidrsOf(canon, p)) == multiset(p) <==> ExactList(canon, p)
  {
    var ips := CidrsOf(canon, p);
    if ExactList(canon, p) {
      forall x ensures multiset(ips)[x] == multiset(p)[x] {
        CountOfDistinct(p, x);
        assert x in p <==> x in ips;
        assert x in multiset(p) <==> x in p;
      }
    }
    if multiset(ips) == multiset(p) {
      forall i, j | 0 <= i < j < |p| ensures p[i] != p[j] {
        assert multiset(ips)[p[i]] <= 1;
        if p[i] == p[j] {
          RepeatsShow(p, i, j);
        }
      }
      forall i | 0 <= i < |p| ensures canon(p[i]) == p[i] {
        assert p[i] in multiset(p);
        assert p[i] in ips;
      }
    }
  }

  lemma ListOfCanonical(canon: Ip -> Ip, p: seq<Ip>, ips: set<Ip>)
    requires multiset(p) == multiset(ips) && forall x | x in ips :: canon(x) == x
    ensures CidrsOf(canon, p) == ips
  {
    forall x ensures x in p <==> x in ips {
      assert x in multiset(p) <==> x in multiset(ips);
    }
    forall x | x in ips ensures x in CidrsOf(canon, p) {
      var i :| 0 <= i < |p| && p[i] == x;
      assert canon(p[i]) == x;
    }
  }

  lemma PrintedPieces(text: string, ips: set<Ip>)
    requires Prints(text, ips) && ips != {}
    ensures multiset(Pieces(text)) == multiset(ips)
  {
  }

  /** Once the table agrees with an item, the item is in step exactly when the
      rows looked at list it and its own list is exact. */
  lemma InStepIff(canon: Ip -> Ip, table: Table, dump: seq<Row>, rows: seq<Row>, item: Item)
    requires Idempotent(canon) && DumpOf(table, dump) && PartOf(rows, dump) && Sane(item) && Agrees(canon, table, item)
    ensures NeedsSync(rows, item) <==> !(Listed(rows, item.key) && Exact(canon, item))
  {
    if Listed(rows, item.key) {
      ListedInStepIff(canon, table, dump, rows, item);
    }
  }

  lemma ListedInStepIff(canon: Ip -> Ip, table: Table, dump: seq<Row>, rows: seq<Row>, item: Item)
    requires Idempotent(canon) && DumpOf(table, dump) && PartOf(rows, dump) && Sane(item) && Agrees(canon, table, item)
    requires Listed(rows, item.key)
    ensures NeedsSync(rows, item) <==> !Exact(canon, item)
  {
    var row := FindRow(map[], item, rows).value;
    ShownRow(table, dump, rows, row);
    assert canon(Pieces(item.allowed)[0]) in Cidrs(canon, item.allowed);
    PrintedPieces(row.text, Cidrs(canon, item.allowed));
    NormalizeIdempotent(row.text);
    NormalizeIsCanonical(row.text, item.allowed);
    CidrsAreTheList(canon, Pieces(item.allowed));
  }

  lemma NoneIsNotListed(item: Item)
    requires Sane(item)
    ensures multiset(Pieces(NONE)) != multiset(Pieces(item.allowed))
  {
    NoneIsOnePiece();
    assert NONE in multiset(Pieces(NONE));
    assert NONE !in multiset(Pieces(item.allowed));
  }

  /** An item found in step agrees with the table. */
  lemma InStepAgrees(canon: Ip -> Ip, table: Table, item: Item, row: Row)
    requires Canonical(canon, table) && RowOk(table, row) && row.key == item.key && Sane(item)
    requires multiset(Pieces(row.text)) == multiset(Pieces(item.allowed))
    ensures Agrees(canon, table, item)
  {
    var ips := table[item.key];
    if ips == {} {
      NoneIsNotListed(item);
      assert false;
    }
    PrintedPieces(row.text, ips);
    ListOfCanonical(canon, Pieces(item.allowed), ips);
  }

  lemma NoneIsOnePiece()
    ensures Pieces(NONE) == [NONE]
  {
    var items := [NONE];
    assert Tidy(NONE);
    assert Text.Join(items, COMMA) == NONE;
    PiecesOfJoin(items);
    CleanOfTidy(items);
  }

  // ------------------------------------------------------------ state machine

  /** Where one addPeer call stands; it works with the meta file it read first. */
  datatype Pc = Waiting | Opened(meta: Meta) | Setting(meta: Meta) | Writing(meta: Meta) | Synced

  /** A removePeer call: the key it picked, and the meta file it read. */
  datatype Removal = Picked(key: Key, meta: Meta) | Gone(key: Key, meta: Meta)

  /** `calls` holds the desired items this pass adds or updates, by their place. */
  datatype State = State(table: Table, meta: Meta, calls: map<nat, Pc>, removals: map<nat, Removal>)

  datatype Action =
    | Open(i: nat)                   // addPeer reads the meta file
    | Show(i: nat, dump: seq<Row>)   // and, later, the dump
    | Set(i: nat)                    // wg set
    | Write(i: nat)                  // the meta file is written back
    | Pick(r: nat, key: Key)         // removePeer reads the meta file
    | Drop(r: nat)                   // wg set ... remove
    | Forget(r: nat)                 // the meta file is written back

  /** No command fails. */
  ghost predicate Enabled(desired: seq<Item>, s: State, a: Action) {
    match a
    case Open(i) => i in s.calls && s.calls[i] == Waiting
    case Show(i, dump) => i in s.calls && i < |desired| && s.calls[i].Opened? && DumpOf(s.table, dump)
    case Set(i) => i in s.calls && i < |desired| && s.calls[i].Setting?
    case Write(i) => i in s.calls && i < |desired| && s.calls[i].Writing?
    case Pick(r, key) => r !in s.removals && key in s.meta
    case Drop(r) => r in s.removals && s.removals[r].Picked?
    case Forget(r) => r in s.removals && s.removals[r].Gone?
  }

  ghost function Next(canon: Ip -> Ip, desired: seq<Item>, s: State, a: Action): State
    requires Enabled(desired, s, a)
  {
    match a
    case Open(i) => s.(calls := s.calls[i := Opened(s.meta)])
    case Show(i, dump) =>
      var m := s.calls[i].meta;
      s.(calls := s.calls[i := if Issues(m, desired[i], dump) then Setting(m) else Writing(m)])
    case Set(i) =>
      s.(table := WithPeer(canon, s.table, desired[i]), calls := s.calls[i := Writing(s.calls[i].meta)])
    case Write(i) =>
      s.(meta := s.calls[i].meta[desired[i].key := desired[i].device], calls := s.calls[i := Synced])
    case Pick(r, key) => s.(removals := s.removals[r := Picked(key, s.meta)])
    case Drop(r) =>
      var Picked(key, m) := s.removals[r];
      s.(table := s.table - {key}, removals := s.removals[r := Gone(key, m)])
    case Forget(r) =>
      var Gone(key, m) := s.removals[r];
      s.(meta := m - {key}, removals := s.removals - {r})
  }

  ghost predicate Run(canon: Ip -> Ip, desired: seq<Item>, s: State, acts: seq<Action>, t: State)
    decreases |acts|
  {
    if acts == [] then s == t
    else Enabled(desired, s, acts[0]) && Run(canon, desired, Next(canon, desired, s, acts[0]), acts[1..], t)
  }

  ghost predicate Other(desired: seq<Item>, i: nat, device: Device)
    requires i < |desired|
  {
    desired[i].device != device
  }

  ghost predicate SparesStep(desired: seq<Item>, s: State, a: Action)
    requires Enabled(desired, s, a)
  {
    a.Pick? ==> forall i | 0 <= i < |desired| :: Other(desired, i, s.meta[a.key])
  }

  /** Only peers of devices that are not desired are removed. */
  ghost predicate Spares(canon: Ip -> Ip, desired: seq<Item>, s: State, acts: seq<Action>)
    decreases |acts|
  {
    acts != [] && Enabled(desired, s, acts[0]) ==>
      SparesStep(desired, s, acts[0]) && Spares(canon, desired, Next(canon, desired, s, acts[0]), acts[1..])
  }

  // ---------------------------------------------------------------- invariant

  /** One key per device, in the list and wherever the meta file has been read:
      a desired key is filed under its own device, and no other key is. */
  ghost predicate OneKey(desired: seq<Item>, m: Meta) {
    forall i, k | 0 <= i < |desired| && k in m :: Filed(desired, m, i, k)
  }

  ghost predicate Filed(desired: seq<Item>, m: Meta, i: nat, k: Key)
    requires i < |desired| && k in m
  {
    m[k] == desired[i].device <==> k == desired[i].key
  }

  ghost predicate Separate(canon: Ip -> Ip, desired: seq<Item>, i: nat, j: nat)
    requires i < |desired| && j < |desired|
  {
    && desired[i].key != desired[j].key && desired[i].device != desired[j].device
    && Cidrs(canon, desired[i].allowed) !! Cidrs(canon, desired[j].allowed)
  }

  ghost predicate SaneAt(desired: seq<Item>, i: nat)
    requires i < |desired|
  {
    Sane(desired[i])
  }

  /** The desired list: separate items with sane address lists. */
  ghost predicate GoodList(canon: Ip -> Ip, desired: seq<Item>) {
    && Idempotent(canon)
    && (forall i | 0 <= i < |desired| :: SaneAt(desired, i))
    && (forall i, j | 0 <= i < |desired| && 0 <= j < |desired| && i != j :: Separate(canon, desired, i, j))
  }

  ghost predicate Pending(pc: Pc) { pc.Waiting? || pc.Opened? || pc.Setting? }

  /** Every item the pass leaves alone, or has been through, agrees. */
  ghost predicate ItemOk(canon: Ip -> Ip, desired: seq<Item>, s: State, i: nat)
    requires i < |desired|
  {
    !(i in s.calls && Pending(s.calls[i])) ==> Agrees(canon, s.table, desired[i])
  }

  ghost predicate CallOk(desired: seq<Item>, pc: Pc) { !pc.Waiting? && !pc.Synced? ==> OneKey(desired, pc.meta) }

  ghost predicate Unwanted(desired: seq<Item>, i: nat, key: Key)
    requires i < |desired|
  {
    desired[i].key != key
  }

  ghost predicate RemovalOk(desired: seq<Item>, r: Removal) {
    OneKey(desired, r.meta) && forall i | 0 <= i < |desired| :: Unwanted(desired, i, r.key)
  }

  ghost predicate Inv(canon: Ip -> Ip, desired: seq<Item>, s: State) {
    && Canonical(canon, s.table)
    && OneKey(desired, s.meta)
    && (forall i | i in s.calls :: i < |desired| && CallOk(desired, s.calls[i]))
    && (forall r | r in s.removals :: RemovalOk(desired, s.removals[r]))
    && (forall i | 0 <= i < |desired| :: ItemOk(canon, desired, s, i))
  }

  /** The peer addPeer finds is the item's own; and when its list is left alone,
      the table agrees already. */
  lemma NoCommandMeansAgreement(canon: Ip -> Ip, desired: seq<Item>, table: Table, m: Meta, i: nat, dump: seq<Row>)
    requires GoodList(canon, desired) && i < |desired| && Canonical(canon, table) && DumpOf(table, dump)
    requires OneKey(desired, m) && !Issues(m, desired[i], dump)
    ensures Agrees(canon, table, desired[i])
  {
    var row := FindRow(m, desired[i], dump).value;
    assert row.key != desired[i].key ==> Filed(desired, m, i, row.key);
    assert SaneAt(desired, i);
    DumpedRow(table, dump, row);
    InStepAgrees(canon, table, desired[i], row);
  }

  lemma ShowKeepsInv(canon: Ip -> Ip, desired: seq<Item>, s: State, i: nat, dump: seq<Row>)
    requires GoodList(canon, desired) && Inv(canon, desired, s) && Enabled(desired, s, Show(i, dump))
    ensures Inv(canon, desired, Next(canon, desired, s, Show(i, dump)))
  {
    var t := Next(canon, desired, s, Show(i, dump));
    assert CallOk(desired, s.calls[i]);
    if t.calls[i].Writing? {
      NoCommandMeansAgreement(canon, desired, s.table, s.calls[i].meta, i, dump);
    }
    forall j | 0 <= j < |desired| ensures ItemOk(canon, desired, t, j) {
      assert ItemOk(canon, desired, s, j);
    }
  }

  lemma CidrsCanonical(canon: Ip -> Ip, allowed: string)
    requires Idempotent(canon)
    ensures forall x | x in Cidrs(canon, allowed) :: canon(x) == x
  {
  }

  lemma SetKeepsInv(canon: Ip -> Ip, desired: seq<Item>, s: State, i: nat)
    requires GoodList(canon, desired) && Inv(canon, desired, s) && Enabled(desired, s, Set(i))
    ensures Inv(canon, desired, Next(canon, desired, s, Set(i)))
  {
    var t := Next(canon, desired, s, Set(i));
    assert CallOk(desired, s.calls[i]);
    CidrsCanonical(canon, desired[i].allowed);
    forall j | 0 <= j < |desired| ensures ItemOk(canon, desired, t, j) {
      assert ItemOk(canon, desired, s, j);
      if j != i {
        assert Separate(canon, desired, i, j);
      }
    }
  }

  lemma WriteKeepsInv(canon: Ip -> Ip, desired: seq<Item>, s: State, i: nat)
    requires GoodList(canon, desired) && Inv(canon, desired, s) && Enabled(desired, s, Write(i))
    ensures Inv(canon, desired, Next(canon, desired, s, Write(i)))
  {
    var t := Next(canon, desired, s, Write(i));
    assert CallOk(desired, s.calls[i]);
    forall j, k | 0 <= j < |desired| && k in t.meta ensures Filed(desired, t.meta, j, k) {
      if j != i {
        assert Separate(canon, desired, i, j);
      }
      if k != desired[i].key {
        assert Filed(desired, s.calls[i].meta, j, k);
      }
    }
    forall j | 0 <= j < |desired| ensures ItemOk(canon, desired, t, j) {
      assert ItemOk(canon, desired, s, j);
    }
  }

  lemma RemovalKeepsInv(canon: Ip -> Ip, desired: seq<Item>, s: State, a: Action)
    requires GoodList(canon, desired) && Inv(canon, desired, s) && Enabled(desired, s, a)
    requires SparesStep(desired, s, a) && (a.Pick? || a.Drop? || a.Forget?)
    ensures Inv(canon, desired, Next(canon, desired, s, a))
  {
    var t := Next(canon, desired, s, a);
    if a.Pick? {
      forall j | 0 <= j < |desired| ensures Unwanted(desired, j, a.key) {
        assert Filed(desired, s.meta, j, a.key) && Other(desired, j, s.meta[a.key]);
      }
    } else {
      assert RemovalOk(desired, s.removals[a.r]);
    }
    if a.Forget? {
      forall j, k | 0 <= j < |desired| && k in t.meta ensures Filed(desired, t.meta, j, k) {
        assert Filed(desired, s.removals[a.r].meta, j, k);
      }
    }
    forall j | 0 <= j < |desired| ensures ItemOk(canon, desired, t, j) {
      assert ItemOk(canon, desired, s, j);
      if a.Drop? {
        assert Unwanted(desired, j, s.removals[a.r].key);
      }
    }
  }

  lemma NextKeepsInv(canon: Ip -> Ip, desired: seq<Item>, s: State, a: Action)
    requires GoodList(canon, desired) && Inv(canon, desired, s) && Enabled(desired, s, a) && SparesStep(desired, s, a)
    ensures Inv(canon, desired, Next(canon, desired, s, a))
  {
    match a
    case Open(i) =>
      forall j | 0 <= j < |desired| ensures ItemOk(canon, desired, Next(canon, desired, s, a), j) {
        assert ItemOk(canon, desired, s, j);
      }
    case Show(i, dump) => ShowKeepsInv(canon, desired, s, i, dump);
    case Set(i) => SetKeepsInv(canon, desired, s, i);
    case Write(i) => WriteKeepsInv(canon, desired, s, i);
    case _ => RemovalKeepsInv(canon, desired, s, a);
  }

  lemma {:induction false} RunKeepsInv(canon: Ip -> Ip, desired: seq<Item>, s: State, acts: seq<Action>, t: State)
    requires GoodList(canon, desired) && Inv(canon, desired, s)
    requires Run(canon, desired, s, acts, t) && Spares(canon, desired, s, acts)
    ensures Inv(canon, desired, t)
    decreases |acts|
  {
    if acts != [] {
      NextKeepsInv(canon, desired, s, acts[0]);
      RunKeepsInv(canon, desired, Next(canon, desired, s, acts[0]), acts[1..], t);
    }
  }

  // ----------------------------------------------------------------- theorems

  /** What an item's tenant looks at. */
  type View = nat -> seq<Row>

  predicate NeedsAt(seen: View, desired: seq<Item>, i: nat)
    requires i < |desired|
  {
    NeedsSync(seen(i), desired[i])
  }

  ghost predicate Views(seen: View, desired: seq<Item>, dump: seq<Row>) {
    forall i | 0 <= i < |desired| :: PartOf(seen(i), dump)
  }

  /** What a pass needs of the table and of the meta file. */
  ghost predicate Fit(canon: Ip -> Ip, desired: seq<Item>, table: Table, meta: Meta) {
    Canonical(canon, table) && OneKey(desired, meta)
  }

  /** A pass over the lists of all tenants starts: it will handle at least every
      item out of step with what its tenant looks at, and no call has begun. */
  ghost predicate Starts(desired: seq<Item>, dump: seq<Row>, seen: View, s: State) {
    && DumpOf(s.table, dump) && Views(seen, desired, dump) && s.removals == map[]
    && (forall i | i in s.calls :: i < |desired| && s.calls[i] == Waiting)
    && (forall i | 0 <= i < |desired| && NeedsAt(seen, desired, i) :: i in s.calls)
  }

  lemma StartsInInv(canon: Ip -> Ip, desired: seq<Item>, dump: seq<Row>, seen: View, s: State)
    requires GoodList(canon, desired) && Fit(canon, desired, s.table, s.meta) && Starts(desired, dump, seen, s)
    ensures Inv(canon, desired, s)
  {
    forall i | 0 <= i < |desired| ensures ItemOk(canon, desired, s, i) {
      if i !in s.calls {
        assert SaneAt(desired, i) && !NeedsAt(seen, desired, i) && PartOf(seen(i), dump);
        InStepWasRight(canon, s.table, dump, seen(i), desired[i]);
      }
    }
  }

  /** An item found in step agrees with the table. */
  lemma InStepWasRight(canon: Ip -> Ip, table: Table, dump: seq<Row>, rows: seq<Row>, item: Item)
    requires Canonical(canon, table) && DumpOf(table, dump) && PartOf(rows, dump) && Sane(item)
             && !NeedsSync(rows, item)
    ensures Agrees(canon, table, item)
  {
    var row := FindRow(map[], item, rows).value;
    ShownRow(table, dump, rows, row);
    NormalizeIdempotent(row.text);
    NormalizeIsCanonical(row.text, item.allowed);
    InStepAgrees(canon, table, item, row);
  }

  /** An item a later pass leaves alone. */
  ghost predicate Settled(canon: Ip -> Ip, seen: View, desired: seq<Item>, i: nat)
    requires i < |desired|
  {
    Listed(seen(i), desired[i].key) && Exact(canon, desired[i])
  }

  /** One pass makes the table agree: under whatever interleaving of the tenants'
      calls and whichever rows each of them looked at. */
  lemma OnePassAgrees(canon: Ip -> Ip, desired: seq<Item>, before: seq<Row>, first: View, s: State,
                      acts: seq<Action>, t: State)
    requires GoodList(canon, desired) && Fit(canon, desired, s.table, s.meta) && Starts(desired, before, first, s)
    requires Run(canon, desired, s, acts, t) && Spares(canon, desired, s, acts)
             && forall i | i in t.calls :: t.calls[i] == Synced
    ensures Fit(canon, desired, t.table, t.meta) && forall i | 0 <= i < |desired| :: Agrees(canon, t.table, desired[i])
  {
    StartsInInv(canon, desired, before, first, s);
    RunKeepsInv(canon, desired, s, acts, t);
    forall i | 0 <= i < |desired| ensures Agrees(canon, t.table, desired[i]) {
      assert ItemOk(canon, desired, t, i);
    }
  }

  /** After it a second pass finds exactly those items out of step which the rows
      looked at for them do not list, or whose own lists repeat an address or spell
      one differently from the kernel. */
  lemma OnePassConverges(canon: Ip -> Ip, desired: seq<Item>, before: seq<Row>, first: View, s: State,
                         acts: seq<Action>, t: State, after: seq<Row>, second: View)
    requires GoodList(canon, desired) && Fit(canon, desired, s.table, s.meta) && Starts(desired, before, first, s)
    requires Run(canon, desired, s, acts, t) && Spares(canon, desired, s, acts)
             && forall i | i in t.calls :: t.calls[i] == Synced
    requires DumpOf(t.table, after) && Views(second, desired, after)
    ensures forall i | 0 <= i < |desired| :: Agrees(canon, t.table, desired[i])
    ensures forall i | 0 <= i < |desired| :: NeedsAt(second, desired, i) <==> !Settled(canon, second, desired, i)
  {
    OnePassAgrees(canon, desired, before, first, s, acts, t);
    forall i | 0 <= i < |desired| ensures NeedsAt(second, desired, i) <==> !Settled(canon, second, desired, i) {
      assert SaneAt(desired, i) && PartOf(second(i), after);
      InStepIff(canon, t.table, after, second(i), desired[i]);
    }
  }

  // ---------------------------------------------------------- pass after pass

  /** A pass: what its dump shows, what of it is looked at, and its run. */
  datatype Pass = Pass(dump: seq<Row>, seen: View, first: State, acts: seq<Action>, last: State)

  ghost predicate Completes(canon: Ip -> Ip, desired: seq<Item>, p: Pass) {
    && Starts(desired, p.dump, p.seen, p.first)
    && Run(canon, desired, p.first, p.acts, p.last) && Spares(canon, desired, p.first, p.acts)
    && forall i | i in p.last.calls :: p.last.calls[i] == Synced
  }

  ghost predicate CompletesAt(canon: Ip -> Ip, desired: seq<Item>, ps: seq<Pass>, k: nat)
    requires k < |ps|
  {
    && Completes(canon, desired, ps[k])
    && (k > 0 ==> ps[k].first.table == ps[k - 1].last.table && ps[k].first.meta == ps[k - 1].last.meta)
  }

  /** Passes one after another, each from where the last one left table and meta. */
  ghost predicate Passes(canon: Ip -> Ip, desired: seq<Item>, ps: seq<Pass>) {
    && (ps != [] ==> Fit(canon, desired, ps[0].first.table, ps[0].first.meta))
    && forall k | 0 <= k < |ps| :: CompletesAt(canon, desired, ps, k)
  }

  lemma PassLeavesFit(canon: Ip -> Ip, desired: seq<Item>, p: Pass)
    requires GoodList(canon, desired) && Fit(canon, desired, p.first.table, p.first.meta)
    requires Completes(canon, desired, p)
    ensures Fit(canon, desired, p.last.table, p.last.meta)
  {
    OnePassAgrees(canon, desired, p.dump, p.seen, p.first, p.acts, p.last);
  }

  lemma NextPassFits(canon: Ip -> Ip, desired: seq<Item>, ps: seq<Pass>, k: nat)
    requires GoodList(canon, desired) && k + 1 < |ps|
    requires CompletesAt(canon, desired, ps, k) && CompletesAt(canon, desired, ps, k + 1)
    requires Fit(canon, desired, ps[k].first.table, ps[k].first.meta)
    ensures Fit(canon, desired, ps[k + 1].first.table, ps[k + 1].first.meta)
  {
    PassLeavesFit(canon, desired, ps[k]);
  }

  lemma {:induction false} EveryPassFits(canon: Ip -> Ip, desired: seq<Item>, ps: seq<Pass>, k: nat)
    requires GoodList(canon, desired) && Passes(canon, desired, ps) && k < |ps|
    ensures Fit(canon, desired, ps[k].first.table, ps[k].first.meta)
  {
    if k > 0 {
      EveryPassFits(canon, desired, ps, k - 1);
      NextPassFits(canon, desired, ps, k - 1);
    }
  }

  /** From the second pass on, every pass finds out of step exactly the items that
      are not settled. */
  lemma EveryLaterPass(canon: Ip -> Ip, desired: seq<Item>, ps: seq<Pass>, k: nat, i: nat)
    requires GoodList(canon, desired) && Passes(canon, desired, ps) && 0 < k < |ps| && i < |desired|
    ensures Agrees(canon, ps[k].first.table, desired[i])
    ensures NeedsAt(ps[k].seen, desired, i) <==> !Settled(canon, ps[k].seen, desired, i)
  {
    var p := ps[k - 1];
    EveryPassFits(canon, desired, ps, k - 1);
    assert CompletesAt(canon, desired, ps, k - 1) && CompletesAt(canon, desired, ps, k);
    OnePassConverges(canon, desired, p.dump, p.seen, p.first, p.acts, p.last, ps[k].dump, ps[k].seen);
  }

  // ------------------------------------------------------- a tenant's own pass

  /** The rows of the peers scoped to the tenant. */
  ghost predicate RowsOf(dump: seq<Row>, scoped: seq<TenantScopes.Peer>, rows: seq<Row>) {
    PartOf(rows, dump) && forall k :: Listed(rows, k) <==> Listed(dump, k) && HasPeer(scoped, k)
  }

  ghost predicate HasPeer(peers: seq<TenantScopes.Peer>, k: Key) { exists p :: p in peers && p.key == k }

  /** The peers of a dump, with the endpoints it shows. */
  ghost predicate PeersOf(dump: seq<Row>, actual: seq<TenantScopes.Peer>) {
    forall k :: Listed(dump, k) <==> HasPeer(actual, k)
  }

  /** A peer with the key is the tenant's to look at. */
  ghost predicate Owned(rules: TenantScopes.Rules, known: map<Key, string>, actual: seq<TenantScopes.Peer>,
                        tenant: string, k: Key) {
    exists p :: p in actual && p.key == k && TenantScopes.Owner(rules, known, p) == Some(tenant)
  }

  lemma OwnedIsScoped(rules: TenantScopes.Rules, known: map<Key, string>, actual: seq<TenantScopes.Peer>,
                      tenant: string, k: Key)
    ensures HasPeer(TenantScopes.Scoped(rules, known, actual, tenant), k) <==> Owned(rules, known, actual, tenant, k)
  {
    var scoped := TenantScopes.Scoped(rules, known, actual, tenant);
    if p :| p in scoped && p.key == k {
      TenantScopes.ScopedIs(rules, known, actual, tenant, p);
    }
    if p :| p in actual && p.key == k && TenantScopes.Owner(rules, known, p) == Some(tenant) {
      TenantScopes.ScopedIs(rules, known, actual, tenant, p);
    }
  }

  /** From the second pass on, a tenant finds an item of its own out of step in
      every pass, unless the item's list is exact and its peer scoped to that very
      tenant: one scoped to another is set anew for ever. */
  lemma TenantConverges(canon: Ip -> Ip, desired: seq<Item>, ps: seq<Pass>, k: nat, i: nat, rules: TenantScopes.Rules,
                        known: map<Key, string>, actual: seq<TenantScopes.Peer>, tenant: string, mine: seq<Item>)
    requires GoodList(canon, desired) && Passes(canon, desired, ps) && 0 < k < |ps| && i < |desired|
             && desired[i] in mine
    requires PeersOf(ps[k].dump, actual)
    requires RowsOf(ps[k].dump, TenantScopes.Scoped(rules, known, actual, tenant), ps[k].seen(i))
    ensures desired[i] in OutOfStep(ps[k].seen(i), mine) <==>
              !(Exact(canon, desired[i]) && Owned(rules, known, actual, tenant, desired[i].key))
  {
    var rows := ps[k].seen(i);
    WhereIs(item => NeedsSync(rows, item), mine, desired[i]);
    EveryLaterPass(canon, desired, ps, k, i);
    assert CompletesAt(canon, desired, ps, k);
    OwnedIsScoped(rules, known, actual, tenant, desired[i].key);
  }

  // ------------------------------------------------- why the conditions stand

  /** The kernel keeps every address with one peer. */
  ghost predicate Disjoint(table: Table) { forall k, l | k in table && l in table && k != l :: table[k] !! table[l] }

  lemma CommandsKeepDisjoint(canon: Ip -> Ip, table: Table, item: Item)
    requires Disjoint(table)
    ensures Disjoint(WithPeer(canon, table, item))
  {
  }

  /** The table after a call that has the interface to itself. */
  function AfterAdd(canon: Ip -> Ip, table: Table, meta: Meta, item: Item, dump: seq<Row>): Table {
    if Issues(meta, item, dump) then WithPeer(canon, table, item) else table
  }

  /** What such a call makes of its item: it agrees unless another peer, filed under
      the item's device, is found first and reads just as the item should. */
  lemma AgreesAfterAddIff(canon: Ip -> Ip, table: Table, meta: Meta, item: Item, dump: seq<Row>)
    requires Canonical(canon, table) && Disjoint(table) && DumpOf(table, dump) && Sane(item)
    ensures var found := FindRow(meta, item, dump);
            Agrees(canon, AfterAdd(canon, table, meta, item, dump), item)
            <==> found.None? || found.value.key == item.key || found.value.text != item.allowed
  {
    if !Issues(meta, item, dump) {
      var row := FindRow(meta, item, dump).value;
      DumpedRow(table, dump, row);
      InStepAgrees(canon, table, item.(key := row.key), row);
      assert canon(Pieces(item.allowed)[0]) in table[row.key];
    }
  }

  lemma StepBefore(canon: Ip -> Ip, desired: seq<Item>, s: State, a: Action, acts: seq<Action>, t: State)
    requires Enabled(desired, s, a) && Run(canon, desired, Next(canon, desired, s, a), acts, t)
    ensures Run(canon, desired, s, [a] + acts, t)
  {
    assert ([a] + acts)[1..] == acts;
  }

  lemma WriteCompletes(canon: Ip -> Ip, desired: seq<Item>, s: State, i: nat) returns (t: State)
    requires i in s.calls && i < |desired| && s.calls[i].Writing?
    ensures Run(canon, desired, s, [Write(i)], t)
    ensures t == s.(meta := s.calls[i].meta[desired[i].key := desired[i].device], calls := s.calls[i := Synced])
  {
    t := Next(canon, desired, s, Write(i));
    StepBefore(canon, desired, s, Write(i), [], t);
    assert [Write(i)] + [] == [Write(i)];
  }

  lemma ShownCompletes(canon: Ip -> Ip, desired: seq<Item>, s: State, i: nat, dump: seq<Row>)
    returns (acts: seq<Action>, t: State)
    requires i in s.calls && i < |desired| && s.calls[i].Opened? && DumpOf(s.table, dump)
    ensures Run(canon, desired, s, acts, t)
    ensures var m := s.calls[i].meta;
            t == s.(table := AfterAdd(canon, s.table, m, desired[i], dump),
                    meta := m[desired[i].key := desired[i].device], calls := s.calls[i := Synced])
  {
    var s1 := Next(canon, desired, s, Show(i, dump));
    if s1.calls[i].Setting? {
      var s2 := Next(canon, desired, s1, Set(i));
      t := WriteCompletes(canon, desired, s2, i);
      StepBefore(canon, desired, s1, Set(i), [Write(i)], t);
      acts := [Set(i)] + [Write(i)];
    } else {
      t := WriteCompletes(canon, desired, s1, i);
      acts := [Write(i)];
    }
    StepBefore(canon, desired, s, Show(i, dump), acts, t);
    acts := [Show(i, dump)] + acts;
  }

  /** A call can always be carried through, whatever others have left standing: the
      table is then as a call with the interface to itself would leave it. */
  lemma AddCompletes(canon: Ip -> Ip, desired: seq<Item>, s: State, i: nat, dump: seq<Row>)
    returns (acts: seq<Action>, t: State)
    requires i in s.calls && i < |desired| && s.calls[i] == Waiting && DumpOf(s.table, dump)
    ensures Run(canon, desired, s, acts, t)
    ensures t == s.(table := AfterAdd(canon, s.table, s.meta, desired[i], dump),
                    meta := s.meta[desired[i].key := desired[i].device], calls := s.calls[i := Synced])
  {
    var s1 := Next(canon, desired, s, Open(i));
    acts, t := ShownCompletes(canon, desired, s1, i, dump);
    StepBefore(canon, desired, s, Open(i), acts, t);
    acts := [Open(i)] + acts;
    assert s.calls[i := s1.calls[i]][i := Synced] == s.calls[i := Synced];
  }

  /** Nothing but the one call goes on, and it is shown this dump. */
  ghost predicate Lone(acts: seq<Action>, dump: seq<Row>) {
    forall i | 0 <= i < |acts| :: acts[i] in {Open(0), Show(0, dump), Set(0), Write(0)}
  }

  /** Where such a call is, having begun in `s`. */
  ghost predicate Underway(canon: Ip -> Ip, s: State, item: Item, dump: seq<Row>, u: State) {
    && u.calls.Keys == {0}
    && match u.calls[0]
       case Waiting => u.table == s.table && u.meta == s.meta
       case Opened(m) => u.table == s.table && m == s.meta
       case Setting(m) => u.table == s.table && m == s.meta && Issues(m, item, dump)
       case Writing(m) => u.table == AfterAdd(canon, s.table, s.meta, item, dump) && m == s.meta
       case Synced =>
         u.table == AfterAdd(canon, s.table, s.meta, item, dump) && u.meta == s.meta[item.key := item.device]
  }

  lemma LoneStep(canon: Ip -> Ip, s: State, item: Item, dump: seq<Row>, u: State, a: Action)
    requires Underway(canon, s, item, dump, u) && a in {Open(0), Show(0, dump), Set(0), Write(0)}
             && Enabled([item], u, a)
    ensures Underway(canon, s, item, dump, Next(canon, [item], u, a))
  {
    assert [item][0] == item;
  }

  lemma {:induction false} LoneCall(canon: Ip -> Ip, s: State, item: Item, dump: seq<Row>, u: State,
                                    acts: seq<Action>, t: State)
    requires Underway(canon, s, item, dump, u) && Lone(acts, dump) && Run(canon, [item], u, acts, t)
    ensures Underway(canon, s, item, dump, t)
    decreases |acts|
  {
    if acts != [] {
      var a := acts[0];
      assert a in {Open(0), Show(0, dump), Set(0), Write(0)};
      LoneStep(canon, s, item, dump, u, a);
      LoneCall(canon, s, item, dump, Next(canon, [item], u, a), acts[1..], t);
    }
  }

  /** One key per device is needed, exactly so far: of all passes in which an item is
      alone, those leave it out of step in which a peer with another key is found
      for it that was filed under its device and reads just as it should. The next
      pass finds it again. */
  lemma LonePassAgreesIff(canon: Ip -> Ip, s: State, item: Item, dump: seq<Row>, acts: seq<Action>, t: State,
                          after: seq<Row>)
    requires Canonical(canon, s.table) && Disjoint(s.table) && DumpOf(s.table, dump) && Sane(item)
    requires s.calls == map[0 := Waiting] && Lone(acts, dump) && Run(canon, [item], s, acts, t)
             && t.calls == map[0 := Synced]
    ensures var found := FindRow(s.meta, item, dump);
            Agrees(canon, t.table, item)
            <==> found.None? || found.value.key == item.key || found.value.text != item.allowed
    ensures t.meta == s.meta[item.key := item.device]
    ensures DumpOf(t.table, after) && !Agrees(canon, t.table, item) ==> NeedsSync(after, item)
  {
    LoneCall(canon, s, item, dump, s, acts, t);
    AgreesAfterAddIff(canon, s.table, s.meta, item, dump);
    if DumpOf(t.table, after) && !NeedsSync(after, item) && !Issues(s.meta, item, dump) {
      InStepWasRight(canon, t.table, after, after, item);
    }
  }

  // ---------------------------------------------------- removals after the adds

  /** A removal that has the interface to itself takes a key of its device out of
      table and meta file, and nothing else. */
  lemma LoneRemoval(canon: Ip -> Ip, desired: seq<Item>, s: State, r: nat, key: Key)
    requires Enabled(desired, s, Pick(r, key))
    ensures var s1 := Next(canon, desired, s, Pick(r, key));
            && Enabled(desired, s1, Drop(r))
            && var s2 := Next(canon, desired, s1, Drop(r));
               && Enabled(desired, s2, Forget(r))
               && Next(canon, desired, s2, Forget(r)) == s.(table := s.table - {key}, meta := s.meta - {key})
  {
    assert s.removals[r := Picked(key, s.meta)][r := Gone(key, s.meta)] - {r} == s.removals;
  }

  ghost predicate Removing(acts: seq<Action>) {
    forall i | 0 <= i < |acts| :: acts[i].Pick? || acts[i].Drop? || acts[i].Forget?
  }

  /** Some removal of the run finds a key filed under the device. */
  ghost predicate Picks(canon: Ip -> Ip, desired: seq<Item>, s: State, acts: seq<Action>, device: Device)
    decreases |acts|
  {
    && acts != [] && Enabled(desired, s, acts[0])
    && ((acts[0].Pick? && s.meta[acts[0].key] == device)
        || Picks(canon, desired, Next(canon, desired, s, acts[0]), acts[1..], device))
  }

  ghost predicate RemovalsFit(desired: seq<Item>, s: State) {
    OneKey(desired, s.meta) && forall r | r in s.removals :: OneKey(desired, s.removals[r].meta)
  }

  ghost predicate Aims(s: State, r: nat, key: Key)
    requires r in s.removals
  {
    s.removals[r].Picked? && s.removals[r].key == key
  }

  /** The item's peer is out of the table, or about to be. */
  ghost predicate Doomed(s: State, key: Key) { key !in s.table || exists r | r in s.removals :: Aims(s, r, key) }

  lemma RemovalStep(canon: Ip -> Ip, desired: seq<Item>, s: State, a: Action, i: nat)
    requires RemovalsFit(desired, s) && i < |desired| && Enabled(desired, s, a) && (a.Pick? || a.Drop? || a.Forget?)
    ensures var t, item := Next(canon, desired, s, a), desired[i];
            && RemovalsFit(desired, t)
            && (Doomed(t, item.key) <==> Doomed(s, item.key) || (a.Pick? && s.meta[a.key] == item.device))
            && (item.key in t.table ==> item.key in s.table && t.table[item.key] == s.table[item.key])
  {
    var t, item := Next(canon, desired, s, a), desired[i];
    if a.Pick? {
      assert Filed(desired, s.meta, i, a.key);
      assert Aims(t, a.r, a.key);
    } else {
      assert OneKey(desired, s.removals[a.r].meta);
    }
    if a.Forget? {
      forall j, k | 0 <= j < |desired| && k in t.meta ensures Filed(desired, t.meta, j, k) {
        assert Filed(desired, s.removals[a.r].meta, j, k);
      }
    }
    forall r | r in s.removals && !(a.Drop? && r == a.r) && !(a.Forget? && r == a.r)
      ensures r in t.removals && (Aims(t, r, item.key) <==> Aims(s, r, item.key))
    {
    }
  }

  lemma {:induction false} RemovalRun(canon: Ip -> Ip, desired: seq<Item>, i: nat, s: State, acts: seq<Action>,
                                      t: State)
    requires RemovalsFit(desired, s) && i < |desired| && Removing(acts) && Run(canon, desired, s, acts, t)
    ensures Doomed(t, desired[i].key) <==>
              Doomed(s, desired[i].key) || Picks(canon, desired, s, acts, desired[i].device)
    ensures desired[i].key in t.table ==>
              desired[i].key in s.table && t.table[desired[i].key] == s.table[desired[i].key]
    decreases |acts|
  {
    if acts != [] {
      assert acts[0].Pick? || acts[0].Drop? || acts[0].Forget?;
      RemovalStep(canon, desired, s, acts[0], i);
      RemovalRun(canon, desired, i, Next(canon, desired, s, acts[0]), acts[1..], t);
    }
  }

  /** Removal goes by device: once the adds are through, an item still agrees after
      the removals exactly if none of them was of its device. */
  lemma RemovalsSpareIff(canon: Ip -> Ip, desired: seq<Item>, i: nat, s: State, acts: seq<Action>, t: State)
    requires OneKey(desired, s.meta) && i < |desired| && Agrees(canon, s.table, desired[i]) && s.removals == map[]
    requires Removing(acts) && Run(canon, desired, s, acts, t) && t.removals == map[]
    ensures Agrees(canon, t.table, desired[i]) <==> !Picks(canon, desired, s, acts, desired[i].device)
  {
    RemovalRun(canon, desired, i, s, acts, t);
  }

  /** Two peers that share an address cannot both agree: a command for one puts
      the other out of step. */
  lemma SharedAddressNeverAgrees(canon: Ip -> Ip, table: Table, a: Item, b: Item, ip: Ip)
    requires a.key != b.key && ip in Cidrs(canon, a.allowed) && ip in Cidrs(canon, b.allowed)
    ensures Agrees(canon, WithPeer(canon, table, a), a)
    ensures !Agrees(canon, WithPeer(canon, table, a), b)
  {
    var after := WithPeer(canon, table, a);
    if b.key in after {
      assert ip !in after[b.key];
    }
  }
}
