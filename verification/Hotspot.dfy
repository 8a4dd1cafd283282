/** The ip-binding table of one RouterOS router (hotspotManager.js). */
module Hotspot {
  import opened Basics

  const BYPASSED := "bypassed"

  datatype Binding = Binding(address: string, kind: string, comment: string)

  predicate Bypasses(b: Binding, ip: string) { b.address == ip && b.kind == BYPASSED }

  function CountBypassed(table: seq<Binding>, ip: string): nat {
    if table == [] then 0
    else CountBypassed(table[..|table| - 1], ip) + if Bypasses(table[|table| - 1], ip) then 1 else 0
  }

  ghost predicate BypassAt(table: seq<Binding>, i: nat, ip: string)
    requires i < |table|
  {
    table[i].address == ip && table[i].kind == "bypassed"
  }

  /** How many rows bind the IP. */
  lemma {:induction false} CountIs(table: seq<Binding>, ip: string)
    ensures CountBypassed(table, ip) == |set i | 0 <= i < |table| && BypassAt(table, i, ip)|
  {
    if table != [] {
      var n := |table| - 1;
      var init := table[..n];
      CountIs(init, ip);
      assert forall i | 0 <= i < n :: BypassAt(init, i, ip) <==> BypassAt(table, i, ip);
      var before := set i | 0 <= i < n && BypassAt(init, i, ip);
      var all := set i | 0 <= i < |table| && BypassAt(table, i, ip);
      assert all == before + if BypassAt(table, n, ip) then {n} else {};
    }
  }

  lemma CountAppend(table: seq<Binding>, b: Binding, ip: string)
    ensures CountBypassed(table + [b], ip) == CountBypassed(table, ip) + if Bypasses(b, ip) then 1 else 0
  {
    assert (table + [b])[..|table|] == table;
  }

  lemma {:induction false} CountZero(table: seq<Binding>, ip: string)
    ensures CountBypassed(table, ip) == 0 <==> forall b | b in table :: !Bypasses(b, ip)
  {
    if table != [] {
      CountZero(table[..|table| - 1], ip);
      assert table == table[..|table| - 1] + [table[|table| - 1]];
    }
  }

  /** How one command sent to the router went. A command whose reply is lost may
      or may not have taken effect. */
  datatype Delivery = Acked | LostAfterEffect | NotDelivered

  /** What a call of authorizeSessionOnRouter leaves behind. */
  function AfterAuthorize(table: seq<Binding>, ip: string, comment: string, printing: Delivery,
                          adding: Delivery): seq<Binding> {
    if printing.Acked? && CountBypassed(table, ip) == 0 && !adding.NotDelivered?
    then table + [Binding(ip, BYPASSED, comment)] else table
  }

  class HotspotRouter {
    var bindings: seq<Binding>

    constructor (table: seq<Binding>)
      ensures bindings == table
    {
      bindings := table;
    }

    /** The row the print reply is searched for. */
    method FindBypassed(ip: string) returns (row: Option<Binding>)
      ensures row.None? <==> CountBypassed(bindings, ip) == 0
      ensures row.Some? ==> row.value in bindings && row.value.address == ip && row.value.kind == "bypassed"
    {
      CountZero(bindings, ip);
      var i := 0;
      while i < |bindings|
        invariant 0 <= i <= |bindings|
        invariant forall k | 0 <= k < i :: !Bypasses(bindings[k], ip)
      {
        if Bypasses(bindings[i], ip) {
          return Some(bindings[i]);
        }
        i := i + 1;
      }
      return None;
    }

    /** Print, then add only when no bypassed binding for the IP was printed.
        A call that reports success leaves the IP bound, and no call makes a
        second binding. */
    method AuthorizeSessionOnRouter(ip: string, comment: string, printing: Delivery, adding: Delivery)
      returns (ok: bool)
      modifies this
      ensures bindings == AfterAuthorize(old(bindings), ip, comment, printing, adding)
      ensures bindings == old(bindings) || bindings == old(bindings) + [Binding(ip, BYPASSED, comment)]
      ensures ok ==> CountBypassed(bindings, ip) >= 1
      ensures CountBypassed(bindings, ip) <= Max(1, CountBypassed(old(bindings), ip))
      ensures !ok ==> printing != Acked || (CountBypassed(old(bindings), ip) == 0 && adding != Acked)
    {
      if printing != Acked {
        return false;
      }
      var row := FindBypassed(ip);
      if row.Some? {
        return true;
      }
      if adding != NotDelivered {
        CountAppend(bindings, Binding(ip, BYPASSED, comment), ip);
        bindings := bindings + [Binding(ip, BYPASSED, comment)];
      }
      return adding == Acked;
    }
  }
}
