/** The breadth-first row extractor of lib/hotspotParsers.js 5-42. */
module RowExtractor {
  import opened Basics

  /** A value as JavaScript sees it. A missing field is Falsy; `tag` stands for
      the other fields of an object. */
  datatype Json =
    | Falsy
    | Scalar(text: string)
    | List(items: seq<Json>)
    | Object(tag: string, results: Json, data: Json)

  ghost function Size(j: Json): nat {
    match j
    case Falsy => 1
    case Scalar(_) => 1
    case List(items) => 1 + SizeAll(items)
    case Object(_, results, data) => 1 + Size(results) + Size(data)
  }

  ghost function SizeAll(js: seq<Json>): nat { if js == [] then 0 else Size(js[0]) + SizeAll(js[1..]) }

  lemma {:induction false} SizeConcat(a: seq<Json>, b: seq<Json>)
    ensures SizeAll(a + b) == SizeAll(a) + SizeAll(b)
  {
    if a == [] {
      assert a + b == b;
    } else {
      assert (a + b)[1..] == a[1..] + b;
      SizeConcat(a[1..], b);
    }
  }

  /** The row an item yields on the spot. */
  function RowOf(item: Json): seq<Json> {
    match item
    case Object(_, _, data) => if data.List? then [] else if data.Object? then [data] else [item]
    case _ => []
  }

  /** The items it sends to the back of the queue. */
  function KidsOf(item: Json): (kids: seq<Json>)
    ensures SizeAll(kids) < Size(item)
  {
    match item
    case List(items) => items
    case Object(_, _, data) => if data.List? then data.items else []
    case _ => []
  }

  function RowsOf(items: seq<Json>): seq<Json> { if items == [] then [] else RowOf(items[0]) + RowsOf(items[1..]) }

  function Kids(items: seq<Json>): (kids: seq<Json>)
    ensures SizeAll(kids) <= SizeAll(items) && (items != [] ==> SizeAll(kids) < SizeAll(items))
  {
    if items == [] then []
    else
      SizeConcat(KidsOf(items[0]), Kids(items[1..]));
      KidsOf(items[0]) + Kids(items[1..])
  }

  // ------------------------------------------------------------ two references

  /** Level by level: the rows among these items, then those one level down. */
  function LevelOrder(items: seq<Json>): seq<Json>
    decreases SizeAll(items)
  {
    if items == [] then [] else RowsOf(items) + LevelOrder(Kids(items))
  }

  /** Depth first: an item's own row, then everything below it. */
  function Flatten(items: seq<Json>): seq<Json>
    decreases SizeAll(items)
  {
    if items == [] then []
    else
      RowOf(items[0]) + Flatten(KidsOf(items[0])) + Flatten(items[1..])
  }

  // ------------------------------------------------------- what the rows are

  /** A row as RouterOS sends it: an object with nothing more in it. */
  predicate Plain(j: Json) { j.Object? && !j.data.List? && !j.data.Object? }

  /** A command's result, as the driver gives it: its rows are its data. */
  predicate CommandResult(j: Json) {
    j.Object? && j.data.List? && forall i | 0 <= i < |j.data.items| :: Plain(j.data.items[i])
  }

  /** All the rows of the results, command by command. */
  function DataOf(results: seq<Json>): seq<Json> {
    if results == [] then []
    else (if results[0].Object? && results[0].data.List? then results[0].data.items else []) + DataOf(results[1..])
  }

  lemma {:induction false} PlainRows(rows: seq<Json>)
    requires forall i | 0 <= i < |rows| :: Plain(rows[i])
    ensures RowsOf(rows) == rows && Kids(rows) == [] && LevelOrder(rows) == rows
  {
    if rows != [] {
      PlainRows(rows[1..]);
    }
  }

  lemma {:induction false} ResultRows(results: seq<Json>, last: Json)
    requires (forall i | 0 <= i < |results| :: CommandResult(results[i])) && Plain(last)
    ensures RowsOf(results + [last]) == [last] && Kids(results + [last]) == DataOf(results)
    ensures forall i | 0 <= i < |DataOf(results)| :: Plain(DataOf(results)[i])
  {
    if results == [] {
      assert results + [last] == [last] && [last][1..] == [];
    } else {
      assert (results + [last])[1..] == results[1..] + [last];
      ResultRows(results[1..], last);
    }
  }

  /** What a reply of the router gives: every row of every command, in order,
      behind the reply itself. */
  lemma ReplyRows(reply: Json)
    requires reply.Object? && reply.results.List? && !reply.data.List? && !reply.data.Object?
    requires forall i | 0 <= i < |reply.results.items| :: CommandResult(reply.results.items[i])
    ensures LevelOrder(Initial(reply)) == [reply] + DataOf(reply.results.items)
  {
    ResultRows(reply.results.items, reply);
    PlainRows(DataOf(reply.results.items));
  }

  /** Where an object is looked for rows: its data, if that is a list, and then it
      is none itself; its data, if that is an object; or itself. */
  lemma ItemIs(item: Json)
    ensures item.Falsy? || item.Scalar? ==> RowOf(item) == [] && KidsOf(item) == []
    ensures item.List? ==> RowOf(item) == [] && KidsOf(item) == item.items
    ensures item.Object? && item.data.List? ==> RowOf(item) == [] && KidsOf(item) == item.data.items
    ensures item.Object? && item.data.Object? ==> RowOf(item) == [item.data] && KidsOf(item) == []
    ensures Plain(item) ==> RowOf(item) == [item] && KidsOf(item) == []
  {
  }

  /** What the queue starts with, for every kind of value. */
  lemma StartIs(result: Json)
    ensures result.Falsy? ==> Initial(result) == []
    ensures result.List? ==> Initial(result) == result.items
    ensures result.Scalar? ==> Initial(result) == [result]
    ensures result.Object? && !result.results.List? && !result.data.List? ==> Initial(result) == [result]
    ensures result.Object? && !result.results.List? && result.data.List? ==> Initial(result) == result.data.items
    ensures result.Object? && result.results.List? && result.data.List? ==>
              Initial(result) == result.results.items + result.data.items
  {
  }

  // --------------------------------------------------------------- the queue

  lemma Shrinks(queue: seq<Json>)
    requires queue != []
    ensures SizeAll(queue[1..] + KidsOf(queue[0])) < SizeAll(queue)
  {
    SizeConcat(queue[1..], KidsOf(queue[0]));
  }

  /** What the queue will still yield. */
  ghost function Outcome(queue: seq<Json>): seq<Json>
    decreases SizeAll(queue)
  {
    if queue == [] then []
    else
      Shrinks(queue);
      RowOf(queue[0]) + Outcome(queue[1..] + KidsOf(queue[0]))
  }

  lemma Requeue(level: seq<Json>, next: seq<Json>, kids: seq<Json>)
    requires level != []
    ensures (level + next)[0] == level[0] && (level + next)[1..] + kids == level[1..] + (next + kids)
  {
  }

  /** With the items left at this level in front and those found so far for the
      next level behind, the queue finishes the level and goes down. */
  lemma {:induction false} OutcomeOfLevel(level: seq<Json>, next: seq<Json>)
    ensures Outcome(level + next) == RowsOf(level) + Outcome(next + Kids(level))
    decreases |level|
  {
    if level == [] {
      assert level + next == next + Kids(level);
    } else {
      var kids := KidsOf(level[0]);
      Requeue(level, next, kids);
      OutcomeOfLevel(level[1..], next + kids);
      Assoc(next, kids, Kids(level[1..]));
      Assoc(RowOf(level[0]), RowsOf(level[1..]), Outcome(next + Kids(level)));
    }
  }

  lemma {:induction false} OutcomeIsLevelOrder(queue: seq<Json>)
    ensures Outcome(queue) == LevelOrder(queue)
    decreases SizeAll(queue)
  {
    if queue != [] {
      OutcomeOfLevel(queue, []);
      assert queue + [] == queue && [] + Kids(queue) == Kids(queue);
      OutcomeIsLevelOrder(Kids(queue));
    }
  }

  lemma {:induction false} FlattenConcat(a: seq<Json>, b: seq<Json>)
    ensures Flatten(a + b) == Flatten(a) + Flatten(b)
    decreases |a|
  {
    if a == [] {
      assert a + b == b;
    } else {
      assert (a + b)[1..] == a[1..] + b;
      FlattenConcat(a[1..], b);
    }
  }

  /** The queue yields every row the depth-first walk does, as often. */
  lemma {:induction false} OutcomeIsFlattened(queue: seq<Json>)
    ensures multiset(Outcome(queue)) == multiset(Flatten(queue))
    decreases SizeAll(queue)
  {
    if queue != [] {
      Shrinks(queue);
      OutcomeIsFlattened(queue[1..] + KidsOf(queue[0]));
      FlattenConcat(queue[1..], KidsOf(queue[0]));
    }
  }

  lemma LevelOrderIsFlattened(items: seq<Json>)
    ensures multiset(LevelOrder(items)) == multiset(Flatten(items))
  {
    OutcomeIsLevelOrder(items);
    OutcomeIsFlattened(items);
  }

  /** What the queue starts with. An object holding results but no data list
      queues itself behind them. */
  function Initial(result: Json): seq<Json> {
    match result
    case List(items) => items
    case Object(_, results, data) =>
      (if results.List? then results.items else []) + if data.List? then data.items else [result]
    case Scalar(_) => [result]
    case Falsy => []
  }

  lemma OutcomeStep(rows: seq<Json>, queue: seq<Json>)
    requires queue != []
    ensures rows + Outcome(queue) == rows + RowOf(queue[0]) + Outcome(queue[1..] + KidsOf(queue[0]))
    ensures SizeAll(queue[1..] + KidsOf(queue[0])) < SizeAll(queue)
  {
    Shrinks(queue);
  }

  /** One turn of the loop: the first item leaves the queue. */
  method TakeFirst(rows: seq<Json>, queue: seq<Json>) returns (rows': seq<Json>, queue': seq<Json>)
    requires queue != []
    ensures rows' == rows + RowOf(queue[0])
    ensures queue' == queue[1..] + KidsOf(queue[0])
  {
    var item := queue[0];
    rows', queue' := rows, queue[1..];
    if item.List? {
      queue' := queue' + item.items;
    } else if item.Object? {
      if item.data.List? {
        queue' := queue' + item.data.items;
      } else if item.data.Object? {
        rows' := rows' + [item.data];
      } else {
        rows' := rows' + [item];
      }
    }
  }

  /** The loop: the queue is taken apart until it is empty. */
  method Drain(start: seq<Json>) returns (rows: seq<Json>)
    ensures rows == Outcome(start)
  {
    var queue := start;
    rows := [];
    while queue != []
      invariant rows + Outcome(queue) == Outcome(start)
      decreases SizeAll(queue)
    {
      OutcomeStep(rows, queue);
      rows, queue := TakeFirst(rows, queue);
    }
  }

  /** Every row once, nearest the root first. */
  method ExtractRows(result: Json) returns (rows: seq<Json>)
    ensures rows == LevelOrder(Initial(result))
    ensures multiset(rows) == multiset(Flatten(Initial(result)))
  {
    var queue: seq<Json> := [];
    if result.List? {
      queue := queue + result.items;
    } else if !result.Falsy? {
      if result.Object? && result.results.List? {
        queue := queue + result.results.items;
      }
      if result.Object? && result.data.List? {
        queue := queue + result.data.items;
      } else {
        queue := queue + [result];
      }
    }
    assert queue == Initial(result);
    rows := Drain(queue);
    OutcomeIsLevelOrder(queue);
    LevelOrderIsFlattened(queue);
  }
}
