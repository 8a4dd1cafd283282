/** The `!re` row reader of mikrotikApi.js 90-96. */
module Rows {
  import opened Basics
  import opened Text
  import opened WireFormat

  type Row = map<Word, Word>

  const EQUALS: Byte := 0x3d

  const PROTO: Word := [0x5f, 0x5f, 0x70, 0x72, 0x6f, 0x74, 0x6f, 0x5f, 0x5f]  // __proto__

  /** Setting a property of the row, a plain object: setting `__proto__` to a
      string does nothing. */
  function SetField(row: Row, key: Word, value: Word): Row { if key == PROTO then row else row[key := value] }

  /** One word of a reply added to the row; a word without `=` after its first
      byte adds nothing. */
  function AddField(row: Row, w: Word): Row {
    match IndexFrom(w, EQUALS, 1)
    case None => row
    case Some(eq) => SetField(row, w[1..eq], w[eq + 1..])
  }

  function RowOf(words: seq<Word>): Row {
    if words == [] then map[] else AddField(RowOf(words[..|words| - 1]), words[|words| - 1])
  }

  /** The word is a marker byte, the field's name, `=` and its value. */
  ghost predicate Names(w: Word, key: Word, value: Word) {
    w != [] && EQUALS !in key && w[1..] == key + [EQUALS] + value
  }

  lemma NamesOne(w: Word, key: Word, value: Word)
    requires Names(w, key, value)
    ensures IndexFrom(w, EQUALS, 1) == Some(|key| + 1) && w[1..|key| + 1] == key && w[|key| + 2..] == value
  {
    assert forall i | 1 <= i < |w| :: w[i] == w[1..][i - 1];
    assert w[|key| + 1] == EQUALS;
    assert forall i | 1 <= i <= |key| :: w[i] == key[i - 1];
    var at := IndexFrom(w, EQUALS, 1);
    assert at.Some?;
    assert w[1..][..|key|] == key && w[1..][|key| + 1..] == value;
  }

  lemma NamedAt(w: Word)
    ensures IndexFrom(w, EQUALS, 1).Some? ==>
              var at := IndexFrom(w, EQUALS, 1).value;
              Names(w, w[1..at], w[at + 1..])
  {
    var found := IndexFrom(w, EQUALS, 1);
    if found.Some? {
      assert w[1..] == w[1..found.value] + [EQUALS] + w[found.value + 1..];
    }
  }

  /** The last word that names a key gives its value; a key no word names is not
      in the row. */
  ghost predicate LastNamed(words: seq<Word>, key: Word, value: Word, i: nat) {
    i < |words| && Names(words[i], key, value) && forall j, v | i < j < |words| :: !Names(words[j], key, v)
  }

  ghost predicate Holds(row: Row, key: Word, value: Word) { key in row && row[key] == value }

  ghost predicate Told(words: seq<Word>, key: Word, value: Word) {
    key != PROTO && exists i: nat :: LastNamed(words, key, value, i)
  }

  lemma {:induction false} RowIs(words: seq<Word>, key: Word, value: Word)
    ensures Holds(RowOf(words), key, value) <==> Told(words, key, value)
  {
    if words != [] {
      var init, w := words[..|words| - 1], words[|words| - 1];
      RowIs(init, key, value);
      assert words == init + [w];
      FieldStep(RowOf(init), w, key, value);
      ToldStep(init, w, key, value);
    }
  }

  lemma FieldStep(row: Row, w: Word, key: Word, value: Word)
    ensures Holds(AddField(row, w), key, value) <==>
            if key != PROTO && exists v :: Names(w, key, v) then Names(w, key, value) else Holds(row, key, value)
  {
    NamedAt(w);
    if v :| Names(w, key, v) {
      NamesOne(w, key, v);
    }
  }

  lemma ToldStep(init: seq<Word>, w: Word, key: Word, value: Word)
    ensures Told(init + [w], key, value) <==>
            if key != PROTO && exists v :: Names(w, key, v) then Names(w, key, value) else Told(init, key, value)
  {
    var words := init + [w];
    assert words[|init|] == w && forall i | 0 <= i < |init| :: words[i] == init[i];
    assert Names(w, key, value) <==> LastNamed(words, key, value, |init|);
    if v :| Names(w, key, v) {
      if i: nat :| LastNamed(words, key, value, i) {
        assert i == |init|;
      }
    } else {
      forall i: nat | i < |init| ensures LastNamed(words, key, value, i) <==> LastNamed(init, key, value, i) {
      }
    }
  }

  method ReadRow(words: seq<Word>) returns (row: Row)
    ensures row == RowOf(words)
  {
    row := map[];
    for i := 0 to |words|
      invariant row == RowOf(words[..i])
    {
      assert words[..i + 1][..i] == words[..i];
      var eq := IndexFrom(words[i], EQUALS, 1);
      if eq.Some? {
        row := SetField(row, words[i][1..eq.value], words[i][eq.value + 1..]);
      }
    }
    assert words[..|words|] == words;
  }
}

/** Reply sentences paired with commands, over the whole reply stream. */
module Replies {
  import opened Basics
  import opened WireFormat
  import opened Rows
  import Text

  const RE: Word := [0x21, 0x72, 0x65]                       // !re
  const DONE: Word := [0x21, 0x64, 0x6f, 0x6e, 0x65]         // !done
  const TRAP: Word := [0x21, 0x74, 0x72, 0x61, 0x70]         // !trap
  const FATAL: Word := [0x21, 0x66, 0x61, 0x74, 0x61, 0x6c]  // !fatal
  const SPACE: Byte := 0x20

  predicate Is(s: Sentence, kind: Word) { s != [] && s[0] == kind }

  /** join(" "). */
  function Join(words: seq<Word>): Word { Text.Join(words, SPACE) }

  /** The words can be told apart again, unless they hold spaces. */
  lemma JoinKeepsWords(words: seq<Word>)
    requires words != [] && forall i | 0 <= i < |words| :: SPACE !in words[i]
    ensures Text.Split(Join(words), SPACE) == words
  {
    Text.SplitOfJoin(words, SPACE);
  }

  datatype Result = Result(cmd: Word, ok: bool, data: seq<Row>, error: Option<Word>)

  // ---------------------------------------------------- commands' own replies

  /** The replies to one command, and the sentence that ends them. */
  datatype Block = Block(replies: seq<Sentence>, end: Sentence)

  predicate Terminator(s: Sentence) { Is(s, DONE) || Is(s, TRAP) }

  /** The reply stream cut after each terminator, and what follows the last. */
  datatype Cutting = Cutting(blocks: seq<Block>, open: seq<Sentence>)

  function Cut(body: seq<Sentence>): Cutting {
    if body == [] then Cutting([], [])
    else
      var c, s := Cut(body[..|body| - 1]), body[|body| - 1];
      if Terminator(s) then Cutting(c.blocks + [Block(c.open, s)], []) else c.(open := c.open + [s])
  }

  function Glue(blocks: seq<Block>): seq<Sentence> {
    if blocks == [] then []
    else Glue(blocks[..|blocks| - 1]) + blocks[|blocks| - 1].replies + [blocks[|blocks| - 1].end]
  }

  ghost predicate NoTerminator(ss: seq<Sentence>) { forall i | 0 <= i < |ss| :: !Terminator(ss[i]) }

  ghost predicate WellCut(c: Cutting) {
    && (forall i | 0 <= i < |c.blocks| :: Terminator(c.blocks[i].end) && NoTerminator(c.blocks[i].replies))
    && NoTerminator(c.open)
  }

  lemma {:induction false} CutIsWell(body: seq<Sentence>)
    ensures WellCut(Cut(body))
  {
    if body != [] {
      CutIsWell(body[..|body| - 1]);
    }
  }

  lemma GlueSnoc(blocks: seq<Block>, b: Block)
    ensures Glue(blocks + [b]) == Glue(blocks) + b.replies + [b.end]
  {
    assert (blocks + [b])[..|blocks|] == blocks;
  }

  lemma GlueStep(c: Cutting, init: seq<Sentence>, s: Sentence)
    requires Glue(c.blocks) + c.open == init
    ensures Glue(c.blocks + [Block(c.open, s)]) + [] == init + [s]
    ensures Glue(c.blocks) + (c.open + [s]) == init + [s]
  {
    GlueSnoc(c.blocks, Block(c.open, s));
    Assoc(Glue(c.blocks), c.open, [s]);
  }

  /** Cutting loses nothing, and cuts at terminators only. */
  lemma {:induction false} CutIsFaithful(body: seq<Sentence>)
    ensures WellCut(Cut(body)) && Glue(Cut(body).blocks) + Cut(body).open == body
  {
    CutIsWell(body);
    if body != [] {
      var init, s := body[..|body| - 1], body[|body| - 1];
      CutIsFaithful(init);
      GlueStep(Cut(init), init, s);
      assert body == init + [s];
    }
  }

  /** It is the only such cutting. */
  lemma {:induction false} CutIsUnique(c: Cutting)
    requires WellCut(c)
    ensures Cut(Glue(c.blocks) + c.open) == c
    decreases |c.blocks|, |c.open|
  {
    var body := Glue(c.blocks) + c.open;
    if c.open != [] {
      var s := c.open[|c.open| - 1];
      var less := c.(open := c.open[..|c.open| - 1]);
      assert body[..|body| - 1] == Glue(c.blocks) + less.open;
      assert c.open == less.open + [s];
      CutIsUnique(less);
    } else if c.blocks != [] {
      var init, last := c.blocks[..|c.blocks| - 1], c.blocks[|c.blocks| - 1];
      assert body[..|body| - 1] == Glue(init) + last.replies;
      CutIsUnique(Cutting(init, last.replies));
      assert init + [Block(last.replies, last.end)] == c.blocks;
    }
  }

  function DataOf(replies: seq<Sentence>): seq<Row> {
    if replies == [] then []
    else
      var s := replies[|replies| - 1];
      DataOf(replies[..|replies| - 1]) + if Is(s, RE) then [RowOf(s[1..])] else []
  }

  function ResultOf(cmd: Sentence, b: Block): Result {
    if Is(b.end, TRAP) then Result(Join(cmd), false, DataOf(b.replies), Some(Join(b.end[1..])))
    else Result(Join(cmd), true, DataOf(b.replies), None)
  }

  /** The results of the commands that were answered. */
  function Answered(commands: seq<Sentence>, blocks: seq<Block>): (rs: seq<Result>)
    ensures |rs| == Min(|blocks|, |commands|)
    ensures forall i | 0 <= i < |rs| :: rs[i] == ResultOf(commands[i], blocks[i])
  {
    if blocks == [] then []
    else
      var k := |blocks| - 1;
      Answered(commands, blocks[..k]) + if k < |commands| then [ResultOf(commands[k], blocks[k])] else []
  }

  /** A result once its terminator is in. */
  function Complete(r: Result, end: Sentence): Result
    requires Terminator(end)
  {
    if Is(end, DONE) then r.(ok := true) else r.(ok := false, error := Some(Join(end[1..])))
  }

  function CompleteAt(rs: seq<Result>, k: nat, end: Sentence): seq<Result>
    requires Terminator(end)
  {
    if k < |rs| then rs[k := Complete(rs[k], end)] else rs
  }

  function Begun(cmd: Sentence, open: seq<Sentence>): Result { Result(Join(cmd), false, DataOf(open), None) }

  /** One result per answered command, and one begun if a command is left. */
  function Results(commands: seq<Sentence>, body: seq<Sentence>): (rs: seq<Result>)
    ensures |rs| == Min(|Cut(body).blocks| + 1, |commands|)
  {
    var Cutting(blocks, open) := Cut(body);
    Answered(commands, blocks) + if |blocks| < |commands| then [Begun(commands[|blocks|], open)] else []
  }

  lemma {:induction false} CutGrows(body: seq<Sentence>, s: Sentence)
    ensures Cut(body + [s]) ==
            if Terminator(s) then Cutting(Cut(body).blocks + [Block(Cut(body).open, s)], [])
            else Cut(body).(open := Cut(body).open + [s])
  {
    assert (body + [s])[..|body|] == body;
  }

  /** A sentence that ends no command only touches the result begun. */
  lemma ResultsAtReply(commands: seq<Sentence>, body: seq<Sentence>, s: Sentence)
    requires !Terminator(s)
    ensures |Cut(body + [s]).blocks| == |Cut(body).blocks|
    ensures var r, k := Results(commands, body), |Cut(body).blocks|;
            Results(commands, body + [s]) ==
            if k < |commands| && Is(s, RE) then r[k := r[k].(data := r[k].data + [RowOf(s[1..])])] else r
  {
    CutGrows(body, s);
    var Cutting(blocks, open) := Cut(body);
    DataGrows(open, s);
    if |blocks| < |commands| {
      var cmd := commands[|blocks|];
      UpdateLast(Answered(commands, blocks), Begun(cmd, open), Begun(cmd, open + [s]));
    }
  }

  lemma UpdateLast<T>(a: seq<T>, x: T, y: T)
    ensures |a + [x]| == |a| + 1 && (a + [x])[|a|] == x && (a + [x])[|a| := y] == a + [y]
  {
  }

  lemma DataGrows(open: seq<Sentence>, s: Sentence)
    ensures DataOf(open + [s]) == if Is(s, RE) then DataOf(open) + [RowOf(s[1..])] else DataOf(open)
  {
    assert (open + [s])[..|open|] == open;
  }

  lemma {:induction false} OneAnswerMore(commands: seq<Sentence>, blocks: seq<Block>, b: Block)
    ensures Answered(commands, blocks + [b]) ==
            Answered(commands, blocks) +
            if |blocks| < |commands| then [ResultOf(commands[|blocks|], b)] else []
  {
    assert (blocks + [b])[..|blocks|] == blocks;
  }

  lemma CompletedIs(cmd: Sentence, b: Block)
    requires Terminator(b.end)
    ensures Complete(Begun(cmd, b.replies), b.end) == ResultOf(cmd, b)
  {
    assert Is(b.end, DONE) ==> !Is(b.end, TRAP);
  }

  /** A terminator completes the result begun and begins the next. */
  lemma ResultsAtEnd(commands: seq<Sentence>, body: seq<Sentence>, s: Sentence)
    requires Terminator(s)
    ensures |Cut(body + [s]).blocks| == |Cut(body).blocks| + 1
    ensures var r, k := Results(commands, body), |Cut(body).blocks|;
            Results(commands, body + [s]) ==
            if k + 1 < |commands| then CompleteAt(r, k, s) + [Begun(commands[k + 1], [])] else CompleteAt(r, k, s)
  {
    CutGrows(body, s);
    var Cutting(blocks, open) := Cut(body);
    var b := Block(open, s);
    OneAnswerMore(commands, blocks, b);
    if |blocks| < |commands| {
      var cmd := commands[|blocks|];
      CompletedIs(cmd, b);
      UpdateLast(Answered(commands, blocks), Begun(cmd, open), ResultOf(cmd, b));
    }
  }

  // ------------------------------------------------------------ whole sessions

  /** Everything received: still logging in, or replies to commands since. */
  datatype Phase = Login | Commands(body: seq<Sentence>)

  function PhaseOf(trace: seq<Sentence>): Phase {
    if trace == [] then Login
    else
      var s := trace[|trace| - 1];
      match PhaseOf(trace[..|trace| - 1])
      case Login => if Is(s, DONE) then Commands([]) else Login
      case Commands(body) => Commands(body + [s])
  }

  /** The sentence that refused the login, if it came before it was accepted. */
  function Refusal(trace: seq<Sentence>): Option<Sentence> {
    if trace == [] then None
    else
      var init, s := trace[..|trace| - 1], trace[|trace| - 1];
      if Refusal(init).None? && PhaseOf(init).Login? && (Is(s, TRAP) || Is(s, FATAL)) then Some(s) else Refusal(init)
  }

  /** Commands start after the first `!done`. */
  lemma {:induction false} PhaseIsAfterFirstDone(trace: seq<Sentence>, k: nat)
    requires k < |trace| && Is(trace[k], DONE) && forall j | 0 <= j < k :: !Is(trace[j], DONE)
    ensures PhaseOf(trace) == Commands(trace[k + 1..])
    decreases |trace|
  {
    var init := trace[..|trace| - 1];
    if k == |trace| - 1 {
      NoDoneIsLogin(init);
    } else {
      PhaseIsAfterFirstDone(init, k);
      assert trace[k + 1..] == init[k + 1..] + [trace[|trace| - 1]];
    }
  }

  lemma {:induction false} NoDoneIsLogin(trace: seq<Sentence>)
    requires forall j | 0 <= j < |trace| :: !Is(trace[j], DONE)
    ensures PhaseOf(trace) == Login
  {
    if trace != [] {
      NoDoneIsLogin(trace[..|trace| - 1]);
    }
  }

  datatype Verdict = Pending | Resolved(results: seq<Result>) | AuthFailed(reply: Sentence)

  function VerdictOf(commands: seq<Sentence>, trace: seq<Sentence>): Verdict {
    if Refusal(trace).Some? then AuthFailed(Refusal(trace).value)
    else match PhaseOf(trace)
      case Login => Pending
      case Commands(body) =>
        if |Cut(body).blocks| >= |commands| then Resolved(Results(commands, body)) else Pending
  }

  /** The sentence that decides the login: nothing before it was a `!done`, a
      `!trap` or a `!fatal`. */
  ghost predicate Decides(trace: seq<Sentence>, k: nat) {
    k < |trace| && LoginEnd(trace[k]) && forall j | 0 <= j < k :: !LoginEnd(trace[j])
  }

  predicate LoginEnd(s: Sentence) { Is(s, DONE) || Is(s, TRAP) || Is(s, FATAL) }

  function Terminators(body: seq<Sentence>): nat {
    if body == [] then 0 else Terminators(body[..|body| - 1]) + if Terminator(body[|body| - 1]) then 1 else 0
  }

  lemma {:induction false} OneBlockEach(body: seq<Sentence>)
    ensures |Cut(body).blocks| == Terminators(body)
  {
    if body != [] {
      OneBlockEach(body[..|body| - 1]);
    }
  }

  lemma DecidesSnoc(init: seq<Sentence>, s: Sentence, k: nat)
    ensures k < |init| ==> (Decides(init + [s], k) <==> Decides(init, k))
    ensures Decides(init + [s], |init|) <==> LoginEnd(s) && forall j | 0 <= j < |init| :: !LoginEnd(init[j])
    ensures k > |init| ==> !Decides(init + [s], k)
  {
    var trace := init + [s];
    assert trace[|init|] == s && forall j | 0 <= j < |init| :: trace[j] == init[j];
  }

  /** The login is refused by this sentence. */
  ghost predicate Refuses(trace: seq<Sentence>, k: nat) { Decides(trace, k) && !Is(trace[k], DONE) }

  lemma {:induction false} RefusalIs(trace: seq<Sentence>)
    ensures match Refusal(trace)
            case Some(s) => exists k: nat :: Refuses(trace, k) && trace[k] == s
            case None => forall k: nat :: !Refuses(trace, k)
    ensures PhaseOf(trace).Login? <==> forall j | 0 <= j < |trace| :: !Is(trace[j], DONE)
  {
    if trace != [] {
      var init, s := trace[..|trace| - 1], trace[|trace| - 1];
      RefusalIs(init);
      assert trace == init + [s];
      RefusalSnoc(init, s);
    }
  }

  lemma RefusalSnoc(init: seq<Sentence>, s: Sentence)
    requires match Refusal(init)
             case Some(r) => exists k: nat :: Refuses(init, k) && init[k] == r
             case None => forall k: nat :: !Refuses(init, k)
    requires PhaseOf(init).Login? <==> forall j | 0 <= j < |init| :: !Is(init[j], DONE)
    ensures match Refusal(init + [s])
            case Some(r) => exists k: nat :: Refuses(init + [s], k) && (init + [s])[k] == r
            case None => forall k: nat :: !Refuses(init + [s], k)
  {
    var trace := init + [s];
    assert trace[..|init|] == init && trace[|init|] == s;
    DecidesSnoc(init, s, |init|);
    if Refusal(init).Some? {
      var k: nat :| Refuses(init, k) && init[k] == Refusal(init).value;
      DecidesSnoc(init, s, k);
      assert Refuses(trace, k) && trace[k] == init[k];
    } else {
      forall k: nat | k != |init| ensures !Refuses(trace, k) {
        DecidesSnoc(init, s, k);
        assert !Refuses(init, k);
      }
      if PhaseOf(init).Login? {
        NobodyDecided(init);
      }
      assert Refuses(trace, |init|) <==> PhaseOf(init).Login? && (Is(s, TRAP) || Is(s, FATAL));
    }
  }

  lemma NobodyDecided(init: seq<Sentence>)
    requires forall j | 0 <= j < |init| :: !Is(init[j], DONE)
    requires forall k: nat :: !Refuses(init, k)
    ensures forall j | 0 <= j < |init| :: !LoginEnd(init[j])
  {
    if j :| 0 <= j < |init| && LoginEnd(init[j]) {
      var k := FirstEnd(init, j);
      assert Refuses(init, k);
    }
  }

  lemma {:induction false} FirstEnd(init: seq<Sentence>, j: nat) returns (k: nat)
    requires j < |init| && LoginEnd(init[j])
    ensures Decides(init, k)
  {
    if i :| 0 <= i < j && LoginEnd(init[i]) {
      k := FirstEnd(init, i);
    } else {
      k := j;
    }
  }

  /** A run whose login a `!trap` or `!fatal` decides has failed; one whose login a
      `!done` decides resolves with as many terminators as there are commands. */
  lemma VerdictIs(commands: seq<Sentence>, trace: seq<Sentence>, k: nat)
    requires Decides(trace, k)
    ensures VerdictOf(commands, trace) ==
            if !Is(trace[k], DONE) then AuthFailed(trace[k])
            else if Terminators(trace[k + 1..]) >= |commands| then Resolved(Results(commands, trace[k + 1..]))
            else Pending
  {
    RefusalIs(trace);
    assert Refuses(trace, k) <==> !Is(trace[k], DONE);
    if Is(trace[k], DONE) {
      PhaseIsAfterFirstDone(trace, k);
      OneBlockEach(trace[k + 1..]);
    }
  }

  /** Before that nothing is settled. */
  lemma NoVerdictYet(commands: seq<Sentence>, trace: seq<Sentence>)
    requires forall j | 0 <= j < |trace| :: !LoginEnd(trace[j])
    ensures VerdictOf(commands, trace) == Pending
  {
    RefusalIs(trace);
  }

  lemma VerdictStays(commands: seq<Sentence>, trace: seq<Sentence>, s: Sentence)
    requires VerdictOf(commands, trace) != Pending
    ensures VerdictOf(commands, trace + [s]) == VerdictOf(commands, trace)
  {
    assert (trace + [s])[..|trace|] == trace;
    if Refusal(trace).None? {
      CutGrows(PhaseOf(trace).body, s);
    }
  }

  /** Whatever comes after a verdict does not change it. */
  lemma {:induction false} VerdictIsFinal(commands: seq<Sentence>, trace: seq<Sentence>, more: seq<Sentence>)
    requires VerdictOf(commands, trace) != Pending
    ensures VerdictOf(commands, trace + more) == VerdictOf(commands, trace)
    decreases |more|
  {
    if more == [] {
      assert trace + more == trace;
    } else {
      var init, s := more[..|more| - 1], more[|more| - 1];
      assert trace + more == (trace + init) + [s];
      VerdictIsFinal(commands, trace, init);
      VerdictStays(commands, trace + init, s);
    }
  }

  /** The run that resolves, told from the stream alone: the login was accepted
      by the first `!done`, unrefused; as many terminators as commands followed;
      result i has the rows of the `!re` sentences of block i, in order, and is
      ok exactly when block i ended with `!done`. */
  lemma ResolvedMeans(commands: seq<Sentence>, trace: seq<Sentence>, i: nat)
    requires VerdictOf(commands, trace).Resolved? && i < |commands|
    ensures PhaseOf(trace).Commands? && Refusal(trace).None?
    ensures |VerdictOf(commands, trace).results| == |commands| <= |Cut(PhaseOf(trace).body).blocks|
    ensures var r, b := VerdictOf(commands, trace).results[i], Cut(PhaseOf(trace).body).blocks[i];
            && r.cmd == Join(commands[i])
            && r.data == DataOf(b.replies)
            && (r.ok <==> Is(b.end, DONE))
            && r.error == if Is(b.end, TRAP) then Some(Join(b.end[1..])) else None
  {
    var body := PhaseOf(trace).body;
    CutIsFaithful(body);
    assert Terminator(Cut(body).blocks[i].end);
  }
}

/** The socket session of runCommands (mikrotikApi.js 51-143). */
module ReplyDriver {
  import opened Basics
  import opened WireFormat
  import opened Rows
  import opened Replies
  import opened MikrotikApi

  function Concat(chunks: seq<seq<Byte>>): seq<Byte> {
    if chunks == [] then [] else Concat(chunks[..|chunks| - 1]) + chunks[|chunks| - 1]
  }

  ghost predicate AllAligned(chunks: seq<seq<Byte>>) { forall i | 0 <= i < |chunks| :: Aligned(chunks[i]) }

  ghost function Received(chunks: seq<seq<Byte>>): seq<Sentence> {
    if chunks == [] then [] else Received(chunks[..|chunks| - 1]) + Parse(chunks[|chunks| - 1])
  }

  lemma {:induction false} AlignedConcat(a: seq<Byte>, b: seq<Byte>)
    requires Aligned(a) && Aligned(b)
    ensures Aligned(a + b)
    decreases |a|
  {
    if a == [] {
      assert a + b == b;
    } else {
      FirstIsLocal(a, b);
      HeaderIsLocal(a, b);
      if After(a) == [] {
        assert After(a + b) == b;
      } else {
        AlignedConcat(After(a), b);
      }
    }
  }

  /** However the stream is cut between sentences, the same sentences arrive. */
  lemma {:induction false} ChunkingDoesNotMatter(chunks: seq<seq<Byte>>)
    requires AllAligned(chunks)
    ensures Aligned(Concat(chunks)) && Received(chunks) == Parse(Concat(chunks))
  {
    if chunks != [] {
      ChunkingDoesNotMatter(chunks[..|chunks| - 1]);
      ParseConcat(Concat(chunks[..|chunks| - 1]), chunks[|chunks| - 1]);
      AlignedConcat(Concat(chunks[..|chunks| - 1]), chunks[|chunks| - 1]);
    }
  }

  lemma {:induction false} ReceivedShrinks(chunks: seq<seq<Byte>>)
    ensures AllEncodable(Received(chunks)) && |FrameAll(Received(chunks))| <= |Concat(chunks)|
  {
    if chunks != [] {
      var init, c := chunks[..|chunks| - 1], chunks[|chunks| - 1];
      ReceivedShrinks(init);
      ParseShrinks(c);
      FrameAllConcat(Received(init), Parse(c));
    }
  }

  lemma SameSplit(a: seq<Byte>, b: seq<Byte>, c: seq<Byte>, d: seq<Byte>)
    requires a + b == c + d && |a| <= |c| && |b| <= |d|
    ensures a == c && b == d
  {
    assert |a + b| == |c + d|;
    assert (a + b)[..|a|] == a && (c + d)[..|c|] == c && (a + b)[|a|..] == b && (c + d)[|c|..] == d;
  }

  /** Pieces that yield sentences no longer than themselves, and whose framing they
      make up together, are each the framing of their own. */
  lemma EachIsFramed(a: seq<Byte>, xs: seq<Sentence>, b: seq<Byte>, ys: seq<Sentence>)
    requires AllEncodable(xs) && AllEncodable(ys) && AllEncodable(xs + ys) && a + b == FrameAll(xs + ys)
    requires |FrameAll(xs)| <= |a| && |FrameAll(ys)| <= |b|
    ensures a == FrameAll(xs) && b == FrameAll(ys)
  {
    FrameAllConcat(xs, ys);
    SameSplit(FrameAll(xs), FrameAll(ys), a, b);
  }

  /** Bytes that are just the framing of what arrives chunk by chunk leave no
      chunk a cut sentence. */
  lemma {:induction false} NothingLostIsAligned(chunks: seq<seq<Byte>>)
    requires AllEncodable(Received(chunks)) && Concat(chunks) == FrameAll(Received(chunks))
    ensures AllAligned(chunks)
  {
    if chunks != [] {
      var init, c := chunks[..|chunks| - 1], chunks[|chunks| - 1];
      ReceivedShrinks(init);
      ParseShrinks(c);
      EachIsFramed(Concat(init), Received(init), c, Parse(c));
      EncodedIsAligned(Parse(c));
      NothingLostIsAligned(init);
    }
  }

  /** However the bytes an encoder wrote are cut into chunks, every sentence
      arrives if and only if each chunk ends with a sentence. */
  lemma AllArriveIff(chunks: seq<seq<Byte>>, ss: seq<Sentence>)
    requires AllSolid(ss) && Concat(chunks) == FrameAll(ss)
    ensures Received(chunks) == ss <==> AllAligned(chunks)
  {
    ExactRoundTrip(ss);
    if AllAligned(chunks) {
      ChunkingDoesNotMatter(chunks);
    }
    if Received(chunks) == ss {
      NothingLostIsAligned(chunks);
    }
  }

  lemma OneChunk(p: seq<Byte>)
    ensures Concat([p]) == p && Received([p]) == Parse(p)
  {
    assert [p][..0] == [];
    assert [] + p == p && [] + Parse(p) == Parse(p);
  }

  lemma TwoChunks(p: seq<Byte>, q: seq<Byte>)
    ensures Concat([p, q]) == p + q && Received([p, q]) == Parse(p) + Parse(q)
  {
    OneChunk(p);
    assert [p, q][..1] == [p];
  }

  /** Two pieces of such bytes yield what the whole does exactly when the cut is
      where a sentence ends; any other cut loses a reply. */
  lemma CutChunkLosesReply(p: seq<Byte>, q: seq<Byte>, ss: seq<Sentence>)
    requires AllSolid(ss) && p + q == FrameAll(ss)
    ensures Parse(p) + Parse(q) == Parse(p + q) <==> Aligned(p)
  {
    ExactRoundTrip(ss);
    if Aligned(p) {
      ParseConcat(p, q);
    }
    TwoChunks(p, q);
    AllArriveIff([p, q], ss);
    assert [p, q][0] == p;
  }

  /** The variables of a session in progress. `written` is what reached the socket. */
  datatype View = View(
    authenticated: bool, results: seq<Result>, cmdIndex: nat, verdict: Verdict, written: seq<Sentence>)

  predicate Shape(commands: seq<Sentence>, v: View) {
    if v.authenticated then |v.results| == Min(v.cmdIndex + 1, |commands|) else v.results == [] && v.cmdIndex == 0
  }

  function SendNext(commands: seq<Sentence>, v: View): View
    requires v.cmdIndex < |commands|
  {
    v.(results := v.results + [Begun(commands[v.cmdIndex], [])],
       // a destroyed socket takes nothing
       written := if v.verdict == Pending then v.written + [commands[v.cmdIndex]] else v.written)
  }

  /** What one sentence does to the variables. */
  function Advance(commands: seq<Sentence>, v: View, s: Sentence): (after: View)
    requires |commands| > 0 && Shape(commands, v)
    ensures Shape(commands, after)
  {
    var k := v.cmdIndex;
    if !v.authenticated then
      if Is(s, DONE) then SendNext(commands, v.(authenticated := true))
      else if (Is(s, TRAP) || Is(s, FATAL)) && v.verdict == Pending then v.(verdict := AuthFailed(s))
      else v
    else if Is(s, RE) then
      if k < |v.results|
      then v.(results := v.results[k := v.results[k].(data := v.results[k].data + [RowOf(s[1..])])])
      else v
    else if Terminator(s) then
      var rs := CompleteAt(v.results, k, s);
      var next := v.(results := rs, cmdIndex := k + 1);
      if k + 1 < |commands| then SendNext(commands, next)
      else if v.verdict == Pending then next.(verdict := Resolved(rs)) else next
    else v
  }

  function AdvanceAll(commands: seq<Sentence>, v: View, ss: seq<Sentence>): (after: View)
    requires |commands| > 0 && Shape(commands, v)
    ensures Shape(commands, after)
  {
    if ss == [] then v else Advance(commands, AdvanceAll(commands, v, ss[..|ss| - 1]), ss[|ss| - 1])
  }

  function Start(login: Sentence): View { View(false, [], 0, Pending, [login]) }

  /** Each command once, in order, the next one as soon as one is answered. */
  function Sent(commands: seq<Sentence>, trace: seq<Sentence>): seq<Sentence> {
    if PhaseOf(trace).Login? || Refusal(trace).Some? then []
    else Asked(commands, |Cut(PhaseOf(trace).body).blocks|)
  }

  /** The commands asked once `answered` of them are. */
  function Asked(commands: seq<Sentence>, answered: nat): seq<Sentence> {
    commands[..Min(answered + 1, |commands|)]
  }

  /** What the stream as a whole says the variables are. */
  function ViewOf(login: Sentence, commands: seq<Sentence>, trace: seq<Sentence>): View {
    match PhaseOf(trace)
    case Login => View(false, [], 0, VerdictOf(commands, trace), [login])
    case Commands(body) =>
      View(true, Results(commands, body), |Cut(body).blocks|, VerdictOf(commands, trace),
           [login] + Sent(commands, trace))
  }

  lemma AdvanceInLogin(login: Sentence, commands: seq<Sentence>, trace: seq<Sentence>, s: Sentence)
    requires |commands| > 0 && PhaseOf(trace).Login?
    ensures Advance(commands, ViewOf(login, commands, trace), s) == ViewOf(login, commands, trace + [s])
  {
    assert (trace + [s])[..|trace|] == trace;
    assert Cut([]) == Cutting([], []);
    assert commands[..1] == [commands[0]];
  }

  lemma AdvanceAtReply(login: Sentence, commands: seq<Sentence>, trace: seq<Sentence>, s: Sentence)
    requires |commands| > 0 && PhaseOf(trace).Commands? && !Terminator(s)
    ensures Advance(commands, ViewOf(login, commands, trace), s) == ViewOf(login, commands, trace + [s])
  {
    assert (trace + [s])[..|trace|] == trace;
    ResultsAtReply(commands, PhaseOf(trace).body, s);
    VerdictAtReply(commands, trace, s);
  }

  lemma VerdictAtReply(commands: seq<Sentence>, trace: seq<Sentence>, s: Sentence)
    requires |commands| > 0 && PhaseOf(trace).Commands? && !Terminator(s)
    ensures VerdictOf(commands, trace + [s]) == VerdictOf(commands, trace)
    ensures Sent(commands, trace + [s]) == Sent(commands, trace)
  {
    assert (trace + [s])[..|trace|] == trace;
    if VerdictOf(commands, trace) != Pending {
      VerdictIsFinal(commands, trace, [s]);
    }
    CutGrows(PhaseOf(trace).body, s);
  }

  /** A terminator's step on bare variables. */
  lemma EndStep(commands: seq<Sentence>, rs: seq<Result>, k: nat, v: Verdict, login: Sentence,
                sent: seq<Sentence>, s: Sentence)
    requires |commands| > 0 && |rs| == Min(k + 1, |commands|) && Terminator(s)
    ensures var ended := CompleteAt(rs, k, s);
            Advance(commands, View(true, rs, k, v, [login] + sent), s) ==
            if k + 1 < |commands| then
              View(true, ended + [Begun(commands[k + 1], [])], k + 1, v,
                   [login] + if v == Pending then sent + [commands[k + 1]] else sent)
            else View(true, ended, k + 1, if v == Pending then Resolved(ended) else v, [login] + sent)
  {
    assert !Is(s, RE);
    if k + 1 < |commands| {
      assert ([login] + sent) + [commands[k + 1]] == [login] + (sent + [commands[k + 1]]);
    }
  }

  lemma AdvanceAtEnd(login: Sentence, commands: seq<Sentence>, trace: seq<Sentence>, s: Sentence)
    requires |commands| > 0 && PhaseOf(trace).Commands? && Terminator(s)
    ensures Advance(commands, ViewOf(login, commands, trace), s) == ViewOf(login, commands, trace + [s])
  {
    InCommands(trace, s);
    ResultsAtEnd(commands, PhaseOf(trace).body, s);
    SentAtEnd(commands, trace, s);
    VerdictAtEnd(commands, trace, s);
    AdvanceToEnd(login, commands, trace, s, trace + [s]);
  }

  /** From one stream to the next, known only by what they make of the commands. */
  lemma AdvanceToEnd(login: Sentence, commands: seq<Sentence>, trace: seq<Sentence>, s: Sentence, longer: seq<Sentence>)
    requires |commands| > 0 && Terminator(s) && PhaseOf(trace).Commands? && PhaseOf(longer).Commands?
    requires |Cut(PhaseOf(longer).body).blocks| == |Cut(PhaseOf(trace).body).blocks| + 1
    requires var k, rs := |Cut(PhaseOf(trace).body).blocks|, Results(commands, PhaseOf(trace).body);
             Results(commands, PhaseOf(longer).body) ==
             if k + 1 < |commands| then CompleteAt(rs, k, s) + [Begun(commands[k + 1], [])] else CompleteAt(rs, k, s)
    requires VerdictOf(commands, longer) ==
             if VerdictOf(commands, trace) != Pending then VerdictOf(commands, trace)
             else if |Cut(PhaseOf(trace).body).blocks| + 1 >= |commands|
             then Resolved(Results(commands, PhaseOf(longer).body))
             else Pending
    requires VerdictOf(commands, trace) == Pending <==>
               Refusal(trace).None? && |Cut(PhaseOf(trace).body).blocks| < |commands|
    requires var k := |Cut(PhaseOf(trace).body).blocks|;
             Sent(commands, longer) ==
             if Refusal(trace).None? && k + 1 < |commands| then Sent(commands, trace) + [commands[k + 1]]
             else Sent(commands, trace)
    ensures Advance(commands, ViewOf(login, commands, trace), s) == ViewOf(login, commands, longer)
  {
    EndStepTo(commands, Results(commands, PhaseOf(trace).body), |Cut(PhaseOf(trace).body).blocks|,
              VerdictOf(commands, trace), login, Sent(commands, trace), s, Refusal(trace).Some?,
              Results(commands, PhaseOf(longer).body), VerdictOf(commands, longer), Sent(commands, longer));
  }

  lemma EndStepTo(commands: seq<Sentence>, rs: seq<Result>, k: nat, v: Verdict, login: Sentence, sent: seq<Sentence>,
                  s: Sentence, refused: bool, rs': seq<Result>, v': Verdict, sent': seq<Sentence>)
    requires |commands| > 0 && |rs| == Min(k + 1, |commands|) && Terminator(s)
    requires v == Pending <==> !refused && k < |commands|
    requires rs' == if k + 1 < |commands| then CompleteAt(rs, k, s) + [Begun(commands[k + 1], [])]
                    else CompleteAt(rs, k, s)
    requires v' == if v != Pending then v else if k + 1 >= |commands| then Resolved(rs') else Pending
    requires sent' == if !refused && k + 1 < |commands| then sent + [commands[k + 1]] else sent
    ensures Advance(commands, View(true, rs, k, v, [login] + sent), s) == View(true, rs', k + 1, v', [login] + sent')
  {
    EndStep(commands, rs, k, v, login, sent, s);
  }

  lemma VerdictAtEnd(commands: seq<Sentence>, trace: seq<Sentence>, s: Sentence)
    requires |commands| > 0 && PhaseOf(trace).Commands? && Terminator(s)
    ensures var body := PhaseOf(trace).body;
            VerdictOf(commands, trace + [s]) ==
            if VerdictOf(commands, trace) != Pending then VerdictOf(commands, trace)
            else if |Cut(body).blocks| + 1 >= |commands| then Resolved(Results(commands, body + [s]))
            else Pending
    ensures VerdictOf(commands, trace) == Pending <==>
              Refusal(trace).None? && |Cut(PhaseOf(trace).body).blocks| < |commands|
  {
    InCommands(trace, s);
    CutGrows(PhaseOf(trace).body, s);
    if VerdictOf(commands, trace) != Pending {
      VerdictIsFinal(commands, trace, [s]);
    }
  }

  lemma AskedNext(commands: seq<Sentence>, k: nat)
    ensures Asked(commands, k + 1) == if k + 1 < |commands| then Asked(commands, k) + [commands[k + 1]]
                                      else Asked(commands, k)
  {
  }

  lemma SentIs(commands: seq<Sentence>, trace: seq<Sentence>, k: nat)
    requires PhaseOf(trace).Commands? && k == |Cut(PhaseOf(trace).body).blocks|
    ensures Sent(commands, trace) == if Refusal(trace).Some? then [] else Asked(commands, k)
  {
  }

  /** A command is sent when the login is accepted, and one more for every terminator,
      until there are no more. */
  lemma SentMeans(commands: seq<Sentence>, trace: seq<Sentence>, k: nat)
    requires Decides(trace, k)
    ensures Sent(commands, trace) ==
            if Is(trace[k], DONE) then commands[..Min(Terminators(trace[k + 1..]) + 1, |commands|)] else []
  {
    RefusalIs(trace);
    assert Refuses(trace, k) <==> !Is(trace[k], DONE);
    if Is(trace[k], DONE) {
      PhaseIsAfterFirstDone(trace, k);
      OneBlockEach(trace[k + 1..]);
    }
  }

  lemma SentAtEnd(commands: seq<Sentence>, trace: seq<Sentence>, s: Sentence)
    requires |commands| > 0 && PhaseOf(trace).Commands? && Terminator(s)
    ensures var k := |Cut(PhaseOf(trace).body).blocks|;
            Sent(commands, trace + [s]) ==
            if Refusal(trace).None? && k + 1 < |commands| then Sent(commands, trace) + [commands[k + 1]]
            else Sent(commands, trace)
  {
    var k := |Cut(PhaseOf(trace).body).blocks|;
    InCommands(trace, s);
    CutGrows(PhaseOf(trace).body, s);
    SentIs(commands, trace, k);
    SentIs(commands, trace + [s], k + 1);
    AskedNext(commands, k);
  }

  lemma InCommands(trace: seq<Sentence>, s: Sentence)
    requires PhaseOf(trace).Commands?
    ensures PhaseOf(trace + [s]) == Commands(PhaseOf(trace).body + [s]) && Refusal(trace + [s]) == Refusal(trace)
  {
    assert (trace + [s])[..|trace|] == trace;
  }

  /** Handling sentences one by one comes to what the whole stream says. */
  lemma {:induction false} AdvanceAllIsView(login: Sentence, commands: seq<Sentence>, trace: seq<Sentence>)
    requires |commands| > 0
    ensures AdvanceAll(commands, Start(login), trace) == ViewOf(login, commands, trace)
  {
    if trace != [] {
      var init, s := trace[..|trace| - 1], trace[|trace| - 1];
      assert trace == init + [s];
      AdvanceAllIsView(login, commands, init);
      if PhaseOf(init).Login? {
        AdvanceInLogin(login, commands, init, s);
      } else if Terminator(s) {
        AdvanceAtEnd(login, commands, init, s);
      } else {
        AdvanceAtReply(login, commands, init, s);
      }
    }
  }

  lemma {:induction false} AdvanceAllConcat(commands: seq<Sentence>, v: View, ss: seq<Sentence>, more: seq<Sentence>)
    requires |commands| > 0 && Shape(commands, v)
    ensures AdvanceAll(commands, v, ss + more) == AdvanceAll(commands, AdvanceAll(commands, v, ss), more)
    decreases |more|
  {
    if more == [] {
      assert ss + more == ss;
    } else {
      assert (ss + more)[..|ss + more| - 1] == ss + more[..|more| - 1];
      AdvanceAllConcat(commands, v, ss, more[..|more| - 1]);
    }
  }

  class Session {
    const login: Sentence
    const commands: seq<Sentence>
    var authenticated: bool
    var results: seq<Result>
    var cmdIndex: nat
    var verdict: Verdict
    var written: seq<Sentence>

    function Now(): View
      reads this
    {
      View(authenticated, results, cmdIndex, verdict, written)
    }

    ghost predicate Valid()
      reads this
    {
      |commands| > 0 && Shape(commands, Now())
    }

    constructor (login: Sentence, commands: seq<Sentence>)
      requires |commands| > 0
      ensures Valid() && Now() == Start(login) && this.login == login && this.commands == commands
    {
      this.login := login;
      this.commands := commands;
      authenticated, results, cmdIndex := false, [], 0;
      verdict := Pending;
      written := [login];
    }

    method SendNextCommand()
      requires cmdIndex < |commands|
      modifies this`results, this`written
      ensures Now() == SendNext(commands, old(Now()))
    {
      results := results + [Result(Join(commands[cmdIndex]), false, [], None)];
      if verdict == Pending {
        written := written + [commands[cmdIndex]];
      }
    }

    /** The promise is settled by the first call only. */
    method Finish(v: Verdict)
      modifies this`verdict
      ensures verdict == if old(verdict) == Pending then v else old(verdict)
    {
      if verdict == Pending {
        verdict := v;
      }
    }

    /** The end of the current command. */
    method ProcessEnd(s: Sentence)
      requires Valid() && authenticated && Terminator(s)
      modifies this
      ensures Now() == Advance(commands, old(Now()), s)
    {
      if cmdIndex < |results| {
        if s[0] == DONE {
          results := results[cmdIndex := results[cmdIndex].(ok := true)];
        } else {
          results := results[cmdIndex := results[cmdIndex].(ok := false, error := Some(Join(s[1..])))];
        }
      }
      cmdIndex := cmdIndex + 1;
      if cmdIndex >= |commands| {
        Finish(Resolved(results));
      } else {
        SendNextCommand();
      }
    }

    /** One turn of processLine's loop. */
    method ProcessSentence(s: Sentence)
      requires Valid()
      modifies this
      ensures Valid() && Now() == Advance(commands, old(Now()), s)
    {
      if s == [] {
        return;
      }
      if !authenticated {
        if s[0] == DONE {
          authenticated := true;
          SendNextCommand();
        } else if s[0] == TRAP || s[0] == FATAL {
          Finish(AuthFailed(s));
        }
        return;
      }
      if s[0] == RE {
        var row := ReadRow(s[1..]);
        if cmdIndex < |results| {
          results := results[cmdIndex := results[cmdIndex].(data := results[cmdIndex].data + [row])];
        }
      } else if s[0] == DONE || s[0] == TRAP {
        ProcessEnd(s);
      }
    }

    method ProcessLine(sentences: seq<Sentence>)
      requires Valid()
      modifies this
      ensures Valid() && Now() == AdvanceAll(commands, old(Now()), sentences)
    {
      for i := 0 to |sentences|
        invariant Valid() && Now() == AdvanceAll(commands, old(Now()), sentences[..i])
      {
        assert sentences[..i + 1][..i] == sentences[..i];
        ProcessSentence(sentences[i]);
      }
      assert sentences[..|sentences|] == sentences;
    }

    /** The "data" event. */
    method OnData(data: seq<Byte>)
      requires Valid()
      modifies this
      ensures Valid() && Now() == AdvanceAll(commands, old(Now()), Parse(data))
    {
      var sentences := ParseReply(data);
      ProcessLine(sentences);
    }

    /** A whole run on chunks that end with sentences. Its verdict is that of the
        byte stream, however it was cut; if it resolves, the login and then each
        command in order have been written, once. Data stop coming once the
        socket is destroyed. */
    method Run(chunks: seq<seq<Byte>>)
      requires Valid() && Now() == Start(login) && AllAligned(chunks)
      modifies this
      ensures verdict == VerdictOf(commands, Parse(Concat(chunks)))
      ensures verdict.Resolved? ==> written == [login] + commands
      ensures verdict == Pending ==> written == [login] + Sent(commands, Parse(Concat(chunks)))
    {
      var i := 0;
      while i < |chunks| && verdict == Pending
        invariant 0 <= i <= |chunks|
        invariant Valid() && Now() == AdvanceAll(commands, Start(login), Received(chunks[..i]))
      {
        ReceivedStep(chunks, i);
        AdvanceAllConcat(commands, Start(login), Received(chunks[..i]), Parse(chunks[i]));
        OnData(chunks[i]);
        i := i + 1;
      }
      AdvanceAllIsView(login, commands, Received(chunks[..i]));
      EarlyVerdict(commands, chunks, i);
      WrittenWhenResolved(login, commands, Received(chunks[..i]));
      if verdict == Pending {
        ChunkingDoesNotMatter(chunks);
        assert chunks[..i] == chunks;
      }
    }
  }

  lemma EarlyVerdict(commands: seq<Sentence>, chunks: seq<seq<Byte>>, i: nat)
    requires i <= |chunks| && AllAligned(chunks)
    requires i == |chunks| || VerdictOf(commands, Received(chunks[..i])) != Pending
    ensures VerdictOf(commands, Received(chunks[..i])) == VerdictOf(commands, Parse(Concat(chunks)))
  {
    ChunkingDoesNotMatter(chunks);
    if i == |chunks| {
      assert chunks[..i] == chunks;
    } else {
      var rest := ReceivedSplit(chunks, i);
      VerdictIsFinal(commands, Received(chunks[..i]), rest);
    }
  }

  lemma WrittenWhenResolved(login: Sentence, commands: seq<Sentence>, trace: seq<Sentence>)
    ensures VerdictOf(commands, trace).Resolved? ==> ViewOf(login, commands, trace).written == [login] + commands
  {
    assert commands[..|commands|] == commands;
  }

  lemma ReceivedStep(chunks: seq<seq<Byte>>, i: nat)
    requires i < |chunks|
    ensures Received(chunks[..i + 1]) == Received(chunks[..i]) + Parse(chunks[i])
  {
    assert chunks[..i + 1][..i] == chunks[..i];
  }

  lemma {:induction false} ReceivedSplit(chunks: seq<seq<Byte>>, i: nat) returns (rest: seq<Sentence>)
    requires i <= |chunks|
    ensures Received(chunks) == Received(chunks[..i]) + rest
    decreases |chunks| - i
  {
    if i == |chunks| {
      assert chunks[..i] == chunks;
      rest := [];
    } else {
      var more := ReceivedSplit(chunks, i + 1);
      ReceivedStep(chunks, i);
      rest := Parse(chunks[i]) + more;
    }
  }
}
