/** Command sentences with parameters (lib/buildSentence.js), and what becomes
    of the parameters on the wire. */
module Sentences {
  import opened Basics
  import opened Text
  import opened WireFormat
  import opened Rows
  import opened MikrotikApi

  /** A parameter; None is a value that is undefined or null. */
  datatype Param = Param(key: Word, value: Option<Word>)

  /** The white space trim() takes away, in UTF-8: how many bytes of it the word
      starts with, if any. */
  function SpaceAtStart(w: Word): (n: nat)
    ensures n <= |w|
  {
    if w == [] then 0
    else if w[0] == 0x20 || 0x09 <= w[0] <= 0x0d then 1
    else if |w| >= 2 && w[..2] == [0xc2, 0xa0] then 2
    else if |w| >= 3 && WideSpace(w[0], w[1], w[2]) then 3
    else 0
  }

  function SpaceAtEnd(w: Word): (n: nat)
    ensures n <= |w|
  {
    if w == [] then 0
    else if w[|w| - 1] == 0x20 || 0x09 <= w[|w| - 1] <= 0x0d then 1
    else if |w| >= 2 && w[|w| - 2..] == [0xc2, 0xa0] then 2
    else if |w| >= 3 && WideSpace(w[|w| - 3], w[|w| - 2], w[|w| - 1]) then 3
    else 0
  }

  /** U+1680, U+2000 to U+200A, U+2028, U+2029, U+202F, U+205F, U+3000, U+FEFF */
  predicate WideSpace(a: Byte, b: Byte, c: Byte) {
    || (a == 0xe1 && b == 0x9a && c == 0x80)
    || (a == 0xe2 && b == 0x80 && (0x80 <= c <= 0x8a || c == 0xa8 || c == 0xa9 || c == 0xaf))
    || (a == 0xe2 && b == 0x81 && c == 0x9f)
    || (a == 0xe3 && b == 0x80 && c == 0x80)
    || (a == 0xef && b == 0xbb && c == 0xbf)
  }

  function StripStart(w: Word): (t: Word)
    ensures SpaceAtStart(t) == 0
    decreases |w|
  {
    if SpaceAtStart(w) == 0 then w else StripStart(w[SpaceAtStart(w)..])
  }

  function StripEnd(w: Word): (t: Word)
    ensures SpaceAtEnd(t) == 0
    decreases |w|
  {
    if SpaceAtEnd(w) == 0 then w else StripEnd(w[..|w| - SpaceAtEnd(w)])
  }

  /** One white-space character, encoded. */
  predicate WhiteChar(c: Word) { c != [] && SpaceAtStart(c) == |c| }

  /** A character below U+10000 in UTF-8. */
  function Utf8(code: nat): Word
    requires code < 0x10000
  {
    if code < 0x80 then [code]
    else if code < 0x800 then [0xc0 + code / 0x40, 0x80 + code % 0x40]
    else [0xe0 + code / 0x1000, 0x80 + code / 0x40 % 0x40, 0x80 + code % 0x40]
  }

  lemma ShortIsSpace(code: nat)
    requires code < 0x800
    ensures WhiteChar(Utf8(code)) <==> IsSpace(code as char)
  {
    var w := Utf8(code);
    if |w| == 2 {
      assert w[..2] == w;
      assert w == [0xc2, 0xa0] <==> code == 0xa0;
    }
  }

  lemma WideIsSpace(a: Byte, b: Byte, c: Byte, code: nat)
    requires 0xe0 <= a < 0xf0 && 0x80 <= b < 0xc0 && 0x80 <= c < 0xc0
    requires code == 0x1000 * (a - 0xe0) + 0x40 * (b - 0x80) + (c - 0x80)
    requires 0x800 <= code < 0xd800 || 0xe000 <= code < 0x10000
    ensures WideSpace(a, b, c) <==> IsSpace(code as char)
  {
  }

  lemma ThreeBytes(code: nat)
    requires 0x800 <= code < 0x10000
    ensures code == 0x1000 * (code / 0x1000) + 0x40 * (code / 0x40 % 0x40) + code % 0x40
  {
    assert code / 0x40 / 0x40 == code / 0x1000;
  }

  lemma LongIsSpace(code: nat)
    requires 0x800 <= code < 0xd800 || 0xe000 <= code < 0x10000
    ensures WhiteChar(Utf8(code)) <==> IsSpace(code as char)
  {
    ThreeBytes(code);
    WideIsSpace(0xe0 + code / 0x1000, 0x80 + code / 0x40 % 0x40, 0x80 + code % 0x40, code);
  }

  /** The white space of bytes is the white space of characters. */
  lemma WhiteIsSpace(code: nat)
    requires code < 0xd800 || 0xe000 <= code < 0x10000
    ensures WhiteChar(Utf8(code)) <==> IsSpace(code as char)
  {
    if code < 0x800 {
      ShortIsSpace(code);
    } else {
      LongIsSpace(code);
    }
  }

  function Flat(chars: seq<Word>): Word { if chars == [] then [] else chars[0] + Flat(chars[1..]) }

  lemma WhiteAtStart(c: Word, rest: Word)
    requires WhiteChar(c)
    ensures SpaceAtStart(c + rest) == |c| && StripStart(c + rest) == StripStart(rest)
  {
    var w := c + rest;
    assert w[..|c|] == c && w[|c|..] == rest;
    assert |c| == 2 ==> w[..2] == c;
  }

  lemma WhiteAtEnd(rest: Word, c: Word)
    requires WhiteChar(c)
    ensures SpaceAtEnd(rest + c) == |c| && StripEnd(rest + c) == StripEnd(rest)
  {
    var w := rest + c;
    assert w[|rest|..] == c && w[..|rest|] == rest;
    if |c| == 3 {
      assert w[|w| - 3] == c[0] && w[|w| - 2] == c[1] && w[|w| - 1] == c[2];
      assert w[|w| - 2..] == c[1..];
    } else if |c| == 2 {
      assert w[|w| - 2..] == c;
    }
  }

  lemma {:induction false} WhiteBefore(chars: seq<Word>, rest: Word)
    requires forall i | 0 <= i < |chars| :: WhiteChar(chars[i])
    ensures StripStart(Flat(chars) + rest) == StripStart(rest)
  {
    if chars == [] {
      assert [] + rest == rest;
    } else {
      WhiteAtStart(chars[0], Flat(chars[1..]) + rest);
      Assoc(chars[0], Flat(chars[1..]), rest);
      WhiteBefore(chars[1..], rest);
    }
  }

  lemma {:induction false} FlatSnoc(chars: seq<Word>, c: Word)
    ensures Flat(chars + [c]) == Flat(chars) + c
  {
    if chars == [] {
      assert [] + [c] == [c] && [c][1..] == [] && c + [] == c;
    } else {
      assert (chars + [c])[1..] == chars[1..] + [c];
      FlatSnoc(chars[1..], c);
    }
  }

  lemma {:induction false} WhiteAfter(rest: Word, chars: seq<Word>)
    requires forall i | 0 <= i < |chars| :: WhiteChar(chars[i])
    ensures StripEnd(rest + Flat(chars)) == StripEnd(rest)
  {
    if chars == [] {
      assert rest + [] == rest;
    } else {
      var init, c := chars[..|chars| - 1], chars[|chars| - 1];
      assert chars == init + [c];
      FlatSnoc(init, c);
      WhiteAtEnd(rest + Flat(init), c);
      Assoc(rest, Flat(init), c);
      WhiteAfter(rest, init);
    }
  }

  /** The bytes white-space characters begin with. */
  predicate Leading(b: Byte) { b == 0x20 || 0x09 <= b <= 0x0d || b == 0xc2 || 0xe1 <= b <= 0xe3 || b == 0xef }

  lemma BeginsWhite(chars: seq<Word>)
    requires chars != [] && WhiteChar(chars[0])
    ensures Flat(chars) != [] && Leading(Flat(chars)[0])
  {
    var c := chars[0];
    assert |c| == 2 ==> c[..2] == c;
    assert Flat(chars)[0] == c[0];
  }

  /** None of them completes what is no white-space character yet. */
  lemma NotCompleted(command: Word, rest: Word)
    requires command != [] && rest != [] && SpaceAtStart(command) == 0 && Leading(rest[0])
    ensures SpaceAtStart(command + rest) == 0
  {
    var w := command + rest;
    assert w[0] == command[0] && w[|command|] == rest[0];
    if |command| >= 2 {
      assert w[1] == command[1] && w[..2] == [w[0], w[1]] && command[..2] == [w[0], w[1]];
    }
    if |command| >= 3 {
      assert w[2] == command[2];
    } else if |w| >= 2 {
      assert w[..2] == [w[0], w[1]];
    }
  }

  lemma StartIsUnmoved(command: Word, after: seq<Word>)
    requires forall i | 0 <= i < |after| :: WhiteChar(after[i])
    requires command != [] && SpaceAtStart(command) == 0
    ensures SpaceAtStart(command + Flat(after)) == 0
  {
    if after == [] {
      assert command + [] == command;
    } else {
      BeginsWhite(after);
      NotCompleted(command, Flat(after));
    }
  }

  ghost predicate StartsWhite(w: Word) { exists n | 0 <= n <= |w| :: WhiteChar(w[..n]) }

  ghost predicate EndsWhite(w: Word) { exists n | 0 <= n <= |w| :: WhiteChar(w[n..]) }

  lemma StartIsWhite(w: Word)
    ensures !StartsWhite(w) ==> SpaceAtStart(w) == 0
  {
    var n := SpaceAtStart(w);
    if n > 0 {
      var c := w[..n];
      assert |c| >= 2 ==> c[..2] == w[..2];
      assert WhiteChar(c);
    }
  }

  lemma EndIsWhite(w: Word)
    ensures !EndsWhite(w) ==> SpaceAtEnd(w) == 0
  {
    var n := SpaceAtEnd(w);
    if n > 0 {
      var c := w[|w| - n..];
      assert n == 2 ==> c[..2] == c;
      assert forall i | 0 <= i < n :: c[i] == w[|w| - n + i];
      assert WhiteChar(c);
    }
  }

  /** White space around a command, in any encoding of it, is all that trimming
      takes. */
  lemma CommandIsTrimmed(before: seq<Word>, command: Word, after: seq<Word>)
    requires forall i | 0 <= i < |before| :: WhiteChar(before[i])
    requires forall i | 0 <= i < |after| :: WhiteChar(after[i])
    requires command != [] && !StartsWhite(command) && !EndsWhite(command)
    ensures CommandWord(Flat(before) + command + Flat(after)) == command
  {
    StartIsWhite(command);
    EndIsWhite(command);
    Assoc(Flat(before), command, Flat(after));
    StartIsUnmoved(command, after);
    WhiteBefore(before, command + Flat(after));
    WhiteAfter(command, after);
  }

  predicate Included(p: Param) { p.key != [] && p.value.Some? }

  function ParamWord(p: Param): (w: Word)
    requires Included(p)
  {
    [EQUALS] + p.key + [EQUALS] + p.value.value
  }

  /** The words of the parameters that are sent. */
  function ParamWords(params: seq<Param>): (ws: Sentence)
    ensures forall i | 0 <= i < |ws| :: ws[i] != []
    ensures |ws| <= |params|
  {
    if params == [] then []
    else
      var p := params[|params| - 1];
      ParamWords(params[..|params| - 1]) + if Included(p) then [ParamWord(p)] else []
  }

  /** The words come in the order of the parameters. */
  lemma ParamWordsSnoc(params: seq<Param>, p: Param)
    ensures ParamWords(params + [p]) ==
            ParamWords(params) + if p.key != [] && p.value.Some? then [[0x3d] + p.key + [0x3d] + p.value.value] else []
  {
    assert (params + [p])[..|params|] == params;
  }

  /** trim() */
  function CommandWord(command: Word): Word { StripEnd(StripStart(command)) }

  function Built(command: Word, params: seq<Param>): (ws: Sentence)
    ensures forall i | 0 <= i < |ws| :: ws[i] != []
  {
    (if CommandWord(command) == [] then [] else [CommandWord(command)]) + ParamWords(params)
  }

  /** What the parameters mean. */
  function Meaning(params: seq<Param>): Row {
    if params == [] then map[]
    else
      var earlier, p := Meaning(params[..|params| - 1]), params[|params| - 1];
      if Included(p) then earlier[p.key := p.value.value] else earlier
  }

  function NonEmpty(ws: Sentence): Sentence {
    if ws == [] then []
    else NonEmpty(ws[..|ws| - 1]) + if ws[|ws| - 1] == [] then [] else [ws[|ws| - 1]]
  }

  lemma NonEmptySnoc(ws: Sentence, w: Word)
    ensures NonEmpty(ws + [w]) == NonEmpty(ws) + if w == [] then [] else [w]
  {
    assert (ws + [w])[..|ws|] == ws;
  }

  lemma NonEmptyOneMore(first: Word, init: Sentence, w: Word)
    requires w != [] && NonEmpty([first] + init) == (if first == [] then [] else [first]) + init
    ensures NonEmpty([first] + (init + [w])) == (if first == [] then [] else [first]) + (init + [w])
  {
    NonEmptySnoc([first] + init, w);
    Assoc([first], init, [w]);
    Assoc(if first == [] then [] else [first], init, [w]);
  }

  lemma {:induction false} NonEmptyAfterFirst(first: Word, ws: Sentence)
    requires forall i | 0 <= i < |ws| :: ws[i] != []
    ensures NonEmpty([first] + ws) == (if first == [] then [] else [first]) + ws
  {
    if ws == [] {
      NonEmptySnoc([], first);
      assert [] + [first] == [first] + ws;
    } else {
      var init, w := ws[..|ws| - 1], ws[|ws| - 1];
      NonEmptyAfterFirst(first, init);
      assert ws == init + [w];
      NonEmptyOneMore(first, init, w);
    }
  }

  /** filter(Boolean) */
  method DropEmpty(ws: Sentence) returns (kept: Sentence)
    ensures kept == NonEmpty(ws)
  {
    kept := [];
    for i := 0 to |ws|
      invariant kept == NonEmpty(ws[..i])
    {
      assert ws[..i + 1][..i] == ws[..i];
      if ws[i] != [] {
        kept := kept + [ws[i]];
      }
    }
    assert ws[..|ws|] == ws;
  }

  method BuildSentence(command: Word, params: seq<Param>) returns (ws: Sentence)
    ensures ws == Built(command, params)
  {
    ws := [CommandWord(command)];
    for i := 0 to |params|
      invariant ws == [CommandWord(command)] + ParamWords(params[..i])
    {
      assert params[..i + 1][..i] == params[..i];
      if params[i].key == [] || params[i].value.None? {
        continue;
      }
      ws := ws + [[EQUALS] + params[i].key + [EQUALS] + params[i].value.value];
    }
    assert params[..|params|] == params;
    NonEmptyAfterFirst(CommandWord(command), ParamWords(params));
    ws := DropEmpty(ws);
  }

  // ---------------------------------------------------------------- the wire

  /** The row a reader makes of the first sentence received, its first word
      being the reply kind or command. */
  function Received(bytes: seq<Byte>): Row {
    var ss := Parse(bytes);
    if ss == [] then map[]
    else
      ParsedIsSolid(bytes);
      RowOf(ss[0][1..])
  }

  /** Every word of a built sentence reaches the other side. */
  lemma SentenceSurvives(ws: Sentence)
    requires Encodable(ws) && forall i | 0 <= i < |ws| :: ws[i] != []
    ensures Parse(EncodeSentence(ws)) == if ws == [] then [] else [ws]
  {
    assert EncodeAll([ws]) == EncodeSentence(ws) + [] == EncodeSentence(ws) by {
      assert [ws][1..] == [] && EncodeAll([]) == [];
    }
    assert AllEncodable([ws]);
    WireRoundTrip([ws]);
    PiecesOfSolid([], ws);
    assert [] + ws == ws;
    assert AllPieces([ws]) == Pieces([], ws) by {
      assert [ws][1..] == [] && AllPieces([]) == [];
    }
  }

  lemma FirstEquals(w: Word, at: nat)
    requires 1 <= at < |w| && w[at] == EQUALS && forall i | 1 <= i < at :: w[i] != EQUALS
    ensures IndexFrom(w, EQUALS, 1) == Some(at)
  {
    var found := IndexFrom(w, EQUALS, 1);
    assert found.Some?;
  }

  /** Keys a reader can get back. */
  predicate Readable(key: Word) { EQUALS !in key && key != PROTO }

  /** A parameter whose key holds no `=` and is not `__proto__` is read back. */
  lemma ParamReadBack(row: Row, p: Param)
    requires Included(p) && Readable(p.key)
    ensures AddField(row, ParamWord(p)) == row[p.key := p.value.value]
  {
    var w, at := ParamWord(p), |p.key| + 1;
    assert forall i | 1 <= i < at :: w[i] == p.key[i - 1];
    FirstEquals(w, at);
    assert w[1..at] == p.key && w[at + 1..] == p.value.value;
  }

  lemma {:induction false} ParamsReadBack(params: seq<Param>)
    requires forall i | 0 <= i < |params| && Included(params[i]) :: Readable(params[i].key)
    ensures RowOf(ParamWords(params)) == Meaning(params)
  {
    if params != [] {
      var init, p := params[..|params| - 1], params[|params| - 1];
      ParamsReadBack(init);
      if Included(p) {
        assert (ParamWords(init) + [ParamWord(p)])[..|ParamWords(init)|] == ParamWords(init);
        ParamReadBack(Meaning(init), p);
      } else {
        assert ParamWords(params) == ParamWords(init);
      }
    }
  }

  /** No reader ever sees any other key. */
  lemma {:induction false} KeysAreReadable(ws: Sentence)
    ensures forall k | k in RowOf(ws) :: Readable(k)
    ensures |RowOf(ws)| <= |ws|
  {
    if ws != [] {
      var init, w := ws[..|ws| - 1], ws[|ws| - 1];
      KeysAreReadable(init);
      var eq := IndexFrom(w, EQUALS, 1);
      if eq.Some? && w[1..eq.value] != PROTO {
        assert RowOf(ws).Keys == RowOf(init).Keys + {w[1..eq.value]};
      }
    }
  }

  ghost predicate DistinctKeys(params: seq<Param>) {
    forall i, j | 0 <= i < j < |params| :: params[i].key != params[j].key
  }

  /** The keys that are sent. */
  ghost predicate Sends(params: seq<Param>, k: Word) {
    exists i | 0 <= i < |params| :: Included(params[i]) && params[i].key == k
  }

  lemma SendsLast(params: seq<Param>, k: Word)
    requires params != []
    ensures var p := params[|params| - 1];
            Sends(params, k) <==> Sends(params[..|params| - 1], k) || (Included(p) && p.key == k)
  {
    var init := params[..|params| - 1];
    if Sends(init, k) {
      var i :| 0 <= i < |init| && Included(init[i]) && init[i].key == k;
      assert params[i] == init[i];
    }
  }

  lemma {:induction false} MeaningKeys(params: seq<Param>, k: Word)
    ensures k in Meaning(params) <==> Sends(params, k)
  {
    if params != [] {
      MeaningKeys(params[..|params| - 1], k);
      SendsLast(params, k);
    }
  }

  lemma {:induction false} MeaningSize(params: seq<Param>)
    requires DistinctKeys(params)
    ensures |Meaning(params)| == |ParamWords(params)|
  {
    if params != [] {
      var init, p := params[..|params| - 1], params[|params| - 1];
      MeaningSize(init);
      if Included(p) {
        MeaningKeys(init, p.key);
        assert p.key !in Meaning(init).Keys;
        OneMore(Meaning(init), p.key, p.value.value);
      }
    }
  }

  lemma OneMore(row: Row, k: Word, v: Word)
    requires k !in row
    ensures |row[k := v]| == |row| + 1
  {
    assert row[k := v].Keys == row.Keys + {k};
  }

  /** The parameters survive the wire exactly when no key that is sent holds an
      `=` or is `__proto__`, and the command is not blank (or there is nothing to
      lose). */
  lemma {:induction false} ParametersSurvive(command: Word, params: seq<Param>)
    requires DistinctKeys(params) && Encodable(Built(command, params))
    ensures Received(EncodeSentence(Built(command, params))) == Meaning(params)
            <==> && (forall i | 0 <= i < |params| && Included(params[i]) :: Readable(params[i].key))
                 && (CommandWord(command) != [] || ParamWords(params) == [])
  {
    var ws := Built(command, params);
    SentenceSurvives(ws);
    MeaningSize(params);
    if CommandWord(command) != [] {
      assert ws[1..] == ParamWords(params);
      KeysAreReadable(ParamWords(params));
      if forall i | 0 <= i < |params| && Included(params[i]) :: Readable(params[i].key) {
        ParamsReadBack(params);
      }
      forall i | 0 <= i < |params| && Included(params[i]) ensures params[i].key in Meaning(params) {
        MeaningKeys(params, params[i].key);
      }
    } else if ParamWords(params) != [] {
      KeysAreReadable(ws[1..]);
    } else {
      forall i | 0 <= i < |params| && Included(params[i]) ensures params[i].key in Meaning(params) {
        MeaningKeys(params, params[i].key);
      }
    }
  }
}
