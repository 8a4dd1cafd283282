/**
 The RouterOS wire format in plain arithmetic: words behind their length,
 sentences behind an empty word. The bit-level codec of mikrotikApi.js is proved
 equal to it in module MikrotikApi.
 */
module WireFormat {
  import opened Basics

  type Byte = b: nat | b < 256
  type Word = seq<Byte>
  type Sentence = seq<Word>

  const MAX_WORD := 0x10000000

  // ---------------------------------------------------------- length prefixes

  datatype Prefix = Prefix(len: nat, bytesRead: nat)

  /** The bytes of a length below MAX_WORD. */
  function LengthBytes(len: nat): (bytes: seq<Byte>)
    requires len < MAX_WORD
  {
    if len < 0x80 then [len]
    else if len < 0x4000 then [0x80 + len / 0x100, len % 0x100]
    else if len < 0x200000 then [0xc0 + len / 0x10000, len / 0x100 % 0x100, len % 0x100]
    else [0xe0 + len / 0x1000000, len / 0x10000 % 0x100, len / 0x100 % 0x100, len % 0x100]
  }

  /** Nothing is 0 past the end of the buffer. */
  function At(buf: seq<Byte>, i: nat): Byte { if i < |buf| then buf[i] else 0 }

  /** The length four bytes stand for, and how many of them it takes. */
  function LengthOf(b: Byte, b1: Byte, b2: Byte, b3: Byte): Prefix {
    if b < 0x80 then Prefix(b, 1)
    else if b < 0xc0 then Prefix((b - 0x80) * 0x100 + b1, 2)
    else if b < 0xe0 then Prefix((b - 0xc0) * 0x10000 + b1 * 0x100 + b2, 3)
    else Prefix((if b < 0xf0 then b - 0xe0 else b - 0xf0) * 0x1000000 + b1 * 0x10000 + b2 * 0x100 + b3, 4)
  }

  function Header(buf: seq<Byte>, o: nat): (p: Prefix)
    ensures 1 <= p.bytesRead <= 4 && p.len < MAX_WORD
  {
    LengthOf(At(buf, o), At(buf, o + 1), At(buf, o + 2), At(buf, o + 3))
  }

  lemma Digits3(len: nat)
    ensures len == len / 0x10000 * 0x10000 + len / 0x100 % 0x100 * 0x100 + len % 0x100
  {
    assert len == len / 0x100 * 0x100 + len % 0x100;
    assert len / 0x100 == len / 0x10000 * 0x100 + len / 0x100 % 0x100;
  }

  lemma Digits4(len: nat)
    ensures len == len / 0x1000000 * 0x1000000 + len / 0x10000 % 0x100 * 0x10000 + len / 0x100 % 0x100 * 0x100
            + len % 0x100
  {
    Digits3(len);
    assert len / 0x10000 == len / 0x1000000 * 0x100 + len / 0x10000 % 0x100;
  }

  /** A length prefix reads back as what was written, whatever follows. */
  lemma LengthRoundTrip(len: nat, rest: seq<Byte>)
    requires len < MAX_WORD
    ensures Header(LengthBytes(len) + rest, 0) == Prefix(len, |LengthBytes(len)|)
  {
    Digits3(len);
    Digits4(len);
    var e := LengthBytes(len);
    assert forall i | 0 <= i < |e| :: At(e + rest, i) == e[i];
  }

  // -------------------------------------------------------- words, sentences

  function FrameWord(w: Word): seq<Byte>
    requires |w| < MAX_WORD
  {
    LengthBytes(|w|) + w
  }

  ghost predicate Encodable(ws: Sentence) { forall i | 0 <= i < |ws| :: |ws[i]| < MAX_WORD }

  ghost predicate AllEncodable(ss: seq<Sentence>) { forall i | 0 <= i < |ss| :: Encodable(ss[i]) }

  ghost function FrameWords(ws: Sentence): seq<Byte>
    requires Encodable(ws)
  {
    if ws == [] then [] else FrameWord(ws[0]) + FrameWords(ws[1..])
  }

  ghost function FrameSentence(ws: Sentence): seq<Byte>
    requires Encodable(ws)
  {
    FrameWords(ws) + [0]
  }

  ghost function FrameAll(ss: seq<Sentence>): seq<Byte>
    requires AllEncodable(ss)
  {
    if ss == [] then [] else FrameSentence(ss[0]) + FrameAll(ss[1..])
  }

  /** A word as read: `declared` is the length its prefix announced, and `bytes`
      what the buffer still held of it. A length of 0 ends a sentence. */
  datatype Token = End | Read(bytes: Word, declared: nat)

  function Take(buf: seq<Byte>, n: nat): seq<Byte> { buf[..Min(n, |buf|)] }

  function Drop(buf: seq<Byte>, n: nat): seq<Byte> { buf[Min(n, |buf|)..] }

  /** The token a non-empty buffer starts with, and what is left after it. */
  function First(buf: seq<Byte>): Token
    requires buf != []
  {
    var Prefix(len, n) := Header(buf, 0);
    if len == 0 then End else Read(Take(Drop(buf, n), len), len)
  }

  function After(buf: seq<Byte>): seq<Byte>
    requires buf != []
  {
    var Prefix(len, n) := Header(buf, 0);
    Drop(buf, n + len)
  }

  function Tokens(buf: seq<Byte>): seq<Token>
    decreases |buf|
  {
    if buf == [] then [] else [First(buf)] + Tokens(After(buf))
  }

  /** Sentences are what stands between ends; empty ones and one that is not
      ended are dropped. `open` is the sentence being read. */
  function Split(open: Sentence, ts: seq<Token>): seq<Sentence>
    decreases |ts|
  {
    if ts == [] then []
    else if ts[0].Read? then Split(open + [ts[0].bytes], ts[1..])
    else (if open == [] then [] else [open]) + Split([], ts[1..])
  }

  function Parse(buf: seq<Byte>): seq<Sentence> { Split([], Tokens(buf)) }

  lemma HeaderInSuffix(buf: seq<Byte>, n: nat, i: nat)
    requires n <= |buf|
    ensures Header(buf[n..], i) == Header(buf, n + i)
  {
  }

  lemma DropDrop(buf: seq<Byte>, a: nat, b: nat)
    ensures Drop(Drop(buf, a), b) == Drop(buf, a + b)
  {
    if a + b <= |buf| {
      assert buf[a..][b..] == buf[a + b..];
    }
  }

  lemma HeaderOfDrop(buf: seq<Byte>, offset: nat)
    requires offset < |buf|
    ensures Header(Drop(buf, offset), 0) == Header(buf, offset)
  {
    HeaderInSuffix(buf, offset, 0);
  }

  lemma FirstBy(rest: seq<Byte>, p: Prefix, tail: seq<Byte>, next: seq<Byte>)
    requires rest != [] && p == Header(rest, 0)
    requires tail == Drop(rest, p.bytesRead) && next == Drop(rest, p.bytesRead + p.len)
    ensures First(rest) == if p.len == 0 then End else Read(Take(tail, p.len), p.len)
    ensures After(rest) == next
  {
  }

  /** Reading at an offset is reading the rest of the buffer from its start. */
  lemma ReadAt(buf: seq<Byte>, offset: nat, p: Prefix)
    requires offset < |buf| && p == Header(buf, offset)
    ensures First(Drop(buf, offset)) ==
            if p.len == 0 then End else Read(Take(Drop(buf, offset + p.bytesRead), p.len), p.len)
    ensures After(Drop(buf, offset)) == Drop(buf, offset + p.bytesRead + p.len)
  {
    HeaderOfDrop(buf, offset);
    DropDrop(buf, offset, p.bytesRead);
    DropDrop(buf, offset, p.bytesRead + p.len);
    FirstBy(Drop(buf, offset), p, Drop(buf, offset + p.bytesRead), Drop(buf, offset + p.bytesRead + p.len));
  }

  lemma SplitStep(done: seq<Sentence>, open: Sentence, t: Token, ts: seq<Token>)
    ensures done + Split(open, [t] + ts) ==
            if t.Read? then done + Split(open + [t.bytes], ts)
            else (if open == [] then done else done + [open]) + Split([], ts)
  {
    assert ([t] + ts)[1..] == ts;
  }

  lemma TokensOfRest(buf: seq<Byte>, offset: nat, next: nat)
    requires offset < |buf| && Drop(buf, next) == After(Drop(buf, offset))
    ensures Tokens(Drop(buf, offset)) == [First(Drop(buf, offset))] + Tokens(Drop(buf, next))
  {
  }

  // -------------------------------------------------------------- round trip

  /** The stretches of non-empty words of a sentence, `open` being the one that
      runs into it. */
  function Pieces(open: Sentence, ws: Sentence): seq<Sentence>
    decreases |ws|
  {
    if ws == [] then (if open == [] then [] else [open])
    else if ws[0] == [] then (if open == [] then [] else [open]) + Pieces([], ws[1..])
    else Pieces(open + [ws[0]], ws[1..])
  }

  function AllPieces(ss: seq<Sentence>): seq<Sentence> {
    if ss == [] then [] else Pieces([], ss[0]) + AllPieces(ss[1..])
  }

  function TokenOf(w: Word): Token { if w == [] then End else Read(w, |w|) }

  lemma FirstOfWord(w: Word, rest: seq<Byte>)
    requires |w| < MAX_WORD
    ensures FrameWord(w) + rest != []
    ensures First(FrameWord(w) + rest) == TokenOf(w) && After(FrameWord(w) + rest) == rest
    ensures Header(FrameWord(w) + rest, 0) == Prefix(|w|, |FrameWord(w)| - |w|)
  {
    var e := LengthBytes(|w|);
    LengthRoundTrip(|w|, w + rest);
    assert FrameWord(w) + rest == e + (w + rest);
    assert Drop(e + (w + rest), |e|) == w + rest;
    assert Drop(e + (w + rest), |e| + |w|) == rest;
    assert Take(w + rest, |w|) == w;
  }

  lemma Regroup(a: seq<Byte>, b: seq<Byte>, c: seq<Byte>, d: seq<Byte>)
    ensures ((a + b) + c) + d == a + ((b + c) + d)
  {
  }

  lemma SplitOfWord(open: Sentence, w: Word, tail: seq<Byte>)
    requires |w| < MAX_WORD
    ensures Split(open, Tokens(FrameWord(w) + tail)) ==
            if w != [] then Split(open + [w], Tokens(tail))
            else (if open == [] then [] else [open]) + Split([], Tokens(tail))
  {
    FirstOfWord(w, tail);
    assert Tokens(FrameWord(w) + tail) == [TokenOf(w)] + Tokens(tail);
    SplitStep([], open, TokenOf(w), Tokens(tail));
  }

  lemma {:induction false} SplitOfSentence(open: Sentence, ws: Sentence, rest: seq<Byte>)
    requires Encodable(ws)
    ensures Split(open, Tokens(FrameSentence(ws) + rest)) == Pieces(open, ws) + Split([], Tokens(rest))
    decreases |ws|
  {
    if ws == [] {
      assert FrameSentence(ws) == FrameWord([]);
      SplitOfWord(open, [], rest);
    } else {
      var tail := FrameSentence(ws[1..]) + rest;
      Regroup(FrameWord(ws[0]), FrameWords(ws[1..]), [0], rest);
      SplitOfWord(open, ws[0], tail);
      if ws[0] == [] {
        SplitOfSentence([], ws[1..], rest);
      } else {
        SplitOfSentence(open + [ws[0]], ws[1..], rest);
      }
    }
  }

  /** Parsing what was encoded gives every sentence cut at its empty words. */
  lemma {:induction false} RoundTrip(ss: seq<Sentence>)
    requires AllEncodable(ss)
    ensures Parse(FrameAll(ss)) == AllPieces(ss)
  {
    if ss != [] {
      SplitOfSentence([], ss[0], FrameAll(ss[1..]));
      RoundTrip(ss[1..]);
    }
  }

  /** Sentences the parser can return: not empty, and no empty word in them. */
  ghost predicate Solid(s: Sentence) { s != [] && forall i | 0 <= i < |s| :: 0 < |s[i]| < MAX_WORD }

  ghost predicate AllSolid(ss: seq<Sentence>) { forall i | 0 <= i < |ss| :: Solid(ss[i]) }

  lemma {:induction false} PiecesOfSolid(open: Sentence, ws: Sentence)
    requires forall i | 0 <= i < |ws| :: ws[i] != []
    ensures Pieces(open, ws) == if open + ws == [] then [] else [open + ws]
    decreases |ws|
  {
    if ws != [] {
      PiecesOfSolid(open + [ws[0]], ws[1..]);
      assert open + [ws[0]] + ws[1..] == open + ws;
    } else {
      assert open + ws == open;
    }
  }

  lemma {:induction false} AllPiecesOfSolid(ss: seq<Sentence>)
    requires AllSolid(ss)
    ensures AllPieces(ss) == ss
  {
    if ss != [] {
      PiecesOfSolid([], ss[0]);
      AllPiecesOfSolid(ss[1..]);
      assert [] + ss[0] == ss[0];
    }
  }

  /** The round trip is the identity exactly on non-empty sentences of non-empty words. */
  lemma ExactRoundTrip(ss: seq<Sentence>)
    requires AllEncodable(ss)
    ensures Parse(FrameAll(ss)) == ss <==> AllSolid(ss)
  {
    RoundTrip(ss);
    if AllSolid(ss) {
      AllPiecesOfSolid(ss);
    }
    if Parse(FrameAll(ss)) == ss {
      ParsedIsSolid(FrameAll(ss));
    }
  }

  // ------------------------------------------------------------- normal form

  ghost predicate FramedAt(buf: seq<Byte>, i: nat, w: Word) {
    var p := Header(buf, i);
    && p.len == |w|
    && i + p.bytesRead + |w| <= |buf|
    && buf[i + p.bytesRead..i + p.bytesRead + |w|] == w
  }

  /** The word stands in the buffer, whole, right after its own length. */
  ghost predicate Framed(buf: seq<Byte>, w: Word) { exists i: nat :: FramedAt(buf, i, w) }

  lemma FramedInSuffix(buf: seq<Byte>, n: nat, w: Word)
    requires n <= |buf| && Framed(buf[n..], w)
    ensures Framed(buf, w)
  {
    var tail := buf[n..];
    var i: nat :| FramedAt(tail, i, w);
    HeaderInSuffix(buf, n, i);
    var p := Header(tail, i);
    assert buf[n + i + p.bytesRead..n + i + p.bytesRead + |w|] == tail[i + p.bytesRead..i + p.bytesRead + |w|];
    assert FramedAt(buf, n + i, w);
  }

  lemma HeaderIsLocal(a: seq<Byte>, b: seq<Byte>)
    requires Header(a, 0).bytesRead <= |a|
    ensures Header(a + b, 0) == Header(a, 0)
  {
  }

  lemma DropLocal(a: seq<Byte>, b: seq<Byte>, n: nat, len: nat)
    requires n + len <= |a|
    ensures Take(Drop(a + b, n), len) == Take(Drop(a, n), len) == a[n..n + len]
    ensures Drop(a + b, n + len) == Drop(a, n + len) + b
  {
  }

  /** A token whose bytes are all there does not depend on what follows. */
  lemma FirstIsLocal(a: seq<Byte>, b: seq<Byte>)
    requires a != []
    requires var Prefix(len, n) := Header(a, 0); n + len <= |a|
    ensures First(a + b) == First(a) && After(a + b) == After(a) + b
    ensures First(a).Read? ==> 0 < |First(a).bytes| < MAX_WORD && FramedAt(a, 0, First(a).bytes)
  {
    HeaderIsLocal(a, b);
    DropLocal(a, b, Header(a, 0).bytesRead, Header(a, 0).len);
  }

  lemma FirstIsWhole(buf: seq<Byte>)
    requires buf != [] && After(buf) != [] && First(buf).Read?
    ensures 0 < |First(buf).bytes| < MAX_WORD && Framed(buf, First(buf).bytes)
  {
    FirstIsLocal(buf, []);
    assert FramedAt(buf, 0, First(buf).bytes);
  }

  lemma LaterIsWhole(buf: seq<Byte>, w: Word)
    requires buf != [] && Framed(After(buf), w)
    ensures Framed(buf, w)
  {
    FramedInSuffix(buf, |buf| - |After(buf)|, w);
  }

  /** Every token but the last is whole. */
  lemma {:induction false} TokensWhole(buf: seq<Byte>, k: nat)
    requires k + 1 < |Tokens(buf)| && Tokens(buf)[k].Read?
    ensures 0 < |Tokens(buf)[k].bytes| < MAX_WORD && Framed(buf, Tokens(buf)[k].bytes)
    decreases |buf|
  {
    var rest := After(buf);
    assert Tokens(buf) == [First(buf)] + Tokens(rest);
    if k == 0 {
      FirstIsWhole(buf);
    } else {
      TokensWhole(rest, k - 1);
      LaterIsWhole(buf, Tokens(rest)[k - 1].bytes);
    }
  }

  ghost predicate Whole(buf: seq<Byte>, s: Sentence) { Solid(s) && forall i | 0 <= i < |s| :: Framed(buf, s[i]) }

  ghost predicate AllWhole(buf: seq<Byte>, ss: seq<Sentence>) { forall i | 0 <= i < |ss| :: Whole(buf, ss[i]) }

  /** Only ended sentences come out, so none holds the last token. */
  lemma {:induction false} SplitWhole(buf: seq<Byte>, open: Sentence, ts: seq<Token>)
    requires forall k | 0 <= k && k + 1 < |ts| && ts[k].Read? :: Whole(buf, [ts[k].bytes])
    requires ts != [] ==> open == [] || Whole(buf, open)
    ensures AllWhole(buf, Split(open, ts))
    decreases |ts|
  {
    if ts != [] {
      if ts[0].Read? {
        if |ts| > 1 {
          assert Whole(buf, [ts[0].bytes]) && ts[0].bytes in [ts[0].bytes];
        }
        SplitWhole(buf, open + [ts[0].bytes], ts[1..]);
      } else {
        SplitWhole(buf, [], ts[1..]);
      }
    }
  }

  /** On any bytes whatsoever: only non-empty sentences of non-empty words come
      out, each word standing whole in the buffer behind its own length. */
  lemma ParsedIsWhole(buf: seq<Byte>)
    ensures AllWhole(buf, Parse(buf))
  {
    forall k | 0 <= k && k + 1 < |Tokens(buf)| && Tokens(buf)[k].Read? ensures Whole(buf, [Tokens(buf)[k].bytes]) {
      TokensWhole(buf, k);
    }
    SplitWhole(buf, [], Tokens(buf));
  }

  lemma ParsedIsSolid(buf: seq<Byte>)
    ensures AllSolid(Parse(buf)) && AllEncodable(Parse(buf))
  {
    ParsedIsWhole(buf);
  }

  /** Re-encoding what was parsed and parsing it again changes nothing. */
  lemma NormalForm(buf: seq<Byte>)
    ensures AllEncodable(Parse(buf)) && Parse(FrameAll(Parse(buf))) == Parse(buf)
  {
    ParsedIsSolid(buf);
    ExactRoundTrip(Parse(buf));
  }

  // ---------------------------------------------------------------- chunking

  /** The buffer ends where a sentence ends: no word is cut, none is open. */
  ghost predicate Aligned(buf: seq<Byte>)
    decreases |buf|
  {
    buf == [] ||
    var Prefix(len, n) := Header(buf, 0);
    && n + len <= |buf|
    && (if After(buf) == [] then len == 0 else Aligned(After(buf)))
  }

  lemma Prepend<T>(t: T, ts: seq<T>, us: seq<T>)
    ensures [t] + (ts + us) == ([t] + ts) + us
    ensures ts != [] ==> ([t] + ts)[|[t] + ts| - 1] == ts[|ts| - 1]
  {
  }

  lemma {:induction false} TokensOfAligned(a: seq<Byte>, b: seq<Byte>)
    requires Aligned(a)
    ensures Tokens(a + b) == Tokens(a) + Tokens(b)
    ensures a != [] ==> Tokens(a) != [] && Tokens(a)[|Tokens(a)| - 1] == End
    decreases |a|
  {
    if a == [] {
      assert a + b == b;
    } else {
      FirstIsLocal(a, b);
      TokensOfAligned(After(a), b);
      Prepend(First(a), Tokens(After(a)), Tokens(b));
    }
  }

  lemma {:induction false} SplitConcat(open: Sentence, ts: seq<Token>, us: seq<Token>)
    requires if ts == [] then open == [] else ts[|ts| - 1] == End
    ensures Split(open, ts + us) == Split(open, ts) + Split([], us)
    decreases |ts|
  {
    if ts == [] {
      assert ts + us == us;
    } else {
      assert (ts + us)[1..] == ts[1..] + us;
      if ts[0].Read? {
        SplitConcat(open + [ts[0].bytes], ts[1..], us);
      } else {
        SplitConcat([], ts[1..], us);
      }
    }
  }

  /** A buffer that ends with a sentence can be parsed on its own. */
  lemma ParseConcat(a: seq<Byte>, b: seq<Byte>)
    requires Aligned(a)
    ensures Parse(a + b) == Parse(a) + Parse(b)
  {
    TokensOfAligned(a, b);
    SplitConcat([], Tokens(a), Tokens(b));
  }

  lemma {:induction false} WordsAligned(ws: Sentence, rest: seq<Byte>)
    requires Encodable(ws) && Aligned(rest) && rest != []
    ensures Aligned(FrameWords(ws) + rest)
  {
    if ws == [] {
      assert FrameWords(ws) + rest == rest;
    } else {
      WordsAligned(ws[1..], rest);
      WordAligned(ws[0], FrameWords(ws[1..]) + rest);
      Assoc(FrameWord(ws[0]), FrameWords(ws[1..]), rest);
    }
  }

  lemma WordAligned(w: Word, tail: seq<Byte>)
    requires |w| < MAX_WORD && Aligned(tail) && tail != []
    ensures Aligned(FrameWord(w) + tail)
  {
    FirstOfWord(w, tail);
  }

  lemma EndAligned(rest: seq<Byte>)
    requires Aligned(rest)
    ensures Aligned([0] + rest)
  {
    FirstOfWord([], rest);
    assert FrameWord([]) + rest == [0] + rest;
  }

  /** What the encoder writes is aligned. */
  lemma {:induction false} EncodedIsAligned(ss: seq<Sentence>)
    requires AllEncodable(ss)
    ensures Aligned(FrameAll(ss))
  {
    if ss != [] {
      EncodedIsAligned(ss[1..]);
      EndAligned(FrameAll(ss[1..]));
      WordsAligned(ss[0], [0] + FrameAll(ss[1..]));
      Assoc(FrameWords(ss[0]), [0], FrameAll(ss[1..]));
    }
  }

  // ------------------------------------------------- the size of what is read

  function WordSize(w: Word): nat {
    |w| + if |w| < 0x80 then 1 else if |w| < 0x4000 then 2 else if |w| < 0x200000 then 3 else 4
  }

  function WordsSize(ws: Sentence): nat {
    if ws == [] then 0 else WordsSize(ws[..|ws| - 1]) + WordSize(ws[|ws| - 1])
  }

  function AllSize(ss: seq<Sentence>): nat { if ss == [] then 0 else WordsSize(ss[0]) + 1 + AllSize(ss[1..]) }

  lemma {:induction false} WordsSizeCons(w: Word, ws: Sentence)
    ensures WordsSize([w] + ws) == WordSize(w) + WordsSize(ws)
  {
    if ws == [] {
      assert [w] + ws == [w] && [w][..0] == [];
    } else {
      WordsSizeCons(w, ws[..|ws| - 1]);
      assert ([w] + ws)[..|ws|] == [w] + ws[..|ws| - 1];
    }
  }

  lemma {:induction false} FrameWordsSize(ws: Sentence)
    requires Encodable(ws)
    ensures |FrameWords(ws)| == WordsSize(ws)
  {
    if ws != [] {
      FrameWordsSize(ws[1..]);
      WordsSizeCons(ws[0], ws[1..]);
      assert ws == [ws[0]] + ws[1..];
    }
  }

  lemma {:induction false} FrameAllSize(ss: seq<Sentence>)
    requires AllEncodable(ss)
    ensures |FrameAll(ss)| == AllSize(ss)
  {
    if ss != [] {
      FrameWordsSize(ss[0]);
      FrameAllSize(ss[1..]);
    }
  }

  /** No shorter prefix announces the length. */
  lemma HeaderIsLongEnough(buf: seq<Byte>, w: Word)
    requires |w| == Header(buf, 0).len
    ensures WordSize(w) <= Header(buf, 0).bytesRead + |w|
  {
  }

  /** What a sentence begun and a buffer yield takes no more bytes than they do. */
  lemma {:induction false} SplitShrinks(open: Sentence, buf: seq<Byte>)
    ensures AllSize(Split(open, Tokens(buf))) <= WordsSize(open) + |buf|
    decreases |buf|
  {
    if buf != [] {
      var t, rest := First(buf), After(buf);
      SplitStep([], open, t, Tokens(rest));
      if t.Read? {
        ReadShrinks(open, buf);
      } else {
        SplitShrinks([], rest);
        EndSize(open, Split([], Tokens(rest)));
      }
    }
  }

  lemma EndSize(open: Sentence, ss: seq<Sentence>)
    ensures AllSize((if open == [] then [] else [open]) + ss) <= WordsSize(open) + 1 + AllSize(ss)
  {
    if open == [] {
      assert [] + ss == ss;
    } else {
      assert ([open] + ss)[1..] == ss;
    }
  }

  lemma {:induction false} ReadShrinks(open: Sentence, buf: seq<Byte>)
    requires buf != [] && First(buf).Read?
    ensures AllSize(Split(open + [First(buf).bytes], Tokens(After(buf)))) <= WordsSize(open) + |buf|
    decreases |buf|, 0
  {
    var w, rest := First(buf).bytes, After(buf);
    if rest == [] {
      assert Split(open + [w], Tokens(rest)) == [];
    } else {
      HeaderIsLongEnough(buf, w);
      SplitShrinks(open + [w], rest);
      assert (open + [w])[..|open|] == open;
    }
  }

  lemma ParseShrinks(buf: seq<Byte>)
    ensures AllEncodable(Parse(buf)) && |FrameAll(Parse(buf))| <= |buf|
  {
    ParsedIsSolid(buf);
    SplitShrinks([], buf);
    FrameAllSize(Parse(buf));
  }

  lemma {:induction false} FrameAllConcat(a: seq<Sentence>, b: seq<Sentence>)
    requires AllEncodable(a) && AllEncodable(b)
    ensures AllEncodable(a + b) && FrameAll(a + b) == FrameAll(a) + FrameAll(b)
  {
    if a == [] {
      assert a + b == b;
    } else {
      FrameAllConcat(a[1..], b);
      assert (a + b)[1..] == a[1..] + b;
      Assoc(FrameSentence(a[0]), FrameAll(a[1..]), FrameAll(b));
    }
  }
}
