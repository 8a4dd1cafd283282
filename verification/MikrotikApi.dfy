/** The codec of mikrotikApi.js 5-49, with its masks and shifts. */
module MikrotikApi {
  import opened Bits
  import opened WireFormat

  function EncodeLength(len: nat): seq<Byte> {
    if len < 0x80 then [len]
    else if len < 0x4000 then [Or(And(Shr(len, 8), 0x3f), 0x80), And(len, 0xff)]
    else if len < 0x200000 then [Or(And(Shr(len, 16), 0x1f), 0xc0), And(Shr(len, 8), 0xff), And(len, 0xff)]
    else [Or(And(Shr(len, 24), 0x0f), 0xe0), And(Shr(len, 16), 0xff), And(Shr(len, 8), 0xff), And(len, 0xff)]
  }

  function EncodeWord(w: Word): seq<Byte> { EncodeLength(|w|) + w }

  function EncodeWords(ws: seq<Word>): seq<Byte> {
    if ws == [] then [] else EncodeWord(ws[0]) + EncodeWords(ws[1..])
  }

  function EncodeSentence(ws: Sentence): seq<Byte> { EncodeWords(ws) + [0] }

  function EncodeAll(ss: seq<Sentence>): seq<Byte> {
    if ss == [] then [] else EncodeSentence(ss[0]) + EncodeAll(ss[1..])
  }

  /** Reading past the end gives undefined, which the bit operators take as 0. */
  function DecodeLength(buf: seq<Byte>, offset: nat): (p: Prefix)
    ensures 1 <= p.bytesRead <= 4
  {
    var b := At(buf, offset);
    if And(b, 0x80) == 0 then Prefix(b, 1)
    else if And(b, 0xc0) == 0x80 then Prefix(Or(Shl(And(b, 0x3f), 8), At(buf, offset + 1)), 2)
    else if And(b, 0xe0) == 0xc0 then
      Prefix(Or(Or(Shl(And(b, 0x1f), 16), Shl(At(buf, offset + 1), 8)), At(buf, offset + 2)), 3)
    else
      Prefix(Or(Or(Or(Shl(And(b, 0x0f), 24), Shl(At(buf, offset + 1), 16)), Shl(At(buf, offset + 2), 8)),
                At(buf, offset + 3)), 4)
  }

  /** Masking the top digits of a byte leaves its multiple of the unit below them. */
  lemma TopMask(b: nat, mask: nat, count: nat, k: nat, unit: nat)
    requires unit > 0 && Shr(b, k) == b / unit && Shl(b / unit, k) == unit * (b / unit)
    requires mask == Shl(Ones(count), k) && b / unit <= Ones(count)
    ensures And(b, mask) == unit * (b / unit)
  {
    AndShifted(b, Ones(count), k);
    AndOnes(b / unit, count);
    LowOfSmall(b / unit, count);
  }

  lemma Top1(b: Byte)
    ensures And(b, 0x80) == 0x80 * (b / 0x80)
  {
    OnesTable();
    ShrTable(b);
    ShlTable(b / 0x80);
    ShlTable(1);
    TopMask(b, 0x80, 1, 7, 0x80);
  }

  lemma Top2(b: Byte)
    ensures And(b, 0xc0) == 0x40 * (b / 0x40)
  {
    OnesTable();
    ShrTable(b);
    ShlTable(b / 0x40);
    ShlTable(3);
    TopMask(b, 0xc0, 2, 6, 0x40);
  }

  lemma Top3(b: Byte)
    ensures And(b, 0xe0) == 0x20 * (b / 0x20)
  {
    OnesTable();
    ShrTable(b);
    ShlTable(b / 0x20);
    ShlTable(7);
    TopMask(b, 0xe0, 3, 5, 0x20);
  }

  lemma Mask80(b: Byte)
    ensures And(b, 0x80) == 0 <==> b < 0x80
  {
    Top1(b);
    assert b / 0x80 == 0 <==> b < 0x80;
  }

  lemma MaskC0(b: Byte)
    ensures And(b, 0xc0) == 0x80 <==> 0x80 <= b < 0xc0
  {
    Top2(b);
    assert b / 0x40 == 2 <==> 0x80 <= b < 0xc0;
  }

  lemma MaskE0(b: Byte)
    ensures And(b, 0xe0) == 0xc0 <==> 0xc0 <= b < 0xe0
  {
    Top3(b);
    assert b / 0x20 == 6 <==> 0xc0 <= b < 0xe0;
  }

  lemma Mask3F(b: Byte)
    requires 0x80 <= b < 0xc0
    ensures And(b, 0x3f) == b - 0x80
  {
    assert Ones(6) == 0x3f && Shl(2, 6) == 0x80;
    MaskOff(2, b - 0x80, 6);
  }

  lemma Mask1F(b: Byte)
    requires 0xc0 <= b < 0xe0
    ensures And(b, 0x1f) == b - 0xc0
  {
    assert Ones(5) == 0x1f && Shl(6, 5) == 0xc0;
    MaskOff(6, b - 0xc0, 5);
  }

  lemma Mask0F(b: Byte)
    requires 0xe0 <= b
    ensures And(b, 0x0f) == if b < 0xf0 then b - 0xe0 else b - 0xf0
  {
    assert Ones(4) == 0x0f && Shl(14, 4) == 0xe0 && Shl(15, 4) == 0xf0;
    if b < 0xf0 {
      MaskOff(14, b - 0xe0, 4);
    } else {
      MaskOff(15, b - 0xf0, 4);
    }
  }

  lemma Join2(h: nat, b1: Byte)
    ensures Or(Shl(h, 8), b1) == h * 0x100 + b1
  {
    OnesTable();
    ShlTable(h);
    OrDisjoint(h, b1, 8);
  }

  lemma JoinAt8(h: nat, b: Byte)
    ensures Or(Shl(h, 16), Shl(b, 8)) == Shl(h * 0x100 + b, 8)
  {
    OnesTable();
    ShlTable(h);
    ShlTable(b);
    OrDisjoint(h, Shl(b, 8), 16);
    ShlTable(h * 0x100 + b);
  }

  lemma JoinAt16(h: nat, b: Byte)
    ensures Or(Shl(h, 24), Shl(b, 16)) == Shl(h * 0x100 + b, 16)
  {
    OnesTable();
    ShlTable(h);
    ShlTable(b);
    OrDisjoint(h, Shl(b, 16), 24);
    ShlTable(h * 0x100 + b);
  }

  lemma Join3(h: nat, b1: Byte, b2: Byte)
    ensures Or(Or(Shl(h, 16), Shl(b1, 8)), b2) == h * 0x10000 + b1 * 0x100 + b2
  {
    JoinAt8(h, b1);
    Join2(h * 0x100 + b1, b2);
  }

  lemma Join4(h: nat, b1: Byte, b2: Byte, b3: Byte)
    ensures Or(Or(Or(Shl(h, 24), Shl(b1, 16)), Shl(b2, 8)), b3) == h * 0x1000000 + b1 * 0x10000 + b2 * 0x100 + b3
  {
    JoinAt16(h, b1);
    Join3(h * 0x100 + b1, b2, b3);
  }

  lemma Payload2(b: Byte, b1: Byte)
    requires 0x80 <= b < 0xc0
    ensures Or(Shl(And(b, 0x3f), 8), b1) == (b - 0x80) * 0x100 + b1
  {
    Mask3F(b);
    Join2(And(b, 0x3f), b1);
  }

  lemma Payload3(b: Byte, b1: Byte, b2: Byte)
    requires 0xc0 <= b < 0xe0
    ensures Or(Or(Shl(And(b, 0x1f), 16), Shl(b1, 8)), b2) == (b - 0xc0) * 0x10000 + b1 * 0x100 + b2
  {
    Mask1F(b);
    Join3(And(b, 0x1f), b1, b2);
  }

  lemma Payload4(b: Byte, b1: Byte, b2: Byte, b3: Byte)
    requires 0xe0 <= b
    ensures Or(Or(Or(Shl(And(b, 0x0f), 24), Shl(b1, 16)), Shl(b2, 8)), b3) == LengthOf(b, b1, b2, b3).len
  {
    Mask0F(b);
    Join4(And(b, 0x0f), b1, b2, b3);
  }

  /** The masks and shifts of decodeLength read the arithmetic length. */
  lemma DecodeIsHeader(buf: seq<Byte>, o: nat)
    ensures DecodeLength(buf, o) == Header(buf, o)
  {
    var b, b1, b2, b3 := At(buf, o), At(buf, o + 1), At(buf, o + 2), At(buf, o + 3);
    Mask80(b);
    if 0x80 <= b {
      MaskC0(b);
      if b < 0xc0 {
        Payload2(b, b1);
      } else {
        MaskE0(b);
        if b < 0xe0 {
          Payload3(b, b1, b2);
        } else {
          Payload4(b, b1, b2, b3);
        }
      }
    }
  }

  lemma EncodeIn2(len: nat)
    requires 0x80 <= len < 0x4000
    ensures EncodeLength(len) == LengthBytes(len)
  {
    OnesTable();
    ShrTable(len);
    ByteOf(len);
    Tagged(len / 0x100, 2, 6);
    ShlTable(2);
  }

  lemma EncodeIn3(len: nat)
    requires 0x4000 <= len < 0x200000
    ensures EncodeLength(len) == LengthBytes(len)
  {
    OnesTable();
    ShrTable(len);
    ByteOf(len);
    ByteOf(len / 0x100);
    Tagged(len / 0x10000, 6, 5);
    ShlTable(6);
  }

  lemma EncodeIn4(len: nat)
    requires 0x200000 <= len < MAX_WORD
    ensures EncodeLength(len) == LengthBytes(len)
  {
    OnesTable();
    ShrTable(len);
    ByteOf(len);
    ByteOf(len / 0x100);
    ByteOf(len / 0x10000);
    Tagged(len / 0x1000000, 14, 4);
    ShlTable(14);
  }

  /** The bytes of a length prefix, in plain arithmetic. */
  lemma EncodeIsLengthBytes(len: nat)
    requires len < MAX_WORD
    ensures EncodeLength(len) == LengthBytes(len)
  {
    if 0x200000 <= len {
      EncodeIn4(len);
    } else if 0x4000 <= len {
      EncodeIn3(len);
    } else if 0x80 <= len {
      EncodeIn2(len);
    }
  }

  lemma ByteOf(x: nat)
    ensures And(x, 0xff) == x % 0x100
  {
    OnesTable();
    AndOnes(x, 8);
    LowTable(x);
  }

  /** A tag in the high digits, put on a value that fits below it. */
  lemma Tagged(x: nat, tag: nat, k: nat)
    ensures x <= Ones(k) ==> Or(And(x, Ones(k)), Shl(tag, k)) == Shl(tag, k) + x
  {
    if x <= Ones(k) {
      AndOnes(x, k);
      LowOfSmall(x, k);
      OrDisjoint(tag, x, k);
    }
  }

  method ReadLength(buf: seq<Byte>, offset: nat) returns (len: nat, bytesRead: nat)
    ensures Prefix(len, bytesRead) == Header(buf, offset)
  {
    DecodeIsHeader(buf, offset);
    var p := DecodeLength(buf, offset);
    return p.len, p.bytesRead;
  }

  /** The prefix at an offset and, unless it is 0, the bytes behind it. */
  method ReadToken(buf: seq<Byte>, offset: nat) returns (t: Token, next: nat)
    requires offset < |buf|
    ensures offset < next
    ensures t == First(Drop(buf, offset)) && Drop(buf, next) == After(Drop(buf, offset))
  {
    var len, bytesRead := ReadLength(buf, offset);
    ReadAt(buf, offset, Prefix(len, bytesRead));
    next := offset + bytesRead + len;
    if len == 0 {
      return End, next;
    }
    return Read(Take(Drop(buf, offset + bytesRead), len), len), next;
  }

  /** A word goes to the open sentence; an end closes it, if it holds a word. */
  method TakeToken(sentences: seq<Sentence>, current: Sentence, t: Token, ghost ts: seq<Token>)
    returns (sentences': seq<Sentence>, current': Sentence)
    ensures sentences' + Split(current', ts) == sentences + Split(current, [t] + ts)
  {
    SplitStep(sentences, current, t, ts);
    if t.Read? {
      return sentences, current + [t.bytes];
    }
    if |current| > 0 {
      return sentences + [current], [];
    }
    return sentences, [];
  }

  /** What is done and what is left to read make up the parse. */
  ghost predicate Reached(buf: seq<Byte>, offset: nat, sentences: seq<Sentence>, current: Sentence) {
    sentences + Split(current, Tokens(Drop(buf, offset))) == Parse(buf)
  }

  lemma ReachedAtStart(buf: seq<Byte>)
    ensures Reached(buf, 0, [], [])
  {
    assert Drop(buf, 0) == buf;
  }

  lemma ReachedAtEnd(buf: seq<Byte>, offset: nat, sentences: seq<Sentence>, current: Sentence)
    requires Reached(buf, offset, sentences, current) && offset >= |buf|
    ensures sentences == Parse(buf)
  {
    assert Tokens(Drop(buf, offset)) == [] && Split(current, []) == [];
  }

  /** One turn of the loop. */
  method Turn(buf: seq<Byte>, offset: nat, sentences: seq<Sentence>, current: Sentence)
    returns (offset': nat, sentences': seq<Sentence>, current': Sentence)
    requires Reached(buf, offset, sentences, current) && offset < |buf|
    ensures Reached(buf, offset', sentences', current') && offset < offset'
  {
    var t;
    t, offset' := ReadToken(buf, offset);
    TokensOfRest(buf, offset, offset');
    sentences', current' := TakeToken(sentences, current, t, Tokens(Drop(buf, offset')));
  }

  /** The loop of parseReply. */
  method ParseReply(buf: seq<Byte>) returns (sentences: seq<Sentence>)
    ensures sentences == Parse(buf)
  {
    sentences := [];
    var current: Sentence := [];
    var offset: nat := 0;
    ReachedAtStart(buf);
    while offset < |buf|
      invariant Reached(buf, offset, sentences, current)
      decreases |buf| - offset
    {
      offset, sentences, current := Turn(buf, offset, sentences, current);
    }
    ReachedAtEnd(buf, offset, sentences, current);
  }

  // ------------------------------------------------------------ the theorems

  lemma {:induction false} EncodeIsFrame(ws: Sentence)
    requires Encodable(ws)
    ensures EncodeSentence(ws) == FrameSentence(ws)
  {
    EncodeWordsIsFrame(ws);
  }

  lemma {:induction false} EncodeWordsIsFrame(ws: Sentence)
    requires Encodable(ws)
    ensures EncodeWords(ws) == FrameWords(ws)
  {
    if ws != [] {
      EncodeIsLengthBytes(|ws[0]|);
      EncodeWordsIsFrame(ws[1..]);
    }
  }

  lemma {:induction false} EncodeAllIsFrame(ss: seq<Sentence>)
    requires AllEncodable(ss)
    ensures EncodeAll(ss) == FrameAll(ss)
  {
    if ss != [] {
      EncodeIsFrame(ss[0]);
      EncodeAllIsFrame(ss[1..]);
    }
  }

  /** What parseReply makes of encoded sentences: each cut at its empty words,
      empty pieces dropped; the very sentences exactly when neither occurs. */
  lemma WireRoundTrip(ss: seq<Sentence>)
    requires AllEncodable(ss)
    ensures Parse(EncodeAll(ss)) == AllPieces(ss)
    ensures Parse(EncodeAll(ss)) == ss <==> AllSolid(ss)
  {
    EncodeAllIsFrame(ss);
    RoundTrip(ss);
    ExactRoundTrip(ss);
  }

  /** On any bytes, parsing the re-encoding of what was parsed changes nothing. */
  lemma ReencodingIsStable(buf: seq<Byte>)
    ensures Parse(EncodeAll(Parse(buf))) == Parse(buf)
  {
    NormalForm(buf);
    EncodeAllIsFrame(Parse(buf));
  }
}
