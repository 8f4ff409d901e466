/** Base 64 encoding with the standard alphabet and `=` padding, as defined in
    section 4 of RFC 4648. The portal's `token` request header is this encoding
    of a JSON text. */
module Base64 {
  import opened Common

  /** A 6-bit value, the unit one base 64 symbol carries. */
  type Sextet = x: int | 0 <= x < 64

  /** The symbol of a 6-bit value in the standard alphabet (Table 1 of RFC 4648). */
  function Symbol(v: Sextet): (c: char)
  {
    if v < 26 then (('A' as int) + v) as char
    else if v < 52 then (('a' as int) + (v - 26)) as char
    else if v < 62 then (('0' as int) + (v - 52)) as char
    else if v == 62 then '+'
    else '/'
  }

  /** The 6-bit value of a symbol of the alphabet; `None` for any other character
      (the pad character `=` included). */
  function Value(c: char): (r: Option<Sextet>)
    ensures r.Some? ==> Symbol(r.value) == c
  {
    if 'A' <= c <= 'Z' then Some(c as int - 'A' as int)
    else if 'a' <= c <= 'z' then Some(c as int - 'a' as int + 26)
    else if '0' <= c <= '9' then Some(c as int - '0' as int + 52)
    else if c == '+' then Some(62)
    else if c == '/' then Some(63)
    else None
  }

  lemma ValueOfSymbol(v: Sextet)
    ensures Value(Symbol(v)) == Some(v)
  {
  }

  /** The three bytes that four sextets carry, most significant bit first. */
  function JoinGroup(v0: Sextet, v1: Sextet, v2: Sextet, v3: Sextet): (b: seq<Byte>)
    ensures |b| == 3
  {
    [(v0 as int) * 4 + (v1 as int) / 16, ((v1 as int) % 16) * 16 + (v2 as int) / 4, ((v2 as int) % 4) * 64 + v3 as int]
  }

  /** Splits three bytes into four sextets, most significant bit first. */
  function SplitGroup(b0: Byte, b1: Byte, b2: Byte): (Sextet, Sextet, Sextet, Sextet)
  {
    (b0 / 4, (b0 % 4) * 16 + b1 / 16, (b1 % 16) * 4 + b2 / 64, b2 % 64)
  }

  lemma JoinOfSplit(b0: Byte, b1: Byte, b2: Byte)
    ensures var v := SplitGroup(b0, b1, b2); JoinGroup(v.0, v.1, v.2, v.3) == [b0, b1, b2]
  {
    var v1 := (b0 % 4) * 16 + b1 / 16;
    var v2 := (b1 % 16) * 4 + b2 / 64;
    assert v1 / 16 == b0 % 4 && v1 % 16 == b1 / 16;
    assert v2 / 4 == b1 % 16 && v2 % 4 == b2 / 64;
  }

  /** Encodes each group of three bytes as four symbols; a final group of one or
      two bytes is completed with zero bits and padded with `=` to four symbols. */
  function Encode(b: seq<Byte>): (s: string)
    ensures 4 * |b| <= 3 * |s| <= 4 * |b| + 8
    decreases |b|
  {
    if |b| == 0 then ""
    else if |b| == 1 then
      var v := SplitGroup(b[0], 0, 0);
      [Symbol(v.0), Symbol(v.1), '=', '=']
    else if |b| == 2 then
      var v := SplitGroup(b[0], b[1], 0);
      [Symbol(v.0), Symbol(v.1), Symbol(v.2), '=']
    else
      var v := SplitGroup(b[0], b[1], b[2]);
      [Symbol(v.0), Symbol(v.1), Symbol(v.2), Symbol(v.3)] + Encode(b[3..])
  }

  /** Decodes four symbols without padding into three bytes. */
  function DecodeFull(q: string): (r: Option<seq<Byte>>)
    requires |q| == 4
  {
    match (Value(q[0]), Value(q[1]), Value(q[2]), Value(q[3]))
    case (Some(v0), Some(v1), Some(v2), Some(v3)) =>
      Some(JoinGroup(v0, v1, v2, v3))
    case _ => None
  }

  /** Decodes the last group of four characters, which may end in one or two
      pad characters. Pad bits that are not zero are rejected, so that every
      byte sequence has exactly one encoding. */
  function DecodeLast(q: string): (r: Option<seq<Byte>>)
    requires |q| == 4
  {
    if q[2] == '=' && q[3] == '=' then
      match (Value(q[0]), Value(q[1]))
      case (Some(v0), Some(v1)) =>
        if v1 % 16 == 0 then Some(JoinGroup(v0, v1, 0, 0)[..1]) else None
      case _ => None
    else if q[3] == '=' then
      match (Value(q[0]), Value(q[1]), Value(q[2]))
      case (Some(v0), Some(v1), Some(v2)) =>
        if v2 % 4 == 0 then Some(JoinGroup(v0, v1, v2, 0)[..2]) else None
      case _ => None
    else DecodeFull(q)
  }

  /** The inverse of `Encode`: `None` when the text is not a canonical
      padded encoding. */
  function Decode(s: string): (r: Option<seq<Byte>>)
    ensures r.Some? ==> |s| % 4 == 0 && 4 * |r.value| <= 3 * |s|
    decreases |s|
  {
    if |s| == 0 then Some([])
    else if |s| < 4 then None
    else if |s| == 4 then DecodeLast(s)
    else
      match (DecodeFull(s[..4]), Decode(s[4..]))
      case (Some(head), Some(tail)) => Some(head + tail)
      case _ => None
  }

  /** The encoding has four symbols for every group of three bytes, a
      final partial group counting as a whole one. */
  lemma {:induction false} EncodedLengthExact(b: seq<Byte>)
    ensures |Encode(b)| == 4 * ((|b| + 2) / 3)
    decreases |b|
  {
    if |b| >= 3 {
      EncodedLengthExact(b[3..]);
      assert (|b| + 2) / 3 == (|b[3..]| + 2) / 3 + 1;
    }
  }

  lemma EncodedLength(b: seq<Byte>)
    ensures |b| > 0 ==> |Encode(b)| >= 4
  {
  }

  /** The four symbols of a full group decode to its three bytes. */
  lemma DecodeGroup(b0: Byte, b1: Byte, b2: Byte, q: string)
    requires var v := SplitGroup(b0, b1, b2); q == [Symbol(v.0), Symbol(v.1), Symbol(v.2), Symbol(v.3)]
    ensures DecodeFull(q) == Some([b0, b1, b2]) && DecodeLast(q) == Some([b0, b1, b2])
  {
    var v := SplitGroup(b0, b1, b2);
    JoinOfSplit(b0, b1, b2);
    ValueOfSymbol(v.0);
    ValueOfSymbol(v.1);
    ValueOfSymbol(v.2);
    ValueOfSymbol(v.3);
    assert Value(q[0]) == Some(v.0) && Value(q[1]) == Some(v.1);
    assert Value(q[2]) == Some(v.2) && Value(q[3]) == Some(v.3);
    assert q[2] != '=' && q[3] != '=';
  }

  lemma DecodeOne(b0: Byte)
    ensures DecodeLast(Encode([b0])) == Some([b0])
  {
    var v := SplitGroup(b0, 0, 0);
    JoinOfSplit(b0, 0, 0);
    ValueOfSymbol(v.0);
    ValueOfSymbol(v.1);
    var q := Encode([b0]);
    assert Value(q[0]) == Some(v.0) && Value(q[1]) == Some(v.1);
    assert v.1 % 16 == 0;
    assert JoinGroup(v.0, v.1, 0, 0)[..1] == [b0];
  }

  lemma DecodeTwo(b0: Byte, b1: Byte)
    ensures DecodeLast(Encode([b0, b1])) == Some([b0, b1])
  {
    var v := SplitGroup(b0, b1, 0);
    JoinOfSplit(b0, b1, 0);
    ValueOfSymbol(v.0);
    ValueOfSymbol(v.1);
    ValueOfSymbol(v.2);
    var q := Encode([b0, b1]);
    assert Value(q[0]) == Some(v.0) && Value(q[1]) == Some(v.1) && Value(q[2]) == Some(v.2);
    assert q[2] != '=' && q[3] == '=';
    assert v.2 % 4 == 0 && v.3 == 0;
    assert JoinGroup(v.0, v.1, v.2, 0)[..2] == [b0, b1];
  }

  /** The first four symbols of an encoding of at least three bytes decode
      to the first three bytes; the rest is the encoding of the remainder. */
  lemma EncodeFirstGroup(b: seq<Byte>)
    requires |b| >= 3
    ensures |Encode(b)| >= 4
    ensures var v := SplitGroup(b[0], b[1], b[2]);
            Encode(b)[..4] == [Symbol(v.0), Symbol(v.1), Symbol(v.2), Symbol(v.3)]
    ensures Encode(b)[4..] == Encode(b[3..])
  {
  }

  lemma DecodeFirstGroup(b: seq<Byte>)
    requires |b| >= 3
    ensures |Encode(b)| >= 4
    ensures DecodeFull(Encode(b)[..4]) == Some(b[..3]) && DecodeLast(Encode(b)[..4]) == Some(b[..3])
    ensures Encode(b)[4..] == Encode(b[3..])
  {
    EncodeFirstGroup(b);
    DecodeGroup(b[0], b[1], b[2], Encode(b)[..4]);
    assert b[..3] == [b[0], b[1], b[2]];
  }

  lemma {:induction false} DecodeEncode(b: seq<Byte>)
    ensures Decode(Encode(b)) == Some(b)
    decreases |b|
  {
    if |b| == 0 {
    } else if |b| == 1 {
      DecodeOne(b[0]);
      assert [b[0]] == b;
    } else if |b| == 2 {
      DecodeTwo(b[0], b[1]);
      assert [b[0], b[1]] == b;
    } else {
      DecodeFirstGroup(b);
      if |b| == 3 {
        assert b[..3] == b;
        assert Encode(b[3..]) == "";
      } else {
        EncodedLength(b[3..]);
        DecodeEncode(b[3..]);
        assert b == b[..3] + b[3..];
      }
    }
  }

  lemma SplitOfJoin(v0: Sextet, v1: Sextet, v2: Sextet, v3: Sextet)
    ensures var b := JoinGroup(v0, v1, v2, v3); SplitGroup(b[0], b[1], b[2]) == (v0, v1, v2, v3)
  {
    var b := JoinGroup(v0, v1, v2, v3);
    assert b[0] / 4 == v0 && b[0] % 4 == v1 / 16;
    assert b[1] / 16 == v1 % 16 && b[1] % 16 == v2 / 4;
    assert b[2] / 64 == v2 % 4 && b[2] % 64 == v3;
  }

  /** A last group that decodes to `b` is the encoding of `b`. */
  lemma EncodeDecodeLast(q: string, b: seq<Byte>)
    requires |q| == 4 && DecodeLast(q) == Some(b)
    ensures Encode(b) == q
  {
    if q[2] == '=' && q[3] == '=' {
      var v0, v1 := Value(q[0]).value, Value(q[1]).value;
      SplitOfJoin(v0, v1, 0, 0);
      assert JoinGroup(v0, v1, 0, 0) == [b[0], 0, 0];
    } else if q[3] == '=' {
      var v0, v1, v2 := Value(q[0]).value, Value(q[1]).value, Value(q[2]).value;
      SplitOfJoin(v0, v1, v2, 0);
      assert JoinGroup(v0, v1, v2, 0) == [b[0], b[1], 0];
    } else {
      var v0, v1, v2, v3 := Value(q[0]).value, Value(q[1]).value, Value(q[2]).value, Value(q[3]).value;
      SplitOfJoin(v0, v1, v2, v3);
      assert b[3..] == [];
    }
  }

  /** A full group that decodes to `head` is the encoding of `head`, and
      stays so in front of any further bytes. */
  lemma EncodeDecodeFull(q: string, head: seq<Byte>, tail: seq<Byte>)
    requires |q| == 4 && DecodeFull(q) == Some(head)
    ensures Encode(head + tail) == q + Encode(tail)
  {
    var v0, v1, v2, v3 := Value(q[0]).value, Value(q[1]).value, Value(q[2]).value, Value(q[3]).value;
    SplitOfJoin(v0, v1, v2, v3);
    assert head == JoinGroup(v0, v1, v2, v3);
    var b := head + tail;
    assert b[..3] == head && b[3..] == tail;
    assert SplitGroup(b[0], b[1], b[2]) == (v0, v1, v2, v3);
    assert [Symbol(v0), Symbol(v1), Symbol(v2), Symbol(v3)] == q;
  }

  /** The decoder accepts only what the encoder produces: a text that decodes
      to `b` is the encoding of `b`. */
  lemma {:induction false} EncodeDecode(s: string, b: seq<Byte>)
    requires Decode(s) == Some(b)
    ensures Encode(b) == s
    decreases |s|
  {
    if |s| == 0 {
    } else if |s| == 4 {
      EncodeDecodeLast(s, b);
    } else {
      var q := s[..4];
      var head, tail := DecodeFull(q).value, Decode(s[4..]).value;
      EncodeDecode(s[4..], tail);
      EncodeDecodeFull(q, head, tail);
      assert b == head + tail;
      assert s == q + s[4..];
    }
  }

  /** Encoding works group by group: a prefix made of whole groups is encoded
      independently of what follows it. */
  lemma {:induction false} EncodeConcat(a: seq<Byte>, b: seq<Byte>)
    requires |a| % 3 == 0
    ensures Encode(a + b) == Encode(a) + Encode(b)
    decreases |a|
  {
    if |a| == 0 {
      assert a + b == b;
    } else {
      assert (a + b)[..3] == a[..3];
      assert (a + b)[3..] == a[3..] + b;
      EncodeConcat(a[3..], b);
    }
  }
}
