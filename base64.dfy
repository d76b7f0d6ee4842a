/** Base 64 encoding with the standard alphabet and '=' padding, as laid
    down in section 4 of RFC 4648 (Go's base64.StdEncoding). The encoder is
    the model of the library call; the decoder is the reference it is
    proved against. */
module Base64 {
  import opened Wrappers
  import opened Text

  /** Table 1 of RFC 4648: the character for each 6-bit value. */
  const Alphabet: string := "ABCDEFGHIJKLMNOPQRSTUVWXYZ" + "abcdefghijklmnopqrstuvwxyz" + "0123456789" + "+/"

  const Pad: char := '='

  type sextet = x: int | 0 <= x < 64

  function SextetChar(v: sextet): (c: char)
  {
    if v < 26 then ('A' as int + v) as char
    else if v < 52 then ('a' as int + v - 26) as char
    else if v < 62 then ('0' as int + v - 52) as char
    else if v == 62 then '+'
    else '/'
  }

  /** The arithmetic mapping is exactly the RFC's table. */
  lemma AlphabetIsTable(v: sextet)
    ensures |Alphabet| == 64 && SextetChar(v) == Alphabet[v]
  {
  }

  /** The inverse of the table; None for characters outside it (including Pad). */
  function SextetValue(c: char): (r: Option<sextet>)
    ensures r.Some? ==> SextetChar(r.value) == c
    ensures c == Pad ==> r.None?
  {
    if 'A' <= c <= 'Z' then Some(c as int - 'A' as int)
    else if 'a' <= c <= 'z' then Some(c as int - 'a' as int + 26)
    else if '0' <= c <= '9' then Some(c as int - '0' as int + 52)
    else if c == '+' then Some(62)
    else if c == '/' then Some(63)
    else None
  }

  lemma SextetRoundTrip(v: sextet)
    ensures SextetValue(SextetChar(v)) == Some(v)
  {
  }

  /** An output character: a table character or the pad. */
  predicate IsEncodingChar(c: char)
  {
    SextetValue(c).Some? || c == Pad
  }

  /** Number of pad characters after `n` input bytes. */
  function PadCount(n: nat): nat
  {
    (3 - n % 3) % 3
  }

  /** Three bytes become four characters, six bits each, high bits first. */
  function EncodeBlock(b0: byte, b1: byte, b2: byte): (s: string)
  {
    [SextetChar(b0 / 4), SextetChar((b0 % 4) * 16 + b1 / 16),
     SextetChar((b1 % 16) * 4 + b2 / 64), SextetChar(b2 % 64)]
  }

  /** Go's StdEncoding.EncodeToString. */
  function Encode(b: seq<byte>): (s: string)
    ensures |s| == 4 * ((|b| + 2) / 3)
    decreases |b|
  {
    if |b| == 0 then []
    else if |b| == 1 then
      [SextetChar(b[0] / 4), SextetChar((b[0] % 4) * 16), Pad, Pad]
    else if |b| == 2 then
      [SextetChar(b[0] / 4), SextetChar((b[0] % 4) * 16 + b[1] / 16), SextetChar((b[1] % 16) * 4), Pad]
    else
      EncodeBlock(b[0], b[1], b[2]) + Encode(b[3..])
  }

  /** Four table characters back to three bytes. */
  function DecodeQuad(q: string): (r: Option<seq<byte>>)
    requires |q| == 4
  {
    match (SextetValue(q[0]), SextetValue(q[1]), SextetValue(q[2]), SextetValue(q[3]))
    case (Some(v0), Some(v1), Some(v2), Some(v3)) =>
      var x0: byte := v0 as int * 4 + v1 as int / 16;
      var x1: byte := (v1 as int % 16) * 16 + v2 as int / 4;
      var x2: byte := (v2 as int % 4) * 64 + v3 as int;
      Some([x0, x1, x2])
    case _ => None
  }

  /** The last group of four, which may end in one or two pads (whose
      unused bits must be zero). */
  function DecodeLast(q: string): (r: Option<seq<byte>>)
    requires |q| == 4
  {
    if q[2] == Pad && q[3] == Pad then
      match (SextetValue(q[0]), SextetValue(q[1]))
      case (Some(v0), Some(v1)) =>
        var x0: byte := v0 as int * 4 + v1 as int / 16;
        if v1 % 16 == 0 then Some([x0]) else None
      case _ => None
    else if q[3] == Pad then
      match (SextetValue(q[0]), SextetValue(q[1]), SextetValue(q[2]))
      case (Some(v0), Some(v1), Some(v2)) =>
        var x0: byte := v0 as int * 4 + v1 as int / 16;
        var x1: byte := (v1 as int % 16) * 16 + v2 as int / 4;
        if v2 % 4 == 0 then Some([x0, x1]) else None
      case _ => None
    else DecodeQuad(q)
  }

  /** Strict decoder for canonical padded text. */
  function Decode(s: string): (r: Option<seq<byte>>)
    decreases |s|
  {
    if |s| == 0 then Some([])
    else if |s| < 4 then None
    else if |s| == 4 then DecodeLast(s)
    else
      match DecodeQuad(s[..4])
      case None => None
      case Some(head) =>
        match Decode(s[4..])
        case None => None
        case Some(tail) => Some(head + tail)
  }

  /** Splitting a byte at bit `k` and joining the halves again gives the
      byte back (for the three split points the encoder uses). */
  lemma JoinSplit(b: byte)
    ensures (b / 4) * 4 + b % 4 == b
    ensures (b / 16) * 16 + b % 16 == b
    ensures (b / 64) * 64 + b % 64 == b
  {
  }

  /** The bytes a decoder computes from the four sextets of a block. */
  lemma BlockArithmetic(b0: byte, b1: byte, b2: byte)
    ensures var v0, v1, v2, v3 := b0 / 4, (b0 % 4) * 16 + b1 / 16, (b1 % 16) * 4 + b2 / 64, b2 % 64;
            && v0 * 4 + v1 / 16 == b0
            && (v1 % 16) * 16 + v2 / 4 == b1
            && (v2 % 4) * 64 + v3 == b2
  {
    var v1, v2 := (b0 % 4) * 16 + b1 / 16, (b1 % 16) * 4 + b2 / 64;
    assert v1 / 16 == b0 % 4 && v1 % 16 == b1 / 16;
    assert v2 / 4 == b1 % 16 && v2 % 4 == b2 / 64;
    JoinSplit(b0);
    JoinSplit(b1);
    JoinSplit(b2);
  }

  lemma BlockRoundTrip(b0: byte, b1: byte, b2: byte)
    ensures DecodeQuad(EncodeBlock(b0, b1, b2)) == Some([b0, b1, b2])
  {
    var v0, v1, v2, v3 := b0 / 4, (b0 % 4) * 16 + b1 / 16, (b1 % 16) * 4 + b2 / 64, b2 % 64;
    var q := EncodeBlock(b0, b1, b2);
    SextetRoundTrip(v0);
    SextetRoundTrip(v1);
    SextetRoundTrip(v2);
    SextetRoundTrip(v3);
    assert SextetValue(q[0]) == Some(v0) && SextetValue(q[1]) == Some(v1);
    assert SextetValue(q[2]) == Some(v2) && SextetValue(q[3]) == Some(v3);
    BlockArithmetic(b0, b1, b2);
  }

  lemma RoundTripOne(b0: byte)
    ensures Decode(Encode([b0])) == Some([b0])
  {
    var v1 := (b0 % 4) * 16;
    SextetRoundTrip(b0 / 4);
    SextetRoundTrip(v1);
    assert v1 / 16 == b0 % 4 && v1 % 16 == 0;
    JoinSplit(b0);
    assert DecodeLast(Encode([b0])) == Some([b0]);
  }

  lemma RoundTripTwo(b0: byte, b1: byte)
    ensures Decode(Encode([b0, b1])) == Some([b0, b1])
  {
    var v1 := (b0 % 4) * 16 + b1 / 16;
    SextetRoundTrip(b0 / 4);
    SextetRoundTrip(v1);
    SextetRoundTrip((b1 % 16) * 4);
    assert v1 / 16 == b0 % 4 && v1 % 16 == b1 / 16;
    JoinSplit(b0);
    JoinSplit(b1);
    assert DecodeLast(Encode([b0, b1])) == Some([b0, b1]);
  }

  /** A single full block decodes by itself. */
  lemma RoundTripThree(b: seq<byte>)
    requires |b| == 3
    ensures Decode(Encode(b)) == Some(b)
  {
    var head := EncodeBlock(b[0], b[1], b[2]);
    BlockRoundTrip(b[0], b[1], b[2]);
    assert Encode(b[3..]) == [];
    assert Encode(b) == head;
    assert SextetValue(head[3]).Some?;
    assert DecodeLast(head) == DecodeQuad(head);
    assert b == [b[0], b[1], b[2]];
  }

  /** The encoding of more than three bytes: the first block, then the rest. */
  lemma EncodeFront(b: seq<byte>)
    requires |b| > 3
    ensures Encode(b) == EncodeBlock(b[0], b[1], b[2]) + Encode(b[3..])
    ensures |Encode(b[3..])| > 0
  {
  }

  /** A full block in front of text that decodes. */
  lemma RoundTripStep(x: seq<byte>, t: string, rest: seq<byte>)
    requires |x| == 3 && |t| > 0 && Decode(t) == Some(rest)
    ensures Decode(EncodeBlock(x[0], x[1], x[2]) + t) == Some(x + rest)
  {
    var head := EncodeBlock(x[0], x[1], x[2]);
    BlockRoundTrip(x[0], x[1], x[2]);
    assert [x[0], x[1], x[2]] == x;
    DecodeAppend(head, t);
  }

  /** Decoding the encoding gives back the input bytes. */
  lemma {:induction false} RoundTrip(b: seq<byte>)
    ensures Decode(Encode(b)) == Some(b)
    decreases |b|
  {
    if |b| == 1 {
      assert b == [b[0]];
      RoundTripOne(b[0]);
    } else if |b| == 2 {
      assert b == [b[0], b[1]];
      RoundTripTwo(b[0], b[1]);
    } else if |b| == 3 {
      RoundTripThree(b);
    } else if |b| > 3 {
      RoundTrip(b[3..]);
      EncodeFront(b);
      RoundTripStep(b[..3], Encode(b[3..]), b[3..]);
      assert b[..3] + b[3..] == b;
      assert b[..3][0] == b[0] && b[..3][1] == b[1] && b[..3][2] == b[2];
    }
  }

  /** A full group followed by more text decodes group by group. */
  lemma DecodeAppend(q: string, t: string)
    requires |q| == 4 && DecodeQuad(q).Some? && |t| > 0
    ensures Decode(q + t) == match Decode(t)
                             case None => None
                             case Some(x) => Some(DecodeQuad(q).value + x)
  {
    assert (q + t)[..4] == q;
    assert (q + t)[4..] == t;
  }

  /** Every table character is an encoding character. */
  lemma SextetCharEncodes(v: sextet)
    ensures IsEncodingChar(SextetChar(v)) && SextetChar(v) != Pad
  {
    SextetRoundTrip(v);
  }

  /** The encoding of at most three bytes: table characters, then the pads. */
  lemma ShortAlphabet(b: seq<byte>)
    requires |b| <= 3
    ensures forall i :: 0 <= i < |Encode(b)| ==> IsEncodingChar(Encode(b)[i])
    ensures forall i :: 0 <= i < |Encode(b)| ==> (Encode(b)[i] == Pad <==> i >= |Encode(b)| - PadCount(|b|))
  {
    if |b| == 1 {
      SextetCharEncodes(b[0] / 4);
      SextetCharEncodes((b[0] % 4) * 16);
    } else if |b| == 2 {
      SextetCharEncodes(b[0] / 4);
      SextetCharEncodes((b[0] % 4) * 16 + b[1] / 16);
      SextetCharEncodes((b[1] % 16) * 4);
    } else if |b| == 3 {
      BlockAlphabet(b[0], b[1], b[2]);
      assert Encode(b[3..]) == [];
      assert Encode(b) == EncodeBlock(b[0], b[1], b[2]);
    }
  }

  /** A block's four characters are table characters. */
  lemma BlockAlphabet(b0: byte, b1: byte, b2: byte)
    ensures forall i :: 0 <= i < 4 ==> IsEncodingChar(EncodeBlock(b0, b1, b2)[i]) && EncodeBlock(b0, b1, b2)[i] != Pad
  {
    SextetCharEncodes(b0 / 4);
    SextetCharEncodes((b0 % 4) * 16 + b1 / 16);
    SextetCharEncodes((b1 % 16) * 4 + b2 / 64);
    SextetCharEncodes(b2 % 64);
  }

  /** Every output character is a table character or the pad, and the pads
      are exactly the last PadCount(|b|) characters. */
  lemma {:induction false} EncodeAlphabet(b: seq<byte>)
    ensures forall i :: 0 <= i < |Encode(b)| ==> IsEncodingChar(Encode(b)[i])
    ensures forall i :: 0 <= i < |Encode(b)| ==> (Encode(b)[i] == Pad <==> i >= |Encode(b)| - PadCount(|b|))
    decreases |b|
  {
    if |b| <= 3 {
      ShortAlphabet(b);
    } else {
      var s, head, tail := Encode(b), EncodeBlock(b[0], b[1], b[2]), Encode(b[3..]);
      EncodeAlphabet(b[3..]);
      BlockAlphabet(b[0], b[1], b[2]);
      assert s == head + tail;
      assert PadCount(|b|) == PadCount(|b| - 3);
      forall i | 0 <= i < |s|
        ensures IsEncodingChar(s[i]) && (s[i] == Pad <==> i >= |s| - PadCount(|b|))
      {
        if i >= 4 {
          assert s[i] == tail[i - 4];
        } else {
          assert s[i] == head[i];
        }
      }
    }
  }

  /** Encoded text is ASCII, so its UTF-8 bytes are its character codes. */
  lemma EncodeIsAscii(b: seq<byte>)
    ensures IsAscii(Encode(b))
  {
    var s := Encode(b);
    EncodeAlphabet(b);
    forall i | 0 <= i < |s| ensures s[i] as int < 128 {
      assert IsEncodingChar(s[i]);
    }
  }

  /** The bytes of "foobar", the string behind the test vectors of
      section 10 of RFC 4648. */
  const Foobar: seq<byte> := [102, 111, 111, 98, 97, 114]

  lemma FoobarBytes(k: nat)
    requires k <= 6
    ensures Utf8("foobar"[..k]) == Foobar[..k]
  {
    var p := "foobar"[..k];
    Utf8Ascii(p);
    assert |Utf8(p)| == k;
    forall i | 0 <= i < k ensures Utf8(p)[i] == Foobar[i] {
      assert p[i] == "foobar"[i];
    }
  }

  /** One and two leftover bytes are padded with "==" and "=". */
  lemma PaddedVectors()
    ensures Encode(Foobar[..1]) == "Zg=="
    ensures Encode(Foobar[..2]) == "Zm8="
    ensures Encode(Foobar[3..4]) == "Yg=="
    ensures Encode(Foobar[3..5]) == "YmE="
  {
    assert Foobar[..1] == [102] && Foobar[..2] == [102, 111];
    assert Foobar[3..4] == [98] && Foobar[3..5] == [98, 97];
  }

  /** Whole blocks carry no padding. */
  lemma BlockVectors()
    ensures EncodeBlock(102, 111, 111) == "Zm9v"
    ensures EncodeBlock(98, 97, 114) == "YmFy"
  {
  }

  /** The encoding of the first k bytes of "foobar", for k of at least
      three, is the block "Zm9v" and the encoding of the rest. */
  lemma FoobarFront(k: nat)
    requires 3 <= k <= 6
    ensures Encode(Foobar[..k]) == "Zm9v" + Encode(Foobar[3..k])
  {
    BlockVectors();
    var b := Foobar[..k];
    assert b[0] == 102 && b[1] == 111 && b[2] == 111;
    assert b[3..] == Foobar[3..k];
  }

  /** The encoding of the string made of the first k characters of
      "foobar". */
  lemma FoobarVector(k: nat)
    requires k <= 6
    ensures Encode(Utf8("foobar"[..k])) == Encode(Foobar[..k])
  {
    FoobarBytes(k);
  }

  /** The encodings section 10 of RFC 4648 gives for "", "f", "fo",
      "foo", "foob", "fooba" and "foobar", in that order. */
  const Rfc4648Expected: seq<string> :=
    ["", "Zg==", "Zm8=", "Zm9v", "Zm9vYg==", "Zm9vYmE=", "Zm9vYmFy"]

  /** The encoding of the first k bytes of "foobar". */
  lemma FoobarEncodings(k: nat)
    requires k <= 6
    ensures Encode(Foobar[..k]) == Rfc4648Expected[k]
  {
    if k == 0 {
      assert Foobar[..0] == [];
    } else if k <= 2 {
      PaddedVectors();
    } else if k == 3 {
      FoobarFront(3);
      assert Foobar[3..3] == [];
    } else if k <= 5 {
      FoobarFront(k);
      PaddedVectors();
    } else {
      FoobarFront(6);
      BlockVectors();
      assert Foobar[3..6] == [98, 97, 114];
    }
  }

  /** The test vectors of section 10 of RFC 4648, on the UTF-8 bytes of
      the strings as Go's []byte conversion gives them: the first k
      characters of "foobar" encode to the k-th expected string. */
  lemma Rfc4648Vectors(k: nat)
    requires k <= 6
    ensures Encode(Utf8("foobar"[..k])) == Rfc4648Expected[k]
  {
    FoobarVector(k);
    FoobarEncodings(k);
  }
}
