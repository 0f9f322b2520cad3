/** The UTF-8 decoder that skips invalid bytes, against sections 3 and 4 of RFC 3629. */
module Utf8Decoder {
  import opened TextEncoding
  import opened UnicodeScalars

  // ---------- Section 3: the encoding of a scalar value ----------

  function Utf8Encode(c: ScalarValue): seq<Byte> {
    if c < 0x80 then [c as Byte]
    else if c < 0x800 then [(0xC0 | (c >> 6)) as Byte, Tail(c)]
    else if c < 0x1_0000 then [(0xE0 | (c >> 12)) as Byte, Tail(c >> 6), Tail(c)]
    else [(0xF0 | (c >> 18)) as Byte, Tail(c >> 12), Tail(c >> 6), Tail(c)]
  }

  function Tail(bits: bv32): Byte {
    (0x80 | (bits & 0x3F)) as Byte
  }

  const UTF8: Code<ScalarValue, Byte> := Code(1, Utf8Encode)

  // ---------- Section 4: the grammar of one character ----------

  predicate Utf8Tail(b: Byte) {
    0x80 <= b <= 0xBF
  }

  predicate Lead2(b0: Byte) {
    0xC2 <= b0 <= 0xDF
  }

  predicate Lead3(b0: Byte, b1: Byte) {
    || (b0 == 0xE0 && 0xA0 <= b1 <= 0xBF)
    || (0xE1 <= b0 <= 0xEC && Utf8Tail(b1))
    || (b0 == 0xED && 0x80 <= b1 <= 0x9F)
    || (0xEE <= b0 <= 0xEF && Utf8Tail(b1))
  }

  predicate Lead4(b0: Byte, b1: Byte) {
    || (b0 == 0xF0 && 0x90 <= b1 <= 0xBF)
    || (0xF1 <= b0 <= 0xF3 && Utf8Tail(b1))
    || (b0 == 0xF4 && 0x80 <= b1 <= 0x8F)
  }

  predicate Utf8Char(b: seq<Byte>) {
    || (|b| == 1 && b[0] <= 0x7F)
    || (|b| == 2 && Lead2(b[0]) && Utf8Tail(b[1]))
    || (|b| == 3 && Lead3(b[0], b[1]) && Utf8Tail(b[2]))
    || (|b| == 4 && Lead4(b[0], b[1]) && Utf8Tail(b[2]) && Utf8Tail(b[3]))
  }

  // The bits that two, three or four bytes carry.
  function Bits2(b0: Byte, b1: Byte): bv32 {
    (((b0 as bv32) & 0x1F) << 6) | ((b1 as bv32) & 0x3F)
  }

  function Bits3(b0: Byte, b1: Byte, b2: Byte): bv32 {
    (((b0 as bv32) & 0x0F) << 12) | (((b1 as bv32) & 0x3F) << 6) | ((b2 as bv32) & 0x3F)
  }

  function Bits4(b0: Byte, b1: Byte, b2: Byte, b3: Byte): bv32 {
    (((b0 as bv32) & 0x07) << 18) | (((b1 as bv32) & 0x3F) << 12)
    | (((b2 as bv32) & 0x3F) << 6) | ((b3 as bv32) & 0x3F)
  }

  function Bits(b: seq<Byte>): bv32
    requires Utf8Char(b)
  {
    if |b| == 1 then b[0] as bv32
    else if |b| == 2 then Bits2(b[0], b[1])
    else if |b| == 3 then Bits3(b[0], b[1], b[2])
    else Bits4(b[0], b[1], b[2], b[3])
  }

  // ---------- Sections 3 and 4 agree ----------

  lemma Split2(c: ScalarValue, b0: Byte, b1: Byte)
    requires 0x80 <= c < 0x800 && b0 == (0xC0 | (c >> 6)) as Byte && b1 == Tail(c)
    ensures Lead2(b0) && Utf8Tail(b1) && Bits2(b0, b1) == c
  {
  }

  lemma Split3(c: ScalarValue, b0: Byte, b1: Byte, b2: Byte)
    requires 0x800 <= c < 0x1_0000
    requires b0 == (0xE0 | (c >> 12)) as Byte && b1 == Tail(c >> 6) && b2 == Tail(c)
    ensures Lead3(b0, b1) && Utf8Tail(b2) && Bits3(b0, b1, b2) == c
  {
  }

  lemma Split4(c: ScalarValue, b0: Byte, b1: Byte, b2: Byte, b3: Byte)
    requires 0x1_0000 <= c
    requires b0 == (0xF0 | (c >> 18)) as Byte && b1 == Tail(c >> 12) && b2 == Tail(c >> 6) && b3 == Tail(c)
    ensures Lead4(b0, b1) && Utf8Tail(b2) && Utf8Tail(b3) && Bits4(b0, b1, b2, b3) == c
  {
  }

  // Every encoding matches the grammar and carries its own scalar value.
  lemma EncodingMatchesGrammar(c: ScalarValue)
    ensures Utf8Char(Utf8Encode(c)) && Bits(Utf8Encode(c)) == c
  {
    var b := Utf8Encode(c);
    if |b| == 2 {
      Split2(c, b[0], b[1]);
    } else if |b| == 3 {
      Split3(c, b[0], b[1], b[2]);
    } else if |b| == 4 {
      Split4(c, b[0], b[1], b[2], b[3]);
    }
  }

  lemma Join2(b0: Byte, b1: Byte)
    requires Lead2(b0) && Utf8Tail(b1)
    ensures 0x80 <= Bits2(b0, b1) < 0x800
    ensures b0 == (0xC0 | (Bits2(b0, b1) >> 6)) as Byte && b1 == Tail(Bits2(b0, b1))
  {
  }

  lemma Join3(b0: Byte, b1: Byte, b2: Byte)
    requires Lead3(b0, b1) && Utf8Tail(b2)
    ensures var c := Bits3(b0, b1, b2);
      && 0x800 <= c < 0x1_0000 && Scalar(c)
      && b0 == (0xE0 | (c >> 12)) as Byte && b1 == Tail(c >> 6) && b2 == Tail(c)
  {
  }

  lemma Join4(b0: Byte, b1: Byte, b2: Byte, b3: Byte)
    requires Lead4(b0, b1) && Utf8Tail(b2) && Utf8Tail(b3)
    ensures var c := Bits4(b0, b1, b2, b3);
      && 0x1_0000 <= c && Scalar(c)
      && b0 == (0xF0 | (c >> 18)) as Byte && b1 == Tail(c >> 12) && b2 == Tail(c >> 6) && b3 == Tail(c)
  {
  }

  lemma Encode3(c: ScalarValue, b0: Byte, b1: Byte, b2: Byte)
    requires 0x800 <= c < 0x1_0000
    requires b0 == (0xE0 | (c >> 12)) as Byte && b1 == Tail(c >> 6) && b2 == Tail(c)
    ensures Utf8Encode(c) == [b0, b1, b2]
  {
  }

  lemma Encode4(c: bv32, b0: Byte, b1: Byte, b2: Byte, b3: Byte)
    requires 0x1_0000 <= c && Scalar(c)
    requires b0 == (0xF0 | (c >> 18)) as Byte && b1 == Tail(c >> 12) && b2 == Tail(c >> 6) && b3 == Tail(c)
    ensures Utf8Encode(c) == [b0, b1, b2, b3]
  {
  }

  lemma Character1(b0: Byte)
    requires b0 <= 0x7F
    ensures Scalar(b0 as bv32) && Utf8Encode(b0 as bv32) == [b0]
  {
  }

  lemma Character2(b0: Byte, b1: Byte)
    requires Lead2(b0) && Utf8Tail(b1)
    ensures Scalar(Bits2(b0, b1)) && Utf8Encode(Bits2(b0, b1)) == [b0, b1]
  {
    Join2(b0, b1);
  }

  lemma Character3(b0: Byte, b1: Byte, b2: Byte)
    requires Lead3(b0, b1) && Utf8Tail(b2)
    ensures Scalar(Bits3(b0, b1, b2)) && Utf8Encode(Bits3(b0, b1, b2)) == [b0, b1, b2]
  {
    Join3(b0, b1, b2);
    Encode3(Bits3(b0, b1, b2), b0, b1, b2);
  }

  lemma Character4(b0: Byte, b1: Byte, b2: Byte, b3: Byte)
    requires Lead4(b0, b1) && Utf8Tail(b2) && Utf8Tail(b3)
    ensures Scalar(Bits4(b0, b1, b2, b3)) && Utf8Encode(Bits4(b0, b1, b2, b3)) == [b0, b1, b2, b3]
  {
    var c := Bits4(b0, b1, b2, b3);
    assert 0x1_0000 <= c && Scalar(c) by {
      Join4(b0, b1, b2, b3);
    }
    assert Utf8Encode(c) == [b0, b1, b2, b3] by {
      Join4(b0, b1, b2, b3);
      Encode4(c, b0, b1, b2, b3);
    }
  }

  // Everything the grammar accepts encodes the scalar value whose bits it carries.
  lemma GrammarMatchesEncoding(b: seq<Byte>)
    requires Utf8Char(b)
    ensures Scalar(Bits(b)) && Utf8Encode(Bits(b)) == b
  {
    if |b| == 1 {
      Character1(b[0]);
      assert b == [b[0]];
    } else if |b| == 2 {
      Character2(b[0], b[1]);
      assert b == [b[0], b[1]];
    } else if |b| == 3 {
      Character3(b[0], b[1], b[2]);
      assert b == [b[0], b[1], b[2]];
    } else {
      Character4(b[0], b[1], b[2], b[3]);
      assert b == [b[0], b[1], b[2], b[3]];
    }
  }

  lemma SameCharacter(x: seq<Byte>, y: seq<Byte>)
    requires Utf8Char(x) && Utf8Char(y) && x <= y
    ensures x == y
  {
    assert x[0] == y[0];
    assert |x| == |y|;
  }

  // The lengths a lead byte admits are disjoint, so no character begins another.
  lemma Utf8PrefixFree()
    ensures PrefixFree(UTF8)
  {
    forall c, d | UTF8.encode(c) <= UTF8.encode(d) ensures c == d {
      EncodingMatchesGrammar(c);
      EncodingMatchesGrammar(d);
      SameCharacter(Utf8Encode(c), Utf8Encode(d));
    }
  }

  // ---------- The decoder ----------

  predicate IsUtf8Continuation(byte: Byte) {
    byte >= 0x80 && byte <= 0xBF
  }

  // One round of the loop, on the bytes from the current one on.  A read past the end gives no byte,
  // so a cut-off character is skipped.
  function Round(b: seq<Byte>): Step<bv32>
    requires b != []
  {
    var b0 := b[0];
    if b0 <= 0x7F then
      Emit(b0 as bv32, 1)
    else if b0 >= 0xC2 && b0 <= 0xDF then
      if 1 < |b| && IsUtf8Continuation(b[1]) then Emit(Bits2(b0, b[1]), 2) else Skip
    else if b0 >= 0xE0 && b0 <= 0xEF then
      var validSecond := 1 < |b|
        && (|| (b0 == 0xE0 && b[1] >= 0xA0 && b[1] <= 0xBF)
            || (b0 >= 0xE1 && b0 <= 0xEC && IsUtf8Continuation(b[1]))
            || (b0 == 0xED && b[1] >= 0x80 && b[1] <= 0x9F)
            || (b0 >= 0xEE && b0 <= 0xEF && IsUtf8Continuation(b[1])));
      if validSecond && 2 < |b| && IsUtf8Continuation(b[2]) then Emit(Bits3(b0, b[1], b[2]), 3) else Skip
    else if b0 >= 0xF0 && b0 <= 0xF4 then
      var validSecond := 1 < |b|
        && (|| (b0 == 0xF0 && b[1] >= 0x90 && b[1] <= 0xBF)
            || (b0 >= 0xF1 && b0 <= 0xF3 && IsUtf8Continuation(b[1]))
            || (b0 == 0xF4 && b[1] >= 0x80 && b[1] <= 0x8F));
      if validSecond && 3 < |b| && IsUtf8Continuation(b[2]) && IsUtf8Continuation(b[3]) then
        Emit(Bits4(b0, b[1], b[2], b[3]), 4)
      else Skip
    else
      Skip
  }

  // A round emits exactly when the remaining bytes begin with a character of the grammar.
  lemma RoundFollowsGrammar(b: seq<Byte>)
    requires b != []
    ensures match Round(b)
            case Emit(c, width) => width <= |b| && Utf8Char(b[..width]) && c == Bits(b[..width])
            case Skip => forall n | 1 <= n <= |b| :: !Utf8Char(b[..n])
  {
  }

  lemma BeginsWithCharacter(b: seq<Byte>, c: ScalarValue)
    requires StartsWith(UTF8, b, c)
    ensures 1 <= |Utf8Encode(c)| <= |b| && Utf8Char(b[..|Utf8Encode(c)|])
  {
    EncodingMatchesGrammar(c);
    assert b[..|Utf8Encode(c)|] == Utf8Encode(c);
  }

  lemma RoundFollowsEncoding(b: seq<Byte>)
    requires b != []
    ensures match Round(b)
            case Emit(c, width) => Scalar(c) && StartsWith(UTF8, b, c) && |UTF8.encode(c)| == width
            case Skip => forall c :: !StartsWith(UTF8, b, c)
  {
    RoundFollowsGrammar(b);
    match Round(b)
    case Emit(c, width) =>
      GrammarMatchesEncoding(b[..width]);
    case Skip =>
      forall c ensures !StartsWith(UTF8, b, c) {
        if StartsWith(UTF8, b, c) {
          BeginsWithCharacter(b, c);
        }
      }
  }

  method ReadCharacter(b: seq<Byte>) returns (step: Step<ScalarValue>)
    requires b != []
    ensures step.Emit? ==> StartsWith(UTF8, b, step.c) && |UTF8.encode(step.c)| == step.width
    ensures step.Skip? ==> forall c :: !StartsWith(UTF8, b, c)
  {
    RoundFollowsEncoding(b);
    match Round(b)
    case Emit(c, width) => step := Emit(c, width);
    case Skip => step := Skip;
  }

  // The output so far, and what is still to decode.
  ghost predicate Decoding(data: seq<Byte>, i: nat, output: seq<ScalarValue>) {
    PrefixFree(UTF8) && Remaining(UTF8, data, i, output)
  }

  lemma DecodingStarts(data: seq<Byte>)
    ensures Decoding(data, 0, [])
  {
    Utf8PrefixFree();
    Start(UTF8, data);
  }

  lemma DecodingEmits(data: seq<Byte>, i: nat, output: seq<ScalarValue>, c: ScalarValue, width: nat)
    requires Decoding(data, i, output) && i <= |data|
    requires StartsWith(UTF8, data[i..], c) && |UTF8.encode(c)| == width
    ensures 1 <= width && i + width <= |data| && Decoding(data, i + width, output + [c])
  {
    EmitStep(UTF8, data, i, output, c, width);
  }

  lemma DecodingSkips(data: seq<Byte>, i: nat, output: seq<ScalarValue>)
    requires Decoding(data, i, output) && i < |data| && forall c :: !StartsWith(UTF8, data[i..], c)
    ensures Decoding(data, i + 1, output)
  {
    SkipStep(UTF8, data, i, output);
  }

  method DecodeUtf8Ignore(data: seq<Byte>) returns (output: seq<ScalarValue>)
    ensures PrefixFree(UTF8) && output == Decoded(UTF8, data)
  {
    output := [];
    var i: nat := 0;
    DecodingStarts(data);
    while i < |data|
      invariant i <= |data| && Decoding(data, i, output)
    {
      var step := ReadCharacter(data[i..]);
      match step
      case Emit(c, width) =>
        DecodingEmits(data, i, output, c, width);
        output := output + [c];
        i := i + width;
      case Skip =>
        DecodingSkips(data, i, output);
        i := i + 1;
    }
    End(UTF8, data, i, output);
  }

  // ---------- What is skipped ----------

  /** A byte at which no character of the grammar begins is skipped, it alone. */
  lemma StrayByteIsSkipped(byte: Byte, rest: seq<Byte>)
    requires forall n | 1 <= n <= |rest| + 1 :: !Utf8Char(([byte] + rest)[..n])
    ensures PrefixFree(UTF8) && Decoded(UTF8, [byte] + rest) == Decoded(UTF8, rest)
  {
    var b := [byte] + rest;
    Utf8PrefixFree();
    RoundFollowsGrammar(b);
    RoundFollowsEncoding(b);
    assert Round(b).Skip?;
    assert b[UTF8.unit..] == rest;
  }

  /** So is a continuation byte out of place, and a byte that no character contains. */
  lemma ByteOutOfPlaceIsSkipped(byte: Byte, rest: seq<Byte>)
    requires 0x80 <= byte <= 0xC1 || 0xF5 <= byte
    ensures PrefixFree(UTF8) && Decoded(UTF8, [byte] + rest) == Decoded(UTF8, rest)
  {
    forall n | 1 <= n <= |rest| + 1 ensures !Utf8Char(([byte] + rest)[..n]) {
      assert ([byte] + rest)[..n][0] == byte;
    }
    StrayByteIsSkipped(byte, rest);
  }
}
