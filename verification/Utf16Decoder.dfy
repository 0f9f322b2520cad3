/** The little-endian UTF-16 decoder that skips unpaired surrogates, against section 2 of RFC 2781. */
module Utf16Decoder {
  import opened TextEncoding
  import opened UnicodeScalars

  // ---------- Section 2.1: the encoding of a scalar value, each word stored low byte first ----------

  function LowByte(word: bv32): Byte {
    (word & 0xFF) as Byte
  }

  function HighByte(word: bv32): Byte {
    ((word >> 8) & 0xFF) as Byte
  }

  function LeadWord(c: bv32): bv32 {
    0xD800 | (((c - 0x1_0000) >> 10) & 0x3FF)
  }

  function TrailWord(c: bv32): bv32 {
    0xDC00 | ((c - 0x1_0000) & 0x3FF)
  }

  function Utf16LeEncode(c: ScalarValue): seq<Byte> {
    if c < 0x1_0000 then [LowByte(c), HighByte(c)]
    else [LowByte(LeadWord(c)), HighByte(LeadWord(c)), LowByte(TrailWord(c)), HighByte(TrailWord(c))]
  }

  const UTF16LE: Code<ScalarValue, Byte> := Code(2, Utf16LeEncode)

  // ---------- Section 2.2: what a word or a pair of words stands for ----------

  function Word(low: Byte, high: Byte): bv32 {
    (low as bv32) | ((high as bv32) << 8)
  }

  predicate IsLead(word: bv32) {
    0xD800 <= word <= 0xDBFF
  }

  predicate IsTrail(word: bv32) {
    0xDC00 <= word <= 0xDFFF
  }

  function Pair(lead: bv32, trail: bv32): bv32 {
    0x1_0000 + ((lead - 0xD800) << 10) + (trail - 0xDC00)
  }

  predicate Utf16Char(b: seq<Byte>) {
    || (|b| == 2 && !IsLead(Word(b[0], b[1])) && !IsTrail(Word(b[0], b[1])))
    || (|b| == 4 && IsLead(Word(b[0], b[1])) && IsTrail(Word(b[2], b[3])))
  }

  function Value(b: seq<Byte>): bv32
    requires Utf16Char(b)
  {
    if |b| == 2 then Word(b[0], b[1]) else Pair(Word(b[0], b[1]), Word(b[2], b[3]))
  }

  // ---------- Sections 2.1 and 2.2 agree ----------

  lemma WordOfBytes(word: bv32)
    requires word < 0x1_0000
    ensures Word(LowByte(word), HighByte(word)) == word
  {
  }

  lemma BytesOfWord(low: Byte, high: Byte)
    ensures Word(low, high) < 0x1_0000
    ensures LowByte(Word(low, high)) == low && HighByte(Word(low, high)) == high
  {
  }

  lemma PairOfSplit(c: ScalarValue)
    requires 0x1_0000 <= c
    ensures IsLead(LeadWord(c)) && IsTrail(TrailWord(c)) && Pair(LeadWord(c), TrailWord(c)) == c
  {
  }

  lemma SplitOfPair(lead: bv32, trail: bv32)
    requires IsLead(lead) && IsTrail(trail)
    ensures Scalar(Pair(lead, trail)) && 0x1_0000 <= Pair(lead, trail)
    ensures LeadWord(Pair(lead, trail)) == lead && TrailWord(Pair(lead, trail)) == trail
  {
  }

  // Every encoding is a character of section 2.2 and stands for its own scalar value.
  lemma EncodingMatchesPairs(c: ScalarValue)
    ensures Utf16Char(Utf16LeEncode(c)) && Value(Utf16LeEncode(c)) == c
  {
    if c < 0x1_0000 {
      WordOfBytes(c);
    } else {
      PairOfSplit(c);
      WordOfBytes(LeadWord(c));
      WordOfBytes(TrailWord(c));
    }
  }

  lemma Character2(b0: Byte, b1: Byte)
    requires !IsLead(Word(b0, b1)) && !IsTrail(Word(b0, b1))
    ensures Scalar(Word(b0, b1)) && Utf16LeEncode(Word(b0, b1)) == [b0, b1]
  {
    BytesOfWord(b0, b1);
  }

  lemma Character4(b0: Byte, b1: Byte, b2: Byte, b3: Byte)
    requires IsLead(Word(b0, b1)) && IsTrail(Word(b2, b3))
    ensures var c := Pair(Word(b0, b1), Word(b2, b3)); Scalar(c) && Utf16LeEncode(c) == [b0, b1, b2, b3]
  {
    BytesOfWord(b0, b1);
    BytesOfWord(b2, b3);
    SplitOfPair(Word(b0, b1), Word(b2, b3));
  }

  // Every character of section 2.2 encodes the scalar value it stands for.
  lemma PairsMatchEncoding(b: seq<Byte>)
    requires Utf16Char(b)
    ensures Scalar(Value(b)) && Utf16LeEncode(Value(b)) == b
  {
    if |b| == 2 {
      Character2(b[0], b[1]);
      assert b == [b[0], b[1]];
    } else {
      Character4(b[0], b[1], b[2], b[3]);
      assert b == [b[0], b[1], b[2], b[3]];
    }
  }

  lemma SameCharacter(x: seq<Byte>, y: seq<Byte>)
    requires Utf16Char(x) && Utf16Char(y) && x <= y
    ensures x == y
  {
    assert x[0] == y[0] && x[1] == y[1];
    assert |x| == |y|;
  }

  // The first word tells a single word from a pair, so no character begins another.
  lemma Utf16PrefixFree()
    ensures PrefixFree(UTF16LE)
  {
    forall c, d | UTF16LE.encode(c) <= UTF16LE.encode(d) ensures c == d {
      EncodingMatchesPairs(c);
      EncodingMatchesPairs(d);
      SameCharacter(Utf16LeEncode(c), Utf16LeEncode(d));
    }
  }

  // ---------- The decoder ----------

  // One round of the loop, on the bytes from the current one on.
  function Round(b: seq<Byte>): Step<bv32>
    requires 2 <= |b|
  {
    var codeUnit := (b[0] as bv32) | ((b[1] as bv32) << 8);
    if codeUnit >= 0xD800 && codeUnit <= 0xDBFF then
      if 3 < |b| then
        var low := (b[2] as bv32) | ((b[3] as bv32) << 8);
        if low >= 0xDC00 && low <= 0xDFFF then
          Emit(0x1_0000 + ((codeUnit - 0xD800) << 10) + (low - 0xDC00), 4)
        else Skip
      else Skip
    else if codeUnit >= 0xDC00 && codeUnit <= 0xDFFF then Skip
    else Emit(codeUnit, 2)
  }

  // Which beginnings of the bytes are characters, by their first one or two words.
  lemma PrefixIsCharacter(b: seq<Byte>, n: nat)
    requires 2 <= |b| && 1 <= n <= |b|
    ensures Utf16Char(b[..n]) <==>
      (n == 2 && !IsLead(Word(b[0], b[1])) && !IsTrail(Word(b[0], b[1])))
      || (n == 4 && IsLead(Word(b[0], b[1])) && IsTrail(Word(b[2], b[3])))
  {
  }

  lemma RoundByWords(b: seq<Byte>)
    requires 2 <= |b|
    ensures Round(b) ==
      if IsLead(Word(b[0], b[1])) then
        if 3 < |b| && IsTrail(Word(b[2], b[3])) then Emit(Pair(Word(b[0], b[1]), Word(b[2], b[3])), 4) else Skip
      else if IsTrail(Word(b[0], b[1])) then Skip
      else Emit(Word(b[0], b[1]), 2)
  {
  }

  lemma ValueOfPrefix(b: seq<Byte>, n: nat)
    requires 2 <= |b| && 1 <= n <= |b| && Utf16Char(b[..n])
    ensures Value(b[..n]) == if n == 2 then Word(b[0], b[1]) else Pair(Word(b[0], b[1]), Word(b[2], b[3]))
  {
  }

  // A round emits exactly when the remaining bytes begin with a character of section 2.2.
  lemma RoundFollowsPairs(b: seq<Byte>)
    requires 2 <= |b|
    ensures match Round(b)
            case Emit(c, width) => width <= |b| && Utf16Char(b[..width]) && c == Value(b[..width])
            case Skip => forall n | 1 <= n <= |b| :: !Utf16Char(b[..n])
  {
    RoundByWords(b);
    match Round(b)
    case Emit(c, width) =>
      PrefixIsCharacter(b, width);
      ValueOfPrefix(b, width);
    case Skip =>
      forall n | 1 <= n <= |b| ensures !Utf16Char(b[..n]) {
        PrefixIsCharacter(b, n);
      }
  }

  lemma BeginsWithCharacter(b: seq<Byte>, c: ScalarValue)
    requires StartsWith(UTF16LE, b, c)
    ensures 1 <= |Utf16LeEncode(c)| <= |b| && Utf16Char(b[..|Utf16LeEncode(c)|])
  {
    EncodingMatchesPairs(c);
    assert b[..|Utf16LeEncode(c)|] == Utf16LeEncode(c);
  }

  lemma RoundFollowsEncoding(b: seq<Byte>)
    requires 2 <= |b|
    ensures Round(b).Emit? ==>
              Scalar(Round(b).c) && StartsWith(UTF16LE, b, Round(b).c) && |Utf16LeEncode(Round(b).c)| == Round(b).width
    ensures Round(b).Skip? ==> forall c :: !StartsWith(UTF16LE, b, c)
  {
    RoundFollowsPairs(b);
    match Round(b)
    case Emit(c, width) =>
      PairsMatchEncoding(b[..width]);
    case Skip =>
      forall c ensures !StartsWith(UTF16LE, b, c) {
        if StartsWith(UTF16LE, b, c) {
          BeginsWithCharacter(b, c);
        }
      }
  }

  method ReadCharacter(b: seq<Byte>) returns (step: Step<ScalarValue>)
    requires 2 <= |b|
    ensures step.Emit? ==> StartsWith(UTF16LE, b, step.c) && |UTF16LE.encode(step.c)| == step.width
    ensures step.Skip? ==> forall c :: !StartsWith(UTF16LE, b, c)
  {
    RoundFollowsEncoding(b);
    match Round(b)
    case Emit(c, width) => step := Emit(c, width);
    case Skip => step := Skip;
  }

  method DecodeUtf16LeIgnore(data: seq<Byte>) returns (output: seq<ScalarValue>)
    ensures PrefixFree(UTF16LE) && output == Decoded(UTF16LE, data)
  {
    Utf16PrefixFree();
    output := [];
    var i: nat := 0;
    Start(UTF16LE, data);
    while i + 1 < |data|
      invariant Remaining(UTF16LE, data, i, output)
    {
      var step := ReadCharacter(data[i..]);
      match step
      case Emit(c, width) =>
        EmitStep(UTF16LE, data, i, output, c, width);
        output := output + [c];
        i := i + width;
      case Skip =>
        SkipStep(UTF16LE, data, i, output);
        i := i + 2;
    }
    End(UTF16LE, data, i, output);
  }

  // ---------- What is skipped ----------

  lemma SurrogateByHighByte(low: Byte, high: Byte)
    ensures IsLead(Word(low, high)) <==> 0xD8 <= high <= 0xDB
    ensures IsTrail(Word(low, high)) <==> 0xDC <= high <= 0xDF
  {
  }

  // A surrogate that is not the first of a pair, told by the high bytes.
  predicate Unpaired(high: Byte, rest: seq<Byte>) {
    0xDC <= high <= 0xDF || (0xD8 <= high <= 0xDB && !(2 <= |rest| && 0xDC <= rest[1] <= 0xDF))
  }

  /** An unpaired surrogate is skipped, it alone: what follows decodes as it would without it. */
  lemma UnpairedSurrogateIsSkipped(low: Byte, high: Byte, rest: seq<Byte>)
    requires Unpaired(high, rest)
    ensures PrefixFree(UTF16LE) && Decoded(UTF16LE, [low, high] + rest) == Decoded(UTF16LE, rest)
  {
    var b := [low, high] + rest;
    Utf16PrefixFree();
    SurrogateByHighByte(low, high);
    if 2 <= |rest| {
      assert b[2] == rest[0] && b[3] == rest[1];
      SurrogateByHighByte(rest[0], rest[1]);
    }
    RoundByWords(b);
    RoundFollowsEncoding(b);
    assert b[UTF16LE.unit..] == rest;
  }

  /** A single byte left over at the end decodes to nothing. */
  lemma HalfWordIsNothing(byte: Byte)
    ensures PrefixFree(UTF16LE) && Decoded(UTF16LE, [byte]) == []
  {
    Utf16PrefixFree();
  }
}
