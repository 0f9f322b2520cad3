/** Decoding that skips invalid input, for any variable-length code.

    The reference decoder knows nothing of the code's bit patterns: it asks whether the remaining
    input begins with the encoding of some character, takes it if so, and otherwise skips one unit. */
module TextEncoding {

  // unit: the number of bytes skipped where no character starts.
  datatype Code<!Char, Byte> = Code(unit: nat, encode: Char -> seq<Byte>)

  // Every character takes at least one unit, and no input begins with two different characters.
  ghost predicate PrefixFree<Char(!new), Byte(!new)>(code: Code<Char, Byte>) {
    && 1 <= code.unit
    && (forall c :: code.unit <= |code.encode(c)|)
    && (forall b, c, d :: StartsWith(code, b, c) && StartsWith(code, b, d) ==> c == d)
  }

  ghost predicate StartsWith<Char, Byte>(code: Code<Char, Byte>, b: seq<Byte>, c: Char) {
    code.encode(c) <= b
  }

  ghost function EncodeAll<Char, Byte>(code: Code<Char, Byte>, s: seq<Char>): seq<Byte> {
    if s == [] then [] else code.encode(s[0]) + EncodeAll(code, s[1..])
  }

  ghost function Decoded<Char(!new), Byte(!new)>(code: Code<Char, Byte>, b: seq<Byte>): seq<Char>
    requires PrefixFree(code)
    decreases |b|
  {
    if |b| < code.unit then []
    else if exists c :: StartsWith(code, b, c) then
      var c :| StartsWith(code, b, c);
      [c] + Decoded(code, b[|code.encode(c)|..])
    else Decoded(code, b[code.unit..])
  }

  lemma DecodedTake<Char(!new), Byte(!new)>(code: Code<Char, Byte>, b: seq<Byte>, c: Char)
    requires PrefixFree(code) && StartsWith(code, b, c)
    ensures Decoded(code, b) == [c] + Decoded(code, b[|code.encode(c)|..])
  {
    assert code.unit <= |code.encode(c)| <= |b|;
    assert StartsWith(code, b, Decoded(code, b)[0]);
  }

  lemma DecodedConcat<Char(!new), Byte(!new)>(code: Code<Char, Byte>, c: Char, rest: seq<Byte>)
    requires PrefixFree(code)
    ensures Decoded(code, code.encode(c) + rest) == [c] + Decoded(code, rest)
  {
    var b := code.encode(c) + rest;
    assert b[..|code.encode(c)|] == code.encode(c) && b[|code.encode(c)|..] == rest;
    DecodedTake(code, b, c);
  }

  // Well-formed text in front of any bytes whatever is decoded exactly, and does not disturb the rest.
  lemma {:induction false} RoundTrip<Char(!new), Byte(!new)>(code: Code<Char, Byte>, s: seq<Char>, b: seq<Byte>)
    requires PrefixFree(code)
    ensures Decoded(code, EncodeAll(code, s) + b) == s + Decoded(code, b)
  {
    if s == [] {
      assert EncodeAll(code, s) + b == b;
    } else {
      var rest := EncodeAll(code, s[1..]) + b;
      assert EncodeAll(code, s) + b == code.encode(s[0]) + rest;
      DecodedConcat(code, s[0], rest);
      RoundTrip(code, s[1..], b);
    }
  }

  ghost predicate Subsequence<T>(a: seq<T>, b: seq<T>) {
    if a == [] then true
    else if b == [] then false
    else (a[0] == b[0] && Subsequence(a[1..], b[1..])) || Subsequence(a, b[1..])
  }

  lemma {:induction false} SubsequenceExtend<T>(common: seq<T>, a: seq<T>, b: seq<T>)
    requires Subsequence(a, b)
    ensures Subsequence(common + a, common + b)
  {
    if common == [] {
      assert common + a == a && common + b == b;
    } else {
      SubsequenceExtend(common[1..], a, b);
      assert (common + a)[1..] == common[1..] + a && (common + b)[1..] == common[1..] + b;
    }
  }

  lemma {:induction false} SubsequenceSkip<T>(skipped: seq<T>, a: seq<T>, b: seq<T>)
    requires Subsequence(a, b)
    ensures Subsequence(a, skipped + b)
  {
    if skipped == [] {
      assert skipped + b == b;
    } else {
      SubsequenceSkip(skipped[1..], a, b);
      assert (skipped + b)[1..] == skipped[1..] + b;
    }
  }

  // Decoding only drops bytes: re-encoding the result gives the input with some bytes left out.
  lemma {:induction false} DecodingOnlyDrops<Char(!new), Byte(!new)>(code: Code<Char, Byte>, b: seq<Byte>)
    requires PrefixFree(code)
    ensures Subsequence(EncodeAll(code, Decoded(code, b)), b)
    decreases |b|
  {
    if |b| < code.unit {
    } else if exists c :: StartsWith(code, b, c) {
      var c :| StartsWith(code, b, c);
      var rest := b[|code.encode(c)|..];
      DecodedTake(code, b, c);
      DecodingOnlyDrops(code, rest);
      SubsequenceExtend(code.encode(c), EncodeAll(code, Decoded(code, rest)), rest);
      assert b == code.encode(c) + rest;
      assert Decoded(code, b)[1..] == Decoded(code, rest);
    } else {
      DecodingOnlyDrops(code, b[code.unit..]);
      SubsequenceSkip(b[..code.unit], EncodeAll(code, Decoded(code, b)), b[code.unit..]);
      assert b == b[..code.unit] + b[code.unit..];
    }
  }

  // Decoding what was decoded changes nothing more.
  lemma DecodingIsIdempotent<Char(!new), Byte(!new)>(code: Code<Char, Byte>, b: seq<Byte>)
    requires PrefixFree(code)
    ensures Decoded(code, EncodeAll(code, Decoded(code, b))) == Decoded(code, b)
  {
    var s := Decoded(code, b);
    RoundTrip(code, s, []);
    assert EncodeAll(code, s) + [] == EncodeAll(code, s);
  }

  // Nothing at all is dropped exactly when the input is the encoding of some text.
  lemma LosslessExactlyOnWellFormed<Char(!new), Byte(!new)>(code: Code<Char, Byte>, b: seq<Byte>)
    requires PrefixFree(code)
    ensures EncodeAll(code, Decoded(code, b)) == b <==> exists s :: EncodeAll(code, s) == b
  {
    forall s | EncodeAll(code, s) == b ensures Decoded(code, b) == s {
      RoundTrip(code, s, []);
      assert EncodeAll(code, s) + [] == b;
    }
  }

  // ---------- The decoding loop ----------

  // What one round does with the bytes from the current one on: append a character and advance by
  // its width, or append nothing and advance by one unit.
  datatype Step<+Char> = Skip | Emit(c: Char, width: nat)

  // What was output, followed by what is still to decode, is the whole result.
  ghost predicate Remaining<Char(!new), Byte(!new)>(code: Code<Char, Byte>, data: seq<Byte>, i: nat, output: seq<Char>)
    requires PrefixFree(code)
  {
    i <= |data| && output + Decoded(code, data[i..]) == Decoded(code, data)
  }

  lemma Start<Char(!new), Byte(!new)>(code: Code<Char, Byte>, data: seq<Byte>)
    requires PrefixFree(code)
    ensures Remaining(code, data, 0, [])
  {
    assert data[0..] == data;
  }

  lemma EmitStep<Char(!new), Byte(!new)>(code: Code<Char, Byte>, data: seq<Byte>, i: nat, output: seq<Char>,
                                   c: Char, width: nat)
    requires PrefixFree(code) && Remaining(code, data, i, output)
    requires StartsWith(code, data[i..], c) && |code.encode(c)| == width
    ensures 1 <= width && Remaining(code, data, i + width, output + [c])
  {
    DecodedTake(code, data[i..], c);
    assert data[i..][width..] == data[i + width..];
  }

  lemma SkipStep<Char(!new), Byte(!new)>(code: Code<Char, Byte>, data: seq<Byte>, i: nat, output: seq<Char>)
    requires PrefixFree(code) && Remaining(code, data, i, output) && i + code.unit <= |data|
    requires forall c :: !StartsWith(code, data[i..], c)
    ensures Remaining(code, data, i + code.unit, output)
  {
    assert data[i..][code.unit..] == data[i + code.unit..];
  }

  lemma End<Char(!new), Byte(!new)>(code: Code<Char, Byte>, data: seq<Byte>, i: nat, output: seq<Char>)
    requires PrefixFree(code) && Remaining(code, data, i, output) && |data| < i + code.unit
    ensures output == Decoded(code, data)
  {
  }
}
