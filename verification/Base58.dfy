/**
  Base58 with the Bitcoin alphabet (draft-msporny-base58, sections 3 and 4).
  The two conversions of the library rewrite a little-endian digit list in place, carrying as they
  go.  Both are proved against one radix-conversion function.
*/
module Base58 {
  import opened Numbers
  import opened Radix

  datatype Decoded = Bytes(bytes: seq<int>) | InvalidCharacter(c: char)

  const DIGITS: string := "123456789"
  const UPPER: string := "ABCDEFGHJKLMNPQRSTUVWXYZ"
  const LOWER: string := "abcdefghijkmnopqrstuvwxyz"
  const ALPHABET: string := DIGITS + UPPER + LOWER

  // ---------------------------------------------------------------- the alphabet

  function DigitOf(c: char): (d: int)
    ensures -1 <= d < 58
  {
    if '1' <= c <= '9' then c as int - '1' as int
    else if 'A' <= c <= 'H' then 9 + (c as int - 'A' as int)
    else if 'J' <= c <= 'N' then 17 + (c as int - 'J' as int)
    else if 'P' <= c <= 'Z' then 22 + (c as int - 'P' as int)
    else if 'a' <= c <= 'k' then 33 + (c as int - 'a' as int)
    else if 'm' <= c <= 'z' then 44 + (c as int - 'm' as int)
    else -1
  }

  lemma DigitsIndex(d: int)
    requires 0 <= d < 9
    ensures |DIGITS| == 9 && DigitOf(DIGITS[d]) == d
  {
  }

  lemma UpperIndex(d: int)
    requires 0 <= d < 24
    ensures |UPPER| == 24 && DigitOf(UPPER[d]) == d + 9
  {
  }

  lemma LowerIndex(d: int)
    requires 0 <= d < 25
    ensures |LOWER| == 25 && DigitOf(LOWER[d]) == d + 33
  {
  }

  lemma AlphabetIndex(d: int)
    requires 0 <= d < 58
    ensures |ALPHABET| == 58 && DigitOf(ALPHABET[d]) == d
  {
    DigitsIndex(if d < 9 then d else 0);
    UpperIndex(if 9 <= d < 33 then d - 9 else 0);
    LowerIndex(if 33 <= d then d - 33 else 0);
  }

  /** The lookup table built from the alphabet: a character's index, -1 when it has none. */
  lemma DigitOfIsIndex(c: char)
    ensures (DigitOf(c) >= 0) == (c in ALPHABET)
    ensures DigitOf(c) >= 0 ==> ALPHABET[DigitOf(c)] == c
  {
    var d := DigitOf(c);
    if d >= 0 {
      DigitInjective(c);
    } else if c in ALPHABET {
      var i :| 0 <= i < |ALPHABET| && ALPHABET[i] == c;
      AlphabetIndex(0);
      AlphabetIndex(i);
    }
  }

  lemma DigitInjective(c: char)
    requires DigitOf(c) >= 0
    ensures |ALPHABET| == 58 && ALPHABET[DigitOf(c)] == c
  {
    AlphabetIndex(DigitOf(c));
    DigitDetermines(ALPHABET[DigitOf(c)], c);
  }

  lemma DigitDetermines(a: char, c: char)
    requires DigitOf(a) == DigitOf(c) >= 0
    ensures a == c
  {
  }

  function Text(d: seq<int>): (t: string)
    requires InRange(d, 58)
    ensures |t| == |d|
  {
    AlphabetIndex(0);
    if d == [] then "" else Text(d[..|d| - 1]) + [ALPHABET[d[|d| - 1]]]
  }

  ghost predicate Alphabetic(t: string) {
    forall i :: 0 <= i < |t| ==> DigitOf(t[i]) >= 0
  }

  function DigitsOf(t: string): (d: seq<int>)
    ensures |d| == |t|
  {
    if t == "" then [] else DigitsOf(t[..|t| - 1]) + [DigitOf(t[|t| - 1])]
  }

  lemma {:induction false} TextDigits(d: seq<int>)
    requires InRange(d, 58)
    ensures Alphabetic(Text(d)) && DigitsOf(Text(d)) == d
    decreases |d|
  {
    if d != [] {
      TextDigits(d[..|d| - 1]);
      AlphabetIndex(d[|d| - 1]);
      assert Text(d)[..|d| - 1] == Text(d[..|d| - 1]);
    }
  }

  lemma {:induction false} DigitsText(t: string)
    requires Alphabetic(t)
    ensures InRange(DigitsOf(t), 58) && Text(DigitsOf(t)) == t
    decreases |t|
  {
    if t != "" {
      DigitsText(t[..|t| - 1]);
      DigitInjective(t[|t| - 1]);
      assert DigitsOf(t)[..|t| - 1] == DigitsOf(t[..|t| - 1]);
    }
  }

  // ---------------------------------------------------------------- encode and decode

  ghost function EncodeSpec(bytes: seq<int>): string
    requires InRange(bytes, 256)
  {
    ConvertShape(bytes, 256, 58);
    Text(Convert(bytes, 256, 58))
  }

  lemma AlphabeticDigits(text: string)
    ensures Alphabetic(text) ==> InRange(DigitsOf(text), 58)
  {
    if Alphabetic(text) {
      DigitsText(text);
    }
  }

  ghost function FirstInvalid(text: string): (n: nat)
    ensures n <= |text| && (forall i :: 0 <= i < n ==> DigitOf(text[i]) >= 0)
    ensures n < |text| ==> DigitOf(text[n]) < 0
  {
    if text == "" || DigitOf(text[0]) < 0 then 0 else 1 + FirstInvalid(text[1..])
  }

  ghost function DecodeSpec(text: string): Decoded {
    var bad := FirstInvalid(text);
    AlphabeticDigits(text);
    if bad < |text| then InvalidCharacter(text[bad]) else Bytes(Convert(DigitsOf(text), 58, 256))
  }

  lemma LeadingZerosIs(d: seq<int>, n: nat)
    requires n <= |d| && (forall i :: 0 <= i < n ==> d[i] == 0) && (n < |d| ==> d[n] != 0)
    ensures LeadingZeros(d) == n
  {
  }

  /** The two inner loops both conversions run for each input digit: multiply in place, carry, push. */
  method Absorb(list: seq<int>, mult: int, value: int, base: int) returns (digits: seq<int>)
    requires value >= 0 && base > 1 && mult >= 0 && NonNegative(list)
    ensures digits == CarryPass(list, mult, value, base)
  {
    digits := list;
    ghost var after := CarryPass(list, mult, value, base);
    var carry := value;
    var j := 0;
    while j < |digits|
      invariant 0 <= j <= |digits| == |list| && digits[j..] == list[j..] && carry >= 0
      invariant digits[..j] + CarryPass(list[j..], mult, carry, base) == after
    {
      carry := carry + digits[j] * mult;
      DivMod(carry, base);
      assert list[j..][1..] == list[j + 1..] && list[j..][0] == digits[j];
      digits := digits[j := carry % base];
      carry := carry / base;
      j := j + 1;
    }
    while carry > 0
      invariant carry >= 0 && digits + Push(carry, base) == after
    {
      DivMod(carry, base);
      digits := digits + [carry % base];
      carry := carry / base;
    }
  }

  lemma AccumulateNext(input: seq<int>, i: nat, from: int, to: int)
    requires from > 0 && to > 1 && i < |input| && NonNegative(input)
    ensures Accumulate(input[..i + 1], from, to) == CarryPass(Accumulate(input[..i], from, to), from, input[i], to)
  {
    assert input[..i + 1][..i] == input[..i];
  }

  lemma {:induction false} AccumulateZeros(input: seq<int>, from: int, to: int)
    requires from > 0 && to > 1 && forall i :: 0 <= i < |input| ==> input[i] == 0
    ensures Accumulate(input, from, to) == []
    decreases |input|
  {
    if input != [] {
      AccumulateZeros(input[..|input| - 1], from, to);
    }
  }

  method Encode(bytes: seq<int>) returns (out: string)
    requires InRange(bytes, 256)
    ensures out == EncodeSpec(bytes)
  {
    var zeros := 0;
    while zeros < |bytes| && bytes[zeros] == 0
      invariant 0 <= zeros <= |bytes| && forall k :: 0 <= k < zeros ==> bytes[k] == 0
    {
      zeros := zeros + 1;
    }
    LeadingZerosIs(bytes, zeros);
    AccumulateZeros(bytes[..zeros], 256, 58);
    var digits: seq<int> := [];
    for i := zeros to |bytes|
      invariant digits == Accumulate(bytes[..i], 256, 58)
    {
      AccumulateNext(bytes, i, 256, 58);
      digits := Absorb(digits, 256, bytes[i], 58);
    }
    assert bytes[..|bytes|] == bytes;
    AccumulateMeaning(bytes, 256, 58);
    ConvertShape(bytes, 256, 58);
    out := Spell(zeros, digits);
  }

  /** The output loop of the encoder: one '1' per leading zero, then the digits from the most significant. */
  method Spell(zeros: nat, digits: seq<int>) returns (out: string)
    requires InRange(digits, 58) && InRange(Zeros(zeros) + Reverse(digits), 58)
    ensures out == Text(Zeros(zeros) + Reverse(digits))
  {
    hide Spelled;
    hide Text;
    ghost var goal := Zeros(zeros) + Reverse(digits);
    out := "";
    SpellEnds(goal, out);
    var k := 0;
    while k < zeros
      invariant 0 <= k <= zeros && Spelled(goal, k, out)
    {
      SpellNext(goal, k, out);
      out := out + "1";
      k := k + 1;
    }
    var i := |digits| - 1;
    while i >= 0
      invariant -1 <= i < |digits| && Spelled(goal, zeros + |digits| - 1 - i, out)
    {
      ReverseAt(digits, |digits| - 1 - i);
      SpellNext(goal, zeros + |digits| - 1 - i, out);
      out := out + [ALPHABET[digits[i]]];
      i := i - 1;
    }
    SpellEnds(goal, out);
  }

  lemma SpellEnds(d: seq<int>, out: string)
    requires InRange(d, 58)
    ensures Spelled(d, 0, "")
    ensures Spelled(d, |d|, out) ==> out == Text(d)
  {
    assert d[..|d|] == d;
  }

  ghost predicate Spelled(d: seq<int>, k: nat, out: string) {
    k <= |d| && InRange(d, 58) && out == Text(d[..k])
  }

  lemma SpellNext(d: seq<int>, k: nat, out: string)
    requires k < |d| && Spelled(d, k, out)
    ensures |ALPHABET| == 58 && 0 <= d[k] < 58 && Spelled(d, k + 1, out + [ALPHABET[d[k]]])
    ensures d[k] == 0 ==> Spelled(d, k + 1, out + "1")
  {
    AlphabetIndex(d[k]);
    DigitsIndex(0);
    assert d[..k + 1][..k] == d[..k];
  }

  lemma DigitsNext(text: string, i: nat)
    requires i < |text|
    ensures DigitsOf(text[..i + 1]) == DigitsOf(text[..i]) + [DigitOf(text[i])]
  {
    assert text[..i + 1][..i] == text[..i];
  }

  lemma AccumulateDigit(text: string, i: nat)
    requires i < |text| && NonNegative(DigitsOf(text[..i])) && DigitOf(text[i]) >= 0
    ensures NonNegative(DigitsOf(text[..i + 1]))
    ensures Accumulate(DigitsOf(text[..i + 1]), 58, 256)
            == CarryPass(Accumulate(DigitsOf(text[..i]), 58, 256), 58, DigitOf(text[i]), 256)
  {
    DigitsNext(text, i);
    AccumulateNext(DigitsOf(text[..i + 1]), i, 58, 256);
    assert DigitsOf(text[..i + 1])[..i] == DigitsOf(text[..i]);
    assert DigitsOf(text[..i + 1])[..i + 1] == DigitsOf(text[..i + 1]);
  }

  lemma {:induction false} OnesAreZeros(text: string, n: nat)
    requires n <= |text| && forall k :: 0 <= k < n ==> text[k] == '1'
    ensures DigitsOf(text[..n]) == Zeros(n)
  {
    if n > 0 {
      OnesAreZeros(text, n - 1);
      DigitsNext(text, n - 1);
      assert text[n - 1] == '1' && Zeros(n) == Zeros(n - 1) + [0];
    }
  }

  lemma {:induction false} DigitsOfAt(text: string, k: nat)
    requires k < |text|
    ensures DigitsOf(text)[k] == DigitOf(text[k])
    decreases |text|
  {
    if k < |text| - 1 {
      DigitsOfAt(text[..|text| - 1], k);
    }
  }

  /** Leading '1' characters are exactly the leading zero digits. */
  method CountOnes(text: string) returns (zeros: nat)
    ensures zeros <= |text| && zeros == LeadingZeros(DigitsOf(text)) && DigitsOf(text[..zeros]) == Zeros(zeros)
  {
    zeros := 0;
    while zeros < |text| && text[zeros] == '1'
      invariant 0 <= zeros <= |text| && forall k :: 0 <= k < zeros ==> text[k] == '1'
    {
      zeros := zeros + 1;
    }
    OnesAreZeros(text, zeros);
    forall k | 0 <= k < |text| ensures DigitsOf(text)[k] == DigitOf(text[k]) {
      DigitsOfAt(text, k);
    }
    if zeros < |text| && DigitOf(text[zeros]) == 0 {
      DigitDetermines(text[zeros], '1');
    }
    LeadingZerosIs(DigitsOf(text), zeros);
  }

  method Decode(text: string) returns (out: Decoded)
    ensures out == DecodeSpec(text)
  {
    var zeros := CountOnes(text);
    ReadNone(text, zeros);
    var bytes: seq<int> := [];
    var i := zeros;
    while i < |text|
      invariant zeros <= i <= |text| && ReadSoFar(text, i, bytes)
    {
      var v := DigitOf(text[i]);
      if v < 0 {
        Rejected(text, i, bytes);
        return InvalidCharacter(text[i]);
      }
      ReadOne(text, i, bytes);
      bytes := Absorb(bytes, 58, v, 256);
      i := i + 1;
    }
    ReadAll(text, zeros, bytes);
    out := Unreverse(zeros, bytes);
  }

  /** The decoder's loop invariant: a valid prefix has been absorbed. */
  ghost predicate ReadSoFar(text: string, i: nat, bytes: seq<int>) {
    i <= |text| && Alphabetic(text[..i]) && NonNegative(DigitsOf(text[..i])) && NonNegative(bytes)
    && bytes == Accumulate(DigitsOf(text[..i]), 58, 256)
  }

  lemma ReadNone(text: string, n: nat)
    requires n <= |text| && DigitsOf(text[..n]) == Zeros(n)
    ensures ReadSoFar(text, n, [])
  {
    AccumulateZeros(Zeros(n), 58, 256);
    forall k | 0 <= k < n ensures DigitOf(text[..n][k]) >= 0 {
      DigitsOfAt(text[..n], k);
    }
  }

  lemma ReadOne(text: string, i: nat, bytes: seq<int>)
    requires i < |text| && ReadSoFar(text, i, bytes) && DigitOf(text[i]) >= 0
    ensures ReadSoFar(text, i + 1, CarryPass(bytes, 58, DigitOf(text[i]), 256))
  {
    AccumulateDigit(text, i);
    CarryPassNonNegative(bytes, 58, DigitOf(text[i]), 256);
    assert text[..i + 1] == text[..i] + [text[i]];
  }

  lemma Rejected(text: string, i: nat, bytes: seq<int>)
    requires i < |text| && ReadSoFar(text, i, bytes) && DigitOf(text[i]) < 0
    ensures DecodeSpec(text) == InvalidCharacter(text[i])
  {
    assert forall k :: 0 <= k < i ==> text[..i][k] == text[k];
    assert FirstInvalid(text) == i;
  }

  lemma ReadAll(text: string, zeros: nat, bytes: seq<int>)
    requires ReadSoFar(text, |text|, bytes) && zeros == LeadingZeros(DigitsOf(text))
    ensures DecodeSpec(text) == Bytes(Zeros(zeros) + Reverse(bytes))
  {
    assert text[..|text|] == text;
  }

  /** The output loop of the decoder: leading zeros, then the bytes from the most significant. */
  method Unreverse(zeros: nat, bytes: seq<int>) returns (out: Decoded)
    ensures out == Bytes(Zeros(zeros) + Reverse(bytes))
  {
    var result := Zeros(zeros + |bytes|);
    ghost var goal := Zeros(zeros) + Reverse(bytes);
    ReverseAll(bytes);
    for i := 0 to |bytes|
      invariant |result| == zeros + |bytes| && result[..zeros + i] == goal[..zeros + i]
    {
      result := result[zeros + i := bytes[|bytes| - 1 - i]];
    }
    out := Bytes(result);
  }
}
