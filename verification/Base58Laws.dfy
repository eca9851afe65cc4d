/** What Base58 promises: the round trips, for every input, and the length of an address. */
module Base58Laws {
  import opened Numbers
  import opened Radix
  import opened Base58

  // ---------------------------------------------------------------- what the library promises

  /** Decoding an encoded byte array gives the array back, leading zero bytes included. */
  lemma DecodeEncode(bytes: seq<int>)
    requires InRange(bytes, 256)
    ensures DecodeSpec(EncodeSpec(bytes)) == Bytes(bytes)
  {
    ConvertShape(bytes, 256, 58);
    ConvertRoundTrip(bytes, 256, 58);
    TextDigits(Convert(bytes, 256, 58));
  }

  /** A string decodes exactly when all its characters are in the alphabet, and re-encodes to itself. */
  lemma EncodeDecode(text: string)
    ensures DecodeSpec(text).Bytes? <==> forall i :: 0 <= i < |text| ==> text[i] in ALPHABET
    ensures DecodeSpec(text).Bytes? ==>
              InRange(DecodeSpec(text).bytes, 256) && EncodeSpec(DecodeSpec(text).bytes) == text
    ensures DecodeSpec(text).InvalidCharacter? ==> DecodeSpec(text).c in text && DecodeSpec(text).c !in ALPHABET
  {
    forall c: char ensures (DigitOf(c) >= 0) == (c in ALPHABET) {
      DigitOfIsIndex(c);
    }
    if FirstInvalid(text) == |text| {
      DigitsText(text);
      ConvertRoundTrip(DigitsOf(text), 58, 256);
    }
  }

  ghost function Pow(b: int, n: nat): int {
    if n == 0 then 1 else b * Pow(b, n - 1)
  }

  lemma ProductMonotone(a: int, b: int, x: int, y: int)
    requires 1 <= a <= b && 1 <= x <= y
    ensures 1 <= a * x <= b * y
  {
    MulMonotone(1, a, x);
    MulMonotone(a, b, x);
    MulMonotone(x, y, b);
  }

  lemma {:induction false} PowMonotone(a: int, b: int, m: nat, n: nat)
    requires 1 <= a <= b && m <= n
    ensures 1 <= Pow(a, m) <= Pow(b, n)
    decreases n
  {
    if m > 0 {
      PowMonotone(a, b, m - 1, n - 1);
      ProductMonotone(a, b, Pow(a, m - 1), Pow(b, n - 1));
    } else if n > 0 {
      PowMonotone(a, b, 0, n - 1);
      ProductMonotone(1, b, 1, Pow(b, n - 1));
    }
  }

  lemma LeadingStep(base: int, d0: int, rest: int, low: int, high: int)
    requires base > 1 && 0 <= d0 < base && low <= rest < high
    ensures base * low <= d0 + base * rest < base * high
  {
    MulMonotone(low, rest, base);
    MulMonotone(rest, high - 1, base);
    assert (high - 1) * base == base * high - base;
  }

  lemma {:induction false} CanonicalBounds(d: seq<int>, base: int)
    requires base > 1 && Canonical(d, base) && d != []
    ensures Pow(base, |d| - 1) <= Little(d, base) < Pow(base, |d|)
  {
    var rest := d[1..];
    if rest != [] {
      CanonicalBounds(rest, base);
      LeadingStep(base, d[0], Little(rest, base), Pow(base, |d| - 2), Pow(base, |d| - 1));
    } else {
      assert Pow(base, 0) == 1 && Pow(base, 1) == base;
    }
  }

  lemma {:induction false} PowAdd(b: int, m: nat, n: nat)
    ensures Pow(b, m + n) == Pow(b, m) * Pow(b, n)
  {
    if m > 0 {
      PowAdd(b, m - 1, n);
      assert Pow(b, m + n) == b * (Pow(b, m - 1) * Pow(b, n)) == (b * Pow(b, m - 1)) * Pow(b, n);
    }
  }

  lemma PowLiterals()
    ensures Pow(256, 8) == 18446744073709551616 && Pow(58, 11) == 24986644000165537792
  {
    assert Pow(256, 4) == 4294967296;
    assert Pow(58, 5) == 656356768 && Pow(58, 6) == 38068692544;
    PowAdd(256, 4, 4);
    PowAdd(58, 5, 6);
  }

  lemma Squares(x: int, y: int)
    requires 0 < x <= y
    ensures 0 < x * x <= y * y
  {
    MulMonotone(x, y, x);
    MulMonotone(x, y, y);
  }

  /** 44 base58 digits hold 32 bytes, and shorter inputs need proportionally fewer. */
  lemma {:induction false} ByteRoom(k: nat)
    requires k <= 32
    ensures Pow(256, k) <= Pow(58, 12 + k)
    decreases 32 - k
  {
    if k == 32 {
      PowLiterals();
      PowAdd(256, 8, 8); PowAdd(256, 16, 16);
      PowAdd(58, 11, 11); PowAdd(58, 22, 22);
      Squares(Pow(256, 8), Pow(58, 11));
      Squares(Pow(256, 16), Pow(58, 22));
    } else {
      ByteRoom(k + 1);
      PowMonotone(58, 58, 0, 12 + k);
      if Pow(256, k) > Pow(58, 12 + k) {
        MulMonotone(Pow(58, 12 + k), Pow(256, k), 256);
      }
    }
  }

  lemma DigitCount(v: int, k: nat, n: nat)
    requires 1 <= k <= 32 && n >= 1
    requires Pow(256, k - 1) <= v < Pow(256, k) && Pow(58, n - 1) <= v < Pow(58, n)
    ensures k <= n <= 12 + k
  {
    ByteRoom(k);
    if n < k {
      PowMonotone(58, 256, n, k - 1);
    }
    if n > 12 + k {
      PowMonotone(58, 58, 12 + k, n - 1);
    }
  }

  lemma BigBounds(rest: seq<int>, base: int)
    requires base > 1 && InRange(rest, base) && rest != [] && rest[0] != 0
    ensures Pow(base, |rest| - 1) <= Big(rest, base) < Pow(base, |rest|) && Big(rest, base) > 0
  {
    var d := Reverse(rest);
    ReverseAll(rest);
    assert Canonical(d, base);
    ReverseTwice(rest);
    BigIsLittleReversed(d, base);
    CanonicalBounds(d, base);
    CanonicalPositive(d, base);
  }

  lemma SignificantLength(rest: seq<int>, acc: seq<int>)
    requires InRange(rest, 256) && |rest| <= 32 && (rest != [] ==> rest[0] != 0)
    requires Canonical(acc, 58) && Little(acc, 58) == Big(rest, 256)
    ensures |rest| <= |acc| <= 12 + |rest|
  {
    if acc != [] {
      CanonicalBounds(acc, 58);
      CanonicalPositive(acc, 58);
    }
    if rest != [] {
      BigBounds(rest, 256);
      DigitCount(Big(rest, 256), |rest|, |acc|);
    }
  }

  /** Every 32-byte key prints as 32 to 44 characters, the bounds of the address schema. */
  lemma AddressLength(bytes: seq<int>)
    requires InRange(bytes, 256) && |bytes| == 32
    ensures 32 <= |EncodeSpec(bytes)| <= 44
  {
    var z := LeadingZeros(bytes);
    AccumulateMeaning(bytes, 256, 58);
    assert Zeros(z) + bytes[z..] == bytes;
    BigOfPadded(z, bytes[z..], 256);
    SignificantLength(bytes[z..], Accumulate(bytes, 256, 58));
    ConvertShape(bytes, 256, 58);
  }

  // ---------------------------------------------------------------- what an encoding denotes

  /** The encoding denotes the number the bytes denote, both most significant digit first, and starts with as many 1s as
      the bytes start with zeros. */
  lemma EncodingDenotes(bytes: seq<int>)
    requires InRange(bytes, 256)
    ensures Big(DigitsOf(EncodeSpec(bytes)), 58) == Big(bytes, 256)
    ensures LeadingZeros(DigitsOf(EncodeSpec(bytes))) == LeadingZeros(bytes)
    ensures forall i :: 0 <= i < |bytes| && (forall k :: 0 <= k <= i ==> bytes[k] == 0) ==> i < |EncodeSpec(bytes)| && EncodeSpec(bytes)[i] == '1'
  {
    ConvertShape(bytes, 256, 58);
    TextDigits(Convert(bytes, 256, 58));
    var text := EncodeSpec(bytes);
    forall i | 0 <= i < |bytes| && forall k :: 0 <= k <= i ==> bytes[k] == 0 ensures i < |text| && text[i] == '1' {
      assert i < LeadingZeros(bytes);
      DigitAt(text, i);
      AlphabetIndex(0);
      DigitDetermines(text[i], '1');
    }
  }

  lemma {:induction false} DigitAt(text: string, i: nat)
    requires i < |text|
    ensures DigitsOf(text)[i] == DigitOf(text[i])
    decreases |text|
  {
    if i < |text| - 1 {
      DigitAt(text[..|text| - 1], i);
    }
  }

  /** The alphabet is the letters and digits without 0, O, I and l, in ascending order. */
  lemma AlphabetExactly(c: char)
    ensures DigitOf(c) >= 0 <==>
              (('0' <= c <= '9') || ('A' <= c <= 'Z') || ('a' <= c <= 'z')) && c != '0' && c != 'O' && c != 'I' && c != 'l'
    ensures forall b: char :: DigitOf(b) >= 0 && DigitOf(c) >= 0 ==> (DigitOf(b) < DigitOf(c) <==> b < c)
  {
  }
}
