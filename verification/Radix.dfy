/**
  Positional numbers as digit sequences, and the carry-by-carry conversion from one base to another:
  what it computes, that it is reversible, and that its result is the only one.
*/
module Radix {
  import opened Numbers

  // ---------------------------------------------------------------- numbers as digit sequences

  ghost predicate InRange(d: seq<int>, base: int) {
    forall i :: 0 <= i < |d| ==> 0 <= d[i] < base
  }

  ghost predicate NonNegative(d: seq<int>) {
    forall i :: 0 <= i < |d| ==> d[i] >= 0
  }

  /** Value of a digit sequence, least significant digit first. */
  ghost function Little(d: seq<int>, base: int): int {
    if d == [] then 0 else d[0] + base * Little(d[1..], base)
  }

  /** Value of a digit sequence, most significant digit first. */
  ghost function Big(d: seq<int>, base: int): int {
    if d == [] then 0 else Big(d[..|d| - 1], base) * base + d[|d| - 1]
  }

  /** Digits in range with no zero in the most significant (last) place: the shape both arrays keep. */
  ghost predicate Canonical(d: seq<int>, base: int) {
    InRange(d, base) && (d != [] ==> d[|d| - 1] != 0)
  }

  function Reverse(d: seq<int>): (r: seq<int>)
    ensures |r| == |d|
  {
    if d == [] then [] else Reverse(d[1..]) + [d[0]]
  }

  lemma {:induction false} ReverseAt(d: seq<int>, i: nat)
    requires i < |d|
    ensures Reverse(d)[i] == d[|d| - 1 - i]
  {
    if i < |d| - 1 {
      ReverseAt(d[1..], i);
    }
  }

  lemma ReverseAll(d: seq<int>)
    ensures forall i :: 0 <= i < |d| ==> Reverse(d)[i] == d[|d| - 1 - i]
  {
    forall i | 0 <= i < |d| ensures Reverse(d)[i] == d[|d| - 1 - i] {
      ReverseAt(d, i);
    }
  }

  lemma ReverseTwice(d: seq<int>)
    ensures Reverse(Reverse(d)) == d
  {
    ReverseAll(d);
    ReverseAll(Reverse(d));
  }

  lemma {:induction false} LittleNonNegative(d: seq<int>, base: int)
    requires base > 0 && InRange(d, base)
    ensures Little(d, base) >= 0
  {
    if d != [] {
      LittleNonNegative(d[1..], base);
    }
  }

  lemma {:induction false} BigIsLittleReversed(d: seq<int>, base: int)
    ensures Big(Reverse(d), base) == Little(d, base)
  {
    if d != [] {
      BigIsLittleReversed(d[1..], base);
      assert Reverse(d)[..|d| - 1] == Reverse(d[1..]);
    }
  }

  lemma SplitDigit(a: int, x: int, b: int, y: int, base: int)
    requires base > 0 && 0 <= a < base && 0 <= b < base && a + base * x == b + base * y
    ensures a == b && x == y
  {
    assert (x - y) * base == b - a;
    if x > y {
      MulMonotone(1, x - y, base);
    } else if x < y {
      MulMonotone(x - y, -1, base);
    }
  }

  lemma {:induction false} CanonicalPositive(d: seq<int>, base: int)
    requires base > 1 && Canonical(d, base) && d != []
    ensures Little(d, base) > 0
  {
    if |d| > 1 {
      CanonicalPositive(d[1..], base);
      assert base * Little(d[1..], base) > 0;
    } else {
      assert d[1..] == [];
    }
  }

  /** Positional representation without leading zeros is unique. */
  lemma {:induction false} RepresentationUnique(a: seq<int>, b: seq<int>, base: int)
    requires base > 1 && Canonical(a, base) && Canonical(b, base)
    requires Little(a, base) == Little(b, base)
    ensures a == b
  {
    if a == [] {
      if b != [] { CanonicalPositive(b, base); }
    } else if b == [] {
      CanonicalPositive(a, base);
    } else {
      SplitDigit(a[0], Little(a[1..], base), b[0], Little(b[1..], base), base);
      RepresentationUnique(a[1..], b[1..], base);
      assert a == [a[0]] + a[1..] && b == [b[0]] + b[1..];
    }
  }

  // ---------------------------------------------------------------- one carry pass

  /** What the push loop appends for a final carry. */
  function Push(carry: int, base: int): seq<int>
    requires carry >= 0 && base > 1
    decreases carry
  {
    if carry == 0 then []
    else
      DivMod(carry, base);
      [carry % base] + Push(carry / base, base)
  }

  /** What one pass of the two inner loops turns `d` into: `d * mult + carry` in base `base`. */
  function CarryPass(d: seq<int>, mult: int, carry: int, base: int): seq<int>
    requires carry >= 0 && base > 1 && mult >= 0
    requires NonNegative(d)
  {
    if d == [] then Push(carry, base)
    else
      var c := carry + d[0] * mult;
      DivMod(c, base);
      [c % base] + CarryPass(d[1..], mult, c / base, base)
  }

  lemma {:induction false} PushMeaning(carry: int, base: int)
    requires carry >= 0 && base > 1
    ensures Canonical(Push(carry, base), base) && Little(Push(carry, base), base) == carry
    ensures carry > 0 ==> Push(carry, base) != []
    decreases carry
  {
    if carry > 0 {
      DivMod(carry, base);
      var rest := Push(carry / base, base);
      PushMeaning(carry / base, base);
      assert Push(carry, base)[1..] == rest;
    }
  }

  lemma {:induction false} CarryPassValue(d: seq<int>, mult: int, carry: int, base: int)
    requires carry >= 0 && base > 1 && mult > 0 && NonNegative(d)
    ensures Little(CarryPass(d, mult, carry, base), base) == mult * Little(d, base) + carry
    decreases |d|
  {
    if d == [] {
      PushMeaning(carry, base);
    } else {
      var c := carry + d[0] * mult;
      DivMod(c, base);
      CarryPassValue(d[1..], mult, c / base, base);
      assert CarryPass(d, mult, carry, base)[1..] == CarryPass(d[1..], mult, c / base, base);
      CarryAlgebra(d[0], Little(d[1..], base), mult, carry, base);
    }
  }

  lemma {:induction false} CarryPassCanonical(d: seq<int>, mult: int, carry: int, base: int)
    requires carry >= 0 && base > 1 && mult > 0 && Canonical(d, base)
    ensures Canonical(CarryPass(d, mult, carry, base), base)
    ensures d != [] ==> CarryPass(d, mult, carry, base) != []
    decreases |d|
  {
    if d == [] {
      PushMeaning(carry, base);
    } else {
      var c := carry + d[0] * mult;
      DivMod(c, base);
      var rest := CarryPass(d[1..], mult, c / base, base);
      if |d| == 1 {
        PushMeaning(c / base, base);
        MulMonotone(1, d[0], mult);
        assert rest == Push(c / base, base);
      } else {
        CarryPassCanonical(d[1..], mult, c / base, base);
      }
      PrependCanonical(c % base, rest, base);
    }
  }

  lemma PrependCanonical(x: int, rest: seq<int>, base: int)
    requires 0 <= x < base && Canonical(rest, base) && (rest == [] ==> x != 0)
    ensures Canonical([x] + rest, base)
  {
  }

  lemma CarryAlgebra(d0: int, tail: int, mult: int, carry: int, base: int)
    requires base > 1 && carry + d0 * mult >= 0
    ensures var c := carry + d0 * mult; c % base + base * (mult * tail + c / base) == mult * (d0 + base * tail) + carry
  {
    var c := carry + d0 * mult;
    DivMod(c, base);
    assert base * (mult * tail + c / base) == base * (mult * tail) + base * (c / base);
    assert mult * (d0 + base * tail) == mult * d0 + mult * (base * tail);
    assert base * (mult * tail) == mult * (base * tail);
  }

  // ---------------------------------------------------------------- radix conversion

  /** The digit list after the outer loop has read all of `input`. */
  function Accumulate(input: seq<int>, from: int, to: int): seq<int>
    requires from > 0 && to > 1 && NonNegative(input)
    ensures NonNegative(Accumulate(input, from, to))
  {
    if input == [] then []
    else
      var d := Accumulate(input[..|input| - 1], from, to);
      CarryPassNonNegative(d, from, input[|input| - 1], to);
      CarryPass(d, from, input[|input| - 1], to)
  }

  lemma {:induction false} CarryPassNonNegative(d: seq<int>, mult: int, carry: int, base: int)
    requires carry >= 0 && base > 1 && mult >= 0 && NonNegative(d)
    ensures InRange(CarryPass(d, mult, carry, base), base)
    decreases |d|
  {
    if d == [] {
      PushMeaning(carry, base);
    } else {
      DivMod(carry + d[0] * mult, base);
      CarryPassNonNegative(d[1..], mult, (carry + d[0] * mult) / base, base);
    }
  }

  /** The arrays hold exactly the number formed by the prefix read so far, in canonical form. */
  lemma {:induction false} AccumulateMeaning(input: seq<int>, from: int, to: int)
    requires from > 0 && to > 1 && InRange(input, from)
    ensures Canonical(Accumulate(input, from, to), to)
    ensures Little(Accumulate(input, from, to), to) == Big(input, from)
    decreases |input|
  {
    if input != [] {
      AccumulateMeaning(input[..|input| - 1], from, to);
      CarryPassValue(Accumulate(input[..|input| - 1], from, to), from, input[|input| - 1], to);
      CarryPassCanonical(Accumulate(input[..|input| - 1], from, to), from, input[|input| - 1], to);
    }
  }

  function LeadingZeros(d: seq<int>): (n: nat)
    ensures n <= |d| && (forall i :: 0 <= i < n ==> d[i] == 0) && (n < |d| ==> d[n] != 0)
  {
    if d == [] || d[0] != 0 then 0 else 1 + LeadingZeros(d[1..])
  }

  function Zeros(n: nat): (z: seq<int>)
    ensures |z| == n && forall i :: 0 <= i < n ==> z[i] == 0
  {
    seq(n, i => 0)
  }

  /** Most significant digit first in and out; every leading zero is kept as one leading zero. */
  function Convert(input: seq<int>, from: int, to: int): seq<int>
    requires from > 0 && to > 1 && NonNegative(input)
  {
    Zeros(LeadingZeros(input)) + Reverse(Accumulate(input, from, to))
  }

  lemma {:induction false} LeadingZerosOf(z: nat, rest: seq<int>)
    requires rest != [] ==> rest[0] != 0
    ensures LeadingZeros(Zeros(z) + rest) == z
  {
    if z == 0 {
      assert Zeros(0) + rest == rest;
    } else {
      LeadingZerosOf(z - 1, rest);
      assert (Zeros(z) + rest)[1..] == Zeros(z - 1) + rest;
    }
  }

  lemma {:induction false} BigOfPadded(z: nat, rest: seq<int>, base: int)
    ensures Big(Zeros(z) + rest, base) == Big(rest, base)
    decreases |rest|, z
  {
    var d := Zeros(z) + rest;
    if rest != [] {
      BigOfPadded(z, rest[..|rest| - 1], base);
      assert d[..|d| - 1] == Zeros(z) + rest[..|rest| - 1];
    } else if z > 0 {
      BigOfPadded(z - 1, [], base);
      assert d[..|d| - 1] == Zeros(z - 1) + [];
    }
  }

  /** Conversion keeps the number and the count of leading zeros. */
  lemma ConvertShape(input: seq<int>, from: int, to: int)
    requires from > 1 && to > 1 && InRange(input, from)
    ensures var out := Convert(input, from, to);
            InRange(out, to) && LeadingZeros(out) == LeadingZeros(input) && Big(out, to) == Big(input, from)
  {
    var acc := Accumulate(input, from, to);
    AccumulateMeaning(input, from, to);
    ReverseAll(acc);
    LeadingZerosOf(LeadingZeros(input), Reverse(acc));
    BigOfPadded(LeadingZeros(input), Reverse(acc), to);
    BigIsLittleReversed(acc, to);
  }

  /** The digit list is determined by the number the input denotes. */
  lemma AccumulateIs(input: seq<int>, rest: seq<int>, from: int, to: int, value: int)
    requires from > 1 && to > 1 && InRange(input, from) && Big(input, from) == value
    requires InRange(rest, to) && (rest != [] ==> rest[0] != 0) && Big(rest, to) == value
    ensures Reverse(Accumulate(input, from, to)) == rest
  {
    AccumulateMeaning(input, from, to);
    ReverseTwice(rest);
    ReverseAll(rest);
    BigIsLittleReversed(Reverse(rest), to);
    RepresentationUnique(Accumulate(input, from, to), Reverse(rest), to);
  }

  /** Converting to another base and back is the identity on every digit sequence. */
  lemma ConvertRoundTrip(input: seq<int>, from: int, to: int)
    requires from > 1 && to > 1 && InRange(input, from)
    ensures InRange(Convert(input, from, to), to)
    ensures Convert(Convert(input, from, to), to, from) == input
  {
    var z := LeadingZeros(input);
    var rest := input[z..];
    ConvertShape(input, from, to);
    assert Zeros(z) + rest == input;
    BigOfPadded(z, rest, from);
    AccumulateIs(Convert(input, from, to), rest, to, from, Big(input, from));
  }
}
