/**
 The Internet checksum: the reference definition (RFC 1071, section 1), and the prober's way of computing it,
 a plain 32-bit sum of big-endian words whose carries are folded in at the end.
 */
module Checksum {
  import opened Labels

  // ----- the reference: one's complement arithmetic on 16-bit words -----

  function OnesAdd(a: uint16, b: uint16): uint16 {
    if a + b > 0xffff then a + b - 0xffff else a + b
  }

  /** A big-endian word. */
  function Word(high: uint8, low: uint8): uint16 {
    var h: int := high;
    h * 0x100 + low
  }

  /** The one's complement sum of the words; an odd last byte is padded with a zero byte. */
  function OnesSum(data: seq<uint8>): uint16 {
    if |data| == 0 then 0
    else if |data| == 1 then Word(data[0], 0)
    else OnesAdd(Word(data[0], data[1]), OnesSum(data[2..]))
  }

  function InternetChecksum(data: seq<uint8>): uint16 {
    0xffff - OnesSum(data)
  }

  /** What a receiver checks of a message with its checksum in place. */
  predicate Verifies(data: seq<uint8>) {
    OnesSum(data) == 0xffff
  }

  // ----- the prober's computation -----

  /** The plain sum of the words. */
  function WordSum(data: seq<uint8>): nat {
    if |data| == 0 then 0
    else if |data| == 1 then Word(data[0], 0)
    else Word(data[0], data[1]) + WordSum(data[2..])
  }

  /** `addChecksumCarryover`: two folds in 32 bits, then the complement of the low half. */
  function Carryover(sum: uint32): uint16 {
    var once := sum / 0x1_0000 + sum % 0x1_0000;
    var twice := (once + once / 0x1_0000) % 0x1_0000_0000;
    0xffff - twice % 0x1_0000
  }

  /** `sum += word` in 32 bits. */
  function Add32(sum: uint32, word: uint16): uint32 {
    (sum + word) % 0x1_0000_0000
  }

  lemma Add32Carries(sum: uint32, word: uint16, rest: nat)
    ensures (Add32(sum, word) + rest) % 0x1_0000_0000 == (sum + (word + rest)) % 0x1_0000_0000
  {
  }

  /** `calculateChecksum` */
  method CalculateChecksum(buffer: array<uint8>, from: nat, size: nat) returns (sum: uint32)
    requires from + size <= buffer.Length
    ensures sum == WordSum(buffer[from..from + size]) % 0x1_0000_0000
  {
    hide Add32, Word;
    sum := 0;
    var i, left := from, size;
    while left > 1
      invariant i + left == from + size && from <= i
      invariant (sum + WordSum(buffer[i..from + size])) % 0x1_0000_0000 == WordSum(buffer[from..from + size]) % 0x1_0000_0000
    {
      var word := Word(buffer[i], buffer[i + 1]);
      assert buffer[i..from + size][2..] == buffer[i + 2..from + size];
      Add32Carries(sum, word, WordSum(buffer[i + 2..from + size]));
      sum := Add32(sum, word);
      i, left := i + 2, left - 2;
    }
    if left > 0 {
      var word := Word(buffer[i], 0);
      Add32Carries(sum, word, 0);
      sum := Add32(sum, word);
    }
  }

  // ----- the two agree -----

  /** The 16-bit representative of a sum: zero only for zero, else in 1..0xffff and equal modulo 0xffff. */
  function Fold(x: nat): uint16 {
    if x == 0 then 0 else (x - 1) % 0xffff + 1
  }

  lemma FoldAdds(w: uint16, x: nat)
    ensures OnesAdd(w, Fold(x)) == Fold(w + x)
  {
    if x > 0 {
      var q := (x - 1) / 0xffff;
      assert w + x - 1 == q * 0xffff + (w + Fold(x) - 1);
    }
  }

  lemma {:induction false} OnesSumFolds(data: seq<uint8>)
    ensures OnesSum(data) == Fold(WordSum(data))
  {
    if |data| > 1 {
      OnesSumFolds(data[2..]);
      FoldAdds(Word(data[0], data[1]), WordSum(data[2..]));
    }
  }

  lemma CarryoverFolds(sum: uint32)
    ensures Carryover(sum) == 0xffff - Fold(sum)
  {
    var high, once := sum / 0x1_0000, sum / 0x1_0000 + sum % 0x1_0000;
    assert sum == once + 0xffff * high;
    assert once <= 0x1_fffe;
    if sum > 0 {
      ShiftedModulo(once - 1, high);
      FoldOfSmall(once);
    }
  }

  lemma FoldOfSmall(once: nat)
    requires 0 < once <= 0x1_fffe
    ensures Fold(once) == (once + once / 0x1_0000) % 0x1_0000
  {
    if once > 0xffff {
      assert (once - 1) % 0xffff == once - 1 - 0xffff;
    }
  }

  /** Folding the plain 32-bit sum gives the reference checksum of every message that fits the sum. */
  lemma CarryoverIsInternetChecksum(data: seq<uint8>)
    requires WordSum(data) < 0x1_0000_0000
    ensures Carryover(WordSum(data)) == InternetChecksum(data)
  {
    OnesSumFolds(data);
    CarryoverFolds(WordSum(data));
  }

  lemma {:induction false} WordSumAppends(a: seq<uint8>, b: seq<uint8>)
    requires |a| % 2 == 0
    ensures WordSum(a + b) == WordSum(a) + WordSum(b)
  {
    if a == [] {
      assert a + b == b;
    } else {
      assert (a + b)[2..] == a[2..] + b;
      WordSumAppends(a[2..], b);
    }
  }

  lemma {:induction false} WordSumBound(data: seq<uint8>)
    ensures WordSum(data) <= 0xffff * ((|data| + 1) / 2)
  {
    if |data| > 1 {
      WordSumBound(data[2..]);
    }
  }

  lemma ShiftedModulo(x: int, k: int)
    ensures (x + 0xffff * k) % 0xffff == x % 0xffff
  {
  }

  lemma CongruentDifference(x: int, y: int)
    ensures (x - y) % 0xffff == 0 <==> x % 0xffff == y % 0xffff
  {
    var p, q := x / 0xffff, y / 0xffff;
    assert x - y == (x % 0xffff - y % 0xffff) + 0xffff * (p - q);
    ShiftedModulo(x % 0xffff - y % 0xffff, p - q);
  }

  lemma FoldIsCongruent(x: nat)
    ensures Fold(x) % 0xffff == x % 0xffff
    ensures exists k: int :: Fold(x) == x + 0xffff * k
  {
    if x > 0 {
      var k := -((x - 1) / 0xffff);
      assert Fold(x) == x + 0xffff * k;
      ShiftedModulo(x, k);
    } else {
      assert Fold(x) == x + 0xffff * 0;
    }
  }

  /** Equal modulo 0xffff, and both zero or both not: what the folded sum can tell apart. */
  lemma FoldEqual(x: nat, y: nat)
    ensures Fold(x) == Fold(y) <==> x % 0xffff == y % 0xffff && (x == 0 <==> y == 0)
  {
    FoldIsCongruent(x);
    FoldIsCongruent(y);
  }

  /**
   A receiver accepts a message whose words without the checksum sum up to `rest` and whose checksum is
   folded from `acc`, exactly when the two are equal modulo 0xffff.
   */
  lemma AcceptedWhenCongruent(rest: nat, acc: uint32)
    requires rest > 0
    ensures Fold(rest + Carryover(acc)) == 0xffff <==> rest % 0xffff == acc % 0xffff
  {
    hide Carryover;
    CarryoverFolds(acc);
    FoldIsCongruent(acc);
    var k: int :| Fold(acc) == acc + 0xffff * k;
    assert rest + Carryover(acc) == (rest - acc) + 0xffff * (1 - k);
    ShiftedModulo(rest - acc, 1 - k);
    CongruentDifference(rest, acc);
    FoldIsFull(rest + Carryover(acc));
  }

  lemma FoldIsFull(x: nat)
    requires x > 0
    ensures Fold(x) == 0xffff <==> x % 0xffff == 0
  {
    FoldIsCongruent(x);
  }
}
