/** Logs of outputs, newest last, and the doubling backoff factors that both link managers use. */
module Logs {
  import opened Labels

  datatype Log<+O> = Empty | After(earlier: Log<O>, last: O)

  /** The outputs of a log, oldest first. */
  function Outputs<O>(log: Log<O>): seq<O> {
    match log
    case Empty => []
    case After(earlier, o) => Outputs(earlier) + [o]
  }

  /** The log when `i` outputs had been made. */
  function Prefix<O>(log: Log<O>, i: nat): (prefix: Log<O>)
    requires i <= |Outputs(log)|
    ensures Outputs(prefix) == Outputs(log)[..i]
  {
    if i == |Outputs(log)| then log else Prefix(log.earlier, i)
  }

  /** `log` is `start` with outputs added. */
  ghost predicate Extends<O>(start: Log<O>, log: Log<O>) {
    log == start || (log.After? && Extends(start, log.earlier))
  }

  /** How many outputs satisfy `p`. */
  function Count<O>(outs: seq<O>, p: O -> bool): nat {
    if outs == [] then 0
    else Count(outs[..|outs| - 1], p) + if p(outs[|outs| - 1]) then 1 else 0
  }

  lemma CountNone<O>(p: O -> bool)
    ensures Count([], p) == 0
  {
  }

  lemma CountLast<O>(outs: seq<O>, o: O, p: O -> bool)
    ensures Count(outs + [o], p) == Count(outs, p) + if p(o) then 1 else 0
  {
    assert (outs + [o])[..|outs|] == outs;
  }

  lemma {:induction false} CountAppend<O>(a: seq<O>, b: seq<O>, p: O -> bool)
    ensures Count(a + b, p) == Count(a, p) + Count(b, p)
  {
    if b == [] {
      assert a + b == a;
    } else {
      CountAppend(a, b[..|b| - 1], p);
      assert (a + b)[..|a + b| - 1] == a + b[..|b| - 1];
    }
  }

  // ----- backoff factors -----

  function Pow2(k: nat): nat {
    if k == 0 then 1 else 2 * Pow2(k - 1)
  }

  /** min(2^k, cap): the factor after `k` doublings. */
  function Capped(cap: uint32, k: nat): uint32 {
    if Pow2(k) > cap then cap else Pow2(k)
  }

  /** `factor <<= 1` in 32 bits, capped. */
  function Doubled(cap: uint32, f: uint32): uint32 {
    var d := (2 * f) % 0x1_0000_0000;
    if d > cap then cap else d
  }

  lemma {:induction false} Pow2Grows(m: nat, k: nat)
    requires m <= k
    ensures Pow2(m) <= Pow2(k)
  {
    if m < k {
      Pow2Grows(m, k - 1);
    }
  }

  /** Doubling under a cap of 2^m walks through 1, 2, 4, ... up to the cap and stays there. */
  lemma DoublingFollows(cap: uint32, m: nat, k: nat)
    requires cap == Pow2(m) < 0x8000_0000
    ensures Doubled(cap, Capped(cap, k)) == Capped(cap, k + 1)
    ensures exists j: nat :: j <= m && Capped(cap, k) == Pow2(j) <= cap
  {
    if k >= m {
      Pow2Grows(m, k);
    } else {
      Pow2Grows(k + 1, m);
    }
  }
}
