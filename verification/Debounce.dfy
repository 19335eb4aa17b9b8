/**
 Debouncing, once and for all: a machine that counts equal consecutive events in an 8-bit counter,
 and the specification it is meant to meet, "the label of the most recent long-enough run".

 The mux, link, prober and peer-prober sub-machines are instances; each of them is tied to `Step`
 in its own module by an abstraction function.
 */
module Debounce {
  import opened Labels

  /** What each event asks for, how many in a row it takes, and which labels listen to it at all. */
  datatype Policy<!L(==), !E(==)> = Policy(target: E -> L, threshold: E -> nat, heeds: (L, E) -> bool)

  datatype Streak<+E> = NoStreak | Streak(event: E, count: uint8)

  datatype Debouncer<+L, +E> = Debouncer(shown: L, streak: Streak<E>)

  /** A counted event moves the machine when its 8-bit counter reaches the threshold. */
  function Step<L(==), E(==)>(p: Policy<L, E>, d: Debouncer<L, E>, e: E): Debouncer<L, E> {
    if p.target(e) == d.shown || !p.heeds(d.shown, e) then
      Debouncer(d.shown, NoStreak)
    else
      var c := Inc8(if d.streak.Streak? && d.streak.event == e then d.streak.count else 0);
      if c >= p.threshold(e) then Debouncer(p.target(e), NoStreak)
      else if c == 0 then Debouncer(d.shown, NoStreak)
      else Debouncer(d.shown, Streak(e, c))
  }

  /** Forcing a label resets the counters only when the label changes (`setCurrentState`). */
  function Force<L(==), E>(d: Debouncer<L, E>, l: L): Debouncer<L, E> {
    if l == d.shown then d else Debouncer(l, NoStreak)
  }

  function Run<L(==), E(==)>(p: Policy<L, E>, entry: L, es: seq<E>): Debouncer<L, E> {
    if es == [] then Debouncer(entry, NoStreak)
    else Step(p, Run(p, entry, es[..|es| - 1]), es[|es| - 1])
  }

  // ----- the specification: no counters, only the trace -----

  /** The last `n` events of the trace are equal (`n` read as at least one). */
  ghost predicate EndsInRun<E>(es: seq<E>, n: nat) {
    1 <= |es| && n <= |es| && forall i :: |es| - n <= i < |es| ==> es[i] == es[|es| - 1]
  }

  /** The label asked for by the most recent long-enough run, else the entry label. */
  ghost function LabelOf<L, E>(p: Policy<L, E>, entry: L, es: seq<E>): L {
    if es == [] then entry
    else
      var before := LabelOf(p, entry, es[..|es| - 1]);
      var e := es[|es| - 1];
      if p.heeds(before, e) && EndsInRun(es, p.threshold(e)) then p.target(e) else before
  }

  /** A long-enough run ends with the i-th event of the trace. */
  ghost predicate RunEndsAt<L, E>(p: Policy<L, E>, es: seq<E>, i: int) {
    0 < i <= |es| && EndsInRun(es[..i], p.threshold(es[i - 1]))
  }

  ghost predicate NoRunAfter<L, E>(p: Policy<L, E>, es: seq<E>, i: int) {
    forall j :: i < j <= |es| ==> !RunEndsAt(p, es, j)
  }

  lemma RunsOfPrefix<L, E>(p: Policy<L, E>, es: seq<E>, n: nat, i: int)
    requires n <= |es| && i <= n
    ensures RunEndsAt(p, es[..n], i) <==> RunEndsAt(p, es, i)
  {
    if 0 < i {
      assert es[..n][..i] == es[..i];
    }
  }

  /** The same specification without recursion, for a policy under which every label heeds every event. */
  lemma {:induction false} LabelOfIsLastRun<L(!new), E(!new)>(p: Policy<L, E>, entry: L, es: seq<E>)
    requires forall l: L, e: E :: p.heeds(l, e)
    ensures
      || (LabelOf(p, entry, es) == entry && NoRunAfter(p, es, 0))
      || exists i :: RunEndsAt(p, es, i) && NoRunAfter(p, es, i) && LabelOf(p, entry, es) == p.target(es[i - 1])
  {
    hide EndsInRun;
    if es != [] {
      var n, init := |es|, es[..|es| - 1];
      assert es[..n] == es;
      if EndsInRun(es, p.threshold(es[n - 1])) {
        assert RunEndsAt(p, es, n) && NoRunAfter(p, es, n);
      } else {
        LabelOfIsLastRun(p, entry, init);
        if LabelOf(p, entry, init) == entry && NoRunAfter(p, init, 0) {
          NoRunAtTheEnd(p, es, 0);
        } else {
          var i :| RunEndsAt(p, init, i) && NoRunAfter(p, init, i) && LabelOf(p, entry, init) == p.target(init[i - 1]);
          RunsOfPrefix(p, es, n - 1, i);
          NoRunAtTheEnd(p, es, i);
        }
      }
    }
  }

  lemma NoRunAtTheEnd<L, E>(p: Policy<L, E>, es: seq<E>, i: nat)
    requires es != [] && !RunEndsAt(p, es, |es|) && NoRunAfter(p, es[..|es| - 1], i)
    ensures NoRunAfter(p, es, i)
  {
    hide RunEndsAt;
    forall j | i < j <= |es| ensures !RunEndsAt(p, es, j) {
      if j < |es| {
        RunsOfPrefix(p, es, |es| - 1, j);
      }
    }
  }

  // ----- refinement -----

  /** The length of the run of equal events that the trace ends in. */
  ghost function TrailingRun<E>(es: seq<E>): nat {
    if |es| <= 1 then |es|
    else if es[|es| - 2] == es[|es| - 1] then TrailingRun(es[..|es| - 1]) + 1
    else 1
  }

  lemma {:induction false} EndsInRunIsTrailing<E>(es: seq<E>, n: nat)
    requires es != []
    ensures EndsInRun(es, n) <==> n <= TrailingRun(es)
    ensures 1 <= TrailingRun(es) <= |es|
  {
    if |es| > 1 {
      var init := es[..|es| - 1];
      EndsInRunIsTrailing(init, if n == 0 then 0 else n - 1);
      if es[|es| - 2] == es[|es| - 1] {
        if n > 0 && EndsInRun(es, n) {
          assert forall i :: |init| - (n - 1) <= i < |init| ==> init[i] == es[i];
          assert EndsInRun(init, n - 1);
        }
      }
    }
  }

  /** The streak that the machine should be holding after a trace: the trailing run, if it is being counted. */
  ghost predicate HoldsTrailingRun<L, E>(p: Policy<L, E>, d: Debouncer<L, E>, es: seq<E>) {
    if es == [] then d.streak.NoStreak?
    else
      var e := es[|es| - 1];
      if p.target(e) == d.shown || !p.heeds(d.shown, e) then d.streak.NoStreak?
      else d.streak.Streak? && d.streak.event == e && d.streak.count == TrailingRun(es) < p.threshold(e)
  }

  /** For thresholds within the counter's range the counting machine shows exactly the specified label. */
  lemma {:induction false} Refines<L, E>(p: Policy<L, E>, entry: L, es: seq<E>)
    requires forall e: E :: e in es ==> p.threshold(e) <= 255
    ensures Run(p, entry, es).shown == LabelOf(p, entry, es)
    ensures HoldsTrailingRun(p, Run(p, entry, es), es)
  {
    if es != [] {
      var init, e := es[..|es| - 1], es[|es| - 1];
      assert e in es;
      forall x | x in init ensures x in es {}
      Refines(p, entry, init);
      EndsInRunIsTrailing(es, p.threshold(e));
    }
  }

  /** Beyond that range the counter wraps before it can reach the threshold: the event never moves the machine. */
  lemma {:induction false} BeyondRangeIsDeaf<L, E>(p: Policy<L, E>, entry: L, es: seq<E>)
    requires forall e: E :: e in es ==> p.threshold(e) > 255
    ensures Run(p, entry, es).shown == entry
  {
    if es != [] {
      var init := es[..|es| - 1];
      assert es[|es| - 1] in es;
      forall x | x in init ensures x in es {}
      BeyondRangeIsDeaf(p, entry, init);
    }
  }

  /** The bound is sharp: with a larger threshold, one long run of the event tells machine and specification apart. */
  lemma RangeIsSharp<L, E>(p: Policy<L, E>, entry: L, e: E)
    requires p.threshold(e) > 255
    requires p.target(e) != entry && p.heeds(entry, e)
    ensures var es := seq(p.threshold(e), _ => e);
            Run(p, entry, es).shown == entry && LabelOf(p, entry, es) == p.target(e)
  {
    var n := p.threshold(e);
    var es := seq(n, _ => e);
    BeyondRangeIsDeaf(p, entry, es);
    ShortRunsKeepEntry(p, entry, es[..n - 1]);
  }

  lemma {:induction false} ShortRunsKeepEntry<L, E>(p: Policy<L, E>, entry: L, es: seq<E>)
    requires forall i :: 0 <= i < |es| ==> |es| < p.threshold(es[i])
    ensures LabelOf(p, entry, es) == entry
  {
    if es != [] {
      ShortRunsKeepEntry(p, entry, es[..|es| - 1]);
    }
  }

  // ----- forced labels -----

  datatype Op<+L, +E> = Event(event: E) | Forced(forced: L)

  function RunOps<L(==), E(==)>(p: Policy<L, E>, entry: L, ops: seq<Op<L, E>>): Debouncer<L, E> {
    if ops == [] then Debouncer(entry, NoStreak)
    else
      var d := RunOps(p, entry, ops[..|ops| - 1]);
      match ops[|ops| - 1]
      case Event(e) => Step(p, d, e)
      case Forced(l) => Force(d, l)
  }

  datatype History<+L, +E> = History(entry: L, events: seq<E>)

  /** What the specification remembers: a forced label that differs from the shown one restarts the trace. */
  ghost function Remembered<L, E>(p: Policy<L, E>, entry: L, ops: seq<Op<L, E>>): History<L, E> {
    if ops == [] then History(entry, [])
    else
      var h := Remembered(p, entry, ops[..|ops| - 1]);
      match ops[|ops| - 1]
      case Event(e) => History(h.entry, h.events + [e])
      case Forced(l) => if l == LabelOf(p, h.entry, h.events) then h else History(l, [])
  }

  /** Refinement for every mix of events and forced labels. */
  lemma {:induction false} RefinesOps<L, E(!new)>(p: Policy<L, E>, entry: L, ops: seq<Op<L, E>>)
    requires forall e: E :: p.threshold(e) <= 255
    ensures var h := Remembered(p, entry, ops);
            RunOps(p, entry, ops).shown == LabelOf(p, h.entry, h.events)
            && RunOps(p, entry, ops) == Run(p, h.entry, h.events)
  {
    if ops != [] {
      RefinesOps(p, entry, ops[..|ops| - 1]);
      var h := Remembered(p, entry, ops[..|ops| - 1]);
      match ops[|ops| - 1]
      case Event(e) =>
        assert (h.events + [e])[..|h.events|] == h.events;
        Refines(p, h.entry, h.events + [e]);
      case Forced(l) =>
        Refines(p, h.entry, h.events);
    }
  }

  /** A trace of events alone. */
  function Events<L, E>(es: seq<E>): (ops: seq<Op<L, E>>)
    ensures |ops| == |es| && forall i :: 0 <= i < |ops| ==> ops[i] == Op<L, E>.Event(es[i])
  {
    seq(|es|, i requires 0 <= i < |es| => Op<L, E>.Event(es[i]))
  }

  lemma {:induction false} RememberedEvents<L, E>(p: Policy<L, E>, entry: L, es: seq<E>)
    ensures Remembered(p, entry, Events(es)) == History(entry, es)
    ensures RunOps(p, entry, Events(es)) == Run(p, entry, es)
  {
    if es != [] {
      var init := es[..|es| - 1];
      assert Events<L, E>(es)[..|es| - 1] == Events<L, E>(init);
      assert es == init + [es[|es| - 1]];
      RememberedEvents(p, entry, init);
    }
  }

  /** With a threshold beyond the counter's range a machine of operations misses its own long run. */
  lemma LongRunIsMissed<L, E>(p: Policy<L, E>, entry: L, e: E)
    requires p.threshold(e) > 255 && p.target(e) != entry && p.heeds(entry, e)
    ensures var ops := Events<L, E>(seq(p.threshold(e), _ => e));
            var h := Remembered(p, entry, ops);
            RunOps(p, entry, ops).shown == entry && LabelOf(p, h.entry, h.events) == p.target(e)
  {
    RangeIsSharp(p, entry, e);
    RememberedEvents(p, entry, seq(p.threshold(e), _ => e));
  }
}
