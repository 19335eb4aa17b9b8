/** What each step of an active-active run puts out, and which step put an output out. */
module ActiveActiveSteps {
  import opened Labels
  import opened Strand
  import opened Logs
  import opened ActiveActiveSpec
  import opened ActiveActiveSafety
  import opened ActiveActiveRests
  import opened ActiveActiveRuns
  import MuxState

  // ----- the step behind an output -----

  /** Output `i` of a run was put out by step `n`. */
  ghost predicate MadeBy(cfg: Config, steps: seq<Step>, i: nat, n: nat) {
    n < |steps| && |OutputsOf(cfg, steps[..n])| <= i < |OutputsOf(cfg, steps[..n + 1])|
  }

  lemma {:induction false} SinceExplains(start: Log<Output>, factor: uint32, mark: Option<Output>, log: Log<Output>)
    requires Since(start, factor, mark, log)
    ensures Outputs(start) <= Outputs(log)
    ensures forall i :: |Outputs(start)| <= i < |Outputs(log)| ==> Explained(factor, mark, Outputs(log)[i])
  {
    hide Explained;
    if log != start {
      SinceExplains(start, factor, mark, log.earlier);
    }
  }

  /** A step adds its outputs behind those of the run so far, and explains them. */
  lemma StepAdds(cfg: Config, steps: seq<Step>, n: nat)
    requires n < |steps|
    ensures var s, before, after := Run(cfg, steps[..n]), OutputsOf(cfg, steps[..n]), OutputsOf(cfg, steps[..n + 1]);
            && Run(cfg, steps[..n + 1]) == Next(cfg, s, steps[n])
            && before <= after
            && forall i :: |before| <= i < |after| ==>
                 Explained(KeptAfter(s, steps[n]).factor, MarkOf(s, steps[n]), after[i])
  {
    hide Next, Explained, KeptAfter, MarkOf, Sound;
    var s := Run(cfg, steps[..n]);
    assert steps[..n + 1][..n] == steps[..n];
    EveryRunKeeps(cfg, steps[..n]);
    NextKeeps(cfg, s, steps[n]);
    SinceExplains(s.journal.log, KeptAfter(s, steps[n]).factor, MarkOf(s, steps[n]), Next(cfg, s, steps[n]).journal.log);
  }

  lemma {:induction false} RunGrows(cfg: Config, steps: seq<Step>, n: nat)
    requires n <= |steps|
    ensures OutputsOf(cfg, steps[..n]) <= OutputsOf(cfg, steps)
    decreases |steps| - n
  {
    hide Run;
    if n == |steps| {
      assert steps[..n] == steps;
    } else {
      StepAdds(cfg, steps, n);
      RunGrows(cfg, steps, n + 1);
    }
  }

  /** Every output but the first, which the construction makes, was put out by one of the steps. */
  lemma {:induction false} EveryOutputIsMade(cfg: Config, steps: seq<Step>, i: nat) returns (n: nat)
    requires |OutputsOf(cfg, [])| <= i < |OutputsOf(cfg, steps)|
    ensures MadeBy(cfg, steps, i, n)
  {
    hide OutputsOf;
    var m := |steps| - 1;
    if steps == [] {
      assert false;
    } else if i >= |OutputsOf(cfg, steps[..m])| {
      n := m;
      assert steps[..m + 1] == steps;
    } else {
      n := EveryOutputIsMade(cfg, steps[..m], i);
      assert steps[..m][..n] == steps[..n] && steps[..m][..n + 1] == steps[..n + 1];
    }
  }

  lemma MadeIsExplained(cfg: Config, steps: seq<Step>, i: nat, n: nat)
    requires MadeBy(cfg, steps, i, n)
    ensures i < |OutputsOf(cfg, steps)|
    ensures OutputsOf(cfg, steps)[i] == OutputsOf(cfg, steps[..n + 1])[i]
    ensures var s := Run(cfg, steps[..n]);
            Explained(KeptAfter(s, steps[n]).factor, MarkOf(s, steps[n]), OutputsOf(cfg, steps)[i])
  {
    hide Run, OutputsOf, Explained, KeptAfter, MarkOf;
    StepAdds(cfg, steps, n);
    RunGrows(cfg, steps, n + 1);
  }

  lemma FirstOutput(cfg: Config)
    ensures OutputsOf(cfg, []) == [LinkmgrState(Uninitialized)]
  {
  }

  /** The outputs of step `n`. */
  ghost function Added(cfg: Config, steps: seq<Step>, n: nat): seq<Output>
    requires n < |steps|
  {
    StepAdds(cfg, steps, n);
    OutputsOf(cfg, steps[..n + 1])[|OutputsOf(cfg, steps[..n])|..]
  }
}
