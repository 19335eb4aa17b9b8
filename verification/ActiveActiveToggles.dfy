/** Which steps of an active-active run toggle, and what exactly they put out. */
module ActiveActiveToggles {
  import opened Labels
  import opened Strand
  import opened Logs
  import opened ActiveActiveSpec
  import opened ActiveActiveSafety
  import opened ActiveActiveRests
  import opened ActiveActiveRuns
  import opened ActiveActiveSteps
  import MuxState
  import LinkProberState

  /** What a toggle puts out. */
  function ToggleOutputs(l: MuxLabel, at: Circumstance): seq<Output> {
    (if l == MStandby then [SuspendTx] else []) + [SwitchingStart(l), Toggle(l, at), WaitTimer]
  }

  /** A change of the health is reported. */
  function HealthNote(s: State, s': State): seq<Output> {
    if s'.admin.health == s.admin.health then [] else [LinkmgrState(s'.admin.health)]
  }

  /** A toggle shows the label that it asks for at once, on both sides, and waits for orchagent. */
  predicate Asked(s: State, l: MuxLabel) {
    s.comp.ms == s.mux.current == l && s.mux.lastCause == SwssUpdate && s.admin.waitMux
  }

  lemma ToggleMuxAsks(s: State, l: MuxLabel)
    ensures var s' := ToggleMux(s, l);
            && Asked(s', l) && s'.comp.ls == s.comp.ls && s'.admin.health == s.admin.health
            && Outputs(s'.journal.log) == Outputs(s.journal.log) + ToggleOutputs(l, Now(s))
  {
    hide Digest;
    var log, at := s.journal.log, Now(s);
    var log1 := if l == MStandby then After(log, SuspendTx) else log;
    var log2 := After(log1, SwitchingStart(l));
    var log3 := After(log2, Toggle(l, at));
    assert Outputs(log2) == Outputs(log1) + [SwitchingStart(l)];
    assert Outputs(log3) == Outputs(log1) + [SwitchingStart(l), Toggle(l, at)];
    assert Outputs(After(log3, WaitTimer)) == Outputs(log1) + [SwitchingStart(l), Toggle(l, at), WaitTimer];
    assert ToggleMux(s, l).journal.log == After(log3, WaitTimer);
  }

  lemma UpdateHealthNotes(cfg: Config, s: State)
    ensures var s' := UpdateHealth(cfg, s);
            && s'.comp == s.comp && s'.mux == s.mux && s'.admin.waitMux == s.admin.waitMux
            && Outputs(s'.journal.log) == Outputs(s.journal.log) + HealthNote(s, s')
  {
    hide Digest, HealthOf;
  }

  // ----- a link that goes down -----

  /** The link of an up port goes down in a mode that goes standby by itself, over a mux that is not. */
  predicate LinkFalls(s: State) {
    && s.link.current == LDown && s.comp.ls == LUp && s.comp.ms != MStandby && GoesStandby(s.admin.mode)
  }

  function OverDownLink(at: Circumstance): Circumstance {
    at.(comp := at.comp.(ls := LDown))
  }

  lemma LinkFallToggles(cfg: Config, s: State)
    requires LinkFalls(s)
    ensures var s' := HandleLinkChange(cfg, s, LDown);
            && Asked(s', MStandby) && s'.comp.ls == LDown
            && Outputs(s'.journal.log) == Outputs(s.journal.log) + [LinkAccepted(LDown, Now(s))]
                                          + ToggleOutputs(MStandby, OverDownLink(Now(s))) + HealthNote(s, s')
  {
    hide Digest, ToggleMux, UpdateHealth;
    var s1 := Emit(s, LinkAccepted(LDown, Now(s))).(comp := s.comp.(ls := LDown));
    ToggleMuxAsks(s1, MStandby);
    UpdateHealthNotes(cfg, ToggleMux(s1, MStandby));
    assert AcceptLinkChange(s, LDown) == ToggleMux(s1, MStandby);
  }

  /** Step `n` serves message `m`. */
  ghost predicate Serves(cfg: Config, steps: seq<Step>, n: nat, m: Message)
    requires n < |steps|
  {
    var s := Run(cfg, steps[..n]);
    steps[n] == RunStrand && s.queue != [] && s.queue[0] == m
  }

  lemma ServedBy(cfg: Config, steps: seq<Step>, n: nat, m: Message)
    requires n < |steps| && Serves(cfg, steps, n, m)
    ensures var s := Run(cfg, steps[..n]);
            Run(cfg, steps[..n + 1]) == Deliver(cfg, s.(queue := s.queue[1..]), m)
  {
    hide Run, Deliver;
    StepAdds(cfg, steps, n);
  }

  /** The mark of a step tells which message it serves, and what the port was like. */
  lemma MarkTells(s: State, step: Step, o: Output)
    requires MarkOf(s, step) == Some(o)
    ensures step == RunStrand && s.queue != []
    ensures o.LinkAccepted? ==> s.queue[0] == LinkChange(o.ls) && s.link.current == o.ls && o.at == Now(s)
    ensures o.TogglePeer? ==> s.queue[0] == PeerChange(PeerUnknown) && LosesPeer(s, PeerUnknown)
                              && o == TogglePeer(MStandby, Now(s))
  {
  }

  lemma LinkFallAdds(cfg: Config, steps: seq<Step>, n: nat)
    requires n < |steps| && Serves(cfg, steps, n, LinkChange(LDown)) && LinkFalls(Run(cfg, steps[..n]))
    ensures var s, s' := Run(cfg, steps[..n]), Run(cfg, steps[..n + 1]);
            && Asked(s', MStandby)
            && Added(cfg, steps, n) ==
               [LinkAccepted(LDown, Now(s))] + ToggleOutputs(MStandby, OverDownLink(Now(s))) + HealthNote(s, s')
  {
    hide Run, HandleLinkChange, ToggleOutputs, HealthOf;
    ServedBy(cfg, steps, n, LinkChange(LDown));
    StepAdds(cfg, steps, n);
    var s := Run(cfg, steps[..n]);
    LinkFallToggles(cfg, s.(queue := s.queue[1..]));
  }

  /**
   Every fall of an up link that the composite takes up in auto, detached or standby mode is followed, in the
   same step and at once, by a toggle to standby, unless the mux was standby already.
   */
  lemma LinkDownGoesStandby(cfg: Config, steps: seq<Step>, i: nat, at: Circumstance) returns (n: nat)
    requires i < |OutputsOf(cfg, steps)| && OutputsOf(cfg, steps)[i] == LinkAccepted(LDown, at)
    requires at.comp.ls == LUp && at.comp.ms != MStandby && GoesStandby(at.mode)
    ensures MadeBy(cfg, steps, i, n) && Asked(Run(cfg, steps[..n + 1]), MStandby)
    ensures i + 5 <= |OutputsOf(cfg, steps[..n + 1])| <= |OutputsOf(cfg, steps)|
    ensures OutputsOf(cfg, steps)[i + 1..i + 5] == ToggleOutputs(MStandby, OverDownLink(at))
  {
    hide Run, KeptAfter, MarkOf, Asked;
    FirstOutput(cfg);
    RunGrows(cfg, steps, 0);
    n := EveryOutputIsMade(cfg, steps, i);
    MadeIsExplained(cfg, steps, i, n);
    MarkTells(Run(cfg, steps[..n]), steps[n], OutputsOf(cfg, steps)[i]);
    LinkFallAdds(cfg, steps, n);
    FallIsFollowed(cfg, steps, i, n, at, HealthNote(Run(cfg, steps[..n]), Run(cfg, steps[..n + 1])));
  }

  lemma FallIsFollowed(cfg: Config, steps: seq<Step>, i: nat, n: nat, at: Circumstance, note: seq<Output>)
    requires MadeBy(cfg, steps, i, n) && OutputsOf(cfg, steps[..n + 1])[i] == LinkAccepted(LDown, at)
    requires Added(cfg, steps, n) == [LinkAccepted(LDown, at)] + ToggleOutputs(MStandby, OverDownLink(at)) + note
    requires forall o :: o in note ==> o.LinkmgrState?
    ensures i + 5 <= |OutputsOf(cfg, steps[..n + 1])| <= |OutputsOf(cfg, steps)|
    ensures OutputsOf(cfg, steps)[i + 1..i + 5] == ToggleOutputs(MStandby, OverDownLink(at))
  {
    hide Run, OutputsOf, Explained, KeptAfter, MarkOf, OverDownLink;
    StepAdds(cfg, steps, n);
    RunGrows(cfg, steps, n + 1);
    Placed(OutputsOf(cfg, steps), OutputsOf(cfg, steps[..n]), OutputsOf(cfg, steps[..n + 1]),
           ToggleOutputs(MStandby, OverDownLink(at)), note, i);
  }

  /** The one accepted link among a step's outputs is their first, and the toggle comes right behind it. */
  lemma Placed(outs: seq<Output>, before: seq<Output>, after: seq<Output>, toggle: seq<Output>, note: seq<Output>, i: nat)
    requires before <= after <= outs && |before| <= i < |after| && after[i].LinkAccepted?
    requires |toggle| == 4 && after[|before|..] == [after[|before|]] + toggle + note
    requires forall o :: o in toggle + note ==> !o.LinkAccepted?
    ensures i + 5 <= |after| && outs[i + 1..i + 5] == toggle
  {
    var added := after[|before|..];
    assert added[i - |before|] == after[i];
    OneAccepted(added, toggle, note, i - |before|);
    SameStretch(outs, after, added, i);
  }

  lemma SameStretch(outs: seq<Output>, after: seq<Output>, added: seq<Output>, i: nat)
    requires after <= outs && i + 5 <= |after| && added == after[i..]
    ensures outs[i + 1..i + 5] == added[1..5]
  {
  }

  lemma OneAccepted(added: seq<Output>, toggle: seq<Output>, note: seq<Output>, p: nat)
    requires |toggle| == 4 && |added| >= 1 && added == [added[0]] + toggle + note
    requires forall o :: o in toggle + note ==> !o.LinkAccepted?
    requires p < |added| && added[p].LinkAccepted?
    ensures p == 0 && added[1..5] == toggle
  {
    assert added[1..] == toggle + note;
    assert added[p] !in added[1..];
  }

  // ----- a peer that is lost -----

  /** Step `n` serves the loss of the peer, not stale, on a healthy port in auto mode. */
  ghost predicate LosesPeerAt(cfg: Config, steps: seq<Step>, n: nat)
    requires n < |steps|
  {
    Serves(cfg, steps, n, PeerChange(PeerUnknown)) && LosesPeer(Run(cfg, steps[..n]), PeerUnknown)
  }

  lemma PeerLossAdds(cfg: Config, steps: seq<Step>, n: nat)
    requires n < |steps| && LosesPeerAt(cfg, steps, n)
    ensures Added(cfg, steps, n) == [TogglePeer(MStandby, Now(Run(cfg, steps[..n]))), PeerWaitTimer]
  {
    hide Run, Digest, LinkProberState.PeerEntered;
    ServedBy(cfg, steps, n, PeerChange(PeerUnknown));
    StepAdds(cfg, steps, n);
    var s := Run(cfg, steps[..n]);
    var toggled := After(s.journal.log, TogglePeer(MStandby, Now(s)));
    assert Run(cfg, steps[..n + 1]).journal.log == After(toggled, PeerWaitTimer);
    assert Outputs(toggled) == Outputs(s.journal.log) + [TogglePeer(MStandby, Now(s))];
  }

  /**
   The peer toggles of a run are exactly the answers to losses of the peer that a healthy port in auto mode
   serves: each such step makes one, as its first output, and there are no others.
   */
  lemma PeerTogglesAnswerLosses(cfg: Config, steps: seq<Step>, i: nat)
    requires i < |OutputsOf(cfg, steps)|
    ensures OutputsOf(cfg, steps)[i].TogglePeer? <==>
            exists n :: 0 <= n < |steps| && LosesPeerAt(cfg, steps, n) && i == |OutputsOf(cfg, steps[..n])|
  {
    hide Run, KeptAfter, MarkOf, LosesPeer;
    if OutputsOf(cfg, steps)[i].TogglePeer? {
      FirstOutput(cfg);
      RunGrows(cfg, steps, 0);
      var n := EveryOutputIsMade(cfg, steps, i);
      MadeIsExplained(cfg, steps, i, n);
      MarkTells(Run(cfg, steps[..n]), steps[n], OutputsOf(cfg, steps)[i]);
      PeerLossAdds(cfg, steps, n);
      assert OutputsOf(cfg, steps[..n + 1])[i] == Added(cfg, steps, n)[i - |OutputsOf(cfg, steps[..n])|];
    }
    forall n | 0 <= n < |steps| && LosesPeerAt(cfg, steps, n) && i == |OutputsOf(cfg, steps[..n])|
      ensures OutputsOf(cfg, steps)[i].TogglePeer?
    {
      PeerLossAdds(cfg, steps, n);
      StepAdds(cfg, steps, n);
      assert MadeBy(cfg, steps, i, n);
      MadeIsExplained(cfg, steps, i, n);
      assert OutputsOf(cfg, steps[..n + 1])[i] == Added(cfg, steps, n)[0];
    }
  }

  // ----- pinned modes -----

  /** The label that a mode pins the mux to, against what the prober says of the server. */
  predicate Pins(mode: Mode, ps: ProberLabel, l: MuxLabel) {
    (mode == ModeStandby && ps == PActive && l == MStandby) || (mode == ModeActive && ps == PUnknown && l == MActive)
  }

  /** What the notifications of a run last said of the mux: the answer to a toggle, and a probe. */
  function LastAnswer(steps: seq<Step>): MuxLabel {
    if steps == [] then MUnknown
    else if steps[|steps| - 1].MuxStateNotification? then steps[|steps| - 1].ms
    else LastAnswer(steps[..|steps| - 1])
  }

  /** What a probe said, when no answer to a toggle has come after it. */
  function LaterProbe(steps: seq<Step>): Option<MuxLabel> {
    if steps == [] || steps[|steps| - 1].MuxStateNotification? then None
    else if steps[|steps| - 1].ProbeMuxStateNotification? then Some(steps[|steps| - 1].ms)
    else LaterProbe(steps[..|steps| - 1])
  }

  /** The last toggle was answered with `l`, and no later probe contradicts it. */
  predicate Answered(steps: seq<Step>, l: MuxLabel) {
    LastAnswer(steps) == l && (LaterProbe(steps) == None || LaterProbe(steps) == Some(l))
  }

  lemma {:induction false} NotificationsAreKept(cfg: Config, steps: seq<Step>)
    ensures var a := Run(cfg, steps).admin;
            && a.lastMuxState == LastAnswer(steps)
            && LaterProbe(steps) == if a.lastNotification == FromProbe then Some(a.lastMuxProbe) else None
  {
    hide Next, Inv, Since;
    if steps != [] {
      var m := |steps| - 1;
      NotificationsAreKept(cfg, steps[..m]);
      EveryRunKeeps(cfg, steps[..m]);
      NextKeeps(cfg, Run(cfg, steps[..m]), steps[m]);
    }
  }

  lemma PinnedChangeToggles(cfg: Config, s: State, l: MuxLabel, pinned: MuxLabel)
    requires s.mux.current == l && (l == MActive || l == MStandby)
    requires s.comp.ls == LUp && Pins(s.admin.mode, s.comp.ps, pinned)
    ensures var s', taken := HandleMuxChange(cfg, s, l), s.(comp := s.comp.(ms := l));
            && (Confirmed(s, pinned) ==> s'.comp.ms == l && s'.mux == s.mux)
            && (!Confirmed(s, pinned) ==> Asked(s', pinned))
            && Outputs(s'.journal.log) == Outputs(s.journal.log)
                                          + (if Confirmed(s, pinned) then [] else ToggleOutputs(pinned, Now(taken)))
                                          + HealthNote(s, s')
  {
    hide Record, ToggleMux, UpdateHealth;
    var taken := s.(comp := s.comp.(ms := l));
    ToggleMuxAsks(taken, pinned);
    UpdateHealthNotes(cfg, AcceptMuxChange(s, l));
    assert AcceptMuxChange(s, l) == if Confirmed(s, pinned) then taken else ToggleMux(taken, pinned);
  }

  /**
   Whenever a port in a pinned mode takes up a settled mux while the prober disagrees with the pin, it puts out
   exactly one toggle, to the pinned label, unless the last toggle was answered with that label and no later
   probe contradicts it; then it puts out none and keeps the mux.
   */
  lemma PinnedMuxIsReinforced(cfg: Config, steps: seq<Step>, n: nat, l: MuxLabel, pinned: MuxLabel)
    requires n < |steps| && Serves(cfg, steps, n, MuxChange(l)) && (l == MActive || l == MStandby)
    requires var s := Run(cfg, steps[..n]);
             s.mux.current == l && s.comp.ls == LUp && Pins(s.admin.mode, s.comp.ps, pinned)
    ensures var s, s' := Run(cfg, steps[..n]), Run(cfg, steps[..n + 1]);
            var at := Circumstance(s.comp.(ms := l), s.admin.mode, s.admin.health);
            if Answered(steps[..n], pinned) then
              Added(cfg, steps, n) == HealthNote(s, s') && s'.comp.ms == s'.mux.current == l
            else
              Added(cfg, steps, n) == ToggleOutputs(pinned, at) + HealthNote(s, s') && Asked(s', pinned)
  {
    hide Run, HandleMuxChange, ToggleOutputs, HealthOf;
    ServedBy(cfg, steps, n, MuxChange(l));
    StepAdds(cfg, steps, n);
    NotificationsAreKept(cfg, steps[..n]);
    var s := Run(cfg, steps[..n]);
    PinnedChangeToggles(cfg, s.(queue := s.queue[1..]), l, pinned);
  }
}
