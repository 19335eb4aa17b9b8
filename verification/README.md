# linkmgrd in Dafny

linkmgrd decides, for each port of a dual top-of-rack pair, whether the mux on the server's cable should point to this
side or not. This project models its core and proves what the core is for.

- **The two link managers**, active-standby and active-active. Each keeps a composite (link prober, mux, link) that
  shadows three sub-machines; the sub-machines change first and post the change on a strand, a first-in-first-out queue.
  `ActiveStandbySpec` and `ActiveActiveSpec` give every handler, the transition table, the steps and the runs as functions
  on the whole port state; the classes `ActiveStandbyStateMachine` and `ActiveActiveStateMachine` are the handlers
  themselves, named after the source's, updating fields in place, each proved to take the port exactly where its function
  says. `Perform` dispatches to them, and `Serve` puts them together: any life of a port is the specification's run of its
  steps, and what is proved of runs is said there of the object.
- **The debouncing sub-machines** for mux, link, prober and peer prober, with their 8-bit counters, against the
  specification "the label of the most recent long-enough run of equal events, else the entry label" (`Debounce`).
- **The software prober's packet engine**: the transmit buffer with its incrementally kept checksum, the TLV writer and
  parser, the 16-bit sequence numbers and the loss counters, over byte arrays (`LinkProber` and what it imports).

A run is any sequence of steps: notifications, prober reports, timer expiries and aborts, and turns of the strand. Steps
are taken in any order and number, so the theorems hold for more interleavings than the daemon has. Every call out of a
link manager is an output in a log; a few outputs are marks that only the theorems look at (a mux change that was accepted or
forced, a mode stored, a backoff reset, a link taken up or forced). The log carries running totals, and the subset type
`Journal` says that the totals are those of the log, so that theorems about all outputs of a run follow from an invariant of
the state. In active-active the invariant also relates the log to the one that the step began with, so that every output of
a run is traced to the step that made it.

What has to happen is said a second time, independently of the handlers: `ActiveStandbyAnswers` and `ActiveActiveAnswers`
are tables on labels and fields, which share no function with the handlers but the factor of a backoff, and give for every
notification, message and timer the outputs that are owed, in their order, and what is left in the fields. The `Duties`
modules prove that every step of every run does exactly what its table says, and draw the conclusions: a standby side that
loses its server takes over, an answer reaches the mux, a switch-over completes.

Layers: `Labels`, `Logs`, `Strand`; `Debounce`, `MuxState`, `LinkState`, `LinkProberState`, `LinkProberDebounce`,
`EventRules` (single events, and hardware probing);
`ActiveStandbySpec`, `ActiveStandbyAnswers` (the tables), `ActiveStandbyFrames`, `ActiveStandbySafety` (the invariant),
`ActiveStandbyRuns` (the theorems), `ActiveStandbyDuties`, `ActiveStandbyVisits` (a very long run), `ActiveStandbyModes`,
`ActiveStandbyHealth`, `ActiveStandby` (the class);
`ActiveActiveSpec`, `ActiveActiveAnswers` (the tables), `ActiveActiveSafety`, `ActiveActiveRests`, `ActiveActiveRuns`,
`ActiveActiveDuties`, `ActiveActiveSteps` (which step made an output), `ActiveActiveBackoff`, `ActiveActiveToggles`,
`ActiveActiveAsks`, `ActiveActiveHealth`, `ActiveActiveModes`, `ActiveActive` (the class);
`Checksum`, `HeartbeatFrame`, `TlvCodec`, `ProbeAccount`, `LinkProber`.

## Where code and comments differ

- `src/link_prober/LinkProberBase.cpp:288-291` says that unknown TLVs of valid length are skipped; the code stops at an
  unknown TLV whose body is one byte. `TlvCodec.OneByteUnknownHidesSwitch` gives bytes for which the promise fails,
  `TlvCodec.UnknownsAreSkippedExactlyWhen` says exactly for which it holds.
- In active-active the prober's wait state keeps its self count over a lost heartbeat
  (`src/link_prober/WaitState.cpp:100-126`), so that heartbeats need not be consecutive there:
  `LinkProberDebounce.WaitForgivesLoss` and, exactly, `LinkProberDebounce.ActiveActiveMeetsRunSpecExactly`.
- Event counters are `uint8_t` and thresholds `uint32_t`: a threshold above 255 is never reached (`Debounce.RangeIsSharp`;
  exactly, for each sub-machine, `MuxState.MeetsRunSpecExactly`, `LinkState.MeetsRunSpecExactly`,
  `LinkProberDebounce.ActiveStandbyMeetsRunSpecExactly` and `LinkProberDebounce.PeerMeetsRunSpecExactly`).
- The incremental ICMP checksum is right until its 32-bit accumulator wraps, which takes at least 2^32 - 2^29 sends without
  a full computation. `HeartbeatFrame.LateFrameFails` gives a run that ends with a wrong frame,
  `HeartbeatFrame.WireFramesAreReference` says exactly when a frame is right.
- In active-standby the visits of a waiting prober over an active mux are counted in 32 bits; the visit after 2^32 others
  starts over at the factor 1 (`ActiveStandbyVisits.LateVisitFallsBack`, exactly `ActiveStandbyRuns.BackoffsAreClosedForm`).
- In active-active the probe factor is doubled by timeouts only; a transition function that probes uses the current factor
  again. `ActiveActiveBackoff.SecondProbeRepeats` gives a run whose second probe is no slower than its first,
  `ActiveActiveBackoff.KthProbeExactlyWhen` says exactly when the k-th probe has the k-th factor.
- The latest configured mode does not always win: one that was deferred, over a waiting mux or until the activation, can be
  carried out after a newer one. `ActiveStandbyModes.OlderModeWins` and `ActiveActiveModes.OlderModeWins` give runs,
  `LatestConfigWinsExactlyWhen` in either module says exactly when it wins.
- The reported health of an active-standby port can be out of date, but only by still saying healthy of a port that waits:
  `ActiveStandbyHealth.ReportGoesStale`, `HealthyPortsSaySo` and, exactly, by the guards of the handlers that disturb a
  healthy port without reporting, `StaleExactlyWhen`.
- An active-active port whose server is lost asks for a mux that is unknown, but has no transition function for a mux in
  error: `ActiveActiveAsks.AsksExactlyWhen`.
- `probePeerTor` is to send the peer an early heartbeat (`src/link_prober/LinkProberBase.cpp:402-408`), but only if the
  peer is known to probe in software, which the software prober never records: that it does not is part of what its
  operations keep (`Valid`), and so it sends none (`LinkProber.LinkProberSw.ProbePeerTor`).

## Model

| member | source | states |
|---|---|---|
| `ActiveStandbyDuties.StandbyTakesOver` | src/link_manager/LinkManagerStateMachineActiveStandby.cpp:1241-1258 | In every run a standby side that takes up the loss of its server over an up link, in auto mode and with a default route, puts out exactly one toggle, to Active for the missing peer heartbeat, has asked for Active last, and waits on both sides; without the route or outside auto mode it puts out exactly a probe of the mux and no toggle |
| `ActiveStandbyDuties.FailoverCompletes` | src/link_manager/LinkManagerStateMachineActiveStandby.cpp:707-737 | From there to the end, in every run with a mux retry count of at most one and no mode change pending: the answer that the mux is active ends the switch-over that is open, and two turns of the strand later the composite shows the active mux, with nothing queued |
| `ActiveStandbyDuties.EveryStepDoesItsDuty` | src/link_manager/LinkManagerStateMachineActiveStandby.cpp:345-1141 | Every step of every run, strand turns and events of the sub-machines included, puts out exactly the outputs that the tables owe, in their order, and leaves composite, labels, causes, strand and bookkeeping as they say |
| `ActiveStandbyAnswers.TransitionAnswers` | src/link_manager/LinkManagerStateMachineActiveStandby.cpp:1176-1476 | The transition table against the table of answers: which composite calls for a toggle, a probe, a later probe, a backoff, a takeover or nothing, by labels, by whether the prober has just decided and by how often the mux was found unknown |
| `ActiveStandbyAnswers.ProberChangeDoes` | src/link_manager/LinkManagerStateMachineActiveStandby.cpp:460-506 | A prober change: metrics, the answer of the table, and the end of the silence and the health report behind it |
| `ActiveStandbyAnswers.MuxChangeDoes` | src/link_manager/LinkManagerStateMachineActiveStandby.cpp:514-557 | A mux change: the answer of the table; a settled mux is compared with the hardware and a pending mode carried out; the counts and the oscillation that it ends |
| `ActiveStandbyAnswers.AcceptLinkDoes` | src/link_manager/LinkManagerStateMachineActiveStandby.cpp:564-606 | A link change: one that comes up aligns the prober with the mux; one that falls under a mux that is not standby asks for Standby and starts three backoffs over |
| `ActiveStandbyAnswers.ApplyModeDoes` | src/link_manager/LinkManagerStateMachineActiveStandby.cpp:806-836 | A configuration: what each mode asks for under the old one, the health report, the stored mode, and whether probing is shut down or restarted under the new one |
| `ActiveStandbyAnswers.DefaultRouteDoes` | src/link_manager/LinkManagerStateMachineActiveStandby.cpp:905-939 | A route that comes back aligns the prober; in auto and standby mode a missing route shuts probing down, anything else restarts it |
| `ActiveStandbyAnswers.RequestsDo` | src/link_manager/LinkManagerStateMachineActiveStandby.cpp:868-898 | A sent command gives the mux up whatever the mode, a received request takes it over in auto mode, each with the prober waiting |
| `ActiveStandbyAnswers.ActivateDoes` | src/link_manager/LinkManagerStateMachineActiveStandby.cpp:418-453 | The activation: what is initialised, started, shut down or restarted and reported, in this order, with the prober where the mux is |
| `ActiveStandbyDuties.AnswersAreReported` | src/link_manager/LinkManagerStateMachineBase.cpp:352-370 | Every answer to an active port, to a toggle or to a probe, queues exactly the mux event whose target is the answer's label |
| `ActiveStandbyDuties.AnswersMoveTheMux` | src/link_manager/LinkManagerStateMachineActiveStandby.cpp:707-737 | From every reachable active port with an empty strand and a mux retry count of at most one: the answer, once served, leaves the mux sub-machine on its label and queues the change exactly when it is one |
| `ActiveStandbyRuns.AlwaysAgrees` | src/link_manager/LinkManagerStateMachineActiveStandby.cpp:246-283 | In every reachable state each entry of the composite is its sub-machine's current label, or a change carrying exactly that label is still queued |
| `ActiveStandbyRuns.Converges` | src/link_prober/LinkProberStateMachineBase.cpp:189-207 | After any run, at most as many strand turns as the queued messages weigh (two per sub-machine event, one per change) empty the strand, and the composite is then exactly the sub-machines' triple |
| `ActiveStandbyRuns.StrandShrinks` | src/link_manager/LinkManagerStateMachineActiveStandby.cpp:460-606 | Every strand turn lowers that weight: no handler the strand runs posts a sub-machine event |
| `ActiveStandbyRuns.TogglesMeetTheirCause` | src/link_manager/LinkManagerStateMachineActiveStandby.cpp:303-337 | Every toggle of every run meets the condition of its logged cause; none asks for Active while the mux is in Wait; outside auto mode it is a forced one, and asks for Active only when the mux is already active |
| `ActiveStandbyRuns.ActiveTogglesAreSeparated` | src/link_manager/LinkManagerStateMachineActiveStandby.cpp:514-557 | Between two toggles to Active the mux has settled on a label other than Wait; once probing has started, by a mux change that the composite accepted |
| `ActiveStandbyRuns.SwitchingEndsArePaired` | src/link_manager/LinkManagerStateMachineActiveStandby.cpp:722-725 | Between two SwitchingEnd posts there is always a SwitchingStart post |
| `ActiveStandbyRuns.SwitchingEndsAreBounded` | src/link_manager/LinkManagerStateMachineActiveStandby.cpp:62 | Over any run the ends are at most the starts plus one, the one that the construction owes |
| `ActiveStandbyRuns.InitFollowsNotifications` | src/link_manager/LinkManagerStateMachineActiveStandby.cpp:345-786 | After every run a component is up if and only if a notification that brings it up has come: an address, a link state, a mux state that is known or a probe's answer that it is not |
| `ActiveStandbyRuns.ProberStartsOnce` | src/link_manager/LinkManagerStateMachineActiveStandby.cpp:418-453 | For every order and repetition of notifications the prober is initialised and started once if the run holds all three of these, else not at all |
| `ActiveStandbyRuns.ActivationAlignsProber` | src/link_manager/LinkManagerStateMachineActiveStandby.cpp:1148-1169 | The step that brings the last component up leaves composite and sub-machine on the prober label that matches the mux |
| `ActiveStandbyRuns.BackoffsAreClosedForm` | src/link_manager/LinkManagerStateMachineActiveStandby.cpp:1200-1210 | In every run the k-th use of each of the four backoffs since its last reset has the factor min(2^k, 128); for the visits of a waiting prober over an active mux, which are counted in 32 bits, it has that of k modulo 2^32, and so min(2^k, 128) if and only if k is below 2^32 or k modulo 2^32 is at least 7 |
| `ActiveStandbyVisits.LateVisitFallsBack` | src/link_manager/LinkManagerStateMachineActiveStandby.cpp:1359-1372 | The run that shows it: after 2^32 visits without a reset the next one has the factor 1 |
| `ActiveStandbySafety.ShiftFollows` | src/link_manager/LinkManagerStateMachineActiveStandby.cpp:1363-1363 | The shifted factor of those visits is the doubled one of the other backoffs, from the first visit to the cap and beyond |
| `ActiveStandbyRuns.BackoffsFitTheirTimers` | src/link_manager/LinkManagerStateMachineActiveStandby.cpp:1308-1386 | The factor of every probe timer, wait timer and backoff of every run is a power of two up to 128, and its product with a base below 2^25 ms fits 32 bits |
| `ActiveStandbyModes.DeferredModeIsStoredOnce` | src/link_manager/LinkManagerStateMachineActiveStandby.cpp:788-836 | Over any run, from a deferred configuration until the next one is deferred: the first mux change that leaves the mux settled stores the deferred mode, exactly once; every configuration that is not deferred stores its own mode; no other step stores any |
| `ActiveStandbyFrames.DeferredModeIsApplied` | src/link_manager/LinkManagerStateMachineActiveStandby.cpp:529-543 | That mux change carries the configuration handler out: its composite and all its outputs are there, its target is the mode and nothing stays pending; a mux change that does not settle the mux keeps the deferral |
| `ActiveStandbyFrames.StepDefers` | src/link_manager/LinkManagerStateMachineActiveStandby.cpp:789-806 | Every step of every port: a configuration over a waiting mux sets the deferral, the first settled mux change ends it, nothing else touches it |
| `ActiveStandbyFrames.DeferredModeWaits` | src/link_manager/LinkManagerStateMachineActiveStandby.cpp:788-836 | On an active port every step keeps 'a pending change implies a mux in Wait'; a pending change ends only by being carried out in a mux change and is replaced only by another deferred configuration |
| `ActiveStandbyModes.LatestConfigWinsExactlyWhen` | src/link_manager/LinkManagerStateMachineActiveStandby.cpp:788-836 | Once the mux has settled after the last configuration of a run, that configuration's mode is in force if and only if it was deferred itself, or no mode, or the same mode, was pending as it came |
| `ActiveStandbyModes.OlderModeWins` | src/link_manager/LinkManagerStateMachineActiveStandby.cpp:529-543 | The run that shows the other case: a deferred standby mode is carried out after automatic mode was configured, and stays |
| `ActiveStandbyHealth.HealthyPortsSaySo` | src/link_manager/LinkManagerStateMachineActiveStandby.cpp:989-1003 | In every reachable state an active port whose composite and route are healthy has reported so |
| `ActiveStandbyHealth.StaleExactlyWhen` | src/link_manager/LinkManagerStateMachineActiveStandby.cpp:345-982 | From a report that fits the composite every step of an active port leaves one that does not if and only if the port was healthy and the step is a mux check that differs from the mux or from the last toggle, a peer link that falls while the mux is standby, a sent switch command served over an active mux, or a switch request served over a standby mux |
| `ActiveStandbyHealth.ReportGoesStale` | src/link_manager/LinkManagerStateMachineActiveStandby.cpp:642-659 | The run that shows it: a check against the hardware leaves a waiting mux on a port that is still reported as healthy |
| `ActiveStandbySafety.EveryRunKeeps` | src/link_manager/LinkManagerStateMachineActiveStandby.cpp:460-606 | The invariant behind these theorems holds in every reachable state |
| `ActiveStandbySafety.NextKeeps` | src/link_manager/LinkManagerStateMachineActiveStandby.cpp:345-982 | Every step keeps the invariant (agreement, open toggles only over a mux in Wait, paired metrics, stored causes, backoff factors, one start) and stores exactly the modes that it should |
| `ActiveStandbySafety.TransitionKeeps` | src/link_manager/LinkManagerStateMachineActiveStandby.cpp:1176-1476 | Every entry of the transition table keeps it, whatever the composite entered and left |
| `ActiveStandbySafety.HandleMuxConfigKeeps` | src/link_manager/LinkManagerStateMachineActiveStandby.cpp:788-836 | A mode change, acting under the old mode and storing the new one last, keeps it, and stores one mode or, when it is deferred, none |
| `ActiveStandby.ActiveStandbyStateMachine.constructor` | src/link_manager/LinkManagerStateMachineActiveStandby.cpp:46-65 | The port starts in the specified initial state: composite, sub-machines built from it, the SwssUpdate cause set |
| `ActiveStandby.ActiveStandbyStateMachine.Perform` | src/link_manager/LinkManagerStateMachineActiveStandby.cpp:345-1141 | Every notification, prober report, timer and strand turn takes the port to the specified next state: runs of the class are runs of the specification |
| `ActiveStandby.Serve` | src/link_manager/LinkManagerStateMachineActiveStandby.cpp:46-65 | A port that is constructed and then performs any steps is in the state of the specification's run; its fields agree with its sub-machines up to what is queued, every toggle it has sent met its condition, and it has started the prober once if it is active, else not at all |
| `ActiveStandby.ServeUntilIdle` | src/link_prober/LinkProberStateMachineBase.cpp:189-207 | Left alone after any steps the port runs its strand dry; its composite is then exactly the triple of its sub-machines' labels, and it is safe in the sense above |
| `ActiveActiveDuties.EveryStepDoesItsDuty` | src/link_manager/LinkManagerStateMachineActiveActive.cpp:119-503 | Every step of every run, strand turns and events of the sub-machines included, puts out exactly the outputs that the tables owe, in their order, and leaves composite, labels, strand and bookkeeping as they say |
| `ActiveActiveAnswers.TransitionAnswers` | src/link_manager/LinkManagerStateMachineActiveActive.cpp:796-983 | The transition table against the table of answers: what a heard and what a lost server want of the mux, by mode, route and last answer |
| `ActiveActiveAnswers.AcceptLinkDoes` | src/link_manager/LinkManagerStateMachineActiveActive.cpp:579-621 | A link change: one that comes up aligns the peer, and the prober unless it is active; one that falls under a mux that is not standby asks for Standby |
| `ActiveActiveAnswers.MuxConfigDoes` | src/link_manager/LinkManagerStateMachineActiveActive.cpp:267-294 | A configuration: what each mode asks for, and whether probing is shut down or restarted; before the activation it waits |
| `ActiveActiveAnswers.DefaultRouteDoes` | src/link_manager/LinkManagerStateMachineActiveActive.cpp:1368-1425 | Outside the active mode a missing route shuts probing down or restarts it by mode and asks for Standby; one that returns under an active prober in auto mode aligns it with the mux |
| `ActiveActiveAnswers.StartProberDoes` | src/link_manager/LinkManagerStateMachineActiveActive.cpp:71-107 | The activation: what is initialised, started, shut down or restarted and reported, in this order, with the prober where the mux is and the configurations that waited on the strand |
| `ActiveActiveDuties.AnswersAreReported` | src/link_manager/LinkManagerStateMachineBase.cpp:352-370 | Every answer to an active port, to a toggle or to a probe, queues exactly the mux event whose target is the answer's label |
| `ActiveActiveDuties.AnswersMoveTheMux` | src/link_manager/LinkManagerStateMachineActiveActive.cpp:202-228 | From every reachable active port with an empty strand and a mux retry count of at most one: the answer, once served, leaves the mux sub-machine on its label and queues the change exactly when it is one |
| `ActiveActiveHealth.ReportsAreRight` | src/link_manager/LinkManagerStateMachineActiveActive.cpp:1169-1183 | Every step of every run that reports leaves the port healthy if and only if the link is up, the prober active, the mux the last answer of the run, unless that answer or a later probe is Unknown, and the route there or not required; else unhealthy |
| `ActiveActiveHealth.HealthIsLastReport` | src/link_manager/LinkManagerStateMachineActiveActive.cpp:1169-1183 | A port that counts as healthy was so at the last step that reported; no step but a reporting one changes what is stored |
| `ActiveActiveHealth.PeerTogglesAreHealthful` | src/link_manager/LinkManagerStateMachineActiveActive.cpp:628-657 | Every toggle of the peer is made by a port of which that held when it last reported |
| `ActiveActiveRuns.AlwaysAgrees` | src/link_manager/LinkManagerStateMachineActiveActive.cpp:1014-1082 | In every reachable state composite, peer label and sub-machines agree, up to changes carrying exactly the new label that are still queued |
| `ActiveActiveRuns.Converges` | src/link_manager/LinkManagerStateMachineActiveActive.cpp:514-657 | Left alone, the strand empties within its weight, and composite and peer label are then exactly the sub-machines' labels |
| `ActiveActiveRuns.StrandShrinks` | src/link_manager/LinkManagerStateMachineActiveActive.cpp:514-657 | Every strand turn lowers the weight, deferred configurations included |
| `ActiveActiveRuns.TogglesObeyTheMode` | src/link_manager/LinkManagerStateMachineActiveActive.cpp:1089-1118 | In every run every toggle, forced ones included, is allowed by the mode (none in manual mode); outside the active mode a toggle to Active has an active prober and a link that is up in the composite entered |
| `ActiveActiveRuns.NoActiveToggleWhileDown` | src/link_manager/LinkManagerStateMachineActiveActive.cpp:579-621 | After the composite took the link down, forced or from the sub-machine, outside the active mode no toggle to Active comes before it took the link up again |
| `ActiveActiveToggles.LinkDownGoesStandby` | src/link_manager/LinkManagerStateMachineActiveActive.cpp:612-613 | In every run every fall of an up link that the composite takes up in auto, detached or standby mode over a mux that is not standby is followed, in the same step and at once, by exactly the outputs of a toggle to Standby, and leaves the mux showing it on both sides |
| `ActiveActiveRuns.DecidedPortsAct` | src/link_manager/LinkManagerStateMachineActiveActive.cpp:796-983 | After the activation no run leaves a port resting where its mode calls for a toggle: lost server over an active mux, or over a waiting mux while the link is up, heard server over a waiting mux, or, in auto mode unless the route is missing, over a standby mux |
| `ActiveActiveAsks.UnclearMuxIsAnswered` | src/link_manager/LinkManagerStateMachineActiveActive.cpp:886-920 | In every run a step that takes up, over an up link, an active prober with an unknown or erroneous mux or a lost server with an unknown mux puts out exactly a toggle to where the prober wants the mux, if the prober has just changed, the mux is unknown and the mode allows it, and else exactly a probe with its wait timer and, unless it is that change, the probe timer with the factor held |
| `ActiveActiveAsks.UnclearPortsAsk` | src/link_manager/LinkManagerStateMachineActiveActive.cpp:511-618 | No step of any run brings an active port from another composite to such a one without probing: the step serves the change to it, its outputs are those of the probe, and the port waits for the answer |
| `ActiveActiveAsks.AsksExactlyWhen` | src/link_manager/LinkManagerStateMachineActiveActive.cpp:670-784 | Over an up link, a decided prober and an unknown or erroneous mux such a step probes or toggles if and only if it is not a lost server over an erroneous mux |
| `ActiveActiveAsks.LinkUpProbesFirst` | src/link_manager/LinkManagerStateMachineActiveActive.cpp:594-606 | A link that comes up under an active prober over such a mux keeps the prober and probes the mux, and asks orchagent for nothing |
| `ActiveActiveRests.TransitionRests` | src/link_manager/LinkManagerStateMachineActiveActive.cpp:796-983 | From any state, whatever was left, the transition table never ends in such a composite |
| `ActiveActiveRests.DefaultRouteRests` | src/link_manager/LinkManagerStateMachineActiveActive.cpp:1368-1401 | A route notification keeps that, because a missing route sends the mux standby and a returning one resets an active prober |
| `ActiveActiveRests.MuxConfigRests` | src/link_manager/LinkManagerStateMachineActiveActive.cpp:267-294 | Storing a mode and acting on it ends outside such composites, wherever the port was |
| `ActiveActiveRuns.PeerTogglesAreEarned` | src/link_manager/LinkManagerStateMachineActiveActive.cpp:1136-1149 | The peer is only ever toggled to standby, by a healthy port in auto mode |
| `ActiveActiveToggles.PeerTogglesAnswerLosses` | src/link_manager/LinkManagerStateMachineActiveActive.cpp:628-657 | In every run an output toggles the peer if and only if it is the first output of a strand turn that serves a loss of the peer, not stale, on a healthy port in auto mode |
| `ActiveActiveToggles.PinnedMuxIsReinforced` | src/link_manager/LinkManagerStateMachineActiveActive.cpp:796-878 | In every run a strand turn that takes up a settled mux over an up link, in a pinned mode whose prober disagrees, puts out exactly one toggle, to the pinned label, unless the notifications of the run last answered a toggle with that label and no later probe contradicts it; then it puts out none and keeps the mux |
| `ActiveActiveToggles.NotificationsAreKept` | src/link_manager/LinkManagerStateMachineActiveActive.cpp:202-308 | What a port remembers of the last answer and of a later probe is what the notifications of its run said |
| `ActiveActiveRuns.ActivationRunsDeferredConfigs` | src/link_manager/LinkManagerStateMachineActiveActive.cpp:71-107 | The activation puts the configurations that waited on the strand, in order, leaves none waiting, and aligns the prober with the mux |
| `ActiveActiveModes.LatestConfigWinsExactlyWhen` | src/link_manager/LinkManagerStateMachineActiveActive.cpp:267-294 | Once a port has carried out all configurations that waited for its activation, the mode of the last configuration is in force if and only if that came before the activation, or nothing, or at last the same mode, was still to be carried out as it came |
| `ActiveActiveModes.OlderModeWins` | src/link_manager/LinkManagerStateMachineActiveActive.cpp:286-293 | The run that shows the other case, on every configuration: a standby mode that waited for the activation is carried out after automatic mode was configured, and stays |
| `ActiveActiveRuns.InitFollowsNotifications` | src/link_manager/LinkManagerStateMachineActiveActive.cpp:119-340 | After every run a component is up if and only if a notification of it has come: an address, a link state, or a mux state of either kind |
| `ActiveActiveRuns.ProberStartsOnce` | src/link_manager/LinkManagerStateMachineActiveActive.cpp:71-107 | For every order and repetition of notifications the prober is initialised and started once if the run holds all three, else not at all |
| `ActiveActiveBackoff.BackoffsAreClosedForm` | src/link_manager/LinkManagerStateMachineActiveActive.cpp:1246-1281 | Every probe of every run has the factor min(2^d, 32), d the probe timeouts over an unknown, erroneous or waiting mux since the mux was last determined, the one that makes the probe included |
| `ActiveActiveBackoff.FactorFollowsTimeouts` | src/link_manager/LinkManagerStateMachineActiveActive.cpp:1266-1281 | So has the factor that every reachable port holds |
| `ActiveActiveBackoff.KthProbeExactlyWhen` | src/link_manager/LinkManagerStateMachineActiveActive.cpp:886-919 | The k-th probe since the mux was last determined has the factor min(2^k, 32) if and only if k equals d or both have reached the cap, and k equals d if and only if no probe before it came from anything but a timeout, one excepted when a timeout makes it |
| `ActiveActiveBackoff.ProbesAreCounted` | src/link_manager/LinkManagerStateMachineActiveActive.cpp:1246-1281 | The probes since the mux was last determined are those timeouts and the probes of other steps |
| `ActiveActiveBackoff.SecondProbeRepeats` | src/link_manager/LinkManagerStateMachineActiveActive.cpp:886-919 | The run that shows the difference, on every configuration: its second probe has the factor 1 and not 2 |
| `ActiveActiveBackoff.BackoffsFitTheirTimers` | src/link_manager/LinkManagerStateMachineActiveActive.cpp:1246-1259 | Every factor is a power of two up to 32, and its product with a base below 2^25 ms fits 32 bits |
| `ActiveActiveSteps.EveryOutputIsMade` | src/link_manager/LinkManagerStateMachineActiveActive.cpp:42-64 | Every output of a run but the first, which the construction makes, belongs to one of its steps |
| `ActiveActiveSafety.EveryRunKeeps` | src/link_manager/LinkManagerStateMachineActiveActive.cpp:514-657 | The invariant behind these theorems holds in every reachable state |
| `ActiveActiveSafety.NextKeeps` | src/link_manager/LinkManagerStateMachineActiveActive.cpp:119-503 | Every step keeps it (agreement, the link as logged, one start, every output so far within its condition), changes the probe factor and the remembered notifications only as its kind says, and adds to the log only outputs that it explains |
| `ActiveActiveSafety.TransitionKeeps` | src/link_manager/LinkManagerStateMachineActiveActive.cpp:796-983 | Every entry of the transition table keeps it, so that every toggle it makes has its evidence |
| `ActiveActive.ActiveActiveStateMachine.constructor` | src/link_manager/LinkManagerStateMachineActiveActive.cpp:42-64 | The port starts in the specified initial state |
| `ActiveActive.ActiveActiveStateMachine.Perform` | src/link_manager/LinkManagerStateMachineActiveActive.cpp:119-503 | Every notification, prober report, timer and strand turn takes the port to the specified next state |
| `ActiveActive.Serve` | src/link_manager/LinkManagerStateMachineActiveActive.cpp:42-64 | A port that is constructed and then performs any steps is in the state of the specification's run; it agrees with its sub-machines up to what is queued, every toggle and peer toggle it has sent met its condition, and it has started the prober once if it is active, else not at all |
| `ActiveActive.ServeUntilIdle` | src/link_manager/LinkManagerStateMachineActiveActive.cpp:514-657 | Left alone after any steps the port runs its strand dry; its composite and its peer label are then exactly its sub-machines' labels, and it is safe in the sense above |
| `Debounce.Refines` | src/mux_state/WaitState.cpp:52-164 | For thresholds up to 255 the 8-bit counting machine shows, after every trace, the label of the most recent long-enough run of equal events, else the entry label |
| `Debounce.RefinesOps` | src/mux_state/MuxStateMachine.cpp:73-95 | The same with forced labels in between: forcing another label restarts the trace, forcing the shown one does nothing |
| `Debounce.LabelOfIsLastRun` | src/mux_state/ActiveState.cpp:52-150 | The run specification without recursion: the last position at which a long-enough run ends decides |
| `Debounce.RangeIsSharp` | src/link_prober/ActiveState.cpp:52-108 | Beyond 255 the counter wraps first: one long run tells machine and specification apart |
| `MuxState.MeetsRunSpecExactly` | src/mux_state/MuxStateMachine.cpp:172-180 | The mux sub-machine meets the run specification for all traces of events and forced labels if and only if the retry count is at most 255 |
| `MuxState.ShowsLastRun` | src/mux_state/WaitState.cpp:52-164 | The label shown after every such trace |
| `MuxState.MuxStateMachine.constructor` | src/mux_state/MuxStateMachine.cpp:51-66 | Starts on the given label with clear counters |
| `MuxState.MuxStateMachine.SetCurrentState` | src/common/StateMachine.cpp:51-57 | Resets the entered state's counters only when the state changes |
| `MuxState.MuxStateMachine.EnterState` | src/mux_state/MuxStateMachine.cpp:73-95 | Forces a label |
| `MuxState.MuxStateMachine.HandleEvent` | src/mux_state/ActiveState.cpp:52-150 | Counts one event in the current state, clears the others and names the next state exactly when the 8-bit count reaches the retry count |
| `MuxState.MuxStateMachine.ProcessEvent` | src/mux_state/MuxStateMachine.cpp:172-180 | Handles the event and posts the change, exactly when there is one |
| `MuxState.MuxStateMachine.SetWaitStateCause` | src/mux_state/WaitState.cpp:171-175 | Adds the cause and remembers it as the last one |
| `MuxState.MuxStateMachine.ResetSwssUpdateCause` | src/mux_state/WaitState.h:177-185 | Clears the one cause bit |
| `LinkState.MeetsRunSpecExactly` | src/link_state/UpState.cpp:50-89 | The link sub-machine meets the run specification for all traces of events and forced labels if and only if the retry count is at most 255 |
| `LinkState.ShowsLastRun` | src/link_state/UpState.cpp:50-89 | The label of the last long-enough run of opposite events that it then shows |
| `LinkState.LinkStateMachine.EnterState` | src/link_state/LinkStateMachine.cpp:68-81 | Forces a label |
| `LinkState.LinkStateMachine.HandleEvent` | src/link_state/DownState.cpp:50-89 | Counts one event in the current state and names the next one |
| `LinkState.LinkStateMachine.ProcessEvent` | src/link_state/LinkStateMachine.cpp:142-150 | Handles the event and posts the change, exactly when there is one |
| `LinkProberDebounce.ActiveStandbyMeetsRunSpecExactly` | src/link_prober/WaitState.cpp:52-126 | On an active-standby cable the prober meets the run specification, in which Wait does not listen to lost heartbeats, if and only if both retry counts are at most 255 |
| `LinkProberDebounce.ActiveActiveMeetsRunSpecExactly` | src/link_prober/WaitState.cpp:100-126 | On an active-active cable it does if and only if both are at most 255 and one of them is at most one; otherwise the self count kept in Wait shows Active early |
| `LinkProberDebounce.WaitForgivesLoss` | src/link_prober/WaitState.cpp:76-126 | The input that shows it: heartbeats with one loss between them reach Active although no run of them is long enough |
| `LinkProberDebounce.PeerMeetsRunSpecExactly` | src/link_prober/PeerWaitState.cpp:45-135 | The peer prober meets the run specification for all traces of software events and forced labels if and only if both retry counts are at most 255 |
| `LinkProberDebounce.PeerShowsLastRun` | src/link_prober/PeerWaitState.cpp:45-135 | The label of the last long-enough run that it then shows |
| `LinkProberDebounce.ShowsLastRun` | src/link_prober/StandbyState.cpp:52-109 | The label shown after every trace of software events and forced labels, for either cable |
| `EventRules.HardwareDecides` | src/link_prober/ActiveState.cpp:127-175 | After every trace of software events, hardware events and forced labels, on either cable, a hardware event leaves the label that it reports, but for a loss while an active-standby prober waits |
| `EventRules.HardwareShowsLast` | src/link_prober/WaitState.cpp:128-207 | Every trace of hardware events and forced labels shows the label of the run specification with threshold one, for every retry count |
| `EventRules.HardwareDecidesPeer` | src/link_prober/PeerWaitState.cpp:91-124 | After every trace a hardware event leaves the peer prober on the label that it reports |
| `EventRules.ProberEventShows` | src/link_prober/LinkProberStateMachineBase.cpp:189-207 | The label after one event of any kind, by cable, prober type, the count of that event and the retry count it is held against |
| `EventRules.MuxEventIsCounted` | src/mux_state/ActiveState.cpp:52-138 | Label and counters after one mux event: another label has to be reported retry-count times in a row, and one event for the label shown ends every count |
| `LinkProberState.LinkProberStateMachine.EnterState` | src/link_prober/LinkProberStateMachineActiveActive.cpp:54-70 | Forces a label; an active-active prober ignores Standby |
| `LinkProberState.LinkProberStateMachine.ResetCurrentState` | src/link_prober/LinkProberStateMachineBase.cpp:72-76 | Clears the current counters and keeps the label |
| `LinkProberState.LinkProberStateMachine.ActiveHandleEvent` | src/link_prober/ActiveState.cpp:52-202 | Next label and counters for every event in Active, hardware and wait events included |
| `LinkProberState.LinkProberStateMachine.StandbyHandleEvent` | src/link_prober/StandbyState.cpp:52-178 | Next label and counters for every event in Standby, hardware and wait events included |
| `LinkProberState.LinkProberStateMachine.UnknownHandleEvent` | src/link_prober/UnknownState.cpp:52-205 | Next label and counters for every event in Unknown, hardware and wait events included |
| `LinkProberState.LinkProberStateMachine.WaitHandleEvent` | src/link_prober/WaitState.cpp:52-207 | Next label and counters for every event in Wait, by cable and prober type; a wait event cannot be handled there |
| `LinkProberState.LinkProberStateMachine.ProcessEvent` | src/link_prober/LinkProberStateMachineBase.cpp:189-207 | Handles the event and posts the change, exactly when there is one; an event that the state cannot handle changes nothing; the peer prober is untouched |
| `LinkProberState.LinkProberStateMachine.EnterPeerState` | src/link_prober/LinkProberStateMachineActiveActive.cpp:87-103 | Forces a peer label |
| `LinkProberState.LinkProberStateMachine.HandlePeerEvent` | src/link_prober/PeerUnknownState.cpp:44-161 | Next peer label and counters in each of the three peer states, hardware and wait events included |
| `LinkProberState.LinkProberStateMachine.ProcessPeerEvent` | src/link_prober/LinkProberStateMachineActiveActive.cpp:123-166 | Handles the event and posts the change, exactly when there is one; the wait events, which the source hands to the prober's own state, change nothing; the prober is untouched |
| `Checksum.CalculateChecksum` | src/link_prober/LinkProberBase.cpp:487-501 | The loop sums the big-endian words of any stretch of the buffer, odd last byte included, modulo 2^32 |
| `Checksum.CarryoverFolds` | src/link_prober/LinkProberBase.cpp:508-513 | Two folds and a complement give the 16-bit one's complement of every 32-bit sum |
| `Checksum.CarryoverIsInternetChecksum` | src/link_prober/LinkProberBase.cpp:520-541 | Sum and fold together are the checksum of section 1 of RFC 1071, defined independently by end-around carries |
| `Checksum.AcceptedWhenCongruent` | src/link_prober/LinkProberBase.cpp:508-513 | A receiver accepts a message whose field is folded from an accumulator exactly when accumulator and message are congruent modulo 0xffff |
| `HeartbeatFrame.WireFramesAreReference` | src/link_prober/LinkProberBase.cpp:550-560 | After any interleaving of heartbeats, commands, rebuilds, suspensions and shutdowns every frame on the wire is the reference frame if and only if the full sum of the last rebuild plus the sends since, less the rollovers, has passed 2^32 a multiple of 0xffff times and is no multiple of 2^32, and is accepted if and only if the first holds; both hold for 2^32 - 2^29 sends after a full computation |
| `HeartbeatFrame.LateFrameFails` | src/link_prober/LinkProberBase.cpp:550-560 | The run that shows the limit: after 2^32 + 2^17 heartbeats and nothing else the frame on the wire is not the reference frame, and no receiver accepts it |
| `HeartbeatFrame.WireIsCounted` | src/link_prober/LinkProberBase.cpp:464-480 | What those conditions read is, for every frame on the wire, a count of the operations: frame i was sent by the operation with i sending ones before it; its addresses are those of the last rebuild, its command is that operation's, its sequence number counts the attempts and its sends those since the last full computation |
| `HeartbeatFrame.WireIsWellFormed` | src/link_prober/LinkProberBase.cpp:330-369 | Every frame on the wire of every run by byte positions: server and ToR MAC of the last rebuild as destination and source, type 0x0800, the IP header with its length, identification and addresses, the echo request with the server's number and the counted sequence number, cookie, version, GUID, and the TLVs of the command |
| `HeartbeatFrame.OperationsAreCounted` | src/link_prober/LinkProberBase.cpp:464-480 | The same for the frame in the buffer, and for suspension and shutdown |
| `HeartbeatFrame.FieldIsReference` | src/link_prober/LinkProberBase.cpp:556-559 | The incrementally kept field against the full checksum of the buffer, both directions, by that count |
| `HeartbeatFrame.AcceptedExactlyWhen` | src/link_prober/LinkProberBase.cpp:556-559 | The receiver's check of the ICMP message, both directions |
| `HeartbeatFrame.AdvancedTracks` | src/link_prober/LinkProberBase.cpp:550-560 | Advancing the sequence number keeps the accumulator equal to that count and congruent to the full sum, through the rollover from 0xffff to 0 |
| `HeartbeatFrame.CommandsRideAlone` | src/link_prober/LinkProberBase.cpp:415-446 | The commands on the wire of any run are exactly those asked for while neither suspended nor shut down, in order, and after every operation the buffer carries none |
| `HeartbeatFrame.IpHeaderIsValid` | src/link_prober/LinkProberBase.cpp:625-633 | The IP header of every frame verifies and its total length is the packet size less 14 |
| `TlvCodec.ScanTiles` | src/link_prober/LinkProberBase.cpp:270-302 | On arbitrary bytes the parse terminates and what it visits tiles a stretch of the received bytes from the start offset |
| `TlvCodec.ScanIsExhaustive` | src/link_prober/LinkProberBase.cpp:257-302 | It ends only at a TLV that stops it or where none fits; no earlier TLV is of the stopping kind |
| `TlvCodec.RequestsComeFromVisits` | src/link_prober/LinkProberBase.cpp:276-294 | What is delivered are the requests of the visited TLVs, in their order |
| `TlvCodec.RoundTrip` | src/link_prober/LinkProberBase.cpp:567-577 | For every sequence of TLVs followed by a sentinel and anything at all the parse delivers exactly what the code makes of them, in order |
| `TlvCodec.UnknownsAreSkippedExactlyWhen` | src/link_prober/LinkProberBase.cpp:286-294 | It delivers what is promised, the requests of all commands in front of the first sentinel, if and only if no unknown TLV with a body of one byte comes before a command that asks for something |
| `TlvCodec.OneByteUnknownHidesSwitch` | src/link_prober/LinkProberBase.cpp:288-291 | The bytes that show the difference: a switch command behind an unknown TLV with one byte of body is lost, behind one with two it is delivered |
| `TlvCodec.ItemsMeanTheirCommands` | src/link_prober/LinkProberBase.cpp:640-651 | Commands and dummies in any order mean exactly the commands |
| `TlvCodec.FrameAsksForItsCommand` | src/link_prober/LinkProberBase.cpp:584-618 | The prober's own frame asks a peer for its command, and for nothing without one |
| `LinkProber.PacketsAreTold` | src/link_prober/LinkProberSw.cpp:393-430 | Which received packets count and for whom, by byte positions: version, server number or hardware cookie, no id, the own id, any other id |
| `LinkProber.EchoIsRecognised` | src/link_prober/LinkProberSw.cpp:393-436 | An echoed frame is this side's own reply to its sender and the peer's reply to the other side, with exactly the frame's command |
| `ProbeAccount.SeqNosRefineHeard` | src/link_prober/LinkProberBase.cpp:550-560 | Through any number of rollovers a received sequence number equals the sent one exactly when a reply has come since the last heartbeat |
| `ProbeAccount.EventsFollowTheTrace` | src/link_prober/LinkProberSw.cpp:170-240 | A timeout reports a loss exactly when no reply has come since the last heartbeat; which event a reply posts, on either cable; and every so many timeouts, and at every reset, the posted statistics are the unanswered timeouts and all timeouts since the last reset |
| `ProbeAccount.CountsAreTimeouts` | src/link_prober/LinkProberSw.cpp:170-240 | Packet count, unknown count and their difference are the timeouts, the unanswered and the answered ones since the last reset, in 64 bits |
| `LinkProber.LinkProberSw.constructor` | src/link_prober/LinkProberSw.cpp:45-83 | Sequence numbers 0xffff, 0 and 0, clear counters, nothing sent |
| `LinkProber.LinkProberSw.InitializeSendBuffer` | src/link_prober/LinkProberBase.cpp:330-369 | The buffer holds the complete frame for the given addresses and the current sequence number, both checksums valid |
| `LinkProber.LinkProberSw.HandleUpdateEthernetFrame` | src/link_prober/LinkProberBase.cpp:658-661 | Rebuilds the frame and leaves sequence number, suspension and wire alone |
| `LinkProber.LinkProberSw.ComputeIcmpChecksum` | src/link_prober/LinkProberBase.cpp:520-527 | Zeroes the field, sums in full and folds into the field; nothing else changes |
| `LinkProber.LinkProberSw.ComputeIpChecksum` | src/link_prober/LinkProberBase.cpp:534-541 | The header in the buffer is the one with its reference checksum; nothing else changes |
| `LinkProber.LinkProberSw.CalculateTxPacketChecksum` | src/link_prober/LinkProberBase.cpp:625-633 | Both checksums and the IP length fit the TLVs in the buffer |
| `LinkProber.LinkProberSw.AppendTlvSentinel` | src/link_prober/LinkProberBase.cpp:376-385 | Appends exactly the sentinel |
| `LinkProber.LinkProberSw.AppendTlvCommand` | src/link_prober/LinkProberBase.cpp:567-577 | Appends exactly the command's TLV |
| `LinkProber.LinkProberSw.AppendTlvDummy` | src/link_prober/LinkProberBase.cpp:640-651 | Appends exactly the encoding of the dummy |
| `LinkProber.LinkProberSw.InitTxBufferTlv` | src/link_prober/LinkProberBase.cpp:584-618 | The buffer holds the frame with the new command, computed in full |
| `LinkProber.LinkProberSw.UpdateIcmpSequenceNo` | src/link_prober/LinkProberBase.cpp:550-560 | The buffer holds the advanced frame; both received numbers become the number left behind |
| `LinkProber.LinkProberSw.SendHeartbeat` | src/link_prober/LinkProberBase.cpp:464-480 | Advances, and sends the buffer unless suspended or shut down and not forced |
| `LinkProber.LinkProberSw.HandleSendProbeCommand` | src/link_prober/LinkProberBase.cpp:415-422 | One command frame at most, then a frame without a command |
| `LinkProber.LinkProberSw.HandleSendSwitchCommand` | src/link_prober/LinkProberBase.cpp:429-446 | As above, and the completion is reported even when nothing was sent |
| `LinkProber.LinkProberSw.FindNextTlv` | src/link_prober/LinkProberBase.cpp:257-268 | The size of the TLV at an offset, zero when none fits |
| `LinkProber.LinkProberSw.HandleTlvCommandRecv` | src/link_prober/LinkProberBase.cpp:218-250 | Posts a peer's request and no others |
| `LinkProber.LinkProberSw.HandleTlvRecv` | src/link_prober/LinkProberBase.cpp:270-302 | Posts exactly the requests of the buffer, in order, when the sender is the peer, and none when it is this side |
| `LinkProber.LinkProberSw.HandleIcmpPayload` | src/link_prober/LinkProberSw.cpp:393-436 | Which packets count, for whom, what is posted for them and what is remembered of the peer, for any received bytes |
| `LinkProber.LinkProberSw.ReportHeartbeatReplyReceived` | src/link_prober/LinkProberSw.cpp:317-353 | Posts the event of a reply |
| `LinkProber.LinkProberSw.ReportHeartbeatReplyNotReceived` | src/link_prober/LinkProberSw.cpp:331-369 | Posts and counts a loss |
| `LinkProber.LinkProberSw.StartProbing` | src/link_prober/LinkProberSw.cpp:100-106 | Sends the next heartbeat |
| `LinkProber.LinkProberSw.HandleTimeout` | src/link_prober/LinkProberSw.cpp:170-196 | Reports, counts, posts the loss statistics when they are due, and sends the next heartbeat |
| `LinkProber.LinkProberSw.ResetIcmpPacketCounts` | src/link_prober/LinkProberSw.cpp:227-240 | Clears both counters and posts them |
| `LinkProber.LinkProberSw.DetectLink` | src/link_prober/LinkProberSw.cpp:156-163 | Sends exactly that many heartbeats, each with its sequence number and checksum, whatever is suspended |
| `LinkProber.LinkProberSw.ProbePeerTor` | src/link_prober/LinkProberBase.cpp:402-408 | Sends nothing, ever: the early heartbeat is for a peer known to probe in software, and no operation of the software prober records that |
| `LinkProber.LinkProberSw.SuspendTxProbes` | src/link_prober/LinkProberSw.cpp:113-125 | Suspends, and starts the suspend timer with the given time |
| `LinkProber.LinkProberSw.ResumeTxProbes` | src/link_prober/LinkProberSw.cpp:132-138 | Cancels the timer and leaves the suspension to its handler |
| `LinkProber.LinkProberSw.HandleSuspendTimeout` | src/link_prober/LinkProberSw.cpp:203-220 | Ends the suspension, and reports it when the timer expired; a cancelled wait leaves a timer that was started since running |
| `LinkProber.LinkProberSw.ShutdownTxProbes` | src/link_prober/LinkProberSw.cpp:247-252 | Shuts down |
| `LinkProber.LinkProberSw.RestartTxProbes` | src/link_prober/LinkProberSw.cpp:259-264 | Restarts |

## Left out

- Timers, sockets, the packet filter, databases, netlink, logging and `main`: expiry and abort are steps, calls out are
  outputs, receive errors and re-arming of receives do not appear.
- MAC address notifications, MAC and GUID generation: easy members. What the link managers do with the loss statistics that
  the prober posts is a database write.
- The hardware prober's session tables (`LinkProberHw`); its events reach the sub-machines as steps.
- `InitialSet`, the `setMuxState` that a probe answer makes before the activation (ActiveStandby, lines 666-700 of the
  source), is not a `Toggle`; the theorems about toggles do not speak of it.
- A link that goes down by a notification before the activation is forced, not taken up from the sub-machine; the port does
  not toggle for it, and `ActiveActiveToggles.LinkDownGoesStandby` does not speak of it.
- Calls through function pointers before the prober exists; the model logs an output instead.
- `mSendSwitchActiveCommandCause` has no initial value in the source; the model starts it as missing, and the invariant
  (`ActiveStandbySafety.CauseStored`) shows that it is never read while missing.
- Configuration values other than mode and addresses are constants of a port.
- Handlers of external notifications run as steps at any time instead of being queued on the strand first; this allows more
  interleavings than the daemon has.
- That never both sides are active: the mux hardware that would guarantee it is not part of this model.
- Probing interval changes around a switch-over (`mDecreaseProbingInterval`) and the switch-over timer.
- Byte order is that of a little-endian host, as the odd-byte case of `calculateChecksum` presumes.
- The byte behind the receive buffer, which a command TLV without a body at its very end would be read from, is a parameter.
