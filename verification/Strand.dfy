/**
 The strand that serialises everything a port does: a queue of handlers to run, first in, first out.
 */
module Strand {
  import opened Labels

  datatype ProbeEvent =
    | IcmpSelf | IcmpPeer | IcmpUnknown | IcmpWait
    | IcmpHwSelf | IcmpHwPeer | IcmpHwUnknown | IcmpHwWait
  datatype PeerProbeEvent =
    | IcmpPeerActive | IcmpPeerUnknown | IcmpPeerWait
    | IcmpHwPeerActive | IcmpHwPeerUnknown | IcmpHwPeerWait
  datatype MuxEvent = ActiveEvent | StandbyEvent | UnknownEvent | ErrorEvent
  datatype LinkEvent = UpEvent | DownEvent

  datatype Message =
    // events for a sub-machine
    | ProberEventMsg(probeEvent: ProbeEvent)
    | PeerEventMsg(peerEvent: PeerProbeEvent)
    | MuxEventMsg(muxEvent: MuxEvent)
    | LinkEventMsg(linkEvent: LinkEvent)
    | SuspendTimerExpiredMsg
    | SwitchCommandCompleteMsg
    | SwitchRequestMsg
    | MuxProbeRequestMsg
    // what a sub-machine tells the link manager
    | ProberChange(ps: ProberLabel)
    | PeerChange(peer: PeerLabel)
    | MuxChange(ms: MuxLabel)
    | LinkChange(ls: LinkLabel)
    | HandleSuspendTimerExpiry
    | HandleSwitchCompletion
    | HandleSwitchRequest
    | HandleMuxProbeRequest
    // loss statistics on their way to the database
    | PacketLossUpdate(unknowns: nat, packets: nat)
    // a configuration handler that waited for the activation
    | DeferredMuxConfig(mode: Mode)

  /** Messages still to be digested by a sub-machine; digesting one posts at most one other message. */
  predicate ForSubMachine(m: Message) {
    || m.ProberEventMsg? || m.PeerEventMsg? || m.MuxEventMsg? || m.LinkEventMsg?
    || m.SuspendTimerExpiredMsg? || m.SwitchCommandCompleteMsg? || m.SwitchRequestMsg? || m.MuxProbeRequestMsg?
  }

  /** Two for each sub-machine event, one for each message to the link manager. */
  ghost function Weight(queue: seq<Message>): nat {
    if queue == [] then 0
    else (if ForSubMachine(queue[0]) then 2 else 1) + Weight(queue[1..])
  }

  lemma {:induction false} WeightAppend(queue: seq<Message>, m: Message)
    ensures Weight(queue + [m]) == Weight(queue) + if ForSubMachine(m) then 2 else 1
  {
    if queue != [] {
      assert (queue + [m])[1..] == queue[1..] + [m];
      WeightAppend(queue[1..], m);
    }
  }

  lemma WeightPost(queue: seq<Message>, ms: seq<Message>)
    requires |ms| <= 1 && forall m :: m in ms ==> !ForSubMachine(m)
    ensures Weight(queue + ms) <= Weight(queue) + 1
  {
    if ms == [] {
      assert queue + ms == queue;
    } else {
      assert ms == [ms[0]];
      WeightAppend(queue, ms[0]);
    }
  }

  class Strand {
    var queue: seq<Message>

    constructor ()
      ensures queue == []
    {
      queue := [];
    }

    method Post(m: Message)
      modifies this
      ensures queue == old(queue) + [m]
    {
      queue := queue + [m];
    }

    method Take() returns (m: Message)
      requires queue != []
      modifies this
      ensures m == old(queue)[0] && queue == old(queue)[1..]
    {
      m := queue[0];
      queue := queue[1..];
    }
  }
}
