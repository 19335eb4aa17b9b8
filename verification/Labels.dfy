/** Vocabulary of the link manager: machine words, state labels, modes and the composite triple. */
module Labels {
  type uint8 = x: int | 0 <= x < 0x100
  type uint16 = x: int | 0 <= x < 0x1_0000
  type uint32 = x: int | 0 <= x < 0x1_0000_0000

  datatype Option<+T> = None | Some(value: T)

  /** `++` on a `uint8_t` event counter. */
  function Inc8(x: uint8): uint8 {
    (x + 1) % 0x100
  }

  /** `++` on a `uint32_t` counter. */
  function Inc32(x: uint32): uint32 {
    (x + 1) % 0x1_0000_0000
  }

  /** Labels of the link prober, the mux and the link, prefixed P, M and L as in the daemon's log lines. */
  datatype ProberLabel = PActive | PStandby | PUnknown | PWait
  datatype PeerLabel = PeerActive | PeerUnknown | PeerWait
  datatype MuxLabel = MActive | MStandby | MUnknown | MError | MWait
  datatype LinkLabel = LUp | LDown

  datatype Composite = Composite(ps: ProberLabel, ms: MuxLabel, ls: LinkLabel)

  datatype CableType = ActiveStandbyCable | ActiveActiveCable
  datatype Mode = Auto | Manual | ModeActive | ModeStandby | Detached
  datatype DefaultRoute = RouteWait | RouteNA | RouteOK
  datatype Health = Uninitialized | Unhealthy | Healthy
  datatype WaitCause = CauseUnknown | SwssUpdate | DriverUpdate

  /** Which of the three components have been initialised (`mComponentInitState`). */
  datatype InitBits = InitBits(prober: bool, mux: bool, link: bool) {
    predicate All() {
      prober && mux && link
    }
  }

  /** The configuration values that the state machines read. */
  datatype Config = Config(
    positiveRetry: uint32,
    negativeRetry: uint32,
    muxRetry: uint32,
    linkRetry: uint32,
    hardwareProber: bool,
    oscillationEnabled: bool,
    switchoverMeasurement: bool,
    defaultRouteFeature: bool
  )
}
