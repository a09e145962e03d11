/** The events recognized in the gateway's launcher.log. Times are in microseconds. */
module LogEvents {
  import opened Wrappers

  /** What a line says; an anchor carries UTC, the others are login events. */
  datatype Kind =
    | Anchor
    | Restart
    | Warm
    | LoginStart
    | AuthStart(passwordAsked: bool, savedToken: bool, ibKey: bool)
    | Challenge
    | AuthTimeout
    | AutoRetry(network: bool)
    | Completed(protocol: int, authenticated: bool)
    | RejectedCredentials
    | TwofaEnded
    | RejectedOther
    | Throttle(pause: nat)
    | LoggedIn
    | IdleNoise

  /** A recognized line at its local time; `offset` is local minus UTC, on anchors only. */
  datatype Event = Event(local: int, kind: Kind, offset: Option<int>)

  /** What was read of one file, with the times of its first and last line, and when it was last written. */
  datatype LogFile = LogFile(events: seq<Event>, firstLine: Option<int>, lastLine: Option<int>, mtime: Option<int>)
}
