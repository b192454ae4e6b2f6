/** Message and connection vocabulary of the `pc` push channel: the security level of each
    message type and which disconnect reasons lead to a reconnect. */
module PcDefine {
  /** `MessageType` values. */
  const SwitchFull: string := "SWITCH_FULL"
  const DriverConfigFull: string := "DRIVER_CONFIG_FULL"
  const DriverConfigChange: string := "DRIVER_CONFIG_CHANGE"
  const ChangeTypeConnectHello: string := "CONNECT_HELLO"
  const RegisterSignal: string := "REGISTER_SIGNAL"

  /** `MessageSecurity`. */
  datatype MessageSecurity = Public | Trusted | Special

  /** `GetMessageSecurity`: registration and hello messages are special, configuration and
      switch pushes need a trusted client, everything else is public. */
  function GetMessageSecurity(msgType: string): (r: MessageSecurity)
    ensures r == Special <==> msgType in {RegisterSignal, ChangeTypeConnectHello}
    ensures r == Trusted <==> msgType in {DriverConfigFull, DriverConfigChange, SwitchFull}
    ensures r == Public <==> msgType !in {RegisterSignal, ChangeTypeConnectHello, DriverConfigFull, DriverConfigChange, SwitchFull}
  {
    if msgType == RegisterSignal || msgType == ChangeTypeConnectHello then Special
    else if msgType == DriverConfigFull || msgType == DriverConfigChange || msgType == SwitchFull then Trusted
    else Public
  }

  /** `DisconnectReason`, an integer enumeration in the source. */
  type DisconnectReason = int
  const ReasonUnknown: DisconnectReason := 0
  const ReasonNetworkError: DisconnectReason := 1
  const ReasonReadTimeout: DisconnectReason := 2
  const ReasonWriteError: DisconnectReason := 3
  const ReasonHeartbeatTimeout: DisconnectReason := 4
  const ReasonHandshakeFailed: DisconnectReason := 5
  const ReasonAuthFailed: DisconnectReason := 6
  const ReasonExternalClose: DisconnectReason := 7
  const ReasonServerKick: DisconnectReason := 8

  /** `ShouldReconnect`: network, read-timeout, write, heartbeat and handshake failures. */
  function ShouldReconnect(r: DisconnectReason): (b: bool)
    ensures b <==> r in {ReasonNetworkError, ReasonReadTimeout, ReasonWriteError, ReasonHeartbeatTimeout, ReasonHandshakeFailed}
  {
    r == ReasonNetworkError || r == ReasonReadTimeout || r == ReasonWriteError
    || r == ReasonHeartbeatTimeout || r == ReasonHandshakeFailed
  }

  /** `String`: each named reason's name; "Unknown" for every other value. */
  function ReasonString(r: DisconnectReason): string {
    if r == ReasonNetworkError then "NetworkError"
    else if r == ReasonReadTimeout then "ReadTimeout"
    else if r == ReasonWriteError then "WriteError"
    else if r == ReasonHeartbeatTimeout then "HeartbeatTimeout"
    else if r == ReasonHandshakeFailed then "HandshakeFailed"
    else if r == ReasonAuthFailed then "AuthFailed"
    else if r == ReasonExternalClose then "ExternalClose"
    else if r == ReasonServerKick then "ServerKick"
    else "Unknown"
  }

  /** Authentication failures, external closes, server kicks and unknown reasons do not
      reconnect. */
  lemma TerminalReasons(r: DisconnectReason)
    ensures r in {ReasonAuthFailed, ReasonExternalClose, ReasonServerKick, ReasonUnknown} ==> !ShouldReconnect(r)
    ensures !(1 <= r <= 8) ==> !ShouldReconnect(r) && ReasonString(r) == "Unknown"
  {
  }

  /** The names tell the named reasons apart, and "Unknown" stands exactly for the values
      outside them. */
  lemma ReasonStringInjective(a: DisconnectReason, b: DisconnectReason)
    requires 1 <= a <= 8 && 1 <= b <= 8 && a != b
    ensures ReasonString(a) != ReasonString(b)
    ensures ReasonString(a) != "Unknown"
  {
  }

  /** A reason reconnects exactly when its name is one of the five transient failures. */
  lemma ReconnectByName(r: DisconnectReason)
    ensures ShouldReconnect(r) <==>
      ReasonString(r) in {"NetworkError", "ReadTimeout", "WriteError", "HeartbeatTimeout", "HandshakeFailed"}
  {
  }
}
