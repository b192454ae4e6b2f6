/** The gRPC server settings of the SDK (`rpc.ServerConfig`) and the defaults `Initial`
    fills in. Durations are whole nanoseconds. The codec, interceptors, tap and stats
    handlers, keepalive settings and header sizes are not modelled: `Initial` leaves them
    alone. */
module RpcConfig {
  import opened DriverDefine

  const DefaultAddress: string := ":10001"
  const DefaultConnectionTimeout: int := 180 * Second
  const DefaultBufferSize: int := 64 * 1024

  /** The connection timeout after `Initial`: a positive count up to 1000 is read as
      seconds, a count up to 1000000 as milliseconds (cut to whole seconds), and anything
      else becomes 180 seconds. */
  function InitialTimeout(t: int): (r: int)
    ensures r % Second == 0 && Second <= r <= 1000 * Second
    ensures 0 < t <= 1000 ==> r == t * Second
    ensures 1000 < t <= 1_000_000 ==> r * 1000 <= t * Second < r * 1000 + 1000 * Second
    ensures t <= 0 || t > 1_000_000 ==> r == DefaultConnectionTimeout
  {
    if t <= 0 then DefaultConnectionTimeout
    else if t <= 1000 then t * Second
    else if t <= 1_000_000 then (t / 1000) * Second
    else DefaultConnectionTimeout
  }

  /** A timeout `Initial` has already settled is never read back as a count: running
      `Initial` again resets it to 180 seconds. */
  lemma SecondInitialResetsTimeout(t: int)
    ensures InitialTimeout(InitialTimeout(t)) == DefaultConnectionTimeout
  {
  }

  /** A timeout given as a Go duration of whole seconds (`30 * time.Second`, or a YAML
      "30s") is far above the millisecond range and becomes 180 seconds. */
  lemma DurationValueReplaced(n: int)
    requires n >= 1
    ensures InitialTimeout(n * Second) == DefaultConnectionTimeout
  {
    assert n * Second >= Second;
  }

  /** Keeps a positive size, else the 64 KiB default. */
  function BufferSizeOr(v: int): (r: int)
    ensures r > 0
    ensures v > 0 ==> r == v
    ensures v <= 0 ==> r == DefaultBufferSize
  {
    if v <= 0 then DefaultBufferSize else v
  }

  class ServerConfig {
    var address: string
    var certFile: string
    var keyFile: string
    var enableHealthCheck: bool
    var binaryLog: bool
    var maxConcurrentStreams: nat
    var maxRecvMsgSize: int
    var maxSendMsgSize: int
    var initialWindowSize: int
    var initialConnWindowSize: int
    var writeBufferSize: int
    var readBufferSize: int
    var connectionTimeout: int
    var waitForHandlers: bool

    /** `new(ServerConfig)`: every field at its zero value. */
    constructor ()
      ensures address == "" && certFile == "" && keyFile == ""
      ensures !enableHealthCheck && !binaryLog && !waitForHandlers
      ensures maxConcurrentStreams == 0 && maxRecvMsgSize == 0 && maxSendMsgSize == 0
      ensures initialWindowSize == 0 && initialConnWindowSize == 0
      ensures writeBufferSize == 0 && readBufferSize == 0 && connectionTimeout == 0
    {
      address, certFile, keyFile := "", "", "";
      enableHealthCheck, binaryLog, waitForHandlers := false, false, false;
      maxConcurrentStreams, maxRecvMsgSize, maxSendMsgSize := 0, 0, 0;
      initialWindowSize, initialConnWindowSize := 0, 0;
      writeBufferSize, readBufferSize, connectionTimeout := 0, 0, 0;
    }

    /** `Initial`: the listen address, connection timeout and buffer sizes get their
        defaults, and waiting for handlers on shutdown is forced on; nothing else changes. */
    method Initial()
      modifies this
      ensures address == (if old(address) == "" then DefaultAddress else old(address))
      ensures connectionTimeout == InitialTimeout(old(connectionTimeout))
      ensures writeBufferSize == BufferSizeOr(old(writeBufferSize))
      ensures readBufferSize == BufferSizeOr(old(readBufferSize))
      ensures waitForHandlers
      ensures certFile == old(certFile) && keyFile == old(keyFile)
      ensures enableHealthCheck == old(enableHealthCheck) && binaryLog == old(binaryLog)
      ensures maxConcurrentStreams == old(maxConcurrentStreams)
      ensures maxRecvMsgSize == old(maxRecvMsgSize) && maxSendMsgSize == old(maxSendMsgSize)
      ensures initialWindowSize == old(initialWindowSize)
      ensures initialConnWindowSize == old(initialConnWindowSize)
    {
      if address == "" {
        address := DefaultAddress;
      }
      connectionTimeout := SettleTimeout(connectionTimeout);
      if writeBufferSize <= 0 {
        writeBufferSize := DefaultBufferSize;
      }
      if readBufferSize <= 0 {
        readBufferSize := DefaultBufferSize;
      }
      if !waitForHandlers {
        waitForHandlers := true;
      }
    }
  }

  /** The connection-timeout step of `Initial`. */
  method SettleTimeout(timeout: int) returns (r: int)
    ensures r == InitialTimeout(timeout)
  {
    if timeout <= 0 {
      r := DefaultConnectionTimeout;
    } else if timeout <= 1000 {
      r := timeout * Second;
    } else if timeout <= 1_000_000 {
      r := timeout / 1000 * Second;
    } else {
      r := DefaultConnectionTimeout;
    }
  }

  /** `DefaultServerConfig`: a zero configuration after `Initial`. */
  method DefaultServerConfig() returns (cfg: ServerConfig)
    ensures fresh(cfg)
    ensures cfg.address == DefaultAddress && cfg.connectionTimeout == DefaultConnectionTimeout
    ensures cfg.writeBufferSize == DefaultBufferSize && cfg.readBufferSize == DefaultBufferSize
    ensures cfg.waitForHandlers && cfg.certFile == "" && cfg.keyFile == ""
  {
    cfg := new ServerConfig();
    cfg.Initial();
  }
}
