/** The `TSSUpdater` client object: the socket it holds and its release
    discipline (Software/tss/tss_updater.py). Requests go through
    `Wire.Fetch` applied to the client's socket field. */
module Client {
  import opened Wrappers
  import opened Wire

  const DefaultIp: string := "192.168.95.154"
  const DefaultPort: int := 14141
  /** Receive timeout set on the socket, in seconds. */
  const SocketTimeout: real := 2.0

  class TssUpdater {
    var tssIp: string
    var tssPort: int
    /** The UDP socket; None once the client has been closed. */
    var udpSocket: Option<Socket>
    /** How many times the underlying socket's own close() has run. */
    ghost var socketCloses: nat

    constructor (ip: string, port: int)
      ensures tssIp == ip && tssPort == port
      ensures udpSocket == Some(Socket(SocketTimeout))
      ensures socketCloses == 0
    {
      tssIp, tssPort := ip, port;
      udpSocket := Some(Socket(SocketTimeout));
      socketCloses := 0;
    }

    /** close(): releases the socket if there is one. `closeRaises` is
        whether the socket's own close() raises; the field is cleared
        either way (the `finally`), and the exception, if any, is
        passed on (`raised`). */
    method Close(closeRaises: bool) returns (raised: bool)
      modifies this
      ensures udpSocket.None?
      ensures raised <==> old(udpSocket).Some? && closeRaises
      ensures socketCloses == old(socketCloses) + (if old(udpSocket).Some? then 1 else 0)
      ensures tssIp == old(tssIp) && tssPort == old(tssPort)
    {
      raised := false;
      if udpSocket.Some? {
        socketCloses := socketCloses + 1;
        raised := closeRaises;
        udpSocket := None;
      }
    }

    /** __enter__: the client itself is the context value. */
    method Enter() returns (r: TssUpdater)
      ensures r == this
    {
      r := this;
    }

    /** __exit__: always closes; an exception from close() propagates. */
    method Exit(closeRaises: bool) returns (raised: bool)
      modifies this
      ensures udpSocket.None?
      ensures raised <==> old(udpSocket).Some? && closeRaises
      ensures socketCloses == old(socketCloses) + (if old(udpSocket).Some? then 1 else 0)
      ensures tssIp == old(tssIp) && tssPort == old(tssPort)
    {
      raised := Close(closeRaises);
    }

    /** __del__: closes and swallows any exception. */
    method Del(closeRaises: bool)
      modifies this
      ensures udpSocket.None?
      ensures socketCloses == old(socketCloses) + (if old(udpSocket).Some? then 1 else 0)
      ensures tssIp == old(tssIp) && tssPort == old(tssPort)
    {
      var _ := Close(closeRaises);
    }
  }

  /** A client used in a `with` block and later collected: the socket is
      released exactly once, and only the first release can raise. */
  method ScopedLifetime(ip: string, port: int, exitRaises: bool, delRaises: bool)
    returns (u: TssUpdater, raised: bool)
    ensures fresh(u) && u.udpSocket.None? && u.socketCloses == 1
    ensures raised == exitRaises
  {
    u := new TssUpdater(ip, port);
    var v := u.Enter();
    raised := v.Exit(exitRaises);
    u.Del(delRaises);
    var again := u.Close(delRaises);
    assert !again;
  }
}
