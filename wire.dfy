/** The request/response framing of the telemetry server client
    (Software/tss/tss_updater.py): the 8-byte request, the response
    payload extraction, and the mapping of every failure to its exception. */
module Wire {
  import opened Wrappers
  import opened Json

  newtype byte = x: int | 0 <= x < 256

  /** Bytes skipped at the front of every response. */
  const HeaderSize: nat := 8
  /** Largest datagram `recvfrom` accepts. */
  const PacketSize: nat := 8192
  const TwoTo32: int := 0x1_0000_0000

  predicate IsU32(x: int) { 0 <= x < TwoTo32 }

  // ---------------------------------------------------------------- request

  /** `struct.pack(">I", x)`: the four bytes of x, most significant first. */
  function U32BE(x: int): (r: seq<byte>)
    requires IsU32(x)
    ensures |r| == 4
  {
    var y := x / 256;
    var z := y / 256;
    var w := z / 256;
    [w as byte, (z % 256) as byte, (y % 256) as byte, (x % 256) as byte]
  }

  /** `struct.unpack(">I", b)`. */
  function FromU32BE(b: seq<byte>): (x: int)
    requires |b| == 4
    ensures IsU32(x)
  {
    ((b[0] as int * 256 + b[1] as int) * 256 + b[2] as int) * 256 + b[3] as int
  }

  lemma U32RoundTrip(x: int)
    requires IsU32(x)
    ensures FromU32BE(U32BE(x)) == x
  {
    var y := x / 256;
    var z := y / 256;
    var w := z / 256;
    assert w * 256 + z % 256 == z;
    assert z * 256 + y % 256 == y;
    assert y * 256 + x % 256 == x;
  }

  lemma U32BytesRoundTrip(b: seq<byte>)
    requires |b| == 4
    ensures U32BE(FromU32BE(b)) == b
  {
    var x := FromU32BE(b);
    var y := (b[0] as int * 256 + b[1] as int) * 256 + b[2] as int;
    var z := b[0] as int * 256 + b[1] as int;
    assert x == y * 256 + b[3] as int;
    assert x / 256 == y && x % 256 == b[3] as int;
    assert y / 256 == z && y % 256 == b[2] as int;
    assert z / 256 == b[0] as int && z % 256 == b[1] as int;
  }

  /** The error `struct.pack(">II", ...)` raises for a value outside
      the unsigned 32-bit range. */
  datatype PackError = OutOfRange

  /** `struct.pack(">II", timestamp, command)`. */
  function EncodeRequest(timestamp: int, command: int): (r: Result<seq<byte>, PackError>)
    ensures r.Success? <==> IsU32(timestamp) && IsU32(command)
    ensures r.Success? ==> |r.value| == 8
  {
    if IsU32(timestamp) && IsU32(command) then
      Success(U32BE(timestamp) + U32BE(command))
    else
      Failure(OutOfRange)
  }

  /** `struct.unpack(">II", packet)`: what the server reads back. */
  function DecodeRequest(packet: seq<byte>): (r: Option<(int, int)>)
    ensures r.Some? <==> |packet| == 8
    ensures r.Some? ==> IsU32(r.value.0) && IsU32(r.value.1)
  {
    if |packet| == 8 then Some((FromU32BE(packet[..4]), FromU32BE(packet[4..]))) else None
  }

  /** Decoding an encoded request gives back the timestamp and the command. */
  lemma RequestRoundTrip(timestamp: int, command: int)
    requires IsU32(timestamp) && IsU32(command)
    ensures EncodeRequest(timestamp, command).Success?
    ensures DecodeRequest(EncodeRequest(timestamp, command).value) == Some((timestamp, command))
  {
    var p := EncodeRequest(timestamp, command).value;
    assert p[..4] == U32BE(timestamp);
    assert p[4..] == U32BE(command);
    U32RoundTrip(timestamp);
    U32RoundTrip(command);
  }

  /** Every 8-byte packet is the encoding of the pair it decodes to. */
  lemma RequestBytesRoundTrip(packet: seq<byte>)
    requires |packet| == 8
    ensures var (t, c) := DecodeRequest(packet).value;
            EncodeRequest(t, c) == Success(packet)
  {
    U32BytesRoundTrip(packet[..4]);
    U32BytesRoundTrip(packet[4..]);
    assert packet == packet[..4] + packet[4..];
  }

  // --------------------------------------------------------------- response

  /** n NUL bytes. */
  function Nuls(n: nat): (r: seq<byte>)
    ensures |r| == n && forall i :: 0 <= i < n ==> r[i] == 0
  {
    seq(n, _ => 0)
  }


  /** Neither end of s is a NUL byte. */
  predicate NulFreeEdges(s: seq<byte>) { s == [] || (s[0] != 0 && s[|s| - 1] != 0) }

  /** The length of the run of NUL bytes at the front of s. */
  function LeadingNuls(s: seq<byte>): (n: nat)
    ensures n <= |s|
    ensures forall i :: 0 <= i < n ==> s[i] == 0
    ensures n < |s| ==> s[n] != 0
  {
    if |s| > 0 && s[0] == 0 then 1 + LeadingNuls(s[1..]) else 0
  }

  /** The length of the run of NUL bytes at the back of s. */
  function TrailingNuls(s: seq<byte>): (n: nat)
    ensures n <= |s|
    ensures forall i :: |s| - n <= i < |s| ==> s[i] == 0
    ensures n < |s| ==> s[|s| - 1 - n] != 0
  {
    if |s| > 0 && s[|s| - 1] == 0 then 1 + TrailingNuls(s[..|s| - 1]) else 0
  }

  /** Removes the NUL bytes at the front. */
  function StripLeadingNul(s: seq<byte>): (r: seq<byte>)
    ensures |r| <= |s| && s == Nuls(|s| - |r|) + r
    ensures r == [] || r[0] != 0
  {
    var n := LeadingNuls(s);
    assert s == s[..n] + s[n..] && s[..n] == Nuls(n);
    s[n..]
  }

  /** Removes the NUL bytes at the back. */
  function StripTrailingNul(s: seq<byte>): (r: seq<byte>)
    ensures |r| <= |s| && s == r + Nuls(|s| - |r|)
    ensures r == [] || r[|r| - 1] != 0
  {
    var n := TrailingNuls(s);
    assert s == s[..|s| - n] + s[|s| - n..] && s[|s| - n..] == Nuls(n);
    s[..|s| - n]
  }

  /** `bytes.strip(b'\x00')`: removes NUL bytes from both ends. */
  function StripNul(s: seq<byte>): (r: seq<byte>)
    ensures |r| <= |s|
    ensures NulFreeEdges(r)
  {
    StripTrailingNul(StripLeadingNul(s))
  }

  lemma NulsConcat(a: nat, b: nat)
    ensures Nuls(a) + Nuls(b) == Nuls(a + b)
  {
  }

  /** The front run of NULs in padding followed by a payload not starting
      with NUL is exactly the padding. */
  lemma LeadingNulsOfPadding(a: nat, t: seq<byte>)
    requires t == [] || t[0] != 0
    ensures LeadingNuls(Nuls(a) + t) == a
  {
    var s := Nuls(a) + t;
    assert forall i :: 0 <= i < a ==> s[i] == 0;
    assert a < |s| ==> s[a] == t[0];
  }

  lemma TrailingNulsOfPadding(t: seq<byte>, b: nat)
    requires t == [] || t[|t| - 1] != 0
    ensures TrailingNuls(t + Nuls(b)) == b
  {
    var s := t + Nuls(b);
    assert forall i :: |s| - b <= i < |s| ==> s[i] == 0;
    assert b < |s| ==> s[|s| - 1 - b] == t[|t| - 1];
  }

  lemma StripLeadingPrefix(a: nat, t: seq<byte>)
    requires t == [] || t[0] != 0
    ensures StripLeadingNul(Nuls(a) + t) == t
  {
    LeadingNulsOfPadding(a, t);
    assert (Nuls(a) + t)[a..] == t;
  }

  lemma StripTrailingSuffix(t: seq<byte>, b: nat)
    requires t == [] || t[|t| - 1] != 0
    ensures StripTrailingNul(t + Nuls(b)) == t
  {
    TrailingNulsOfPadding(t, b);
    assert (t + Nuls(b))[..|t|] == t;
  }

  lemma StripAllNul(n: nat)
    ensures StripNul(Nuls(n)) == []
  {
    assert Nuls(n) + [] == Nuls(n);
    StripLeadingPrefix(n, []);
  }

  /** Strip is determined by its specification: padding a payload whose
      edges are not NUL with NUL bytes on either side and stripping gives
      back exactly that payload. */
  lemma StripUnique(a: nat, p: seq<byte>, b: nat)
    requires NulFreeEdges(p)
    ensures StripNul(Nuls(a) + p + Nuls(b)) == p
  {
    if p == [] {
      assert Nuls(a) + p + Nuls(b) == Nuls(a + b);
      StripAllNul(a + b);
    } else {
      assert Nuls(a) + p + Nuls(b) == Nuls(a) + (p + Nuls(b));
      StripLeadingPrefix(a, p + Nuls(b));
      StripTrailingSuffix(p, b);
    }
  }

  /** What strip removed: s is the stripped payload with NUL padding around it. */
  lemma StripDecomposition(s: seq<byte>) returns (a: nat, b: nat)
    ensures s == Nuls(a) + StripNul(s) + Nuls(b)
  {
    var l := StripLeadingNul(s);
    var r := StripTrailingNul(l);
    a, b := |s| - |l|, |l| - |r|;
    assert Nuls(a) + (r + Nuls(b)) == Nuls(a) + r + Nuls(b);
  }

  lemma MergePadding(a: nat, a': nat, q: seq<byte>, b': nat, b: nat)
    ensures Nuls(a) + (Nuls(a') + q + Nuls(b')) + Nuls(b) == Nuls(a + a') + q + Nuls(b' + b)
  {
    NulsConcat(a, a');
    NulsConcat(b', b);
    calc {
      Nuls(a) + (Nuls(a') + q + Nuls(b')) + Nuls(b);
      (Nuls(a) + Nuls(a')) + q + (Nuls(b') + Nuls(b));
    }
  }

  lemma StripIdempotent(s: seq<byte>)
    ensures StripNul(StripNul(s)) == StripNul(s)
  {
    var p := StripNul(s);
    assert Nuls(0) + p + Nuls(0) == p;
    StripUnique(0, p, 0);
  }

  /** Extra NUL padding on either side of a payload does not change what
      strip produces, whatever the payload. */
  lemma StripPaddingInvariant(a: nat, p: seq<byte>, b: nat)
    ensures StripNul(Nuls(a) + p + Nuls(b)) == StripNul(p)
  {
    var a', b' := StripDecomposition(p);
    var q := StripNul(p);
    MergePadding(a, a', q, b', b);
    StripUnique(a + a', q, b' + b);
  }

  /** `recvfrom(PacketSize)` on a datagram socket: a longer datagram is
      cut to the buffer size. */
  function Received(datagram: seq<byte>): (r: seq<byte>)
    ensures |r| <= PacketSize
    ensures |datagram| <= PacketSize ==> r == datagram
    ensures |datagram| > PacketSize ==> |r| == PacketSize
    ensures r == datagram[..|r|]
  {
    if |datagram| <= PacketSize then datagram else datagram[..PacketSize]
  }

  /** `data[HEADER_SIZE:]`: Python slicing past the end gives b''. */
  function Payload(data: seq<byte>): (r: seq<byte>)
    ensures |data| >= HeaderSize ==> data == data[..HeaderSize] + r
    ensures |data| < HeaderSize ==> r == []
  {
    if |data| >= HeaderSize then data[HeaderSize..] else []
  }

  /** What reaches the decoders: the received bytes after the header, stripped. */
  function PayloadText(datagram: seq<byte>): (r: seq<byte>)
    ensures |r| <= PacketSize - HeaderSize
    ensures NulFreeEdges(r)
  {
    StripNul(Payload(Received(datagram)))
  }

  /** The header is skipped whatever it contains. */
  lemma HeaderIgnored(h1: seq<byte>, h2: seq<byte>, p: seq<byte>)
    requires |h1| == HeaderSize && |h2| == HeaderSize
    ensures PayloadText(h1 + p) == PayloadText(h2 + p)
  {
    var r1, r2 := Received(h1 + p), Received(h2 + p);
    assert |r1| == |r2|;
    assert r1[HeaderSize..] == (h1 + p)[..|r1|][HeaderSize..] == p[..|r1| - HeaderSize];
    assert r2[HeaderSize..] == (h2 + p)[..|r2|][HeaderSize..] == p[..|r2| - HeaderSize];
  }

  lemma FramedPayload(h: seq<byte>, body: seq<byte>)
    requires |h| == HeaderSize && |h| + |body| <= PacketSize
    ensures Payload(Received(h + body)) == body
  {
    assert (h + body)[HeaderSize..] == body;
  }

  /** A payload NUL-padded on both sides gives the same text as unpadded,
      as long as the header, the leading padding and the payload fit the
      receive buffer: truncation by `recvfrom` can only cut trailing NULs,
      which strip removes anyway. */
  lemma PaddingIgnored(h: seq<byte>, a: nat, p: seq<byte>, b: nat)
    requires |h| == HeaderSize
    requires |h| + a + |p| <= PacketSize
    ensures PayloadText(h + Nuls(a) + p + Nuls(b)) == PayloadText(h + p)
  {
    var d := h + Nuls(a) + p + Nuls(b);
    var r := Received(d);
    var b': nat := |r| - (|h| + a + |p|);
    var body := Nuls(a) + p + Nuls(b');
    assert r == d[..|r|];
    assert r == h + body;
    FramedPayload(h, body);
    FramedPayload(h, p);
    StripPaddingInvariant(a, p, b');
  }

  // ------------------------------------------------------------ fetch_data

  /** What the socket did with one `sendto` or `recvfrom` call. */
  datatype SendOutcome = Sent | SendTimedOut | SendFailed(reason: string)
  datatype RecvOutcome = Datagram(bytes: seq<byte>) | RecvTimedOut | RecvFailed(reason: string)

  /** One request/response exchange as the network plays it out: the
      clock reading `int(time.time())` the request is stamped with, what
      `sendto` did, and what `recvfrom` returns once that packet has been
      sent. That is the next datagram waiting on the socket, which need not
      be the answer to this request: nothing in the client pairs them. */
  datatype Exchange = Exchange(clock: int, send: SendOutcome, reply: seq<byte> -> RecvOutcome)

  /** Exceptions `fetch_data` raises. */
  datatype FetchError =
    /** struct.error from packing an out-of-range timestamp or command
        (raised before the try block). */
    | PackFailed
    /** AttributeError: the socket field is None after close(); not one
        of the handled exceptions, so it escapes unchanged. */
    | SocketClosed
    /** TimeoutError("Error: request timed out."). */
    | TimeoutErr
    /** ConnectionError("Error: socket error. ..."). */
    | ConnectionErr(reason: string)
    /** UnicodeDecodeError from `.decode('utf-8')`; not a JSONDecodeError,
        so it escapes unchanged. */
    | UnicodeErr
    /** ValueError("Error: json error. ...") wrapping a JSONDecodeError. */
    | JsonErr

  /** The open socket held by the client, with its receive timeout in seconds. */
  datatype Socket = Socket(timeout: real)

  /** The response decoder alone: header skip, strip, UTF-8, JSON. */
  function DecodeResponse(received: seq<byte>, utf8: seq<byte> -> Option<string>,
                          parse: string -> Option<Json>): (r: Result<Json, FetchError>)
    ensures r.Success? <==>
              utf8(StripNul(Payload(received))).Some? && parse(utf8(StripNul(Payload(received))).value).Some?
    ensures r.Success? ==> r.value == parse(utf8(StripNul(Payload(received))).value).value
    ensures r.Failure? ==> r.error in {UnicodeErr, JsonErr}
    ensures utf8(StripNul(Payload(received))).None? ==> r == Failure(UnicodeErr)
    ensures utf8(StripNul(Payload(received))).Some? && parse(utf8(StripNul(Payload(received))).value).None? ==>
              r == Failure(JsonErr)
  {
    match utf8(StripNul(Payload(received)))
    case None => Failure(UnicodeErr)
    case Some(text) =>
      match parse(text)
      case None => Failure(JsonErr)
      case Some(v) => Success(v)
  }

  /** The part of `fetch_data` after a successful `sendto`: what
      `recvfrom` returned, turned into the document or the exception. */
  function Receive(got: RecvOutcome, utf8: seq<byte> -> Option<string>,
                   parse: string -> Option<Json>): (r: Result<Json, FetchError>)
    ensures r == Failure(TimeoutErr) <==> got.RecvTimedOut?
    ensures got.RecvFailed? ==> r == Failure(ConnectionErr(got.reason))
    ensures got.Datagram? ==> r == DecodeResponse(Received(got.bytes), utf8, parse)
  {
    match got
    case RecvTimedOut => Failure(TimeoutErr)
    case RecvFailed(why) => Failure(ConnectionErr(why))
    case Datagram(d) => DecodeResponse(Received(d), utf8, parse)
  }

  /** The datagram `fetch_data(command)` hands to `sendto`: the packed
      request, once packing has succeeded and the client still holds its
      socket. */
  function SentRequest(socket: Option<Socket>, command: int, ex: Exchange): (r: Option<seq<byte>>)
    ensures r.Some? <==> IsU32(ex.clock) && IsU32(command) && socket.Some?
    ensures r.Some? ==> DecodeRequest(r.value) == Some((ex.clock, command))
  {
    match EncodeRequest(ex.clock, command)
    case Failure(_) => None
    case Success(packet) =>
      RequestRoundTrip(ex.clock, command);
      if socket.None? then None else Some(packet)
  }

  /** `fetch_data(command)` on a client whose socket field is `socket`. */
  function Fetch(socket: Option<Socket>, command: int, ex: Exchange,
                 utf8: seq<byte> -> Option<string>, parse: string -> Option<Json>): (r: Result<Json, FetchError>)
    ensures r == Failure(PackFailed) <==> !(IsU32(ex.clock) && IsU32(command))
    ensures r == Failure(SocketClosed) <==> IsU32(ex.clock) && IsU32(command) && socket.None?
    ensures SentRequest(socket, command, ex).None? <==> r == Failure(PackFailed) || r == Failure(SocketClosed)
    ensures r == Failure(TimeoutErr) <==>
              SentRequest(socket, command, ex).Some? &&
              (ex.send.SendTimedOut? ||
               (ex.send.Sent? && ex.reply(SentRequest(socket, command, ex).value).RecvTimedOut?))
    ensures (r.Failure? && r.error.ConnectionErr?) <==>
              SentRequest(socket, command, ex).Some? &&
              (ex.send.SendFailed? ||
               (ex.send.Sent? && ex.reply(SentRequest(socket, command, ex).value).RecvFailed?))
    ensures ex.send.SendFailed? && SentRequest(socket, command, ex).Some? ==>
              r == Failure(ConnectionErr(ex.send.reason))
    ensures ex.send.Sent? && SentRequest(socket, command, ex).Some? ==>
              r == Receive(ex.reply(SentRequest(socket, command, ex).value), utf8, parse)
    ensures r.Failure? && r.error in {UnicodeErr, JsonErr} ==>
              r == DecodeResponse(Received(ex.reply(SentRequest(socket, command, ex).value).bytes), utf8, parse)
    ensures r.Success? ==>
              SentRequest(socket, command, ex).Some? && ex.send.Sent? &&
              ex.reply(SentRequest(socket, command, ex).value).Datagram? &&
              r == DecodeResponse(Received(ex.reply(SentRequest(socket, command, ex).value).bytes), utf8, parse)
  {
    match EncodeRequest(ex.clock, command)
    case Failure(_) => Failure(PackFailed)
    case Success(packet) =>
      if socket.None? then Failure(SocketClosed)
      else
        match ex.send
        case SendTimedOut => Failure(TimeoutErr)
        case SendFailed(why) => Failure(ConnectionErr(why))
        case Sent => Receive(ex.reply(packet), utf8, parse)
  }
}
