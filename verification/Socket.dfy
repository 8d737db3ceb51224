/** The socket service: the application callback of `httpd.c` and the handlers of
    `sys_net.c`, with the two copies of the connection state they keep. */
module Socket {
  import opened Platform
  import opened Words
  import opened Tcp
  import opened Stack
  import opened Table

  const NET_BUF_SIZE := 512
  const APPDATA_SIZE := 366   // UIP_APPDATA_SIZE

  /** httpd_socket_*: the copy the callback writes. */
  datatype Bridge = Bridge(
    open: bool, pending: bool, closed: bool,
    rxLen: nat, rxBuf: seq<u8>, txLen: nat, txPending: bool, txBuf: seq<u8>, closePending: bool)

  /** sock_*: the copy the handlers read. */
  datatype Sock = Sock(
    listenPort: int, open: bool, pending: bool, closed: bool,
    rxLen: nat, rxBuf: seq<u8>, txLen: nat, txPending: bool)

  const CONN_ID := 1          // sock_conn_id never changes

  ghost predicate BridgeOk(b: Bridge) {
    |b.rxBuf| == UIP_BUFSIZE && |b.txBuf| == UIP_BUFSIZE && b.txLen <= APPDATA_SIZE && b.rxLen <= UIP_BUFSIZE
  }

  // --- httpd_appcall ---------------------------------------------------------

  function Overwrite(buf: seq<u8>, d: seq<u8>): (r: seq<u8>)
    requires |d| <= |buf|
    ensures |r| == |buf| && r[..|d|] == d && r[|d|..] == buf[|d|..]
  {
    d + buf[|d|..]
  }

  /** The callback's effect on the shared flags and the receive buffer. */
  function Observe(b: Bridge, f: Flags, data: seq<u8>): Bridge
    requires BridgeOk(b) && |data| <= UIP_BUFSIZE
  {
    var b1 := if f.connected then b.(open := true, pending := true, closed := false) else b;
    var b2 := if f.close || f.abort || f.timedout then b1.(open := false, pending := false, closed := true) else b1;
    var b3 := if f.newdata then b2.(rxLen := |data|, rxBuf := Overwrite(b2.rxBuf, data)) else b2;
    var b4 := if f.ackdata then b3.(txPending := false, txLen := 0) else b3;
    b4.(closePending := false)
  }

  /** uip_close() replaces all flags. */
  function CallbackFlags(b: Bridge, f: Flags): Flags {
    if b.closePending then CLOSE_FLAG else f
  }

  /** Whether the callback offers the transmit buffer. */
  predicate Offers(b: Bridge, f: Flags) {
    var g := CallbackFlags(b, f);
    b.txPending && !f.ackdata && (g.poll || g.ackdata || g.rexmit || g.newdata) && b.txLen > 0
  }

  /** What the callback leaves for the engine: `slen` and `stale` are uip_slen and
      the bytes of uip_buf before the call. */
  function CallbackReply(b: Bridge, f: Flags, slen: u16, stale: seq<u8>): (r: Reply)
    requires BridgeOk(b) && |stale| == APPDATA
    ensures ReplyOk(r)
  {
    if Offers(b, f) then Reply(CallbackFlags(b, f), b.txLen, Overwrite(stale, b.txBuf[..b.txLen]))
    else Reply(CallbackFlags(b, f), slen, stale)
  }

  // --- One call of uip_process with this application --------------------------

  datatype Net = Net(stack: Stack, bridge: Bridge, sock: Sock)

  function ReplyFor(b: Bridge, h: Half, stale: seq<u8>): (r: Reply)
    requires BridgeOk(b) && |stale| == APPDATA
    ensures ReplyOk(r)
  {
    if h.next.Call? then CallbackReply(b, h.next.flags, h.stack.slen, stale) else Reply(NOFLAGS, 0, stale)
  }

  function BridgeAfter(b: Bridge, h: Half): Bridge
    requires BridgeOk(b) && (h.next.Call? ==> |h.next.data| <= UIP_BUFSIZE)
  {
    if h.next.Call? then Observe(b, h.next.flags, h.next.data) else b
  }

  /** What can be seen of a run from outside. */
  datatype Observation =
    | Accepted(request: seq<u8>)   // sock_send took a request
    | Acknowledged                 // the callback was told of an acknowledgement
    | Connected                    // the callback was told of a new connection
    | Sent(seg: Segment)           // a segment was handed to the driver
    | Listening                    // sock_listen reset the service

  function CallObservations(next: Next): seq<Observation> {
    if next.Call? then (if next.flags.connected then [Connected] else []) + (if next.flags.ackdata then [Observation.Acknowledged] else [])
    else []
  }

  function OutObservation(out: Option<Segment>): seq<Observation> {
    if out.Some? then [Sent(out.value)] else []
  }

  datatype Result = Result(net: Net, trace: seq<Observation>)

  /** A call of uip_process on event `e`, whose reply is the callback's. */
  function Process(n: Net, e: Event, stale: seq<u8>): Result
    requires StackOk(n.stack) && EventOk(n.stack, e) && (e.Input? || e.Timer? || e.PollConn?) && BridgeOk(n.bridge)
    requires |stale| == APPDATA && e.r == ReplyFor(n.bridge, HalfOf(n.stack, e), stale)
    requires HalfOf(n.stack, e).next.Call? ==> |HalfOf(n.stack, e).next.data| <= UIP_BUFSIZE
  {
    var h := HalfOf(n.stack, e);
    var x := Step(n.stack, e);
    Result(n.(stack := x.stack, bridge := BridgeAfter(n.bridge, h)),
           CallObservations(h.next) + OutObservation(x.out))
  }

  lemma HalfData(s: Stack, e: Event)
    requires EventOk(s, e) && (e.Input? || e.Timer? || e.PollConn?)
    ensures HalfOf(s, e).next.Call? ==> |HalfOf(s, e).next.data| <= UIP_BUFSIZE
  {
    if e.Input? {
      var i := FindConn(s.conns, KeyFor(e.seg), 0);
      if i < |s.conns| {
        ReceiveData(s.conns[i], e.seg, s.host);
      }
    }
  }

  /** The application is handed the payload or nothing. */
  lemma ReceiveData(c: Conn, seg: Segment, host: u32)
    requires InputOk(seg)
    ensures var next := Receive(c, seg, host).1; next.Call? ==> next.data == [] || next.data == AppBytes(seg)
  {
  }

  function ProcessInput(n: Net, seg: Segment, stale: seq<u8>): Result
    requires StackOk(n.stack) && InputOk(seg) && BridgeOk(n.bridge) && |stale| == APPDATA
  {
    var e := Input(seg, ReplyFor(n.bridge, InputHalf(n.stack, seg), stale));
    HalfData(n.stack, e);
    Process(n, e, stale)
  }

  function ProcessPoll(n: Net, i: nat, stale: seq<u8>): Result
    requires StackOk(n.stack) && i < |n.stack.conns| && BridgeOk(n.bridge) && |stale| == APPDATA
  {
    var e := PollConn(i, ReplyFor(n.bridge, PollHalf(n.stack, i), stale));
    HalfData(n.stack, e);
    Process(n, e, stale)
  }

  /** uip_periodic on one slot. */
  function ProcessTimer(n: Net, i: nat, stale: seq<u8>): Result
    requires StackOk(n.stack) && i < |n.stack.conns| && BridgeOk(n.bridge) && |stale| == APPDATA
  {
    var e := Timer(i, ReplyFor(n.bridge, TimerHalf(n.stack, i), stale));
    HalfData(n.stack, e);
    Process(n, e, stale)
  }

  // --- sys_net ---------------------------------------------------------------

  /** sync_socket_state. */
  function Sync(n: Net): Net
    requires BridgeOk(n.bridge) && |n.sock.rxBuf| == NET_BUF_SIZE
  {
    var b := n.bridge;
    var s := n.sock.(open := b.open, pending := b.pending, closed := b.closed, txPending := b.txPending);
    if b.rxLen > 0 then
      n.(sock := s.(rxLen := b.rxLen, rxBuf := Overwrite(s.rxBuf, b.rxBuf[..b.rxLen])), bridge := b.(rxLen := 0))
    else n.(sock := s)
  }

  /** What net_recv finds: nothing, a TCP segment that passes the input tests, or
      any other frame. */
  datatype Frame = NoFrame | TcpFrame(seg: Segment) | OtherFrame

  ghost predicate NetOk(n: Net) {
    StackOk(n.stack) && BridgeOk(n.bridge) && |n.sock.rxBuf| == NET_BUF_SIZE
  }

  lemma ProcessOk(n: Net, e: Event, stale: seq<u8>)
    requires NetOk(n) && EventOk(n.stack, e) && (e.Input? || e.Timer? || e.PollConn?)
    requires |stale| == APPDATA && e.r == ReplyFor(n.bridge, HalfOf(n.stack, e), stale)
    ensures HalfOf(n.stack, e).next.Call? ==> |HalfOf(n.stack, e).next.data| <= UIP_BUFSIZE
    ensures NetOk(Process(n, e, stale).net)
  {
    HalfData(n.stack, e);
    BridgeStaysOk(n.bridge, HalfOf(n.stack, e));
    StepKeeps(n.stack, e);
  }

  lemma BridgeStaysOk(b: Bridge, h: Half)
    requires BridgeOk(b) && (h.next.Call? ==> |h.next.data| <= UIP_BUFSIZE)
    ensures BridgeOk(BridgeAfter(b, h))
  {
  }

  // The events of uip_process the service causes, with the callback's reply.

  function InputOf(n: Net, seg: Segment, stale: seq<u8>): Event
    requires NetOk(n) && InputOk(seg) && |stale| == APPDATA
  {
    Input(seg, ReplyFor(n.bridge, InputHalf(n.stack, seg), stale))
  }

  function PollOf(n: Net, i: nat, stale: seq<u8>): Event
    requires NetOk(n) && i < |n.stack.conns| && |stale| == APPDATA
  {
    PollConn(i, ReplyFor(n.bridge, PollHalf(n.stack, i), stale))
  }

  function TimerOf(n: Net, i: nat, stale: seq<u8>): Event
    requires NetOk(n) && i < CONNS && |stale| == APPDATA
  {
    Timer(i, ReplyFor(n.bridge, TimerHalf(n.stack, i), stale))
  }

  /** net_poll. */
  function NetPoll(n: Net, f: Frame, stale: seq<u8>): (r: Result)
    requires NetOk(n) && |stale| == APPDATA && (f.TcpFrame? ==> InputOk(f.seg))
    ensures NetOk(r.net)
  {
    match f
    case NoFrame => Result(n, [])
    case OtherFrame => Result(Sync(n), [])
    case TcpFrame(seg) =>
      ProcessOk(n, Input(seg, ReplyFor(n.bridge, InputHalf(n.stack, seg), stale)), stale);
      var p := ProcessInput(n, seg, stale);
      Result(Sync(p.net), p.trace)
  }

  function ListenKey(n: Net): u16 { Htons(Low16(n.sock.listenPort)) }

  /** The loop of kick_active_connection: the first active connection on the port. */
  function FindActive(conns: seq<Conn>, port: u16, i: nat): (r: nat)
    requires i <= |conns|
    ensures i <= r <= |conns| && (r < |conns| ==> conns[r].state != CLOSED && conns[r].lport == port)
    ensures forall j | i <= j < r :: conns[j].state == CLOSED || conns[j].lport != port
    decreases |conns| - i
  {
    if i == |conns| || (conns[i].state != CLOSED && conns[i].lport == port) then i else FindActive(conns, port, i + 1)
  }

  /** kick_active_connection. */
  function Kick(n: Net, stale: seq<u8>): (r: Result)
    requires NetOk(n) && |stale| == APPDATA
    ensures NetOk(r.net)
  {
    if n.sock.listenPort < 0 then Result(n, [])
    else
      var i := FindActive(n.stack.conns, ListenKey(n), 0);
      if i == |n.stack.conns| then Result(Sync(n), [])
      else
        ProcessOk(n, PollConn(i, ReplyFor(n.bridge, PollHalf(n.stack, i), stale)), stale);
        var p := ProcessPoll(n, i, stale);
        Result(Sync(p.net), p.trace)
  }

  datatype Status = OK | WOULD_BLOCK | NET_CLOSED | INVALID

  datatype Handled = Handled(net: Net, status: Status, length: nat, data: seq<u8>, trace: seq<Observation>)

  datatype Request =
    | SockListen(port: int)
    | SockAccept
    | SockRecv(conn: int, length: nat)
    | SockSend(conn: int, data: seq<u8>)
    | SockClose(conn: int)
    | Periodic(slot: nat)          // the periodic timer, which the service does not drive yet

  predicate ConnValid(s: Sock, conn: int) {
    s.listenPort >= 0 && s.open && conn == CONN_ID
  }

  function HandleListen(n: Net, port: int): (r: Handled)
    requires NetOk(n)
    ensures NetOk(r.net)
  {
    if port <= 0 then Handled(n, INVALID, 0, [], [])
    else
      var s := Sock(port, false, false, false, 0, n.sock.rxBuf, 0, false);
      var b := Bridge(false, false, false, 0, n.bridge.rxBuf, 0, false, n.bridge.txBuf, false);
      var st := n.stack.(listening := Listen(n.stack.listening, Htons(Low16(port))));
      Handled(Net(st, b, s), OK, 0, [], [Listening])
  }

  // The handlers below poll the driver first; their second parts decide the answer
  // from what the poll left.

  function AcceptFrom(p: Result): (r: Handled)
    requires NetOk(p.net)
    ensures NetOk(r.net)
  {
    if p.net.sock.pending then
      Handled(p.net.(sock := p.net.sock.(pending := false), bridge := p.net.bridge.(pending := false)), OK, 0, [], p.trace)
    else Handled(p.net, WOULD_BLOCK, 0, [], p.trace)
  }

  function HandleAccept(n: Net, f: Frame, stale: seq<u8>): (r: Handled)
    requires NetOk(n) && |stale| == APPDATA && (f.TcpFrame? ==> InputOk(f.seg))
    ensures NetOk(r.net)
  {
    AcceptFrom(NetPoll(n, f, stale))
  }

  function RecvFrom(p: Result, conn: int, length: nat): (r: Handled)
    requires NetOk(p.net) && length <= NET_BUF_SIZE
    ensures NetOk(r.net)
  {
    var s := p.net.sock;
    if s.listenPort < 0 || conn != CONN_ID then Handled(p.net, INVALID, 0, [], p.trace)
    else if s.rxLen > 0 then
      var len := if s.rxLen > length then length else s.rxLen;
      Handled(p.net.(sock := s.(rxLen := 0)), OK, len, s.rxBuf[..len], p.trace)
    else if s.closed || !s.open then Handled(p.net, NET_CLOSED, 0, [], p.trace)
    else Handled(p.net, WOULD_BLOCK, 0, [], p.trace)
  }

  function HandleRecv(n: Net, conn: int, length: nat, f: Frame, stale: seq<u8>): (r: Handled)
    requires NetOk(n) && |stale| == APPDATA && (f.TcpFrame? ==> InputOk(f.seg)) && length <= NET_BUF_SIZE
    ensures NetOk(r.net)
  {
    RecvFrom(NetPoll(n, f, stale), conn, length)
  }

  /** What handle_sock_send writes once it takes a request. */
  function Taken(q: Net, data: seq<u8>): Net
    requires BridgeOk(q.bridge) && |data| <= APPDATA_SIZE
  {
    q.(sock := q.sock.(txLen := |data|, txPending := true),
       bridge := q.bridge.(txLen := |data|, txPending := true, txBuf := Overwrite(q.bridge.txBuf, data)))
  }

  function SendFrom(p: Result, conn: int, data: seq<u8>, later: seq<u8>): (r: Handled)
    requires NetOk(p.net) && |later| == APPDATA && |data| <= APPDATA_SIZE
    ensures NetOk(r.net)
  {
    var q := p.net;
    if !ConnValid(q.sock, conn) then Handled(q, INVALID, 0, [], p.trace)
    else if q.sock.txPending then Handled(q, WOULD_BLOCK, 0, [], p.trace)
    else
      var k := Kick(Taken(q, data), later);
      Handled(k.net, OK, |data|, [], p.trace + [Accepted(data)] + k.trace)
  }

  function HandleSend(n: Net, conn: int, data: seq<u8>, f: Frame, stale: seq<u8>, later: seq<u8>): (r: Handled)
    requires NetOk(n) && |stale| == |later| == APPDATA && (f.TcpFrame? ==> InputOk(f.seg)) && |data| <= APPDATA_SIZE
    ensures NetOk(r.net)
  {
    SendFrom(NetPoll(n, f, stale), conn, data, later)
  }

  function CloseRequested(n: Net): Net { n.(bridge := n.bridge.(closePending := true)) }

  /** The service forgets its copy of the connection. */
  function Forgotten(n: Net): Net {
    n.(sock := n.sock.(open := false, pending := false, txPending := false, rxLen := 0))
  }

  function CloseFrom(p: Result, conn: int, later: seq<u8>): (r: Handled)
    requires NetOk(p.net) && |later| == APPDATA
    ensures NetOk(r.net)
  {
    var q := p.net;
    if !ConnValid(q.sock, conn) then Handled(q, INVALID, 0, [], p.trace)
    else
      var k := Kick(CloseRequested(q), later);
      Handled(Forgotten(k.net), OK, 0, [], p.trace + k.trace)
  }

  function HandleClose(n: Net, conn: int, f: Frame, stale: seq<u8>, later: seq<u8>): (r: Handled)
    requires NetOk(n) && |stale| == |later| == APPDATA && (f.TcpFrame? ==> InputOk(f.seg))
    ensures NetOk(r.net)
  {
    CloseFrom(NetPoll(n, f, stale), conn, later)
  }

  function HandleTimer(n: Net, i: nat, stale: seq<u8>): (r: Handled)
    requires NetOk(n) && |stale| == APPDATA && i < CONNS
    ensures NetOk(r.net)
  {
    ProcessOk(n, Timer(i, ReplyFor(n.bridge, TimerHalf(n.stack, i), stale)), stale);
    var p := ProcessTimer(n, i, stale);
    Handled(p.net, OK, 0, [], p.trace)
  }

  ghost predicate RequestOk(r: Request, f: Frame) {
    && (f.TcpFrame? ==> InputOk(f.seg))
    && (r.SockSend? ==> |r.data| <= APPDATA_SIZE)
    && (r.SockRecv? ==> r.length <= NET_BUF_SIZE)
    && (r.Periodic? ==> r.slot < CONNS)
  }

  /** One message of the service's main loop; `stale` and `later` are what the
      packet buffer holds when net_poll and the kick reach the callback. */
  function Handle(n: Net, r: Request, f: Frame, stale: seq<u8>, later: seq<u8>): (h: Handled)
    requires NetOk(n) && |stale| == |later| == APPDATA && RequestOk(r, f)
    ensures NetOk(h.net)
  {
    match r
    case SockListen(port) => HandleListen(n, port)
    case SockAccept => HandleAccept(n, f, stale)
    case SockRecv(conn, length) => HandleRecv(n, conn, length, f, stale)
    case SockSend(conn, data) => HandleSend(n, conn, data, f, stale, later)
    case SockClose(conn) => HandleClose(n, conn, f, stale, later)
    case Periodic(i) => HandleTimer(n, i, stale)
  }

  /** One turn of the main loop. */
  datatype Turn = Turn(request: Request, frame: Frame, stale: seq<u8>, later: seq<u8>)

  /** The service as `main` starts it. */
  function InitialNet(host: u32, rx: seq<u8>, hrx: seq<u8>, htx: seq<u8>): (n: Net)
    requires |rx| == NET_BUF_SIZE && |hrx| == UIP_BUFSIZE && |htx| == UIP_BUFSIZE
    ensures NetOk(n)
  {
    Net(Initial(host), Bridge(false, false, false, 0, hrx, 0, false, htx, false),
        Sock(-1, false, false, false, 0, rx, 0, false))
  }
}
