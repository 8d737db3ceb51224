/** Every answer of the socket service is the one its history calls for: in every run
    `sock_recv` returns the payload of the last report of new data, and what it
    returns is a piece of the peer's stream. */
module Inbox {
  import opened Platform
  import opened Words
  import opened Tcp
  import opened Stack
  import opened Table
  import opened Endpoint
  import opened Socket
  import opened Prefix
  import opened Ledger

  // --- The history of a run --------------------------------------------------

  ghost function Processed(h: History, n: Net, e: Event): History
    requires NetOk(n) && EventOk(n.stack, e)
  {
    match Step(n.stack, e).call case None => h case Some(a) => h + [Called(a)]
  }

  /** net_poll. */
  ghost function Polled(h: History, n: Net, f: Frame, stale: seq<u8>): History
    requires NetOk(n) && |stale| == APPDATA && (f.TcpFrame? ==> InputOk(f.seg))
  {
    match f
    case NoFrame => h
    case OtherFrame => h + [Looked]
    case TcpFrame(seg) => Processed(h, n, InputOf(n, seg, stale)) + [Looked]
  }

  /** kick_active_connection. */
  ghost function Kicked(h: History, n: Net, stale: seq<u8>): History
    requires NetOk(n) && |stale| == APPDATA
  {
    var i := FindActive(n.stack.conns, ListenKey(n), 0);
    if n.sock.listenPort < 0 then h
    else if i == |n.stack.conns| then h + [Looked]
    else Processed(h, n, PollOf(n, i, stale)) + [Looked]
  }

  ghost predicate TurnOk(t: Turn) {
    |t.stale| == |t.later| == APPDATA && RequestOk(t.request, t.frame)
  }

  function Handling(n: Net, t: Turn): (r: Handled)
    requires NetOk(n) && TurnOk(t)
    ensures NetOk(r.net)
  {
    Handle(n, t.request, t.frame, t.stale, t.later)
  }

  /** One message of the main loop. */
  ghost function Turned(h: History, n: Net, t: Turn): History
    requires NetOk(n) && TurnOk(t)
  {
    var r := Handling(n, t);
    var a := Answer(t.request, r.status, r.length, r.data);
    var q := NetPoll(n, t.frame, t.stale).net;
    match t.request
    case SockListen(_) => h + [a]
    case SockAccept => Polled(h, n, t.frame, t.stale) + [a]
    case SockRecv(_, _) => Polled(h, n, t.frame, t.stale) + [a]
    case SockSend(_, data) =>
      var h1 := Polled(h, n, t.frame, t.stale) + [a];
      if r.status == OK then Kicked(h1, Taken(q, data), t.later) else h1
    case SockClose(_) =>
      var h1 := Polled(h, n, t.frame, t.stale) + [a];
      if r.status == OK then Kicked(h1, CloseRequested(q), t.later) + [Forgot] else h1
    case Periodic(i) => Processed(h, n, TimerOf(n, i, t.stale))
  }

  ghost predicate RunOk(n: Net, ts: seq<Turn>)
    requires NetOk(n)
    decreases |ts|
  {
    ts == [] || (TurnOk(ts[0]) && RunOk(Handling(n, ts[0]).net, ts[1..]))
  }

  ghost function HistoryOf(h: History, n: Net, ts: seq<Turn>): History
    requires NetOk(n) && RunOk(n, ts)
    decreases |ts|
  {
    if ts == [] then h else HistoryOf(Turned(h, n, ts[0]), Handling(n, ts[0]).net, ts[1..])
  }

  // --- The invariant between service and history -----------------------------

  /** The receive buffer of the callback, or else that of the handlers, holds what
      is unread. */
  ghost predicate Keeps(n: Net, d: Desk) {
    var b, s := n.bridge, n.sock;
    && NetOk(n) && s.rxLen <= NET_BUF_SIZE
    && d.listening == (s.listenPort >= 0)
    && d.told == View(b.open, b.pending, b.txPending) && d.known == View(s.open, s.pending, s.txPending)
    && (b.closed ==> !b.open) && (s.closed ==> !s.open)
    && d.unread == if b.rxLen > 0 then b.rxBuf[..b.rxLen] else s.rxBuf[..s.rxLen]
  }

  /** What may be assumed of one remote host: its number and its stream. */
  datatype Remote = Remote(key: Key, isn: u32, stream: seq<u8>)

  ghost predicate Follows(s: Stack, h: History, p: Option<Remote>) {
    p.Some? ==>
      && |p.value.stream| < 0x1_0000_0000
      && Delivering(Lookup(s, p.value.key), Delivered(h, p.value.key), p.value.isn, p.value.stream)
      && forall i: nat | i <= |h| :: Delivered(h[..i], p.value.key) <= p.value.stream
  }

  predicate FrameFrom(f: Frame, p: Option<Remote>) {
    p.Some? && f.TcpFrame? && KeyFor(f.seg) == p.value.key ==> FromPeer(f.seg, p.value.isn, p.value.stream)
  }

  ghost predicate Told(n: Net, h: History, p: Option<Remote>) {
    Keeps(n, DeskOf(h)) && Consistent(h) && Follows(n.stack, h, p)
  }

  /** Between two messages the callback's buffer is empty. */
  ghost predicate Settled(n: Net, h: History, p: Option<Remote>) {
    Told(n, h, p) && n.bridge.rxLen == 0
  }

  lemma StepCall(s: Stack, e: Event)
    requires StackOk(s) && EventOk(s, e) && (e.Input? || e.Timer? || e.PollConn?)
    ensures var a, next := Step(s, e).call, HalfOf(s, e).next;
            if next.Call? then a.Some? && a.value.flags == next.flags && a.value.data == next.data else a.None?
  {
  }

  /** The flags of the callback's copy move as the history does. */
  lemma ObserveView(b: Bridge, a: AppCall)
    requires BridgeOk(b) && |a.data| <= UIP_BUFSIZE && (b.closed ==> !b.open)
    ensures var c := Observe(b, a.flags, a.data);
            && View(c.open, c.pending, c.txPending) == Informed(View(b.open, b.pending, b.txPending), Called(a))
            && (c.closed ==> !c.open)
  {
  }

  /** Its buffer holds the payload. */
  lemma ObserveBytes(b: Bridge, a: AppCall)
    requires BridgeOk(b) && |a.data| <= UIP_BUFSIZE && b.rxLen == 0
    ensures var c := Observe(b, a.flags, a.data);
            BridgeOk(c) && if News(Called(a)) then c.rxLen > 0 && c.rxBuf[..c.rxLen] == a.data else c.rxLen == 0
  {
    var c := Observe(b, a.flags, a.data);
    if a.flags.newdata {
      assert c.rxBuf == Overwrite(b.rxBuf, a.data);
    }
  }

  lemma ObserveKeeps(n: Net, d: Desk, a: AppCall, st: Stack)
    requires Keeps(n, d) && n.bridge.rxLen == 0 && |a.data| <= UIP_BUFSIZE && StackOk(st)
    ensures Keeps(n.(stack := st, bridge := Observe(n.bridge, a.flags, a.data)), Move(d, Called(a)))
  {
    ObserveView(n.bridge, a);
    ObserveBytes(n.bridge, a);
  }

  lemma FollowsAdded(s: Stack, s1: Stack, h: History, e: Happening, p: Option<Remote>)
    requires Follows(s, h, p) && !e.Called? && s1.conns == s.conns
    ensures Follows(s1, h + [e], p)
  {
    if p.Some? {
      Added(h, e, p.value.key);
      PrefixesAdded(h, e, p.value.key, p.value.stream);
      assert Lookup(s1, p.value.key) == Lookup(s, p.value.key);
    }
  }

  lemma PrefixesAdded(h: History, e: Happening, k: Key, stream: seq<u8>)
    requires (forall i: nat | i <= |h| :: Delivered(h[..i], k) <= stream) && Delivered(h + [e], k) <= stream
    ensures forall i: nat | i <= |h + [e]| :: Delivered((h + [e])[..i], k) <= stream
  {
    forall i: nat | i <= |h + [e]| ensures Delivered((h + [e])[..i], k) <= stream {
      if i <= |h| {
        assert (h + [e])[..i] == h[..i];
      } else {
        assert (h + [e])[..i] == h + [e];
      }
    }
  }

  lemma ProcessedFollows(n: Net, h: History, e: Event, p: Option<Remote>)
    requires NetOk(n) && EventOk(n.stack, e) && Follows(n.stack, h, p)
    requires e.Input? ==> FrameFrom(TcpFrame(e.seg), p)
    ensures Follows(Step(n.stack, e).stack, Processed(h, n, e), p)
  {
    if p.Some? {
      var k, x := p.value.key, Step(n.stack, e);
      StepDelivers(n.stack, e, k, Delivered(h, k), p.value.isn, p.value.stream);
      if x.call.Some? {
        Added(h, Called(x.call.value), k);
        PrefixesAdded(h, Called(x.call.value), k, p.value.stream);
      }
    }
  }

  ghost predicate CanProcess(n: Net, e: Event, stale: seq<u8>) {
    && NetOk(n) && EventOk(n.stack, e) && (e.Input? || e.Timer? || e.PollConn?)
    && |stale| == APPDATA && e.r == ReplyFor(n.bridge, HalfOf(n.stack, e), stale)
  }

  lemma ProcessTold(n: Net, h: History, e: Event, stale: seq<u8>, p: Option<Remote>)
    requires CanProcess(n, e, stale) && Settled(n, h, p) && (e.Input? ==> FrameFrom(TcpFrame(e.seg), p))
    ensures HalfOf(n.stack, e).next.Call? ==> |HalfOf(n.stack, e).next.data| <= UIP_BUFSIZE
    ensures Told(Process(n, e, stale).net, Processed(h, n, e), p)
  {
    ProcessOk(n, e, stale);
    ProcessedFollows(n, h, e, p);
    StepCall(n.stack, e);
    var x := Step(n.stack, e);
    if x.call.Some? {
      ObserveKeeps(n, DeskOf(h), x.call.value, x.stack);
      Added(h, Called(x.call.value), x.call.value.key);
    }
  }

  lemma SyncSettles(n: Net, h: History, p: Option<Remote>)
    requires Told(n, h, p)
    ensures Settled(Sync(n), h + [Looked], p)
  {
    Added(h, Looked, Key(0, 0, 0));
    FollowsAdded(n.stack, n.stack, h, Looked, p);
    if n.bridge.rxLen > 0 {
      assert Sync(n).sock.rxBuf[..n.bridge.rxLen] == n.bridge.rxBuf[..n.bridge.rxLen];
    }
  }

  lemma PollSettles(n: Net, h: History, f: Frame, stale: seq<u8>, p: Option<Remote>)
    requires Settled(n, h, p) && |stale| == APPDATA && (f.TcpFrame? ==> InputOk(f.seg)) && FrameFrom(f, p)
    ensures Settled(NetPoll(n, f, stale).net, Polled(h, n, f, stale), p)
  {
    match f
    case NoFrame =>
    case OtherFrame => SyncSettles(n, h, p);
    case TcpFrame(seg) =>
      var e := InputOf(n, seg, stale);
      ProcessTold(n, h, e, stale, p);
      SyncSettles(Process(n, e, stale).net, Processed(h, n, e), p);
  }

  lemma KickSettles(n: Net, h: History, stale: seq<u8>, p: Option<Remote>)
    requires Settled(n, h, p) && |stale| == APPDATA
    ensures Settled(Kick(n, stale).net, Kicked(h, n, stale), p)
  {
    var i := FindActive(n.stack.conns, ListenKey(n), 0);
    if n.sock.listenPort >= 0 {
      if i == |n.stack.conns| {
        SyncSettles(n, h, p);
      } else {
        var e := PollOf(n, i, stale);
        ProcessTold(n, h, e, stale, p);
        SyncSettles(Process(n, e, stale).net, Processed(h, n, e), p);
      }
    }
  }

  // --- Every handler ---------------------------------------------------------

  lemma AnswerSettles(n: Net, n1: Net, h: History, e: Happening, p: Option<Remote>)
    requires Settled(n, h, p) && Fair(DeskOf(h), e) && !e.Called?
    requires Keeps(n1, Move(DeskOf(h), e)) && n1.bridge.rxLen == 0 && n1.stack.conns == n.stack.conns
    ensures Settled(n1, h + [e], p)
  {
    AnswerAdded(h, e);
    FollowsAdded(n.stack, n1.stack, h, e, p);
  }

  lemma AnswerAdded(h: History, e: Happening)
    requires Consistent(h) && Fair(DeskOf(h), e)
    ensures Consistent(h + [e]) && DeskOf(h + [e]) == Move(DeskOf(h), e)
  {
    Added(h, e, Key(0, 0, 0));
  }

  /** The answer to a message, and the state it leaves, as the polled state asks. */
  ghost predicate Answers(n: Net, d: Desk, r: Handled, q: Request) {
    var a := Answer(q, r.status, r.length, r.data);
    Fair(d, a) && Keeps(n, Move(d, a)) && n.bridge.rxLen == 0
  }

  lemma ListenAnswers(n: Net, d: Desk, port: int)
    requires Keeps(n, d) && n.bridge.rxLen == 0
    ensures Answers(HandleListen(n, port).net, d, HandleListen(n, port), SockListen(port))
  {
  }

  lemma AcceptAnswers(p: Result, d: Desk)
    requires Keeps(p.net, d) && p.net.bridge.rxLen == 0
    ensures Answers(AcceptFrom(p).net, d, AcceptFrom(p), SockAccept)
  {
  }

  lemma RecvAnswers(p: Result, d: Desk, conn: int, length: nat)
    requires Keeps(p.net, d) && p.net.bridge.rxLen == 0 && length <= NET_BUF_SIZE
    ensures Answers(RecvFrom(p, conn, length).net, d, RecvFrom(p, conn, length), SockRecv(conn, length))
  {
    var s := p.net.sock;
    var len := Min(s.rxLen, length);
    assert s.rxBuf[..len] == s.rxBuf[..s.rxLen][..len];
  }

  lemma SendAnswers(p: Result, d: Desk, conn: int, data: seq<u8>, later: seq<u8>)
    requires Keeps(p.net, d) && p.net.bridge.rxLen == 0 && |later| == APPDATA && |data| <= APPDATA_SIZE
    ensures var r := SendFrom(p, conn, data, later);
            Answers(if r.status == OK then Taken(p.net, data) else p.net, d, r, SockSend(conn, data))
  {
  }

  lemma CloseStatus(x: Result, conn: int, later: seq<u8>)
    requires NetOk(x.net) && |later| == APPDATA
    ensures var r := CloseFrom(x, conn, later);
            r.status == (if ConnValid(x.net.sock, conn) then OK else INVALID) && r.length == 0 && r.data == []
  {
  }

  lemma CloseAnswers(n: Net, d: Desk, r: Handled, conn: int)
    requires Keeps(n, d) && n.bridge.rxLen == 0
    requires r.status == (if ConnValid(n.sock, conn) then OK else INVALID) && r.length == 0 && r.data == []
    ensures Answers(if r.status == OK then CloseRequested(n) else n, d, r, SockClose(conn))
  {
  }

  lemma ListenSettles(n: Net, h: History, port: int, p: Option<Remote>)
    requires Settled(n, h, p)
    ensures var r := HandleListen(n, port); Settled(r.net, h + [AnswerOf(SockListen(port), r)], p)
  {
    ListenAnswers(n, DeskOf(h), port);
    var r := HandleListen(n, port);
    AnswerSettles(n, r.net, h, AnswerOf(SockListen(port), r), p);
  }

  lemma AcceptSettles(x: Result, h: History, p: Option<Remote>)
    requires Settled(x.net, h, p)
    ensures var r := AcceptFrom(x); Settled(r.net, h + [AnswerOf(SockAccept, r)], p)
  {
    AcceptAnswers(x, DeskOf(h));
    var r := AcceptFrom(x);
    AnswerSettles(x.net, r.net, h, AnswerOf(SockAccept, r), p);
  }

  lemma RecvSettles(x: Result, h: History, conn: int, length: nat, p: Option<Remote>)
    requires Settled(x.net, h, p) && length <= NET_BUF_SIZE
    ensures var r := RecvFrom(x, conn, length); Settled(r.net, h + [AnswerOf(SockRecv(conn, length), r)], p)
  {
    RecvAnswers(x, DeskOf(h), conn, length);
    var r := RecvFrom(x, conn, length);
    AnswerSettles(x.net, r.net, h, AnswerOf(SockRecv(conn, length), r), p);
  }

  lemma SendSettles(x: Result, h: History, conn: int, data: seq<u8>, later: seq<u8>, p: Option<Remote>)
    requires Settled(x.net, h, p) && |later| == APPDATA && |data| <= APPDATA_SIZE
    ensures var r := SendFrom(x, conn, data, later);
            var h1 := h + [AnswerOf(SockSend(conn, data), r)];
            Settled(r.net, if r.status == OK then Kicked(h1, Taken(x.net, data), later) else h1, p)
  {
    SendAnswers(x, DeskOf(h), conn, data, later);
    var r := SendFrom(x, conn, data, later);
    var a := AnswerOf(SockSend(conn, data), r);
    AnswerSettles(x.net, if r.status == OK then Taken(x.net, data) else x.net, h, a, p);
    if r.status == OK {
      KickSettles(Taken(x.net, data), h + [a], later, p);
    }
  }

  lemma CloseSettles(x: Result, h: History, conn: int, later: seq<u8>, p: Option<Remote>)
    requires Settled(x.net, h, p) && |later| == APPDATA
    ensures var r := CloseFrom(x, conn, later);
            var h1 := h + [AnswerOf(SockClose(conn), r)];
            Settled(r.net, if r.status == OK then Kicked(h1, CloseRequested(x.net), later) + [Forgot] else h1, p)
  {
    CloseStatus(x, conn, later);
    var r := CloseFrom(x, conn, later);
    CloseAnswers(x.net, DeskOf(h), r, conn);
    var a := AnswerOf(SockClose(conn), r);
    AnswerSettles(x.net, if r.status == OK then CloseRequested(x.net) else x.net, h, a, p);
    if r.status == OK {
      KickSettles(CloseRequested(x.net), h + [a], later, p);
      ForgetSettles(Kick(CloseRequested(x.net), later).net, Kicked(h + [a], CloseRequested(x.net), later), p);
    }
  }

  lemma ForgetSettles(n: Net, h: History, p: Option<Remote>)
    requires Settled(n, h, p)
    ensures Settled(Forgotten(n), h + [Forgot], p)
  {
    AnswerSettles(n, Forgotten(n), h, Forgot, p);
  }

  /** The timer reports no data. */
  lemma TimerQuiet(c: Conn, host: u32)
    ensures var next := Tick(c, host).1; next.Call? ==> !next.flags.newdata
  {
  }

  lemma QuietProcess(n: Net, e: Event, stale: seq<u8>)
    requires CanProcess(n, e, stale) && n.bridge.rxLen == 0
    requires HalfOf(n.stack, e).next.Call? ==> !HalfOf(n.stack, e).next.flags.newdata && |HalfOf(n.stack, e).next.data| <= UIP_BUFSIZE
    ensures Process(n, e, stale).net.bridge.rxLen == 0
  {
  }

  lemma TimerSettles(n: Net, h: History, i: nat, stale: seq<u8>, p: Option<Remote>)
    requires Settled(n, h, p) && i < CONNS && |stale| == APPDATA
    ensures Settled(HandleTimer(n, i, stale).net, Processed(h, n, TimerOf(n, i, stale)), p)
  {
    var e := TimerOf(n, i, stale);
    TimerQuiet(n.stack.conns[i], n.stack.host);
    ProcessTold(n, h, e, stale, p);
    QuietProcess(n, e, stale);
  }

  lemma TurnAccept(n: Net, h: History, t: Turn, p: Option<Remote>)
    requires Settled(n, h, p) && TurnOk(t) && FrameFrom(t.frame, p) && t.request.SockAccept?
    ensures Settled(Handling(n, t).net, Turned(h, n, t), p)
  {
    PollSettles(n, h, t.frame, t.stale, p);
    AcceptSettles(NetPoll(n, t.frame, t.stale), Polled(h, n, t.frame, t.stale), p);
  }

  lemma TurnRecv(n: Net, h: History, t: Turn, p: Option<Remote>)
    requires Settled(n, h, p) && TurnOk(t) && FrameFrom(t.frame, p) && t.request.SockRecv?
    ensures Settled(Handling(n, t).net, Turned(h, n, t), p)
  {
    var x, h1 := NetPoll(n, t.frame, t.stale), Polled(h, n, t.frame, t.stale);
    var r := RecvFrom(x, t.request.conn, t.request.length);
    assert Handling(n, t) == r && Turned(h, n, t) == h1 + [AnswerOf(t.request, r)];
    PollSettles(n, h, t.frame, t.stale, p);
    RecvSettles(x, h1, t.request.conn, t.request.length, p);
  }

  lemma TurnSend(n: Net, h: History, t: Turn, p: Option<Remote>)
    requires Settled(n, h, p) && TurnOk(t) && FrameFrom(t.frame, p) && t.request.SockSend?
    ensures Settled(Handling(n, t).net, Turned(h, n, t), p)
  {
    var x, h1 := NetPoll(n, t.frame, t.stale), Polled(h, n, t.frame, t.stale);
    var r := SendFrom(x, t.request.conn, t.request.data, t.later);
    assert Handling(n, t) == r;
    PollSettles(n, h, t.frame, t.stale, p);
    SendSettles(x, h1, t.request.conn, t.request.data, t.later, p);
  }

  lemma TurnClose(n: Net, h: History, t: Turn, p: Option<Remote>)
    requires Settled(n, h, p) && TurnOk(t) && FrameFrom(t.frame, p) && t.request.SockClose?
    ensures Settled(Handling(n, t).net, Turned(h, n, t), p)
  {
    var x, h1 := NetPoll(n, t.frame, t.stale), Polled(h, n, t.frame, t.stale);
    var r := CloseFrom(x, t.request.conn, t.later);
    assert Handling(n, t) == r;
    PollSettles(n, h, t.frame, t.stale, p);
    CloseSettles(x, h1, t.request.conn, t.later, p);
  }

  /** Every message of the main loop is answered as the history before it asks, and
      leaves the buffers holding what is unread. */
  lemma TurnSettles(n: Net, h: History, t: Turn, p: Option<Remote>)
    requires Settled(n, h, p) && TurnOk(t) && FrameFrom(t.frame, p)
    ensures Settled(Handling(n, t).net, Turned(h, n, t), p)
  {
    match t.request
    case SockListen(port) => ListenSettles(n, h, port, p);
    case SockAccept => TurnAccept(n, h, t, p);
    case SockRecv(_, _) => TurnRecv(n, h, t, p);
    case SockSend(_, _) => TurnSend(n, h, t, p);
    case SockClose(_) => TurnClose(n, h, t, p);
    case Periodic(i) => TimerSettles(n, h, i, t.stale, p);
  }

  /** Every run: all answers are fair, and what was delivered follows the stream. */
  lemma {:induction false} RunSettles(n: Net, h: History, ts: seq<Turn>, p: Option<Remote>)
    requires Settled(n, h, p) && RunOk(n, ts) && forall t | t in ts :: FrameFrom(t.frame, p)
    ensures var g := HistoryOf(h, n, ts);
            Consistent(g) && (p.Some? ==> forall i: nat | i <= |g| :: Delivered(g[..i], p.value.key) <= p.value.stream)
    decreases |ts|
  {
    if ts != [] {
      TurnSettles(n, h, ts[0], p);
      RunSettles(Handling(n, ts[0]).net, Turned(h, n, ts[0]), ts[1..], p);
    }
  }

  lemma StartSettles(host: u32, rx: seq<u8>, hrx: seq<u8>, htx: seq<u8>, p: Option<Remote>)
    requires |rx| == NET_BUF_SIZE && |hrx| == UIP_BUFSIZE && |htx| == UIP_BUFSIZE
    requires p.Some? ==> |p.value.stream| < 0x1_0000_0000
    ensures Settled(InitialNet(host, rx, hrx, htx), [], p)
  {
    if p.Some? {
      LookupNone(Initial(host), p.value.key);
    }
  }

  /** For every run of the freshly started service, with any frames, any number of
      connections and any requests: each answer of `sock_recv` is the leading bytes
      of the payload that the callback was given last, while that is unread; without
      one it is NET_CLOSED if the connection was not open when the handlers last
      looked, and WOULD_BLOCK if it was. */
  lemma RecvReturns(host: u32, rx: seq<u8>, hrx: seq<u8>, htx: seq<u8>, ts: seq<Turn>, i: nat)
    requires |rx| == NET_BUF_SIZE && |hrx| == UIP_BUFSIZE && |htx| == UIP_BUFSIZE
    requires RunOk(InitialNet(host, rx, hrx, htx), ts)
    requires var h := HistoryOf([], InitialNet(host, rx, hrx, htx), ts);
             i < |h| && h[i].Answer? && h[i].request.SockRecv?
    ensures RecvOk(HistoryOf([], InitialNet(host, rx, hrx, htx), ts), i)
  {
    var n := InitialNet(host, rx, hrx, htx);
    StartSettles(host, rx, hrx, htx, None);
    RunSettles(n, [], ts, None);
    ConsistentRecv(HistoryOf([], n, ts), i);
  }

  /** What `sock_recv` returns of a peer's connection is a piece of that peer's
      stream, whatever the network does to its segments. */
  lemma PieceOfStream(host: u32, rx: seq<u8>, hrx: seq<u8>, htx: seq<u8>, ts: seq<Turn>, p: Remote, i: nat, j: nat)
    requires |rx| == NET_BUF_SIZE && |hrx| == UIP_BUFSIZE && |htx| == UIP_BUFSIZE && |p.stream| < 0x1_0000_0000
    requires RunOk(InitialNet(host, rx, hrx, htx), ts) && forall t | t in ts :: FrameFrom(t.frame, Some(p))
    requires var h := HistoryOf([], InitialNet(host, rx, hrx, htx), ts);
             i < |h| && Received(h[i]) && Unread(h, j, i) && h[j].call.key == p.key
    ensures var h := HistoryOf([], InitialNet(host, rx, hrx, htx), ts);
            && 0 <= Offset(h, j) && Offset(h, j) + h[i].length <= |p.stream|
            && h[i].data == p.stream[Offset(h, j)..Offset(h, j) + h[i].length]
  {
    var h := HistoryOf([], InitialNet(host, rx, hrx, htx), ts);
    StartSettles(host, rx, hrx, htx, Some(p));
    RunSettles(InitialNet(host, rx, hrx, htx), [], ts, Some(p));
    assert Delivered(h[..j + 1], p.key) <= p.stream;
    PieceReturned(h, i, j, p.stream);
  }

  // --- sock_send -------------------------------------------------------------

  /** The poll that follows a request on an idle connection sends it, up to the
      segment size, under the connection's next number. */
  lemma SendGoesOut(q: Net, data: seq<u8>, stale: seq<u8>, i: nat)
    requires NetOk(q) && |stale| == APPDATA && 0 < |data| <= APPDATA_SIZE && q.sock.listenPort >= 0 && !q.bridge.closePending
    requires i == FindActive(q.stack.conns, ListenKey(q), 0) < |q.stack.conns|
    requires q.stack.conns[i].state == ESTABLISHED && q.stack.conns[i].len == 0 && q.stack.conns[i].mss > 0
    ensures var t, c := Kick(Taken(q, data), stale).trace, q.stack.conns[i];
            && |t| == 1 && t[0].Sent? && t[0].seg.data == data[..Min(|data|, c.mss)]
            && t[0].seg.seqno == c.sndNxt && KeyOfOutput(t[0].seg) == KeyOf(c)
  {
    var n, c := Taken(q, data), q.stack.conns[i];
    var r := ReplyFor(n.bridge, PollHalf(n.stack, i), stale);
    assert n.bridge.txBuf[..|data|] == data;
    assert r.flags == POLL_FLAG && r.slen == |data| && r.buf[..|data|] == data;
    assert r.buf[..Min(|data|, c.mss)] == data[..Min(|data|, c.mss)];
  }

  // --- sock_close ------------------------------------------------------------

  /** A poll reports nothing about the connection. */
  lemma PollTellsNothing(n: Net, i: nat, stale: seq<u8>)
    requires NetOk(n) && i < |n.stack.conns| && |stale| == APPDATA
    ensures var q := ProcessPoll(n, i, stale).net;
            && q.bridge.open == n.bridge.open && q.bridge.closed == n.bridge.closed && q.bridge.rxLen == n.bridge.rxLen
            && q.sock == n.sock
  {
  }

  lemma KickKeepsOpen(n: Net, later: seq<u8>)
    requires NetOk(n) && |later| == APPDATA && n.bridge.rxLen == 0
    ensures var k := Kick(n, later).net;
            && k.bridge.open == n.bridge.open && k.bridge.closed == n.bridge.closed
            && k.bridge.rxLen == 0 && k.sock.listenPort == n.sock.listenPort
  {
    var i := FindActive(n.stack.conns, ListenKey(n), 0);
    if n.sock.listenPort >= 0 && i < |n.stack.conns| {
      PollTellsNothing(n, i, later);
      assert Kick(n, later).net == Sync(ProcessPoll(n, i, later).net);
    }
  }

  /** `sock_close` drops the handlers' copy only. On every open connection the next
      frame of any kind, before the callback is told of the end, brings it back:
      `sock_recv` then answers WOULD_BLOCK in place of NET_CLOSED. */
  lemma CloseComesUndone(n: Net, h: History, stale: seq<u8>, later: seq<u8>, length: nat)
    requires Settled(n, h, None) && ConnValid(n.sock, 1) && n.bridge.open && |stale| == |later| == APPDATA && length <= NET_BUF_SIZE
    ensures var c := HandleClose(n, 1, NoFrame, stale, later);
            && c.status == OK
            && HandleRecv(c.net, 1, length, NoFrame, stale).status == NET_CLOSED
            && HandleRecv(c.net, 1, length, OtherFrame, stale).status == WOULD_BLOCK
  {
    var q := CloseRequested(n);
    KickKeepsOpen(q, later);
    ForgottenAnswers(Kick(q, later).net, stale, length);
  }

  lemma ForgottenAnswers(n: Net, stale: seq<u8>, length: nat)
    requires NetOk(n) && n.sock.listenPort >= 0 && n.bridge.open && !n.bridge.closed && n.bridge.rxLen == 0
    requires |stale| == APPDATA && length <= NET_BUF_SIZE
    ensures HandleRecv(Forgotten(n), 1, length, NoFrame, stale).status == NET_CLOSED
    ensures HandleRecv(Forgotten(n), 1, length, OtherFrame, stale).status == WOULD_BLOCK
  {
  }
}
