/** The two-endpoint theorem for the socket service: host B runs `sys_net.c` and
    `httpd.c`, and what its callback offers at every call meets the obligation the
    theorem puts on an application. */
module ServedStream {
  import opened Words
  import opened Tcp
  import opened Stack
  import opened Table
  import opened Endpoint
  import opened Composition
  import opened Platform
  import opened Socket
  import opened SocketStable
  import Prefix
  import Sender

  // --- The bytes in flight are the end of the submitted stream ---------------

  ghost predicate Streamed(o: Option<Conn>, m: Monitor, sub: seq<u8>) {
    o.Some? && o.value.state == ESTABLISHED && o.value.len > 0 && m.Flying? ==>
      o.value.len <= |sub| && sub[|sub| - o.value.len..] == m.bytes
  }

  /** System and service agree on host B. */
  ghost predicate Served(sys: System, n: Net, m: Monitor, c: Pair) {
    && SystemOk(sys, c) && Running(sys) && Joined(n, m, c.KeyB()) && sys.b.stack == n.stack
    && Streamed(Lookup(n.stack, c.KeyB()), m, sys.b.sub)
  }

  /** The slot an event is delivered to. */
  predicate SlotOf(s: Stack, e: Event, i: nat) {
    && i < |s.conns| && s.conns[i].state != CLOSED
    && match e
       case Input(seg, _) => i == FindConn(s.conns, KeyFor(seg), 0)
       case Timer(j, _) => i == j
       case PollConn(j, _) => i == j
       case _ => false
  }

  // --- The callback is honest ------------------------------------------------

  /** The acknowledgement flag is set on acknowledgements only. */
  lemma AckFlag(c: Conn, seg: Segment, host: u32)
    requires InputOk(seg) && c.state == ESTABLISHED && !Sender.Ends(seg)
    ensures var next := Receive(c, seg, host).1;
            next.Call? ==> next.goto == AppSend && (next.flags.ackdata <==> Acknowledges(c, seg))
  {
  }

  lemma TickFlag(c: Conn, host: u32)
    requires c.state == ESTABLISHED && c.len > 0
    ensures var next := Tick(c, host).1; next.Call? ==> !next.flags.ackdata
  {
  }

  /** What the callback leaves at a call with bytes in flight. */
  lemma ReplyHonest(s: Stack, e: Event, i: nat, b: Bridge, stale: seq<u8>, m: Monitor, sub: seq<u8>)
    requires StackOk(s) && EventOk(s, e) && SlotOf(s, e, i) && s.conns[i].state == ESTABLISHED
    requires Held(b, m) && InStep(s.conns[i], s.slen, m) && |stale| == APPDATA && e.r == ReplyFor(b, HalfOf(s, e), stale)
    requires Streamed(Some(s.conns[i]), m, sub) && (e.Input? ==> !Sender.Ends(e.seg))
    ensures Sender.Honest(Sender.InFlight(s.conns[i], e), e.r, sub)
  {
    var c, h := s.conns[i], HalfOf(s, e);
    HalfFromSlot(s, e, i);
    if Sender.InFlight(c, e) > 0 && h.next.Call? {
      match e {
        case Input(seg, _) => AckFlag(c, seg, s.host);
        case Timer(_, _) => TickFlag(c, s.host);
        case PollConn(_, _) =>
      }
      assert h.stack.slen == 0 && !h.next.flags.ackdata;
      if !m.Idle? {
        CallbackHonest(c, h.next.flags, b, stale, m, sub);
      }
    }
  }

  /** Every call of uip_process by the service is a legal move of host B. */
  lemma EventLegal(sys: System, n: Net, e: Event, stale: seq<u8>, m: Monitor, c: Pair)
    requires Served(sys, n, m, c) && CanProcess(n, e, stale, c.KeyB()) && (e.Input? ==> e.seg in sys.ab)
    ensures StackOk(sys.a.stack) && StackOk(sys.b.stack) && MoveOk(sys, AtB(e), c)
  {
    var k, s := c.KeyB(), n.stack;
    if Concerns(s, e, k) && Lookup(s, k).Some? && Lookup(s, k).value.state == ESTABLISHED {
      var i := if e.Input? then FindConn(s.conns, k, 0) else e.slot;
      LookupIs(s, k, i);
      ReplyHonest(s, e, i, n.bridge, stale, m, sys.b.sub);
    }
  }

  // --- A call keeps the account ----------------------------------------------

  /** Bytes are taken from the application only to be sent at once. */
  lemma TakenIsSent(c: Conn, host: u32, next: Next, slen: u16, seg: Segment, r: Reply)
    requires ReplyOk(r) && SizesOk(c)
    ensures var d := Finish(c, host, next, slen, seg, r); d.taken != [] ==> d.out.Some? && d.out.value.data != []
  {
  }

  lemma DataIsMine(c: Conn, host: u32, next: Next, slen: u16, seg: Segment, r: Reply)
    requires ReplyOk(r) && SizesOk(c) && (next.Transmit? ==> next.seg.data == [])
    ensures var d := Finish(c, host, next, slen, seg, r);
            d.out.Some? && d.out.value.data != [] ==> next.Call? && KeyOfOutput(d.out.value) == KeyOf(c)
  {
  }

  /** A trace without data segments leaves a flying monitor as it was, or it was
      interrupted. */
  lemma QuietTrace(m: Monitor, next: Next, out: Option<Segment>)
    requires out.Some? ==> out.value.data == []
    ensures var w := WatchAll(m, CallObservations(next) + OutObservation(out));
            w.Some? && w.value.Flying? ==> w.value == m && (next.Call? ==> !next.flags.connected && !next.flags.ackdata)
  {
    WatchAppend(m, CallObservations(next), OutObservation(out));
    if next.Call? {
      WatchAppend(m, if next.flags.connected then [Connected] else [], if next.flags.ackdata then [Observation.Acknowledged] else []);
    }
    WatchOne(m, Connected);
    WatchOne(m, Observation.Acknowledged);
    WatchOne(Watch(m, Connected).value, Observation.Acknowledged);
    var w1 := WatchAll(m, CallObservations(next));
    if out.Some? && w1.Some? {
      WatchOne(w1.value, Sent(out.value));
    }
  }

  lemma DataTrace(m: Monitor, next: Next, seg: Segment)
    requires seg.data != []
    ensures var w := WatchAll(m, CallObservations(next) + OutObservation(Some(seg)));
            w.Some? ==> w.value.Flying? && w.value.seqno == seg.seqno && w.value.bytes == seg.data
  {
    WatchAppend(m, CallObservations(next), OutObservation(Some(seg)));
    var w1 := WatchAll(m, CallObservations(next));
    if w1.Some? {
      WatchOne(w1.value, Sent(seg));
    }
  }

  /** A data segment of the stream that carries what is in flight carries its end. */
  lemma DataIsTail(seg: Segment, o: Conn, isn: u32, sub: seq<u8>)
    requires Prefix.FromPeer(seg, isn, sub) && seg.data != [] && Sender.Sending(Some(o), isn, sub) && |sub| < 0x1_0000_0000
    requires o.state == ESTABLISHED && seg.seqno == o.sndNxt && |seg.data| == o.len
    ensures o.len <= |sub| && sub[|sub| - o.len..] == seg.data
  {
    Sender.Offset(o, isn, sub);
    assert sub[|sub| - o.len..] == sub[|sub| - o.len..|sub| - o.len + |seg.data|];
  }

  /** The connection before and after, without a data segment in between. */
  lemma QuietStream(c: Conn, c1: Conn, next: Next, slen: u16, slen1: u16, o: Conn, m: Monitor, m1: Monitor, sub: seq<u8>)
    requires InStep(c, slen, m) && InStep(o, slen1, m1) && HalfFrom(c, c1, next) && Streamed(Some(c), m, sub)
    requires o.state == ESTABLISHED ==> c1.state == ESTABLISHED
    requires m1.Flying? ==> m1 == m && (next.Call? ==> !next.flags.connected && !next.flags.ackdata)
    ensures Streamed(Some(o), m1, sub)
  {
  }

  /** Only an established connection can be established after the call. */
  lemma StaysEstablished(c: Conn, host: u32, next: Next, slen: u16, seg: Segment, r: Reply)
    requires ReplyOk(r) && SizesOk(c)
    ensures Finish(c, host, next, slen, seg, r).conn.state == ESTABLISHED ==> c.state == ESTABLISHED
  {
  }

  /** One call on one connection. */
  lemma CallStream(c: Conn, c1: Conn, next: Next, d: Done, slen: u16, m: Monitor, m1: Monitor, isn: u32, sub: seq<u8>)
    requires InStep(c, slen, m) && HalfFrom(c, c1, next) && Streamed(Some(c), m, sub)
    requires WatchAll(m, CallObservations(next) + OutObservation(d.out)) == Some(m1) && InStep(d.conn, d.slen, m1)
    requires d.conn.state == ESTABLISHED ==> c1.state == ESTABLISHED
    requires d.taken != [] ==> d.out.Some? && d.out.value.data != []
    requires d.conn.state == ESTABLISHED && d.out.Some? && d.out.value.data != [] ==>
               && |sub + d.taken| < 0x1_0000_0000 && Prefix.FromPeer(d.out.value, isn, sub + d.taken)
               && Sender.Sending(Some(d.conn), isn, sub + d.taken)
    ensures Streamed(Some(d.conn), m1, sub + d.taken)
  {
    if d.out.Some? && d.out.value.data != [] {
      DataTrace(m, next, d.out.value);
      if d.conn.state == ESTABLISHED && d.conn.len > 0 {
        DataIsTail(d.out.value, d.conn, isn, sub + d.taken);
      }
    } else {
      QuietTrace(m, next, d.out);
      QuietStream(c, c1, next, slen, d.slen, d.conn, m, m1, sub);
      assert sub + d.taken == sub;
    }
  }

  function SegmentOf(e: Event): Segment { if e.Input? then e.seg else NOSEG }

  /** The second half of an event on slot `i`. */
  function DoneAt(s: Stack, e: Event, i: nat): Done
    requires StackOk(s) && EventOk(s, e) && SlotOf(s, e, i)
  {
    HalfSizes(s, e);
    HalfKeepsKey(s, e, i);
    var h := HalfOf(s, e);
    Finish(h.stack.conns[i], s.host, h.next, h.stack.slen, SegmentOf(e), e.r)
  }

  lemma StepIs(s: Stack, e: Event, i: nat)
    requires StackOk(s) && EventOk(s, e) && SlotOf(s, e, i)
    ensures var x, d := Step(s, e), DoneAt(s, e, i);
            && x.out == d.out && x.stack.slen == d.slen && x.stack.conns == s.conns[i := d.conn]
            && At(x, KeyOf(s.conns[i])).taken == d.taken
            && Lookup(x.stack, KeyOf(s.conns[i])) == Live(d.conn)
            && (d.out.Some? && d.out.value.data != [] ==> At(x, KeyOf(s.conns[i])).out == d.out)
  {
    HalfKeepsKey(s, e, i);
    HalfFromSlot(s, e, i);
    SlotKeeps(s, e, i);
    StepKeeps(s, e);
    var h, x := HalfOf(s, e), Step(s, e);
    ReplaceLookup(s, x.stack, i, x.stack.conns[i], KeyOf(s.conns[i]));
    DataIsMine(h.stack.conns[i], s.host, h.next, h.stack.slen, SegmentOf(e), e.r);
  }

  lemma SlotStream(s: Stack, e: Event, i: nat, m: Monitor, m1: Monitor, sub: seq<u8>, sys1: System, c: Pair)
    requires StackOk(s) && EventOk(s, e) && SlotOf(s, e, i) && KeyOf(s.conns[i]) == c.KeyB()
    requires InStep(s.conns[i], s.slen, m) && Streamed(Some(s.conns[i]), m, sub)
    requires WatchAll(m, CallObservations(HalfOf(s, e).next) + OutObservation(Step(s, e).out)) == Some(m1)
    requires InStep(DoneAt(s, e, i).conn, DoneAt(s, e, i).slen, m1)
    requires SystemOk(sys1, c) && Running(sys1) && sys1.b.stack == Step(s, e).stack
    requires var x := At(Step(s, e), c.KeyB()); sys1.b.sub == sub + x.taken && (x.out.Some? ==> x.out.value in sys1.ba)
    ensures Streamed(Lookup(Step(s, e).stack, c.KeyB()), m1, sys1.b.sub)
  {
    var d, h := DoneAt(s, e, i), HalfOf(s, e);
    HalfFromSlot(s, e, i);
    StepIs(s, e, i);
    TakenIsSent(h.stack.conns[i], s.host, h.next, h.stack.slen, SegmentOf(e), e.r);
    StaysEstablished(h.stack.conns[i], s.host, h.next, h.stack.slen, SegmentOf(e), e.r);
    if d.conn.state == ESTABLISHED {
      if d.out.Some? && d.out.value.data != [] {
        OkStream(sys1, c, d.out.value);
      }
      CallStream(s.conns[i], h.stack.conns[i], h.next, d, s.slen, m, m1, sys1.b.isn, sub);
    }
  }

  lemma EventStream(sys: System, n: Net, e: Event, stale: seq<u8>, m: Monitor, c: Pair, i: nat)
    requires Served(sys, n, m, c) && CanProcess(n, e, stale, c.KeyB()) && MoveOk(sys, AtB(e), c) && SlotOf(n.stack, e, i)
    requires SystemOk(SystemAfter(sys, AtB(e), c), c) && Running(SystemAfter(sys, AtB(e), c))
    requires HalfOf(n.stack, e).next.Call? ==> |HalfOf(n.stack, e).next.data| <= UIP_BUFSIZE
    requires var w := WatchAll(m, Process(n, e, stale).trace); w.Some? && Joined(Process(n, e, stale).net, w.value, c.KeyB())
    ensures Streamed(Lookup(Step(n.stack, e).stack, c.KeyB()), WatchAll(m, Process(n, e, stale).trace).value, SystemAfter(sys, AtB(e), c).b.sub)
  {
    LookupIs(n.stack, c.KeyB(), i);
    StepIs(n.stack, e, i);
    SlotStream(n.stack, e, i, m, WatchAll(m, Process(n, e, stale).trace).value, sys.b.sub, SystemAfter(sys, AtB(e), c), c);
  }

  lemma HalfKeepsKey(s: Stack, e: Event, i: nat)
    requires StackOk(s) && EventOk(s, e) && SlotOf(s, e, i)
    ensures HalfOf(s, e).slot == i && |HalfOf(s, e).stack.conns| == |s.conns| && KeyOf(HalfOf(s, e).stack.conns[i]) == KeyOf(s.conns[i])
  {
    if e.Input? {
      ReceiveKeepsKey(s.conns[i], e.seg, s.host);
    }
  }

  /** What the system invariant says about B's side. */
  lemma OkStream(sys: System, c: Pair, seg: Segment)
    requires SystemOk(sys, c) && seg in sys.ba && seg.data != []
    ensures Prefix.FromPeer(seg, sys.b.isn, sys.b.sub) && Sender.Sending(Lookup(sys.b.stack, c.KeyB()), sys.b.isn, sys.b.sub)
  {
  }

  /** A segment for a key without a connection establishes nothing. */
  lemma NewStream(sys: System, n: Net, e: Event, stale: seq<u8>, m: Monitor, m1: Monitor, c: Pair)
    requires Served(sys, n, m, c) && CanProcess(n, e, stale, c.KeyB())
    requires e.Input? && FindConn(n.stack.conns, c.KeyB(), 0) == |n.stack.conns|
    ensures forall sub :: Streamed(Lookup(Step(n.stack, e).stack, c.KeyB()), m1, sub)
  {
    NewLookup(n.stack, e, c.KeyB());
  }

  /** A timer or poll event on a closed slot changes no connection. */
  lemma ClosedStep(s: Stack, e: Event, k: Key)
    requires StackOk(s) && EventOk(s, e) && (e.Timer? || e.PollConn?) && s.conns[e.slot].state == CLOSED
    ensures Lookup(Step(s, e).stack, k) == Lookup(s, k) && At(Step(s, e), k).taken == []
  {
    assert Step(s, e).stack.conns == s.conns;
  }

  lemma ClosedStream(sys: System, n: Net, e: Event, stale: seq<u8>, m: Monitor, c: Pair)
    requires Served(sys, n, m, c) && CanProcess(n, e, stale, c.KeyB()) && MoveOk(sys, AtB(e), c)
    requires (e.Timer? || e.PollConn?) && n.stack.conns[e.slot].state == CLOSED
    ensures Streamed(Lookup(Step(n.stack, e).stack, c.KeyB()), m, SystemAfter(sys, AtB(e), c).b.sub)
  {
    ClosedStep(n.stack, e, c.KeyB());
    assert sys.b.sub + [] == sys.b.sub;
  }

  /** One call of uip_process by the service. */
  lemma EventServed(sys: System, n: Net, e: Event, stale: seq<u8>, m: Monitor, c: Pair)
    requires Served(sys, n, m, c) && CanProcess(n, e, stale, c.KeyB()) && (e.Input? ==> e.seg in sys.ab)
    requires EventOk(sys.b.stack, e) && Running(BAfter(sys, e, c))
    ensures HalfOf(n.stack, e).next.Call? ==> |HalfOf(n.stack, e).next.data| <= UIP_BUFSIZE
    ensures var p := Process(n, e, stale);
            var w := WatchAll(m, p.trace);
            w.Some? && Served(BAfter(sys, e, c), p.net, w.value, c) && p.net.sock == n.sock
  {
    EventLegal(sys, n, e, stale, m, c);
    MoveKeeps(sys, AtB(e), c);
    ProcessLinked(n, e, stale, m, c.KeyB());
    var i := if e.Input? then FindConn(n.stack.conns, c.KeyB(), 0) else e.slot;
    if SlotOf(n.stack, e, i) {
      EventStream(sys, n, e, stale, m, c, i);
    } else if e.Input? {
      NewStream(sys, n, e, stale, m, WatchAll(m, Process(n, e, stale).trace).value, c);
    } else {
      ProcessClosed(n, e, stale, m, c.KeyB());
      ClosedStream(sys, n, e, stale, m, c);
    }
  }

  // --- The system under one turn of the service ------------------------------

  /** Host B processes one event. */
  function BAfter(sys: System, e: Event, c: Pair): (r: System)
    requires StackOk(sys.b.stack) && EventOk(sys.b.stack, e)
    ensures StackOk(r.b.stack) && r.b.stack == Step(sys.b.stack, e).stack && r.a == sys.a && r.ab == sys.ab
  {
    StepKeeps(sys.b.stack, e);
    sys.(b := HostAfter(sys.b, e, c.KeyB()), ba := sys.ba + Emitted(sys.b, e, c.KeyB()))
  }

  lemma BRunning(sys: System, e: Event, c: Pair)
    requires StackOk(sys.b.stack) && EventOk(sys.b.stack, e) && Running(BAfter(sys, e, c))
    ensures Running(sys)
  {
    assert sys.ba <= BAfter(sys, e, c).ba;
  }

  /** net_poll. */
  function PolledSystem(sys: System, n: Net, f: Frame, stale: seq<u8>, c: Pair): (r: System)
    requires NetOk(n) && sys.b.stack == n.stack && |stale| == APPDATA && (f.TcpFrame? ==> InputOk(f.seg))
    ensures r.b.stack == NetPoll(n, f, stale).net.stack
  {
    if f.TcpFrame? then BAfter(sys, InputOf(n, f.seg, stale), c) else sys
  }

  /** kick_active_connection. */
  function KickedSystem(sys: System, n: Net, stale: seq<u8>, c: Pair): (r: System)
    requires NetOk(n) && sys.b.stack == n.stack && |stale| == APPDATA
    ensures r.b.stack == Kick(n, stale).net.stack
  {
    var i := FindActive(n.stack.conns, ListenKey(n), 0);
    if n.sock.listenPort < 0 || i == |n.stack.conns| then sys else BAfter(sys, PollOf(n, i, stale), c)
  }

  lemma PolledServed(sys: System, n: Net, f: Frame, stale: seq<u8>, m: Monitor, c: Pair)
    requires Served(sys, n, m, c) && Synced(n) && FrameOk(f, c.KeyB()) && |stale| == APPDATA
    requires f.TcpFrame? ==> f.seg in sys.ab
    requires Running(PolledSystem(sys, n, f, stale, c))
    ensures var p := NetPoll(n, f, stale);
            var w := WatchAll(m, p.trace);
            w.Some? && Served(PolledSystem(sys, n, f, stale, c), p.net, w.value, c) && Synced(p.net)
  {
    NetPollLinked(n, f, stale, m, c.KeyB());
    if f.TcpFrame? {
      EventServed(sys, n, InputOf(n, f.seg, stale), stale, m, c);
    }
  }

  lemma KickedServed(sys: System, n: Net, stale: seq<u8>, m: Monitor, c: Pair)
    requires Served(sys, n, m, c) && Synced(n) && |stale| == APPDATA && Running(KickedSystem(sys, n, stale, c))
    ensures var p := Kick(n, stale);
            var w := WatchAll(m, p.trace);
            w.Some? && Served(KickedSystem(sys, n, stale, c), p.net, w.value, c) && Synced(p.net)
  {
    KickLinked(n, stale, m, c.KeyB());
    var i := FindActive(n.stack.conns, ListenKey(n), 0);
    if n.sock.listenPort >= 0 && i < |n.stack.conns| {
      EventServed(sys, n, PollOf(n, i, stale), stale, m, c);
    }
  }

  function SendSystem(sys: System, n: Net, conn: int, data: seq<u8>, f: Frame, stale: seq<u8>, later: seq<u8>, c: Pair): (r: System)
    requires NetOk(n) && sys.b.stack == n.stack && |stale| == |later| == APPDATA && (f.TcpFrame? ==> InputOk(f.seg)) && |data| <= APPDATA_SIZE
    ensures r.b.stack == HandleSend(n, conn, data, f, stale, later).net.stack
  {
    var s1, q := PolledSystem(sys, n, f, stale, c), NetPoll(n, f, stale).net;
    if ConnValid(q.sock, conn) && !q.sock.txPending then KickedSystem(s1, Taken(q, data), later, c) else s1
  }

  function CloseSystem(sys: System, n: Net, conn: int, f: Frame, stale: seq<u8>, later: seq<u8>, c: Pair): (r: System)
    requires NetOk(n) && sys.b.stack == n.stack && |stale| == |later| == APPDATA && (f.TcpFrame? ==> InputOk(f.seg))
    ensures r.b.stack == HandleClose(n, conn, f, stale, later).net.stack
  {
    var s1, q := PolledSystem(sys, n, f, stale, c), NetPoll(n, f, stale).net;
    if ConnValid(q.sock, conn) then KickedSystem(s1, CloseRequested(q), later, c) else s1
  }

  /** The system after one message of the service's main loop. */
  function TurnSystem(sys: System, n: Net, t: Turn, c: Pair): (r: System)
    requires NetOk(n) && sys.b.stack == n.stack && TurnOk(t, c.KeyB())
    ensures r.b.stack == Handle(n, t.request, t.frame, t.stale, t.later).net.stack
  {
    match t.request
    case SockListen(port) => if port <= 0 then sys else BAfter(sys, ListenOn(Htons(Low16(port))), c)
    case SockAccept => PolledSystem(sys, n, t.frame, t.stale, c)
    case SockRecv(_, _) => PolledSystem(sys, n, t.frame, t.stale, c)
    case SockSend(conn, data) => SendSystem(sys, n, conn, data, t.frame, t.stale, t.later, c)
    case SockClose(conn) => CloseSystem(sys, n, conn, t.frame, t.stale, t.later, c)
    case Periodic(i) => BAfter(sys, TimerOf(n, i, t.stale), c)
  }

  lemma KickedRunning(sys: System, n: Net, stale: seq<u8>, c: Pair)
    requires NetOk(n) && sys.b.stack == n.stack && |stale| == APPDATA && Running(KickedSystem(sys, n, stale, c))
    ensures Running(sys)
  {
    var i := FindActive(n.stack.conns, ListenKey(n), 0);
    if n.sock.listenPort >= 0 && i < |n.stack.conns| {
      BRunning(sys, PollOf(n, i, stale), c);
    }
  }

  lemma PolledRunning(sys: System, n: Net, f: Frame, stale: seq<u8>, c: Pair)
    requires NetOk(n) && sys.b.stack == n.stack && |stale| == APPDATA && (f.TcpFrame? ==> InputOk(f.seg))
    requires Running(PolledSystem(sys, n, f, stale, c))
    ensures Running(sys)
  {
    if f.TcpFrame? {
      BRunning(sys, InputOf(n, f.seg, stale), c);
    }
  }

  ghost predicate CanTurn(sys: System, n: Net, t: Turn, m: Monitor, c: Pair) {
    && Served(sys, n, m, c) && Synced(n) && TurnOk(t, c.KeyB()) && (t.frame.TcpFrame? ==> t.frame.seg in sys.ab)
    && Running(TurnSystem(sys, n, t, c))
  }

  /** What remains to be shown of a handler beyond the bridge invariant. */
  ghost predicate TurnServes(sys: System, n: Net, t: Turn, m: Monitor, c: Pair)
    requires NetOk(n) && sys.b.stack == n.stack && TurnOk(t, c.KeyB())
  {
    Accounts(TurnSystem(sys, n, t, c), Handle(n, t.request, t.frame, t.stale, t.later), m, c)
  }

  lemma ListenServes(sys: System, n: Net, t: Turn, m: Monitor, c: Pair)
    requires CanTurn(sys, n, t, m, c) && t.request.SockListen?
    ensures TurnServes(sys, n, t, m, c)
  {
    var port := t.request.port;
    if port > 0 {
      WatchOne(m, Listening);
      MoveKeeps(sys, AtB(ListenOn(Htons(Low16(port)))), c);
    }
  }

  /** System and service after a handler with this trace. */
  ghost predicate Accounts(sys: System, h: Handled, m: Monitor, c: Pair) {
    var w := WatchAll(m, h.trace);
    w.Some? && SystemOk(sys, c) && Streamed(Lookup(h.net.stack, c.KeyB()), w.value, sys.b.sub)
  }

  /** The kick after a request was taken. */
  lemma SubmitServed(s1: System, q: Net, data: seq<u8>, later: seq<u8>, m: Monitor, c: Pair)
    requires Served(s1, q, m, c) && Synced(q) && q.sock.open && !q.sock.txPending && |data| <= APPDATA_SIZE && |later| == APPDATA
    requires Running(KickedSystem(s1, Taken(q, data), later, c))
    ensures m.Idle?
    ensures var k := Kick(Taken(q, data), later);
            var w := WatchAll(Waiting(data), k.trace);
            w.Some? && Served(KickedSystem(s1, Taken(q, data), later, c), k.net, w.value, c)
  {
    TakenJoined(q, data, m, c.KeyB());
    KickedServed(s1, Taken(q, data), later, Waiting(data), c);
  }

  lemma SendAccounts(sys: System, n: Net, conn: int, data: seq<u8>, f: Frame, stale: seq<u8>, later: seq<u8>, m: Monitor, c: Pair)
    requires Served(sys, n, m, c) && Synced(n) && FrameOk(f, c.KeyB()) && (f.TcpFrame? ==> f.seg in sys.ab)
    requires |stale| == |later| == APPDATA && |data| <= APPDATA_SIZE
    requires Running(SendSystem(sys, n, conn, data, f, stale, later, c))
    ensures Accounts(SendSystem(sys, n, conn, data, f, stale, later, c), HandleSend(n, conn, data, f, stale, later), m, c)
  {
    var s1, p := PolledSystem(sys, n, f, stale, c), NetPoll(n, f, stale);
    if ConnValid(p.net.sock, conn) && !p.net.sock.txPending {
      KickedRunning(s1, Taken(p.net, data), later, c);
      PolledServed(sys, n, f, stale, m, c);
      SubmitServed(s1, p.net, data, later, WatchAll(m, p.trace).value, c);
      WatchTaken(m, p.trace, data, Kick(Taken(p.net, data), later).trace);
    } else {
      PolledServed(sys, n, f, stale, m, c);
    }
  }

  /** The kick after a close was requested. */
  lemma ClosingServed(s1: System, q: Net, later: seq<u8>, m: Monitor, c: Pair)
    requires Served(s1, q, m, c) && Synced(q) && |later| == APPDATA
    requires Running(KickedSystem(s1, CloseRequested(q), later, c))
    ensures var k := Kick(CloseRequested(q), later);
            var w := WatchAll(m, k.trace);
            w.Some? && Served(KickedSystem(s1, CloseRequested(q), later, c), k.net, w.value, c)
  {
    ClosingJoined(q, m, c.KeyB());
    KickedServed(s1, CloseRequested(q), later, m, c);
  }

  lemma CloseAccounts(sys: System, n: Net, conn: int, f: Frame, stale: seq<u8>, later: seq<u8>, m: Monitor, c: Pair)
    requires Served(sys, n, m, c) && Synced(n) && FrameOk(f, c.KeyB()) && (f.TcpFrame? ==> f.seg in sys.ab)
    requires |stale| == |later| == APPDATA && Running(CloseSystem(sys, n, conn, f, stale, later, c))
    ensures Accounts(CloseSystem(sys, n, conn, f, stale, later, c), HandleClose(n, conn, f, stale, later), m, c)
  {
    var s1, p := PolledSystem(sys, n, f, stale, c), NetPoll(n, f, stale);
    if ConnValid(p.net.sock, conn) {
      KickedRunning(s1, CloseRequested(p.net), later, c);
      PolledServed(sys, n, f, stale, m, c);
      ClosingServed(s1, p.net, later, WatchAll(m, p.trace).value, c);
      WatchAppend(m, p.trace, Kick(CloseRequested(p.net), later).trace);
    } else {
      PolledServed(sys, n, f, stale, m, c);
    }
  }

  lemma AcceptAccounts(sys: System, n: Net, f: Frame, stale: seq<u8>, m: Monitor, c: Pair)
    requires Served(sys, n, m, c) && Synced(n) && FrameOk(f, c.KeyB()) && (f.TcpFrame? ==> f.seg in sys.ab)
    requires |stale| == APPDATA && Running(PolledSystem(sys, n, f, stale, c))
    ensures Accounts(PolledSystem(sys, n, f, stale, c), HandleAccept(n, f, stale), m, c)
  {
    PolledServed(sys, n, f, stale, m, c);
  }

  lemma RecvAccounts(sys: System, n: Net, conn: int, length: nat, f: Frame, stale: seq<u8>, m: Monitor, c: Pair)
    requires Served(sys, n, m, c) && Synced(n) && FrameOk(f, c.KeyB()) && (f.TcpFrame? ==> f.seg in sys.ab)
    requires |stale| == APPDATA && length <= NET_BUF_SIZE && Running(PolledSystem(sys, n, f, stale, c))
    ensures Accounts(PolledSystem(sys, n, f, stale, c), HandleRecv(n, conn, length, f, stale), m, c)
  {
    PolledServed(sys, n, f, stale, m, c);
    RecvNet(n, conn, length, f, stale);
  }

  lemma TimerAccounts(sys: System, n: Net, i: nat, stale: seq<u8>, m: Monitor, c: Pair)
    requires Served(sys, n, m, c) && i < CONNS && |stale| == APPDATA && Running(BAfter(sys, TimerOf(n, i, stale), c))
    ensures Accounts(BAfter(sys, TimerOf(n, i, stale), c), HandleTimer(n, i, stale), m, c)
  {
    EventServed(sys, n, TimerOf(n, i, stale), stale, m, c);
  }

  /** Every turn of the service keeps the account of the two hosts. */
  lemma TurnServed(sys: System, n: Net, t: Turn, m: Monitor, c: Pair)
    requires CanTurn(sys, n, t, m, c)
    ensures var h := Handle(n, t.request, t.frame, t.stale, t.later);
            var w := WatchAll(m, h.trace);
            w.Some? && Served(TurnSystem(sys, n, t, c), h.net, w.value, c) && Synced(h.net)
  {
    HandleLinked(n, t.request, t.frame, t.stale, t.later, m, c.KeyB());
    match t.request
    case SockListen(_) => ListenServes(sys, n, t, m, c);
    case SockAccept => AcceptAccounts(sys, n, t.frame, t.stale, m, c);
    case SockRecv(conn, length) => RecvAccounts(sys, n, conn, length, t.frame, t.stale, m, c);
    case SockSend(conn, data) => SendAccounts(sys, n, conn, data, t.frame, t.stale, t.later, m, c);
    case SockClose(conn) => CloseAccounts(sys, n, conn, t.frame, t.stale, t.later, m, c);
    case Periodic(i) => TimerAccounts(sys, n, i, t.stale, m, c);
  }

  // --- Runs ------------------------------------------------------------------

  /** The peer processes an event, or the service handles a message. */
  datatype Act = Peer(e: Event) | Service(t: Turn)

  datatype State = State(sys: System, net: Net)

  /** The peer's application is arbitrary within uIP's contract; nothing is asked
      of the service. */
  ghost predicate Acts(x: State, a: Act, y: State, c: Pair) {
    && NetOk(x.net) && StackOk(x.sys.a.stack) && x.sys.b.stack == x.net.stack
    && match a
       case Peer(e) => MoveOk(x.sys, AtA(e), c) && y == State(SystemAfter(x.sys, AtA(e), c), x.net)
       case Service(t) =>
         && TurnOk(t, c.KeyB()) && (t.frame.TcpFrame? ==> t.frame.seg in x.sys.ab)
         && y == State(TurnSystem(x.sys, x.net, t, c), Handle(x.net, t.request, t.frame, t.stale, t.later).net)
  }

  ghost predicate ServedState(x: State, c: Pair) {
    Synced(x.net) && exists m :: Served(x.sys, x.net, m, c)
  }

  lemma PeerServed(sys: System, n: Net, e: Event, m: Monitor, c: Pair)
    requires Served(sys, n, m, c) && MoveOk(sys, AtA(e), c) && Running(SystemAfter(sys, AtA(e), c))
    ensures Served(SystemAfter(sys, AtA(e), c), n, m, c)
  {
    MoveKeeps(sys, AtA(e), c);
  }

  lemma ActServed(x: State, a: Act, y: State, c: Pair)
    requires Acts(x, a, y, c) && ServedState(x, c) && Running(y.sys)
    ensures ServedState(y, c)
  {
    var m :| Served(x.sys, x.net, m, c);
    match a
    case Peer(e) => PeerServed(x.sys, x.net, e, m, c);
    case Service(t) => TurnServed(x.sys, x.net, t, m, c);
  }

  ghost predicate ActsAt(xs: seq<State>, acts: seq<Act>, c: Pair, i: nat) {
    i < |acts| && i + 1 < |xs| && Acts(xs[i], acts[i], xs[i + 1], c)
  }

  ghost predicate ServedExecution(xs: seq<State>, acts: seq<Act>, c: Pair) {
    |xs| == |acts| + 1 && forall i: nat | i < |acts| :: ActsAt(xs, acts, c, i)
  }

  /** A peer without a connection between these ports, and the service as `main`
      starts it. */
  ghost predicate ServedStart(x: State, host: u32, rx: seq<u8>, hrx: seq<u8>, htx: seq<u8>, c: Pair) {
    && |rx| == NET_BUF_SIZE && |hrx| == UIP_BUFSIZE && |htx| == UIP_BUFSIZE
    && Start(x.sys, c) && x.net == InitialNet(host, rx, hrx, htx) && x.sys.b.stack == x.net.stack
  }

  lemma SendRunning(sys: System, n: Net, conn: int, data: seq<u8>, f: Frame, stale: seq<u8>, later: seq<u8>, c: Pair)
    requires NetOk(n) && sys.b.stack == n.stack && |stale| == |later| == APPDATA && (f.TcpFrame? ==> InputOk(f.seg)) && |data| <= APPDATA_SIZE
    requires Running(SendSystem(sys, n, conn, data, f, stale, later, c))
    ensures Running(sys)
  {
    var s1, q := PolledSystem(sys, n, f, stale, c), NetPoll(n, f, stale).net;
    if ConnValid(q.sock, conn) && !q.sock.txPending {
      KickedRunning(s1, Taken(q, data), later, c);
    }
    PolledRunning(sys, n, f, stale, c);
  }

  lemma CloseRunning(sys: System, n: Net, conn: int, f: Frame, stale: seq<u8>, later: seq<u8>, c: Pair)
    requires NetOk(n) && sys.b.stack == n.stack && |stale| == |later| == APPDATA && (f.TcpFrame? ==> InputOk(f.seg))
    requires Running(CloseSystem(sys, n, conn, f, stale, later, c))
    ensures Running(sys)
  {
    var s1, q := PolledSystem(sys, n, f, stale, c), NetPoll(n, f, stale).net;
    if ConnValid(q.sock, conn) {
      KickedRunning(s1, CloseRequested(q), later, c);
    }
    PolledRunning(sys, n, f, stale, c);
  }

  lemma TurnRunning(sys: System, n: Net, t: Turn, c: Pair)
    requires NetOk(n) && sys.b.stack == n.stack && TurnOk(t, c.KeyB()) && Running(TurnSystem(sys, n, t, c))
    ensures Running(sys)
  {
    match t.request
    case SockListen(port) => if port > 0 { BRunning(sys, ListenOn(Htons(Low16(port))), c); }
    case SockAccept => PolledRunning(sys, n, t.frame, t.stale, c);
    case SockRecv(_, _) => PolledRunning(sys, n, t.frame, t.stale, c);
    case SockSend(conn, data) => SendRunning(sys, n, conn, data, t.frame, t.stale, t.later, c);
    case SockClose(conn) => CloseRunning(sys, n, conn, t.frame, t.stale, t.later, c);
    case Periodic(i) => BRunning(sys, TimerOf(n, i, t.stale), c);
  }

  lemma ActRunning(x: State, a: Act, y: State, c: Pair)
    requires Acts(x, a, y, c) && Running(y.sys)
    ensures Running(x.sys)
  {
    match a
    case Peer(e) => RunningBefore(x.sys, AtA(e), y.sys, c);
    case Service(t) => TurnRunning(x.sys, x.net, t, c);
  }

  lemma StartServed(x: State, host: u32, rx: seq<u8>, hrx: seq<u8>, htx: seq<u8>, c: Pair)
    requires ServedStart(x, host, rx, hrx, htx, c) && Running(x.sys)
    ensures ServedState(x, c)
  {
    InitialJoined(host, rx, hrx, htx, c.KeyB());
    FreshEitherWay(x.sys, c);
    assert Served(x.sys, x.net, Idle, c);
  }

  lemma {:induction false} ExecutionServed(xs: seq<State>, acts: seq<Act>, c: Pair, n: nat,
                                           host: u32, rx: seq<u8>, hrx: seq<u8>, htx: seq<u8>)
    requires ServedExecution(xs, acts, c) && n < |xs| && ServedStart(xs[0], host, rx, hrx, htx, c) && Running(xs[n].sys)
    ensures ServedState(xs[n], c)
  {
    if n == 0 {
      StartServed(xs[0], host, rx, hrx, htx, c);
    } else {
      assert ActsAt(xs, acts, c, n - 1);
      ActRunning(xs[n - 1], acts[n - 1], xs[n], c);
      ExecutionServed(xs, acts, c, n - 1, host, rx, hrx, htx);
      ActServed(xs[n - 1], acts[n - 1], xs[n], c);
    }
  }

  /** The end-to-end guarantee for the socket service: in every execution of the
      service with a peer, whatever messages it handles and whatever the network
      does, until the first FIN or RST acknowledged bytes are a prefix of delivered
      bytes and these of submitted bytes, in both directions. */
  lemma ServiceEndToEnd(xs: seq<State>, acts: seq<Act>, c: Pair, n: nat, host: u32, rx: seq<u8>, hrx: seq<u8>, htx: seq<u8>)
    requires ServedExecution(xs, acts, c) && n < |xs| && ServedStart(xs[0], host, rx, hrx, htx, c) && Running(xs[n].sys)
    ensures InOrder(Lookup(xs[n].sys.b.stack, c.KeyB()), xs[n].sys.b.sub, xs[n].sys.a.del)
    ensures InOrder(Lookup(xs[n].sys.a.stack, c.KeyA()), xs[n].sys.a.sub, xs[n].sys.b.del)
  {
    ExecutionServed(xs, acts, c, n, host, rx, hrx, htx);
    OkInOrder(xs[n].sys, c);
  }
}
