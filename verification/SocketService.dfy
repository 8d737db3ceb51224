/** httpd.c and sys_net.c in memory: the callback and the handlers update their
    two copies of the socket state in place. */
module SocketService {
  import opened Platform
  import opened Words
  import opened Tcp
  import opened Stack
  import opened Table
  import opened Socket
  import opened UipEngine
  import PacketBuffer

  /** memcpy to the start of a buffer. */
  method Memcpy(buf: array<u8>, s: seq<u8>)
    requires |s| <= buf.Length
    modifies buf
    ensures buf[..] == Overwrite(old(buf[..]), s)
  {
    PacketBuffer.Put(buf, 0, s);
    assert buf[..] == buf[..|s|] + buf[|s|..];
  }

  /** httpd_socket_*. */
  class Callback {
    var open: bool
    var pending: bool
    var closed: bool
    var rxLen: nat
    const rxBuf: array<u8>
    var txLen: nat
    var txPending: bool
    const txBuf: array<u8>
    var closePending: bool

    ghost function Value(): Bridge
      reads this, rxBuf, txBuf
    {
      Bridge(open, pending, closed, rxLen, rxBuf[..], txLen, txPending, txBuf[..], closePending)
    }

    ghost predicate Valid()
      reads this, rxBuf, txBuf
    {
      rxBuf.Length == UIP_BUFSIZE && txBuf.Length == UIP_BUFSIZE && rxBuf != txBuf && BridgeOk(Value())
    }

    constructor ()
      ensures Valid() && fresh(rxBuf) && fresh(txBuf)
      ensures !open && !pending && !closed && rxLen == 0 && txLen == 0 && !txPending && !closePending
    {
      rxBuf := new u8[UIP_BUFSIZE](_ => 0);
      txBuf := new u8[UIP_BUFSIZE](_ => 0);
      open, pending, closed, rxLen, txLen, txPending, closePending := false, false, false, 0, 0, false, false;
    }

    /** Lines 27-34: keep the newest payload. */
    method Receive(data: seq<u8>)
      requires Valid() && |data| <= UIP_BUFSIZE
      modifies this`rxLen, rxBuf
      ensures Value() == old(Value()).(rxLen := |data|, rxBuf := Overwrite(old(rxBuf[..]), data))
    {
      Memcpy(rxBuf, data);
      rxLen := |data|;
    }

    /** Lines 15-39: take note of the event. */
    method Notice(f: Flags, data: seq<u8>)
      requires Valid() && |data| <= UIP_BUFSIZE
      modifies this, rxBuf
      ensures Valid() && Value() == Observe(old(Value()), f, data).(closePending := old(closePending))
    {
      if f.connected {
        open, pending, closed := true, true, false;
      }
      if f.close || f.abort || f.timedout {
        open, pending, closed := false, false, true;
      }
      if f.newdata {
        Receive(data);
      }
      if f.ackdata {
        txPending, txLen := false, 0;
      }
    }

    /** httpd_appcall; `slen` and `app` are uip_slen and the packet buffer. */
    method AppCall(f: Flags, data: seq<u8>, slen: u16, app: seq<u8>) returns (r: Reply)
      requires Valid() && |data| <= UIP_BUFSIZE && |app| == APPDATA
      modifies this, rxBuf
      ensures Valid() && Value() == Observe(old(Value()), f, data)
      ensures r == CallbackReply(old(Value()), f, slen, app)
    {
      var g := f;
      Notice(f, data);
      assert txBuf[..] == old(txBuf[..]);
      if closePending {
        g := CLOSE_FLAG;
        closePending := false;
      }
      if txPending && (g.poll || g.ackdata || g.rexmit || g.newdata) && txLen > 0 {
        r := Reply(g, txLen, Overwrite(app, txBuf[..txLen]));
      } else {
        r := Reply(g, slen, app);
      }
    }
  }

  /** The state of the service process. */
  class Service {
    const uip: Uip
    const bridge: Callback
    var listenPort: int
    var open: bool
    var pending: bool
    var closed: bool
    var rxLen: nat
    const rxBuf: array<u8>
    var txLen: nat
    var txPending: bool

    ghost function SockValue(): Sock
      reads this, rxBuf
    {
      Sock(listenPort, open, pending, closed, rxLen, rxBuf[..], txLen, txPending)
    }

    ghost function Value(): Net
      reads this, rxBuf, uip, uip.conns, uip.listening, bridge, bridge.rxBuf, bridge.txBuf
    {
      Net(uip.Value(), bridge.Value(), SockValue())
    }

    ghost predicate Valid()
      reads this, rxBuf, uip, uip.conns, uip.listening, bridge, bridge.rxBuf, bridge.txBuf
    {
      && uip.Valid() && bridge.Valid() && rxBuf.Length == NET_BUF_SIZE
      && rxBuf != bridge.rxBuf && rxBuf != bridge.txBuf
      && uip.listening as object != rxBuf && uip.listening as object != bridge.rxBuf && uip.listening as object != bridge.txBuf
      && uip.conns as object != rxBuf && uip.conns as object != bridge.rxBuf && uip.conns as object != bridge.txBuf
      && uip.conns as object != uip.listening
    }

    /** The start of `main`. */
    constructor (host: u32)
      ensures Valid() && fresh(uip) && fresh(bridge) && fresh(rxBuf)
      ensures listenPort == -1 && !open && !pending && !closed && rxLen == 0 && txLen == 0 && !txPending
      ensures uip.Value() == Initial(host) && !bridge.open && !bridge.txPending && !bridge.closePending
    {
      uip := new Uip(host);
      bridge := new Callback();
      rxBuf := new u8[NET_BUF_SIZE](_ => 0);
      listenPort, open, pending, closed, rxLen, txLen, txPending := -1, false, false, false, 0, 0, false;
    }

    lemma ValidIsOk()
      requires Valid()
      ensures NetOk(Value())
    {
    }

    /** Lines 68-75: move the received bytes over. */
    method TakeReceived()
      requires Valid()
      modifies this`rxLen, rxBuf, bridge`rxLen
      ensures Valid()
      ensures Value() == old(Value()).(sock := old(SockValue()).(rxLen := old(bridge.rxLen), rxBuf := Overwrite(old(rxBuf[..]), old(bridge.rxBuf[..bridge.rxLen]))),
                                       bridge := old(bridge.Value()).(rxLen := 0))
    {
      rxLen := bridge.rxLen;
      Memcpy(rxBuf, bridge.rxBuf[..rxLen]);
      bridge.rxLen := 0;
    }

    /** sync_socket_state. */
    method SyncSocketState()
      requires Valid()
      modifies this`open, this`pending, this`closed, this`rxLen, this`txPending, rxBuf, bridge`rxLen
      ensures Valid() && Value() == Sync(old(Value()))
    {
      open, pending, closed, txPending := bridge.open, bridge.pending, bridge.closed, bridge.txPending;
      if bridge.rxLen > 0 {
        TakeReceived();
      }
    }

    /** The application call and the rest of uip_process, with `app` the packet
        buffer at uip_appdata. */
    method Finish(slot: nat, next: Next, seg: Segment, app: seq<u8>) returns (out: Option<Segment>, ghost r: Reply)
      requires bridge.Valid() && |app| == APPDATA && uip.conns.Length == CONNS
      requires slot < CONNS ==> SizesOk(uip.conns[slot])
      requires next.Call? ==> |next.data| <= UIP_BUFSIZE
      requires uip.conns as object != bridge.rxBuf && uip.listening as object != bridge.rxBuf && uip.conns as object != uip.listening
      modifies uip`slen, uip.conns, bridge, bridge.rxBuf
      ensures bridge.Valid()
      ensures var h := Half(old(uip.Value()), slot, next);
              r == ReplyFor(old(bridge.Value()), h, app) && bridge.Value() == BridgeAfter(old(bridge.Value()), h)
      ensures var x := Complete(Half(old(uip.Value()), slot, next), seg, r); uip.Value() == x.stack && out == x.out
    {
      var reply := Reply(NOFLAGS, 0, app);
      ghost var u := uip.Value();
      if next.Call? {
        reply := bridge.AppCall(next.flags, next.data, uip.slen, app);
      }
      assert uip.Value() == u;
      out := uip.CompleteEvent(slot, next, seg, reply);
      r := reply;
    }

    /** uip_input on a segment. */
    method Input(seg: Segment, app: seq<u8>) returns (out: Option<Segment>, ghost trace: seq<Observation>)
      requires Valid() && InputOk(seg) && |app| == APPDATA
      modifies uip`slen, uip.conns, bridge, bridge.rxBuf
      ensures Valid() && NetOk(old(Value()))
      ensures var p := ProcessInput(old(Value()), seg, app); Value() == p.net && trace == p.trace
    {
      ValidIsOk();
      ghost var n := Value();
      ghost var e := Event.Input(seg, ReplyFor(n.bridge, InputHalf(n.stack, seg), app));
      HalfSizes(n.stack, e);
      HalfData(n.stack, e);
      ProcessOk(n, e, app);
      var slot, next := uip.InputEvent(seg);
      ghost var r;
      out, r := Finish(slot, next, seg, app);
      assert uip.Value() == Process(n, e, app).net.stack;
      trace := CallObservations(next) + OutObservation(out);
    }

    /** uip_poll_conn on a slot. */
    method PollConnection(i: nat, app: seq<u8>) returns (out: Option<Segment>, ghost trace: seq<Observation>)
      requires Valid() && i < CONNS && |app| == APPDATA
      modifies uip`slen, uip.conns, bridge, bridge.rxBuf
      ensures Valid() && NetOk(old(Value()))
      ensures var p := ProcessPoll(old(Value()), i, app); Value() == p.net && trace == p.trace
    {
      ValidIsOk();
      ghost var n := Value();
      ghost var e := PollConn(i, ReplyFor(n.bridge, PollHalf(n.stack, i), app));
      HalfSizes(n.stack, e);
      HalfData(n.stack, e);
      ProcessOk(n, e, app);
      var next := uip.PollEvent(i);
      ghost var r;
      out, r := Finish(i, next, NOSEG, app);
      assert uip.Value() == Process(n, e, app).net.stack;
      trace := CallObservations(next) + OutObservation(out);
    }

    /** net_poll, `frame` being what net_recv found. */
    method Poll(frame: Frame, app: seq<u8>) returns (out: Option<Segment>, ghost trace: seq<Observation>)
      requires Valid() && |app| == APPDATA && (frame.TcpFrame? ==> InputOk(frame.seg))
      modifies this, rxBuf, uip`slen, uip.conns, bridge, bridge.rxBuf
      ensures Valid() && NetOk(old(Value()))
      ensures var p := NetPoll(old(Value()), frame, app); Value() == p.net && trace == p.trace
    {
      ValidIsOk();
      out, trace := None, [];
      match frame
      case NoFrame =>
      case OtherFrame => SyncSocketState();
      case TcpFrame(seg) =>
        out, trace := Input(seg, app);
        SyncSocketState();
    }

    /** The loop of kick_active_connection. */
    method FindActiveConnection(port: u16) returns (i: nat)
      requires uip.conns.Length == CONNS
      ensures i == FindActive(uip.conns[..], port, 0)
    {
      i := 0;
      while i < CONNS && (uip.conns[i].state == CLOSED || uip.conns[i].lport != port)
        invariant i <= CONNS && FindActive(uip.conns[..], port, i) == FindActive(uip.conns[..], port, 0)
      {
        i := i + 1;
      }
    }

    /** kick_active_connection. */
    method KickActiveConnection(app: seq<u8>) returns (out: Option<Segment>, ghost trace: seq<Observation>)
      requires Valid() && |app| == APPDATA
      modifies this, rxBuf, uip`slen, uip.conns, bridge, bridge.rxBuf
      ensures Valid() && NetOk(old(Value()))
      ensures var p := Kick(old(Value()), app); Value() == p.net && trace == p.trace
    {
      ValidIsOk();
      out, trace := None, [];
      if listenPort < 0 {
        return;
      }
      var i := FindActiveConnection(Htons(Low16(listenPort)));
      if i < CONNS {
        out, trace := PollConnection(i, app);
      }
      SyncSocketState();
    }

    // --- Handlers; `trace` is what the call let be seen from outside ---------

    /** The callback's half of reset_socket_state. */
    method ResetBridge()
      requires Valid()
      modifies bridge
      ensures Valid()
      ensures bridge.Value() == Bridge(false, false, false, 0, old(bridge.rxBuf[..]), 0, false, old(bridge.txBuf[..]), false)
    {
      bridge.open, bridge.pending, bridge.closed := false, false, false;
      bridge.rxLen, bridge.txLen, bridge.txPending, bridge.closePending := 0, 0, false, false;
    }

    /** handle_sock_listen. */
    method Listen(port: int) returns (status: Status, ghost trace: seq<Observation>)
      requires Valid()
      modifies this, bridge, uip.listening
      ensures Valid() && NetOk(old(Value()))
      ensures var h := HandleListen(old(Value()), port); Value() == h.net && status == h.status && trace == h.trace
    {
      ValidIsOk();
      if port <= 0 {
        return INVALID, [];
      }
      ResetBridge();
      ghost var b := bridge.Value();
      uip.AddListener(Htons(Low16(port)));
      assert bridge.Value() == b;
      listenPort := port;
      open, pending, closed, rxLen, txLen, txPending := false, false, false, 0, 0, false;
      return OK, [Listening];
    }

    /** Hand the waiting connection over, in both copies. */
    method TakePending()
      requires Valid()
      modifies this`pending, bridge`pending
      ensures Valid()
      ensures var n := old(Value());
              Value() == n.(sock := n.sock.(pending := false), bridge := n.bridge.(pending := false))
    {
      pending := false;
      bridge.pending := false;
    }

    /** handle_sock_accept. */
    method Accept(frame: Frame, app: seq<u8>) returns (status: Status, ghost trace: seq<Observation>)
      requires Valid() && |app| == APPDATA && (frame.TcpFrame? ==> InputOk(frame.seg))
      modifies this, rxBuf, uip`slen, uip.conns, bridge, bridge.rxBuf
      ensures Valid() && NetOk(old(Value()))
      ensures var h := HandleAccept(old(Value()), frame, app); Value() == h.net && status == h.status && trace == h.trace
    {
      var _, polled := Poll(frame, app);
      trace := polled;
      if pending {
        TakePending();
        return OK, trace;
      }
      return WOULD_BLOCK, trace;
    }

    /** Unread bytes are dropped. */
    method ForgetReceived()
      requires Valid()
      modifies this`rxLen
      ensures Valid() && Value() == old(Value()).(sock := old(SockValue()).(rxLen := 0))
    {
      rxLen := 0;
    }

    /** handle_sock_recv. */
    method Recv(conn: int, length: nat, frame: Frame, app: seq<u8>) returns (status: Status, data: seq<u8>, ghost trace: seq<Observation>)
      requires Valid() && |app| == APPDATA && (frame.TcpFrame? ==> InputOk(frame.seg)) && length <= NET_BUF_SIZE
      modifies this, rxBuf, uip`slen, uip.conns, bridge, bridge.rxBuf
      ensures Valid() && NetOk(old(Value()))
      ensures var h := HandleRecv(old(Value()), conn, length, frame, app);
              Value() == h.net && status == h.status && trace == h.trace && data == h.data
    {
      var _, polled := Poll(frame, app);
      trace := polled;
      if listenPort < 0 || conn != CONN_ID {
        return INVALID, [], trace;
      }
      if rxLen > 0 {
        var len := if rxLen > length then length else rxLen;
        status, data := OK, rxBuf[..len];
        ForgetReceived();
        return;
      }
      if closed || !open {
        return NET_CLOSED, [], trace;
      }
      return WOULD_BLOCK, [], trace;
    }

    /** Lines 220-225: take the request into both copies. */
    method TakeRequest(data: seq<u8>)
      requires Valid() && |data| <= APPDATA_SIZE
      modifies this`txLen, this`txPending, bridge`txLen, bridge`txPending, bridge.txBuf
      ensures Valid() && Value() == Taken(old(Value()), data)
    {
      txLen := |data|;
      Memcpy(bridge.txBuf, data);
      bridge.txLen := txLen;
      bridge.txPending := true;
      txPending := true;
    }

    /** Lines 220-226. */
    method Submit(data: seq<u8>, app: seq<u8>) returns (ghost trace: seq<Observation>)
      requires Valid() && |app| == APPDATA && |data| <= APPDATA_SIZE
      modifies this, rxBuf, uip`slen, uip.conns, bridge, bridge.rxBuf, bridge.txBuf
      ensures Valid() && NetOk(Taken(old(Value()), data))
      ensures var k := Kick(Taken(old(Value()), data), app);
              Value() == k.net && trace == k.trace
    {
      TakeRequest(data);
      var _, kicked := KickActiveConnection(app);
      trace := kicked;
    }

    /** handle_sock_send. */
    method Send(conn: int, data: seq<u8>, frame: Frame, app: seq<u8>, later: seq<u8>) returns (status: Status, ghost trace: seq<Observation>)
      requires Valid() && |app| == |later| == APPDATA && (frame.TcpFrame? ==> InputOk(frame.seg)) && |data| <= APPDATA_SIZE
      modifies this, rxBuf, uip`slen, uip.conns, bridge, bridge.rxBuf, bridge.txBuf
      ensures Valid() && NetOk(old(Value()))
      ensures var h := HandleSend(old(Value()), conn, data, frame, app, later); Value() == h.net && status == h.status && trace == h.trace
    {
      var _, polled := Poll(frame, app);
      trace := polled;
      if !(listenPort >= 0 && open && conn == CONN_ID) {
        return INVALID, trace;
      }
      if txPending {
        return WOULD_BLOCK, trace;
      }
      var kicked := Submit(data, later);
      return OK, trace + [Accepted(data)] + kicked;
    }

    /** Ask the callback to close at its next call. */
    method RequestClose()
      requires Valid()
      modifies bridge`closePending
      ensures Valid() && Value() == CloseRequested(old(Value()))
    {
      bridge.closePending := true;
    }

    /** Lines 242-245. */
    method ForgetConnection()
      requires Valid()
      modifies this`open, this`pending, this`txPending, this`rxLen
      ensures Valid() && Value() == Forgotten(old(Value()))
    {
      open, pending, txPending, rxLen := false, false, false, 0;
    }

    /** Lines 240-245. */
    method CloseConnection(app: seq<u8>) returns (ghost trace: seq<Observation>)
      requires Valid() && |app| == APPDATA
      modifies this, rxBuf, uip`slen, uip.conns, bridge, bridge.rxBuf
      ensures Valid() && NetOk(CloseRequested(old(Value())))
      ensures var k := Kick(CloseRequested(old(Value())), app);
              Value() == Forgotten(k.net) && trace == k.trace
    {
      RequestClose();
      var _, kicked := KickActiveConnection(app);
      trace := kicked;
      ForgetConnection();
    }

    /** handle_sock_close. */
    method Close(conn: int, frame: Frame, app: seq<u8>, later: seq<u8>) returns (status: Status, ghost trace: seq<Observation>)
      requires Valid() && |app| == |later| == APPDATA && (frame.TcpFrame? ==> InputOk(frame.seg))
      modifies this, rxBuf, uip`slen, uip.conns, bridge, bridge.rxBuf
      ensures Valid() && NetOk(old(Value()))
      ensures var h := HandleClose(old(Value()), conn, frame, app, later); Value() == h.net && status == h.status && trace == h.trace
    {
      var _, polled := Poll(frame, app);
      trace := polled;
      if !(listenPort >= 0 && open && conn == CONN_ID) {
        return INVALID, trace;
      }
      var kicked := CloseConnection(later);
      return OK, trace + kicked;
    }
  }
}
