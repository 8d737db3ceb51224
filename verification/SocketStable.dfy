/** Retransmission stability across engine, callback and service: from the moment
    a request is taken until it is acknowledged, every data segment carries the
    same sequence number and the same leading bytes of that request. */
module SocketStable {
  import opened Platform
  import opened Words
  import opened Tcp
  import opened TcpInvariant
  import opened Stack
  import opened Table
  import opened Endpoint
  import opened Socket
  import Sender

  /** Watches a trace. Waiting: a request is taken, nothing of it sent on the
      current connection. Flying: these bytes are out under this number. */
  datatype Monitor =
    | Idle
    | Waiting(request: seq<u8>)
    | Flying(request: seq<u8>, seqno: u32, bytes: seq<u8>)

  /** None when the observation violates stability. */
  function Watch(m: Monitor, o: Observation): Option<Monitor> {
    match o
    case Accepted(r) => if m.Idle? then Some(Waiting(r)) else None
    case Acknowledged => if m.Waiting? then None else Some(Idle)
    case Connected => Some(if m.Flying? then Waiting(m.request) else m)
    case Listening => Some(Idle)
    case Sent(seg) =>
      if seg.data == [] then Some(m)
      else match m
        case Idle => None
        case Waiting(r) => if seg.data <= r then Some(Flying(r, seg.seqno, seg.data)) else None
        case Flying(r, n, d) => if seg.seqno == n && seg.data == d then Some(m) else None
  }

  function WatchAll(m: Monitor, t: seq<Observation>): Option<Monitor>
    decreases |t|
  {
    if t == [] then Some(m)
    else match Watch(m, t[0]) case None => None case Some(m1) => WatchAll(m1, t[1..])
  }

  lemma {:induction false} WatchAppend(m: Monitor, t: seq<Observation>, u: seq<Observation>)
    ensures WatchAll(m, t + u) == match WatchAll(m, t) case None => None case Some(m1) => WatchAll(m1, u)
    decreases |t|
  {
    if t == [] {
      assert t + u == u;
    } else {
      assert (t + u)[1..] == t[1..] + u;
      match Watch(m, t[0])
      case None =>
      case Some(m1) => WatchAppend(m1, t[1..], u);
    }
  }

  lemma WatchOne(m: Monitor, o: Observation)
    ensures WatchAll(m, [o]) == Watch(m, o)
  {
    assert [o][1..] == [];
  }

  // --- The invariant between connection, callback state and monitor ----------

  ghost predicate Held(b: Bridge, m: Monitor) {
    && BridgeOk(b)
    && (m.Idle? <==> !b.txPending)
    && (!m.Idle? ==> m.request == b.txBuf[..b.txLen])
  }

  /** The bytes in flight on an established connection are the leading bytes of
      the held request, unless sock_listen has made the service forget them. */
  ghost predicate InStep(c: Conn, slen: u16, m: Monitor) {
    c.state == ESTABLISHED ==>
      if c.len > 0 then m.Idle? || (m.Flying? && m.seqno == c.sndNxt && c.len <= |m.request| && m.bytes == m.request[..c.len])
      else !m.Flying? && slen == 0
  }

  /** Bytes are in flight that the service has forgotten. */
  predicate Orphan(c: Conn, m: Monitor) { c.state == ESTABLISHED && c.len > 0 && m.Idle? }

  ghost predicate Linked(o: Option<Conn>, slen: u16, b: Bridge, m: Monitor) {
    Held(b, m) && (o.Some? ==> InStep(o.value, slen, m))
  }

  /** What the first half of a step may ask of the application. */
  ghost predicate HalfFrom(c: Conn, c1: Conn, next: Next) {
    if !next.Call? then
      && (c1.state == ESTABLISHED ==> c.state == ESTABLISHED && c1.len == c.len && c1.sndNxt == c.sndNxt)
      && (next.Transmit? ==> next.seg.data == [])
    else
      var f := next.flags;
      match next.goto
      case AppSend =>
        && c1.state == ESTABLISHED
        && if c.state != ESTABLISHED then f.connected && !f.ackdata && c1.len == 0
           else !f.connected && if f.ackdata then c.len > 0 && c1.len == 0 else c1.len == c.len && c1.sndNxt == c.sndNxt
      case AppRexmit => c.state == c1.state == ESTABLISHED && f == REXMIT_FLAG && c1.len == c.len > 0 && c1.sndNxt == c.sndNxt
      case SendFinAck => c.state == ESTABLISHED && !f.connected && (f.ackdata <==> c.len > 0)
      case _ => !f.connected && !f.ackdata && !f.newdata && !f.poll && !f.rexmit && c1.state != ESTABLISHED
  }

  lemma ReceiveHalf(c: Conn, seg: Segment, host: u32)
    requires ConnOk(c) && c.state != CLOSED && InputOk(seg)
    ensures var (c1, next) := Receive(c, seg, host); HalfFrom(c, c1, next)
  {
    if c.state == ESTABLISHED && !seg.ctl.rst && !OutOfSequence(c, seg) {
      EstablishedHalf(c, seg, host);
    }
  }

  lemma EstablishedHalf(c: Conn, seg: Segment, host: u32)
    requires ConnOk(c) && c.state == ESTABLISHED && InputOk(seg) && !seg.ctl.rst && !OutOfSequence(c, seg)
    ensures var (c1, next) := Receive(c, seg, host); HalfFrom(c, c1, next)
  {
    var ca := Tcp.Acknowledged(c, seg);
    assert ca.state == ESTABLISHED && Receive(c, seg, host) == ReceiveEstablished(ca, Acknowledges(c, seg), seg);
    assert if Acknowledges(c, seg) then c.len > 0 && ca.len == 0 else ca == c;
  }

  lemma TickHalf(c: Conn, host: u32)
    requires ConnOk(c)
    ensures var (c1, next) := Tick(c, host); HalfFrom(c, c1, next)
  {
  }

  lemma PollHalfFrom(c: Conn)
    ensures var (c1, next) := Poll(c); HalfFrom(c, c1, next)
  {
  }

  // --- The second half -------------------------------------------------------

  /** After the callback has been told, before it answers. */
  lemma CallLinked(c: Conn, c1: Conn, next: Next, slen: u16, b: Bridge, m: Monitor)
    requires Held(b, m) && InStep(c, slen, m) && HalfFrom(c, c1, next) && next.Call? && |next.data| <= UIP_BUFSIZE
    requires next.goto == AppSend || next.goto == AppRexmit
    ensures var b1 := Observe(b, next.flags, next.data);
            var w := WatchAll(m, CallObservations(next));
            && w.Some? && Held(b1, w.value) && InStep(c1, 0, w.value)
            && (Orphan(c1, w.value) ==> Orphan(c, m) && !next.flags.connected)
  {
    WatchOne(m, Connected);
    WatchOne(m, Observation.Acknowledged);
    assert [] + CallObservations(next) == CallObservations(next);
  }

  /** What the callback offers is the held request. */
  lemma OfferedBytes(b: Bridge, f: Flags, slen: u16, stale: seq<u8>, m: Monitor, n: nat)
    requires Held(b, m) && |stale| == APPDATA && Offers(b, f) && n <= b.txLen
    ensures var r := CallbackReply(b, f, slen, stale);
            !m.Idle? && n <= |m.request| == r.slen && r.buf[..n] == m.request[..n] && r.buf[..n] <= m.request
  {
    var r := CallbackReply(b, f, slen, stale);
    assert r.buf[..b.txLen] == b.txBuf[..b.txLen];
    assert r.buf[..n] == r.buf[..b.txLen][..n];
  }

  /** The data segment that leaves keeps the monitor content. */
  lemma SendDataLinked(c: Conn, host: u32, slen: u16, r: Reply, taken: seq<u8>, m: Monitor)
    requires SizesOk(c) && ReplyOk(r) && c.state == ESTABLISHED
    requires slen > 0 && c.len > 0 ==> c.len <= |RequestOf(m)| && r.buf[..c.len] == RequestOf(m)[..c.len]
    requires if slen > 0 && c.len > 0 then m.Waiting? || InStep(c, 0, m) else InStep(c, slen, m)
    ensures var d := SendData(c, host, slen, r, taken);
            var w := WatchAll(m, OutObservation(d.out));
            && w.Some? && InStep(d.conn, d.slen, w.value) && (w.value.Idle? <==> m.Idle?) && RequestOf(w.value) == RequestOf(m)
            && (Orphan(d.conn, w.value) ==> Orphan(c, m))
  {
    var d := SendData(c, host, slen, r, taken);
    if d.out.Some? {
      WatchOne(m, Sent(d.out.value));
    }
  }

  /** The request a monitor holds, if any. */
  function RequestOf(m: Monitor): seq<u8> { if m.Idle? then [] else m.request }

  /** appsend with this callback; uip_slen is 0 whenever it is reached. */
  lemma TakeLinked(c: Conn, host: u32, f: Flags, b: Bridge, data: seq<u8>, stale: seq<u8>, m: Monitor)
    requires SizesOk(c) && BridgeOk(b) && |stale| == APPDATA && |data| <= UIP_BUFSIZE
    requires c.state == ESTABLISHED && InStep(c, 0, m) && Held(Observe(b, f, data), m)
    requires f.ackdata ==> c.len == 0
    ensures var d := TakeData(c, host, CallbackReply(b, f, 0, stale));
            var w := WatchAll(m, OutObservation(d.out));
            && w.Some? && Held(Observe(b, f, data), w.value) && InStep(d.conn, d.slen, w.value)
            && (Orphan(d.conn, w.value) ==> Orphan(c, m))
  {
    var r := CallbackReply(b, f, 0, stale);
    var c1 := c.(nrtx := 0);
    if Offers(b, f) {
      assert Held(b, m);
      if c.len == 0 || r.flags.ackdata {
        var n := if r.slen > c.mss then c.mss else r.slen;
        OfferedBytes(b, f, 0, stale, m, n);
        SendDataLinked(c1.(len := n), host, n, r, r.buf[..n], m);
      } else {
        OfferedBytes(b, f, 0, stale, m, c.len);
        SendDataLinked(c1, host, c.len, r, [], m);
      }
    } else {
      SendDataLinked(c1, host, 0, r, [], m);
    }
  }

  /** apprexmit with this callback: a close requested meanwhile suppresses the data. */
  lemma RexmitLinked(c: Conn, host: u32, b: Bridge, stale: seq<u8>, m: Monitor)
    requires SizesOk(c) && BridgeOk(b) && |stale| == APPDATA
    requires c.state == ESTABLISHED && c.len > 0 && InStep(c, 0, m) && Held(b, m)
    ensures var r := CallbackReply(b, REXMIT_FLAG, 0, stale);
            var d := SendData(c, host, r.slen, r, []);
            var w := WatchAll(m, OutObservation(d.out));
            w == Some(m) && InStep(d.conn, d.slen, m) && (Orphan(d.conn, m) ==> Orphan(c, m))
  {
    var r := CallbackReply(b, REXMIT_FLAG, 0, stale);
    if Offers(b, REXMIT_FLAG) {
      OfferedBytes(b, REXMIT_FLAG, 0, stale, m, c.len);
      var d := SendData(c, host, r.slen, r, []);
      WatchOne(m, Sent(d.out.value));
    }
  }

  /** From the call on, whatever the label. */
  lemma ResumeLinked(c: Conn, c1: Conn, host: u32, next: Next, slen: u16, slen1: u16, b: Bridge, stale: seq<u8>, seg: Segment, m: Monitor)
    requires SizesOk(c1) && Held(b, m) && InStep(c, slen, m) && HalfFrom(c, c1, next) && |stale| == APPDATA
    requires next.Call? && |next.data| <= UIP_BUFSIZE
    requires next.goto == AppSend || next.goto == AppRexmit ==> slen1 == 0
    ensures var d := Resume(c1, host, next.goto, seg, CallbackReply(b, next.flags, slen1, stale));
            var w := WatchAll(m, CallObservations(next) + OutObservation(d.out));
            && w.Some? && Held(Observe(b, next.flags, next.data), w.value) && InStep(d.conn, d.slen, w.value)
            && (Orphan(d.conn, w.value) ==> Orphan(c, m) && !next.flags.connected)
  {
    var f, b1 := next.flags, Observe(b, next.flags, next.data);
    var r := CallbackReply(b, f, slen1, stale);
    var d := Resume(c1, host, next.goto, seg, r);
    WatchAppend(m, CallObservations(next), OutObservation(d.out));
    if next.goto == AppSend || next.goto == AppRexmit {
      CallLinked(c, c1, next, slen, b, m);
      var m1 := WatchAll(m, CallObservations(next)).value;
      if next.goto == AppRexmit {
        RexmitLinked(c1, host, b, stale, m1);
      } else if r.flags.abort || r.flags.close {
        WatchOne(m1, Sent(d.out.value));
      } else {
        TakeLinked(c1, host, f, b, next.data, stale, m1);
      }
    } else {
      EndLinked(c, next, slen, b, d.out, m);
    }
  }

  /** Steps that leave the established state send no data. */
  lemma EndLinked(c: Conn, next: Next, slen: u16, b: Bridge, out: Option<Segment>, m: Monitor)
    requires Held(b, m) && InStep(c, slen, m) && next.Call? && |next.data| <= UIP_BUFSIZE && !next.flags.connected
    requires next.flags.ackdata ==> c.state == ESTABLISHED && c.len > 0
    requires out.Some? ==> out.value.data == []
    ensures var w := WatchAll(m, CallObservations(next));
            w.Some? && Held(Observe(b, next.flags, next.data), w.value) && WatchAll(w.value, OutObservation(out)) == w
  {
    WatchOne(m, Observation.Acknowledged);
    assert [] + CallObservations(next) == CallObservations(next);
    var w := WatchAll(m, CallObservations(next));
    if out.Some? {
      WatchOne(w.value, Sent(out.value));
    }
  }

  /** A whole step of one connection. */
  lemma FinishLinked(c: Conn, c1: Conn, host: u32, next: Next, slen: u16, slen1: u16, b: Bridge, stale: seq<u8>, seg: Segment, m: Monitor)
    requires SizesOk(c1) && Held(b, m) && InStep(c, slen, m) && HalfFrom(c, c1, next) && |stale| == APPDATA
    requires next.Call? ==> |next.data| <= UIP_BUFSIZE
    requires next.Call? && (next.goto == AppSend || next.goto == AppRexmit) ==> slen1 == 0
    requires slen1 == slen || slen1 == 0
    ensures var r := if next.Call? then CallbackReply(b, next.flags, slen1, stale) else Reply(NOFLAGS, 0, stale);
            var d := Finish(c1, host, next, slen1, seg, r);
            var w := WatchAll(m, CallObservations(next) + OutObservation(d.out));
            && w.Some?
            && Held(if next.Call? then Observe(b, next.flags, next.data) else b, w.value)
            && InStep(d.conn, d.slen, w.value)
            && (Orphan(d.conn, w.value) ==> Orphan(c, m) && !(next.Call? && next.flags.connected))
  {
    if next.Call? {
      ResumeLinked(c, c1, host, next, slen, slen1, b, stale, seg, m);
    } else if next.Transmit? {
      assert CallObservations(next) + [Sent(next.seg)] == [Sent(next.seg)];
      WatchOne(m, Sent(next.seg));
    }
  }

  /** The callback is an honest application in the sense of the two-endpoint
      account: while bytes are in flight it offers exactly those bytes again. */
  lemma CallbackHonest(c: Conn, f: Flags, b: Bridge, stale: seq<u8>, m: Monitor, sub: seq<u8>)
    requires c.state == ESTABLISHED && Held(b, m) && InStep(c, 0, m) && |stale| == APPDATA
    requires f.ackdata ==> c.len == 0
    requires c.len > 0 && m.Flying? ==> c.len <= |sub| && sub[|sub| - c.len..] == m.bytes
    ensures Sender.Honest(c.len, CallbackReply(b, f, 0, stale), sub)
  {
    if c.len > 0 && Offers(b, f) {
      OfferedBytes(b, f, 0, stale, m, c.len);
    }
  }

  // --- The whole service -----------------------------------------------------

  /** The service runs one connection: every live slot belongs to key `k`. */
  ghost predicate OneKey(s: Stack, k: Key) {
    forall i | 0 <= i < |s.conns| && s.conns[i].state != CLOSED :: KeyOf(s.conns[i]) == k
  }

  ghost predicate Joined(n: Net, m: Monitor, k: Key) {
    && NetOk(n) && OneKey(n.stack, k) && Linked(Lookup(n.stack, k), n.stack.slen, n.bridge, m)
    && (Lookup(n.stack, k).Some? && Orphan(Lookup(n.stack, k).value, m) ==> !n.bridge.open && !n.sock.open)
  }

  /** The bridge invariant: the two copies of `tx_pending` agree while the
      service considers the connection open. */
  predicate Synced(n: Net) {
    n.sock.open ==> n.sock.txPending == n.bridge.txPending
  }

  ghost predicate CanProcess(n: Net, e: Event, stale: seq<u8>, k: Key) {
    && NetOk(n) && EventOk(n.stack, e) && (e.Input? || e.Timer? || e.PollConn?)
    && |stale| == APPDATA && e.r == ReplyFor(n.bridge, HalfOf(n.stack, e), stale)
    && (e.Input? ==> KeyFor(e.seg) == k)
  }

  /** uip_process on a live connection, first half. */
  lemma HalfFromSlot(s: Stack, e: Event, i: nat)
    requires StackOk(s) && EventOk(s, e) && i < |s.conns| && s.conns[i].state != CLOSED
    requires match e
             case Input(seg, _) => i == FindConn(s.conns, KeyFor(seg), 0)
             case Timer(j, _) => i == j
             case PollConn(j, _) => i == j
             case _ => false
    ensures var h := HalfOf(s, e);
            && h.slot == i && |h.stack.conns| == |s.conns| && SizesOk(h.stack.conns[i]) && h.stack.host == s.host
            && HalfFrom(s.conns[i], h.stack.conns[i], h.next)
            && (h.stack.slen == s.slen || h.stack.slen == 0)
            && (h.next.Call? && (h.next.goto == AppSend || h.next.goto == AppRexmit) && !e.PollConn? ==> h.stack.slen == 0)
            && (e.PollConn? && h.next.Call? ==> s.conns[i].state == ESTABLISHED && s.conns[i].len == 0)
  {
    HalfSizes(s, e);
    match e
    case Input(seg, _) => ReceiveHalf(s.conns[i], seg, s.host);
    case Timer(_, _) => TickHalf(s.conns[i], s.host);
    case PollConn(_, _) => PollHalfFrom(s.conns[i]);
  }

  lemma ProcessSlot(n: Net, e: Event, stale: seq<u8>, m: Monitor, k: Key, i: nat)
    requires CanProcess(n, e, stale, k) && Joined(n, m, k)
    requires i < |n.stack.conns| && n.stack.conns[i].state != CLOSED
    requires match e
             case Input(seg, _) => i == FindConn(n.stack.conns, KeyFor(seg), 0)
             case Timer(j, _) => i == j
             case PollConn(j, _) => i == j
             case _ => false
    requires HalfOf(n.stack, e).next.Call? ==> |HalfOf(n.stack, e).next.data| <= UIP_BUFSIZE
    ensures var p := Process(n, e, stale);
            var w := WatchAll(m, p.trace);
            w.Some? && Joined(p.net, w.value, k)
  {
    var s, h := n.stack, HalfOf(n.stack, e);
    var c := s.conns[i];
    LookupIs(s, k, i);
    HalfFromSlot(s, e, i);
    var seg := if e.Input? then e.seg else NOSEG;
    FinishLinked(c, h.stack.conns[i], s.host, h.next, s.slen, h.stack.slen, n.bridge, stale, seg, m);
    ProcessOk(n, e, stale);
    SlotKeeps(s, e, i);
    var x := Step(s, e);
    StepKeeps(s, e);
    ReplaceLookup(s, x.stack, i, x.stack.conns[i], k);
  }

  /** A segment for the key while no connection has it: a reset, or a new
      connection with its SYN-ACK. */
  lemma NewConnection(s: Stack, e: Event, k: Key)
    requires StackOk(s) && EventOk(s, e) && e.Input? && KeyFor(e.seg) == k && OneKey(s, k)
    requires FindConn(s.conns, k, 0) == |s.conns|
    ensures var x := Step(s, e);
            && !HalfOf(s, e).next.Call? && x.stack.slen == s.slen && OneKey(x.stack, k)
            && (x.out.Some? ==> x.out.value.data == [])
  {
    AllocatorChoice(s.conns);
  }

  lemma ProcessNew(n: Net, e: Event, stale: seq<u8>, m: Monitor, k: Key)
    requires CanProcess(n, e, stale, k) && Joined(n, m, k)
    requires e.Input? && FindConn(n.stack.conns, k, 0) == |n.stack.conns|
    requires HalfOf(n.stack, e).next.Call? ==> |HalfOf(n.stack, e).next.data| <= UIP_BUFSIZE
    ensures var p := Process(n, e, stale);
            WatchAll(m, p.trace) == Some(m) && Joined(p.net, m, k)
  {
    var p, x := Process(n, e, stale), Step(n.stack, e);
    ProcessOk(n, e, stale);
    NewConnection(n.stack, e, k);
    NewLookup(n.stack, e, k);
    if x.out.Some? {
      assert p.trace == [Sent(x.out.value)];
      WatchOne(m, Sent(x.out.value));
    }
  }

  lemma NewLookup(s: Stack, e: Event, k: Key)
    requires StackOk(s) && EventOk(s, e) && e.Input? && KeyFor(e.seg) == k
    requires FindConn(s.conns, k, 0) == |s.conns|
    ensures var o := Lookup(Step(s, e).stack, k); o.Some? ==> o.value.state == SYN_RCVD
  {
    Project(s, e, k);
  }

  lemma ProcessLinked(n: Net, e: Event, stale: seq<u8>, m: Monitor, k: Key)
    requires CanProcess(n, e, stale, k) && Joined(n, m, k)
    ensures HalfOf(n.stack, e).next.Call? ==> |HalfOf(n.stack, e).next.data| <= UIP_BUFSIZE
    ensures var p := Process(n, e, stale);
            var w := WatchAll(m, p.trace);
            w.Some? && Joined(p.net, w.value, k) && p.net.sock == n.sock
  {
    HalfData(n.stack, e);
    if e.Input? {
      var i := FindConn(n.stack.conns, k, 0);
      if i < |n.stack.conns| {
        ProcessSlot(n, e, stale, m, k, i);
      } else {
        ProcessNew(n, e, stale, m, k);
      }
    } else if n.stack.conns[e.slot].state != CLOSED {
      ProcessSlot(n, e, stale, m, k, e.slot);
    } else {
      ProcessClosed(n, e, stale, m, k);
    }
  }

  lemma ProcessClosed(n: Net, e: Event, stale: seq<u8>, m: Monitor, k: Key)
    requires CanProcess(n, e, stale, k) && Joined(n, m, k)
    requires (e.Timer? || e.PollConn?) && n.stack.conns[e.slot].state == CLOSED
    requires HalfOf(n.stack, e).next.Call? ==> |HalfOf(n.stack, e).next.data| <= UIP_BUFSIZE
    ensures var p := Process(n, e, stale);
            WatchAll(m, p.trace) == Some(m) && Joined(p.net, m, k)
  {
    ProcessOk(n, e, stale);
    var x := Step(n.stack, e);
    assert x.stack.conns == n.stack.conns;
    assert Lookup(x.stack, k) == Lookup(n.stack, k);
  }

  // --- Handlers --------------------------------------------------------------

  lemma SyncLinked(n: Net, m: Monitor, k: Key)
    requires Joined(n, m, k)
    ensures Joined(Sync(n), m, k) && Synced(Sync(n))
  {
  }

  ghost predicate FrameOk(f: Frame, k: Key) {
    f.TcpFrame? ==> InputOk(f.seg) && KeyFor(f.seg) == k
  }

  lemma NetPollLinked(n: Net, f: Frame, stale: seq<u8>, m: Monitor, k: Key)
    requires Joined(n, m, k) && Synced(n) && FrameOk(f, k) && |stale| == APPDATA
    ensures var p := NetPoll(n, f, stale);
            var w := WatchAll(m, p.trace);
            w.Some? && Joined(p.net, w.value, k) && Synced(p.net)
  {
    match f
    case NoFrame =>
    case OtherFrame => SyncLinked(n, m, k);
    case TcpFrame(seg) =>
      var e := Input(seg, ReplyFor(n.bridge, InputHalf(n.stack, seg), stale));
      ProcessLinked(n, e, stale, m, k);
      var p := Process(n, e, stale);
      SyncLinked(p.net, WatchAll(m, p.trace).value, k);
  }

  lemma KickLinked(n: Net, stale: seq<u8>, m: Monitor, k: Key)
    requires Joined(n, m, k) && Synced(n) && |stale| == APPDATA
    ensures var p := Kick(n, stale);
            var w := WatchAll(m, p.trace);
            w.Some? && Joined(p.net, w.value, k) && Synced(p.net)
  {
    if n.sock.listenPort >= 0 {
      var i := FindActive(n.stack.conns, ListenKey(n), 0);
      if i == |n.stack.conns| {
        SyncLinked(n, m, k);
      } else {
        var e := PollConn(i, ReplyFor(n.bridge, PollHalf(n.stack, i), stale));
        ProcessLinked(n, e, stale, m, k);
        var p := Process(n, e, stale);
        SyncLinked(p.net, WatchAll(m, p.trace).value, k);
      }
    }
  }

  ghost predicate HandledOk(h: Handled, m: Monitor, k: Key) {
    var w := WatchAll(m, h.trace);
    w.Some? && Joined(h.net, w.value, k) && Synced(h.net)
  }

  /** A request is taken only while nothing is held, so no bytes in flight change. */
  lemma TakenJoined(q: Net, data: seq<u8>, m: Monitor, k: Key)
    requires Joined(q, m, k) && Synced(q) && q.sock.open && !q.sock.txPending && |data| <= APPDATA_SIZE
    ensures m.Idle? && Joined(Taken(q, data), Waiting(data), k) && Synced(Taken(q, data))
  {
  }

  lemma SendLinked(n: Net, conn: int, data: seq<u8>, f: Frame, stale: seq<u8>, later: seq<u8>, m: Monitor, k: Key)
    requires Joined(n, m, k) && Synced(n) && FrameOk(f, k) && |stale| == |later| == APPDATA && |data| <= APPDATA_SIZE
    ensures HandledOk(HandleSend(n, conn, data, f, stale, later), m, k)
  {
    NetPollLinked(n, f, stale, m, k);
    var p := NetPoll(n, f, stale);
    var q, m1 := p.net, WatchAll(m, p.trace).value;
    if ConnValid(q.sock, conn) && !q.sock.txPending {
      TakenJoined(q, data, m1, k);
      KickLinked(Taken(q, data), later, Waiting(data), k);
      WatchTaken(m, p.trace, data, Kick(Taken(q, data), later).trace);
    }
  }

  /** Taking a request in the middle of a trace. */
  lemma WatchTaken(m: Monitor, t: seq<Observation>, data: seq<u8>, u: seq<Observation>)
    requires WatchAll(m, t) == Some(Idle)
    ensures WatchAll(m, t + [Accepted(data)] + u) == WatchAll(Waiting(data), u)
  {
    WatchOne(Idle, Accepted(data));
    WatchAppend(m, t, [Accepted(data)]);
    WatchAppend(m, t + [Accepted(data)], u);
  }

  lemma ClosingJoined(q: Net, m: Monitor, k: Key)
    requires Joined(q, m, k) && Synced(q)
    ensures Joined(CloseRequested(q), m, k) && Synced(CloseRequested(q))
  {
  }

  lemma ForgottenJoined(n: Net, m: Monitor, k: Key)
    requires Joined(n, m, k)
    ensures Joined(Forgotten(n), m, k) && Synced(Forgotten(n))
  {
  }

  lemma CloseLinked(n: Net, conn: int, f: Frame, stale: seq<u8>, later: seq<u8>, m: Monitor, k: Key)
    requires Joined(n, m, k) && Synced(n) && FrameOk(f, k) && |stale| == |later| == APPDATA
    ensures HandledOk(HandleClose(n, conn, f, stale, later), m, k)
  {
    NetPollLinked(n, f, stale, m, k);
    var p := NetPoll(n, f, stale);
    var q, m1 := p.net, WatchAll(m, p.trace).value;
    if ConnValid(q.sock, conn) {
      ClosingJoined(q, m1, k);
      KickLinked(CloseRequested(q), later, m1, k);
      var kicked := Kick(CloseRequested(q), later);
      WatchAppend(m, p.trace, kicked.trace);
      ForgottenJoined(kicked.net, WatchAll(m1, kicked.trace).value, k);
    }
  }

  lemma TimerLinked(n: Net, i: nat, stale: seq<u8>, m: Monitor, k: Key)
    requires Joined(n, m, k) && Synced(n) && |stale| == APPDATA && i < CONNS
    ensures HandledOk(HandleTimer(n, i, stale), m, k)
  {
    var e := Timer(i, ReplyFor(n.bridge, TimerHalf(n.stack, i), stale));
    ProcessLinked(n, e, stale, m, k);
    TimerKeepsPending(n.stack.conns[i], n.stack.host);
  }

  /** The timer reports neither acknowledgements nor connections. */
  lemma TimerKeepsPending(c: Conn, host: u32)
    ensures var next := Tick(c, host).1; next.Call? ==> !next.flags.ackdata && !next.flags.connected
  {
  }

  /** sock_listen may orphan bytes in flight: it closes both copies, so no request
      is taken before a new connection. */
  lemma ListenLinked(n: Net, port: int, m: Monitor, k: Key)
    requires Joined(n, m, k) && Synced(n)
    ensures HandledOk(HandleListen(n, port), m, k)
  {
    WatchOne(m, Listening);
  }

  /** The handlers' own bookkeeping does not touch the connection. */
  lemma SockChanges(n: Net, s: Sock, m: Monitor, k: Key)
    requires Joined(n, m, k) && |s.rxBuf| == NET_BUF_SIZE && s.open == n.sock.open
    ensures Joined(n.(sock := s), m, k) && Joined(n.(sock := s, bridge := n.bridge.(pending := false)), m, k)
  {
  }

  lemma AcceptLinked(n: Net, f: Frame, stale: seq<u8>, m: Monitor, k: Key)
    requires Joined(n, m, k) && Synced(n) && FrameOk(f, k) && |stale| == APPDATA
    ensures HandledOk(HandleAccept(n, f, stale), m, k)
  {
    NetPollLinked(n, f, stale, m, k);
    var p := NetPoll(n, f, stale);
    SockChanges(p.net, p.net.sock.(pending := false), WatchAll(m, p.trace).value, k);
  }

  lemma RecvLinked(n: Net, conn: int, length: nat, f: Frame, stale: seq<u8>, m: Monitor, k: Key)
    requires Joined(n, m, k) && Synced(n) && FrameOk(f, k) && |stale| == APPDATA && length <= NET_BUF_SIZE
    ensures HandledOk(HandleRecv(n, conn, length, f, stale), m, k)
  {
    NetPollLinked(n, f, stale, m, k);
    var p := NetPoll(n, f, stale);
    SockChanges(p.net, p.net.sock.(rxLen := 0), WatchAll(m, p.trace).value, k);
    RecvNet(n, conn, length, f, stale);
  }

  /** Apart from polling, a receive only empties the receive buffer. */
  lemma RecvNet(n: Net, conn: int, length: nat, f: Frame, stale: seq<u8>)
    requires NetOk(n) && |stale| == APPDATA && (f.TcpFrame? ==> InputOk(f.seg)) && length <= NET_BUF_SIZE
    ensures var h, p := HandleRecv(n, conn, length, f, stale), NetPoll(n, f, stale);
            h.trace == p.trace && (h.net == p.net || h.net == p.net.(sock := p.net.sock.(rxLen := 0)))
  {
  }

  /** Every request handler keeps the bridge invariant and the monitor content. */
  lemma HandleLinked(n: Net, r: Request, f: Frame, stale: seq<u8>, later: seq<u8>, m: Monitor, k: Key)
    requires Joined(n, m, k) && Synced(n) && FrameOk(f, k) && |stale| == |later| == APPDATA && RequestOk(r, f)
    ensures HandledOk(Handle(n, r, f, stale, later), m, k)
  {
    match r
    case SockListen(port) => ListenLinked(n, port, m, k);
    case SockSend(conn, data) => SendLinked(n, conn, data, f, stale, later, m, k);
    case SockClose(conn) => CloseLinked(n, conn, f, stale, later, m, k);
    case Periodic(i) => TimerLinked(n, i, stale, m, k);
    case SockAccept => AcceptLinked(n, f, stale, m, k);
    case SockRecv(conn, length) => RecvLinked(n, conn, length, f, stale, m, k);
  }

  // --- Runs ------------------------------------------------------------------

  ghost predicate TurnOk(t: Turn, k: Key) {
    FrameOk(t.frame, k) && |t.stale| == |t.later| == APPDATA && RequestOk(t.request, t.frame)
  }

  ghost predicate ServiceRun(n: Net, ts: seq<Turn>, k: Key)
    requires NetOk(n)
    decreases |ts|
  {
    ts == [] || (TurnOk(ts[0], k) && ServiceRun(Handle(n, ts[0].request, ts[0].frame, ts[0].stale, ts[0].later).net, ts[1..], k))
  }

  ghost function Trace(n: Net, ts: seq<Turn>, k: Key): seq<Observation>
    requires NetOk(n) && ServiceRun(n, ts, k)
    decreases |ts|
  {
    if ts == [] then []
    else
      var h := Handle(n, ts[0].request, ts[0].frame, ts[0].stale, ts[0].later);
      h.trace + Trace(h.net, ts[1..], k)
  }

  lemma {:induction false} RunStable(n: Net, ts: seq<Turn>, m: Monitor, k: Key)
    requires Joined(n, m, k) && Synced(n) && ServiceRun(n, ts, k)
    ensures WatchAll(m, Trace(n, ts, k)).Some?
    decreases |ts|
  {
    if ts != [] {
      HandleLinked(n, ts[0].request, ts[0].frame, ts[0].stale, ts[0].later, m, k);
      var h := Handle(n, ts[0].request, ts[0].frame, ts[0].stale, ts[0].later);
      RunStable(h.net, ts[1..], WatchAll(m, h.trace).value, k);
      WatchAppend(m, h.trace, Trace(h.net, ts[1..], k));
    }
  }

  predicate Interrupts(o: Observation) {
    o.Accepted? || o.Acknowledged? || o.Connected? || o.Listening?
  }

  /** The last request taken before position `i` of a trace. */
  function LastRequest(t: seq<Observation>, i: nat): Option<seq<u8>>
    requires i <= |t|
  {
    if i == 0 then None
    else if t[i - 1].Accepted? then Some(t[i - 1].request)
    else LastRequest(t, i - 1)
  }

  /** What the monitor knows after a prefix of an accepted trace. */
  lemma {:induction false} WatchPrefix(t: seq<Observation>, i: nat)
    requires i <= |t| && WatchAll(Idle, t).Some?
    ensures var w := WatchAll(Idle, t[..i]);
            w.Some? && (!w.value.Idle? ==> LastRequest(t, i) == Some(w.value.request))
            && (w.value.Flying? ==> w.value.bytes <= w.value.request)
  {
    assert t == t[..i] + t[i..];
    WatchAppend(Idle, t[..i], t[i..]);
    if i > 0 {
      WatchPrefix(t, i - 1);
      assert t[..i] == t[..i - 1] + [t[i - 1]];
      WatchAppend(Idle, t[..i - 1], [t[i - 1]]);
      WatchOne(WatchAll(Idle, t[..i - 1]).value, t[i - 1]);
    }
  }

  lemma WatchNext(t: seq<Observation>, i: nat)
    requires i < |t| && WatchAll(Idle, t).Some?
    ensures WatchAll(Idle, t[..i]).Some? && WatchAll(Idle, t[..i + 1]).Some?
    ensures Watch(WatchAll(Idle, t[..i]).value, t[i]) == WatchAll(Idle, t[..i + 1])
  {
    WatchPrefix(t, i);
    WatchPrefix(t, i + 1);
    assert t[..i + 1] == t[..i] + [t[i]];
    WatchAppend(Idle, t[..i], [t[i]]);
    WatchOne(WatchAll(Idle, t[..i]).value, t[i]);
  }

  /** While nothing interrupts, the bytes in flight stay what they are. */
  lemma {:induction false} StillFlying(t: seq<Observation>, i: nat, j: nat)
    requires i < j <= |t| && WatchAll(Idle, t).Some? && t[i].Sent? && t[i].seg.data != []
    requires forall x | i < x < j :: !Interrupts(t[x])
    ensures var w := WatchAll(Idle, t[..j]);
            w.Some? && w.value.Flying? && w.value.seqno == t[i].seg.seqno && w.value.bytes == t[i].seg.data
    decreases j
  {
    WatchNext(t, j - 1);
    if j > i + 1 {
      StillFlying(t, i, j - 1);
    }
  }

  /** Stability of a trace, in terms of its segments. */
  ghost predicate StableAt(t: seq<Observation>, i: nat, j: nat)
    requires i <= j < |t|
  {
    && (t[j].Sent? && t[j].seg.data != [] ==>
          LastRequest(t, j).Some? && t[j].seg.data <= LastRequest(t, j).value)
    && (t[i].Sent? && t[j].Sent? && t[i].seg.data != [] && t[j].seg.data != []
        && (forall x | i < x < j :: !Interrupts(t[x])) ==>
          t[i].seg.seqno == t[j].seg.seqno && t[i].seg.data == t[j].seg.data)
  }

  lemma WatchedStable(t: seq<Observation>, i: nat, j: nat)
    requires WatchAll(Idle, t).Some? && i <= j < |t|
    ensures StableAt(t, i, j)
  {
    WatchNext(t, j);
    WatchPrefix(t, j);
    if i < j && t[i].Sent? && t[i].seg.data != [] && forall x | i < x < j :: !Interrupts(t[x]) {
      StillFlying(t, i, j);
    }
  }

  /** The freshly started service meets the invariant. */
  lemma InitialJoined(host: u32, rx: seq<u8>, hrx: seq<u8>, htx: seq<u8>, k: Key)
    requires |rx| == NET_BUF_SIZE && |hrx| == UIP_BUFSIZE && |htx| == UIP_BUFSIZE
    ensures Joined(InitialNet(host, rx, hrx, htx), Idle, k)
  {
    LookupNone(Initial(host), k);
  }

  /** Retransmission stability, for every run of the freshly started service on
      one connection: each data segment carries leading bytes of the last request
      taken, and two data segments with no acknowledgement, new request, new
      connection or sock_listen in between are the same bytes under the same
      sequence number. */
  lemma RetransmissionStability(host: u32, rx: seq<u8>, hrx: seq<u8>, htx: seq<u8>, ts: seq<Turn>, k: Key, i: nat, j: nat)
    requires |rx| == NET_BUF_SIZE && |hrx| == UIP_BUFSIZE && |htx| == UIP_BUFSIZE
    requires ServiceRun(InitialNet(host, rx, hrx, htx), ts, k) && i <= j < |Trace(InitialNet(host, rx, hrx, htx), ts, k)|
    ensures StableAt(Trace(InitialNet(host, rx, hrx, htx), ts, k), i, j)
  {
    var n := InitialNet(host, rx, hrx, htx);
    InitialJoined(host, rx, hrx, htx, k);
    RunStable(n, ts, Idle, k);
    WatchedStable(Trace(n, ts, k), i, j);
  }
}
