/** A request outlives its connection: a reset clears the callback's connection
    flags but not `httpd_socket_tx_pending`, so a request that was not acknowledged
    goes out on the next connection. */
module CarriedOver {
  import opened Words
  import opened Tcp
  import opened TcpInvariant
  import opened Stack
  import opened Table
  import opened Platform
  import opened Socket
  import opened SocketStable

  // --- The exact condition ---------------------------------------------------

  /** The data segment at `j` carries a request accepted since the last connection. */
  ghost predicate OwnRequest(t: seq<Observation>, j: nat)
    requires j <= |t|
  {
    exists x :: 0 <= x < j && t[x].Accepted? && forall y | x < y < j :: !t[y].Connected?
  }

  predicate IsData(o: Observation) { o.Sent? && o.seg.data != [] }

  /** Nothing but requests, acknowledgements and bare segments in between. */
  ghost predicate FirstData(t: seq<Observation>, i: nat, j: nat) {
    && i < j < |t| && t[i].Connected? && IsData(t[j])
    && forall y | i < y < j :: !t[y].Connected? && !t[y].Listening? && !IsData(t[y])
  }

  /** With nothing held, a request must be taken before anything is held. */
  lemma {:induction false} IdleUntilAccepted(t: seq<Observation>, i: nat, j: nat)
    requires WatchAll(Idle, t).Some? && i <= j <= |t| && WatchAll(Idle, t[..i]) == Some(Idle)
    requires forall y | i <= y < j :: !t[y].Accepted?
    ensures WatchAll(Idle, t[..j]) == Some(Idle)
    decreases j
  {
    if i < j {
      IdleUntilAccepted(t, i, j - 1);
      WatchNext(t, j - 1);
    }
  }

  /** With a request held, none is taken before its data goes out. */
  lemma {:induction false} WaitsForData(t: seq<Observation>, i: nat, j: nat)
    requires WatchAll(Idle, t).Some? && i <= j <= |t| && WatchAll(Idle, t[..i]).Some? && WatchAll(Idle, t[..i]).value.Waiting?
    requires forall y | i <= y < j :: !t[y].Connected? && !t[y].Listening? && !IsData(t[y])
    ensures WatchAll(Idle, t[..j]).Some? && WatchAll(Idle, t[..j]).value.Waiting?
    ensures forall y | i <= y < j :: !t[y].Accepted?
    decreases j
  {
    if i < j {
      WaitsForData(t, i, j - 1);
      WatchNext(t, j - 1);
    }
  }

  /** The first data segment of a connection carries a request accepted on it if
      and only if nothing was held when the callback was told of the connection. */
  lemma CarriedExactly(t: seq<Observation>, i: nat, j: nat)
    requires WatchAll(Idle, t).Some? && FirstData(t, i, j)
    ensures WatchAll(Idle, t[..i]).Some?
    ensures OwnRequest(t, j) <==> WatchAll(Idle, t[..i]).value.Idle?
  {
    WatchNext(t, i);
    WatchNext(t, j);
    if WatchAll(Idle, t[..i]).value.Idle? {
      if forall y | i + 1 <= y < j :: !t[y].Accepted? {
        IdleUntilAccepted(t, i + 1, j);
      } else {
        var x :| i + 1 <= x < j && t[x].Accepted?;
        assert forall y | x < y < j :: !t[y].Connected?;
      }
    } else {
      WaitsForData(t, i + 1, j);
    }
  }

  /** What the monitor holds is what `httpd_socket_tx_pending` says. */
  lemma HeldIsPending(n: Net, m: Monitor, k: Key)
    requires Joined(n, m, k)
    ensures m.Idle? <==> !n.bridge.txPending
  {
  }

  ghost function NetAfter(n: Net, ts: seq<Turn>, k: Key): (r: Net)
    requires NetOk(n) && ServiceRun(n, ts, k)
    ensures NetOk(r)
    decreases |ts|
  {
    if ts == [] then n else NetAfter(Handle(n, ts[0].request, ts[0].frame, ts[0].stale, ts[0].later).net, ts[1..], k)
  }

  /** A run ends in a state the monitor of its trace agrees with. */
  lemma {:induction false} RunJoined(n: Net, ts: seq<Turn>, m: Monitor, k: Key)
    requires Joined(n, m, k) && Synced(n) && ServiceRun(n, ts, k)
    ensures WatchAll(m, Trace(n, ts, k)).Some?
    ensures Joined(NetAfter(n, ts, k), WatchAll(m, Trace(n, ts, k)).value, k) && Synced(NetAfter(n, ts, k))
    decreases |ts|
  {
    if ts != [] {
      HandleLinked(n, ts[0].request, ts[0].frame, ts[0].stale, ts[0].later, m, k);
      var h := Handle(n, ts[0].request, ts[0].frame, ts[0].stale, ts[0].later);
      var m1 := WatchAll(m, h.trace).value;
      RunJoined(h.net, ts[1..], m1, k);
      WatchAppend(m, h.trace, Trace(h.net, ts[1..], k));
    }
  }

  /** Two stretches of a run. */
  ghost predicate Runs(n: Net, before: seq<Turn>, since: seq<Turn>, k: Key) {
    NetOk(n) && ServiceRun(n, before, k) && ServiceRun(NetAfter(n, before, k), since, k)
  }

  ghost function WholeTrace(n: Net, before: seq<Turn>, since: seq<Turn>, k: Key): seq<Observation>
    requires Runs(n, before, since, k)
  {
    Trace(n, before, k) + Trace(NetAfter(n, before, k), since, k)
  }

  /** In every run of the service, `before` being the turns up to a connected call:
      the first data segment of that connection carries a request accepted on it if
      and only if nothing is pending at the call. The freshly started service meets
      the requirement on `n`. */
  lemma CarriedInRuns(n: Net, before: seq<Turn>, since: seq<Turn>, k: Key, j: nat)
    requires Joined(n, Idle, k) && Synced(n) && Runs(n, before, since, k)
    requires FirstData(WholeTrace(n, before, since, k), |Trace(n, before, k)|, j)
    ensures OwnRequest(WholeTrace(n, before, since, k), j) <==> !NetAfter(n, before, k).bridge.txPending
  {
    RunJoined(n, before, Idle, k);
    var n1, t := NetAfter(n, before, k), Trace(n, before, k);
    var m := WatchAll(Idle, t).value;
    RunStable(n1, since, m, k);
    WatchAppend(Idle, t, Trace(n1, since, k));
    assert (t + Trace(n1, since, k))[..|t|] == t;
    CarriedExactly(t + Trace(n1, since, k), |t|, j);
    HeldIsPending(n1, m, k);
  }

  // --- The failure at a run --------------------------------------------------

  /** No connection, and the service listens on the port of `k`. */
  predicate Empty(n: Net, k: Key) {
    && (forall i | 0 <= i < |n.stack.conns| :: n.stack.conns[i].state == CLOSED)
    && k.lport in n.stack.listening && n.sock.listenPort >= 0 && ListenKey(n) == k.lport && !n.bridge.closePending
  }

  /** Slot 0 has the only connection. */
  predicate One(n: Net, k: Key, state: State, rcv: u32, snd: u32, len: u16) {
    && |n.stack.conns| > 0
    && (forall i | 0 < i < |n.stack.conns| :: n.stack.conns[i].state == CLOSED)
    && k.lport in n.stack.listening && n.sock.listenPort >= 0 && ListenKey(n) == k.lport && !n.bridge.closePending
    && var c := n.stack.conns[0];
    && c.state == state && KeyOf(c) == k && c.rcvNxt == rcv && c.sndNxt == snd && c.len == len && c.mss == MSS
  }

  /** The callback holds this request. */
  predicate Pending(n: Net, request: seq<u8>) {
    && n.bridge.txPending && n.bridge.txLen == |request| && |request| <= |n.bridge.txBuf|
    && n.bridge.txBuf[..|request|] == request
  }

  function Peer(k: Key, host: u32, seqno: u32, ackno: u32, ctl: Ctl, options: seq<u8>, data: seq<u8>): Segment {
    Segment(k.ip, host, k.rport, k.lport, seqno, ackno, ctl, MSS, options, data)
  }

  /** A SYN opens a connection and changes nothing else. */
  lemma SynPoll(n: Net, k: Key, host: u32, stale: seq<u8>)
    requires NetOk(n) && Empty(n, k) && |stale| == APPDATA
    ensures InputOk(Peer(k, host, 100, 0, SYN, MSS_OPTION, []))
    ensures var p := NetPoll(n, TcpFrame(Peer(k, host, 100, 0, SYN, MSS_OPTION, [])), stale);
            && One(p.net, k, SYN_RCVD, 101, n.stack.iss, 1) && p.net.stack.iss == n.stack.iss
            && p.net.bridge.txPending == n.bridge.txPending && p.net.bridge.txLen == n.bridge.txLen && p.net.bridge.txBuf == n.bridge.txBuf
            && |p.trace| == 1 && p.trace[0].Sent? && p.trace[0].seg.data == []
  {
    var seg := Peer(k, host, 100, 0, SYN, MSS_OPTION, []);
    MssParses();
    assert FindConn(n.stack.conns, k, 0) == |n.stack.conns|;
    assert FindSlot(n.stack.conns, 0, None) == Some(0);
  }

  lemma MssParses()
    ensures OptionsOk(MSS_OPTION, 0) && MssOption(MSS_OPTION, 0) == Some(MSS)
  {
    var o := MSS_OPTION;
    assert OptionsOk(o, 4);
  }

  /** The first half of the acknowledgement of a SYN-ACK. */
  lemma AckHalf(c: Conn, k: Key, host: u32, snd: u32, data: seq<u8>)
    requires c.state == SYN_RCVD && KeyOf(c) == k && c.rcvNxt == 101 && c.sndNxt == snd && c.len == 1 && |data| <= 1
    ensures InputOk(Peer(k, host, 101, Add32(snd, 1), ACK, [], data))
    ensures var (c1, next) := Receive(c, Peer(k, host, 101, Add32(snd, 1), ACK, [], data), host);
            && c1.state == ESTABLISHED && KeyOf(c1) == k && c1.rcvNxt == 101 + |data| && c1.sndNxt == Add32(snd, 1) && c1.len == 0
            && c1.mss == c.mss && c1.initialmss == c.initialmss
            && next == Call(NOFLAGS.(connected := true, newdata := data != []), data, AppSend)
  {
  }

  /** The acknowledgement of the SYN-ACK connects. */
  lemma AckPoll(n: Net, k: Key, snd: u32, stale: seq<u8>)
    requires NetOk(n) && One(n, k, SYN_RCVD, 101, snd, 1) && !n.bridge.txPending && |stale| == APPDATA
    ensures InputOk(Peer(k, n.stack.host, 101, Add32(snd, 1), ACK, [], []))
    ensures var p := NetPoll(n, TcpFrame(Peer(k, n.stack.host, 101, Add32(snd, 1), ACK, [], [])), stale);
            && One(p.net, k, ESTABLISHED, 101, Add32(snd, 1), 0) && p.net.stack.iss == n.stack.iss && p.net.sock.open
            && !p.net.bridge.txPending && !p.net.sock.txPending && p.trace == [Connected]
  {
    assert FindConn(n.stack.conns, k, 0) == 0;
    AckHalf(n.stack.conns[0], k, n.stack.host, snd, []);
  }

  /** The acknowledgement of the SYN-ACK with data on it: the callback answers new
      data with whatever it holds. */
  lemma AckDataPoll(n: Net, k: Key, snd: u32, stale: seq<u8>)
    requires NetOk(n) && One(n, k, SYN_RCVD, 101, snd, 1) && Pending(n, [7]) && |stale| == APPDATA
    ensures InputOk(Peer(k, n.stack.host, 101, Add32(snd, 1), ACK, [], [9]))
    ensures var p := NetPoll(n, TcpFrame(Peer(k, n.stack.host, 101, Add32(snd, 1), ACK, [], [9])), stale);
            && |p.trace| == 2 && p.trace[0] == Connected && p.trace[1].Sent? && p.trace[1].seg.data == [7]
  {
    assert FindConn(n.stack.conns, k, 0) == 0;
    AckHalf(n.stack.conns[0], k, n.stack.host, snd, [9]);
    var e := Input(Peer(k, n.stack.host, 101, Add32(snd, 1), ACK, [], [9]), ReplyFor(n.bridge, InputHalf(n.stack, Peer(k, n.stack.host, 101, Add32(snd, 1), ACK, [], [9])), stale));
    assert e.r.slen == 1 && e.r.buf[..1] == [7];
  }

  /** A reset ends the connection; the request stays. */
  lemma RstPoll(n: Net, k: Key, host: u32, snd: u32, stale: seq<u8>)
    requires NetOk(n) && One(n, k, ESTABLISHED, 101, snd, 1) && |stale| == APPDATA
    ensures InputOk(Peer(k, host, 101, snd, RST_ACK, [], []))
    ensures var p := NetPoll(n, TcpFrame(Peer(k, host, 101, snd, RST_ACK, [], [])), stale);
            && Empty(p.net, k) && p.net.stack.iss == n.stack.iss && p.trace == []
            && p.net.bridge.txPending == n.bridge.txPending && p.net.bridge.txLen == n.bridge.txLen && p.net.bridge.txBuf == n.bridge.txBuf
  {
    assert FindConn(n.stack.conns, k, 0) == 0;
  }

  /** The poll that follows an accepted request sends it. */
  lemma KickSends(q: Net, k: Key, snd: u32, stale: seq<u8>)
    requires NetOk(q) && One(q, k, ESTABLISHED, 101, snd, 0) && Pending(q, [7]) && |stale| == APPDATA
    ensures var p := Kick(q, stale);
            && One(p.net, k, ESTABLISHED, 101, snd, 1) && p.net.stack.iss == q.stack.iss && Pending(p.net, [7])
            && |p.trace| == 1 && p.trace[0].Sent?
  {
    assert FindActive(q.stack.conns, ListenKey(q), 0) == 0;
    var r := ReplyFor(q.bridge, PollHalf(q.stack, 0), stale);
    assert r.slen == 1;
  }

  /** sock_send on an idle connection. */
  lemma SendTurn(n: Net, k: Key, snd: u32, stale: seq<u8>)
    requires NetOk(n) && One(n, k, ESTABLISHED, 101, snd, 0) && n.sock.open && !n.sock.txPending && |stale| == APPDATA
    ensures var h := HandleSend(n, CONN_ID, [7], NoFrame, stale, stale);
            && One(h.net, k, ESTABLISHED, 101, snd, 1) && h.net.stack.iss == n.stack.iss && Pending(h.net, [7])
  {
    var q := Taken(n, [7]);
    assert q.bridge.txBuf[..1] == [7];
    KickSends(q, k, snd, stale);
  }

  lemma RunCons(n: Net, t: Turn, ts: seq<Turn>, k: Key)
    requires NetOk(n) && TurnOk(t, k) && ServiceRun(Handle(n, t.request, t.frame, t.stale, t.later).net, ts, k)
    ensures ServiceRun(n, [t] + ts, k)
    ensures NetAfter(n, [t] + ts, k) == NetAfter(Handle(n, t.request, t.frame, t.stale, t.later).net, ts, k)
  {
    assert ([t] + ts)[0] == t && ([t] + ts)[1..] == ts;
  }

  /** The run leads to a new connection while the old request is pending. */
  ghost predicate Leads(n: Net, ts: seq<Turn>, k: Key)
    requires NetOk(n)
  {
    && ServiceRun(n, ts, k)
    && One(NetAfter(n, ts, k), k, SYN_RCVD, 101, n.stack.iss, 1) && Pending(NetAfter(n, ts, k), [7])
  }

  ghost predicate CanLead(n: Net, k: Key) {
    NetOk(n) && exists ts :: Leads(n, ts, k)
  }

  lemma LeadsCons(n: Net, t: Turn, k: Key)
    requires NetOk(n) && TurnOk(t, k)
    requires var h := Handle(n, t.request, t.frame, t.stale, t.later); CanLead(h.net, k) && h.net.stack.iss == n.stack.iss
    ensures CanLead(n, k)
  {
    var n1 := Handle(n, t.request, t.frame, t.stale, t.later).net;
    var rest :| Leads(n1, rest, k);
    RunCons(n, t, rest, k);
    assert Leads(n, [t] + rest, k);
  }

  /** A message that makes the service poll; its connection id is invalid. */
  function PollTurn(seg: Segment, stale: seq<u8>): Turn { Turn(SockRecv(0, 0), TcpFrame(seg), stale, stale) }

  lemma PollHandled(n: Net, seg: Segment, stale: seq<u8>)
    requires NetOk(n) && InputOk(seg) && |stale| == APPDATA
    ensures var h, p := Handle(n, SockRecv(0, 0), TcpFrame(seg), stale, stale), NetPoll(n, TcpFrame(seg), stale);
            h.net == p.net && h.trace == p.trace
  {
  }

  lemma AfterReset(n: Net, k: Key, host: u32, stale: seq<u8>)
    requires NetOk(n) && Empty(n, k) && Pending(n, [7]) && |stale| == APPDATA
    ensures CanLead(n, k)
  {
    var seg := Peer(k, host, 100, 0, SYN, MSS_OPTION, []);
    SynPoll(n, k, host, stale);
    PollHandled(n, seg, stale);
    RunCons(n, PollTurn(seg, stale), [], k);
    assert Leads(n, [PollTurn(seg, stale)] + [], k);
  }

  lemma AfterSend(n: Net, k: Key, host: u32, snd: u32, stale: seq<u8>)
    requires NetOk(n) && One(n, k, ESTABLISHED, 101, snd, 1) && Pending(n, [7]) && |stale| == APPDATA
    ensures CanLead(n, k)
  {
    var seg := Peer(k, host, 101, snd, RST_ACK, [], []);
    RstPoll(n, k, host, snd, stale);
    PollHandled(n, seg, stale);
    AfterReset(NetPoll(n, TcpFrame(seg), stale).net, k, host, stale);
    LeadsCons(n, PollTurn(seg, stale), k);
  }

  lemma AfterConnected(n: Net, k: Key, host: u32, snd: u32, stale: seq<u8>)
    requires NetOk(n) && One(n, k, ESTABLISHED, 101, snd, 0) && n.sock.open && !n.sock.txPending && |stale| == APPDATA
    ensures CanLead(n, k)
  {
    var t := Turn(SockSend(CONN_ID, [7]), NoFrame, stale, stale);
    SendTurn(n, k, snd, stale);
    AfterSend(HandleSend(n, CONN_ID, [7], NoFrame, stale, stale).net, k, host, snd, stale);
    LeadsCons(n, t, k);
  }

  lemma AfterSyn(n: Net, k: Key, host: u32, snd: u32, stale: seq<u8>)
    requires NetOk(n) && One(n, k, SYN_RCVD, 101, snd, 1) && !n.bridge.txPending && |stale| == APPDATA
    ensures CanLead(n, k)
  {
    var seg := Peer(k, n.stack.host, 101, Add32(snd, 1), ACK, [], []);
    AckPoll(n, k, snd, stale);
    PollHandled(n, seg, stale);
    AfterConnected(NetPoll(n, TcpFrame(seg), stale).net, k, host, Add32(snd, 1), stale);
    LeadsCons(n, PollTurn(seg, stale), k);
  }

  lemma AfterListen(n: Net, k: Key, host: u32, stale: seq<u8>)
    requires NetOk(n) && Empty(n, k) && !n.bridge.txPending && |stale| == APPDATA
    ensures CanLead(n, k)
  {
    var seg := Peer(k, host, 100, 0, SYN, MSS_OPTION, []);
    SynPoll(n, k, host, stale);
    PollHandled(n, seg, stale);
    AfterSyn(NetPoll(n, TcpFrame(seg), stale).net, k, host, n.stack.iss, stale);
    LeadsCons(n, PollTurn(seg, stale), k);
  }

  lemma FirstPort(ports: seq<u16>, port: u16)
    requires ports != [] && ports[0] == 0
    ensures port in Listen(ports, port)
  {
    assert Listen(ports, port)[0] == port;
  }

  lemma ListenEmpty(n: Net, port: nat, k: Key)
    requires NetOk(n) && 0 < port < 0x1_0000 && k.lport == Htons(port) && n.stack.listening != [] && n.stack.listening[0] == 0
    requires forall i | 0 <= i < |n.stack.conns| :: n.stack.conns[i].state == CLOSED
    ensures var h := HandleListen(n, port); Empty(h.net, k) && !h.net.bridge.txPending && h.net.stack.iss == n.stack.iss
  {
    FirstPort(n.stack.listening, Htons(port));
  }

  lemma FromStart(host: u32, rx: seq<u8>, hrx: seq<u8>, htx: seq<u8>, k: Key, port: nat, stale: seq<u8>)
    requires |rx| == NET_BUF_SIZE && |hrx| == UIP_BUFSIZE && |htx| == UIP_BUFSIZE && |stale| == APPDATA
    requires 0 < port < 0x1_0000 && k.lport == Htons(port)
    ensures CanLead(InitialNet(host, rx, hrx, htx), k)
  {
    var n, t := InitialNet(host, rx, hrx, htx), Turn(SockListen(port), NoFrame, stale, stale);
    ListenEmpty(n, port, k);
    AfterListen(HandleListen(n, port).net, k, host, stale);
    LeadsCons(n, t, k);
  }

  /** The second connection starts with the data of the first. */
  ghost predicate Carries(n: Net, before: seq<Turn>, since: seq<Turn>, k: Key) {
    && Runs(n, before, since, k)
    && var i, t := |Trace(n, before, k)|, WholeTrace(n, before, since, k);
    && |t| == i + 2 && t[i].Connected? && t[i + 1].Sent? && t[i + 1].seg.data == [7]
  }

  lemma SecondConnection(n: Net, before: seq<Turn>, k: Key, stale: seq<u8>)
    requires NetOk(n) && Leads(n, before, k) && |stale| == APPDATA
    ensures exists since :: Carries(n, before, since, k)
  {
    var n1 := NetAfter(n, before, k);
    var seg := Peer(k, n1.stack.host, 101, Add32(n.stack.iss, 1), ACK, [], [9]);
    AckDataPoll(n1, k, n.stack.iss, stale);
    PollHandled(n1, seg, stale);
    OneTurn(n1, PollTurn(seg, stale), k);
    assert Carries(n, before, [PollTurn(seg, stale)], k);
  }

  lemma NotOwn(n: Net, before: seq<Turn>, since: seq<Turn>, k: Key)
    requires Joined(n, Idle, k) && Synced(n) && Carries(n, before, since, k) && NetAfter(n, before, k).bridge.txPending
    ensures !OwnRequest(WholeTrace(n, before, since, k), |Trace(n, before, k)| + 1)
  {
    Adjacent(WholeTrace(n, before, since, k), |Trace(n, before, k)|);
    CarriedInRuns(n, before, since, k, |Trace(n, before, k)| + 1);
  }

  lemma Adjacent(t: seq<Observation>, i: nat)
    requires |t| == i + 2 && t[i].Connected? && IsData(t[i + 1])
    ensures FirstData(t, i, i + 1)
  {
  }

  /** A run of the service (listen, connect, send 07, reset by the peer, connect
      again with data) in which the first data segment of the second connection
      carries the request accepted on the first. */
  lemma RequestCarriedOver(host: u32, rx: seq<u8>, hrx: seq<u8>, htx: seq<u8>, k: Key, port: nat, stale: seq<u8>)
    requires |rx| == NET_BUF_SIZE && |hrx| == UIP_BUFSIZE && |htx| == UIP_BUFSIZE && |stale| == APPDATA
    requires 0 < port < 0x1_0000 && k.lport == Htons(port)
    ensures exists before, since :: CarriesOld(InitialNet(host, rx, hrx, htx), before, since, k)
  {
    var n := InitialNet(host, rx, hrx, htx);
    FromStart(host, rx, hrx, htx, k, port, stale);
    var before :| Leads(n, before, k);
    InitialJoined(host, rx, hrx, htx, k);
    SecondConnection(n, before, k, stale);
    var since :| Carries(n, before, since, k);
    NotOwn(n, before, since, k);
    assert CarriesOld(n, before, since, k);
  }

  /** And these data were accepted on another connection. */
  ghost predicate CarriesOld(n: Net, before: seq<Turn>, since: seq<Turn>, k: Key) {
    Carries(n, before, since, k) && !OwnRequest(WholeTrace(n, before, since, k), |Trace(n, before, k)| + 1)
  }

  lemma OneTurn(n: Net, t: Turn, k: Key)
    requires NetOk(n) && TurnOk(t, k)
    ensures ServiceRun(n, [t], k) && Trace(n, [t], k) == Handle(n, t.request, t.frame, t.stale, t.later).trace
  {
    assert [t][1..] == [];
  }

  // --- Why one connection ----------------------------------------------------

  /** The first half of an in-sequence data segment on an idle connection. */
  lemma DataHalf(c: Conn, seg: Segment, host: u32)
    requires c.state == ESTABLISHED && c.len == 0 && c.initialmss > 0 && InputOk(seg)
    requires seg.ctl == ACK && seg.data != [] && seg.seqno == c.rcvNxt
    ensures var (c1, next) := Receive(c, seg, host);
            && c1.state == ESTABLISHED && c1.len == 0 && c1.mss > 0
            && next == Call(NOFLAGS.(newdata := true), AppBytes(seg), AppSend)
  {
  }

  /** With a second established connection the transmit buffer is shared: whatever
      is in flight elsewhere, new data on the idle connection in slot `i` makes the
      callback send the pending request there too. */
  lemma SharedBuffer(n: Net, i: nat, request: seq<u8>, seg: Segment, stale: seq<u8>)
    requires NetOk(n) && i < CONNS && Pending(n, request) && request != [] && !n.bridge.closePending && |stale| == APPDATA
    requires n.stack.conns[i].state == ESTABLISHED && n.stack.conns[i].len == 0 && n.stack.conns[i].initialmss > 0
    requires KeyFor(seg) == KeyOf(n.stack.conns[i]) && InputOk(seg)
    requires seg.ctl == ACK && seg.data != [] && seg.seqno == n.stack.conns[i].rcvNxt
    ensures var p := NetPoll(n, TcpFrame(seg), stale);
            |p.trace| == 1 && p.trace[0].Sent? && p.trace[0].seg.data != [] && p.trace[0].seg.data <= request
  {
    var k := KeyOf(n.stack.conns[i]);
    OwnKey(n.stack.conns, i);
    assert FindConn(n.stack.conns, k, 0) == i;
    DataHalf(n.stack.conns[i], seg, n.stack.host);
    var h := InputHalf(n.stack, seg);
    var r := ReplyFor(n.bridge, h, stale);
    assert r.slen == |request| && r.buf[..|request|] == request;
    var c1 := h.stack.conns[i];
    var m := if r.slen > c1.mss then c1.mss else r.slen;
    assert r.buf[..m] == request[..m];
  }
}
