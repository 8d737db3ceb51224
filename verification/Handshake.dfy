/** Two connections that meet: the handshake establishes both, data is acknowledged,
    and either way of closing ends both. */
module Handshake {
  import opened Words
  import opened Tcp
  import opened TcpInvariant
  import opened Stack
  import opened Endpoint

  // --- Every segment is answered ---------------------------------------------

  /** The application leaves the call's flags, or ends the connection. */
  predicate Attentive(r: Reply) { r.flags.newdata || r.flags.close || r.flags.abort }

  /** Text in sequence is acknowledged at once, with one exception: in FIN_WAIT_1 a
      segment that also acknowledges the FIN is taken in silence. */
  lemma DataAcknowledged(c: Conn, seg: Segment, host: u32, r: Reply)
    requires ConnOk(c) && InputOk(seg) && ReplyOk(r) && Attentive(r)
    requires !seg.ctl.rst && !seg.ctl.fin && !seg.ctl.syn && seg.data != [] && seg.seqno == c.rcvNxt
    requires c.state == ESTABLISHED || c.state == FIN_WAIT_1 || c.state == FIN_WAIT_2 || (c.state == SYN_RCVD && Acknowledges(c, seg))
    ensures var x := ReceiveLocal(c, seg, host, r);
            && (x.out.None? <==> c.state == FIN_WAIT_1 && Acknowledges(c, seg))
            && (x.out.Some? ==> x.out.value.ctl.ack && x.out.value.ackno == Add32(seg.seqno, |seg.data|))
            && (x.conn.Some? ==> x.conn.value.rcvNxt == Add32(seg.seqno, |seg.data|))
  {
    ReceiveKeeps(c, seg, host, 0, r);
    var (c1, next) := Receive(c, seg, host);
    TextTaken(c, seg, host);
    if next.Call? {
      CallAnswers(c1, host, seg, r);
    }
  }

  lemma TextTaken(c: Conn, seg: Segment, host: u32)
    requires InputOk(seg) && !seg.ctl.rst && !seg.ctl.fin && !seg.ctl.syn && seg.data != [] && seg.seqno == c.rcvNxt
    requires c.state == ESTABLISHED || c.state == FIN_WAIT_1 || c.state == FIN_WAIT_2 || (c.state == SYN_RCVD && Acknowledges(c, seg))
    ensures var (c1, next) := Receive(c, seg, host);
            && c1.rcvNxt == Add32(seg.seqno, |seg.data|)
            && match next
               case Drop => c.state == FIN_WAIT_1 && Acknowledges(c, seg)
               case Transmit(s) => s == FromConn(c1, host, ACK, [], []) && !(c.state == FIN_WAIT_1 && Acknowledges(c, seg))
               case Call(_, _, goto) => goto == AppSend && c.state != FIN_WAIT_1
  {
  }

  /** The answer of the application, or the bare acknowledgement, carries rcv_nxt. */
  lemma CallAnswers(c: Conn, host: u32, seg: Segment, r: Reply)
    requires SizesOk(c) && ReplyOk(r) && Attentive(r)
    ensures var d := Resume(c, host, AppSend, seg, r);
            d.out.Some? && d.out.value.ctl.ack && d.out.value.ackno == c.rcvNxt && d.conn.rcvNxt == c.rcvNxt
  {
  }

  /** A segment out of sequence changes nothing and is answered with the number
      expected, so a repeated FIN or lost acknowledgement is made good. */
  lemma StaleAnswered(c: Conn, seg: Segment, host: u32, r: Reply)
    requires ConnOk(c) && c.state != CLOSED && InputOk(seg) && ReplyOk(r) && !seg.ctl.rst && OutOfSequence(c, seg)
    ensures var x := ReceiveLocal(c, seg, host, r);
            && x.conn == Some(c) && x.call == None && x.taken == []
            && x.out.Some? && x.out.value.ctl == ACK && x.out.value.data == []
            && x.out.value.seqno == c.sndNxt && x.out.value.ackno == c.rcvNxt
  {
  }

  /** New data goes out under the next number and is outstanding from then on. */
  predicate SendsNew(c: Conn, x: Local, r: Reply)
    requires ReplyOk(r) && SizesOk(c)
  {
    var d := r.buf[..if r.slen > c.mss then c.mss else r.slen];
    && x.taken == d && x.out.Some? && x.out.value.data == d && x.out.value.seqno == c.sndNxt
    && x.conn.Some? && x.conn.value.len == |d| && x.conn.value.nrtx == 0 && x.conn.value.sndNxt == c.sndNxt
  }

  /** An idle connection is polled by the timer and by a kick, and what the
      application then offers is sent, up to the segment size. */
  lemma IdleSends(c: Conn, host: u32, r: Reply)
    requires ConnOk(c) && c.state == ESTABLISHED && c.len == 0 && c.mss > 0 && ReplyOk(r)
    ensures TickLocal(c, host, r).call == Some(AppCall(KeyOf(c), POLL_FLAG, [])) == PollLocal(c, host, r).call
    ensures !r.flags.abort && !r.flags.close && r.slen > 0 ==>
              SendsNew(c, TickLocal(c, host, r), r) && SendsNew(c, PollLocal(c, host, r), r)
  {
  }

  /** An acknowledgement is reported, and the next data goes out behind the bytes
      acknowledged. */
  lemma AckReleases(c: Conn, seg: Segment, host: u32, r: Reply)
    requires ConnOk(c) && c.state == ESTABLISHED && InputOk(seg) && ReplyOk(r) && Acknowledges(c, seg) && c.initialmss > 0
    requires seg.ctl == ACK && seg.data == [] && !r.flags.abort && !r.flags.close
    ensures var x, c1 := ReceiveLocal(c, seg, host, r), WindowMss(c, seg.wnd).(sndNxt := Add32(c.sndNxt, c.len));
            && x.call.Some? && x.call.value.flags == NOFLAGS.(ackdata := true)
            && if r.slen > 0 then SendsNew(c1, x, r) else x.conn.Some? && x.conn.value.len == 0 && x.conn.value.sndNxt == c1.sndNxt
  {
    var ca := Acknowledged(c, seg);
    assert ca.state == ESTABLISHED && ca.len == 0 && ca.sndNxt == Add32(c.sndNxt, c.len) && ca.initialmss == c.initialmss;
    assert Receive(c, seg, host) == (WindowMss(Advance(ca, 0), seg.wnd), Call(NOFLAGS.(ackdata := true), AppBytes(seg), AppSend));
  }

  // --- Opening ---------------------------------------------------------------

  /** The segments between the two hosts reach the two connections. */
  predicate Paired(a: Conn, b: Conn, ha: u32, hb: u32) {
    a.ripaddr == hb && b.ripaddr == ha && a.lport == b.rport && a.rport == b.lport
  }

  /** Each side expects what the other sends next. */
  predicate Level(a: Conn, b: Conn) { a.rcvNxt == b.sndNxt && b.rcvNxt == a.sndNxt }

  predicate Quiet(r: Reply) { !r.flags.abort && !r.flags.close && r.slen == 0 }

  function SynOf(a: Conn, ha: u32): Segment { FromConn(a, ha, SYN, MSS_OPTION, []) }

  function SynAckOf(b: Conn, hb: u32): Segment { FromConn(b, hb, SYN_ACK, MSS_OPTION, []) }

  lemma OptionParses()
    ensures OptionsOk(MSS_OPTION, 0) && MssOption(MSS_OPTION, 0) == Some(366)
  {
    assert OptionsOk(MSS_OPTION, 4);
  }

  /** The SYN of an opening connection makes a listener a connection that answers it. */
  lemma SynAnswered(c: Conn, d: Conn, lport: u16, rport: u16, ha: u32, hb: u32, isa: u32, isb: u32)
    ensures var a := Opened(c, lport, hb, rport, isa);
            && InputOk(SynOf(a, ha))
            && var b := Accept(d, SynOf(a, ha), isb);
            && Paired(a, b, ha, hb) && b.rcvNxt == Add32(isa, 1) && b.sndNxt == isb && b.state == SYN_RCVD && b.len == 1
            && ConnOk(a) && ConnOk(b) && b.mss == b.initialmss == 366 && InputOk(SynAckOf(b, hb))
  {
    OptionParses();
  }

  /** The SYN-ACK establishes the opening side, which acknowledges it. */
  lemma OpenerEstablished(a: Conn, b: Conn, ha: u32, hb: u32, r: Reply)
    requires ConnOk(a) && Paired(a, b, ha, hb) && a.state == SYN_SENT && a.len == 1 && b.rcvNxt == Add32(a.sndNxt, 1)
    requires InputOk(SynAckOf(b, hb)) && ReplyOk(r) && Quiet(r) && r.flags.newdata
    ensures var x := ReceiveLocal(a, SynAckOf(b, hb), ha, r);
            && x.conn.Some? && x.conn.value.state == ESTABLISHED && x.conn.value.len == 0 && Paired(x.conn.value, b, ha, hb)
            && x.conn.value.rcvNxt == Add32(b.sndNxt, 1) && x.conn.value.sndNxt == Add32(a.sndNxt, 1)
            && x.call.Some? && x.call.value.flags.connected
            && x.out == Some(FromConn(x.conn.value, ha, ACK, [], []))
  {
  }

  /** That acknowledgement establishes the listening side. */
  lemma ListenerEstablished(a: Conn, b: Conn, ha: u32, hb: u32, r: Reply)
    requires ConnOk(b) && Paired(a, b, ha, hb) && b.state == SYN_RCVD && b.len == 1 && ReplyOk(r) && Quiet(r)
    requires a.rcvNxt == Add32(b.sndNxt, 1) && a.sndNxt == b.rcvNxt
    ensures var y := ReceiveLocal(b, FromConn(a, ha, ACK, [], []), hb, r);
            && y.conn.Some? && y.conn.value.state == ESTABLISHED && y.conn.value.len == 0
            && Paired(a, y.conn.value, ha, hb) && Level(a, y.conn.value)
            && y.call.Some? && y.call.value.flags.connected
  {
  }

  /** The three-way handshake: SYN, SYN-ACK and ACK leave both sides established,
      idle and level, with each application told once. */
  lemma Establishes(c: Conn, d: Conn, lport: u16, rport: u16, ha: u32, hb: u32, isa: u32, isb: u32, r: Reply, q: Reply)
    requires ReplyOk(r) && Quiet(r) && r.flags.newdata && ReplyOk(q) && Quiet(q)
    ensures var a := Opened(c, lport, hb, rport, isa);
            && ConnOk(a) && InputOk(SynOf(a, ha))
            && var b := Accept(d, SynOf(a, ha), isb);
            && ConnOk(b) && InputOk(SynAckOf(b, hb))
            && var x := ReceiveLocal(a, SynAckOf(b, hb), ha, r);
            && x.conn.Some? && x.out.Some? && InputOk(x.out.value) && KeyFor(x.out.value) == KeyOf(b)
            && var y := ReceiveLocal(b, x.out.value, hb, q);
            && y.conn.Some? && Paired(x.conn.value, y.conn.value, ha, hb) && Level(x.conn.value, y.conn.value)
            && x.conn.value.state == ESTABLISHED == y.conn.value.state && x.conn.value.len == 0 == y.conn.value.len
  {
    var a := Opened(c, lport, hb, rport, isa);
    SynAnswered(c, d, lport, rport, ha, hb, isa, isb);
    var b := Accept(d, SynOf(a, ha), isb);
    OpenerEstablished(a, b, ha, hb, r);
    var x := ReceiveLocal(a, SynAckOf(b, hb), ha, r);
    ListenerEstablished(x.conn.value, b, ha, hb, q);
  }

  // --- Closing ---------------------------------------------------------------

  function FinOf(a: Conn, ha: u32): Segment { FromConn(a, ha, FIN_ACK, [], []) }

  predicate Idle(a: Conn, b: Conn, ha: u32, hb: u32) {
    && Paired(a, b, ha, hb) && Level(a, b) && ConnOk(a) && ConnOk(b)
    && a.state == ESTABLISHED == b.state && a.len == 0 == b.len
  }

  /** The application closes at a poll: FIN_WAIT_1, and a FIN. */
  lemma CloseSendsFin(a: Conn, ha: u32, r: Reply)
    requires ConnOk(a) && a.state == ESTABLISHED && a.len == 0 && ReplyOk(r) && r.flags.close && !r.flags.abort
    ensures var x := PollLocal(a, ha, r); var f := a.(len := 1, state := FIN_WAIT_1, nrtx := 0);
            x.conn == Some(f) && ConnOk(f) && x.out == Some(FinOf(f, ha))
  {
  }

  /** The other side answers with its own FIN and waits for the last ACK. */
  lemma FinAnswered(a: Conn, b: Conn, ha: u32, hb: u32, r: Reply)
    requires Paired(a, b, ha, hb) && Level(a, b) && ConnOk(b) && b.state == ESTABLISHED && b.len == 0 && ReplyOk(r)
    ensures var y := ReceiveLocal(b, FinOf(a, ha), hb, r);
            && y.call.Some? && y.call.value.flags.close
            && y.conn.Some? && ConnOk(y.conn.value) && y.conn.value.state == LAST_ACK && y.conn.value.len == 1
            && y.conn.value.rcvNxt == Add32(a.sndNxt, 1) && y.conn.value.sndNxt == b.sndNxt
            && Paired(a, y.conn.value, ha, hb) && y.out == Some(FinOf(y.conn.value, hb))
  {
  }

  /** That FIN, which acknowledges the first, leads to TIME_WAIT. */
  lemma FirstFinDone(a: Conn, b: Conn, ha: u32, hb: u32, r: Reply)
    requires Paired(a, b, ha, hb) && ConnOk(a) && a.state == FIN_WAIT_1 && a.len == 1 && ReplyOk(r)
    requires b.rcvNxt == Add32(a.sndNxt, 1) && b.sndNxt == a.rcvNxt
    ensures var x := ReceiveLocal(a, FinOf(b, hb), ha, r);
            && x.conn.Some? && x.conn.value.state == TIME_WAIT && x.call.Some? && x.call.value.flags.close
            && x.out.Some? && x.out.value.ctl == ACK && x.out.value.data == [] && x.out.value.options == []
            && x.out.value.ackno == Add32(b.sndNxt, 1) && KeyFor(x.out.value) == KeyOf(b)
  {
  }

  /** The last ACK ends the other side. */
  lemma LastAckDone(b: Conn, seg: Segment, hb: u32, r: Reply)
    requires ConnOk(b) && b.state == LAST_ACK && b.len == 1 && InputOk(seg) && ReplyOk(r)
    requires seg.ctl == ACK && seg.data == [] && seg.ackno == Add32(b.sndNxt, 1)
    ensures var y := ReceiveLocal(b, seg, hb, r); y.conn == None && y.out == None && y.call.Some? && y.call.value.flags.close
  {
  }

  /** One side closes: FIN, FIN-ACK and ACK leave it in TIME_WAIT and the other side
      without the connection, and both applications told. */
  lemma Closes(a: Conn, b: Conn, ha: u32, hb: u32, r: Reply, q: Reply, r1: Reply, q1: Reply)
    requires Idle(a, b, ha, hb) && ReplyOk(r) && r.flags.close && !r.flags.abort && ReplyOk(q) && ReplyOk(r1) && ReplyOk(q1)
    ensures var x := PollLocal(a, ha, r);
            && x.conn.Some? && ConnOk(x.conn.value) && x.conn.value.state == FIN_WAIT_1 && x.out.Some? && InputOk(x.out.value)
            && var y := ReceiveLocal(b, x.out.value, hb, q);
            && y.conn.Some? && ConnOk(y.conn.value) && y.conn.value.state == LAST_ACK && y.out.Some? && InputOk(y.out.value)
            && var x1 := ReceiveLocal(x.conn.value, y.out.value, ha, r1);
            && x1.conn.Some? && x1.conn.value.state == TIME_WAIT && x1.out.Some? && InputOk(x1.out.value)
            && ReceiveLocal(y.conn.value, x1.out.value, hb, q1).conn == None
  {
    CloseSendsFin(a, ha, r);
    var f := PollLocal(a, ha, r).conn.value;
    FinAnswered(f, b, ha, hb, q);
    var l := ReceiveLocal(b, FinOf(f, ha), hb, q).conn.value;
    FirstFinDone(f, l, ha, hb, r1);
    LastAckDone(l, ReceiveLocal(f, FinOf(l, hb), ha, r1).out.value, hb, q1);
  }

  /** Two FINs that cross. */
  lemma CrossedFin(a: Conn, b: Conn, ha: u32, hb: u32, r: Reply)
    requires Paired(a, b, ha, hb) && Level(a, b) && ConnOk(a) && a.state == FIN_WAIT_1 && a.len == 1 && ReplyOk(r)
    ensures var x := ReceiveLocal(a, FinOf(b, hb), ha, r);
            && x.conn == Some(a.(state := CLOSING, rcvNxt := Add32(a.rcvNxt, 1))) && ConnOk(x.conn.value)
            && x.out == Some(FromConn(x.conn.value, ha, ACK, [], []))
  {
  }

  lemma CrossedAck(a: Conn, b: Conn, ha: u32, hb: u32, r: Reply)
    requires ConnOk(a) && a.state == CLOSING && a.len == 1 && ReplyOk(r) && b.rcvNxt == Add32(a.sndNxt, 1)
    ensures var x := ReceiveLocal(a, FromConn(b, hb, ACK, [], []), ha, r);
            x.conn.Some? && x.conn.value.state == TIME_WAIT && x.out == None
  {
  }

  /** Both sides close at once: each takes the other's FIN in CLOSING, and the two
      acknowledgements leave both in TIME_WAIT. */
  lemma ClosesTogether(a: Conn, b: Conn, ha: u32, hb: u32, r: Reply, q: Reply, r1: Reply, q1: Reply)
    requires Paired(a, b, ha, hb) && Level(a, b) && ConnOk(a) && ConnOk(b) && ReplyOk(r) && ReplyOk(q) && ReplyOk(r1) && ReplyOk(q1)
    requires a.state == FIN_WAIT_1 == b.state && a.len == 1 == b.len
    ensures var x, y := ReceiveLocal(a, FinOf(b, hb), ha, r), ReceiveLocal(b, FinOf(a, ha), hb, q);
            && x.conn.Some? && ConnOk(x.conn.value) && x.conn.value.state == CLOSING && x.out.Some? && InputOk(x.out.value)
            && y.conn.Some? && ConnOk(y.conn.value) && y.conn.value.state == CLOSING && y.out.Some? && InputOk(y.out.value)
            && var x1, y1 := ReceiveLocal(x.conn.value, y.out.value, ha, r1), ReceiveLocal(y.conn.value, x.out.value, hb, q1);
            x1.conn.Some? && x1.conn.value.state == TIME_WAIT && y1.conn.Some? && y1.conn.value.state == TIME_WAIT
  {
    CrossedFin(a, b, ha, hb, r);
    CrossedFin(b, a, hb, ha, q);
    var x, y := ReceiveLocal(a, FinOf(b, hb), ha, r).conn.value, ReceiveLocal(b, FinOf(a, ha), hb, q).conn.value;
    CrossedAck(x, y, ha, hb, r1);
    CrossedAck(y, x, hb, ha, q1);
  }
}
