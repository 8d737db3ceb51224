/** The sending half of one connection: which bytes are in flight, under which
    sequence number, and what an acknowledgement stands for. */
module Sender {
  import opened Words
  import opened Tcp
  import opened TcpInvariant
  import opened Stack
  import opened Endpoint
  import opened Prefix

  /** `sub` is everything the application has submitted; its last `len` bytes
      are in flight. FIN and later states are outside this account. */
  ghost predicate Sending(o: Option<Conn>, isn: u32, sub: seq<u8>) {
    match o
    case None => sub == []
    case Some(c) =>
      if c.state == SYN_SENT || c.state == SYN_RCVD then c.sndNxt == isn && c.len == 1 && sub == []
      else c.state == ESTABLISHED && c.len <= |sub| && c.sndNxt == Add32(isn, 1 + |sub| - c.len)
  }

  /** The bytes the peer has acknowledged. */
  function Acked(o: Option<Conn>, sub: seq<u8>): int {
    if o.Some? && o.value.state == ESTABLISHED then |sub| - o.value.len else 0
  }

  /** An acknowledgement of at most `n` bytes of a stream starting at `isn`. */
  predicate AckWithin(seg: Segment, isn: u32, n: nat) {
    Ahead32(seg.ackno, Add32(isn, 1)) <= n
  }

  /** Bytes still in flight when the application is called. */
  function InFlight(c: Conn, e: Event): nat {
    if e.Input? && Acknowledges(c, e.seg) then 0 else c.len
  }

  /** The application's part of the contract: while bytes are in flight it
      offers those bytes again or none, and does not claim an acknowledgement. */
  ghost predicate Honest(len: nat, r: Reply, sub: seq<u8>) {
    len > 0 ==> !r.flags.ackdata && (r.slen > 0 ==> len <= |sub| && len <= |r.buf| && r.buf[..len] == sub[|sub| - len..])
  }

  predicate Ends(seg: Segment) { seg.ctl.fin || seg.ctl.rst }

  predicate Unclean(x: Local) { x.out.Some? && Ends(x.out.value) }

  /** The header of a segment that does not end the connection. */
  ghost predicate HeaderOk(seg: Segment, o: Option<Conn>) {
    && o.Some?
    && if seg.ctl.ack
       then seg.ackno == o.value.rcvNxt && o.value.state != SYN_SENT && (seg.ctl.syn ==> seg.ctl == SYN_ACK && o.value.state == SYN_RCVD)
       else seg.ctl == SYN && o.value.state == SYN_SENT
  }

  /** Short of FIN and RST a connection only moves forward, and the application
      is called on established connections, once with `connected`. */
  predicate Stays(s: State, x: Local) {
    && x.conn.Some? && (x.conn.value.state == s || x.conn.value.state == ESTABLISHED)
    && (x.call.Some? ==> x.conn.value.state == ESTABLISHED && (s == ESTABLISHED ==> !x.call.value.flags.connected))
  }

  /** What a step of the sender guarantees when at most `n` bytes were received. */
  ghost predicate Sent(x: Local, isn: u32, sub: seq<u8>, n: nat) {
    && Sending(x.conn, isn, sub)
    && Acked(x.conn, sub) <= n
    && (x.out.Some? ==> FromPeer(x.out.value, isn, sub) && HeaderOk(x.out.value, x.conn))
  }

  /** Where in the stream the next sequence number stands. */
  lemma Offset(c: Conn, isn: u32, sub: seq<u8>)
    requires Sending(Some(c), isn, sub) && c.state == ESTABLISHED && |sub| < 0x1_0000_0000
    ensures Ahead32(c.sndNxt, Add32(isn, 1)) == |sub| - c.len
  {
    AheadOfNext(isn, |sub| - c.len);
  }

  /** The segment built from a sending connection carries the bytes in flight. */
  lemma DataSegment(c: Conn, host: u32, isn: u32, sub: seq<u8>, buf: seq<u8>)
    requires Sending(Some(c), isn, sub) && c.state == ESTABLISHED && |sub| < 0x1_0000_0000
    requires 0 < c.len <= |buf| && buf[..c.len] == sub[|sub| - c.len..]
    ensures FromPeer(FromConn(c, host, PSH_ACK, [], buf[..c.len]), isn, sub)
  {
    Offset(c, isn, sub);
    var off := |sub| - c.len;
    assert sub[off..] == sub[off..off + c.len];
  }

  lemma SendDataSends(c: Conn, host: u32, slen: u16, r: Reply, isn: u32, sub: seq<u8>, taken: seq<u8>, n: nat)
    requires SizesOk(c) && ReplyOk(r) && c.state == ESTABLISHED && |sub| < 0x1_0000_0000
    requires Sending(Some(c), isn, sub) && Acked(Some(c), sub) <= n
    requires slen > 0 && c.len > 0 ==> r.buf[..c.len] == sub[|sub| - c.len..]
    ensures var d := SendData(c, host, slen, r, taken);
            Sent(Local(Live(d.conn), d.out, None, []), isn, sub, n) && d.taken == taken
  {
    if slen > 0 && c.len > 0 {
      DataSegment(c, host, isn, sub, r.buf);
    }
  }

  /** appsend on an established connection: new bytes extend the stream, bytes
      in flight are repeated unchanged. */
  lemma TakeDataSends(c: Conn, host: u32, r: Reply, isn: u32, sub: seq<u8>, n: nat)
    requires SizesOk(c) && ReplyOk(r) && c.state == ESTABLISHED
    requires Sending(Some(c), isn, sub) && Acked(Some(c), sub) <= n && Honest(c.len, r, sub)
    requires |sub + TakeData(c, host, r).taken| < 0x1_0000_0000
    ensures var d := TakeData(c, host, r);
            Sent(Local(Live(d.conn), d.out, None, []), isn, sub + d.taken, n)
  {
    var c1 := c.(nrtx := 0);
    assert sub + [] == sub;
    if r.slen == 0 {
      SendDataSends(c1, host, 0, r, isn, sub, [], n);
    } else if c.len == 0 || r.flags.ackdata {
      var m := if r.slen > c.mss then c.mss else r.slen;
      var sub1 := sub + r.buf[..m];
      assert sub1[|sub1| - m..] == r.buf[..m];
      SendDataSends(c1.(len := m), host, m, r, isn, sub1, r.buf[..m], n);
    } else {
      SendDataSends(c1, host, c.len, r, isn, sub, [], n);
    }
  }

  /** From the application call on, for the two labels that send data. */
  lemma ResumeSends(c: Conn, next: Next, host: u32, seg: Segment, r: Reply, isn: u32, sub: seq<u8>, n: nat)
    requires SizesOk(c) && ReplyOk(r) && c.state == ESTABLISHED
    requires next.Call? && (next.goto == AppSend || next.goto == AppRexmit)
    requires Sending(Some(c), isn, sub) && Acked(Some(c), sub) <= n && Honest(c.len, r, sub)
    requires |sub + FinishLocal(c, next, host, seg, r).taken| < 0x1_0000_0000
    ensures var x := FinishLocal(c, next, host, seg, r);
            Unclean(x) || (Sent(x, isn, sub + x.taken, n) && x.conn.Some? && x.conn.value.state == ESTABLISHED)
  {
    if next.goto == AppRexmit {
      RexmitSends(c, next, host, seg, r, isn, sub, n);
    } else if !r.flags.abort && !r.flags.close {
      TakeDataSends(c, host, r, isn, sub, n);
    }
  }

  lemma RexmitSends(c: Conn, next: Next, host: u32, seg: Segment, r: Reply, isn: u32, sub: seq<u8>, n: nat)
    requires SizesOk(c) && ReplyOk(r) && c.state == ESTABLISHED && |sub| < 0x1_0000_0000
    requires next.Call? && next.goto == AppRexmit
    requires Sending(Some(c), isn, sub) && Acked(Some(c), sub) <= n && Honest(c.len, r, sub)
    ensures var x := FinishLocal(c, next, host, seg, r);
            x.taken == [] && Sent(x, isn, sub + x.taken, n) && x.conn.Some? && x.conn.value.state == ESTABLISHED
  {
    assert sub + [] == sub;
    SendDataSends(c, host, r.slen, r, isn, sub, [], n);
  }

  /** The acknowledgement test means what it says: all submitted bytes arrived. */
  lemma AckMeansReceived(c: Conn, seg: Segment, isn: u32, sub: seq<u8>, n: nat)
    requires Sending(Some(c), isn, sub) && |sub| < 0x1_0000_0000
    requires AckWithin(seg, isn, n) && Acknowledges(c, seg)
    ensures c.state == ESTABLISHED ==> |sub| <= n && seg.ackno == Add32(isn, 1 + |sub|)
    ensures c.state != ESTABLISHED ==> seg.ackno == Add32(isn, 1)
  {
    if c.state == ESTABLISHED {
      AddAdd(isn, 1 + |sub| - c.len, c.len);
      AheadOfNext(isn, |sub|);
    }
  }

  /** The acknowledged connection still sends, with nothing in flight. */
  lemma AcknowledgedSends(c: Conn, seg: Segment, isn: u32, sub: seq<u8>, n: nat)
    requires ConnOk(c) && Sending(Some(c), isn, sub) && |sub| < 0x1_0000_0000
    requires AckWithin(seg, isn, n) && Acknowledges(c, seg)
    ensures var ca := Acknowledged(c, seg);
            && ca.len == 0 && ca.state == c.state && SizesOk(ca) && ca.rcvNxt == c.rcvNxt
            && ca.sndNxt == Add32(isn, 1 + |sub|)
            && (c.state == ESTABLISHED ==> |sub| <= n)
  {
    AckMeansReceived(c, seg, isn, sub, n);
  }

  /** Segments a connection in this account is ever sent. */
  predicate Incoming(seg: Segment, c: Conn, isn: u32, n: nat) {
    && InputOk(seg) && !Ends(seg)
    && (seg.ctl.ack ==> AckWithin(seg, isn, n))
    && (c.state == SYN_SENT ==> seg.ctl == SYN_ACK || (seg.data == [] && !seg.ctl.syn))
  }

  lemma OutOfSequenceSends(c: Conn, seg: Segment, host: u32, r: Reply, isn: u32, sub: seq<u8>, n: nat)
    requires ConnOk(c) && ReplyOk(r) && Incoming(seg, c, isn, n) && OutOfSequence(c, seg)
    requires Sending(Some(c), isn, sub) && Acked(Some(c), sub) <= n
    ensures var x := ReceiveLocal(c, seg, host, r); Sent(x, isn, sub + x.taken, n) && Stays(c.state, x)
  {
    assert sub + [] == sub;
  }

  /** A segment that acknowledges what is in flight. */
  lemma AckedSends(c: Conn, seg: Segment, host: u32, r: Reply, isn: u32, sub: seq<u8>, n: nat)
    requires ConnOk(c) && ReplyOk(r) && Incoming(seg, c, isn, n) && !OutOfSequence(c, seg) && Acknowledges(c, seg)
    requires Sending(Some(c), isn, sub) && Acked(Some(c), sub) <= n
    requires |sub + ReceiveLocal(c, seg, host, r).taken| < 0x1_0000_0000
    ensures var x := ReceiveLocal(c, seg, host, r); Unclean(x) || (Sent(x, isn, sub + x.taken, n) && Stays(c.state, x))
  {
    AcknowledgedSends(c, seg, isn, sub, n);
    ReceiveKeeps(c, seg, host, 0, r);
    var ca := Acknowledged(c, seg);
    MssOptionKeeps(ca, seg);
    var (c1, next) := Receive(c, seg, host);
    assert (c1, next) == ReceiveInState(ca, true, seg, host);
    if next.Call? && next.goto == AppSend {
      assert c1.state == ESTABLISHED && c1.len == 0 && c1.sndNxt == ca.sndNxt;
      ResumeSends(c1, next, host, seg, r, isn, sub, n);
    }
  }

  /** A segment in sequence that acknowledges nothing new. */
  lemma UnackedSends(c: Conn, seg: Segment, host: u32, r: Reply, isn: u32, sub: seq<u8>, n: nat)
    requires ConnOk(c) && ReplyOk(r) && Incoming(seg, c, isn, n) && !OutOfSequence(c, seg) && !Acknowledges(c, seg)
    requires Sending(Some(c), isn, sub) && Acked(Some(c), sub) <= n && Honest(c.len, r, sub)
    requires |sub + ReceiveLocal(c, seg, host, r).taken| < 0x1_0000_0000
    ensures var x := ReceiveLocal(c, seg, host, r); Unclean(x) || (Sent(x, isn, sub + x.taken, n) && Stays(c.state, x))
  {
    assert sub + [] == sub;
    if c.state == ESTABLISHED {
      EstablishedHalf(c, seg, host);
      ReceiveKeeps(c, seg, host, 0, r);
      var (c1, next) := Receive(c, seg, host);
      if next.Call? {
        ResumeSends(c1, next, host, seg, r, isn, sub, n);
      }
    }
  }

  /** The first half of such a segment on an established connection. */
  lemma EstablishedHalf(c: Conn, seg: Segment, host: u32)
    requires c.state == ESTABLISHED && InputOk(seg) && !Ends(seg) && !OutOfSequence(c, seg) && !Acknowledges(c, seg)
    ensures var (c1, next) := Receive(c, seg, host);
            && c1.state == ESTABLISHED && c1.len == c.len && c1.sndNxt == c.sndNxt
            && (next == Drop || (next.Call? && next.goto == AppSend && !next.flags.connected))
  {
  }

  lemma ReceiveSends(c: Conn, e: Event, host: u32, isn: u32, sub: seq<u8>, n: nat)
    requires ConnOk(c) && e.Input? && ReplyOk(e.r) && Incoming(e.seg, c, isn, n)
    requires Sending(Some(c), isn, sub) && Acked(Some(c), sub) <= n
    requires c.state == ESTABLISHED ==> Honest(InFlight(c, e), e.r, sub)
    requires |sub + ReceiveLocal(c, e.seg, host, e.r).taken| < 0x1_0000_0000
    ensures var x := ReceiveLocal(c, e.seg, host, e.r); Unclean(x) || (Sent(x, isn, sub + x.taken, n) && Stays(c.state, x))
  {
    if OutOfSequence(c, e.seg) {
      OutOfSequenceSends(c, e.seg, host, e.r, isn, sub, n);
    } else if Acknowledges(c, e.seg) {
      AckedSends(c, e.seg, host, e.r, isn, sub, n);
    } else if c.state == ESTABLISHED {
      UnackedSends(c, e.seg, host, e.r, isn, sub, n);
    } else {
      assert sub + [] == sub;
      ReceiveKeeps(c, e.seg, host, 0, e.r);
    }
  }

  lemma TickSends(c: Conn, host: u32, r: Reply, isn: u32, sub: seq<u8>, n: nat)
    requires ConnOk(c) && ReplyOk(r)
    requires Sending(Some(c), isn, sub) && Acked(Some(c), sub) <= n
    requires c.state == ESTABLISHED ==> Honest(c.len, r, sub)
    requires |sub + TickLocal(c, host, r).taken| < 0x1_0000_0000
    ensures var x := TickLocal(c, host, r); Unclean(x) || (Sent(x, isn, sub + x.taken, n) && Stays(c.state, x))
  {
    assert sub + [] == sub;
    TickKeeps(c, host, 0, NOSEG, r);
    var (c1, next) := Tick(c, host);
    if next.Call? && next.goto != SendRstAfter {
      assert c1.state == ESTABLISHED && c1.len == c.len && c1.sndNxt == c.sndNxt;
      ResumeSends(c1, next, host, NOSEG, r, isn, sub, n);
    }
  }

  lemma PollSends(c: Conn, host: u32, r: Reply, isn: u32, sub: seq<u8>, n: nat)
    requires ConnOk(c) && ReplyOk(r)
    requires Sending(Some(c), isn, sub) && Acked(Some(c), sub) <= n
    requires c.state == ESTABLISHED ==> Honest(c.len, r, sub)
    requires |sub + PollLocal(c, host, r).taken| < 0x1_0000_0000
    ensures var x := PollLocal(c, host, r); Unclean(x) || (Sent(x, isn, sub + x.taken, n) && Stays(c.state, x))
  {
    assert sub + [] == sub;
    PollKeeps(c, host, 0, NOSEG, r);
    var (c1, next) := Poll(c);
    if next.Call? {
      ResumeSends(c1, next, host, NOSEG, r, isn, sub, n);
    }
  }

  /** A connection becomes established only on an acknowledgement. */
  lemma BecomesEstablished(c: Conn, seg: Segment, host: u32, r: Reply)
    requires ConnOk(c) && c.state != CLOSED && InputOk(seg) && ReplyOk(r)
    ensures var x := ReceiveLocal(c, seg, host, r);
            c.state != ESTABLISHED && x.conn.Some? && x.conn.value.state == ESTABLISHED ==> seg.ctl.ack
  {
    ReceiveKeeps(c, seg, host, 0, r);
    var (c1, next) := Receive(c, seg, host);
    if next.Call? {
      ResumeKeepsRcv(c1, host, next.goto, seg, r);
    }
  }

  lemma TickKeepsState(c: Conn, host: u32, r: Reply)
    requires ConnOk(c) && ReplyOk(r)
    ensures var x := TickLocal(c, host, r); x.conn.Some? && x.conn.value.state == ESTABLISHED ==> c.state == ESTABLISHED
    ensures var x := PollLocal(c, host, r); x.conn.Some? && x.conn.value.state == ESTABLISHED ==> c.state == ESTABLISHED
  {
    TickKeeps(c, host, 0, NOSEG, r);
    PollKeeps(c, host, 0, NOSEG, r);
  }
}
