/** Retransmission ends: without incoming segments a connection with data in
    flight closes after a number of timer ticks that is known in advance. */
module Timeout {
  import opened Words
  import opened Tcp
  import opened TcpInvariant
  import opened Stack
  import opened Endpoint

  /** One tick of the periodic timer, whatever the application answers. */
  function TickConn(c: Conn, host: u32, r: Reply): (d: Conn)
    requires ConnOk(c) && ReplyOk(r)
    ensures ConnOk(d)
  {
    TickKeeps(c, host, 0, NOSEG, r);
    var (c1, next) := Tick(c, host);
    Finish(c1, host, next, 0, NOSEG, r).conn
  }

  function AfterTicks(c: Conn, host: u32, rs: seq<Reply>): Conn
    requires ConnOk(c) && forall r | r in rs :: ReplyOk(r)
    decreases |rs|
  {
    if rs == [] then c else AfterTicks(TickConn(c, host, rs[0]), host, rs[1..])
  }

  predicate Retransmitting(c: Conn) {
    && c.state != CLOSED && c.state != TIME_WAIT && c.state != FIN_WAIT_2
    && c.len > 0
  }

  /** The ticks spent in the back-off intervals still to come. */
  function Intervals(nrtx: nat, limit: nat): nat
    decreases limit - nrtx
  {
    if nrtx >= limit then 0 else Backoff(if nrtx > 4 then 4 else nrtx) + 1 + Intervals(nrtx + 1, limit)
  }

  function Remaining(c: Conn): nat {
    c.timer + 1 + Intervals(c.nrtx, Limit(c.state))
  }

  /** The application call of a retransmission changes nothing that counts. */
  lemma TickIs(c: Conn, host: u32, r: Reply)
    requires ConnOk(c) && Retransmitting(c) && ReplyOk(r)
    ensures TickConn(c, host, r) ==
            if c.timer != 0 then c.(timer := c.timer - 1)
            else if c.nrtx == Limit(c.state) then c.(timer := 255, state := CLOSED)
            else c.(timer := Backoff(c.nrtx), nrtx := c.nrtx + 1)
  {
  }

  /** Each tick uses up one unit, and the last one closes the connection. */
  lemma TickCounts(c: Conn, host: u32, r: Reply)
    requires ConnOk(c) && Retransmitting(c) && ReplyOk(r)
    ensures var d := TickConn(c, host, r);
            if Remaining(c) == 1 then d.state == CLOSED
            else Retransmitting(d) && d.state == c.state && Remaining(d) == Remaining(c) - 1
  {
    TickIs(c, host, r);
  }

  lemma {:induction false} StaysClosed(c: Conn, host: u32, rs: seq<Reply>)
    requires ConnOk(c) && c.state == CLOSED && forall r | r in rs :: ReplyOk(r)
    ensures AfterTicks(c, host, rs).state == CLOSED
    decreases |rs|
  {
    if rs != [] {
      StaysClosed(TickConn(c, host, rs[0]), host, rs[1..]);
    }
  }

  /** The connection keeps its state before tick `Remaining` and is closed from
      that tick on. */
  lemma {:induction false} ClosesExactly(c: Conn, host: u32, rs: seq<Reply>)
    requires ConnOk(c) && Retransmitting(c) && forall r | r in rs :: ReplyOk(r)
    ensures AfterTicks(c, host, rs).state == if |rs| < Remaining(c) then c.state else CLOSED
    decreases |rs|
  {
    if rs != [] {
      TickCounts(c, host, rs[0]);
      var d := TickConn(c, host, rs[0]);
      if d.state == CLOSED {
        StaysClosed(d, host, rs[1..]);
      } else {
        ClosesExactly(d, host, rs[1..]);
      }
    }
  }

  lemma IntervalSums()
    ensures Intervals(0, MAXRTX) == 245 && Intervals(0, MAXSYNRTX) == 98
  {
    assert Intervals(8, 8) == 0;
    assert Intervals(7, 8) == 49;
    assert Intervals(6, 8) == 98;
    assert Intervals(5, 8) == 147;
    assert Intervals(4, 8) == 196;
    assert Intervals(3, 8) == 221;
    assert Intervals(2, 8) == 234;
    assert Intervals(1, 8) == 241;
    assert Intervals(5, 5) == 0;
    assert Intervals(4, 5) == 49;
    assert Intervals(3, 5) == 74;
    assert Intervals(2, 5) == 87;
    assert Intervals(1, 5) == 94;
  }

  /** From the first transmission on: timer + 246 ticks, or timer + 99 for a SYN. */
  lemma GivesUpAfter(c: Conn, host: u32, rs: seq<Reply>)
    requires ConnOk(c) && Retransmitting(c) && c.nrtx == 0 && forall r | r in rs :: ReplyOk(r)
    ensures var limit := c.timer as int + if c.state == SYN_SENT || c.state == SYN_RCVD then 99 else 246;
            AfterTicks(c, host, rs).state == if |rs| < limit then c.state else CLOSED
  {
    ClosesExactly(c, host, rs);
    IntervalSums();
  }

  /** Ticks until a waiting connection's 8-bit timer reaches its limit. */
  function Waiting(c: Conn): nat {
    (TIME_WAIT_TIMEOUT - 1 - c.timer) % 0x100 + 1
  }

  lemma TickWaits(c: Conn, host: u32, r: Reply)
    requires ConnOk(c) && (c.state == TIME_WAIT || c.state == FIN_WAIT_2) && ReplyOk(r)
    ensures var d := TickConn(c, host, r);
            if Waiting(c) == 1 then d.state == CLOSED else d.state == c.state && Waiting(d) == Waiting(c) - 1
  {
    var d := TickConn(c, host, r);
    assert d.timer == if c.timer == 255 then 0 else c.timer + 1;
  }

  /** TIME_WAIT and FIN_WAIT_2 end within 256 ticks from any timer value, since
      the 8-bit counter meets the limit on its way round. */
  lemma {:induction false} WaitEnds(c: Conn, host: u32, rs: seq<Reply>)
    requires ConnOk(c) && (c.state == TIME_WAIT || c.state == FIN_WAIT_2) && forall r | r in rs :: ReplyOk(r)
    ensures Waiting(c) <= 256
    ensures AfterTicks(c, host, rs).state == if |rs| < Waiting(c) then c.state else CLOSED
    decreases |rs|
  {
    if rs != [] {
      TickWaits(c, host, rs[0]);
      var d := TickConn(c, host, rs[0]);
      if d.state == CLOSED {
        StaysClosed(d, host, rs[1..]);
      } else {
        WaitEnds(d, host, rs[1..]);
      }
    }
  }

  /** The back-off doubles four times: 3, 6, 12, 24, 48. */
  lemma BackoffDoubles(nrtx: u8)
    ensures Backoff(0) == 3
    ensures nrtx < 4 ==> Backoff(nrtx + 1) == 2 * Backoff(nrtx)
    ensures nrtx >= 4 ==> Backoff(nrtx) == 48
  {
  }

  /** The switch starts the timer of TIME_WAIT at 0. */
  lemma SwitchEnters(c: Conn, acked: bool, seg: Segment, host: u32)
    requires c.state != TIME_WAIT && InputOk(seg)
    ensures var c1 := ReceiveInState(c, acked, seg, host).0; c1.state == TIME_WAIT ==> c1.timer == 0
  {
  }

  /** The application call neither enters TIME_WAIT nor touches its timer. */
  lemma CallWaits(c: Conn, host: u32, next: Next, seg: Segment, r: Reply)
    requires SizesOk(c) && ReplyOk(r)
    ensures var d := Finish(c, host, next, 0, seg, r).conn; d.state == TIME_WAIT ==> c.state == TIME_WAIT && d.timer == c.timer
  {
  }

  lemma EntersTimeWait(c: Conn, seg: Segment, host: u32, r: Reply)
    requires ConnOk(c) && c.state != CLOSED && c.state != TIME_WAIT && InputOk(seg) && ReplyOk(r)
    ensures var o := ReceiveLocal(c, seg, host, r).conn; o.Some? && o.value.state == TIME_WAIT ==> ConnOk(o.value) && o.value.timer == 0
  {
    ReceiveKeeps(c, seg, host, 0, r);
    var (c1, next) := Receive(c, seg, host);
    CallWaits(c1, host, next, seg, r);
    SwitchEnters(Acknowledged(c, seg), Acknowledges(c, seg), seg, host);
  }

  /** A wait that starts at 0 lasts 120 ticks. */
  lemma WaitFromZero(c: Conn, host: u32, rs: seq<Reply>)
    requires ConnOk(c) && c.state == TIME_WAIT && c.timer == 0 && forall r | r in rs :: ReplyOk(r)
    ensures AfterTicks(c, host, rs).state == if |rs| < 120 then TIME_WAIT else CLOSED
  {
    WaitEnds(c, host, rs);
    assert Waiting(c) == 120;
  }

  /** TIME_WAIT, once entered, lasts 120 ticks. */
  lemma TimeWaitLasts(c: Conn, seg: Segment, host: u32, r: Reply, rs: seq<Reply>)
    requires ConnOk(c) && c.state != CLOSED && c.state != TIME_WAIT && InputOk(seg) && ReplyOk(r)
    requires forall q | q in rs :: ReplyOk(q)
    ensures var o := ReceiveLocal(c, seg, host, r).conn;
            o.Some? && o.value.state == TIME_WAIT ==>
              ConnOk(o.value) && AfterTicks(o.value, host, rs).state == if |rs| < 120 then TIME_WAIT else CLOSED
  {
    EntersTimeWait(c, seg, host, r);
    var o := ReceiveLocal(c, seg, host, r).conn;
    if o.Some? && o.value.state == TIME_WAIT {
      WaitFromZero(o.value, host, rs);
    }
  }

  /** A connection that a SYN opened is given up after 102 ticks without an answer,
      one opened actively after 100. */
  lemma SynGivesUp(c: Conn, host: u32, rs: seq<Reply>)
    requires ConnOk(c) && c.nrtx == 0 && (forall r | r in rs :: ReplyOk(r))
    requires (c.state == SYN_RCVD && c.timer == 3) || (c.state == SYN_SENT && c.timer == 1)
    ensures AfterTicks(c, host, rs).state == if |rs| < (if c.state == SYN_RCVD then 102 else 100) then c.state else CLOSED
  {
    GivesUpAfter(c, host, rs);
  }

  /** The slots `uip_process` and `uip_connect` fill start like that. */
  lemma SynTimers(c: Conn, seg: Segment, iss: u32, lport: u16, ip: u32, rport: u16)
    requires InputOk(seg)
    ensures var a := Accept(c, seg, iss); a.state == SYN_RCVD && a.timer == 3 && a.nrtx == 0 && a.len == 1
    ensures var o := Opened(c, lport, ip, rport, iss); o.state == SYN_SENT && o.timer == 1 && o.nrtx == 0 && o.len == 1
  {
  }

  // --- What is sent again ----------------------------------------------------

  /** An outstanding SYN or FIN. */
  predicate ControlOutstanding(c: Conn) {
    c.state == SYN_SENT || c.state == SYN_RCVD || c.state == FIN_WAIT_1 || c.state == CLOSING || c.state == LAST_ACK
  }

  /** When the timer expires an outstanding SYN or FIN is sent again under its own
      sequence number, and stays outstanding. */
  lemma ControlResent(c: Conn, host: u32, r: Reply)
    requires ConnOk(c) && ReplyOk(r) && ControlOutstanding(c) && c.timer == 0 && c.nrtx < Limit(c.state)
    ensures var x := TickLocal(c, host, r);
            && x.out.Some? && x.out.value.seqno == c.sndNxt && x.out.value.data == []
            && x.out.value.ctl.syn == (c.state == SYN_SENT || c.state == SYN_RCVD)
            && x.out.value.ctl.fin == (c.state == FIN_WAIT_1 || c.state == CLOSING || c.state == LAST_ACK)
            && x.out.value.ctl.ack == (c.state != SYN_SENT) && !x.out.value.ctl.rst
            && (c.state != SYN_SENT ==> x.out.value.ackno == c.rcvNxt)
            && x.conn.Some? && x.conn.value.sndNxt == c.sndNxt && x.conn.value.state == c.state
  {
  }

  /** Ticks do not change the number. */
  lemma {:induction false} NumberKept(c: Conn, host: u32, rs: seq<Reply>)
    requires ConnOk(c) && ControlOutstanding(c) && forall r | r in rs :: ReplyOk(r)
    ensures var d := AfterTicks(c, host, rs);
            d.state != CLOSED ==> ConnOk(d) && d.sndNxt == c.sndNxt && d.state == c.state
    decreases |rs|
  {
    if rs != [] {
      TickIs(c, host, rs[0]);
      var d := TickConn(c, host, rs[0]);
      if d.state == CLOSED {
        StaysClosed(d, host, rs[1..]);
      } else {
        NumberKept(d, host, rs[1..]);
      }
    }
  }

  /** The FIN the application's close sends, and every repetition of it until it is
      acknowledged, carry the number after the acknowledged bytes. */
  lemma FinRepeated(c: Conn, host: u32, seg: Segment, r: Reply, rs: seq<Reply>, q: Reply)
    requires ConnOk(c) && c.state == ESTABLISHED && ReplyOk(r) && r.flags.close && !r.flags.abort
    requires (forall x | x in rs :: ReplyOk(x)) && ReplyOk(q)
    ensures var d := Resume(c, host, AppSend, seg, r);
            && ConnOk(d.conn) && d.out.Some? && d.out.value.ctl == FIN_ACK && d.out.value.seqno == c.sndNxt
            && var e := AfterTicks(d.conn, host, rs);
            e.state != CLOSED && e.timer == 0 && e.nrtx < 8 ==>
              ConnOk(e) && TickLocal(e, host, q).out.Some? && TickLocal(e, host, q).out.value.ctl.fin
              && TickLocal(e, host, q).out.value.seqno == c.sndNxt
  {
    var d := Resume(c, host, AppSend, seg, r);
    NumberKept(d.conn, host, rs);
    var e := AfterTicks(d.conn, host, rs);
    if e.state != CLOSED && e.timer == 0 && e.nrtx < 8 {
      ControlResent(e, host, q);
    }
  }
}
