/** What every step of one connection keeps: segment sizes, the amount of
    outstanding data each state allows, and the state diagram. */
module TcpInvariant {
  import opened Words
  import opened Tcp

  /** SYN and FIN count as one outstanding byte until they are acknowledged. */
  predicate OutstandingOk(c: Conn) {
    match c.state
    case CLOSED => true
    case ESTABLISHED => true
    case FIN_WAIT_2 => c.len == 0
    case TIME_WAIT => c.len == 0
    case _ => c.len == 1
  }

  /** Retransmissions before the connection is given up. */
  function Limit(s: State): u8 {
    if s == SYN_SENT || s == SYN_RCVD then MAXSYNRTX else MAXRTX
  }

  /** A live connection has not passed the limit of its state. */
  predicate RetriesOk(c: Conn) { c.state != CLOSED ==> c.nrtx <= Limit(c.state) }

  predicate ConnOk(c: Conn) {
    SizesOk(c) && OutstandingOk(c) && RetriesOk(c)
  }

  /** An arrow of Figure 6 in section 3.2 of RFC 793 between live states, with
      CLOSE_WAIT folded into LAST_ACK. */
  predicate Arrow(s: State, t: State) {
    || (s == SYN_RCVD && (t == ESTABLISHED || t == FIN_WAIT_1))
    || (s == SYN_SENT && t == ESTABLISHED)
    || (s == ESTABLISHED && (t == FIN_WAIT_1 || t == LAST_ACK))
    || (s == FIN_WAIT_1 && (t == FIN_WAIT_2 || t == CLOSING))
    || (s == FIN_WAIT_2 && t == TIME_WAIT)
    || (s == CLOSING && t == TIME_WAIT)
  }

  /** At most two arrows: the application may close inside the call that
      reports the connection, and one segment may carry both ACK and FIN. */
  predicate Path(s: State, t: State) {
    s == t || Arrow(s, t) || exists m :: Arrow(s, m) && Arrow(m, t)
  }

  /** Why a segment may end a connection. */
  predicate EndedBySegment(c: Conn, seg: Segment, r: Reply) {
    seg.ctl.rst || r.flags.abort || c.state == SYN_SENT || (c.state == LAST_ACK && Acknowledges(c, seg))
  }

  /** Why the timer may end a connection. */
  predicate EndedByTimer(c: Conn, r: Reply) {
    || ((c.state == TIME_WAIT || c.state == FIN_WAIT_2) && Byte(c.timer as int + 1) == TIME_WAIT_TIMEOUT)
    || (c.len > 0 && c.timer == 0 && GivesUp(c))
    || (c.state == ESTABLISHED && c.len == 0 && r.flags.abort)
  }

  lemma MssOptionKeeps(c: Conn, seg: Segment)
    requires SizesOk(c) && InputOk(seg)
    ensures SizesOk(WithMss(c, seg))
  {
  }

  lemma ResumeOk(c: Conn, host: u32, goto: Label, seg: Segment, r: Reply)
    requires SizesOk(c) && RetriesOk(c) && ReplyOk(r)
    requires goto == AppSend ==> c.state == ESTABLISHED
    requires goto == AppRexmit ==> c.state == ESTABLISHED
    requires goto == SendAckAfter || goto == DropAfter || goto == SendRstAfter ==> OutstandingOk(c)
    ensures ConnOk(Resume(c, host, goto, seg, r).conn)
  {
  }

  lemma ReceiveInStateOk(c: Conn, acked: bool, seg: Segment, host: u32)
    requires SizesOk(c) && RetriesOk(c) && InputOk(seg) && c.state != CLOSED
    requires if acked then c.len == 0 else OutstandingOk(c)
    ensures var (c1, next) := ReceiveInState(c, acked, seg, host);
            SizesOk(c1) && RetriesOk(c1) && (if next.Call? then
              && (next.goto == AppSend || next.goto == AppRexmit ==> c1.state == ESTABLISHED)
              && (next.goto == SendAckAfter || next.goto == DropAfter || next.goto == SendRstAfter ==> OutstandingOk(c1))
              else ConnOk(c1))
  {
    MssOptionKeeps(c, seg);
  }

  /** The state a step ends in, from the state the application was called in. */
  function StateAfterCall(s: State, goto: Label, r: Reply): State {
    match goto
    case AppSend => if r.flags.abort then CLOSED else if r.flags.close then FIN_WAIT_1 else s
    case SendFinAck => LAST_ACK
    case ResetAfter => CLOSED
    case _ => s
  }

  lemma FinishState(c: Conn, host: u32, next: Next, slen: u16, seg: Segment, r: Reply)
    requires SizesOk(c) && ReplyOk(r)
    ensures Finish(c, host, next, slen, seg, r).conn.state == if next.Call? then StateAfterCall(c.state, next.goto, r) else c.state
  {
  }

  lemma ReceiveInStateMoves(c: Conn, acked: bool, seg: Segment, host: u32, r: Reply)
    requires InputOk(seg) && c.state != CLOSED
    ensures var (c1, next) := ReceiveInState(c, acked, seg, host);
            var t := if next.Call? then StateAfterCall(c1.state, next.goto, r) else c1.state;
            if t == CLOSED then r.flags.abort || c.state == SYN_SENT || (c.state == LAST_ACK && acked)
            else Path(c.state, t)
  {
    assert Arrow(SYN_RCVD, ESTABLISHED) && Arrow(SYN_SENT, ESTABLISHED) && Arrow(ESTABLISHED, FIN_WAIT_1);
    assert Arrow(FIN_WAIT_1, FIN_WAIT_2) && Arrow(FIN_WAIT_2, TIME_WAIT);
  }

  /** A received segment keeps the invariant. */
  lemma {:induction false} ReceiveKeeps(c: Conn, seg: Segment, host: u32, slen: u16, r: Reply)
    requires ConnOk(c) && c.state != CLOSED && InputOk(seg) && ReplyOk(r)
    ensures var (c1, next) := Receive(c, seg, host);
            SizesOk(c1) && ConnOk(Finish(c1, host, next, slen, seg, r).conn)
  {
    var (c1, next) := Receive(c, seg, host);
    if !seg.ctl.rst && !OutOfSequence(c, seg) {
      ReceiveInStateOk(Acknowledged(c, seg), Acknowledges(c, seg), seg, host);
    }
    if next.Call? {
      ResumeOk(c1, host, next.goto, seg, r);
    }
  }

  /** A received segment moves the connection along the state diagram, and
      closes it only for a named reason. */
  lemma {:induction false} ReceiveMoves(c: Conn, seg: Segment, host: u32, slen: u16, r: Reply)
    requires ConnOk(c) && c.state != CLOSED && InputOk(seg) && ReplyOk(r)
    ensures var (c1, next) := Receive(c, seg, host);
            SizesOk(c1) && var t := Finish(c1, host, next, slen, seg, r).conn.state;
            if t == CLOSED then EndedBySegment(c, seg, r) else Path(c.state, t)
  {
    ReceiveKeeps(c, seg, host, slen, r);
    var (c1, next) := Receive(c, seg, host);
    FinishState(c1, host, next, slen, seg, r);
    if !seg.ctl.rst && !OutOfSequence(c, seg) {
      ReceiveInStateMoves(Acknowledged(c, seg), Acknowledges(c, seg), seg, host, r);
    }
  }

  lemma {:induction false} TickKeeps(c: Conn, host: u32, slen: u16, seg: Segment, r: Reply)
    requires ConnOk(c) && ReplyOk(r)
    ensures var (c1, next) := Tick(c, host);
            && SizesOk(c1)
            && var d := Finish(c1, host, next, slen, seg, r);
            && ConnOk(d.conn)
            && (c.state != CLOSED && d.conn.state == CLOSED ==> EndedByTimer(c, r))
            && (d.conn.state != CLOSED ==> Path(c.state, d.conn.state))
  {
    var (c1, next) := Tick(c, host);
    if next.Call? {
      ResumeOk(c1, host, next.goto, seg, r);
    }
    assert Arrow(ESTABLISHED, FIN_WAIT_1);
  }

  lemma {:induction false} PollKeeps(c: Conn, host: u32, slen: u16, seg: Segment, r: Reply)
    requires ConnOk(c) && ReplyOk(r)
    ensures var (c1, next) := Poll(c);
            && SizesOk(c1)
            && var d := Finish(c1, host, next, slen, seg, r);
            && ConnOk(d.conn)
            && (c.state != CLOSED && d.conn.state == CLOSED ==> r.flags.abort)
            && (d.conn.state != CLOSED ==> Path(c.state, d.conn.state))
  {
    var (c1, next) := Poll(c);
    if next.Call? {
      ResumeOk(c1, host, next.goto, seg, r);
    }
    assert Arrow(ESTABLISHED, FIN_WAIT_1);
  }
}
