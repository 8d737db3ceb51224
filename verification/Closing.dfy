/** The peer's FIN: it is counted, acknowledged at once, and taken only after every
    byte before it. */
module Closing {
  import opened Words
  import opened Tcp
  import opened TcpInvariant
  import opened Stack
  import opened Table
  import opened Endpoint
  import opened Prefix

  /** A FIN in sequence is acknowledged by the segment this event emits: its
      sequence number plus the text plus one, as section 3.3 of RFC 793 counts it. */
  lemma FinAcknowledged(c: Conn, seg: Segment, host: u32, r: Reply)
    requires ConnOk(c) && InputOk(seg) && ReplyOk(r) && seg.ctl.fin && !seg.ctl.rst && seg.seqno == c.rcvNxt
    requires c.state == FIN_WAIT_1 || c.state == FIN_WAIT_2 || (c.state == ESTABLISHED && (c.len == 0 || Acknowledges(c, seg)))
    ensures var out := ReceiveLocal(c, seg, host, r).out;
            out.Some? && out.value.ctl.ack && out.value.ackno == Add32(seg.seqno, |seg.data| + 1)
  {
    AddAdd(c.rcvNxt, |seg.data|, 1);
  }

  /** While bytes are in flight the FIN is left to be sent again. */
  lemma FinDeferred(c: Conn, seg: Segment, host: u32, r: Reply)
    requires ConnOk(c) && InputOk(seg) && ReplyOk(r) && seg.ctl.fin && !seg.ctl.rst && seg.seqno == c.rcvNxt
    requires c.state == ESTABLISHED && c.len > 0 && !Acknowledges(c, seg)
    ensures ReceiveLocal(c, seg, host, r) == Local(Some(c), None, None, [])
  {
  }

  // --- Over runs -------------------------------------------------------------

  /** Segments of a peer that ends its stream with a FIN. */
  predicate FromEnding(seg: Segment, isn: u32, stream: seq<u8>) {
    && FromPeer(seg, isn, stream)
    && (seg.ctl.fin ==> !seg.ctl.syn && Add32(seg.seqno, |seg.data|) == Add32(isn, 1 + |stream|))
  }

  /** The next number expected lies in the stream. */
  predicate Within(rcv: u32, isn: u32, stream: seq<u8>) {
    Ahead32(rcv, Add32(isn, 1)) <= |stream|
  }

  /** What `rcv_nxt` counts in each state: after the peer's FIN, the SYN, the whole
      stream and the FIN. */
  predicate Counts(s: State, rcv: u32, isn: u32, stream: seq<u8>) {
    match s
    case CLOSED => true
    case SYN_SENT => true
    case SYN_RCVD => rcv == Add32(isn, 1)
    case ESTABLISHED => Within(rcv, isn, stream)
    case FIN_WAIT_1 => Within(rcv, isn, stream)
    case FIN_WAIT_2 => Within(rcv, isn, stream)
    case _ => rcv == Add32(isn, 2 + |stream|)
  }

  /** The invariant of one key: the log is a prefix, `rcv_nxt` counts, and the
      connection that the peer closed has delivered everything. */
  ghost predicate Heard(o: Option<Conn>, log: seq<u8>, isn: u32, stream: seq<u8>) {
    && Delivering(o, log, isn, stream)
    && (o.Some? ==> Counts(o.value.state, o.value.rcvNxt, isn, stream))
    && (o.Some? && o.value.state == LAST_ACK ==> log == stream)
  }

  lemma AheadAdd(x: u32, base: u32, n: nat)
    requires Ahead32(x, base) + n < 0x1_0000_0000
    ensures Ahead32(Add32(x, n), base) == Ahead32(x, base) + n
  {
  }

  /** Text in sequence stays within the stream, and a FIN in sequence ends it. */
  lemma TakeText(seg: Segment, rcv: u32, isn: u32, stream: seq<u8>)
    requires FromEnding(seg, isn, stream) && |stream| < 0x1_0000_0000 && Within(rcv, isn, stream)
    requires seg.data != [] || seg.ctl.fin ==> seg.seqno == rcv
    ensures Within(Add32(rcv, |seg.data|), isn, stream)
    ensures seg.ctl.fin ==> Add32(rcv, 1 + |seg.data|) == Add32(isn, 2 + |stream|)
    ensures seg.ctl.fin ==> Add32(Add32(rcv, |seg.data|), 1) == Add32(isn, 2 + |stream|)
  {
    AheadAdd(rcv, Add32(isn, 1), |seg.data|);
    AddAdd(rcv, |seg.data|, 1);
    AddAdd(isn, 1 + |stream|, 1);
  }

  lemma WithinStart(isn: u32, stream: seq<u8>)
    ensures Within(Add32(isn, 1), isn, stream)
  {
  }

  /** The state the event ends in, and what it counts. */
  lemma SwitchCounts(c: Conn, acked: bool, seg: Segment, host: u32, r: Reply, isn: u32, stream: seq<u8>)
    requires InputOk(seg) && c.state != CLOSED && |stream| < 0x1_0000_0000
    requires FromEnding(seg, isn, stream) && Counts(c.state, c.rcvNxt, isn, stream)
    requires !OutOfSequence(c, seg)
    ensures var (c1, next) := ReceiveInState(c, acked, seg, host);
            Counts(if next.Call? then StateAfterCall(c1.state, next.goto, r) else c1.state, c1.rcvNxt, isn, stream)
  {
    WithinStart(isn, stream);
    match c.state
    case SYN_RCVD => TakeText(seg, c.rcvNxt, isn, stream);
    case ESTABLISHED => TakeText(seg, c.rcvNxt, isn, stream);
    case FIN_WAIT_1 => TakeText(seg, c.rcvNxt, isn, stream);
    case FIN_WAIT_2 => TakeText(seg, c.rcvNxt, isn, stream);
    case _ =>
  }

  lemma ReceiveCounts(c: Conn, seg: Segment, host: u32, r: Reply, isn: u32, stream: seq<u8>)
    requires ConnOk(c) && c.state != CLOSED && InputOk(seg) && ReplyOk(r) && |stream| < 0x1_0000_0000
    requires FromEnding(seg, isn, stream) && Counts(c.state, c.rcvNxt, isn, stream)
    ensures var o := ReceiveLocal(c, seg, host, r).conn; o.Some? ==> Counts(o.value.state, o.value.rcvNxt, isn, stream)
  {
    ReceiveKeeps(c, seg, host, 0, r);
    var (c1, next) := Receive(c, seg, host);
    if next.Call? {
      ResumeKeepsRcv(c1, host, next.goto, seg, r);
    }
    if !seg.ctl.rst && !OutOfSequence(c, seg) {
      var ca := Acknowledged(c, seg);
      assert ca.state == c.state && ca.rcvNxt == c.rcvNxt;
      SwitchCounts(ca, Acknowledges(c, seg), seg, host, r, isn, stream);
    }
  }

  /** LAST_ACK is entered on a FIN in sequence, whose text is handed over. */
  lemma LastFrom(c: Conn, seg: Segment, host: u32, r: Reply)
    requires ConnOk(c) && c.state != CLOSED && InputOk(seg) && ReplyOk(r)
    ensures var x := ReceiveLocal(c, seg, host, r);
            x.conn.Some? && x.conn.value.state == LAST_ACK ==>
              || (c.state == LAST_ACK && x.call == None)
              || (c.state == ESTABLISHED && seg.ctl.fin && seg.seqno == c.rcvNxt && x.call.Some?
                  && !x.call.value.flags.connected && x.call.value.data == AppBytes(seg)
                  && (x.call.value.flags.newdata <==> seg.data != []))
  {
    ReceiveKeeps(c, seg, host, 0, r);
    var (c1, next) := Receive(c, seg, host);
    FinishState(c1, host, next, 0, seg, r);
  }

  /** A connection that the peer closed has delivered the whole stream. */
  lemma LastByteDelivered(c: Conn, seg: Segment, host: u32, r: Reply, log: seq<u8>, isn: u32, stream: seq<u8>)
    requires ConnOk(c) && c.state != CLOSED && InputOk(seg) && ReplyOk(r) && |stream| < 0x1_0000_0000
    requires FromEnding(seg, isn, stream) && Heard(Some(c), log, isn, stream)
    ensures var x := ReceiveLocal(c, seg, host, r);
            x.conn.Some? && x.conn.value.state == LAST_ACK ==> LogAfter(log, x.call) == stream
  {
    LastFrom(c, seg, host, r);
    var x := ReceiveLocal(c, seg, host, r);
    if x.conn.Some? && x.conn.value.state == LAST_ACK && c.state == ESTABLISHED {
      Continues(seg, log, isn, stream);
      WholeStream(log + seg.data, isn, stream);
      assert log + [] == log;
    }
  }

  lemma WholeStream(log: seq<u8>, isn: u32, stream: seq<u8>)
    requires log <= stream && |stream| < 0x1_0000_0000 && Add32(isn, 1 + |log|) == Add32(isn, 1 + |stream|)
    ensures log == stream
  {
    AheadOfNext(isn, |log|);
    AheadOfNext(isn, |stream|);
  }

  lemma TimerCounts(c: Conn, host: u32, r: Reply, isn: u32, stream: seq<u8>)
    requires ConnOk(c) && ReplyOk(r) && Counts(c.state, c.rcvNxt, isn, stream)
    ensures var o := TickLocal(c, host, r).conn; o.Some? ==> Counts(o.value.state, o.value.rcvNxt, isn, stream)
    ensures var o := PollLocal(c, host, r).conn; o.Some? ==> Counts(o.value.state, o.value.rcvNxt, isn, stream)
  {
  }

  /** Timer and poll events deliver nothing and leave no closing state but one way. */
  lemma TimerLast(c: Conn, host: u32, r: Reply, log: seq<u8>)
    requires ConnOk(c) && ReplyOk(r)
    ensures var x := TickLocal(c, host, r); x.conn.Some? && x.conn.value.state == LAST_ACK ==> c.state == LAST_ACK && LogAfter(log, x.call) == log
    ensures var x := PollLocal(c, host, r); x.conn.Some? && x.conn.value.state == LAST_ACK ==> c.state == LAST_ACK && LogAfter(log, x.call) == log
  {
  }

  /** One event of the whole stack. */
  lemma StepHeard(s: Stack, e: Event, k: Key, log: seq<u8>, isn: u32, stream: seq<u8>)
    requires StackOk(s) && EventOk(s, e) && |stream| < 0x1_0000_0000
    requires e.Input? && KeyFor(e.seg) == k ==> FromEnding(e.seg, isn, stream)
    requires Heard(Lookup(s, k), log, isn, stream)
    ensures var x := At(Step(s, e), k); Heard(x.conn, LogAfter(log, x.call), isn, stream)
  {
    StepDelivers(s, e, k, log, isn, stream);
    Project(s, e, k);
    LookupOk(s, k);
    var o := Lookup(s, k);
    if o.Some? && Concerns(s, e, k) {
      if e.Input? {
        ReceiveCounts(o.value, e.seg, s.host, e.r, isn, stream);
        LastByteDelivered(o.value, e.seg, s.host, e.r, log, isn, stream);
      } else {
        TimerCounts(o.value, s.host, e.r, isn, stream);
        TimerLast(o.value, s.host, e.r, log);
      }
    }
  }

  lemma {:induction false} RunHeard(s: Stack, es: seq<Event>, k: Key, log: seq<u8>, isn: u32, stream: seq<u8>)
    requires StackOk(s) && RunOk(s, es) && |stream| < 0x1_0000_0000
    requires forall e | e in es && e.Input? && KeyFor(e.seg) == k :: FromEnding(e.seg, isn, stream)
    requires Heard(Lookup(s, k), log, isn, stream)
    ensures Heard(Lookup(After(s, es), k), Log(s, es, k, log), isn, stream)
    decreases |es|
  {
    if es != [] {
      StepKeeps(s, es[0]);
      StepHeard(s, es[0], k, log, isn, stream);
      var x := Step(s, es[0]);
      RunHeard(x.stack, es[1..], k, LogAfter(log, At(x, k).call), isn, stream);
    }
  }

  /** From a fresh stack, for every run: `rcv_nxt` never runs ahead of the peer, in
      LAST_ACK, CLOSING and TIME_WAIT it counts the SYN, the whole stream and the
      FIN, and in LAST_ACK the application has been given the whole stream. */
  lemma ClosedByPeer(host: u32, es: seq<Event>, k: Key, isn: u32, stream: seq<u8>)
    requires RunOk(Initial(host), es) && |stream| < 0x1_0000_0000
    requires forall e | e in es && e.Input? && KeyFor(e.seg) == k :: FromEnding(e.seg, isn, stream)
    ensures var o, log := Lookup(After(Initial(host), es), k), Log(Initial(host), es, k, []);
            o.Some? ==>
              && (o.value.state == ESTABLISHED || o.value.state == FIN_WAIT_1 || o.value.state == FIN_WAIT_2 ==>
                    Ahead32(o.value.rcvNxt, Add32(isn, 1)) <= |stream|)
              && (o.value.state == LAST_ACK || o.value.state == CLOSING || o.value.state == TIME_WAIT ==>
                    o.value.rcvNxt == Add32(isn, 1 + |stream| + 1))
              && (o.value.state == LAST_ACK ==> log == stream)
  {
    LookupNone(Initial(host), k);
    RunHeard(Initial(host), es, k, [], isn, stream);
  }
}
