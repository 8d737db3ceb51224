/** Prefix safety: whatever the network loses, duplicates or reorders, the
    bytes handed to the application are a prefix of the peer's stream. */
module Prefix {
  import opened Words
  import opened Tcp
  import opened TcpInvariant
  import opened Stack
  import opened Table
  import opened Endpoint

  /** A segment a peer with initial sequence number `isn` and byte stream
      `stream` may send at any time: the network may deliver any of them, in any
      order, any number of times. Acknowledgements, windows, FIN and RST are
      unconstrained. */
  predicate FromPeer(seg: Segment, isn: u32, stream: seq<u8>) {
    && (seg.ctl.syn ==> seg.data == [] && seg.seqno == isn)
    && (seg.data != [] ==>
          var off := Ahead32(seg.seqno, Add32(isn, 1));
          seg.options == [] && off + |seg.data| <= |stream| && seg.data == stream[off..off + |seg.data|])
  }

  /** The bytes delivered on this key since the application was last told that
      it is connected. */
  function LogAfter(log: seq<u8>, call: Option<AppCall>): seq<u8> {
    match call
    case None => log
    case Some(a) => (if a.flags.connected then [] else log) + (if a.flags.newdata then a.data else [])
  }

  ghost predicate Delivering(o: Option<Conn>, log: seq<u8>, isn: u32, stream: seq<u8>) {
    && log <= stream
    && (o.Some? && o.value.state == SYN_RCVD ==> o.value.rcvNxt == Add32(isn, 1))
    && (o.Some? && o.value.state == ESTABLISHED ==> o.value.rcvNxt == Add32(isn, 1 + |log|))
  }

  /** In-sequence data continues the log. */
  lemma Continues(seg: Segment, log: seq<u8>, isn: u32, stream: seq<u8>)
    requires FromPeer(seg, isn, stream) && log <= stream && |stream| < 0x1_0000_0000
    requires seg.data != [] ==> seg.seqno == Add32(isn, 1 + |log|)
    ensures AppBytes(seg) == seg.data && log + seg.data <= stream
    ensures Add32(Add32(isn, 1 + |log|), |seg.data|) == Add32(isn, 1 + |log + seg.data|)
  {
    AddAdd(isn, 1 + |log|, |seg.data|);
    if seg.data != [] {
      AheadOfNext(isn, |log|);
    }
  }

  lemma ResumeKeepsRcv(c: Conn, host: u32, goto: Label, seg: Segment, r: Reply)
    requires SizesOk(c) && ReplyOk(r)
    ensures var d := Resume(c, host, goto, seg, r);
            d.conn.rcvNxt == c.rcvNxt && d.conn.state == StateAfterCall(c.state, goto, r)
  {
  }

  /** From the state after acknowledgement processing to the application call. */
  lemma SwitchDelivers(c: Conn, acked: bool, seg: Segment, host: u32, log: seq<u8>, isn: u32, stream: seq<u8>)
    requires InputOk(seg) && c.state != CLOSED && |stream| < 0x1_0000_0000
    requires FromPeer(seg, isn, stream) && Delivering(Some(c), log, isn, stream)
    requires !OutOfSequence(c, seg) || c.state == SYN_SENT
    ensures var (c1, next) := ReceiveInState(c, acked, seg, host);
            var log1 := LogAfter(log, if next.Call? then Some(AppCall(KeyOf(c), next.flags, next.data)) else None);
            Delivering(if next.Call? && next.goto == SendFinAck then None else Some(c1), log1, isn, stream)
  {
    match c.state
    case SYN_RCVD =>
      Continues(seg, [], isn, stream);
    case ESTABLISHED =>
      EstablishedDelivers(c, acked, seg, log, isn, stream);
    case _ =>
  }

  lemma EstablishedDelivers(c: Conn, acked: bool, seg: Segment, log: seq<u8>, isn: u32, stream: seq<u8>)
    requires InputOk(seg) && c.state == ESTABLISHED && |stream| < 0x1_0000_0000
    requires FromPeer(seg, isn, stream) && Delivering(Some(c), log, isn, stream) && !OutOfSequence(c, seg)
    ensures var (c1, next) := ReceiveEstablished(c, acked, seg);
            var log1 := LogAfter(log, if next.Call? then Some(AppCall(KeyOf(c), next.flags, next.data)) else None);
            Delivering(if next.Call? && next.goto == SendFinAck then None else Some(c1), log1, isn, stream)
  {
    Continues(seg, log, isn, stream);
    assert log + [] == log;
  }

  /** The application call and what follows it do not touch reception. */
  lemma FinishDelivers(c: Conn, next: Next, host: u32, seg: Segment, r: Reply, log: seq<u8>, isn: u32, stream: seq<u8>)
    requires SizesOk(c) && ReplyOk(r)
    requires var log1 := LogAfter(log, if next.Call? then Some(AppCall(KeyOf(c), next.flags, next.data)) else None);
             Delivering(if next.Call? && next.goto == SendFinAck then None else Some(c), log1, isn, stream)
    ensures var x := FinishLocal(c, next, host, seg, r); Delivering(x.conn, LogAfter(log, x.call), isn, stream)
  {
    if next.Call? {
      ResumeKeepsRcv(c, host, next.goto, seg, r);
    }
  }

  lemma ReceiveDelivers(c: Conn, seg: Segment, host: u32, r: Reply, log: seq<u8>, isn: u32, stream: seq<u8>)
    requires ConnOk(c) && c.state != CLOSED && InputOk(seg) && ReplyOk(r) && |stream| < 0x1_0000_0000
    requires FromPeer(seg, isn, stream) && Delivering(Some(c), log, isn, stream)
    ensures var x := ReceiveLocal(c, seg, host, r); Delivering(x.conn, LogAfter(log, x.call), isn, stream)
  {
    ReceiveKeeps(c, seg, host, 0, r);
    ReceiveKeepsKey(c, seg, host);
    var (c1, next) := Receive(c, seg, host);
    if !seg.ctl.rst && !OutOfSequence(c, seg) {
      var ca := Acknowledged(c, seg);
      assert ca.state == c.state && ca.rcvNxt == c.rcvNxt && KeyOf(ca) == KeyOf(c);
      SwitchDelivers(ca, Acknowledges(c, seg), seg, host, log, isn, stream);
    }
    FinishDelivers(c1, next, host, seg, r, log, isn, stream);
  }

  lemma TimerDelivers(c: Conn, host: u32, r: Reply, log: seq<u8>, isn: u32, stream: seq<u8>)
    requires ConnOk(c) && ReplyOk(r) && Delivering(Some(c), log, isn, stream)
    ensures var x := TickLocal(c, host, r); Delivering(x.conn, LogAfter(log, x.call), isn, stream)
    ensures var x := PollLocal(c, host, r); Delivering(x.conn, LogAfter(log, x.call), isn, stream)
  {
    TickKeeps(c, host, 0, NOSEG, r);
    TickDelivers(c, host, log, isn, stream);
    var (c1, next) := Tick(c, host);
    FinishDelivers(c1, next, host, NOSEG, r, log, isn, stream);
    var (c2, next2) := Poll(c);
    FinishDelivers(c2, next2, host, NOSEG, r, log, isn, stream);
  }

  /** A timer event does not touch reception. */
  lemma TickDelivers(c: Conn, host: u32, log: seq<u8>, isn: u32, stream: seq<u8>)
    requires Delivering(Some(c), log, isn, stream)
    ensures var (c1, next) := Tick(c, host);
            && Delivering(Some(c1), log, isn, stream)
            && (next.Call? ==> next.goto != SendFinAck && LogAfter(log, Some(AppCall(KeyOf(c1), next.flags, next.data))) == log)
  {
    assert log + [] == log;
  }

  /** One event of the whole stack keeps the log of one key a prefix. */
  lemma StepDelivers(s: Stack, e: Event, k: Key, log: seq<u8>, isn: u32, stream: seq<u8>)
    requires StackOk(s) && EventOk(s, e) && |stream| < 0x1_0000_0000
    requires e.Input? && KeyFor(e.seg) == k ==> FromPeer(e.seg, isn, stream)
    requires Delivering(Lookup(s, k), log, isn, stream)
    ensures var x := At(Step(s, e), k); Delivering(x.conn, LogAfter(log, x.call), isn, stream)
  {
    Project(s, e, k);
    LookupOk(s, k);
    var o := Lookup(s, k);
    if o.Some? && Concerns(s, e, k) {
      if e.Input? {
        ReceiveDelivers(o.value, e.seg, s.host, e.r, log, isn, stream);
      } else {
        TimerDelivers(o.value, s.host, e.r, log, isn, stream);
      }
    }
  }

  /** The log of key `k` over a run. */
  ghost function Log(s: Stack, es: seq<Event>, k: Key, log: seq<u8>): seq<u8>
    requires StackOk(s) && RunOk(s, es)
    decreases |es|
  {
    if es == [] then log
    else
      StepKeeps(s, es[0]);
      var x := Step(s, es[0]);
      Log(x.stack, es[1..], k, LogAfter(log, At(x, k).call))
  }

  lemma {:induction false} RunDelivers(s: Stack, es: seq<Event>, k: Key, log: seq<u8>, isn: u32, stream: seq<u8>)
    requires StackOk(s) && RunOk(s, es) && |stream| < 0x1_0000_0000
    requires forall e | e in es && e.Input? && KeyFor(e.seg) == k :: FromPeer(e.seg, isn, stream)
    requires Delivering(Lookup(s, k), log, isn, stream)
    ensures Delivering(Lookup(After(s, es), k), Log(s, es, k, log), isn, stream)
    decreases |es|
  {
    if es != [] {
      StepKeeps(s, es[0]);
      StepDelivers(s, es[0], k, log, isn, stream);
      var x := Step(s, es[0]);
      RunDelivers(x.stack, es[1..], k, LogAfter(log, At(x, k).call), isn, stream);
    }
  }

  /** Prefix safety, from a fresh stack, for every run of every event: other
      connections, timers, polls and application answers are arbitrary. */
  lemma PrefixSafety(host: u32, es: seq<Event>, k: Key, isn: u32, stream: seq<u8>)
    requires RunOk(Initial(host), es) && |stream| < 0x1_0000_0000
    requires forall e | e in es && e.Input? && KeyFor(e.seg) == k :: FromPeer(e.seg, isn, stream)
    ensures Log(Initial(host), es, k, []) <= stream
    ensures var o := Lookup(After(Initial(host), es), k);
            o.Some? && o.value.state == ESTABLISHED ==>
              o.value.rcvNxt == Add32(isn, 1 + |Log(Initial(host), es, k, [])|)
  {
    LookupNone(Initial(host), k);
    RunDelivers(Initial(host), es, k, [], isn, stream);
  }

  /** Options on data segments break delivery: uip_appdata skips a bare header
      only. Payloads of length n all reach the application unchanged if and only
      if there are no options, or no payload. */
  lemma OptionsShiftData(head: Segment, n: nat)
    ensures (forall d: seq<u8> | |d| == n :: AppBytes(head.(data := d)) == d) <==> head.options == [] || n == 0
  {
    if head.options != [] && n > 0 {
      var d: seq<u8> := seq(n, _ => if head.options[0] == 0 then 1 else 0);
      assert AppBytes(head.(data := d))[0] == head.options[0] != d[0];
    }
  }

  /** An established connection that receives the payload 07 in sequence behind
      four NOP options hands 01 to the application. */
  lemma ShiftedPayload(c: Conn, seg: Segment, host: u32)
    requires c.state == ESTABLISHED && InputOk(seg) && seg.ctl == ACK && seg.seqno == c.rcvNxt
    requires seg.options == [1, 1, 1, 1] && seg.data == [7]
    ensures var next := Receive(c, seg, host).1; next.Call? && next.flags.newdata && next.data == [1]
  {
    assert (seg.options + seg.data)[..1] == [1];
  }
}
