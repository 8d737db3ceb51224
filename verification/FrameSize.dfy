/** Every frame the stack hands to the driver fits its transmit buffer, and every
    segment it emits reaches the peer's engine unchanged through its bytes. */
module FrameSize {
  import opened Platform
  import opened Words
  import opened Tcp
  import opened Stack
  import opened Table
  import opened Wire
  import opened ArpExchange
  import Arp
  import Ring

  predicate Fits(seg: Segment) {
    && Sendable(seg) && |seg.options| + |seg.data| <= MSS
    && !seg.ctl.urg && (seg.options == [] || seg.options == MSS_OPTION)
  }

  lemma FinishFits(c: Conn, host: u32, next: Next, slen: u16, seg: Segment, r: Reply)
    requires SizesOk(c) && ReplyOk(r) && (next.Transmit? ==> Fits(next.seg))
    ensures var d := Finish(c, host, next, slen, seg, r);
            SizesOk(d.conn) && d.out.Some? ==> Fits(d.out.value)
  {
  }

  lemma HalfFits(s: Stack, e: Event)
    requires StackOk(s) && EventOk(s, e) && (e.Input? || e.Timer? || e.PollConn?)
    ensures HalfOf(s, e).next.Transmit? ==> Fits(HalfOf(s, e).next.seg)
  {
  }

  lemma CompleteFits(h: Half, seg: Segment, r: Reply)
    requires (h.slot < |h.stack.conns| ==> SizesOk(h.stack.conns[h.slot])) && ReplyOk(r)
    requires h.next.Transmit? ==> Fits(h.next.seg)
    ensures var out := Complete(h, seg, r).out; out.Some? ==> Fits(out.value)
  {
    if h.slot < |h.stack.conns| {
      FinishFits(h.stack.conns[h.slot], h.stack.host, h.next, h.stack.slen, seg, r);
    }
  }

  lemma StepFits(s: Stack, e: Event)
    requires StackOk(s) && EventOk(s, e)
    ensures Step(s, e).out.Some? ==> Fits(Step(s, e).out.value)
  {
    if e.Input? || e.Timer? || e.PollConn? {
      HalfSizes(s, e);
      HalfFits(s, e);
      CompleteFits(HalfOf(s, e), if e.Input? then e.seg else NOSEG, e.r);
    }
  }

  /** The frame is at most UIP_BUFSIZE bytes and acceptable to net_send. */
  predicate FrameOk(seg: Segment, h: Host, dip: Arp.Ip) {
    var f := Out(h, dip, 20 + TcpLength(seg));
    0 < Length(f) <= UIP_BUFSIZE && UIP_BUFSIZE <= Ring.BUFFER
  }

  lemma FitsFrame(seg: Segment, h: Host, dip: Arp.Ip)
    requires Fits(seg)
    ensures FrameOk(seg, h, dip)
  {
  }

  /** In every reachable state, whatever the event: the segment that leaves fits
      UIP_TCP_MSS, and the frame uip_arp_out makes of it, or of the ARP request it
      puts in its place, is at most UIP_BUFSIZE bytes. */
  lemma EmittedFits(host: u32, es: seq<Event>, e: Event, h: Host, dip: Arp.Ip)
    requires RunOk(Initial(host), es)
    requires EventOk(After(Initial(host), es), e)
    ensures StackOk(After(Initial(host), es))
    ensures var out := Step(After(Initial(host), es), e).out;
            out.Some? ==> Fits(out.value) && FrameOk(out.value, h, dip)
  {
    RunKeeps(Initial(host), es);
    var s := After(Initial(host), es);
    StepFits(s, e);
    if Step(s, e).out.Some? {
      FitsFrame(Step(s, e).out.value, h, dip);
    }
  }

  lemma FitsInput(seg: Segment)
    requires Fits(seg)
    ensures InputOk(seg)
  {
    var o := MSS_OPTION;
    assert OptionsOk(o, 4) && OptionsOk(o, 0);
  }

  /** In every reachable state: the bytes of the segment that leaves, with any link
      padding, pass the input tests of the host they are addressed to, and that
      host's engine is given the same segment, within what it is written for. */
  lemma EmittedArrives(host: u32, es: seq<Event>, e: Event, ipid: u16, pad: seq<u8>, uipLen: nat)
    requires RunOk(Initial(host), es)
    requires EventOk(After(Initial(host), es), e)
    ensures StackOk(After(Initial(host), es))
    ensures var out := Step(After(Initial(host), es), e).out;
            out.Some? && uipLen >= 20 + TcpLength(out.value) ==>
              && Sendable(out.value)
              && var bytes := Packet(out.value, ipid) + pad;
              && Accepts(bytes, uipLen, out.value.dstIp) && HeaderFits(bytes) && Parse(bytes) == out.value
              && InputOk(out.value)
  {
    RunKeeps(Initial(host), es);
    var s := After(Initial(host), es);
    StepFits(s, e);
    var out := Step(s, e).out;
    if out.Some? && uipLen >= 20 + TcpLength(out.value) {
      FitsInput(out.value);
      SelfAcceptance(out.value, ipid, pad, uipLen, out.value.dstIp);
      RoundTrip(out.value, ipid, pad);
    }
  }
}
