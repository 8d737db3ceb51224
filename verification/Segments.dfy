/** What single segments mean to the host that receives them: the MSS it learns, the
    window it keeps to, the reset it accepts. */
module Segments {
  import opened Words
  import opened Tcp
  import opened TcpInvariant
  import opened Stack
  import opened Table
  import opened Endpoint

  // --- The MSS option --------------------------------------------------------

  /** An MSS option is found behind any number of NOPs, whatever follows it. */
  lemma {:induction false} MssBehindNops(nops: nat, hi: u8, lo: u8, rest: seq<u8>, k: nat)
    requires k <= nops
    ensures var o := seq(nops, _ => 1) + [2, 4, hi, lo] + rest;
            OptionsOk(o, nops + 4) ==> OptionsOk(o, k) && MssOption(o, k) == Some(hi as int * 0x100 + lo as int)
    decreases nops - k
  {
    var o := seq(nops, _ => 1) + [2, 4, hi, lo] + rest;
    if k == nops {
      assert o[k] == 2 && o[k + 1] == 4 && o[k + 2] == hi && o[k + 3] == lo;
    } else {
      assert o[k] == 1;
      MssBehindNops(nops, hi, lo, rest, k + 1);
    }
  }

  /** Options without an MSS leave the slot's old value. */
  lemma NoMss(c: Conn, seg: Segment, iss: u32)
    requires InputOk(seg) && seg.options == []
    ensures Accept(c, seg, iss).mss == c.mss && Accept(c, seg, iss).initialmss == c.initialmss
  {
  }

  /** A SYN of this stack makes a peer with this stack send at most 366 bytes at a
      time; a larger value is cut to 366. */
  lemma MssLearned(c: Conn, seg: Segment, iss: u32, hi: u8, lo: u8)
    requires InputOk(seg) && seg.options == [2, 4, hi, lo]
    ensures var m := hi as int * 0x100 + lo as int;
            var a := Accept(c, seg, iss); a.initialmss == a.mss == if m > 366 then 366 else m
    ensures MSS_OPTION == [2, 4, 366 / 256, 366 % 256]
  {
    var none: seq<u8> := [];
    assert seq(0, _ => 1) + [2, 4, hi, lo] + none == seg.options;
    assert OptionsOk(seg.options, 4);
    MssBehindNops(0, hi, lo, none, 0);
  }

  // --- The window ------------------------------------------------------------

  /** New data sent in answer to a segment with window w > 0 is at most w bytes, and
      so is all that is sent before the next segment. */
  lemma WindowRespected(c: Conn, seg: Segment, host: u32, r: Reply)
    requires ConnOk(c) && c.state == ESTABLISHED && InputOk(seg) && ReplyOk(r)
    requires !seg.ctl.rst && !seg.ctl.fin && !OutOfSequence(c, seg) && seg.wnd > 0
    ensures var x := ReceiveLocal(c, seg, host, r);
            |x.taken| <= seg.wnd && (x.conn.Some? ==> x.conn.value.mss <= seg.wnd && x.conn.value.initialmss == c.initialmss)
  {
  }

  /** A closed window is probed with up to a full segment. */
  lemma ZeroWindow(c: Conn, seg: Segment, host: u32, r: Reply)
    requires ConnOk(c) && c.state == ESTABLISHED && InputOk(seg) && ReplyOk(r)
    requires !seg.ctl.rst && !seg.ctl.fin && !OutOfSequence(c, seg) && seg.wnd == 0
    ensures var x := ReceiveLocal(c, seg, host, r); x.conn.Some? ==> x.conn.value.mss == c.initialmss
  {
  }

  lemma SentWithinMss(c: Conn, host: u32, r: Reply)
    requires ConnOk(c) && ReplyOk(r)
    ensures var x := TickLocal(c, host, r); |x.taken| <= c.mss && (x.conn.Some? ==> x.conn.value.mss == c.mss)
    ensures var x := PollLocal(c, host, r); |x.taken| <= c.mss && (x.conn.Some? ==> x.conn.value.mss == c.mss)
  {
  }

  /** The window every segment announces is what the packet buffer has room for. */
  lemma WindowAnnounced(c: Conn, host: u32, ctl: Ctl, options: seq<u8>, data: seq<u8>, text: seq<u8>)
    requires |text| <= FromConn(c, host, ctl, options, data).wnd
    ensures 0 < FromConn(c, host, ctl, options, data).wnd && |text| <= 366
  {
  }

  // --- Resets ----------------------------------------------------------------

  /** The reset that answers a segment of connection `c` of another host reaches
      that connection with a sequence number it expects, section 3.4 of RFC 793. */
  lemma ResetReaches(c: Conn, host: u32, peer: u32, ctl: Ctl, options: seq<u8>, data: seq<u8>)
    requires !ctl.rst && c.ripaddr == peer
    ensures var reset := ResetFor(FromConn(c, host, ctl, options, data), peer);
            && reset.Some? && KeyFor(reset.value) == KeyOf(c) && reset.value.dstIp == host
            && reset.value.seqno == c.rcvNxt && reset.value.ackno == Add32(c.sndNxt, 1)
            && reset.value.ctl.rst && reset.value.ctl.ack && reset.value.data == []
  {
  }

  lemma NoResetForReset(seg: Segment, host: u32)
    requires seg.ctl.rst
    ensures ResetFor(seg, host) == None
  {
  }

  // --- Listening and initial sequence numbers --------------------------------

  /** uip_listen: the port is added if an entry is free, and no other is lost. */
  lemma {:induction false} ListenAdds(ports: seq<u16>, port: u16)
    ensures |Listen(ports, port)| == |ports|
    ensures 0 in ports ==> port in Listen(ports, port)
    ensures 0 !in ports ==> Listen(ports, port) == ports
    ensures forall q | q in ports && q != 0 :: q in Listen(ports, port)
    ensures forall q | q in Listen(ports, port) :: q in ports || q == port
  {
    if ports != [] && ports[0] != 0 {
      ListenAdds(ports[1..], port);
      assert ports == [ports[0]] + ports[1..];
    }
  }

  function TimerEvents(es: seq<Event>): nat {
    if es == [] then 0 else (if es[0].Timer? then 1 else 0) + TimerEvents(es[1..])
  }

  /** The initial sequence number advances by one with every timer event. */
  lemma {:induction false} IssAdvances(s: Stack, es: seq<Event>)
    requires StackOk(s) && RunOk(s, es)
    ensures After(s, es).iss == Add32(s.iss, TimerEvents(es))
    decreases |es|
  {
    if es != [] {
      StepKeeps(s, es[0]);
      var s1 := Step(s, es[0]).stack;
      IssAdvances(s1, es[1..]);
      IssStep(s, es[0]);
      AddAdd(s.iss, if es[0].Timer? then 1 else 0, TimerEvents(es[1..]));
    }
  }

  lemma IssStep(s: Stack, e: Event)
    requires StackOk(s) && EventOk(s, e)
    ensures Step(s, e).stack.iss == Add32(s.iss, if e.Timer? then 1 else 0)
  {
  }
}
