/** uip.c in memory: the connection table is an array whose slots `uip_process`,
    `uip_connect` and `uip_listen` overwrite in place. */
module UipEngine {
  import opened Words
  import opened Tcp
  import opened Stack
  import opened Table

  class Uip {
    const conns: array<Conn>
    const listening: array<u16>
    var iss: u32
    var lastport: u16
    var slen: u16
    const host: u32

    ghost function Value(): Stack
      reads this, conns, listening
    {
      Stack(conns[..], listening[..], iss, lastport, slen, host)
    }

    ghost predicate Valid()
      reads this, conns, listening
    {
      conns.Length == CONNS && listening.Length == LISTENPORTS && StackOk(Value())
    }

    /** uip_init, on zeroed memory. */
    constructor (host: u32)
      ensures Valid() && fresh(conns) && fresh(listening) && Value() == Initial(host)
    {
      conns := new Conn[CONNS](_ => Conn(0, 0, 0, 0, 0, 0, 0, 0, 0, 0, 0, CLOSED, 0, 0));
      listening := new u16[LISTENPORTS](_ => 0);
      iss, lastport, slen := 0, 1024, 0;
      this.host := host;
      new;
      assert Value() == Initial(host);
    }

    // --- Loops over the tables -----------------------------------------------

    /** The demultiplexing loop. */
    method FindConnection(k: Key) returns (i: nat)
      requires conns.Length == CONNS
      ensures i == FindConn(conns[..], k, 0)
    {
      i := 0;
      while i < CONNS && !Matches(conns[i], k)
        invariant i <= CONNS && FindConn(conns[..], k, i) == FindConn(conns[..], k, 0)
      {
        i := i + 1;
      }
    }

    /** The search for a CLOSED slot, or the oldest in TIME_WAIT. */
    method FindFreeSlot() returns (best: Option<nat>)
      requires conns.Length == CONNS
      ensures best == FindSlot(conns[..], 0, None)
    {
      best := None;
      for i := 0 to CONNS
        invariant best.Some? ==> best.value < CONNS
        invariant FindSlot(conns[..], i, best) == FindSlot(conns[..], 0, None)
      {
        if conns[i].state == CLOSED {
          return Some(i);
        }
        if conns[i].state == TIME_WAIT && (best.None? || conns[i].timer > conns[best.value].timer) {
          best := Some(i);
        }
      }
    }

    method IsListening(port: u16) returns (r: bool)
      requires listening.Length == LISTENPORTS
      ensures r <==> port in listening[..]
    {
      for c := 0 to LISTENPORTS
        invariant forall j | 0 <= j < c :: listening[j] != port
      {
        if listening[c] == port {
          return true;
        }
      }
      return false;
    }

    /** uip_listen. */
    method AddListener(port: u16)
      requires listening.Length == LISTENPORTS
      modifies listening
      ensures listening[..] == Listen(old(listening[..]), port)
    {
      ghost var l := listening[..];
      for c := 0 to LISTENPORTS
        invariant listening[..] == l && Listen(l, port) == l[..c] + Listen(l[c..], port)
      {
        ListenFrom(l, port, c);
        if listening[c] == 0 {
          listening[c] := port;
          assert listening[..] == l[..c] + [port] + l[c + 1..];
          return;
        }
      }
      assert l[..LISTENPORTS] + l[LISTENPORTS..] == l;
    }

    /** Whether a live connection uses the port. */
    method PortInUse(port: u16) returns (r: bool)
      requires conns.Length == CONNS
      ensures r <==> PortUsed(conns[..], port)
    {
      for c := 0 to CONNS
        invariant forall j | 0 <= j < c :: !(conns[j].state != CLOSED && conns[j].lport == Htons(port))
      {
        if conns[c].state != CLOSED && conns[c].lport == Htons(port) {
          assert conns[..][c] == conns[c];
          return true;
        }
      }
      return false;
    }

    /** The `goto again` loop of uip_connect: it ends, by pigeonhole, after at most
        UIP_CONNS + 1 increments. */
    method NextLocalPort()
      requires conns.Length == CONNS && 1024 <= lastport < 32000
      modifies this`lastport
      ensures lastport == FindPort(conns[..], old(lastport), CONNS) && !PortUsed(conns[..], lastport)
    {
      ghost var last, k := lastport, 0;
      ghost var table := conns[..];
      ghost var tries := PortSearch(table, last);
      var used := true;
      while used
        invariant k <= tries && lastport == PortAfter(last, k) && (used <==> k < tries)
        decreases tries - k
      {
        NextTry(table, last, tries, k);
        used := TryNextPort();
        k := k + 1;
      }
    }

    /** One turn: increment and test. */
    method TryNextPort() returns (used: bool)
      requires conns.Length == CONNS
      modifies this`lastport
      ensures lastport == NextPort(old(lastport)) && (used <==> PortUsed(conns[..], lastport))
    {
      lastport := if lastport + 1 >= 32000 then 4096 else lastport + 1;
      used := PortInUse(lastport);
    }

    /** uip_connect. */
    method ConnectTo(ip: u32, rport: u16) returns (slot: Option<nat>)
      requires Valid()
      modifies this`lastport, conns
      ensures Valid() && Value() == Connect(old(Value()), ip, rport)
      ensures slot == FindSlot(old(conns[..]), 0, None)
    {
      ConnectKeeps(Value(), ip, rport);
      ghost var s := Value();
      NextLocalPort();
      slot := FindFreeSlot();
      if slot.Some? {
        var j := slot.value;
        conns[j] := Opened(conns[j], Htons(lastport), ip, rport, iss);
        assert conns[..] == s.conns[j := conns[j]];
      }
    }

    // --- The segment-processing switch ---------------------------------------

    /** The cursor loop over TCP options. */
    method ParseMss(options: seq<u8>) returns (r: Option<u16>)
      requires OptionsOk(options, 0) && |options| <= 40
      ensures r == MssOption(options, 0)
    {
      var c := 0;
      while c < |options|
        invariant 0 <= c <= |options| && OptionsOk(options, c) && MssOption(options, c) == MssOption(options, 0)
        decreases |options| - c
      {
        if options[c] == 0 {
          return None;
        } else if options[c] == 1 {
          c := c + 1;
        } else if options[c] == 2 && options[c + 1] == 4 {
          return Some(options[c + 2] as int * 0x100 + options[c + 3] as int);
        } else {
          if options[c + 1] == 0 {
            return None;
          }
          c := c + options[c + 1];
        }
      }
      return None;
    }

    /** Does the segment acknowledge what is outstanding? Then account for it. */
    method TakeAck(i: nat, seg: Segment) returns (acked: bool)
      requires i < conns.Length
      modifies conns
      ensures conns[..] == old(conns[..])[i := Acknowledged(old(conns[i]), seg)]
      ensures acked <==> Acknowledges(old(conns[i]), seg)
    {
      acked := false;
      var c := conns[i];
      if seg.ctl.ack && c.len > 0 && seg.ackno == Add32(c.sndNxt, c.len) {
        if c.nrtx == 0 {
          c := RttEstimate(c);
        }
        conns[i] := c.(sndNxt := seg.ackno, timer := c.rto, len := 0);
        acked := true;
      }
    }

    method OnEstablished(i: nat, acked: bool, seg: Segment) returns (next: Next)
      requires i < conns.Length
      modifies conns
      ensures var (c, n) := ReceiveEstablished(old(conns[i]), acked, seg);
              conns[..] == old(conns[..])[i := c] && next == n
    {
      var n := |seg.data|;
      if seg.ctl.fin {
        if conns[i].len > 0 {
          return Drop;
        }
        conns[i] := Advance(conns[i], 1 + n);
        return Call(NOFLAGS.(ackdata := acked, newdata := n > 0, close := true), AppBytes(seg), SendFinAck);
      }
      conns[i] := Advance(conns[i], n);
      conns[i] := conns[i].(mss := if seg.wnd > conns[i].initialmss || seg.wnd == 0 then conns[i].initialmss else seg.wnd);
      if n > 0 || acked {
        return Call(NOFLAGS.(ackdata := acked, newdata := n > 0), AppBytes(seg), AppSend);
      }
      return Drop;
    }

    method OnSynSent(i: nat, acked: bool, seg: Segment) returns (next: Next)
      requires i < conns.Length && InputOk(seg)
      modifies conns
      ensures var (c, n) := ReceiveSynSent(old(conns[i]), acked, seg);
              conns[..] == old(conns[..])[i := c] && next == n
    {
      if acked && seg.ctl == SYN_ACK {
        var m := ParseMss(seg.options);
        if m.Some? {
          var v := if m.value > MSS then MSS else m.value;
          conns[i] := conns[i].(mss := v, initialmss := v);
        }
        conns[i] := conns[i].(state := ESTABLISHED, rcvNxt := Add32(seg.seqno, 1), len := 0);
        return Call(NOFLAGS.(connected := true, newdata := true), [], AppSend);
      }
      return Call(ABORT_FLAG, AppBytes(seg), ResetAfter);
    }

    method OnSynRcvd(i: nat, acked: bool, seg: Segment) returns (next: Next)
      requires i < conns.Length
      modifies conns
      ensures var (c, n) := ReceiveSynRcvd(old(conns[i]), acked, seg);
              conns[..] == old(conns[..])[i := c] && next == n
    {
      if !acked {
        return Drop;
      }
      conns[i] := conns[i].(state := ESTABLISHED, len := 0);
      if seg.data != [] {
        conns[i] := Advance(conns[i], |seg.data|);
      }
      next := Call(NOFLAGS.(connected := true, newdata := seg.data != []), AppBytes(seg), AppSend);
    }

    method OnFinWait1(i: nat, acked: bool, seg: Segment) returns (next: Next)
      requires i < conns.Length
      modifies conns
      ensures var (c, n) := ReceiveFinWait1(old(conns[i]), acked, seg, host);
              conns[..] == old(conns[..])[i := c] && next == n
    {
      conns[i] := Advance(conns[i], |seg.data|);
      if seg.ctl.fin {
        if acked {
          conns[i] := conns[i].(state := TIME_WAIT, timer := 0, len := 0);
        } else {
          conns[i] := conns[i].(state := CLOSING);
        }
        conns[i] := Advance(conns[i], 1);
        return Call(CLOSE_FLAG, AppBytes(seg), SendAckAfter);
      } else if acked {
        conns[i] := conns[i].(state := FIN_WAIT_2, len := 0);
        return Drop;
      }
      if seg.data != [] {
        return Transmit(FromConn(conns[i], host, ACK, [], []));
      }
      return Drop;
    }

    method OnFinWait2(i: nat, seg: Segment) returns (next: Next)
      requires i < conns.Length
      modifies conns
      ensures var (c, n) := ReceiveFinWait2(old(conns[i]), seg, host);
              conns[..] == old(conns[..])[i := c] && next == n
    {
      conns[i] := Advance(conns[i], |seg.data|);
      if seg.ctl.fin {
        conns[i] := conns[i].(state := TIME_WAIT, timer := 0);
        conns[i] := Advance(conns[i], 1);
        return Call(CLOSE_FLAG, AppBytes(seg), SendAckAfter);
      }
      if seg.data != [] {
        return Transmit(FromConn(conns[i], host, ACK, [], []));
      }
      return Drop;
    }

    /** The switch on the state. */
    method Switch(i: nat, acked: bool, seg: Segment) returns (next: Next)
      requires i < conns.Length && InputOk(seg)
      modifies conns
      ensures var (c, n) := ReceiveInState(old(conns[i]), acked, seg, host);
              conns[..] == old(conns[..])[i := c] && next == n
    {
      match conns[i].state
      case CLOSED => next := Drop;
      case SYN_RCVD => next := OnSynRcvd(i, acked, seg);
      case SYN_SENT => next := OnSynSent(i, acked, seg);
      case ESTABLISHED => next := OnEstablished(i, acked, seg);
      case FIN_WAIT_1 => next := OnFinWait1(i, acked, seg);
      case FIN_WAIT_2 => next := OnFinWait2(i, seg);
      case TIME_WAIT => next := Transmit(FromConn(conns[i], host, ACK, [], []));
      case LAST_ACK =>
        next := Drop;
        if acked {
          conns[i] := conns[i].(state := CLOSED);
          next := Call(CLOSE_FLAG, AppBytes(seg), DropAfter);
        }
      case CLOSING =>
        if acked {
          conns[i] := conns[i].(state := TIME_WAIT, timer := 0);
        }
        next := Drop;
    }

    /** found: one connection receives one segment, up to the application call. */
    method Found(i: nat, seg: Segment) returns (next: Next)
      requires i < conns.Length && InputOk(seg)
      modifies conns
      ensures var (c, n) := Receive(old(conns[i]), seg, host);
              conns[..] == old(conns[..])[i := c] && next == n
    {
      if seg.ctl.rst {
        conns[i] := conns[i].(state := CLOSED);
        return Call(ABORT_FLAG, AppBytes(seg), DropAfter);
      }
      if OutOfSequence(conns[i], seg) {
        return Transmit(FromConn(conns[i], host, ACK, [], []));
      }
      var acked := TakeAck(i, seg);
      next := Switch(i, acked, seg);
    }

    // --- The three events, up to the application call ------------------------

    /** UIP_DATA. */
    method InputEvent(seg: Segment) returns (slot: nat, next: Next)
      requires Valid() && InputOk(seg)
      modifies this`slen, conns
      ensures Half(Value(), slot, next) == InputHalf(old(Value()), seg)
    {
      slot := FindConnection(KeyFor(seg));
      if slot < CONNS {
        next := Found(slot, seg);
        if next.Call? && next.goto == AppSend {
          slen := 0;
        }
        return;
      }
      var listens := IsListening(seg.dstPort);
      if seg.ctl != SYN || !listens {
        var rst := ResetFor(seg, host);
        next := if rst.Some? then Transmit(rst.value) else Drop;
        return;
      }
      slot, next := AcceptSyn(seg);
    }

    /** found_listen. */
    method AcceptSyn(seg: Segment) returns (slot: nat, next: Next)
      requires conns.Length == CONNS && InputOk(seg)
      modifies conns
      ensures match FindSlot(old(conns[..]), 0, None)
              case None => slot == CONNS && next == Drop && conns[..] == old(conns[..])
              case Some(j) =>
                var c := Accept(old(conns[..])[j], seg, iss);
                slot == j && conns[..] == old(conns[..])[j := c]
                && next == Transmit(FromConn(c, host, SYN_ACK, MSS_OPTION, []))
    {
      var j := FindFreeSlot();
      if j.None? {
        return CONNS, Drop;
      }
      slot := j.value;
      conns[slot] := Conn(seg.srcIp, seg.dstPort, seg.srcPort, Add32(seg.seqno, 1), iss, 1,
                          conns[slot].mss, conns[slot].initialmss, 0, 4, RTO, SYN_RCVD, RTO, 0);
      var m := ParseMss(seg.options);
      if m.Some? {
        var v := if m.value > MSS then MSS else m.value;
        conns[slot] := conns[slot].(mss := v, initialmss := v);
      }
      next := Transmit(FromConn(conns[slot], host, SYN_ACK, MSS_OPTION, []));
    }

    /** UIP_TIMER on one slot. */
    method TimerEvent(i: nat) returns (next: Next)
      requires Valid() && i < CONNS
      modifies this`iss, this`slen, conns
      ensures Half(Value(), i, next) == TimerHalf(old(Value()), i)
    {
      iss := Add32(iss, 1);
      slen := 0;
      next := TickSlot(i);
    }

    method TickSlot(i: nat) returns (next: Next)
      requires i < conns.Length
      modifies conns
      ensures var (c, n) := Tick(old(conns[i]), host);
              conns[..] == old(conns[..])[i := c] && next == n
    {
      var c := conns[i];
      next := Drop;
      if c.state == TIME_WAIT || c.state == FIN_WAIT_2 {
        conns[i] := c.(timer := Byte(c.timer as int + 1));
        if conns[i].timer == TIME_WAIT_TIMEOUT {
          conns[i] := conns[i].(state := CLOSED);
        }
      } else if c.state != CLOSED {
        if c.len > 0 {
          conns[i] := c.(timer := Byte(c.timer as int - 1));
          if c.timer == 0 {
            if GivesUp(c) {
              conns[i] := conns[i].(state := CLOSED);
              return Call(TIMEDOUT_FLAG, [], SendRstAfter);
            }
            conns[i] := conns[i].(timer := Backoff(c.nrtx));
            conns[i] := conns[i].(nrtx := Byte(c.nrtx as int + 1));
            next := Retransmit(conns[i], host);
          }
        } else if c.state == ESTABLISHED {
          next := Call(POLL_FLAG, [], AppSend);
        }
      }
    }

    /** UIP_POLL_REQUEST. */
    method PollEvent(i: nat) returns (next: Next)
      requires conns.Length == CONNS && i < CONNS
      ensures Half(Value(), i, next) == PollHalf(Value(), i)
    {
      if conns[i].state == ESTABLISHED && conns[i].len == 0 {
        next := Call(POLL_FLAG, [], AppSend);
      } else {
        next := Drop;
      }
      assert conns[..] == conns[..][i := conns[i]];
    }

    // --- From the application call to the end --------------------------------

    /** appsend: abort, close, or take what the application offers. */
    method SendFromApp(i: nat, r: Reply) returns (out: Option<Segment>)
      requires i < conns.Length && SizesOk(conns[i]) && |r.buf| == APPDATA
      modifies this`slen, conns
      ensures var d := Resume(old(conns[i]), host, AppSend, NOSEG, r);
              conns[..] == old(conns[..])[i := d.conn] && out == d.out && slen == d.slen
    {
      if r.flags.abort {
        slen := 0;
        conns[i] := conns[i].(state := CLOSED);
        return Some(FromConn(conns[i], host, RST_ACK, [], []));
      }
      if r.flags.close {
        slen := 0;
        conns[i] := conns[i].(len := 1, state := FIN_WAIT_1, nrtx := 0);
        return Some(FromConn(conns[i], host, FIN_ACK, [], []));
      }
      slen := r.slen;
      if slen > 0 {
        if r.flags.ackdata {
          conns[i] := conns[i].(len := 0);
        }
        if conns[i].len == 0 {
          if slen > conns[i].mss {
            slen := conns[i].mss;
          }
          conns[i] := conns[i].(len := slen);
        } else {
          slen := conns[i].len;
        }
      }
      conns[i] := conns[i].(nrtx := 0);
      out := SendOutstanding(i, r);
    }

    /** apprexmit. */
    method SendOutstanding(i: nat, r: Reply) returns (out: Option<Segment>)
      requires i < conns.Length && SizesOk(conns[i]) && |r.buf| == APPDATA
      ensures out == SendData(conns[i], host, slen, r, []).out
    {
      if slen > 0 && conns[i].len > 0 {
        return Some(FromConn(conns[i], host, PSH_ACK, [], r.buf[..conns[i].len]));
      }
      if r.flags.newdata {
        return Some(FromConn(conns[i], host, ACK, [], []));
      }
      return None;
    }

    /** The rest of uip_process after the application call, label by label. */
    method AfterCall(i: nat, goto: Label, seg: Segment, r: Reply) returns (out: Option<Segment>)
      requires i < conns.Length && SizesOk(conns[i]) && |r.buf| == APPDATA
      modifies this`slen, conns
      ensures var d := Resume(old(conns[i]), host, goto, seg, r);
              conns[..] == old(conns[..])[i := d.conn] && out == d.out && slen == d.slen
    {
      match goto
      case AppSend => out := SendFromApp(i, r);
      case AppRexmit =>
        slen := r.slen;
        out := SendOutstanding(i, r);
      case SendFinAck =>
        slen := r.slen;
        conns[i] := conns[i].(len := 1, state := LAST_ACK, nrtx := 0);
        out := Some(FromConn(conns[i], host, FIN_ACK, [], []));
      case SendAckAfter =>
        slen := r.slen;
        out := Some(FromConn(conns[i], host, ACK, [], []));
      case DropAfter =>
        slen := r.slen;
        out := None;
      case ResetAfter =>
        slen := r.slen;
        conns[i] := conns[i].(state := CLOSED);
        out := ResetFor(seg, host);
      case SendRstAfter =>
        slen := r.slen;
        out := Some(FromConn(conns[i], host, RST_ACK, [], []));
    }

    method CompleteEvent(slot: nat, next: Next, seg: Segment, r: Reply) returns (out: Option<Segment>)
      requires slot < conns.Length ==> SizesOk(conns[slot])
      requires |r.buf| == APPDATA
      modifies this`slen, conns
      ensures var x := Complete(Half(old(Value()), slot, next), seg, r); Value() == x.stack && out == x.out
    {
      match next
      case Drop =>
        out := None;
        assert slot < conns.Length ==> conns[..] == conns[..][slot := conns[slot]];
      case Transmit(t) =>
        out := Some(t);
        assert slot < conns.Length ==> conns[..] == conns[..][slot := conns[slot]];
      case Call(_, _, goto) =>
        out := None;
        if slot < conns.Length {
          out := AfterCall(slot, goto, seg, r);
        }
    }
  }

  /** One turn of the `goto again` loop. */
  lemma NextTry(conns: seq<Conn>, last: u16, tries: nat, k: nat)
    requires k < tries && !PortUsed(conns, PortAfter(last, tries))
    requires forall j | 1 <= j < tries :: PortUsed(conns, PortAfter(last, j))
    ensures PortAfter(last, k + 1) == NextPort(PortAfter(last, k))
    ensures PortUsed(conns, PortAfter(last, k + 1)) <==> k + 1 < tries
  {
  }

  /** One turn of the loop of uip_listen. */
  lemma {:induction false} ListenFrom(l: seq<u16>, port: u16, c: nat)
    requires c < |l|
    ensures l[c] == 0 ==> l[..c] + Listen(l[c..], port) == l[..c] + [port] + l[c + 1..]
    ensures l[c] != 0 ==> l[..c] + Listen(l[c..], port) == l[..c + 1] + Listen(l[c + 1..], port)
  {
    assert l[c..][1..] == l[c + 1..];
    assert l[..c + 1] == l[..c] + [l[c]];
  }
}
