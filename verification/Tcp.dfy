/** One TCP connection of uIP: what `uip_process` does to the matched
    connection, split at the application call it makes.

    `Receive`, `Tick` and `Poll` run up to UIP_APPCALL (or to the end when the
    application is not called); `Resume` runs from the call to the end, given
    what the application left in uip_flags, uip_slen and the packet buffer. */
module Tcp {
  import opened Words

  const MSS := 366          // UIP_TCP_MSS = UIP_BUFSIZE - UIP_LLH_LEN - UIP_TCPIP_HLEN
  const RTO := 3            // UIP_RTO
  const MAXRTX := 8         // UIP_MAXRTX
  const MAXSYNRTX := 5      // UIP_MAXSYNRTX
  const TIME_WAIT_TIMEOUT := 120
  const APPDATA := 368      // bytes of uip_buf from uip_appdata to its end

  datatype State =
    | CLOSED | SYN_RCVD | SYN_SENT | ESTABLISHED | FIN_WAIT_1
    | FIN_WAIT_2 | CLOSING | TIME_WAIT | LAST_ACK

  /** The six control bits (TCP_CTL) of the TCP header. */
  datatype Ctl = Ctl(fin: bool, syn: bool, rst: bool, psh: bool, ack: bool, urg: bool)

  const SYN := Ctl(false, true, false, false, false, false)
  const SYN_ACK := Ctl(false, true, false, false, true, false)
  const ACK := Ctl(false, false, false, false, true, false)
  const PSH_ACK := Ctl(false, false, false, true, true, false)
  const FIN_ACK := Ctl(true, false, false, false, true, false)
  const RST_ACK := Ctl(false, false, true, false, true, false)

  /** A TCP segment with the addresses of its IP header. Ports are kept as the
      16-bit words found in memory, that is, in network byte order. */
  datatype Segment = Segment(
    srcIp: u32, dstIp: u32, srcPort: u16, dstPort: u16,
    seqno: u32, ackno: u32, ctl: Ctl, wnd: u16, options: seq<u8>, data: seq<u8>)

  /** struct uip_conn. */
  datatype Conn = Conn(
    ripaddr: u32, lport: u16, rport: u16, rcvNxt: u32, sndNxt: u32,
    len: u16, mss: u16, initialmss: u16, sa: u8, sv: u8, rto: u8,
    state: State, timer: u8, nrtx: u8)

  /** uip_flags. */
  datatype Flags = Flags(
    ackdata: bool, newdata: bool, rexmit: bool, poll: bool,
    close: bool, abort: bool, connected: bool, timedout: bool)

  const NOFLAGS := Flags(false, false, false, false, false, false, false, false)
  const CLOSE_FLAG := NOFLAGS.(close := true)
  const ABORT_FLAG := NOFLAGS.(abort := true)
  const POLL_FLAG := NOFLAGS.(poll := true)
  const REXMIT_FLAG := NOFLAGS.(rexmit := true)
  const TIMEDOUT_FLAG := NOFLAGS.(timedout := true)

  /** What the application leaves behind: uip_flags, uip_slen and the bytes of
      uip_buf from uip_sappdata on. */
  datatype Reply = Reply(flags: Flags, slen: u16, buf: seq<u8>)

  ghost predicate ReplyOk(r: Reply) {
    |r.buf| == APPDATA
  }

  /** Where control goes once the application returns. */
  datatype Label = AppSend | AppRexmit | SendFinAck | SendAckAfter | DropAfter | ResetAfter | SendRstAfter

  datatype Next =
    | Drop
    | Transmit(seg: Segment)
    | Call(flags: Flags, data: seq<u8>, goto: Label)

  /** The end of a step: the connection, the packet left in uip_buf if any,
      uip_slen, and the bytes newly taken for sending. */
  datatype Done = Done(conn: Conn, out: Option<Segment>, slen: u16, taken: seq<u8>)

  /** Sizes that hold in every slot of the connection table. */
  predicate SizesOk(c: Conn) {
    c.mss <= c.initialmss <= MSS && c.len <= MSS
  }

  // --- Input segments --------------------------------------------------------

  /** The option cursor stays inside the header. */
  predicate OptionsOk(o: seq<u8>, k: nat)
    decreases |o| - k
  {
    if k >= |o| || o[k] == 0 then true
    else if o[k] == 1 then OptionsOk(o, k + 1)
    else k + 1 < |o| && (o[k] == 2 && o[k + 1] == 4 ==> k + 4 <= |o|)
         && (o[k + 1] != 0 ==> k + o[k + 1] <= |o| && OptionsOk(o, k + o[k + 1]))
  }

  /** The MSS announced in the options of a SYN. */
  function MssOption(o: seq<u8>, k: nat): Option<u16>
    requires OptionsOk(o, k)
    decreases |o| - k
  {
    if k >= |o| || o[k] == 0 then None
    else if o[k] == 1 then MssOption(o, k + 1)
    else if o[k] == 2 && o[k + 1] == 4 then Some(o[k + 2] as int * 0x100 + o[k + 3] as int)
    else if o[k + 1] == 0 then None
    else MssOption(o, k + o[k + 1])
  }

  /** The segments the input code is written for: no urgent data, options that
      parse, and a payload that fits the packet buffer. */
  predicate InputOk(seg: Segment) {
    && !seg.ctl.urg
    && |seg.options| <= 40 && OptionsOk(seg.options, 0)
    && |seg.options| + |seg.data| <= APPDATA
  }

  /** The bytes at uip_appdata: it is fixed behind a 20-byte TCP
      header, so options, if any, shift what the application sees. */
  function AppBytes(seg: Segment): (d: seq<u8>)
    ensures |d| == |seg.data|
    ensures seg.options == [] ==> d == seg.data
  {
    (seg.options + seg.data)[..|seg.data|]
  }

  function WithMss(c: Conn, seg: Segment): Conn
    requires InputOk(seg)
  {
    match MssOption(seg.options, 0)
    case None => c
    case Some(m) => var v := if m > MSS then MSS else m; c.(mss := v, initialmss := v)
  }

  // --- Output segments -------------------------------------------------------

  const MSS_OPTION: seq<u8> := [2, 4, 1, 110]  // MSS / 256, MSS % 256

  /** tcp_send: the header is filled in from the connection. */
  function FromConn(c: Conn, host: u32, ctl: Ctl, options: seq<u8>, data: seq<u8>): Segment {
    Segment(host, c.ripaddr, c.lport, c.rport, c.sndNxt, c.rcvNxt, ctl, MSS, options, data)
  }

  /** reset: the answer to a segment that belongs to no connection. */
  function ResetFor(seg: Segment, host: u32): Option<Segment> {
    if seg.ctl.rst then None
    else Some(Segment(host, seg.srcIp, seg.dstPort, seg.srcPort, seg.ackno, Add32(seg.seqno, 1),
                      RST_ACK, seg.wnd, [], []))
  }

  // --- Round-trip estimate ---------------------------------------------------

  function Signed8(x: int): int {
    (x + 0x80) % 0x100 - 0x80
  }

  /** The estimate of lines 1438-1451, in `signed char` and `u8_t` arithmetic. */
  function RttEstimate(c: Conn): Conn {
    var m1 := Signed8(Signed8(c.rto - c.timer) - c.sa / 8);
    var sa := Byte(c.sa + m1);
    var m2 := Signed8((if m1 < 0 then Signed8(-m1) else m1) - c.sv / 4);
    var sv := Byte(c.sv + m2);
    c.(sa := sa, sv := sv, rto := Byte(sa / 8 + sv as int))
  }

  // --- Data event ------------------------------------------------------------

  predicate Acknowledges(c: Conn, seg: Segment) {
    seg.ctl.ack && c.len > 0 && seg.ackno == Add32(c.sndNxt, c.len)
  }

  function Acknowledged(c: Conn, seg: Segment): Conn {
    if Acknowledges(c, seg) then
      var r := if c.nrtx == 0 then RttEstimate(c) else c;
      r.(sndNxt := seg.ackno, timer := r.rto, len := 0)
    else c
  }

  function Advance(c: Conn, n: nat): Conn {
    c.(rcvNxt := Add32(c.rcvNxt, n))
  }

  predicate OutOfSequence(c: Conn, seg: Segment) {
    && !(c.state == SYN_SENT && seg.ctl == SYN_ACK)
    && (seg.data != [] || seg.ctl.syn || seg.ctl.fin)
    && seg.seqno != c.rcvNxt
  }

  function ReceiveSynRcvd(c: Conn, acked: bool, seg: Segment): (Conn, Next) {
    if acked then
      (Advance(c.(state := ESTABLISHED, len := 0), |seg.data|),
       Call(NOFLAGS.(connected := true, newdata := seg.data != []), AppBytes(seg), AppSend))
    else (c, Drop)
  }

  function ReceiveSynSent(c: Conn, acked: bool, seg: Segment): (Conn, Next)
    requires InputOk(seg)
  {
    if acked && seg.ctl == SYN_ACK then
      (WithMss(c, seg).(state := ESTABLISHED, rcvNxt := Add32(seg.seqno, 1), len := 0),
       Call(NOFLAGS.(connected := true, newdata := true), [], AppSend))
    else (c, Call(ABORT_FLAG, AppBytes(seg), ResetAfter))
  }

  function WindowMss(c: Conn, wnd: u16): Conn {
    c.(mss := if wnd > c.initialmss || wnd == 0 then c.initialmss else wnd)
  }

  function ReceiveEstablished(c: Conn, acked: bool, seg: Segment): (Conn, Next) {
    var n := |seg.data|;
    if seg.ctl.fin then
      if c.len > 0 then (c, Drop)
      else (Advance(c, 1 + n),
            Call(NOFLAGS.(ackdata := acked, newdata := n > 0, close := true), AppBytes(seg), SendFinAck))
    else
      var c1 := WindowMss(Advance(c, n), seg.wnd);
      if n > 0 || acked then
        (c1, Call(NOFLAGS.(ackdata := acked, newdata := n > 0), AppBytes(seg), AppSend))
      else (c1, Drop)
  }

  function ReceiveFinWait1(c: Conn, acked: bool, seg: Segment, host: u32): (Conn, Next) {
    var c1 := Advance(c, |seg.data|);
    if seg.ctl.fin then
      var c2 := if acked then c1.(state := TIME_WAIT, timer := 0, len := 0) else c1.(state := CLOSING);
      (Advance(c2, 1), Call(CLOSE_FLAG, AppBytes(seg), SendAckAfter))
    else if acked then (c1.(state := FIN_WAIT_2, len := 0), Drop)
    else if seg.data != [] then (c1, Transmit(FromConn(c1, host, ACK, [], [])))
    else (c1, Drop)
  }

  function ReceiveFinWait2(c: Conn, seg: Segment, host: u32): (Conn, Next) {
    var c1 := Advance(c, |seg.data|);
    if seg.ctl.fin then
      (Advance(c1.(state := TIME_WAIT, timer := 0), 1), Call(CLOSE_FLAG, AppBytes(seg), SendAckAfter))
    else if seg.data != [] then (c1, Transmit(FromConn(c1, host, ACK, [], [])))
    else (c1, Drop)
  }

  /** The switch on the connection's state. */
  function ReceiveInState(c: Conn, acked: bool, seg: Segment, host: u32): (Conn, Next)
    requires InputOk(seg)
  {
    match c.state
    case CLOSED => (c, Drop)
    case SYN_RCVD => ReceiveSynRcvd(c, acked, seg)
    case SYN_SENT => ReceiveSynSent(c, acked, seg)
    case ESTABLISHED => ReceiveEstablished(c, acked, seg)
    case LAST_ACK =>
      if acked then (c.(state := CLOSED), Call(CLOSE_FLAG, AppBytes(seg), DropAfter)) else (c, Drop)
    case FIN_WAIT_1 => ReceiveFinWait1(c, acked, seg, host)
    case FIN_WAIT_2 => ReceiveFinWait2(c, seg, host)
    case TIME_WAIT => (c, Transmit(FromConn(c, host, ACK, [], [])))
    case CLOSING => (if acked then c.(state := TIME_WAIT, timer := 0) else c, Drop)
  }

  /** found: a segment for this connection, up to the application call. */
  function Receive(c: Conn, seg: Segment, host: u32): (Conn, Next)
    requires InputOk(seg)
  {
    if seg.ctl.rst then (c.(state := CLOSED), Call(ABORT_FLAG, AppBytes(seg), DropAfter))
    else if OutOfSequence(c, seg) then (c, Transmit(FromConn(c, host, ACK, [], [])))
    else ReceiveInState(Acknowledged(c, seg), Acknowledges(c, seg), seg, host)
  }

  // --- Timer and poll events -------------------------------------------------

  predicate GivesUp(c: Conn) {
    c.nrtx == MAXRTX || ((c.state == SYN_SENT || c.state == SYN_RCVD) && c.nrtx == MAXSYNRTX)
  }

  /** UIP_RTO << min(nrtx, 4). */
  function Backoff(nrtx: u8): u8 {
    if nrtx == 0 then 3 else if nrtx == 1 then 6 else if nrtx == 2 then 12 else if nrtx == 3 then 24 else 48
  }

  function Retransmit(c: Conn, host: u32): Next {
    match c.state
    case SYN_RCVD => Transmit(FromConn(c, host, SYN_ACK, MSS_OPTION, []))
    case SYN_SENT => Transmit(FromConn(c, host, SYN, MSS_OPTION, []))
    case ESTABLISHED => Call(REXMIT_FLAG, [], AppRexmit)
    case FIN_WAIT_1 => Transmit(FromConn(c, host, FIN_ACK, [], []))
    case CLOSING => Transmit(FromConn(c, host, FIN_ACK, [], []))
    case LAST_ACK => Transmit(FromConn(c, host, FIN_ACK, [], []))
    case _ => Drop
  }

  /** UIP_TIMER on one connection, up to the application call. */
  function Tick(c: Conn, host: u32): (Conn, Next) {
    if c.state == TIME_WAIT || c.state == FIN_WAIT_2 then
      var t := Byte(c.timer as int + 1);
      (c.(timer := t, state := if t == TIME_WAIT_TIMEOUT then CLOSED else c.state), Drop)
    else if c.state == CLOSED then (c, Drop)
    else if c.len > 0 then
      if c.timer != 0 then (c.(timer := c.timer - 1), Drop)
      else if GivesUp(c) then
        (c.(timer := 255, state := CLOSED), Call(TIMEDOUT_FLAG, [], SendRstAfter))
      else
        var c1 := c.(timer := Backoff(c.nrtx), nrtx := Byte(c.nrtx as int + 1));
        (c1, Retransmit(c1, host))
    else if c.state == ESTABLISHED then (c, Call(POLL_FLAG, [], AppSend))
    else (c, Drop)
  }

  /** UIP_POLL_REQUEST on one connection. */
  function Poll(c: Conn): (Conn, Next) {
    if c.state == ESTABLISHED && c.len == 0 then (c, Call(POLL_FLAG, [], AppSend)) else (c, Drop)
  }

  // --- After the application call --------------------------------------------

  /** apprexmit: send the outstanding bytes, or acknowledge new data. */
  function SendData(c: Conn, host: u32, slen: u16, r: Reply, taken: seq<u8>): Done
    requires ReplyOk(r) && SizesOk(c)
  {
    if slen > 0 && c.len > 0 then
      Done(c, Some(FromConn(c, host, PSH_ACK, [], r.buf[..c.len])), slen, taken)
    else if r.flags.newdata then Done(c, Some(FromConn(c, host, ACK, [], [])), slen, taken)
    else Done(c, None, slen, taken)
  }

  /** appsend, when the application neither aborts nor closes. */
  function TakeData(c: Conn, host: u32, r: Reply): Done
    requires ReplyOk(r) && SizesOk(c)
  {
    var c1 := c.(nrtx := 0);
    if r.slen == 0 then SendData(c1, host, 0, r, [])
    else if c.len == 0 || r.flags.ackdata then
      var n := if r.slen > c.mss then c.mss else r.slen;
      SendData(c1.(len := n), host, n, r, r.buf[..n])
    else SendData(c1, host, c.len, r, [])
  }

  /** From the application call to the end of uip_process. */
  function Resume(c: Conn, host: u32, goto: Label, seg: Segment, r: Reply): Done
    requires ReplyOk(r) && SizesOk(c)
  {
    match goto
    case AppSend =>
      if r.flags.abort then
        var c1 := c.(state := CLOSED);
        Done(c1, Some(FromConn(c1, host, RST_ACK, [], [])), 0, [])
      else if r.flags.close then
        var c1 := c.(len := 1, state := FIN_WAIT_1, nrtx := 0);
        Done(c1, Some(FromConn(c1, host, FIN_ACK, [], [])), 0, [])
      else TakeData(c, host, r)
    case AppRexmit => SendData(c, host, r.slen, r, [])
    case SendFinAck =>
      var c1 := c.(len := 1, state := LAST_ACK, nrtx := 0);
      Done(c1, Some(FromConn(c1, host, FIN_ACK, [], [])), r.slen, [])
    case SendAckAfter => Done(c, Some(FromConn(c, host, ACK, [], [])), r.slen, [])
    case DropAfter => Done(c, None, r.slen, [])
    case ResetAfter => Done(c.(state := CLOSED), ResetFor(seg, host), r.slen, [])
    case SendRstAfter => Done(c, Some(FromConn(c, host, RST_ACK, [], [])), r.slen, [])
  }

  /** Close the two halves: `next` is what the first half asked for. */
  function Finish(c: Conn, host: u32, next: Next, slen: u16, seg: Segment, r: Reply): Done
    requires ReplyOk(r) && SizesOk(c)
  {
    match next
    case Drop => Done(c, None, slen, [])
    case Transmit(s) => Done(c, Some(s), slen, [])
    case Call(_, _, goto) => Resume(c, host, goto, seg, r)
  }
}
