/** The connection table and the events that drive it: `uip_process` with its
    demultiplexer and slot allocation, `uip_connect`, `uip_listen`. */
module Stack {
  import opened Words
  import opened Tcp
  import opened TcpInvariant

  const CONNS := 40        // UIP_CONNS
  const LISTENPORTS := 40  // UIP_LISTENPORTS

  /** What the demultiplexer compares. */
  datatype Key = Key(lport: u16, rport: u16, ip: u32)

  function KeyOf(c: Conn): Key { Key(c.lport, c.rport, c.ripaddr) }

  function KeyFor(seg: Segment): Key { Key(seg.dstPort, seg.srcPort, seg.srcIp) }

  datatype Stack = Stack(
    conns: seq<Conn>, listening: seq<u16>, iss: u32, lastport: u16, slen: u16, host: u32)

  predicate Matches(c: Conn, k: Key) {
    c.state != CLOSED && KeyOf(c) == k
  }

  /** The demultiplexing loop: the first live connection with this key. */
  function FindConn(conns: seq<Conn>, k: Key, i: nat): (r: nat)
    requires i <= |conns|
    ensures i <= r <= |conns|
    ensures r < |conns| ==> Matches(conns[r], k)
    ensures forall j | i <= j < r :: !Matches(conns[j], k)
    decreases |conns| - i
  {
    if i == |conns| || Matches(conns[i], k) then i else FindConn(conns, k, i + 1)
  }

  /** The allocation loop of `found_listen` and `uip_connect`: `best` is the
      TIME_WAIT slot preferred so far. */
  function FindSlot(conns: seq<Conn>, i: nat, best: Option<nat>): (r: Option<nat>)
    requires i <= |conns| && (best.Some? ==> best.value < |conns|)
    ensures r.Some? ==> r.value < |conns|
    decreases |conns| - i
  {
    if i == |conns| then best
    else if conns[i].state == CLOSED then Some(i)
    else if conns[i].state == TIME_WAIT && (best.None? || conns[i].timer > conns[best.value].timer)
    then FindSlot(conns, i + 1, Some(i))
    else FindSlot(conns, i + 1, best)
  }

  /** found_listen: fill in the slot for a SYN. Without an MSS option the slot
      keeps the sizes of its previous use. */
  function Accept(c: Conn, seg: Segment, iss: u32): Conn
    requires InputOk(seg)
  {
    WithMss(Conn(seg.srcIp, seg.dstPort, seg.srcPort, Add32(seg.seqno, 1), iss, 1, c.mss, c.initialmss,
                 0, 4, RTO, SYN_RCVD, RTO, 0), seg)
  }

  /** uip_process up to the application call: the slot is |conns| when no
      connection is involved. */
  datatype Half = Half(stack: Stack, slot: nat, next: Next)

  function ResetNext(s: Stack, seg: Segment): Half {
    Half(s, |s.conns|, match ResetFor(seg, s.host) case None => Drop case Some(t) => Transmit(t))
  }

  function InputHalf(s: Stack, seg: Segment): Half
    requires InputOk(seg)
  {
    var i := FindConn(s.conns, KeyFor(seg), 0);
    if i < |s.conns| then
      var (c, next) := Receive(s.conns[i], seg, s.host);
      Half(s.(conns := s.conns[i := c], slen := if next.Call? && next.goto == AppSend then 0 else s.slen), i, next)
    else if seg.ctl != SYN || seg.dstPort !in s.listening then ResetNext(s, seg)
    else match FindSlot(s.conns, 0, None)
      case None => Half(s, |s.conns|, Drop)
      case Some(j) =>
        var c := Accept(s.conns[j], seg, s.iss);
        Half(s.(conns := s.conns[j := c]), j, Transmit(FromConn(c, s.host, SYN_ACK, MSS_OPTION, [])))
  }

  function TimerHalf(s: Stack, i: nat): Half
    requires i < |s.conns|
  {
    var (c, next) := Tick(s.conns[i], s.host);
    Half(s.(conns := s.conns[i := c], iss := Add32(s.iss, 1), slen := 0), i, next)
  }

  function PollHalf(s: Stack, i: nat): Half
    requires i < |s.conns|
  {
    var (c, next) := Poll(s.conns[i]);
    Half(s.(conns := s.conns[i := c]), i, next)
  }

  /** What the application is told. */
  datatype AppCall = AppCall(key: Key, flags: Flags, data: seq<u8>)

  datatype Effect = Effect(stack: Stack, out: Option<Segment>, call: Option<AppCall>, taken: seq<u8>)

  /** The second half: run the connection to the end of uip_process. */
  function Complete(h: Half, seg: Segment, r: Reply): Effect
    requires h.slot < |h.stack.conns| ==> SizesOk(h.stack.conns[h.slot])
    requires ReplyOk(r)
  {
    if h.slot < |h.stack.conns| then
      var c := h.stack.conns[h.slot];
      var d := Finish(c, h.stack.host, h.next, h.stack.slen, seg, r);
      Effect(h.stack.(conns := h.stack.conns[h.slot := d.conn], slen := d.slen), d.out,
             if h.next.Call? then Some(AppCall(KeyOf(c), h.next.flags, h.next.data)) else None, d.taken)
    else Effect(h.stack, if h.next.Transmit? then Some(h.next.seg) else None, None, [])
  }

  // --- Active open -----------------------------------------------------------

  /** `++lastport`, wrapping from 32000 to 4096. */
  function NextPort(p: u16): u16 {
    if p + 1 >= 32000 then 4096 else p + 1
  }

  predicate PortUsed(conns: seq<Conn>, p: u16) {
    exists i | 0 <= i < |conns| :: conns[i].state != CLOSED && conns[i].lport == Htons(p)
  }

  /** The `goto again` search, `n` being the number of retries left. */
  function FindPort(conns: seq<Conn>, last: u16, n: nat): u16
    decreases n
  {
    var p := NextPort(last);
    if !PortUsed(conns, p) || n == 0 then p else FindPort(conns, p, n - 1)
  }

  function Opened(c: Conn, lport: u16, ip: u32, rport: u16, iss: u32): Conn {
    Conn(ip, lport, rport, c.rcvNxt, iss, 1, MSS, MSS, 0, 16, RTO, SYN_SENT, 1, 0)
  }

  function Connect(s: Stack, ip: u32, rport: u16): Stack {
    var p := FindPort(s.conns, s.lastport, |s.conns|);
    match FindSlot(s.conns, 0, None)
    case None => s.(lastport := p)
    case Some(j) => s.(lastport := p, conns := s.conns[j := Opened(s.conns[j], Htons(p), ip, rport, s.iss)])
  }

  /** uip_listen: the first free entry of the port list. */
  function Listen(ports: seq<u16>, port: u16): seq<u16> {
    if ports == [] then []
    else if ports[0] == 0 then [port] + ports[1..]
    else [ports[0]] + Listen(ports[1..], port)
  }

  // --- Events ----------------------------------------------------------------

  datatype Event =
    | Input(seg: Segment, r: Reply)
    | Timer(slot: nat, r: Reply)
    | PollConn(slot: nat, r: Reply)
    | Open(ip: u32, rport: u16)
    | ListenOn(port: u16)

  const NOSEG := Segment(0, 0, 0, 0, 0, 0, ACK, 0, [], [])

  predicate EventOk(s: Stack, e: Event) {
    match e
    case Input(seg, r) => InputOk(seg) && |r.buf| == APPDATA
    case Timer(i, r) => i < |s.conns| && |r.buf| == APPDATA
    case PollConn(i, r) => i < |s.conns| && |r.buf| == APPDATA
    case _ => true
  }

  function HalfOf(s: Stack, e: Event): Half
    requires EventOk(s, e) && (e.Input? || e.Timer? || e.PollConn?)
  {
    match e
    case Input(seg, _) => InputHalf(s, seg)
    case Timer(i, _) => TimerHalf(s, i)
    case PollConn(i, _) => PollHalf(s, i)
  }

  function Step(s: Stack, e: Event): Effect
    requires StackOk(s) && EventOk(s, e)
  {
    match e
    case Open(ip, rport) => Effect(Connect(s, ip, rport), None, None, [])
    case ListenOn(port) => Effect(s.(listening := Listen(s.listening, port)), None, None, [])
    case Input(seg, r) => HalfSizes(s, e); Complete(InputHalf(s, seg), seg, r)
    case Timer(i, r) => HalfSizes(s, e); Complete(TimerHalf(s, i), NOSEG, r)
    case PollConn(i, r) => HalfSizes(s, e); Complete(PollHalf(s, i), NOSEG, r)
  }

  // --- Invariant of the table ------------------------------------------------

  ghost predicate Unique(conns: seq<Conn>) {
    forall i, j | 0 <= i < j < |conns| && conns[i].state != CLOSED && conns[j].state != CLOSED ::
      KeyOf(conns[i]) != KeyOf(conns[j])
  }

  ghost predicate StackOk(s: Stack) {
    && |s.conns| == CONNS
    && 1024 <= s.lastport < 32000
    && (forall i | 0 <= i < |s.conns| :: ConnOk(s.conns[i]))
    && Unique(s.conns)
  }

  lemma HalfSizes(s: Stack, e: Event)
    requires StackOk(s) && EventOk(s, e) && (e.Input? || e.Timer? || e.PollConn?)
    ensures var h := HalfOf(s, e); |h.stack.conns| == |s.conns| && (h.slot < |s.conns| ==> SizesOk(h.stack.conns[h.slot]))
  {
    match e
    case Input(seg, r) =>
      var i := FindConn(s.conns, KeyFor(seg), 0);
      if i < |s.conns| {
        ReceiveKeeps(s.conns[i], seg, s.host, s.slen, r);
      }
    case Timer(i, r) => TickKeeps(s.conns[i], s.host, s.slen, NOSEG, r);
    case PollConn(i, r) => PollKeeps(s.conns[i], s.host, s.slen, NOSEG, r);
  }
}
