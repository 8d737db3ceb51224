/** The state diagram of the whole table: what any event may do to any slot. */
module Diagram {
  import opened Words
  import opened Tcp
  import opened TcpInvariant
  import opened Stack
  import opened Table

  /** Why a connection may end. */
  predicate Ended(c: Conn, e: Event) {
    match e
    case Input(seg, r) => EndedBySegment(c, seg, r)
    case Timer(_, r) => EndedByTimer(c, r)
    case PollConn(_, r) => r.flags.abort
    case _ => false
  }

  /** The slot takes a new connection: a SYN is accepted, or one is opened. */
  predicate Taken(c1: Conn, e: Event) {
    match e
    case Input(seg, _) => seg.ctl == SYN && c1.state == SYN_RCVD && KeyOf(c1) == KeyFor(seg)
    case Open(ip, rport) => c1.state == SYN_SENT && c1.ripaddr == ip && c1.rport == rport
    case _ => false
  }

  /** A slot stays as it is, moves along Figure 6 in section 3.2 of RFC 793, ends
      for a named reason, or is reused. */
  predicate SlotMove(c: Conn, e: Event, c1: Conn) {
    || c1 == c
    || (c.state != CLOSED && KeyOf(c1) == KeyOf(c) && if c1.state == CLOSED then Ended(c, e) else Path(c.state, c1.state))
    || (Reusable(c) && Taken(c1, e))
  }

  /** An event delivered to a live slot. */
  lemma LiveMove(s: Stack, e: Event, i: nat)
    requires StackOk(s) && EventOk(s, e) && i < |s.conns| && s.conns[i].state != CLOSED
    requires match e
             case Input(seg, _) => i == FindConn(s.conns, KeyFor(seg), 0)
             case Timer(j, _) => i == j
             case PollConn(j, _) => i == j
             case _ => false
    ensures SlotMove(s.conns[i], e, Step(s, e).stack.conns[i])
  {
    SlotKeeps(s, e, i);
    var h := HalfOf(s, e);
    match e
    case Input(seg, r) => ReceiveMoves(s.conns[i], seg, s.host, h.stack.slen, r);
    case Timer(_, r) => TickKeeps(s.conns[i], s.host, h.stack.slen, NOSEG, r);
    case PollConn(_, r) => PollKeeps(s.conns[i], s.host, h.stack.slen, NOSEG, r);
  }

  /** A segment without a connection: nothing happens, or a SYN takes a slot. */
  lemma AcceptMove(s: Stack, e: Event, i: nat)
    requires StackOk(s) && EventOk(s, e) && e.Input? && i < |s.conns| && FindConn(s.conns, KeyFor(e.seg), 0) == |s.conns|
    ensures |Step(s, e).stack.conns| == |s.conns| && SlotMove(s.conns[i], e, Step(s, e).stack.conns[i])
  {
    AllocatorChoice(s.conns);
  }

  lemma OpenMove(s: Stack, e: Event, i: nat)
    requires StackOk(s) && e.Open? && i < |s.conns|
    ensures |Step(s, e).stack.conns| == |s.conns| && SlotMove(s.conns[i], e, Step(s, e).stack.conns[i])
  {
    AllocatorChoice(s.conns);
  }

  /** Timer and poll events leave a closed slot alone. */
  lemma ClosedMove(s: Stack, e: Event)
    requires StackOk(s) && EventOk(s, e) && (e.Timer? || e.PollConn?) && s.conns[e.slot].state == CLOSED
    ensures Step(s, e).stack.conns == s.conns
  {
  }

  /** Every event, every slot. */
  lemma StepMoves(s: Stack, e: Event, i: nat)
    requires StackOk(s) && EventOk(s, e) && i < |s.conns|
    ensures |Step(s, e).stack.conns| == |s.conns| && SlotMove(s.conns[i], e, Step(s, e).stack.conns[i])
  {
    match e
    case Open(_, _) => OpenMove(s, e, i);
    case ListenOn(_) =>
    case Input(seg, _) =>
      var j := FindConn(s.conns, KeyFor(seg), 0);
      if j < |s.conns| {
        SlotKeeps(s, e, j);
        LiveMove(s, e, j);
      } else {
        AcceptMove(s, e, i);
      }
    case Timer(j, _) =>
      SlotKeeps(s, e, j);
      if s.conns[j].state == CLOSED { ClosedMove(s, e); } else { LiveMove(s, e, j); }
    case PollConn(j, _) =>
      SlotKeeps(s, e, j);
      if s.conns[j].state == CLOSED { ClosedMove(s, e); } else { LiveMove(s, e, j); }
  }

  /** In every reachable state of the table. */
  lemma RunMoves(host: u32, es: seq<Event>, e: Event, i: nat)
    requires RunOk(Initial(host), es) && i < CONNS && EventOk(After(Initial(host), es), e)
    ensures StackOk(After(Initial(host), es))
    ensures var s := After(Initial(host), es);
            |Step(s, e).stack.conns| == CONNS && SlotMove(s.conns[i], e, Step(s, e).stack.conns[i])
  {
    RunKeeps(Initial(host), es);
    StepMoves(After(Initial(host), es), e, i);
  }
}
