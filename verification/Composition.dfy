/** Two stacks joined by a network that loses, duplicates and reorders: until
    the first FIN or RST, what the sender counts as acknowledged, what the
    receiver delivered and what was submitted are prefixes of one stream, in
    that order, in both directions at once. */
module Composition {
  import opened Words
  import opened Tcp
  import opened TcpInvariant
  import opened Stack
  import opened Table
  import opened Endpoint
  import opened Prefix
  import opened Sender

  /** A host and the account of one of its connections: its initial sequence
      number, the bytes submitted on it and the bytes delivered from it. */
  datatype Host = Host(stack: Stack, isn: u32, sub: seq<u8>, del: seq<u8>)

  /** `ab` and `ba` are the segments ever sent; any of them may arrive at any
      time, any number of times, or never. */
  datatype System = System(a: Host, b: Host, ab: set<Segment>, ba: set<Segment>)

  /** The connection between port `pa` of A and port `pb` of B. */
  datatype Pair = Pair(pa: u16, pb: u16, hostA: u32, hostB: u32) {
    function KeyA(): Key { Key(pa, pb, hostB) }
    function KeyB(): Key { Key(pb, pa, hostA) }
  }

  function HostAfter(h: Host, e: Event, k: Key): Host
    requires StackOk(h.stack) && EventOk(h.stack, e)
  {
    var x := Step(h.stack, e);
    var l := At(x, k);
    Host(x.stack, if Lookup(h.stack, k).None? && l.conn.Some? then h.stack.iss else h.isn,
         h.sub + l.taken, LogAfter(h.del, l.call))
  }

  function Emitted(h: Host, e: Event, k: Key): set<Segment>
    requires StackOk(h.stack) && EventOk(h.stack, e)
  {
    var out := At(Step(h.stack, e), k).out;
    if out.Some? then {out.value} else {}
  }

  /** Events of a host: segments on this connection come from the network and the
      application repeats bytes in flight. Either host may open the connection, or
      both, and all other traffic is arbitrary. */
  ghost predicate CanStep(h: Host, e: Event, k: Key, net: set<Segment>)
    requires StackOk(h.stack)
  {
    && EventOk(h.stack, e)
    && (e.Input? && KeyFor(e.seg) == k ==> e.seg in net)
    && (Concerns(h.stack, e, k) && Lookup(h.stack, k).Some? && Lookup(h.stack, k).value.state == ESTABLISHED
        ==> Honest(InFlight(Lookup(h.stack, k).value, e), e.r, h.sub))
  }

  datatype Move = AtA(e: Event) | AtB(e: Event)

  ghost predicate MoveOk(s: System, m: Move, c: Pair)
    requires StackOk(s.a.stack) && StackOk(s.b.stack)
  {
    match m
    case AtA(e) => CanStep(s.a, e, c.KeyA(), s.ba)
    case AtB(e) => CanStep(s.b, e, c.KeyB(), s.ab)
  }

  function SystemAfter(s: System, m: Move, c: Pair): System
    requires StackOk(s.a.stack) && StackOk(s.b.stack)
    requires MoveOk(s, m, c)
  {
    match m
    case AtA(e) => s.(a := HostAfter(s.a, e, c.KeyA()), ab := s.ab + Emitted(s.a, e, c.KeyA()))
    case AtB(e) => s.(b := HostAfter(s.b, e, c.KeyB()), ba := s.ba + Emitted(s.b, e, c.KeyB()))
  }

  /** No FIN or RST has been sent, and the streams fit the sequence space. */
  ghost predicate Running(s: System) {
    && (forall seg | seg in s.ab || seg in s.ba :: !Ends(seg))
    && |s.a.sub| < 0x1_0000_0000 && |s.b.sub| < 0x1_0000_0000
  }

  // --- The invariant, seen from one side -------------------------------------

  predicate Established(o: Option<Conn>) { o.Some? && o.value.state == ESTABLISHED }

  /** The active side goes through SYN_SENT, the passive one through SYN_RCVD. */
  predicate Role(o: Option<Conn>, active: bool) {
    o.Some? ==> o.value.state == ESTABLISHED || o.value.state == if active then SYN_SENT else SYN_RCVD
  }

  ghost predicate SegmentOk(seg: Segment, o: Option<Conn>, h: Host, peerIsn: u32, active: bool) {
    && FromPeer(seg, h.isn, h.sub) && o.Some?
    && if seg.ctl.ack
       then AckWithin(seg, peerIsn, |h.del|) && o.value.state != SYN_SENT && (seg.ctl.syn ==> seg.ctl == SYN_ACK)
       else seg.ctl == SYN && active
  }

  ghost predicate Side(h: Host, o: Option<Conn>, net: set<Segment>, active: bool, peer: Host) {
    && StackOk(h.stack)
    && Role(o, active) && Sending(o, h.isn, h.sub) && Delivering(o, h.del, peer.isn, peer.sub)
    && (!Established(o) ==> h.del == [])
    && (forall seg | seg in net :: SegmentOk(seg, o, h, peer.isn, active))
    && Acked(o, h.sub) <= |peer.del|
  }

  ghost predicate Coupled(oa: Option<Conn>, ob: Option<Conn>) {
    (Established(ob) ==> Established(oa)) && (ob.Some? ==> oa.Some?) && (Established(oa) ==> ob.Some?)
  }

  /** Both sides, when A is the active one or B is. */
  ghost predicate Paired(s: System, c: Pair, aActive: bool) {
    var oa, ob := Lookup(s.a.stack, c.KeyA()), Lookup(s.b.stack, c.KeyB());
    && Side(s.a, oa, s.ab, aActive, s.b) && Side(s.b, ob, s.ba, !aActive, s.a)
    && if aActive then Coupled(oa, ob) else Coupled(ob, oa)
  }

  /** A side of a simultaneous open: it stays in SYN_SENT, and what it sends are
      SYNs and acknowledgements of nothing. */
  ghost predicate CrossedSide(h: Host, o: Option<Conn>, net: set<Segment>) {
    && StackOk(h.stack) && o.Some? && o.value.state == SYN_SENT && h.sub == [] && h.del == []
    && forall seg | seg in net :: seg.data == [] && (seg.ctl == SYN || seg.ctl == ACK)
  }

  ghost predicate Crossed(s: System, c: Pair) {
    CrossedSide(s.a, Lookup(s.a.stack, c.KeyA()), s.ab) && CrossedSide(s.b, Lookup(s.b.stack, c.KeyB()), s.ba)
  }

  ghost predicate SystemOk(s: System, c: Pair) {
    Paired(s, c, true) || Paired(s, c, false) || Crossed(s, c)
  }

  // --- One side moves --------------------------------------------------------

  /** What a move of `h` to `h1` emitting `x.out` achieves. */
  ghost predicate Moved(h: Host, o: Option<Conn>, x: Local, h1: Host, peer: Host) {
    && h1.sub == h.sub + x.taken && h1.del == LogAfter(h.del, x.call)
    && (o.Some? ==> h1.isn == h.isn)
    && Sent(x, h1.isn, h1.sub, |peer.del|)
    && Delivering(x.conn, h1.del, peer.isn, peer.sub)
    && (if o.Some? then Stays(o.value.state, x) else x.call == None)
  }

  /** The event opens the connection from this side. */
  predicate OpensHere(h: Host, e: Event, k: Key)
    requires StackOk(h.stack) && EventOk(h.stack, e)
  {
    e.Open? && Lookup(h.stack, k).None? && At(Step(h.stack, e), k).conn.Some?
  }

  /** Establishment is caused by an acknowledgement from the network. */
  ghost predicate Opens(o: Option<Conn>, e: Event, x: Local, net: set<Segment>) {
    !Established(o) && Established(x.conn) ==> e.Input? && e.seg in net && e.seg.ctl.ack
  }

  lemma QuietMoved(h: Host, o: Option<Conn>, x: Local, peer: Host)
    requires Quiet(o, x) && Sending(o, h.isn, h.sub) && Delivering(o, h.del, peer.isn, peer.sub)
    requires Acked(o, h.sub) <= |peer.del|
    ensures Moved(h, o, x, h.(sub := h.sub + x.taken, del := LogAfter(h.del, x.call)), peer)
  {
    assert h.sub + x.taken == h.sub;
  }

  /** Segments from the peer that can reach a connection in this account. */
  lemma NetIncoming(seg: Segment, h: Host, c: Conn, peer: Host, op: Option<Conn>, active: bool)
    requires InputOk(seg) && SegmentOk(seg, op, peer, h.isn, !active) && !Ends(seg)
    requires Sending(op, peer.isn, peer.sub) && Role(Some(c), active)
    requires active && c.state == SYN_SENT ==> !Established(op)
    ensures Incoming(seg, c, h.isn, |peer.del|)
  {
  }

  lemma ConcernedMoved(h: Host, o: Option<Conn>, e: Event, k: Key, peer: Host, op: Option<Conn>, net: set<Segment>, active: bool)
    requires StackOk(h.stack) && CanStep(h, e, k, net) && Concerns(h.stack, e, k)
    requires o == Lookup(h.stack, k) && o.Some?
    requires Side(h, o, {}, active, peer) && Side(peer, op, net, !active, h)
    requires forall seg | seg in net :: !Ends(seg)
    requires active && o.value.state == SYN_SENT ==> !Established(op)
    requires var h1 := HostAfter(h, e, k); |h1.sub| < 0x1_0000_0000 && |peer.sub| < 0x1_0000_0000
    requires !Unclean(At(Step(h.stack, e), k))
    ensures Moved(h, o, At(Step(h.stack, e), k), HostAfter(h, e, k), peer)
    ensures Opens(o, e, At(Step(h.stack, e), k), net)
  {
    Project(h.stack, e, k);
    LookupOk(h.stack, k);
    var c := o.value;
    var host := h.stack.host;
    match e
    case Input(seg, r) =>
      NetIncoming(seg, h, c, peer, op, active);
      BecomesEstablished(c, seg, host, r);
      ReceiveSends(c, e, host, h.isn, h.sub, |peer.del|);
      ReceiveDelivers(c, seg, host, r, h.del, peer.isn, peer.sub);
    case Timer(_, r) =>
      TickKeepsState(c, host, r);
      TickSends(c, host, r, h.isn, h.sub, |peer.del|);
      TimerDelivers(c, host, r, h.del, peer.isn, peer.sub);
    case PollConn(_, r) =>
      TickKeepsState(c, host, r);
      PollSends(c, host, r, h.isn, h.sub, |peer.del|);
      TimerDelivers(c, host, r, h.del, peer.isn, peer.sub);
  }

  /** A new connection: A opens, or B accepts A's SYN. */
  lemma NewMoved(h: Host, e: Event, k: Key, peer: Host, op: Option<Conn>, net: set<Segment>, active: bool)
    requires StackOk(h.stack) && CanStep(h, e, k, net) && Lookup(h.stack, k) == None && (OpensHere(h, e, k) ==> active)
    requires Side(h, None, {}, active, peer) && Side(peer, op, net, !active, h)
    requires active ==> op == None
    requires !Unclean(At(Step(h.stack, e), k))
    ensures var x := At(Step(h.stack, e), k);
            Moved(h, None, x, HostAfter(h, e, k), peer) && Role(x.conn, active)
            && (x.conn.Some? ==> x.conn.value.state != ESTABLISHED && (active || op.Some?))
  {
    Project(h.stack, e, k);
    var x := At(Step(h.stack, e), k);
    assert h.sub + x.taken == [];
    if Concerns(h.stack, e, k) {
      assert e.seg in net;
      NewConnSends(e.seg, h.stack.host, h.stack.iss, x, peer.isn);
    }
  }

  lemma NewConnSends(seg: Segment, host: u32, iss: u32, x: Local, peerIsn: u32)
    requires InputOk(seg) && NewLocal(seg, host, iss, x) && !Unclean(x)
    requires seg.ctl == SYN ==> seg.seqno == peerIsn
    ensures x.call == None && x.taken == []
    ensures x.conn.Some? ==> x.conn.value.state == SYN_RCVD && x.conn.value.rcvNxt == Add32(peerIsn, 1)
    ensures Sent(x, iss, [], 0) || (x.conn == None && x.out == None)
  {
  }

  lemma SideMoves(h: Host, e: Event, k: Key, out: set<Segment>, peer: Host, op: Option<Conn>, net: set<Segment>, active: bool)
    requires CanSide(h, e, k, out, peer, op, net, active)
    ensures Moved(h, Lookup(h.stack, k), At(Step(h.stack, e), k), HostAfter(h, e, k), peer)
    ensures var x := At(Step(h.stack, e), k);
            && Role(x.conn, active) && Opens(Lookup(h.stack, k), e, x, net)
            && (Lookup(h.stack, k).None? && x.conn.Some? ==> active || op.Some?)
  {
    var o := Lookup(h.stack, k);
    if o.None? {
      NewMoved(h, e, k, peer, op, net, active);
    } else if Concerns(h.stack, e, k) {
      ConcernedMoved(h, o, e, k, peer, op, net, active);
    } else {
      Project(h.stack, e, k);
      QuietMoved(h, o, At(Step(h.stack, e), k), peer);
    }
  }

  ghost predicate CanSide(h: Host, e: Event, k: Key, out: set<Segment>, peer: Host, op: Option<Conn>, net: set<Segment>, active: bool)
  {
    && StackOk(h.stack) && CanStep(h, e, k, net) && (OpensHere(h, e, k) ==> active)
    && Side(h, Lookup(h.stack, k), out, active, peer) && Side(peer, op, net, !active, h)
    && (if active then Coupled(Lookup(h.stack, k), op) else Coupled(op, Lookup(h.stack, k)))
    && (forall seg | seg in net :: !Ends(seg))
    && |HostAfter(h, e, k).sub| < 0x1_0000_0000 && |peer.sub| < 0x1_0000_0000
    && !Unclean(At(Step(h.stack, e), k))
  }

  // --- The invariant is kept -------------------------------------------------

  lemma FromPeerGrows(seg: Segment, isn: u32, sub: seq<u8>, more: seq<u8>)
    requires FromPeer(seg, isn, sub)
    ensures FromPeer(seg, isn, sub + more)
  {
    if seg.data != [] {
      var off := Ahead32(seg.seqno, Add32(isn, 1));
      assert (sub + more)[off..off + |seg.data|] == sub[off..off + |seg.data|];
    }
  }

  /** The delivered bytes only grow. */
  lemma DeliveredGrows(h: Host, o: Option<Conn>, x: Local, h1: Host, peer: Host)
    requires Moved(h, o, x, h1, peer) && (!Established(o) ==> h.del == [])
    ensures |h.del| <= |h1.del| && (!Established(x.conn) ==> h1.del == [])
  {
  }

  /** A new segment satisfies the network invariant. */
  lemma NewSegmentOk(x: Local, h1: Host, peer: Host, active: bool)
    requires Sent(x, h1.isn, h1.sub, |peer.del|) && Delivering(x.conn, h1.del, peer.isn, peer.sub)
    requires x.out.Some? && Role(x.conn, active) && |peer.sub| < 0x1_0000_0000
    ensures SegmentOk(x.out.value, x.conn, h1, peer.isn, active)
  {
    AheadOfNext(peer.isn, 0);
    if Established(x.conn) {
      AheadOfNext(peer.isn, |h1.del|);
    }
  }

  lemma SideKept(h: Host, e: Event, k: Key, out: set<Segment>, peer: Host, op: Option<Conn>, net: set<Segment>, active: bool)
    requires CanSide(h, e, k, out, peer, op, net, active)
    ensures var h1 := HostAfter(h, e, k);
            Side(h1, Lookup(h1.stack, k), out + Emitted(h, e, k), active, peer)
  {
    SideMoves(h, e, k, out, peer, op, net, active);
    StepKeeps(h.stack, e);
    var o, x, h1 := Lookup(h.stack, k), At(Step(h.stack, e), k), HostAfter(h, e, k);
    DeliveredGrows(h, o, x, h1, peer);
    forall seg | seg in out + Emitted(h, e, k) ensures SegmentOk(seg, x.conn, h1, peer.isn, active) {
      if seg in out {
        FromPeerGrows(seg, h.isn, h.sub, x.taken);
      } else {
        NewSegmentOk(x, h1, peer, active);
      }
    }
  }

  lemma PeerKept(h: Host, e: Event, k: Key, out: set<Segment>, peer: Host, op: Option<Conn>, net: set<Segment>, active: bool)
    requires CanSide(h, e, k, out, peer, op, net, active)
    ensures Side(peer, op, net, !active, HostAfter(h, e, k))
  {
    SideMoves(h, e, k, out, peer, op, net, active);
    PeerKeptBy(h, Lookup(h.stack, k), At(Step(h.stack, e), k), HostAfter(h, e, k), peer, op, net, active);
  }

  /** The peer does not notice, until a segment reaches it. */
  lemma PeerKeptBy(h: Host, o: Option<Conn>, x: Local, h1: Host, peer: Host, op: Option<Conn>, net: set<Segment>, active: bool)
    requires Moved(h, o, x, h1, peer) && (!Established(o) ==> h.del == [])
    requires Side(peer, op, net, !active, h) && (o.None? ==> if active then op.None? else !Established(op))
    ensures Side(peer, op, net, !active, h1)
  {
    DeliveredGrows(h, o, x, h1, peer);
    assert peer.del <= h1.sub;
  }

  lemma CoupledKept(h: Host, e: Event, k: Key, out: set<Segment>, peer: Host, op: Option<Conn>, net: set<Segment>, active: bool)
    requires CanSide(h, e, k, out, peer, op, net, active)
    ensures var o1 := Lookup(HostAfter(h, e, k).stack, k);
            if active then Coupled(o1, op) else Coupled(op, o1)
  {
    SideMoves(h, e, k, out, peer, op, net, active);
    if !Established(Lookup(h.stack, k)) && Established(At(Step(h.stack, e), k).conn) {
      assert SegmentOk(e.seg, op, peer, h.isn, !active);
    }
  }

  lemma PairedAtA(s: System, e: Event, c: Pair, aActive: bool)
    requires Paired(s, c, aActive) && MoveOk(s, AtA(e), c) && Running(SystemAfter(s, AtA(e), c))
    requires OpensHere(s.a, e, c.KeyA()) ==> aActive
    ensures Paired(SystemAfter(s, AtA(e), c), c, aActive)
  {
    var ob, s1 := Lookup(s.b.stack, c.KeyB()), SystemAfter(s, AtA(e), c);
    assert forall seg | seg in s.ba :: seg in s1.ba;
    assert forall seg | seg in Emitted(s.a, e, c.KeyA()) :: seg in s1.ab;
    SideKept(s.a, e, c.KeyA(), s.ab, s.b, ob, s.ba, aActive);
    PeerKept(s.a, e, c.KeyA(), s.ab, s.b, ob, s.ba, aActive);
    CoupledKept(s.a, e, c.KeyA(), s.ab, s.b, ob, s.ba, aActive);
  }

  lemma PairedAtB(s: System, e: Event, c: Pair, aActive: bool)
    requires Paired(s, c, aActive) && MoveOk(s, AtB(e), c) && Running(SystemAfter(s, AtB(e), c))
    requires OpensHere(s.b, e, c.KeyB()) ==> !aActive
    ensures Paired(SystemAfter(s, AtB(e), c), c, aActive)
  {
    var oa, s1 := Lookup(s.a.stack, c.KeyA()), SystemAfter(s, AtB(e), c);
    assert forall seg | seg in s.ab :: seg in s1.ab;
    assert forall seg | seg in Emitted(s.b, e, c.KeyB()) :: seg in s1.ba;
    SideKept(s.b, e, c.KeyB(), s.ba, s.a, oa, s.ab, !aActive);
    PeerKept(s.b, e, c.KeyB(), s.ba, s.a, oa, s.ab, !aActive);
    CoupledKept(s.b, e, c.KeyB(), s.ba, s.a, oa, s.ab, !aActive);
  }

  // --- Simultaneous open -----------------------------------------------------

  /** The passive side opens too. Before the other side has done anything the
      roles are free; otherwise both are in SYN_SENT. */
  lemma OpenCrosses(h: Host, e: Event, k: Key, out: set<Segment>, peer: Host, op: Option<Conn>, net: set<Segment>)
    requires StackOk(h.stack) && CanStep(h, e, k, net) && OpensHere(h, e, k)
    requires Side(h, Lookup(h.stack, k), out, false, peer) && Side(peer, op, net, true, h) && Coupled(op, Lookup(h.stack, k))
    ensures out == {} && h.sub == [] && h.del == [] && peer.sub == [] && peer.del == []
    ensures op.None? ==> net == {}
    ensures op.Some? ==>
              && CrossedSide(HostAfter(h, e, k), Lookup(HostAfter(h, e, k).stack, k), out + Emitted(h, e, k))
              && CrossedSide(peer, op, net)
  {
    Project(h.stack, e, k);
    StepKeeps(h.stack, e);
    NoneSent(h, out, peer.isn, false);
    if op.None? {
      NoneSent(peer, net, h.isn, true);
    }
  }

  /** Without a connection nothing was sent on it. */
  lemma NoneSent(h: Host, net: set<Segment>, peerIsn: u32, active: bool)
    requires forall seg | seg in net :: SegmentOk(seg, None, h, peerIsn, active)
    ensures net == {}
  {
  }

  /** One connection of a simultaneous open, short of a reset. */
  lemma CrossedConn(c: Conn, e: Event, host: u32, x: Local)
    requires ConnOk(c) && c.state == SYN_SENT
    requires match e
             case Input(seg, r) => InputOk(seg) && ReplyOk(r) && x == ReceiveLocal(c, seg, host, r)
                                   && seg.data == [] && (seg.ctl == SYN || seg.ctl == ACK)
             case Timer(_, r) => ReplyOk(r) && x == TickLocal(c, host, r)
             case PollConn(_, r) => ReplyOk(r) && x == PollLocal(c, host, r)
             case _ => false
    requires !Unclean(x)
    ensures StillCrossed(x)
  {
  }

  lemma CrossedStays(h: Host, e: Event, k: Key, out: set<Segment>, net: set<Segment>, peer: Host, op: Option<Conn>)
    requires CrossedSide(h, Lookup(h.stack, k), out) && CrossedSide(peer, op, net) && CanStep(h, e, k, net)
    requires !Unclean(At(Step(h.stack, e), k))
    ensures CrossedSide(HostAfter(h, e, k), Lookup(HostAfter(h, e, k).stack, k), out + Emitted(h, e, k))
  {
    StepKeeps(h.stack, e);
    CrossedLocal(h.stack, e, k);
  }

  lemma CrossedLocal(s: Stack, e: Event, k: Key)
    requires StackOk(s) && EventOk(s, e) && Lookup(s, k).Some? && Lookup(s, k).value.state == SYN_SENT
    requires e.Input? && KeyFor(e.seg) == k ==> e.seg.data == [] && (e.seg.ctl == SYN || e.seg.ctl == ACK)
    requires !Unclean(At(Step(s, e), k))
    ensures StillCrossed(At(Step(s, e), k))
  {
    Project(s, e, k);
    LookupOk(s, k);
    if Concerns(s, e, k) {
      CrossedConn(Lookup(s, k).value, e, s.host, At(Step(s, e), k));
    }
  }

  predicate StillCrossed(x: Local) {
    && x.conn.Some? && x.conn.value.state == SYN_SENT && x.call == None && x.taken == []
    && (x.out.Some? ==> x.out.value.data == [] && (x.out.value.ctl == SYN || x.out.value.ctl == ACK))
  }

  lemma CrossedAtA(s: System, e: Event, c: Pair)
    requires Crossed(s, c) && MoveOk(s, AtA(e), c) && Running(SystemAfter(s, AtA(e), c))
    ensures Crossed(SystemAfter(s, AtA(e), c), c)
  {
    var s1 := SystemAfter(s, AtA(e), c);
    assert forall seg | seg in Emitted(s.a, e, c.KeyA()) :: seg in s1.ab;
    CrossedStays(s.a, e, c.KeyA(), s.ab, s.ba, s.b, Lookup(s.b.stack, c.KeyB()));
  }

  lemma CrossedAtB(s: System, e: Event, c: Pair)
    requires Crossed(s, c) && MoveOk(s, AtB(e), c) && Running(SystemAfter(s, AtB(e), c))
    ensures Crossed(SystemAfter(s, AtB(e), c), c)
  {
    var s1 := SystemAfter(s, AtB(e), c);
    assert forall seg | seg in Emitted(s.b, e, c.KeyB()) :: seg in s1.ba;
    CrossedStays(s.b, e, c.KeyB(), s.ba, s.ab, s.a, Lookup(s.a.stack, c.KeyA()));
  }

  lemma FreshEitherWay(s: System, c: Pair)
    requires StackOk(s.a.stack) && StackOk(s.b.stack) && s.ab == {} && s.ba == {}
    requires Lookup(s.a.stack, c.KeyA()) == None && Lookup(s.b.stack, c.KeyB()) == None
    requires s.a.sub == [] && s.a.del == [] && s.b.sub == [] && s.b.del == []
    ensures Paired(s, c, true) && Paired(s, c, false)
  {
  }

  lemma MoveAtAKeeps(s: System, e: Event, c: Pair)
    requires SystemOk(s, c) && MoveOk(s, AtA(e), c) && Running(SystemAfter(s, AtA(e), c))
    ensures SystemOk(SystemAfter(s, AtA(e), c), c)
  {
    if Paired(s, c, true) {
      PairedAtA(s, e, c, true);
    } else if Crossed(s, c) {
      CrossedAtA(s, e, c);
    } else if OpensHere(s.a, e, c.KeyA()) {
      OpenCrosses(s.a, e, c.KeyA(), s.ab, s.b, Lookup(s.b.stack, c.KeyB()), s.ba);
      if Lookup(s.b.stack, c.KeyB()).None? {
        FreshEitherWay(s, c);
      }
    } else {
      PairedAtA(s, e, c, false);
    }
  }

  lemma MoveAtBKeeps(s: System, e: Event, c: Pair)
    requires SystemOk(s, c) && MoveOk(s, AtB(e), c) && Running(SystemAfter(s, AtB(e), c))
    ensures SystemOk(SystemAfter(s, AtB(e), c), c)
  {
    if Paired(s, c, false) {
      PairedAtB(s, e, c, false);
    } else if Crossed(s, c) {
      CrossedAtB(s, e, c);
    } else if OpensHere(s.b, e, c.KeyB()) {
      OpenCrosses(s.b, e, c.KeyB(), s.ba, s.a, Lookup(s.a.stack, c.KeyA()), s.ab);
      if Lookup(s.a.stack, c.KeyA()).None? {
        FreshEitherWay(s, c);
      }
    } else {
      PairedAtB(s, e, c, true);
    }
  }

  lemma MoveKeeps(s: System, m: Move, c: Pair)
    requires SystemOk(s, c) && MoveOk(s, m, c) && Running(SystemAfter(s, m, c))
    ensures SystemOk(SystemAfter(s, m, c), c)
  {
    match m
    case AtA(e) => MoveAtAKeeps(s, e, c);
    case AtB(e) => MoveAtBKeeps(s, e, c);
  }

  // --- Runs ------------------------------------------------------------------

  /** Two hosts without a connection between these ports, and an empty network.
      Everything else about the hosts is arbitrary. */
  ghost predicate Start(s: System, c: Pair) {
    && StackOk(s.a.stack) && StackOk(s.b.stack)
    && Lookup(s.a.stack, c.KeyA()) == None && Lookup(s.b.stack, c.KeyB()) == None
    && s.ab == {} && s.ba == {}
    && s.a.sub == [] && s.a.del == [] && s.b.sub == [] && s.b.del == []
  }

  ghost predicate Moves(s: System, m: Move, s1: System, c: Pair) {
    StackOk(s.a.stack) && StackOk(s.b.stack) && MoveOk(s, m, c) && s1 == SystemAfter(s, m, c)
  }

  ghost predicate MovesAt(states: seq<System>, moves: seq<Move>, c: Pair, i: nat) {
    i < |moves| && i + 1 < |states| && Moves(states[i], moves[i], states[i + 1], c)
  }

  ghost predicate Execution(states: seq<System>, moves: seq<Move>, c: Pair) {
    |states| == |moves| + 1 && forall i: nat | i < |moves| :: MovesAt(states, moves, c, i)
  }

  /** What was sent and submitted stays so. */
  lemma RunningBefore(s: System, m: Move, s1: System, c: Pair)
    requires Moves(s, m, s1, c) && Running(s1)
    ensures Running(s)
  {
    assert s.ab <= s1.ab && s.ba <= s1.ba;
  }

  lemma MovesKeep(s: System, m: Move, s1: System, c: Pair)
    requires Moves(s, m, s1, c) && Running(s1) && SystemOk(s, c)
    ensures SystemOk(s1, c)
  {
    MoveKeeps(s, m, c);
  }

  lemma {:induction false} ExecutionRuns(states: seq<System>, moves: seq<Move>, c: Pair, n: nat, k: nat)
    requires Execution(states, moves, c) && n <= k < |states| && Running(states[k])
    ensures Running(states[n])
    decreases k
  {
    if n < k {
      assert MovesAt(states, moves, c, k - 1);
      RunningBefore(states[k - 1], moves[k - 1], states[k], c);
      ExecutionRuns(states, moves, c, n, k - 1);
    }
  }

  lemma {:induction false} ExecutionKeeps(states: seq<System>, moves: seq<Move>, c: Pair, n: nat)
    requires Execution(states, moves, c) && Start(states[0], c) && n < |states| && Running(states[n])
    ensures SystemOk(states[n], c)
  {
    if n == 0 {
      FreshEitherWay(states[0], c);
    } else {
      ExecutionRuns(states, moves, c, n - 1, n);
      ExecutionKeeps(states, moves, c, n - 1);
      assert MovesAt(states, moves, c, n - 1);
      MovesKeep(states[n - 1], moves[n - 1], states[n], c);
    }
  }

  /** A stream in one direction: acknowledged within delivered within submitted. */
  ghost predicate InOrder(o: Option<Conn>, sub: seq<u8>, del: seq<u8>) {
    0 <= Acked(o, sub) <= |del| && sub[..Acked(o, sub)] <= del <= sub
  }

  /** The end-to-end guarantee, for every execution of the two stacks. */
  lemma EndToEnd(states: seq<System>, moves: seq<Move>, c: Pair, n: nat)
    requires Execution(states, moves, c) && Start(states[0], c) && n < |states| && Running(states[n])
    ensures InOrder(Lookup(states[n].a.stack, c.KeyA()), states[n].a.sub, states[n].b.del)
    ensures InOrder(Lookup(states[n].b.stack, c.KeyB()), states[n].b.sub, states[n].a.del)
  {
    ExecutionKeeps(states, moves, c, n);
    OkInOrder(states[n], c);
  }

  lemma OkInOrder(s: System, c: Pair)
    requires SystemOk(s, c)
    ensures InOrder(Lookup(s.a.stack, c.KeyA()), s.a.sub, s.b.del) && InOrder(Lookup(s.b.stack, c.KeyB()), s.b.sub, s.a.del)
  {
  }
}
