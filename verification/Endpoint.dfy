/** The table read as a finite map from keys to connections: every event acts on
    the connection of one key exactly as if it were alone. */
module Endpoint {
  import opened Words
  import opened Tcp
  import opened TcpInvariant
  import opened Stack
  import opened Table

  /** The connection registered under a key. */
  function Lookup(s: Stack, k: Key): Option<Conn> {
    var i := FindConn(s.conns, k, 0);
    if i < |s.conns| then Some(s.conns[i]) else None
  }

  /** The key of the connection a segment is sent on. */
  function KeyOfOutput(seg: Segment): Key { Key(seg.srcPort, seg.dstPort, seg.dstIp) }

  /** What an event does at one key. */
  datatype Local = Local(conn: Option<Conn>, out: Option<Segment>, call: Option<AppCall>, taken: seq<u8>)

  function At(x: Effect, k: Key): Local {
    Local(Lookup(x.stack, k),
          if x.out.Some? && KeyOfOutput(x.out.value) == k then x.out else None,
          if x.call.Some? && x.call.value.key == k then x.call else None,
          if x.call.Some? && x.call.value.key == k then x.taken else [])
  }

  function Live(c: Conn): Option<Conn> {
    if c.state == CLOSED then None else Some(c)
  }

  function FinishLocal(c: Conn, next: Next, host: u32, seg: Segment, r: Reply): Local
    requires ReplyOk(r) && SizesOk(c)
  {
    var d := Finish(c, host, next, 0, seg, r);
    Local(Live(d.conn), d.out, if next.Call? then Some(AppCall(KeyOf(c), next.flags, next.data)) else None, d.taken)
  }

  function ReceiveLocal(c: Conn, seg: Segment, host: u32, r: Reply): Local
    requires ConnOk(c) && c.state != CLOSED && InputOk(seg) && ReplyOk(r)
  {
    ReceiveKeeps(c, seg, host, 0, r);
    var (c1, next) := Receive(c, seg, host);
    FinishLocal(c1, next, host, seg, r)
  }

  function TickLocal(c: Conn, host: u32, r: Reply): Local
    requires ConnOk(c) && ReplyOk(r)
  {
    TickKeeps(c, host, 0, NOSEG, r);
    var (c1, next) := Tick(c, host);
    FinishLocal(c1, next, host, NOSEG, r)
  }

  function PollLocal(c: Conn, host: u32, r: Reply): Local
    requires ConnOk(c) && ReplyOk(r)
  {
    PollKeeps(c, host, 0, NOSEG, r);
    var (c1, next) := Poll(c);
    FinishLocal(c1, next, host, NOSEG, r)
  }

  /** Nothing happens at the key, except that a TIME_WAIT slot may be reused. */
  predicate Quiet(o: Option<Conn>, x: Local) {
    && (x.conn == o || (o.Some? && o.value.state == TIME_WAIT && x.conn == None))
    && x.out == None && x.call == None && x.taken == []
  }

  /** The answer to a segment for a key nobody has: dropped or reset, or a new
      connection answered with SYN-ACK. */
  ghost predicate NewLocal(seg: Segment, host: u32, iss: u32, x: Local)
    requires InputOk(seg)
  {
    && x.call == None && x.taken == []
    && ((x.conn == None && (x.out == None || x.out == ResetFor(seg, host)))
        || (seg.ctl == SYN && x.conn.Some? && x.out == Some(FromConn(x.conn.value, host, SYN_ACK, MSS_OPTION, []))
            && exists prev: Conn :: SizesOk(prev) && x.conn.value == Accept(prev, seg, iss)))
  }

  ghost predicate OpenLocal(k: Key, iss: u32, x: Local) {
    exists prev: Conn :: x == Local(Some(Opened(prev, k.lport, k.ip, k.rport, iss)), None, None, [])
  }

  /** Whether an event is delivered to the connection of key `k`. */
  predicate Concerns(s: Stack, e: Event, k: Key) {
    match e
    case Input(seg, _) => KeyFor(seg) == k
    case Timer(i, _) => i < |s.conns| && Matches(s.conns[i], k)
    case PollConn(i, _) => i < |s.conns| && Matches(s.conns[i], k)
    case _ => false
  }

  /** The step of one key; `mine` says whether the event is delivered to it. */
  ghost predicate LocalStep(o: Option<Conn>, e: Event, mine: bool, k: Key, host: u32, iss: u32, x: Local)
    requires o.Some? ==> ConnOk(o.value) && o.value.state != CLOSED
    requires e.Input? ==> InputOk(e.seg)
    requires e.Input? || e.Timer? || e.PollConn? ==> ReplyOk(e.r)
  {
    if mine then match e
      case Input(seg, r) => if o.Some? then x == ReceiveLocal(o.value, seg, host, r) else NewLocal(seg, host, iss, x)
      case Timer(_, r) => o.Some? && x == TickLocal(o.value, host, r)
      case PollConn(_, r) => o.Some? && x == PollLocal(o.value, host, r)
      case _ => false
    else
      || Quiet(o, x)
      || (o.None? && e.Open? && e.ip == k.ip && e.rport == k.rport && OpenLocal(k, iss, x))
  }

  /** In a unique table the first match is the only match. */
  lemma LookupIs(s: Stack, k: Key, i: nat)
    requires Unique(s.conns) && i < |s.conns| && Matches(s.conns[i], k)
    ensures Lookup(s, k) == Some(s.conns[i])
  {
  }

  lemma LookupNone(s: Stack, k: Key)
    requires forall i | 0 <= i < |s.conns| :: !Matches(s.conns[i], k)
    ensures Lookup(s, k) == None
  {
  }

  lemma LookupOk(s: Stack, k: Key)
    requires StackOk(s)
    ensures Lookup(s, k).Some? ==> ConnOk(Lookup(s, k).value) && Matches(Lookup(s, k).value, k)
  {
  }

  /** Replacing slot `i` by a connection with the same key touches that key only. */
  lemma ReplaceLookup(s: Stack, t: Stack, i: nat, c: Conn, k: Key)
    requires Unique(s.conns) && Unique(t.conns) && i < |s.conns| && t.conns == s.conns[i := c]
    requires s.conns[i].state != CLOSED && KeyOf(c) == KeyOf(s.conns[i])
    ensures Lookup(t, k) == if KeyOf(c) == k then Live(c) else Lookup(s, k)
  {
    if KeyOf(c) == k {
      OwnKey(s.conns, i);
      if c.state != CLOSED {
        LookupIs(t, k, i);
      } else {
        LookupNone(t, k);
      }
    } else {
      SameElsewhere(s, t, i, k);
    }
  }

  /** A slot that matches a key neither before nor after does not change its lookup. */
  lemma SameElsewhere(s: Stack, t: Stack, i: nat, k: Key)
    requires Unique(s.conns) && Unique(t.conns) && i < |s.conns| == |t.conns|
    requires t.conns == s.conns[i := t.conns[i]]
    requires !Matches(s.conns[i], k) && !Matches(t.conns[i], k)
    ensures Lookup(t, k) == Lookup(s, k)
  {
    var j := FindConn(s.conns, k, 0);
    if j < |s.conns| {
      assert t.conns[j] == s.conns[j];
      LookupIs(t, k, j);
    } else {
      LookupNone(t, k);
    }
  }

  /** Taking a reusable slot for key `n`. */
  lemma TakeLookup(s: Stack, t: Stack, j: nat, c: Conn, k: Key)
    requires Unique(s.conns) && Unique(t.conns) && j < |s.conns| && t.conns == s.conns[j := c]
    requires Reusable(s.conns[j]) && c.state != CLOSED
    ensures KeyOf(c) == k ==> Lookup(t, k) == Some(c)
    ensures KeyOf(c) == k || Lookup(t, k) == Lookup(s, k)
         || (Lookup(s, k).Some? && Lookup(s, k).value.state == TIME_WAIT && Lookup(t, k) == None)
  {
    if KeyOf(c) == k {
      LookupIs(t, k, j);
    } else if Matches(s.conns[j], k) {
      LookupIs(s, k, j);
      OwnKey(s.conns, j);
      LookupNone(t, k);
    } else {
      SameElsewhere(s, t, j, k);
    }
  }

  // --- Where a connection's segments go --------------------------------------

  lemma ReceiveOutput(c: Conn, seg: Segment, host: u32, slen: u16, r: Reply)
    requires InputOk(seg) && ReplyOk(r) && SizesOk(Receive(c, seg, host).0) && KeyFor(seg) == KeyOf(c)
    ensures var (c1, next) := Receive(c, seg, host);
            var out := Finish(c1, host, next, slen, seg, r).out;
            out.Some? ==> KeyOfOutput(out.value) == KeyOf(c)
  {
    var (c1, next) := Receive(c, seg, host);
    ReceiveKeepsKey(c, seg, host);
    NextOutput(c, seg, host);
    FinishOutput(c1, host, next, slen, seg, r);
  }

  lemma NextOutput(c: Conn, seg: Segment, host: u32)
    requires InputOk(seg) && KeyFor(seg) == KeyOf(c)
    ensures var next := Receive(c, seg, host).1; next.Transmit? ==> KeyOfOutput(next.seg) == KeyOf(c)
  {
  }

  lemma FinishOutput(c: Conn, host: u32, next: Next, slen: u16, seg: Segment, r: Reply)
    requires ReplyOk(r) && SizesOk(c)
    requires next.Transmit? ==> KeyOfOutput(next.seg) == KeyOf(c)
    requires next.Call? && next.goto == ResetAfter ==> KeyFor(seg) == KeyOf(c)
    ensures var out := Finish(c, host, next, slen, seg, r).out;
            out.Some? ==> KeyOfOutput(out.value) == KeyOf(c)
  {
  }

  // --- The projection --------------------------------------------------------

  ghost predicate Projects(s: Stack, e: Event, k: Key)
    requires StackOk(s) && EventOk(s, e)
  {
    LookupOk(s, k);
    LocalStep(Lookup(s, k), e, Concerns(s, e, k), k, s.host, s.iss, At(Step(s, e), k))
  }

  lemma ProjectInput(s: Stack, e: Event, k: Key)
    requires StackOk(s) && EventOk(s, e) && e.Input? && FindConn(s.conns, KeyFor(e.seg), 0) < |s.conns|
    ensures Projects(s, e, k)
  {
    LookupOk(s, k);
    var i := FindConn(s.conns, KeyFor(e.seg), 0);
    SlotKeeps(s, e, i);
    StepKeeps(s, e);
    ReceiveKeeps(s.conns[i], e.seg, s.host, 0, e.r);
    ReceiveKeepsKey(s.conns[i], e.seg, s.host);
    ReplaceLookup(s, Step(s, e).stack, i, Step(s, e).stack.conns[i], k);
    ReceiveOutput(s.conns[i], e.seg, s.host, InputHalf(s, e.seg).stack.slen, e.r);
  }

  lemma ProjectNew(s: Stack, e: Event, k: Key)
    requires StackOk(s) && EventOk(s, e) && e.Input? && FindConn(s.conns, KeyFor(e.seg), 0) == |s.conns|
    ensures Projects(s, e, k)
  {
    LookupOk(s, k);
    StepKeeps(s, e);
    AllocatorChoice(s.conns);
    var j := FindSlot(s.conns, 0, None);
    if e.seg.ctl == SYN && e.seg.dstPort in s.listening && j.Some? {
      var c := Accept(s.conns[j.value], e.seg, s.iss);
      TakeLookup(s, Step(s, e).stack, j.value, c, k);
    }
  }

  lemma ProjectTimer(s: Stack, e: Event, k: Key)
    requires StackOk(s) && EventOk(s, e) && e.Timer?
    ensures Projects(s, e, k)
  {
    LookupOk(s, k);
    var i := e.slot;
    SlotKeeps(s, e, i);
    StepKeeps(s, e);
    TickKeeps(s.conns[i], s.host, 0, NOSEG, e.r);
    if s.conns[i].state == CLOSED {
      SameElsewhere(s, Step(s, e).stack, i, k);
    } else {
      ReplaceLookup(s, Step(s, e).stack, i, Step(s, e).stack.conns[i], k);
      var h := TimerHalf(s, i);
      FinishOutput(h.stack.conns[i], s.host, h.next, h.stack.slen, NOSEG, e.r);
      if KeyOf(s.conns[i]) == k {
        LookupIs(s, k, i);
      }
    }
  }

  lemma ProjectPoll(s: Stack, e: Event, k: Key)
    requires StackOk(s) && EventOk(s, e) && e.PollConn?
    ensures Projects(s, e, k)
  {
    LookupOk(s, k);
    var i := e.slot;
    SlotKeeps(s, e, i);
    StepKeeps(s, e);
    PollKeeps(s.conns[i], s.host, 0, NOSEG, e.r);
    if s.conns[i].state == CLOSED {
      SameElsewhere(s, Step(s, e).stack, i, k);
    } else {
      ReplaceLookup(s, Step(s, e).stack, i, Step(s, e).stack.conns[i], k);
      var h := PollHalf(s, i);
      FinishOutput(h.stack.conns[i], s.host, h.next, h.stack.slen, NOSEG, e.r);
      if KeyOf(s.conns[i]) == k {
        LookupIs(s, k, i);
      }
    }
  }

  lemma ProjectOpen(s: Stack, e: Event, k: Key)
    requires StackOk(s) && EventOk(s, e) && e.Open?
    ensures Projects(s, e, k)
  {
    LookupOk(s, k);
    StepKeeps(s, e);
    AllocatorChoice(s.conns);
    var j := FindSlot(s.conns, 0, None);
    var tries := PortSearch(s.conns, s.lastport);
    var p := FindPort(s.conns, s.lastport, CONNS);
    if j.Some? {
      var c := Opened(s.conns[j.value], Htons(p), e.ip, e.rport, s.iss);
      TakeLookup(s, Step(s, e).stack, j.value, c, k);
      if KeyOf(c) == k {
        LookupNone(s, k);
        assert OpenLocal(k, s.iss, At(Step(s, e), k));
      }
    }
  }

  /** The demultiplexed table is a map of independent connections: every event
      acts at every key as `LocalStep` says. */
  lemma Project(s: Stack, e: Event, k: Key)
    requires StackOk(s) && EventOk(s, e)
    ensures Projects(s, e, k)
  {
    LookupOk(s, k);
    match e
    case Input(seg, _) =>
      if FindConn(s.conns, KeyFor(seg), 0) < |s.conns| {
        ProjectInput(s, e, k);
      } else {
        ProjectNew(s, e, k);
      }
    case Timer(_, _) => ProjectTimer(s, e, k);
    case PollConn(_, _) => ProjectPoll(s, e, k);
    case Open(_, _) => ProjectOpen(s, e, k);
    case ListenOn(_) =>
  }
}
