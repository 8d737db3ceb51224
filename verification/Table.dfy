/** The connection table over whole runs: its invariant, the slot allocator,
    the local-port search, and the table read as a finite map. */
module Table {
  import opened Words
  import opened Tcp
  import opened TcpInvariant
  import opened Stack

  // --- Slot allocation -------------------------------------------------------

  predicate Reusable(c: Conn) { c.state == CLOSED || c.state == TIME_WAIT }

  /** What the allocator promises: the first CLOSED slot if there is one, else
      the TIME_WAIT slot that has waited longest, else nothing. */
  ghost predicate Chosen(conns: seq<Conn>, r: Option<nat>) {
    match r
    case None => forall i | 0 <= i < |conns| :: !Reusable(conns[i])
    case Some(j) =>
      && j < |conns|
      && if conns[j].state == CLOSED then forall i | 0 <= i < j :: conns[i].state != CLOSED
         else conns[j].state == TIME_WAIT
              && forall i | 0 <= i < |conns| :: conns[i].state != CLOSED
                   && (conns[i].state == TIME_WAIT ==> conns[i].timer <= conns[j].timer)
  }

  lemma {:induction false} FindSlotFrom(conns: seq<Conn>, i: nat, best: Option<nat>)
    requires i <= |conns|
    requires best.Some? ==> best.value < |conns|
    requires forall j | 0 <= j < i :: conns[j].state != CLOSED
    requires best.None? ==> forall j | 0 <= j < i :: conns[j].state != TIME_WAIT
    requires best.Some? ==> conns[best.value].state == TIME_WAIT
    requires best.Some? ==>
               forall j | 0 <= j < i :: conns[j].state == TIME_WAIT ==> conns[j].timer <= conns[best.value].timer
    ensures Chosen(conns, FindSlot(conns, i, best))
    decreases |conns| - i
  {
    if i == |conns| {
    } else if conns[i].state == CLOSED {
    } else if conns[i].state == TIME_WAIT && (best.None? || conns[i].timer > conns[best.value].timer) {
      FindSlotFrom(conns, i + 1, Some(i));
    } else {
      FindSlotFrom(conns, i + 1, best);
    }
  }

  /** A live connection is never taken. */
  lemma AllocatorChoice(conns: seq<Conn>)
    ensures Chosen(conns, FindSlot(conns, 0, None))
  {
    FindSlotFrom(conns, 0, None);
  }

  // --- Local-port search -----------------------------------------------------

  /** The port after `k` increments. */
  function PortAfter(last: u16, k: nat): u16 {
    if k == 0 then last else NextPort(PortAfter(last, k - 1))
  }

  /** The increments walk up, then jump once to 4096. */
  lemma {:induction false} PortAfterIs(last: u16, k: nat)
    requires 1024 <= last < 32000 && k <= CONNS + 1
    ensures PortAfter(last, k) == if last + k < 32000 then last + k else last + k - 32000 + 4096
  {
    if k > 0 {
      PortAfterIs(last, k - 1);
    }
  }

  function PortsAfter(last: u16, k: nat): set<u16> {
    if k == 0 then {} else PortsAfter(last, k - 1) + {Htons(PortAfter(last, k))}
  }

  lemma {:induction false} InPortsAfter(last: u16, k: nat, p: u16)
    requires p in PortsAfter(last, k)
    ensures exists m: nat :: 1 <= m <= k && p == Htons(PortAfter(last, m))
  {
    if p == Htons(PortAfter(last, k)) {
      assert 1 <= k <= k;
    } else {
      InPortsAfter(last, k - 1, p);
    }
  }

  lemma {:induction false} PortsAfterDistinct(last: u16, k: nat)
    requires 1024 <= last < 32000 && k <= CONNS + 1
    ensures |PortsAfter(last, k)| == k
  {
    if k > 0 {
      PortsAfterDistinct(last, k - 1);
      var p := Htons(PortAfter(last, k));
      if p in PortsAfter(last, k - 1) {
        InPortsAfter(last, k - 1, p);
        var m: nat :| 1 <= m <= k - 1 && p == Htons(PortAfter(last, m));
        HtonsInvolution(PortAfter(last, m));
        HtonsInvolution(PortAfter(last, k));
        PortAfterIs(last, m);
        PortAfterIs(last, k);
        assert false;
      }
    }
  }

  function LocalPorts(conns: seq<Conn>): (ps: set<u16>)
    ensures |ps| <= |conns|
  {
    if conns == [] then {} else LocalPorts(conns[1..]) + {conns[0].lport}
  }

  lemma {:induction false} LocalPortIn(conns: seq<Conn>, i: nat)
    requires i < |conns|
    ensures conns[i].lport in LocalPorts(conns)
  {
    if i > 0 {
      LocalPortIn(conns[1..], i - 1);
    }
  }

  lemma SubsetSize<T>(a: set<T>, b: set<T>)
    requires a <= b
    ensures |a| <= |b|
  {
    assert b == a + (b - a);
  }

  lemma UsedPortsAreLocal(conns: seq<Conn>, last: u16, k: nat)
    requires forall m | 1 <= m <= k :: PortUsed(conns, PortAfter(last, m))
    ensures PortsAfter(last, k) <= LocalPorts(conns)
  {
    forall p | p in PortsAfter(last, k) ensures p in LocalPorts(conns) {
      InPortsAfter(last, k, p);
      var m: nat :| 1 <= m <= k && p == Htons(PortAfter(last, m));
      assert PortUsed(conns, PortAfter(last, m));
      var i :| 0 <= i < |conns| && conns[i].state != CLOSED && conns[i].lport == Htons(PortAfter(last, m));
      LocalPortIn(conns, i);
    }
  }

  /** Pigeonhole: the table cannot use one port more than it has slots. */
  lemma SomePortFree(conns: seq<Conn>, last: u16)
    requires |conns| == CONNS && 1024 <= last < 32000
    ensures exists m :: 1 <= m <= CONNS + 1 && !PortUsed(conns, PortAfter(last, m))
  {
    if forall m | 1 <= m <= CONNS + 1 :: PortUsed(conns, PortAfter(last, m)) {
      UsedPortsAreLocal(conns, last, CONNS + 1);
      PortsAfterDistinct(last, CONNS + 1);
      SubsetSize(PortsAfter(last, CONNS + 1), LocalPorts(conns));
      assert false;
    }
  }

  lemma {:induction false} FindPortSteps(conns: seq<Conn>, last: u16, k: nat, n: nat) returns (m: nat)
    requires forall j | 1 <= j <= k :: PortUsed(conns, PortAfter(last, j))
    ensures k + 1 <= m <= k + 1 + n && FindPort(conns, PortAfter(last, k), n) == PortAfter(last, m)
    ensures m < k + 1 + n ==> !PortUsed(conns, PortAfter(last, m))
    ensures forall j | 1 <= j < m :: PortUsed(conns, PortAfter(last, j))
    decreases n
  {
    var p := PortAfter(last, k + 1);
    assert p == NextPort(PortAfter(last, k));
    if !PortUsed(conns, p) || n == 0 {
      m := k + 1;
    } else {
      m := FindPortSteps(conns, last, k + 1, n - 1);
    }
  }

  /** `uip_connect` tries at most UIP_CONNS + 1 ports and ends with the first
      one in its order that no live connection uses. */
  lemma PortSearch(conns: seq<Conn>, last: u16) returns (tries: nat)
    requires |conns| == CONNS && 1024 <= last < 32000
    ensures 1 <= tries <= CONNS + 1
    ensures var p := FindPort(conns, last, CONNS);
            && 1024 <= p < 32000 && p == PortAfter(last, tries)
            && !PortUsed(conns, p)
    ensures forall j | 1 <= j < tries :: PortUsed(conns, PortAfter(last, j))
  {
    tries := FindPortSteps(conns, last, 0, CONNS);
    SomePortFree(conns, last);
    PortAfterIs(last, tries);
  }

  // --- Every event keeps the table -------------------------------------------

  lemma ReceiveKeepsKey(c: Conn, seg: Segment, host: u32)
    requires InputOk(seg)
    ensures KeyOf(Receive(c, seg, host).0) == KeyOf(c)
  {
  }

  lemma FinishKeepsKey(c: Conn, host: u32, next: Next, slen: u16, seg: Segment, r: Reply)
    requires ReplyOk(r) && SizesOk(c)
    ensures KeyOf(Finish(c, host, next, slen, seg, r).conn) == KeyOf(c)
  {
  }

  /** Replacing a slot keeps uniqueness when the new key clashes with no other
      live slot. */
  lemma ReplaceKeepsUnique(conns: seq<Conn>, i: nat, c: Conn)
    requires Unique(conns) && i < |conns|
    requires c.state != CLOSED ==> forall j | 0 <= j < |conns| && j != i :: !Matches(conns[j], KeyOf(c))
    ensures Unique(conns[i := c])
  {
  }

  /** A live slot's key is its own. */
  lemma OwnKey(conns: seq<Conn>, i: nat)
    requires Unique(conns) && i < |conns| && conns[i].state != CLOSED
    ensures forall j | 0 <= j < |conns| && j != i :: !Matches(conns[j], KeyOf(conns[i]))
  {
  }

  /** An event on slot `i` leaves a conforming connection with the same key. */
  lemma SlotKeeps(s: Stack, e: Event, i: nat)
    requires StackOk(s) && EventOk(s, e) && i < |s.conns|
    requires match e
             case Input(seg, _) => i == FindConn(s.conns, KeyFor(seg), 0)
             case Timer(j, _) => i == j
             case PollConn(j, _) => i == j
             case _ => false
    ensures var c := Step(s, e).stack.conns[i];
            && Step(s, e).stack.conns == s.conns[i := c]
            && ConnOk(c) && KeyOf(c) == KeyOf(s.conns[i])
            && (s.conns[i].state == CLOSED ==> c.state == CLOSED)
  {
    HalfSizes(s, e);
    var h := HalfOf(s, e);
    match e
    case Input(seg, r) =>
      ReceiveKeeps(s.conns[i], seg, s.host, h.stack.slen, r);
      ReceiveKeepsKey(s.conns[i], seg, s.host);
      FinishKeepsKey(h.stack.conns[i], s.host, h.next, h.stack.slen, seg, r);
    case Timer(_, r) =>
      TickKeeps(s.conns[i], s.host, h.stack.slen, NOSEG, r);
      FinishKeepsKey(h.stack.conns[i], s.host, h.next, h.stack.slen, NOSEG, r);
    case PollConn(_, r) =>
      PollKeeps(s.conns[i], s.host, h.stack.slen, NOSEG, r);
      FinishKeepsKey(h.stack.conns[i], s.host, h.next, h.stack.slen, NOSEG, r);
  }

  /** A SYN is accepted into a reusable slot under a key nobody else has. */
  lemma AcceptKeeps(s: Stack, e: Event)
    requires StackOk(s) && EventOk(s, e) && e.Input? && FindConn(s.conns, KeyFor(e.seg), 0) == |s.conns|
    ensures StackOk(Step(s, e).stack)
  {
    AllocatorChoice(s.conns);
    var j := FindSlot(s.conns, 0, None);
    if e.seg.ctl == SYN && e.seg.dstPort in s.listening && j.Some? {
      var c := Accept(s.conns[j.value], e.seg, s.iss);
      MssOptionKeeps(c, e.seg);
      ReplaceKeepsUnique(s.conns, j.value, c);
    }
  }

  lemma ConnectKeeps(s: Stack, ip: u32, rport: u16)
    requires StackOk(s)
    ensures StackOk(Connect(s, ip, rport))
  {
    var _ := PortSearch(s.conns, s.lastport);
    var p := FindPort(s.conns, s.lastport, CONNS);
    var j := FindSlot(s.conns, 0, None);
    if j.Some? {
      ReplaceKeepsUnique(s.conns, j.value, Opened(s.conns[j.value], Htons(p), ip, rport, s.iss));
    }
  }

  lemma StepKeeps(s: Stack, e: Event)
    requires StackOk(s) && EventOk(s, e)
    ensures StackOk(Step(s, e).stack)
  {
    match e
    case Open(ip, rport) => ConnectKeeps(s, ip, rport);
    case ListenOn(_) =>
    case Input(seg, _) =>
      var i := FindConn(s.conns, KeyFor(seg), 0);
      if i < |s.conns| {
        ReplaceAt(s, e, i);
      } else {
        AcceptKeeps(s, e);
      }
    case Timer(i, _) => ReplaceAt(s, e, i);
    case PollConn(i, _) => ReplaceAt(s, e, i);
  }

  lemma ReplaceAt(s: Stack, e: Event, i: nat)
    requires StackOk(s) && EventOk(s, e) && i < |s.conns|
    requires match e
             case Input(seg, _) => i == FindConn(s.conns, KeyFor(seg), 0)
             case Timer(j, _) => i == j
             case PollConn(j, _) => i == j
             case _ => false
    ensures StackOk(Step(s, e).stack)
  {
    SlotKeeps(s, e, i);
    var c := Step(s, e).stack.conns[i];
    if c.state != CLOSED {
      OwnKey(s.conns, i);
    }
    ReplaceKeepsUnique(s.conns, i, c);
  }

  // --- Runs ------------------------------------------------------------------

  /** The state after uip_init with zeroed memory. */
  function Initial(host: u32): (s: Stack)
    ensures StackOk(s)
  {
    Stack(seq(CONNS, _ => Conn(0, 0, 0, 0, 0, 0, 0, 0, 0, 0, 0, CLOSED, 0, 0)),
          seq(LISTENPORTS, _ => 0), 0, 1024, 0, host)
  }

  ghost predicate RunOk(s: Stack, es: seq<Event>)
    requires StackOk(s)
    decreases |es|
  {
    es == [] || (EventOk(s, es[0]) && (StepKeeps(s, es[0]); RunOk(Step(s, es[0]).stack, es[1..])))
  }

  ghost function After(s: Stack, es: seq<Event>): Stack
    requires StackOk(s) && RunOk(s, es)
    decreases |es|
  {
    if es == [] then s else (StepKeeps(s, es[0]); After(Step(s, es[0]).stack, es[1..]))
  }

  /** Over every run: unique keys, outstanding data matched to the state, and
      sizes within the packet buffer. */
  lemma {:induction false} RunKeeps(s: Stack, es: seq<Event>)
    requires StackOk(s) && RunOk(s, es)
    ensures StackOk(After(s, es))
    decreases |es|
  {
    if es != [] {
      StepKeeps(s, es[0]);
      RunKeeps(Step(s, es[0]).stack, es[1..]);
    }
  }
}
