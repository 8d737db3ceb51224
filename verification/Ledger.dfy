/** Histories of the socket service: what the callback was told and what the callers
    were answered, and the answers a history calls for. */
module Ledger {
  import opened Words
  import opened Tcp
  import opened Stack
  import opened Socket
  import opened Prefix

  // --- Histories -------------------------------------------------------------

  datatype Happening =
    | Called(call: AppCall)       // httpd_appcall, with the flags and bytes it sees
    | Looked                      // sync_socket_state
    | Answer(request: Request, status: Status, length: nat, data: seq<u8>)  // an answer is decided
    | Forgot                      // sock_close drops the connection

  type History = seq<Happening>

  predicate News(e: Happening) { e.Called? && e.call.flags.newdata && e.call.data != [] }

  predicate Opens(e: Happening) { e.Called? && e.call.flags.connected && !Ends(e) }

  predicate Ends(e: Happening) {
    e.Called? && (e.call.flags.close || e.call.flags.abort || e.call.flags.timedout)
  }

  predicate Resets(e: Happening) { e.Answer? && e.request.SockListen? && e.status == OK }

  predicate Received(e: Happening) { e.Answer? && e.request.SockRecv? && e.status == OK }

  predicate Admitted(e: Happening) { e.Answer? && e.request.SockAccept? && e.status == OK }

  predicate Empties(e: Happening) { Received(e) || Resets(e) || e.Forgot? }

  // --- The answers a history calls for ---------------------------------------

  /** One copy of the connection's flags. */
  datatype View = View(open: bool, pending: bool, held: bool)

  const NOTHING := View(false, false, false)

  /** `told` is what the callback has heard, `known` what the handlers saw of it. */
  datatype Desk = Desk(listening: bool, told: View, known: View, unread: seq<u8>)

  function Informed(v: View, e: Happening): View
    requires e.Called?
  {
    var v1 := if Ends(e) then v.(open := false, pending := false)
              else if Opens(e) then v.(open := true, pending := true) else v;
    v1.(held := v1.held && !e.call.flags.ackdata)
  }

  function AfterAnswer(d: Desk, r: Request): Desk {
    match r
    case SockListen(_) => Desk(true, NOTHING, NOTHING, [])
    case SockAccept => d.(told := d.told.(pending := false), known := d.known.(pending := false))
    case SockRecv(_, _) => d.(unread := [])
    case SockSend(_, _) => d.(told := d.told.(held := true), known := d.known.(held := true))
    case _ => d
  }

  function Move(d: Desk, e: Happening): Desk {
    match e
    case Called(a) => d.(told := Informed(d.told, e), unread := if News(e) then a.data else d.unread)
    case Looked => d.(known := d.told)
    case Forgot => d.(known := NOTHING, unread := [])
    case Answer(r, st, _, _) => if st == OK then AfterAnswer(d, r) else d
  }

  function DeskOf(h: History): Desk {
    if h == [] then Desk(false, NOTHING, NOTHING, []) else Move(DeskOf(h[..|h| - 1]), h[|h| - 1])
  }

  function Verdict(d: Desk, r: Request): Status {
    match r
    case SockListen(port) => if port <= 0 then INVALID else OK
    case SockAccept => if d.known.pending then OK else WOULD_BLOCK
    case SockRecv(conn, _) =>
      if !d.listening || conn != 1 then INVALID
      else if d.unread != [] then OK
      else if d.known.open then WOULD_BLOCK else NET_CLOSED
    case SockSend(conn, _) =>
      if !d.listening || !d.known.open || conn != 1 then INVALID else if d.known.held then WOULD_BLOCK else OK
    case SockClose(conn) => if !d.listening || !d.known.open || conn != 1 then INVALID else OK
    case Periodic(_) => OK
  }

  function Min(a: nat, b: nat): nat { if a <= b then a else b }

  predicate Fair(d: Desk, e: Happening) {
    e.Answer? ==>
      && e.status == Verdict(d, e.request)
      && (Received(e) ==> e.length == Min(e.request.length, |d.unread|) && e.data == d.unread[..e.length])
      && (!Received(e) ==> e.data == [] && e.length == if e.request.SockSend? && e.status == OK then |e.request.data| else 0)
  }

  /** Every answer in the history is fair. */
  predicate Consistent(h: History) {
    h == [] || (Consistent(h[..|h| - 1]) && Fair(DeskOf(h[..|h| - 1]), h[|h| - 1]))
  }

  /** The bytes the callback was given on key `k`, on its current connection. */
  function Delivered(h: History, k: Key): seq<u8> {
    if h == [] then []
    else
      var e := h[|h| - 1];
      LogAfter(Delivered(h[..|h| - 1], k), if e.Called? && e.call.key == k then Some(e.call) else None)
  }

  lemma Added(h: History, e: Happening, k: Key)
    ensures DeskOf(h + [e]) == Move(DeskOf(h), e)
    ensures Consistent(h + [e]) == (Consistent(h) && Fair(DeskOf(h), e))
    ensures Delivered(h + [e], k) == LogAfter(Delivered(h, k), if e.Called? && e.call.key == k then Some(e.call) else None)
  {
    assert (h + [e])[..|h|] == h;
  }

  function AnswerOf(q: Request, r: Handled): Happening { Answer(q, r.status, r.length, r.data) }

  // --- In terms of positions in the history ----------------------------------

  /** The report of data at `j` is the last one before `i`, and nothing since has
      taken or dropped it. */
  predicate Unread(h: History, j: nat, i: nat)
    requires i <= |h|
  {
    j < i && News(h[j]) && forall x | j < x < i :: !News(h[x]) && !Empties(h[x])
  }

  /** The callback was told of a connection at `j`, and of no end since. */
  predicate OpenSince(h: History, j: nat, i: nat)
    requires i <= |h|
  {
    j < i && Opens(h[j]) && forall x | j < x < i :: !Ends(h[x]) && !Resets(h[x])
  }

  ghost predicate WasOpen(h: History, i: nat)
    requires i <= |h|
  {
    exists j: nat :: OpenSince(h, j, i)
  }

  /** The handlers last looked at `j`. */
  predicate LookedAt(h: History, j: nat, i: nat)
    requires i <= |h|
  {
    j < i && h[j].Looked? && forall x | j < x < i :: !h[x].Looked? && !h[x].Forgot? && !Resets(h[x])
  }

  /** When the handlers last looked, the connection was open. */
  ghost predicate SeenOpen(h: History, i: nat)
    requires i <= |h|
  {
    exists j: nat :: LookedAt(h, j, i) && WasOpen(h, j)
  }

  lemma {:induction false} UnreadIs(h: History, i: nat)
    requires i <= |h|
    ensures var u := DeskOf(h[..i]).unread;
            && (u == [] ==> forall j: nat :: !Unread(h, j, i))
            && (u != [] ==> exists j: nat :: Unread(h, j, i) && u == h[j].call.data)
  {
    if i > 0 {
      UnreadIs(h, i - 1);
      DeskAt(h, i);
      if News(h[i - 1]) {
        assert Unread(h, i - 1, i);
      } else if !Empties(h[i - 1]) {
        assert forall j: nat | j < i - 1 :: Unread(h, j, i) == Unread(h, j, i - 1);
      }
    }
  }

  lemma OpenStep(h: History, i: nat)
    requires 0 < i <= |h|
    ensures WasOpen(h, i) <==> Opens(h[i - 1]) || (!Ends(h[i - 1]) && !Resets(h[i - 1]) && WasOpen(h, i - 1))
  {
    if WasOpen(h, i) {
      var j: nat :| OpenSince(h, j, i);
      assert j < i - 1 ==> OpenSince(h, j, i - 1);
    }
    if Opens(h[i - 1]) {
      assert OpenSince(h, i - 1, i);
    } else if !Ends(h[i - 1]) && !Resets(h[i - 1]) && WasOpen(h, i - 1) {
      var j: nat :| OpenSince(h, j, i - 1);
      assert OpenSince(h, j, i);
    }
  }

  lemma SeenStep(h: History, i: nat)
    requires 0 < i <= |h|
    ensures SeenOpen(h, i) <==>
            if h[i - 1].Looked? then WasOpen(h, i - 1) else !h[i - 1].Forgot? && !Resets(h[i - 1]) && SeenOpen(h, i - 1)
  {
    if SeenOpen(h, i) {
      var j: nat :| LookedAt(h, j, i) && WasOpen(h, j);
      assert j < i - 1 ==> LookedAt(h, j, i - 1);
    }
    if h[i - 1].Looked? {
      assert LookedAt(h, i - 1, i);
    } else if !h[i - 1].Forgot? && !Resets(h[i - 1]) && SeenOpen(h, i - 1) {
      var j: nat :| LookedAt(h, j, i - 1) && WasOpen(h, j);
      assert LookedAt(h, j, i);
    }
  }

  lemma OpenMoves(d: Desk, e: Happening)
    ensures Move(d, e).told.open == (Opens(e) || (!Ends(e) && !Resets(e) && d.told.open))
    ensures Move(d, e).known.open == if e.Looked? then d.told.open else !e.Forgot? && !Resets(e) && d.known.open
  {
  }

  lemma DeskAt(h: History, i: nat)
    requires 0 < i <= |h|
    ensures DeskOf(h[..i]) == Move(DeskOf(h[..i - 1]), h[i - 1])
  {
    assert h[..i][..i - 1] == h[..i - 1];
  }

  lemma {:induction false} OpenIs(h: History, i: nat)
    requires i <= |h|
    ensures DeskOf(h[..i]).told.open == WasOpen(h, i) && DeskOf(h[..i]).known.open == SeenOpen(h, i)
  {
    if i > 0 {
      OpenIs(h, i - 1);
      OpenStep(h, i);
      SeenStep(h, i);
      DeskAt(h, i);
      OpenMoves(DeskOf(h[..i - 1]), h[i - 1]);
    }
  }

  lemma {:induction false} ListeningIs(h: History, i: nat)
    requires i <= |h|
    ensures DeskOf(h[..i]).listening <==> exists j :: 0 <= j < i && Resets(h[j])
  {
    if i > 0 {
      ListeningIs(h, i - 1);
      DeskAt(h, i);
    }
  }

  lemma {:induction false} FairAt(h: History, i: nat)
    requires Consistent(h) && i < |h|
    ensures Fair(DeskOf(h[..i]), h[i])
    decreases |h|
  {
    if i < |h| - 1 {
      FairAt(h[..|h| - 1], i);
      assert h[..|h| - 1][..i] == h[..i];
    }
  }

  // --- sock_recv -------------------------------------------------------------

  /** What `sock_recv` answers, in terms of the events before it. */
  ghost predicate RecvOk(h: History, i: nat)
    requires i < |h| && h[i].Answer? && h[i].request.SockRecv?
  {
    var a := h[i];
    var valid := a.request.conn == 1 && exists j :: 0 <= j < i && Resets(h[j]);
    && (a.status == INVALID <==> !valid)
    && (a.status == OK <==> valid && exists j: nat :: Unread(h, j, i))
    && (a.status == NET_CLOSED <==> valid && (forall j: nat :: !Unread(h, j, i)) && !SeenOpen(h, i))
    && (a.status == WOULD_BLOCK <==> valid && (forall j: nat :: !Unread(h, j, i)) && SeenOpen(h, i))
    && (a.status == OK ==> exists j: nat :: Unread(h, j, i) && Leading(a, h[j].call.data))
    && (a.status != OK ==> a.data == [] && a.length == 0)
  }

  /** The answer is as many leading bytes of `d` as were asked for and are there. */
  predicate Leading(a: Happening, d: seq<u8>)
    requires a.Answer? && a.request.SockRecv?
  {
    a.length == Min(a.request.length, |d|) && a.data == d[..a.length]
  }

  lemma ConsistentRecv(h: History, i: nat)
    requires Consistent(h) && i < |h| && h[i].Answer? && h[i].request.SockRecv?
    ensures RecvOk(h, i)
  {
    FairAt(h, i);
    UnreadIs(h, i);
    OpenIs(h, i);
    ListeningIs(h, i);
  }

  /** Two answers come from two payloads: the later one was reported after the
      earlier one had been answered. */
  lemma NeverTwice(h: History, i1: nat, j1: nat, i2: nat, j2: nat)
    requires i1 < i2 < |h| && Received(h[i1]) && Received(h[i2]) && Unread(h, j1, i1) && Unread(h, j2, i2)
    ensures j1 < i1 < j2 < i2
  {
    assert Empties(h[i1]);
  }

  /** A connection is handed to `sock_accept` once: between two OK answers another
      one was reported. */
  lemma AcceptsOnce(h: History, i1: nat, i2: nat)
    requires Consistent(h) && i1 < i2 < |h| && Admitted(h[i1]) && Admitted(h[i2])
    ensures exists j :: i1 < j < i2 && Opens(h[j])
  {
    FairAt(h, i2);
    PendingFrom(h, i1, i2);
  }

  lemma {:induction false} PendingFrom(h: History, i: nat, j: nat)
    requires i < j <= |h| && Admitted(h[i])
    ensures DeskOf(h[..j]).told.pending || DeskOf(h[..j]).known.pending ==> exists x :: i < x < j && Opens(h[x])
    decreases j
  {
    DeskAt(h, j);
    if j > i + 1 {
      PendingFrom(h, i, j - 1);
      if Opens(h[j - 1]) {
        assert i < j - 1 < j && Opens(h[j - 1]);
      }
    }
  }

  // --- Pieces of the peer's stream -------------------------------------------

  /** Where the payload reported at `j` starts in the stream of its connection. */
  function Offset(h: History, j: nat): int
    requires j < |h| && News(h[j])
  {
    |Delivered(h[..j + 1], h[j].call.key)| - |h[j].call.data|
  }

  lemma DeliveredAt(h: History, j: nat, k: Key)
    requires j < |h|
    ensures Delivered(h[..j + 1], k) ==
            LogAfter(Delivered(h[..j], k), if h[j].Called? && h[j].call.key == k then Some(h[j].call) else None)
  {
    assert h[..j + 1][..j] == h[..j];
  }

  lemma PieceAt(h: History, j: nat, stream: seq<u8>)
    requires j < |h| && News(h[j]) && Delivered(h[..j + 1], h[j].call.key) <= stream
    ensures 0 <= Offset(h, j) && Offset(h, j) + |h[j].call.data| <= |stream|
    ensures stream[Offset(h, j)..Offset(h, j) + |h[j].call.data|] == h[j].call.data
  {
    var k := h[j].call.key;
    DeliveredAt(h, j, k);
    var log := Delivered(h[..j + 1], k);
    assert log[Offset(h, j)..] == h[j].call.data;
    assert stream[..|log|] == log;
  }

  lemma OneUnread(h: History, i: nat, j: nat)
    requires i < |h| && h[i].Answer? && h[i].request.SockRecv? && RecvOk(h, i) && h[i].status == OK && Unread(h, j, i)
    ensures Leading(h[i], h[j].call.data)
  {
    var k: nat :| Unread(h, k, i) && Leading(h[i], h[k].call.data);
    assert !(j < k) && !(k < j);
  }

  /** Later payloads of a connection lie behind earlier ones. */
  lemma PiecesInOrder(h: History, j1: nat, j2: nat)
    requires j1 < j2 < |h| && News(h[j1]) && News(h[j2]) && h[j1].call.key == h[j2].call.key
    requires forall x | j1 < x <= j2 && h[x].Called? && h[x].call.key == h[j1].call.key :: !h[x].call.flags.connected
    ensures Offset(h, j1) + |h[j1].call.data| <= Offset(h, j2)
  {
    DeliveredGrows(h, j1 + 1, j2, h[j1].call.key);
    DeliveredAt(h, j2, h[j1].call.key);
  }

  lemma {:induction false} DeliveredGrows(h: History, i: nat, j: nat, k: Key)
    requires i <= j <= |h|
    requires forall x | i <= x < j && h[x].Called? && h[x].call.key == k :: !h[x].call.flags.connected
    ensures Delivered(h[..i], k) <= Delivered(h[..j], k)
    decreases j
  {
    if i < j {
      DeliveredGrows(h, i, j - 1, k);
      DeliveredAt(h, j - 1, k);
    }
  }

  lemma ReturnedFrom(h: History, i: nat, j: nat)
    requires Consistent(h) && i < |h| && Received(h[i]) && Unread(h, j, i)
    ensures h[i].length <= |h[j].call.data| && h[i].data == h[j].call.data[..h[i].length]
  {
    ConsistentRecv(h, i);
    OneUnread(h, i, j);
  }

  /** An answer of `sock_recv` is a piece of the stream its payload is part of. */
  lemma PieceReturned(h: History, i: nat, j: nat, stream: seq<u8>)
    requires Consistent(h) && i < |h| && Received(h[i]) && Unread(h, j, i) && Delivered(h[..j + 1], h[j].call.key) <= stream
    ensures 0 <= Offset(h, j) && Offset(h, j) + h[i].length <= |stream|
    ensures h[i].data == stream[Offset(h, j)..Offset(h, j) + h[i].length]
  {
    ReturnedFrom(h, i, j);
    PieceAt(h, j, stream);
    Within(stream, Offset(h, j), |h[j].call.data|, h[i].length);
  }

  lemma Within(s: seq<u8>, off: nat, n: nat, len: nat)
    requires len <= n && off + n <= |s|
    ensures s[off..off + n][..len] == s[off..off + len]
  {
  }
}
