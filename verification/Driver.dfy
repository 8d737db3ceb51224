/** The transmit half of the driver on its ring in memory. The device acts in the
    gaps between the driver's accesses; how much it does there is a parameter. */
module TxDriver {
  import opened Words
  import opened Ring
  import opened TxRing

  class Transmitter {
    const desc: array<Desc>
    const bufs: array<seq<u8>>
    var tdh: nat
    var tdt: nat
    var index: nat
    ghost var pc: Pc
    ghost var submitted: seq<Frame>
    ghost var wire: seq<Frame>

    ghost function Value(): Tx
      reads this, desc, bufs
    {
      Tx(desc[..], bufs[..], tdh, tdt, index, pc, submitted, wire)
    }

    /** e1000_tx_init. */
    constructor ()
      ensures fresh(desc) && fresh(bufs) && Value() == TxInit(bufs[..]) && TxOk(Value())
    {
      desc := new Desc[RING](_ => Desc(7, false));
      bufs := new seq<u8>[RING](_ => seq(BUFFER, _ => 0));
      tdh, tdt, index := 0, 0, 0;
      pc, submitted, wire := Ready, [], [];
      new;
      for i := 0 to RING
        modifies desc
        invariant forall j | 0 <= j < i :: desc[j] == Desc(0, true)
      {
        desc[i] := Desc(0, true);
      }
      assert desc[..] == seq(RING, _ => Desc(0, true));
    }

    /** The device completes up to `n` descriptors. */
    method Device(n: nat)
      requires TxOk(Value())
      modifies this`tdh, this`wire, desc
      ensures TxOk(Value()) && old(wire) <= wire && Outstanding(Value()) <= old(Outstanding(Value()))
      ensures old(desc[index].dd) ==> desc[index].dd
    {
      for k := 0 to n
        invariant TxOk(Value()) && old(wire) <= wire && Outstanding(Value()) <= old(Outstanding(Value()))
        invariant old(desc[index].dd) ==> desc[index].dd
      {
        if tdh != tdt {
          Complete();
        }
      }
    }

    /** The device transmits the descriptor at its head. */
    method Complete()
      requires TxOk(Value()) && tdh != tdt
      modifies this`tdh, this`wire, desc
      ensures TxOk(Value()) && Value() == DeviceStep(old(Value())) && old(wire) <= wire
      ensures Outstanding(Value()) <= old(Outstanding(Value())) && (old(desc[index].dd) ==> desc[index].dd)
    {
      DeviceKeeps(Value());
      RoomStays(Value(), Action.Device);
      ghost var s := Value();
      wire := wire + [bufs[tdh][..desc[tdh].length]];
      desc[tdh] := desc[tdh].(dd := true);
      SlotIs(tdh, 1);
      tdh := (tdh + 1) % RING;
      assert Value() == DeviceStep(s);
    }

    /** memcpy into the buffer of tx_index. */
    method CopyPacket(packet: Frame)
      requires TxOk(Value()) && pc == Writing(packet)
      modifies this`pc, bufs
      ensures Value() == DriverStep(old(Value())) && TxOk(Value())
    {
      NextKeeps(Value(), Driver);
      bufs[index] := packet + bufs[index][|packet|..];
      pc := Copied(packet);
    }

    /** Fill in the descriptor: DD is cleared. */
    method WriteDescriptor(packet: Frame)
      requires TxOk(Value()) && pc == Copied(packet)
      modifies this`pc, desc
      ensures Value() == DriverStep(old(Value())) && TxOk(Value())
    {
      NextKeeps(Value(), Driver);
      desc[index] := Desc(|packet|, false);
      pc := Described(packet);
    }

    /** Hand the descriptor over by writing TDT. */
    method MoveTail(packet: Frame)
      requires TxOk(Value()) && pc == Described(packet)
      modifies this`pc, this`tdt, this`index, this`submitted
      ensures Value() == DriverStep(old(Value())) && (TxOk(Value()) <==> old(Room(Value()))) && (TxOk(Value()) || Stuck(Value()))
    {
      BoundIsExact(Value());
      SlotIs(index, 1);
      var next := (index + 1) % RING;
      tdt := next;
      index := next;
      pc, submitted := Ready, submitted + [packet];
    }

    /** The spin loop: `polls[k]` descriptors complete before the k-th test of DD. */
    method Spin(packet: Frame, polls: seq<nat>) returns (ok: bool)
      requires TxOk(Value()) && pc == Spinning(packet)
      modifies this`tdh, this`wire, this`pc, desc
      ensures TxOk(Value()) && old(wire) <= wire && Outstanding(Value()) <= old(Outstanding(Value()))
      ensures pc == if ok then Writing(packet) else Spinning(packet)
    {
      for k := 0 to |polls|
        invariant TxOk(Value()) && old(wire) <= wire && pc == Spinning(packet)
        invariant Outstanding(Value()) <= old(Outstanding(Value()))
      {
        Device(polls[k]);
        if desc[index].dd {
          NextKeeps(Value(), Driver);
          pc := Writing(packet);
          return true;
        }
      }
      return false;
    }

    /** net_send, the device completing `d0`, `d1` and `d2` descriptors in the gaps
        after the spin loop. The ring stays in order if fewer than 15 descriptors
        are outstanding at the start, and is in order or stuck in any case; the call
        fails when the last test of the loop still finds the descriptor busy. */
    method NetSend(packet: Frame, polls: seq<nat>, d0: nat, d1: nat, d2: nat) returns (ok: bool)
      requires TxOk(Value()) && pc == Ready && PacketOk(packet)
      modifies this, desc, bufs
      ensures (TxOk(Value()) || Stuck(Value())) && old(wire) <= wire
      ensures ok ==> pc == Ready && submitted == old(submitted) + [packet]
      ensures old(Room(Value())) ==> TxOk(Value())
      ensures !ok ==> TxOk(Value()) && pc == Spinning(packet) && submitted == old(submitted) && bufs[..] == old(bufs[..])
    {
      NextKeeps(Value(), Submit(packet));
      pc := Spinning(packet);
      ok := Spin(packet, polls);
      if ok {
        HandOver(packet, d0, d1, d2);
      }
    }

    /** The three writes after the spin loop. */
    method HandOver(packet: Frame, d0: nat, d1: nat, d2: nat)
      requires TxOk(Value()) && pc == Writing(packet)
      modifies this, desc, bufs
      ensures (TxOk(Value()) || Stuck(Value())) && old(wire) <= wire && (old(Room(Value())) ==> TxOk(Value()))
      ensures pc == Ready && submitted == old(submitted) + [packet]
    {
      Device(d0);
      CopyPacket(packet);
      Device(d1);
      WriteDescriptor(packet);
      Device(d2);
      MoveTail(packet);
    }
  }
}

/** The receive half of the driver. */
module RxDriver {
  import opened Words
  import opened Ring
  import opened RxRing

  class Receiver {
    const desc: array<Desc>
    const bufs: array<seq<u8>>
    var rdh: nat
    var rdt: nat
    var index: nat
    ghost var pc: Pc
    ghost var accepted: seq<Frame>
    ghost var returned: seq<Frame>

    ghost function Value(): Rx
      reads this, desc, bufs
    {
      Rx(desc[..], bufs[..], rdh, rdt, index, pc, accepted, returned)
    }

    /** e1000_rx_init. */
    constructor ()
      ensures fresh(desc) && fresh(bufs) && Value() == RxInit(bufs[..]) && RxOk(Value())
    {
      desc := new Desc[RING](_ => Desc(7, true));
      bufs := new seq<u8>[RING](_ => seq(BUFFER, _ => 0));
      rdh, rdt, index := 0, RING - 1, 0;
      pc, accepted, returned := Ready, [], [];
      new;
      for i := 0 to RING
        modifies desc
        invariant forall j | 0 <= j < i :: desc[j] == Desc(0, false)
      {
        desc[i] := Desc(0, false);
      }
      assert desc[..] == seq(RING, _ => Desc(0, false));
    }

    /** The device stores a frame, if it owns a descriptor. */
    method Store(f: Frame)
      requires RxOk(Value())
      modifies this`rdh, this`accepted, desc, bufs
      ensures RxOk(Value()) && old(accepted) <= accepted
    {
      if rdh != rdt && |f| <= BUFFER {
        ghost var s := Value();
        NextKeeps(s, Fill(f));
        bufs[rdh] := f + bufs[rdh][|f|..];
        desc[rdh] := Desc(|f|, true);
        SlotIs(rdh, 1);
        rdh := (rdh + 1) % RING;
        accepted := accepted + [f];
        assert Value() == Next(s, Fill(f));
      }
    }

    /** The device writes into a buffer it owns. */
    method WriteOwned(j: nat, b: seq<u8>)
      requires RxOk(Value())
      modifies bufs
      ensures RxOk(Value())
    {
      DistanceIs(rdh, rdt);
      if j < (rdt - rdh) % RING && |b| == BUFFER {
        ghost var s := Value();
        NextKeeps(s, Scribble(j, b));
        SlotIs(rdh, j);
        bufs[(rdh + j) % RING] := b;
        assert Value() == Next(s, Scribble(j, b));
      }
    }

    /** The device performs those of the given actions it is allowed to. */
    method Device(acts: seq<Action>)
      requires RxOk(Value()) && forall a | a in acts :: !a.Driver?
      modifies this`rdh, this`accepted, desc, bufs
      ensures RxOk(Value()) && old(accepted) <= accepted
    {
      for k := 0 to |acts|
        invariant RxOk(Value()) && old(accepted) <= accepted
      {
        var a := acts[k];
        assert a in acts;
        match a
        case Fill(f) => Store(f);
        case Scribble(j, b) => WriteOwned(j, b);
      }
    }

    /** The test of DD. */
    method TestDone() returns (done: bool)
      requires RxOk(Value()) && pc == Ready
      modifies this`pc
      ensures Value() == DriverStep(old(Value())) && RxOk(Value())
      ensures done <==> pc == Reading
      ensures !done ==> Filled(Value()) == 0
    {
      NextKeeps(Value(), Driver);
      done := desc[index].dd;
      assert index == Slot(index, 0);
      if done {
        pc := Reading;
      }
    }

    /** memcpy out of the buffer of rx_index. */
    method CopyFrame() returns (frame: Frame)
      requires RxOk(Value()) && pc == Reading
      modifies this`pc
      ensures Value() == DriverStep(old(Value())) && RxOk(Value()) && pc == Copied(frame)
    {
      NextKeeps(Value(), Driver);
      frame := bufs[index][..desc[index].length];
      pc := Copied(frame);
    }

    method ClearDescriptor(frame: Frame)
      requires RxOk(Value()) && pc == Copied(frame)
      modifies this`pc, desc
      ensures Value() == DriverStep(old(Value())) && RxOk(Value())
    {
      NextKeeps(Value(), Driver);
      desc[index] := Desc(0, false);
      pc := Cleared(frame);
    }

    /** Give the descriptor back by writing RDT. */
    method MoveTail(frame: Frame)
      requires RxOk(Value()) && pc == Cleared(frame)
      modifies this`pc, this`rdt, this`index, this`returned
      ensures Value() == DriverStep(old(Value())) && RxOk(Value())
    {
      NextKeeps(Value(), Driver);
      rdt := index;
      SlotIs(index, 1);
      index := (index + 1) % RING;
      pc, returned := Ready, returned + [frame];
    }

    /** net_recv, with the device acting in the three gaps between its accesses:
        the frame returned is the oldest accepted frame not yet returned. */
    method NetRecv(e0: seq<Action>, e1: seq<Action>, e2: seq<Action>) returns (got: Option<Frame>)
      requires RxOk(Value()) && pc == Ready
      requires forall a | a in e0 || a in e1 || a in e2 :: !a.Driver?
      modifies this, desc, bufs
      ensures RxOk(Value()) && pc == Ready && old(accepted) <= accepted
      ensures got.None? ==> Value() == old(Value()) && Filled(Value()) == 0
      ensures got.Some? ==> |old(returned)| < |accepted| && got.value == accepted[|old(returned)|]
                            && returned == old(returned) + [got.value]
    {
      var done := TestDone();
      if !done {
        return None;
      }
      var frame := Fetch(e0, e1, e2);
      return Some(frame);
    }

    /** The three accesses after the test of DD. */
    method Fetch(e0: seq<Action>, e1: seq<Action>, e2: seq<Action>) returns (frame: Frame)
      requires RxOk(Value()) && pc == Reading
      requires forall a | a in e0 || a in e1 || a in e2 :: !a.Driver?
      modifies this, desc, bufs
      ensures RxOk(Value()) && pc == Ready && old(accepted) <= accepted
      ensures |old(returned)| < |accepted| && frame == accepted[|old(returned)|]
      ensures returned == old(returned) + [frame]
    {
      Device(e0);
      frame := CopyFrame();
      Device(e1);
      ClearDescriptor(frame);
      Device(e2);
      MoveTail(frame);
    }
  }
}
