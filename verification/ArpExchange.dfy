/** ARP between two hosts: `uip_arp_out`, `uip_arp_arpin`, and the exchange that
    resolves an unknown address. */
module ArpExchange {
  import opened Words
  import opened Bits
  import opened Arp

  const REQUEST := 1        // ARP_REQUEST
  const REPLY := 2          // ARP_REPLY
  const ARP_HEADER := 42    // sizeof(struct arp_hdr)
  const ETH_HEADER := 14    // sizeof(struct uip_eth_hdr)
  const BROADCAST_IP := Ip(0xffff, 0xffff)
  const BROADCAST_MAC: Mac := [0xff, 0xff, 0xff, 0xff, 0xff, 0xff]

  datatype Host = Host(ip: Ip, mac: Mac, mask: Ip, router: Ip, cache: seq<Entry>, now: u8)

  /** The frame in uip_buf and its length. */
  datatype Frame =
    | ArpFrame(dest: Mac, src: Mac, op: u16, shw: Mac, sip: Ip, dhw: Mac, dip: Ip)
    | IpFrame(dest: Mac, src: Mac, dip: Ip, len: nat)

  function Length(f: Frame): nat {
    if f.ArpFrame? then ARP_HEADER else f.len
  }

  /** uip_ipaddr_maskcmp. */
  predicate OnNetwork(h: Host, ip: Ip) {
    && And(ip.hi, h.mask.hi) == And(h.ip.hi, h.mask.hi)
    && And(ip.lo, h.mask.lo) == And(h.ip.lo, h.mask.lo)
  }

  /** The address whose MAC is needed: the destination or the default router. */
  function NextHop(h: Host, dip: Ip): Ip {
    if OnNetwork(h, dip) then dip else h.router
  }

  /** uip_arp_out for an IP packet of `len` bytes to `dip`. */
  function Out(h: Host, dip: Ip, len: nat): Frame {
    if dip == BROADCAST_IP then IpFrame(BROADCAST_MAC, h.mac, dip, len + ETH_HEADER)
    else
      match Resolve(h.cache, NextHop(h, dip))
      case Some(m) => IpFrame(m, h.mac, dip, len + ETH_HEADER)
      case None => ArpFrame(BROADCAST_MAC, h.mac, REQUEST, h.mac, h.ip, [0, 0, 0, 0, 0, 0], NextHop(h, dip))
  }

  /** uip_arp_arpin: the host afterwards and the frame to be sent, if any. */
  function In(h: Host, f: Frame): (Host, Option<Frame>)
    requires |h.cache| == TABLE && f.ArpFrame?
  {
    if f.dip != h.ip || (f.op != REQUEST && f.op != REPLY) then (h, None)
    else
      var h1 := h.(cache := Update(h.cache, f.sip, f.shw, h.now));
      (h1, if f.op == REQUEST then Some(ArpFrame(f.shw, h.mac, REPLY, h.mac, h.ip, f.shw, f.sip)) else None)
  }

  /** After an update the address resolves: always if both its halves are nonzero,
      and after a miss for every address. */
  lemma UpdateResolves(t: seq<Entry>, ip: Ip, mac: Mac, now: u8)
    requires |t| == TABLE && (Good(ip) || Resolve(t, ip) == None)
    ensures Resolve(Update(t, ip, mac, now), ip) == Some(mac)
  {
    SlotInside(t, ip, now);
    var u, s := Update(t, ip, mac, now), SlotFor(t, ip, now);
    assert u[s] == Entry(ip, mac, now);
  }

  /** The requester, from any pair of caches and for all addresses: a miss makes it
      ask, the responder answers it, and its next packet goes to the responder's
      MAC. */
  lemma Exchange(a: Host, b: Host, len: nat)
    requires |a.cache| == TABLE && |b.cache| == TABLE && b.ip != BROADCAST_IP && OnNetwork(a, b.ip)
    requires Resolve(a.cache, b.ip) == None
    ensures var ask := Out(a, b.ip, len);
            && ask.ArpFrame? && ask.dest == BROADCAST_MAC && ask.op == REQUEST && ask.dip == b.ip
            && var (b1, answer) := In(b, ask);
            && answer.Some? && answer.value.dest == a.mac && answer.value.ArpFrame?
            && var (a1, none) := In(a, answer.value);
            && none == None
            && Out(a1, b.ip, len) == IpFrame(b.mac, a.mac, b.ip, len + ETH_HEADER)
  {
    UpdateResolves(a.cache, b.ip, b.mac, a.now);
  }

  /** The responder learns the requester from the request: its next packet to it
      goes to the requester's MAC. */
  lemma ResponderLearns(a: Host, b: Host, len: nat)
    requires |b.cache| == TABLE && b.ip != BROADCAST_IP && OnNetwork(a, b.ip) && Resolve(a.cache, b.ip) == None
    requires a.ip != BROADCAST_IP && OnNetwork(b, a.ip) && (Good(a.ip) || Resolve(b.cache, a.ip) == None)
    ensures var (b1, answer) := In(b, Out(a, b.ip, len));
            Out(b1, a.ip, len) == IpFrame(a.mac, b.mac, a.ip, len + ETH_HEADER)
  {
    UpdateResolves(b.cache, a.ip, a.mac, b.now);
  }

  /** A destination outside the subnet: the frame goes to the router's MAC, or the
      router is asked for. */
  lemma OffSubnet(h: Host, dip: Ip, len: nat)
    requires dip != BROADCAST_IP
    requires And(dip.hi, h.mask.hi) != And(h.ip.hi, h.mask.hi) || And(dip.lo, h.mask.lo) != And(h.ip.lo, h.mask.lo)
    ensures match Resolve(h.cache, h.router)
            case Some(m) => Out(h, dip, len) == IpFrame(m, h.mac, dip, len + 14)
            case None => var f := Out(h, dip, len);
                         f.ArpFrame? && f.op == 1 && f.dip == h.router && f.sip == h.ip && f.shw == h.mac
  {
  }

  /** A local broadcast needs no lookup. */
  lemma BroadcastOut(h: Host, len: nat)
    ensures Out(h, Ip(0xffff, 0xffff), len) == IpFrame([0xff, 0xff, 0xff, 0xff, 0xff, 0xff], h.mac, Ip(0xffff, 0xffff), len + 14)
  {
  }

  /** A packet for another host, or neither a request nor a reply, is ignored. */
  lemma NotForUs(h: Host, f: Frame)
    requires |h.cache| == TABLE && f.ArpFrame? && (f.dip != h.ip || !(f.op == 1 || f.op == 2))
    ensures In(h, f) == (h, None)
  {
  }

  /** An answer is sent to requests only, to the one who asked, about this host. */
  lemma Answers(h: Host, f: Frame)
    requires |h.cache| == TABLE && f.ArpFrame?
    ensures var a := In(h, f).1;
            && (a.Some? <==> f.op == 1 && f.dip == h.ip)
            && (a.Some? ==> a.value == ArpFrame(f.shw, h.mac, 2, h.mac, h.ip, f.shw, f.sip))
  {
  }
}

/** The cache in memory: `uip_arp_update` overwrites entries in place. */
module ArpTable {
  import opened Words
  import opened Arp

  class Cache {
    const table: array<Entry>

    /** uip_arp_init: every address is cleared. */
    constructor (mac: Mac)
      ensures fresh(table) && CacheOk(table[..]) && View(table[..]) == map[]
    {
      table := new Entry[TABLE](_ => Entry(Ip(1, 1), mac, 0));
      new;
      for i := 0 to TABLE
        modifies table
        invariant forall j | 0 <= j < i :: Unused(table[j])
      {
        table[i] := table[i].(ip := Ip(0, 0));
      }
    }

    /** The first loop: an entry in use with this address, or TABLE. */
    method Match(ip: Ip) returns (i: nat)
      requires table.Length == TABLE
      ensures i == FindMatch(table[..], ip, 0)
    {
      i := 0;
      while i < TABLE && !(InUse(table[i]) && table[i].ip == ip)
        invariant i <= TABLE && FindMatch(table[..], ip, i) == FindMatch(table[..], ip, 0)
      {
        i := i + 1;
      }
    }

    method FirstUnused() returns (i: nat)
      requires table.Length == TABLE
      ensures i == FindUnused(table[..], 0)
    {
      i := 0;
      while i < TABLE && !Unused(table[i])
        invariant i <= TABLE && FindUnused(table[..], i) == FindUnused(table[..], 0)
      {
        i := i + 1;
      }
    }

    method Oldest(now: u8) returns (c: nat)
      requires table.Length == TABLE
      ensures c == FindOldest(table[..], now, 0, 0, 0)
    {
      var age: u8 := 0;
      c := 0;
      for i := 0 to TABLE
        invariant FindOldest(table[..], now, i, age, c) == FindOldest(table[..], now, 0, 0, 0)
      {
        if now - table[i].time > age {
          age := now - table[i].time;
          c := i;
        }
      }
    }

    /** uip_arp_update. */
    method ArpUpdate(ip: Ip, mac: Mac, now: u8)
      requires table.Length == TABLE
      modifies table
      ensures table[..] == Update(old(table[..]), ip, mac, now)
    {
      SlotInside(table[..], ip, now);
      var i := Match(ip);
      if i < TABLE {
        table[i] := table[i].(mac := mac, time := now);
        return;
      }
      i := FirstUnused();
      if i == TABLE {
        i := Oldest(now);
      }
      table[i] := Entry(ip, mac, now);
    }

    /** The lookup loop of uip_arp_out. */
    method Find(ip: Ip) returns (r: Option<Mac>)
      requires table.Length == TABLE
      ensures r == Resolve(table[..], ip)
    {
      var i := 0;
      while i < TABLE && table[i].ip != ip
        invariant i <= TABLE && FindIp(table[..], ip, i) == FindIp(table[..], ip, 0)
      {
        i := i + 1;
      }
      r := if i < TABLE then Some(table[i].mac) else None;
    }
  }
}
