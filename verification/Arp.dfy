/** The ARP cache and the request/reply exchange (RFC 826). */
module Arp {
  import opened Words

  const TABLE := 8          // UIP_ARPTAB_SIZE

  /** An IPv4 address as the two 16-bit halves the source compares. */
  datatype Ip = Ip(hi: u16, lo: u16)

  type Mac = seq<u8>

  datatype Entry = Entry(ip: Ip, mac: Mac, time: u8)

  predicate InUse(e: Entry) { e.ip.hi != 0 && e.ip.lo != 0 }

  predicate Unused(e: Entry) { e.ip.hi == 0 && e.ip.lo == 0 }

  /** Addresses whose halves are both nonzero. */
  predicate Good(ip: Ip) { ip.hi != 0 && ip.lo != 0 }

  // --- uip_arp_update --------------------------------------------------------

  function FindMatch(t: seq<Entry>, ip: Ip, i: nat): (r: nat)
    requires i <= |t|
    ensures i <= r <= |t| && (r < |t| ==> InUse(t[r]) && t[r].ip == ip)
    ensures forall j | i <= j < r :: !(InUse(t[j]) && t[j].ip == ip)
    decreases |t| - i
  {
    if i == |t| || (InUse(t[i]) && t[i].ip == ip) then i else FindMatch(t, ip, i + 1)
  }

  function FindUnused(t: seq<Entry>, i: nat): (r: nat)
    requires i <= |t|
    ensures i <= r <= |t| && (r < |t| ==> Unused(t[r]))
    ensures forall j | i <= j < r :: !Unused(t[j])
    decreases |t| - i
  {
    if i == |t| || Unused(t[i]) then i else FindUnused(t, i + 1)
  }

  /** The age loop: `age` and `c` are tmpage and c. The difference of the 8-bit
      clocks is taken in `int`, so it may be negative and then never counts. */
  function FindOldest(t: seq<Entry>, now: u8, i: nat, age: u8, c: nat): nat
    requires i <= |t|
    decreases |t| - i
  {
    if i == |t| then c
    else if now - t[i].time > age then FindOldest(t, now, i + 1, now - t[i].time, i)
    else FindOldest(t, now, i + 1, age, c)
  }

  function SlotFor(t: seq<Entry>, ip: Ip, now: u8): nat {
    var m, u := FindMatch(t, ip, 0), FindUnused(t, 0);
    if m < |t| then m else if u < |t| then u else FindOldest(t, now, 0, 0, 0)
  }

  lemma {:induction false} OldestIsOldest(t: seq<Entry>, now: u8, i: nat, age: u8, c: nat)
    requires i <= |t| && c < |t| && (age == 0 ==> c == 0) && (age > 0 ==> age == now - t[c].time)
    requires forall j | 0 <= j < i :: now - t[j].time <= age
    ensures var r := FindOldest(t, now, i, age, c);
            && r < |t| && (r == 0 || t[r].time < now)
            && forall j | 0 <= j < |t| :: now - t[j].time <= now - t[r].time || (now - t[j].time <= 0 && r == 0)
    decreases |t| - i
  {
    if i < |t| {
      if now - t[i].time > age {
        OldestIsOldest(t, now, i + 1, now - t[i].time, i);
      } else {
        OldestIsOldest(t, now, i + 1, age, c);
      }
    }
  }

  function Update(t: seq<Entry>, ip: Ip, mac: Mac, now: u8): (u: seq<Entry>)
    requires |t| == TABLE
    ensures |u| == TABLE
  {
    SlotInside(t, ip, now);
    t[SlotFor(t, ip, now) := Entry(ip, mac, now)]
  }

  lemma SlotInside(t: seq<Entry>, ip: Ip, now: u8)
    requires |t| == TABLE
    ensures SlotFor(t, ip, now) < |t|
  {
    OldestIsOldest(t, now, 0, 0, 0);
  }

  // --- The cache as a map ----------------------------------------------------

  /** The lookup loop of uip_arp_out, which does not ask whether an entry is in use. */
  function FindIp(t: seq<Entry>, ip: Ip, i: nat): (r: nat)
    requires i <= |t|
    ensures i <= r <= |t| && (r < |t| ==> t[r].ip == ip)
    ensures forall j | i <= j < r :: t[j].ip != ip
    decreases |t| - i
  {
    if i == |t| || t[i].ip == ip then i else FindIp(t, ip, i + 1)
  }

  function Resolve(t: seq<Entry>, ip: Ip): Option<Mac> {
    var i := FindIp(t, ip, 0);
    if i < |t| then Some(t[i].mac) else None
  }

  /** Every address with two nonzero halves is stored at most once. */
  ghost predicate CacheOk(t: seq<Entry>) {
    |t| == TABLE && forall i, j | 0 <= i < j < |t| && InUse(t[i]) :: t[i].ip != t[j].ip
  }

  function Addresses(t: seq<Entry>): set<Ip> {
    set i | 0 <= i < |t| && InUse(t[i]) :: t[i].ip
  }

  /** The map a cache stands for, on the addresses that count as in use. */
  ghost function View(t: seq<Entry>): map<Ip, Mac> {
    map k | k in Addresses(t) && Resolve(t, k).Some? :: Resolve(t, k).value
  }

  lemma ResolveIs(t: seq<Entry>, i: nat)
    requires CacheOk(t) && i < |t| && InUse(t[i])
    ensures Resolve(t, t[i].ip) == Some(t[i].mac) && t[i].ip in View(t) && View(t)[t[i].ip] == t[i].mac
  {
    var r := FindIp(t, t[i].ip, 0);
  }

  /** The address that makes room: only when the cache is full and does not know
      the new one. */
  function Evicted(t: seq<Entry>, ip: Ip, now: u8): set<Ip>
    requires |t| == TABLE
  {
    SlotInside(t, ip, now);
    if FindMatch(t, ip, 0) < |t| || FindUnused(t, 0) < |t| then {} else {t[SlotFor(t, ip, now)].ip}
  }

  /** Every announcement keeps the cache, whatever address it is for. */
  lemma UpdateKeeps(t: seq<Entry>, ip: Ip, mac: Mac, now: u8)
    requires CacheOk(t)
    ensures CacheOk(Update(t, ip, mac, now))
  {
    SlotInside(t, ip, now);
  }

  /** What an updated cache holds at another address. */
  lemma UpdateElsewhere(t: seq<Entry>, ip: Ip, mac: Mac, now: u8, k: Ip)
    requires CacheOk(t) && k != ip
    ensures var u := Update(t, ip, mac, now);
            && (k in View(u) <==> k in View(t) && k !in Evicted(t, ip, now))
            && (k in View(u) ==> View(u)[k] == View(t)[k])
  {
    SlotInside(t, ip, now);
    UpdateKeeps(t, ip, mac, now);
    var u, s := Update(t, ip, mac, now), SlotFor(t, ip, now);
    if k in View(u) {
      var i :| 0 <= i < |u| && InUse(u[i]) && u[i].ip == k;
      assert i != s && t[i] == u[i];
      ResolveIs(u, i);
      ResolveIs(t, i);
    }
    if k in View(t) && k !in Evicted(t, ip, now) {
      var i :| 0 <= i < |t| && InUse(t[i]) && t[i].ip == k;
      assert i != s && t[i] == u[i];
      ResolveIs(u, i);
    }
  }

  /** What an announcement does to the map. */
  ghost function Learn(m: map<Ip, Mac>, ip: Ip, mac: Mac): map<Ip, Mac> {
    if Good(ip) then m[ip := mac] else m
  }

  /** The update is a map update, evicting at most one address and only when no
      entry is unused. An address with a zero half changes nothing else. */
  lemma UpdateRefines(t: seq<Entry>, ip: Ip, mac: Mac, now: u8)
    requires CacheOk(t)
    ensures CacheOk(Update(t, ip, mac, now))
    ensures View(Update(t, ip, mac, now)) == Learn(View(t) - Evicted(t, ip, now), ip, mac)
    ensures Evicted(t, ip, now) != {} ==> ip !in View(t) && forall i | 0 <= i < |t| :: !Unused(t[i])
  {
    SlotInside(t, ip, now);
    UpdateKeeps(t, ip, mac, now);
    var u := Update(t, ip, mac, now);
    var m := Learn(View(t) - Evicted(t, ip, now), ip, mac);
    if Good(ip) {
      ResolveIs(u, SlotFor(t, ip, now));
    }
    forall k ensures (k in View(u) <==> k in m) && (k in m ==> View(u)[k] == m[k]) {
      if k != ip {
        UpdateElsewhere(t, ip, mac, now, k);
      }
    }
  }

  datatype Announcement = Announcement(ip: Ip, mac: Mac, now: u8)

  function UpdateAll(t: seq<Entry>, news: seq<Announcement>): (u: seq<Entry>)
    requires |t| == TABLE
    ensures |u| == TABLE
    decreases |news|
  {
    if news == [] then t else UpdateAll(Update(t, news[0].ip, news[0].mac, news[0].now), news[1..])
  }

  /** uip_arp_init. */
  function EmptyCache(mac: Mac): (t: seq<Entry>)
    ensures |t| == TABLE
  {
    seq(TABLE, _ => Entry(Ip(0, 0), mac, 0))
  }

  /** Over every sequence of announcements. */
  lemma {:induction false} RunKeeps(t: seq<Entry>, news: seq<Announcement>)
    requires CacheOk(t)
    ensures CacheOk(UpdateAll(t, news))
    decreases |news|
  {
    if news != [] {
      UpdateKeeps(t, news[0].ip, news[0].mac, news[0].now);
      RunKeeps(Update(t, news[0].ip, news[0].mac, news[0].now), news[1..]);
    }
  }

  // --- The condition on addresses is exact -----------------------------------

  ghost predicate AtMostOne(t: seq<Entry>, ip: Ip) {
    forall i, j | 0 <= i < j < |t| :: !(t[i].ip == ip && t[j].ip == ip)
  }

  /** An entry that a new address may overwrite: unused, or older than the clock. */
  predicate Overwritable(e: Entry, now: u8) { Unused(e) || e.time < now }

  /** Where an address with one zero half goes: never to a match, since no entry
      with it counts as in use. Slot 0 is taken when it is the only one to take. */
  lemma HalfZeroSlot(t: seq<Entry>, ip: Ip, now: u8)
    requires |t| == TABLE && !Good(ip)
    ensures SlotFor(t, ip, now) < |t|
    ensures if exists j :: 0 <= j < |t| && Overwritable(t[j], now)
            then Overwritable(t[SlotFor(t, ip, now)], now) else SlotFor(t, ip, now) == 0
  {
    SlotInside(t, ip, now);
    if FindUnused(t, 0) == |t| {
      OldestIsOldest(t, now, 0, 0, 0);
    }
  }

  /** Slot 0 is the only one a new address can take. */
  ghost predicate OnlySlot0(t: seq<Entry>, now: u8) {
    forall j | 0 < j < |t| :: !Overwritable(t[j], now)
  }

  /** An address with one zero half, announced twice, goes to two slots unless
      slot 0 is the only one it can take. */
  lemma HalfZeroTwice(t: seq<Entry>, ip: Ip, m1: Mac, now: u8)
    requires |t| == TABLE && !Good(ip) && ip != Ip(0, 0)
    ensures SlotFor(Update(t, ip, m1, now), ip, now) == SlotFor(t, ip, now) <==> OnlySlot0(t, now)
  {
    var s := SlotFor(t, ip, now);
    HalfZeroSlot(t, ip, now);
    var u := Update(t, ip, m1, now);
    HalfZeroSlot(u, ip, now);
    assert !Overwritable(u[s], now);
    if j :| 0 < j < |t| && Overwritable(t[j], now) {
      assert j != s ==> Overwritable(u[j], now);
    }
  }

  /** Announced twice to a cache that holds it at most once, a nonzero address is
      stored at most once if and only if both its halves are nonzero, or slot 0 is
      the only one that can be taken and no other slot holds the address: the
      in-use test overlooks an entry with one zero half. */
  lemma StoredOnce(t: seq<Entry>, ip: Ip, m1: Mac, m2: Mac, now: u8)
    requires |t| == TABLE && ip != Ip(0, 0) && AtMostOne(t, ip)
    ensures AtMostOne(Update(Update(t, ip, m1, now), ip, m2, now), ip) <==>
              Good(ip) || (OnlySlot0(t, now) && forall j | 0 < j < |t| :: t[j].ip != ip)
  {
    if Good(ip) {
      GoodStaysOnce(t, ip, m1, now);
      GoodStaysOnce(Update(t, ip, m1, now), ip, m2, now);
    } else {
      HalfZeroStored(t, ip, m1, m2, now);
    }
  }

  lemma GoodStaysOnce(t: seq<Entry>, ip: Ip, mac: Mac, now: u8)
    requires |t| == TABLE && Good(ip) && AtMostOne(t, ip)
    ensures AtMostOne(Update(t, ip, mac, now), ip)
  {
    SlotInside(t, ip, now);
  }

  lemma HalfZeroStored(t: seq<Entry>, ip: Ip, m1: Mac, m2: Mac, now: u8)
    requires |t| == TABLE && !Good(ip) && ip != Ip(0, 0) && AtMostOne(t, ip)
    ensures AtMostOne(Update(Update(t, ip, m1, now), ip, m2, now), ip) <==>
              OnlySlot0(t, now) && forall j | 0 < j < |t| :: t[j].ip != ip
  {
    var u := Update(t, ip, m1, now);
    var w := Update(u, ip, m2, now);
    HalfZeroSlot(t, ip, now);
    HalfZeroSlot(u, ip, now);
    HalfZeroTwice(t, ip, m1, now);
    var s, s2 := SlotFor(t, ip, now), SlotFor(u, ip, now);
    assert w[s].ip == ip && w[s2].ip == ip;
    if OnlySlot0(t, now) {
      assert s == 0;
      if j :| 0 < j < |t| && t[j].ip == ip {
        assert w[j].ip == ip;
      }
    }
  }

  /** The address 10.1.0.0 announced twice to an empty cache occupies two entries. */
  lemma StoredTwice(mac: Mac, m1: Mac, m2: Mac)
    ensures !AtMostOne(Update(Update(EmptyCache(mac), Ip(0x010a, 0), m1, 0), Ip(0x010a, 0), m2, 0), Ip(0x010a, 0))
  {
    var t := EmptyCache(mac);
    assert Overwritable(t[1], 0);
    StoredOnce(t, Ip(0x010a, 0), m1, m2, 0);
  }
}
