/**
 LoRa packets: the header's bytes, the CCM nonce built from it, and the replay table.
 */
module LoraReplay {
  const MAX_SENSORS := 16
  const PKT_LEN := 18
  const HDR_LEN := 10

  type Byte = n: nat | n < 256
  type U16 = n: nat | n < 0x1_0000
  type U32 = n: nat | n < 0x1_0000_0000

  datatype Option<T> = None | Some(value: T)

  // ---- Bytes, big end first ----

  function GetBe16(s: seq<Byte>): U16
    requires |s| == 2
  {
    var hi: nat, lo: nat := s[0], s[1];
    hi * 256 + lo
  }

  // Byte by byte, the high half first.
  function GetBe32(s: seq<Byte>): U32
    requires |s| == 4
  {
    var hi: nat, lo: nat := GetBe16(s[..2]), GetBe16(s[2..]);
    hi * 0x1_0000 + lo
  }

  function Be16(v: U16): (s: seq<Byte>)
    ensures |s| == 2 && GetBe16(s) == v
  {
    [v / 256, v % 256]
  }

  function Be32(v: U32): (s: seq<Byte>)
    ensures |s| == 4 && GetBe32(s) == v
  {
    var r := Be16(v / 0x1_0000) + Be16(v % 0x1_0000);
    assert r[..2] == Be16(v / 0x1_0000) && r[2..] == Be16(v % 0x1_0000);
    r
  }

  lemma Be16Reads(s: seq<Byte>)
    requires |s| == 2
    ensures Be16(GetBe16(s)) == s
  {
  }

  // The first byte counts most.
  lemma BigEnd(s: seq<Byte>)
    requires |s| == 4
    ensures GetBe32(s) as int == ((s[0] as int * 0x100 + s[1] as int) * 0x100 + s[2] as int) * 0x100 + s[3] as int
    ensures GetBe16(s[..2]) as int == s[0] as int * 0x100 + s[1] as int
  {
  }

  // Four bytes, read and written again, are the same bytes.
  lemma Be32Reads(s: seq<Byte>)
    requires |s| == 4
    ensures Be32(GetBe32(s)) == s
  {
    hide Be16, GetBe16;
    Be16Reads(s[..2]);
    Be16Reads(s[2..]);
    assert GetBe32(s) / 0x1_0000 == GetBe16(s[..2]) && GetBe32(s) % 0x1_0000 == GetBe16(s[2..]);
    assert s == s[..2] + s[2..];
  }

  method PutBe16(dst: array<Byte>, at: nat, val: U16)
    requires at + 2 <= dst.Length
    modifies dst
    ensures dst[..] == old(dst[..at]) + Be16(val) + old(dst[at + 2..])
  {
    dst[at] := val / 256;
    dst[at + 1] := val % 256;
  }

  method PutBe32(dst: array<Byte>, at: nat, val: U32)
    requires at + 4 <= dst.Length
    modifies dst
    ensures dst[..] == old(dst[..at]) + Be32(val) + old(dst[at + 4..])
  {
    hide Be16;
    PutBe16(dst, at, val / 0x1_0000);
    PutBe16(dst, at + 2, val % 0x1_0000);
  }

  // ---- The nonce ----

  function Nonce(id: U32, boot: U32, cnt: U16): seq<Byte> {
    Be32(id) + Be32(boot) + Be16(cnt) + [0, 0, 0]
  }

  // `build_nonce`
  method BuildNonce(id: U32, boot: U32, cnt: U16, nonce: array<Byte>)
    requires nonce.Length == 13
    modifies nonce
    ensures nonce[..] == Nonce(id, boot, cnt)
  {
    hide Be32, Be16;
    PutBe32(nonce, 0, id);
    PutBe32(nonce, 4, boot);
    PutBe16(nonce, 8, cnt);
    nonce[10], nonce[11], nonce[12] := 0, 0, 0;
    assert nonce[..] == nonce[..4] + nonce[4..8] + nonce[8..10] + nonce[10..];
  }

  // Different headers never share a nonce.
  lemma NonceInjective(id: U32, boot: U32, cnt: U16, id2: U32, boot2: U32, cnt2: U16)
    requires Nonce(id, boot, cnt) == Nonce(id2, boot2, cnt2)
    ensures id == id2 && boot == boot2 && cnt == cnt2
  {
    hide Be32, Be16, GetBe32, GetBe16;
    var a, b := Nonce(id, boot, cnt), Nonce(id2, boot2, cnt2);
    assert a[..4] == Be32(id) && b[..4] == Be32(id2);
    assert a[4..8] == Be32(boot) && b[4..8] == Be32(boot2);
    assert a[8..10] == Be16(cnt) && b[8..10] == Be16(cnt2);
  }

  /** The packet's plaintext header. */
  datatype Header = Header(id: U32, boot: U32, cnt: U16)

  function HeaderOf(pkt: seq<Byte>): Header
    requires |pkt| >= PKT_LEN
  {
    Header(GetBe32(pkt[..4]), GetBe32(pkt[4..8]), GetBe16(pkt[8..10]))
  }

  // The nonce is the packet's own ten header bytes, the authenticated data, and three zeros.
  lemma NonceIsHeader(pkt: seq<Byte>)
    requires |pkt| >= PKT_LEN
    ensures var h := HeaderOf(pkt); Nonce(h.id, h.boot, h.cnt) == pkt[..HDR_LEN] + [0, 0, 0]
  {
    hide Be32, Be16, GetBe32, GetBe16;
    Be32Reads(pkt[..4]);
    Be32Reads(pkt[4..8]);
    Be16Reads(pkt[8..10]);
    assert pkt[..HDR_LEN] == pkt[..4] + pkt[4..8] + pkt[8..10];
  }

  // ---- The replay table ----

  datatype Slot = Slot(id: U32, boot: U32, last: U16, active: bool)

  datatype Rec = Rec(boot: U32, last: U16)

  // What the table knows of a sensor.
  function Lookup(t: seq<Slot>, id: U32): (r: Option<Rec>)
    ensures r.Some? ==> exists k :: 0 <= k < |t| && t[k].active && t[k].id == id && r.value == Rec(t[k].boot, t[k].last)
    ensures r.None? ==> forall k :: 0 <= k < |t| ==> !(t[k].active && t[k].id == id)
  {
    if t == [] then None
    else if t[|t| - 1].active && t[|t| - 1].id == id then Some(Rec(t[|t| - 1].boot, t[|t| - 1].last))
    else Lookup(t[..|t| - 1], id)
  }

  // ... or a sensor's first record.
  function Known(t: seq<Slot>, id: U32): Rec {
    var r := Lookup(t, id);
    if r.Some? then r.value else Rec(0, 0)
  }

  ghost predicate Unique(t: seq<Slot>) {
    forall j, k :: 0 <= j < k < |t| && t[j].active && t[k].active ==> t[j].id != t[k].id
  }

  lemma LookupAt(t: seq<Slot>, k: nat)
    requires Unique(t) && k < |t| && t[k].active
    ensures Lookup(t, t[k].id) == Some(Rec(t[k].boot, t[k].last))
  {
  }

  ghost predicate Full(t: seq<Slot>) {
    forall k :: 0 <= k < |t| ==> t[k].active
  }

  // A packet from a sensor the table knows (a new one known as boot 0, counter 0) is accepted when its
  // boot differs or its counter is higher; one it cannot take in is accepted as it is.
  predicate Accepts(r: Option<Rec>, boot: U32, cnt: U16) {
    r.None? || boot != r.value.boot || cnt > r.value.last
  }

  class ReplayTable {
    var slots: array<Slot>

    ghost predicate Valid()
      reads this, slots
    {
      slots.Length == MAX_SENSORS && Unique(slots[..])
    }

    constructor ()
      ensures Valid() && fresh(slots) && forall id: U32 :: Lookup(slots[..], id) == None
    {
      slots := new Slot[MAX_SENSORS](_ => Slot(0, 0, 0, false));
    }

    // `find_or_create_slot`: the sensor's slot, its own or the first free one, -1 when the table is full.
    method FindOrCreate(id: U32) returns (k: int)
      requires Valid()
      modifies slots
      ensures Valid() && -1 <= k < MAX_SENSORS
      ensures k < 0 <==> Full(old(slots[..])) && Lookup(old(slots[..]), id).None?
      ensures k < 0 ==> slots[..] == old(slots[..])
      ensures k >= 0 ==> slots[k].active && slots[k].id == id
      ensures k >= 0 ==> Rec(slots[k].boot, slots[k].last) == Known(old(slots[..]), id)
      ensures k >= 0 ==> (old(slots[..])[k].active ==> old(slots[..])[k] == slots[k])
      ensures forall j :: 0 <= j < MAX_SENSORS && j != k ==> slots[j] == old(slots[..])[j]
    {
      ghost var was := slots[..];
      var empty := -1;
      for i := 0 to MAX_SENSORS
        invariant slots[..] == was
        invariant -1 <= empty < i
        invariant forall j :: 0 <= j < i ==> !(slots[j].active && slots[j].id == id)
        invariant empty >= 0 ==> !slots[empty].active
        invariant empty < 0 ==> forall j :: 0 <= j < i ==> slots[j].active
      {
        if slots[i].active && slots[i].id == id {
          LookupAt(slots[..], i);
          return i;
        }
        if !slots[i].active && empty < 0 {
          empty := i;
        }
      }
      if empty >= 0 {
        slots[empty] := Slot(id, 0, 0, true);
      } else {
        assert slots[..] == was;
      }
      return empty;
    }

    // `replay_check_and_update`
    method CheckAndUpdate(id: U32, boot: U32, cnt: U16) returns (ok: bool)
      requires Valid()
      modifies slots
      ensures Valid()
      ensures Handles(old(slots[..]), Header(id, boot, cnt), ok, slots[..])
    {
      ghost var was := slots[..];
      var k := FindOrCreate(id);
      if k < 0 {
        assert slots[..] == was;
        return true;
      }
      if boot != slots[k].boot {
        slots[k] := slots[k].(boot := boot, last := cnt);
        ok := true;
      } else if cnt > slots[k].last {
        slots[k] := slots[k].(last := cnt);
        ok := true;
      } else {
        ok := false;
      }
      LookupAt(slots[..], k);
      forall other: U32 | other != id ensures Lookup(slots[..], other) == Lookup(was, other) {
        SameElsewhere(was, slots[..], k, id, other);
      }
    }
  }

  // One packet of the table: its verdict, what the table knows of its sensor after it, every other
  // sensor's record as it was, and a full table still full.
  ghost predicate Handles(t: seq<Slot>, p: Header, ok: bool, u: seq<Slot>) {
    && Unique(t) && Unique(u)
    && (ok, Lookup(u, p.id)) == Verdict(t, p.id, p.boot, p.cnt)
    && (forall other: U32 :: other != p.id ==> Lookup(u, other) == Lookup(t, other))
    && (Full(t) ==> Full(u))
  }

  // The verdict on a packet, and what the table knows of its sensor after it.
  ghost function Verdict(t: seq<Slot>, id: U32, boot: U32, cnt: U16): (bool, Option<Rec>) {
    var r := Lookup(t, id);
    if r.None? && Full(t) then (true, None)
    else
      var known := Known(t, id);
      var ok := Accepts(Some(known), boot, cnt);
      (ok, Some(if ok then Rec(boot, cnt) else known))
  }

  lemma SameElsewhere(t: seq<Slot>, u: seq<Slot>, k: nat, id: U32, other: U32)
    requires Unique(t) && Unique(u) && |t| == |u| && k < |t| && other != id
    requires u[k].active && u[k].id == id && (t[k].active ==> t[k].id == id)
    requires forall j :: 0 <= j < |t| && j != k ==> u[j] == t[j]
    ensures Lookup(u, other) == Lookup(t, other)
  {
    if Lookup(t, other).Some? {
      var j :| 0 <= j < |t| && t[j].active && t[j].id == other && Lookup(t, other).value == Rec(t[j].boot, t[j].last);
      LookupAt(u, j);
    }
  }

  // ---- The packet ----

  // AES-CCM as an oracle on nonce, authenticated data, ciphertext and tag.
  type Ccm = (seq<Byte>, seq<Byte>, seq<Byte>, seq<Byte>) -> Option<seq<Byte>>

  // A packet's plaintext, if it is authentic: under the nonce of its own header.
  function Opened(pkt: seq<Byte>, ccm: Ccm): Option<seq<Byte>> {
    if |pkt| < PKT_LEN then None
    else ccm(pkt[..HDR_LEN] + [0, 0, 0], pkt[..HDR_LEN], pkt[HDR_LEN..14], pkt[14..PKT_LEN])
  }

  // The receiver: `lora_crypto_decrypt_packet`. A packet that is short or fails authentication leaves the
  // table as it was.
  method DecryptPacket(table: ReplayTable, pkt: seq<Byte>, ccm: Ccm) returns (out: Option<seq<Byte>>)
    requires table.Valid()
    modifies table.slots
    ensures table.Valid()
    ensures out.Some? ==>
      && out == Opened(pkt, ccm) && |pkt| >= PKT_LEN
      && out == ccm(pkt[..10] + [0, 0, 0], pkt[..10], pkt[10..14], pkt[14..18])
    ensures Opened(pkt, ccm).Some? ==> Handles(old(table.slots[..]), HeaderOf(pkt), out.Some?, table.slots[..])
    ensures Opened(pkt, ccm).None? ==> out.None? && table.slots[..] == old(table.slots[..])
  {
    hide Handles, Lookup, Unique, Be32, Be16, GetBe32, GetBe16;
    if |pkt| < PKT_LEN {
      return None;
    }
    var h := HeaderOf(pkt);
    var nonce := new Byte[13](_ => 0);
    BuildNonce(h.id, h.boot, h.cnt, nonce);
    NonceIsHeader(pkt);
    var plain := ccm(nonce[..], pkt[..HDR_LEN], pkt[HDR_LEN..14], pkt[14..PKT_LEN]);
    if plain.None? {
      return None;
    }
    var ok := table.CheckAndUpdate(h.id, h.boot, h.cnt);
    if !ok {
      return None;
    }
    return plain;
  }

  // ---- One sensor's record ----

  /** What is known of one sensor as authenticated packets of any sensors come, from record `r`. */
  function RecAfter(r: Rec, id: U32, ps: seq<Header>): Rec {
    if ps == [] then r
    else
      var n := |ps| - 1;
      var before := RecAfter(r, id, ps[..n]);
      if ps[n].id == id && Accepts(Some(before), ps[n].boot, ps[n].cnt) then Rec(ps[n].boot, ps[n].cnt) else before
  }

  // Packet k is sensor id's, and its record accepts it.
  predicate Accepted(r: Rec, id: U32, ps: seq<Header>, k: nat)
    requires k < |ps|
  {
    ps[k].id == id && Accepts(Some(RecAfter(r, id, ps[..k])), ps[k].boot, ps[k].cnt)
  }

  // The record changes only with an accepted packet, and then is that packet's.
  lemma RecNext(r: Rec, id: U32, ps: seq<Header>, k: nat)
    requires k < |ps|
    ensures RecAfter(r, id, ps[..k + 1]) ==
            if Accepted(r, id, ps, k) then Rec(ps[k].boot, ps[k].cnt) else RecAfter(r, id, ps[..k])
  {
    assert ps[..k + 1][..k] == ps[..k];
  }

  // ---- Whole runs of the table ----

  /** The tables before each authenticated packet and after the last, and the packets' verdicts. */
  ghost predicate IsRun(ts: seq<seq<Slot>>, ps: seq<Header>, oks: seq<bool>) {
    && |ts| == |ps| + 1 && |oks| == |ps|
    && forall k :: 0 <= k < |ps| ==> Handles(ts[k], ps[k], oks[k], ts[k + 1])
  }

  // The table has, or can give, the sensor a slot.
  ghost predicate RoomFor(t: seq<Slot>, id: U32) {
    Lookup(t, id).Some? || !Full(t)
  }

  lemma RoomBefore(t: seq<Slot>, p: Header, ok: bool, u: seq<Slot>, id: U32)
    requires Handles(t, p, ok, u) && RoomFor(u, id)
    ensures RoomFor(t, id)
    ensures Known(u, id) == if p.id == id && ok then Rec(p.boot, p.cnt) else Known(t, id)
    ensures p.id == id ==> ok == Accepts(Some(Known(t, id)), p.boot, p.cnt)
  {
    hide Lookup, Unique, Full;
  }

  // A sensor the table has room for: its record along any mix of packets is the one its own packets
  // make, and its verdicts are that record's.
  lemma {:induction false} TableIsRecord(ts: seq<seq<Slot>>, ps: seq<Header>, oks: seq<bool>, id: U32, n: nat)
    requires IsRun(ts, ps, oks) && n <= |ps| && RoomFor(ts[n], id)
    ensures Known(ts[n], id) == RecAfter(Known(ts[0], id), id, ps[..n])
    ensures forall k :: 0 <= k <= n && k < |ps| && ps[k].id == id ==> oks[k] == Accepted(Known(ts[0], id), id, ps, k)
  {
    hide Handles, Known, RoomFor, Accepts;
    var r := Known(ts[0], id);
    if n > 0 {
      assert Handles(ts[n - 1], ps[n - 1], oks[n - 1], ts[n]);
      RoomBefore(ts[n - 1], ps[n - 1], oks[n - 1], ts[n], id);
      TableIsRecord(ts, ps, oks, id, n - 1);
      RecNext(r, id, ps, n - 1);
    }
    if n < |ps| && ps[n].id == id {
      assert Handles(ts[n], ps[n], oks[n], ts[n + 1]);
      VerdictOf(ts[n], ps[n], oks[n], ts[n + 1]);
    }
  }

  lemma VerdictOf(t: seq<Slot>, p: Header, ok: bool, u: seq<Slot>)
    requires Handles(t, p, ok, u) && RoomFor(t, p.id)
    ensures ok == Accepts(Some(Known(t, p.id)), p.boot, p.cnt) && Lookup(u, p.id).Some?
  {
    hide Lookup, Unique, Full;
  }

  // A full table never takes another sensor in, and accepts everything it sends.
  lemma {:induction false} FullAcceptsAll(ts: seq<seq<Slot>>, ps: seq<Header>, oks: seq<bool>, id: U32, n: nat)
    requires IsRun(ts, ps, oks) && n <= |ps| && !RoomFor(ts[0], id)
    ensures !RoomFor(ts[n], id)
    ensures forall k :: 0 <= k < n && ps[k].id == id ==> oks[k]
  {
    hide Lookup, Unique, Full;
    if n > 0 {
      FullAcceptsAll(ts, ps, oks, id, n - 1);
      assert Handles(ts[n - 1], ps[n - 1], oks[n - 1], ts[n]);
    }
  }

  // Packet k is sensor id's and was accepted.
  predicate Took(ps: seq<Header>, oks: seq<bool>, id: U32, k: int) {
    0 <= k < |ps| && k < |oks| && ps[k].id == id && oks[k]
  }

  // All accepted packets of a's sensor from a up to b carry a's boot.
  ghost predicate OneBoot(ps: seq<Header>, oks: seq<bool>, a: nat, b: nat)
    requires a < |ps|
  {
    forall k :: a <= k < b && Took(ps, oks, ps[a].id, k) ==> ps[k].boot == ps[a].boot
  }

  // A slot is kept.
  lemma {:induction false} SlotStays(ts: seq<seq<Slot>>, ps: seq<Header>, oks: seq<bool>, id: U32, a: nat, b: nat)
    requires IsRun(ts, ps, oks) && a < b <= |ps| && ps[a].id == id
    ensures RoomFor(ts[b], id) <==> Lookup(ts[b], id).Some?
  {
    hide Lookup, Unique, Full;
    assert Handles(ts[b - 1], ps[b - 1], oks[b - 1], ts[b]);
    if a < b - 1 {
      SlotStays(ts, ps, oks, id, a, b - 1);
    }
  }

  lemma {:induction false} BlockRecord(ts: seq<seq<Slot>>, ps: seq<Header>, oks: seq<bool>, a: nat, b: nat)
    requires IsRun(ts, ps, oks) && a < b <= |ps| && RoomFor(ts[b], ps[a].id)
    requires oks[a] && OneBoot(ps, oks, a, b)
    ensures Known(ts[b], ps[a].id).boot == ps[a].boot && Known(ts[b], ps[a].id).last >= ps[a].cnt
    ensures forall k :: a <= k < b && Took(ps, oks, ps[a].id, k) ==> ps[k].cnt <= Known(ts[b], ps[a].id).last
  {
    hide Handles, Known, RoomFor;
    assert Handles(ts[b - 1], ps[b - 1], oks[b - 1], ts[b]);
    RoomBefore(ts[b - 1], ps[b - 1], oks[b - 1], ts[b], ps[a].id);
    if b > a + 1 {
      BlockRecord(ts, ps, oks, a, b - 1);
    }
  }

  // Inside a block of accepted packets of one boot the frame counters strictly increase and no nonce
  // comes twice, whatever other sensors send in between.
  lemma CountersIncrease(ts: seq<seq<Slot>>, ps: seq<Header>, oks: seq<bool>, a: nat, b: nat)
    requires IsRun(ts, ps, oks) && a < b < |ps| && ps[b].id == ps[a].id
    requires oks[a] && oks[b] && OneBoot(ps, oks, a, b + 1) && Lookup(ts[b], ps[a].id).Some?
    ensures ps[a].cnt < ps[b].cnt
    ensures Nonce(ps[a].id, ps[a].boot, ps[a].cnt) != Nonce(ps[b].id, ps[b].boot, ps[b].cnt)
  {
    var (h, g) := (ps[a], ps[b]);
    BlockRecord(ts, ps, oks, a, b);
    assert Handles(ts[b], g, oks[b], ts[b + 1]);
    VerdictOf(ts[b], g, oks[b], ts[b + 1]);
    assert Took(ps, oks, h.id, b);
    hide Nonce, Handles, Lookup;
    if Nonce(h.id, h.boot, h.cnt) == Nonce(g.id, g.boot, g.cnt) {
      NonceInjective(h.id, h.boot, h.cnt, g.id, g.boot, g.cnt);
    }
  }

  function CountTaken(ps: seq<Header>, oks: seq<bool>, id: U32, a: nat, b: nat): nat
    requires a <= b
  {
    if a == b then 0 else CountTaken(ps, oks, id, a, b - 1) + if Took(ps, oks, id, b - 1) then 1 else 0
  }

  // ... so a block has at most 65,536 packets.
  lemma {:induction false} BlockIsShort(ts: seq<seq<Slot>>, ps: seq<Header>, oks: seq<bool>, a: nat, b: nat)
    requires IsRun(ts, ps, oks) && a < b <= |ps| && RoomFor(ts[b], ps[a].id)
    requires oks[a] && OneBoot(ps, oks, a, b)
    ensures CountTaken(ps, oks, ps[a].id, a, b) <= Known(ts[b], ps[a].id).last - ps[a].cnt + 1 <= 0x1_0000
  {
    hide Handles, Known, RoomFor;
    assert Handles(ts[b - 1], ps[b - 1], oks[b - 1], ts[b]);
    RoomBefore(ts[b - 1], ps[b - 1], oks[b - 1], ts[b], ps[a].id);
    BlockRecord(ts, ps, oks, a, b);
    if b > a + 1 {
      BlockIsShort(ts, ps, oks, a, b - 1);
      BlockRecord(ts, ps, oks, a, b - 1);
      if Took(ps, oks, ps[a].id, b - 1) {
        assert ps[b - 1].boot == ps[a].boot;
      }
    }
  }

  // ---- When a counter already seen is accepted ----

  // The record before b is that of the last packet of the sensor accepted before it.
  lemma {:induction false} RecordIsLast(ts: seq<seq<Slot>>, ps: seq<Header>, oks: seq<bool>, c: nat, b: nat)
    requires IsRun(ts, ps, oks) && c < b <= |ps| && RoomFor(ts[b], ps[c].id)
    requires oks[c] && forall d :: c < d < b ==> !Took(ps, oks, ps[c].id, d)
    ensures Known(ts[b], ps[c].id) == Rec(ps[c].boot, ps[c].cnt)
  {
    hide Handles, Known, RoomFor;
    assert Handles(ts[b - 1], ps[b - 1], oks[b - 1], ts[b]);
    RoomBefore(ts[b - 1], ps[b - 1], oks[b - 1], ts[b], ps[c].id);
    if b > c + 1 {
      assert !Took(ps, oks, ps[c].id, b - 1);
      RecordIsLast(ts, ps, oks, c, b - 1);
    }
  }

  // The header promises that a counter at or below the last one seen is rejected. In every run it is
  // accepted exactly when the sensor has no slot, or came with another boot than the last one.
  lemma LowCounterAccepted(ts: seq<seq<Slot>>, ps: seq<Header>, oks: seq<bool>, c: nat, b: nat)
    requires IsRun(ts, ps, oks) && c < b < |ps| && ps[b].id == ps[c].id && ps[b].cnt <= ps[c].cnt
    requires oks[c] && forall d :: c < d < b ==> !Took(ps, oks, ps[c].id, d)
    ensures oks[b] <==> Lookup(ts[b], ps[b].id).None? || ps[b].boot != ps[c].boot
  {
    hide Unique, Full;
    SlotStays(ts, ps, oks, ps[c].id, c, b);
    assert Handles(ts[b], ps[b], oks[b], ts[b + 1]);
    if Lookup(ts[b], ps[b].id).Some? {
      RecordIsLast(ts, ps, oks, c, b);
      VerdictOf(ts[b], ps[b], oks[b], ts[b + 1]);
    }
  }

  // The sensor was accepted with another boot after a, and since then with a's boot only below a's counter.
  ghost predicate RebootedSince(ps: seq<Header>, oks: seq<bool>, a: nat, b: nat)
    requires a < |ps|
  {
    exists c :: a < c < b && Took(ps, oks, ps[a].id, c) && ps[c].boot != ps[a].boot && LowSince(ps, oks, a, c, b)
  }

  ghost predicate LowSince(ps: seq<Header>, oks: seq<bool>, a: nat, c: int, b: nat)
    requires a < |ps|
  {
    forall d :: c < d < b && Took(ps, oks, ps[a].id, d) && ps[d].boot == ps[a].boot ==> ps[d].cnt < ps[a].cnt
  }

  // The last packet of the sensor accepted before b.
  lemma {:induction false} LastTaken(ps: seq<Header>, oks: seq<bool>, id: U32, a: nat, b: nat) returns (c: nat)
    requires a < b && Took(ps, oks, id, a)
    ensures a <= c < b && Took(ps, oks, id, c) && forall d :: c < d < b ==> !Took(ps, oks, id, d)
  {
    c := b - 1;
    if !Took(ps, oks, id, c) {
      c := LastTaken(ps, oks, id, a, b - 1);
    }
  }

  // ... and the last one with another boot than a's, if there is one.
  lemma {:induction false} LastOther(ps: seq<Header>, oks: seq<bool>, a: nat, b: nat) returns (c: nat)
    requires a < b && a < |ps| && Took(ps, oks, ps[a].id, a)
    ensures a <= c < b && Took(ps, oks, ps[a].id, c) && (c == a || ps[c].boot != ps[a].boot)
    ensures forall d :: c < d < b && Took(ps, oks, ps[a].id, d) ==> ps[d].boot == ps[a].boot
  {
    c := b - 1;
    if c > a && !(Took(ps, oks, ps[a].id, c) && ps[c].boot != ps[a].boot) {
      c := LastOther(ps, oks, a, b - 1);
    }
  }

  // In every run, the second copy of an accepted packet is accepted if and only if its sensor has no
  // slot, or was accepted in between with another boot and since then only below that counter.
  lemma ReplayAccepted(ts: seq<seq<Slot>>, ps: seq<Header>, oks: seq<bool>, a: nat, b: nat)
    requires IsRun(ts, ps, oks) && a < b < |ps| && ps[b] == ps[a] && oks[a]
    ensures oks[b] <==> Lookup(ts[b], ps[a].id).None? || RebootedSince(ps, oks, a, b)
  {
    hide Unique, Full, Lookup, RebootedSince, LowSince;
    var id := ps[a].id;
    SlotStays(ts, ps, oks, id, a, b);
    assert Handles(ts[b], ps[b], oks[b], ts[b + 1]);
    if Lookup(ts[b], id).Some? {
      var c := LastTaken(ps, oks, id, a, b);
      RecordIsLast(ts, ps, oks, c, b);
      VerdictOf(ts[b], ps[b], oks[b], ts[b + 1]);
      assert oks[b] <==> ps[c].boot != ps[a].boot || ps[c].cnt < ps[a].cnt;
      hide Handles, Known;
      if oks[b] { AcceptedRebooted(ts, ps, oks, a, c, b); } else { RejectedNot(ps, oks, a, c, b); }
    }
  }

  lemma AcceptedRebooted(ts: seq<seq<Slot>>, ps: seq<Header>, oks: seq<bool>, a: nat, c: nat, b: nat)
    requires IsRun(ts, ps, oks) && a <= c < b < |ps| && oks[a] && Took(ps, oks, ps[a].id, c) && RoomFor(ts[b], ps[a].id)
    requires forall d :: c < d < b ==> !Took(ps, oks, ps[a].id, d)
    requires ps[c].boot != ps[a].boot || ps[c].cnt < ps[a].cnt
    ensures RebootedSince(ps, oks, a, b)
  {
    hide Handles, Known, RoomFor;
    var e := LastOther(ps, oks, a, b);
    if ps[c].boot != ps[a].boot {
      assert LowSince(ps, oks, a, c, b);
    } else if e == a {
      BlockRecord(ts, ps, oks, a, b);
      RecordIsLast(ts, ps, oks, c, b);
      assert false;
    } else {
      forall d | e < d < b && Took(ps, oks, ps[a].id, d) ensures ps[d].cnt < ps[a].cnt {
        BlockRecord(ts, ps, oks, d, b);
        RecordIsLast(ts, ps, oks, c, b);
      }
      assert LowSince(ps, oks, a, e, b);
    }
  }

  lemma RejectedNot(ps: seq<Header>, oks: seq<bool>, a: nat, c: nat, b: nat)
    requires a <= c < b && a < |ps| && Took(ps, oks, ps[a].id, c)
    requires forall d :: c < d < b ==> !Took(ps, oks, ps[a].id, d)
    requires ps[c].boot == ps[a].boot && ps[c].cnt >= ps[a].cnt
    ensures !RebootedSince(ps, oks, a, b)
  {
  }

  // ---- A sensor's first packet ----

  lemma {:induction false} NeverSeen(ts: seq<seq<Slot>>, ps: seq<Header>, oks: seq<bool>, id: U32, n: nat)
    requires IsRun(ts, ps, oks) && n <= |ps| && Lookup(ts[0], id).None?
    requires forall k :: 0 <= k < n ==> ps[k].id != id
    ensures Lookup(ts[n], id).None?
  {
    hide Lookup, Unique, Full;
    if n > 0 {
      NeverSeen(ts, ps, oks, id, n - 1);
      assert Handles(ts[n - 1], ps[n - 1], oks[n - 1], ts[n]);
    }
  }

  // A sensor heard for the first time is accepted, unless it sends boot 0 and counter 0 to a table with
  // room: a fresh slot reads as if it had sent just that.
  lemma FirstAccepted(ts: seq<seq<Slot>>, ps: seq<Header>, oks: seq<bool>, b: nat)
    requires IsRun(ts, ps, oks) && b < |ps| && Lookup(ts[0], ps[b].id).None?
    requires forall k :: 0 <= k < b ==> ps[k].id != ps[b].id
    ensures oks[b] <==> Full(ts[b]) || ps[b].boot != 0 || ps[b].cnt != 0
    ensures Lookup(ts[b + 1], ps[b].id) == if Full(ts[b]) then None else Some(Rec(ps[b].boot, ps[b].cnt))
  {
    hide Lookup, Unique, Full;
    NeverSeen(ts, ps, oks, ps[b].id, b);
    assert Handles(ts[b], ps[b], oks[b], ts[b + 1]);
  }

  // ---- Packets accepted twice ----

  function OneSlot(r: Rec): seq<Slot> {
    seq(MAX_SENSORS, k => if k == 0 then Slot(7, r.boot, r.last, true) else Slot(0, 0, 0, false))
  }

  const NO_SLOTS: seq<Slot> := seq(MAX_SENSORS, _ => Slot(0, 0, 0, false))

  lemma OneSlotKnows(r: Rec)
    ensures Unique(OneSlot(r)) && Lookup(OneSlot(r), 7) == Some(r) && !Full(OneSlot(r))
    ensures forall other: U32 :: other != 7 ==> Lookup(OneSlot(r), other) == None
  {
    LookupAt(OneSlot(r), 0);
    assert !OneSlot(r)[1].active;
  }

  lemma FirstPacket(boot: U32, cnt: U16)
    requires boot != 0
    ensures Handles(NO_SLOTS, Header(7, boot, cnt), true, OneSlot(Rec(boot, cnt)))
  {
    OneSlotKnows(Rec(boot, cnt));
    assert !NO_SLOTS[0].active;
    hide Lookup, OneSlot;
    assert Lookup(NO_SLOTS, 7) == None;
  }

  lemma NextPacket(r: Rec, boot: U32, cnt: U16)
    requires boot != r.boot
    ensures Handles(OneSlot(r), Header(7, boot, cnt), true, OneSlot(Rec(boot, cnt)))
  {
    OneSlotKnows(r);
    OneSlotKnows(Rec(boot, cnt));
    hide Lookup, OneSlot, Unique, Full;
  }

  // A packet of boot 1, one of boot 2, and the first one again: accepted under the same nonce.
  lemma ReplayAfterReboot() returns (ts: seq<seq<Slot>>, ps: seq<Header>, oks: seq<bool>)
    ensures IsRun(ts, ps, oks) && ts[0] == NO_SLOTS && ps == [Header(7, 1, 5), Header(7, 2, 1), Header(7, 1, 5)]
    ensures oks[0] && oks[2]
  {
    FirstPacket(1, 5);
    NextPacket(Rec(1, 5), 2, 1);
    NextPacket(Rec(2, 1), 1, 5);
    hide Handles, OneSlot;
    ts := [NO_SLOTS, OneSlot(Rec(1, 5)), OneSlot(Rec(2, 1)), OneSlot(Rec(1, 5))];
    ps := [Header(7, 1, 5), Header(7, 2, 1), Header(7, 1, 5)];
    oks := [true, true, true];
  }

  lemma HigherPacket(r: Rec, cnt: U16)
    requires cnt > r.last
    ensures Handles(OneSlot(r), Header(7, r.boot, cnt), true, OneSlot(Rec(r.boot, cnt)))
  {
    OneSlotKnows(r);
    OneSlotKnows(Rec(r.boot, cnt));
    hide Lookup, OneSlot, Unique, Full;
  }

  // The boot on record does not tell: here it is the packet's own when it is accepted again.
  lemma ReplayUnderItsBoot() returns (ts: seq<seq<Slot>>, ps: seq<Header>, oks: seq<bool>)
    ensures IsRun(ts, ps, oks) && ts[0] == NO_SLOTS
    ensures ps == [Header(7, 1, 5), Header(7, 2, 1), Header(7, 1, 1), Header(7, 1, 5)]
    ensures oks[0] && oks[3] && Known(ts[3], 7).boot == 1
  {
    FirstPacket(1, 5);
    NextPacket(Rec(1, 5), 2, 1);
    NextPacket(Rec(2, 1), 1, 1);
    HigherPacket(Rec(1, 1), 5);
    OneSlotKnows(Rec(1, 1));
    hide Handles, OneSlot;
    ts := [NO_SLOTS, OneSlot(Rec(1, 5)), OneSlot(Rec(2, 1)), OneSlot(Rec(1, 1)), OneSlot(Rec(1, 5))];
    ps := [Header(7, 1, 5), Header(7, 2, 1), Header(7, 1, 1), Header(7, 1, 5)];
    oks := [true, true, true, true];
  }

  // The first n slots are those of sensors 0 to n - 1.
  function Filled(n: nat): (t: seq<Slot>)
    requires n <= MAX_SENSORS
    ensures |t| == MAX_SENSORS && Unique(t)
  {
    seq(MAX_SENSORS, k requires 0 <= k < MAX_SENSORS => if k < n then Slot(k, 1, 1, true) else Slot(0, 0, 0, false))
  }

  lemma FilledKnows(n: nat, id: U32)
    requires n <= MAX_SENSORS
    ensures Lookup(Filled(n), id) == if id < n then Some(Rec(1, 1)) else None
    ensures Full(Filled(n)) <==> n == MAX_SENSORS
  {
    if id < n { LookupAt(Filled(n), id); }
    if n < MAX_SENSORS { assert !Filled(n)[n].active; }
  }

  lemma FillsNext(n: nat)
    requires n < MAX_SENSORS
    ensures Handles(Filled(n), Header(n, 1, 1), true, Filled(n + 1))
  {
    var m := n + 1;
    var t, u := Filled(n), Filled(m);
    forall id: U32 ensures Lookup(t, id) == if id < n then Some(Rec(1, 1)) else None { FilledKnows(n, id); }
    forall id: U32 ensures Lookup(u, id) == if id < m then Some(Rec(1, 1)) else None { FilledKnows(m, id); }
    FilledKnows(n, 0);
    hide Lookup, Filled, Unique, Full;
  }

  lemma StillFull(cnt: U16)
    ensures Handles(Filled(MAX_SENSORS), Header(1000, 1, cnt), true, Filled(MAX_SENSORS))
  {
    FilledKnows(MAX_SENSORS, 1000);
    hide Lookup, Filled, Unique, Full;
  }

  // A run, one packet longer.
  lemma Extend(ts: seq<seq<Slot>>, ps: seq<Header>, oks: seq<bool>, p: Header, ok: bool, u: seq<Slot>)
      returns (ts2: seq<seq<Slot>>, ps2: seq<Header>, oks2: seq<bool>)
    requires IsRun(ts, ps, oks) && Handles(ts[|ps|], p, ok, u)
    ensures ts2 == ts + [u] && ps2 == ps + [p] && oks2 == oks + [ok] && IsRun(ts2, ps2, oks2)
  {
    hide Handles;
    ts2, ps2, oks2 := ts + [u], ps + [p], oks + [ok];
    forall k | 0 <= k < |ps2| ensures Handles(ts2[k], ps2[k], oks2[k], ts2[k + 1]) {
      if k < |ps| { assert Handles(ts[k], ps[k], oks[k], ts[k + 1]); }
    }
  }

  // From an empty table, the first packets of sixteen sensors fill it, and another sensor's packet is then
  // accepted as often as it comes.
  lemma ReplayWhenFull() returns (ts: seq<seq<Slot>>, ps: seq<Header>, oks: seq<bool>)
    ensures IsRun(ts, ps, oks) && ts[0] == NO_SLOTS && |ps| == MAX_SENSORS + 2
    ensures forall k :: 0 <= k < MAX_SENSORS ==> ps[k] == Header(k, 1, 1)
    ensures ps[MAX_SENSORS] == ps[MAX_SENSORS + 1] == Header(1000, 1, 5) && oks[MAX_SENSORS] && oks[MAX_SENSORS + 1]
  {
    ts, ps, oks := [Filled(0)], [], [];
    assert Filled(0) == NO_SLOTS;
    hide Handles, Filled;
    for n := 0 to MAX_SENSORS
      invariant |ps| == n && IsRun(ts, ps, oks) && ts[n] == Filled(n) && ts[0] == NO_SLOTS
      invariant forall k :: 0 <= k < n ==> ps[k] == Header(k, 1, 1)
    {
      FillsNext(n);
      ts, ps, oks := Extend(ts, ps, oks, Header(n, 1, 1), true, Filled(n + 1));
    }
    StillFull(5);
    ts, ps, oks := Extend(ts, ps, oks, Header(1000, 1, 5), true, Filled(MAX_SENSORS));
    ts, ps, oks := Extend(ts, ps, oks, Header(1000, 1, 5), true, Filled(MAX_SENSORS));
  }
}
