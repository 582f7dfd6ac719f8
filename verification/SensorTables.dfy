/**
 The leak scanner's tables: the whitelist and the tracking slots, which the NimBLE host task reads and
 claims on every advert while the scan task swaps the list and prunes the slots.

 Each method below is one critical section, or a lookup inside one. `Tables` is the value of the
 arrays between two sections; the methods are proved to compute its functions, and the argument that
 a listed sensor always gets a slot is made on those.
 */
module SensorTables {
  const MAX_TRACKED := 16

  type Mac = nat   // 48 bits

  datatype Data = Data(leak: bool, battery: nat, fw: string)

  datatype Slot = Slot(inUse: bool, mac: Mac, data: Data, seen: bool, eventTick: nat, healthTick: nat)

  const FREE := Slot(false, 0, Data(false, 0, ""), false, 0, 0)

  datatype Tables = Tables(list: seq<Mac>, slots: seq<Slot>)

  predicate Wf(t: Tables) {
    |t.list| <= MAX_TRACKED && |t.slots| == MAX_TRACKED
  }

  // In-use slots hold pairwise distinct MACs, all on the list.
  ghost predicate SlotsOk(t: Tables) {
    && Wf(t)
    && (forall k :: 0 <= k < |t.slots| && t.slots[k].inUse ==> t.slots[k].mac in t.list)
    && (forall j, k :: 0 <= j < k < |t.slots| && t.slots[j].inUse && t.slots[k].inUse ==>
        t.slots[j].mac != t.slots[k].mac)
  }

  predicate Holds(s: Slot, mac: Mac) {
    s.inUse && s.mac == mac
  }

  // `r` is the first index with slot `p`, or -1.
  ghost predicate IsFirst<T(!new)>(r: int, s: seq<T>, p: T -> bool) {
    -1 <= r < |s| && (forall k :: 0 <= k < (if r < 0 then |s| else r) ==> !p(s[k])) && (r >= 0 ==> p(s[r]))
  }

  // The slot a listed MAC gets: its own, or the first free one, cleared for it.
  function Claim(t: Tables, mac: Mac, own: int, free: int): Tables
    requires -1 <= own < |t.slots| && -1 <= free < |t.slots|
  {
    if own < 0 && free >= 0 then t.(slots := t.slots[free := FREE.(inUse := true, mac := mac)]) else t
  }

  function FirstHolding(slots: seq<Slot>, mac: Mac, k: nat): (r: int)
    requires k <= |slots|
    ensures -1 <= r < |slots|
    ensures r >= 0 ==> Holds(slots[r], mac)
    ensures forall j :: k <= j < (if r < 0 then |slots| else r) ==> !Holds(slots[j], mac)
    decreases |slots| - k
  {
    if k == |slots| then -1 else if Holds(slots[k], mac) then k else FirstHolding(slots, mac, k + 1)
  }

  function FirstFree(slots: seq<Slot>, k: nat): (r: int)
    requires k <= |slots|
    ensures -1 <= r < |slots|
    ensures r >= 0 ==> !slots[r].inUse
    ensures forall j :: k <= j < (if r < 0 then |slots| else r) ==> slots[j].inUse
    decreases |slots| - k
  {
    if k == |slots| then -1 else if !slots[k].inUse then k else FirstFree(slots, k + 1)
  }

  // The lookup section for a listed MAC: the tables after it, and its slot.
  function LookupAt(t: Tables, mac: Mac): (Tables, int) {
    var own := FirstHolding(t.slots, mac, 0);
    var free := FirstFree(t.slots, 0);
    (Claim(t, mac, own, free), if own >= 0 then own else free)
  }

  // The list swapped, and every slot of a MAC no longer on it cleared.
  function Swap(t: Tables, list: seq<Mac>): Tables {
    Tables(list, seq(|t.slots|, k requires 0 <= k < |t.slots| => Pruned(t.slots[k], list)))
  }

  function Pruned(s: Slot, list: seq<Mac>): Slot {
    if s.inUse && s.mac !in list then FREE else s
  }

  class Scanner {
    var whitelist: array<Mac>
    var count: nat
    var sensors: array<Slot>

    ghost predicate Valid()
      reads this
    {
      whitelist.Length == MAX_TRACKED && sensors.Length == MAX_TRACKED && count <= MAX_TRACKED
    }

    ghost function Value(): Tables
      requires Valid()
      reads this, whitelist, sensors
    {
      Tables(whitelist[..count], sensors[..])
    }

    constructor ()
      ensures Valid() && fresh(whitelist) && fresh(sensors)
      ensures SlotsOk(Value()) && Value().list == []
    {
      whitelist := new Mac[MAX_TRACKED](_ => 0);
      sensors := new Slot[MAX_TRACKED](_ => FREE);
      count := 0;
    }

    method WhitelistFind(mac: Mac) returns (r: int)
      requires Valid()
      ensures IsFirst(r, Value().list, (m: Mac) => m == mac)
    {
      for i := 0 to count
        invariant forall k :: 0 <= k < i ==> whitelist[k] != mac
      {
        if whitelist[i] == mac {
          return i;
        }
      }
      return -1;
    }

    method SensorFind(mac: Mac) returns (r: int)
      requires Valid()
      ensures IsFirst(r, Value().slots, (s: Slot) => Holds(s, mac))
    {
      for i := 0 to MAX_TRACKED
        invariant forall k :: 0 <= k < i ==> !Holds(sensors[k], mac)
      {
        if sensors[i].inUse && sensors[i].mac == mac {
          return i;
        }
      }
      return -1;
    }

    method SensorAlloc(mac: Mac) returns (r: int)
      requires Valid()
      modifies sensors
      ensures Valid() && IsFirst(r, old(Value()).slots, (s: Slot) => !s.inUse)
      ensures Value() == Claim(old(Value()), mac, -1, r)
    {
      for i := 0 to MAX_TRACKED
        invariant sensors[..] == old(sensors[..])
        invariant forall k :: 0 <= k < i ==> sensors[k].inUse
      {
        if !sensors[i].inUse {
          sensors[i] := FREE.(inUse := true, mac := mac);
          return i;
        }
      }
      return -1;
    }

    // The lookup section of an advert: a listed MAC's slot, claimed if it has none.
    method Lookup(mac: Mac) returns (listed: bool, slot: int, snap: Slot)
      requires Valid() && SlotsOk(Value()) && whitelist as object != sensors as object
      modifies sensors
      ensures Valid() && SlotsOk(Value()) && Value().list == old(Value()).list
      ensures listed == (mac in Value().list)
      ensures listed ==> (Value(), slot) == LookupAt(old(Value()), mac)
      ensures !listed ==> Value() == old(Value())
      ensures listed ==> 0 <= slot < MAX_TRACKED && Holds(Value().slots[slot], mac) && snap == Value().slots[slot]
      ensures listed ==> forall k :: 0 <= k < MAX_TRACKED && k != slot ==> Value().slots[k] == old(Value()).slots[k]
      ensures listed ==> Value().slots[slot] == old(Value()).slots[slot] ||
                         (!old(Value()).slots[slot].inUse && !snap.seen)
    {
      slot, snap := -1, FREE;
      ghost var t := Value();
      var wi := WhitelistFind(mac);
      listed := wi >= 0;
      assert listed ==> t.list[wi] == mac;
      if listed {
        slot := SensorFind(mac);
        ghost var own := FirstHolding(t.slots, mac, 0);
        assert slot == own;
        if slot < 0 {
          AlwaysRoom(t, mac);
          slot := SensorAlloc(mac);
          assert slot >= 0;
          assert slot == FirstFree(t.slots, 0);
        }
        snap := sensors[slot];
      }
    }

    // `reload_whitelist`'s section: the list swapped and the slots pruned at once.
    method SwapList(list: array<Mac>, n: nat)
      requires Valid() && list.Length == MAX_TRACKED && n <= MAX_TRACKED
      requires list != whitelist && whitelist as object != sensors as object && list as object != sensors as object
      modifies this`count, whitelist, sensors
      ensures Valid() && whitelist == old(whitelist) && sensors == old(sensors)
      ensures Value() == Swap(old(Value()), list[..n])
    {
      ghost var before := sensors[..];
      for i := 0 to MAX_TRACKED
        invariant forall k :: 0 <= k < i ==> whitelist[k] == list[k]
        invariant sensors[..] == before
      {
        whitelist[i] := list[i];
      }
      count := n;
      assert whitelist[..count] == list[..n];
      for i := 0 to MAX_TRACKED
        invariant count == n && whitelist[..count] == list[..n]
        invariant forall k :: 0 <= k < i ==> sensors[k] == Pruned(before[k], list[..n])
        invariant forall k :: i <= k < MAX_TRACKED ==> sensors[k] == before[k]
      {
        if sensors[i].inUse {
          var w := WhitelistFind(sensors[i].mac);
          assert w >= 0 <==> sensors[i].mac in list[..n];
          if w < 0 {
            sensors[i] := FREE;
          }
        }
      }
    }
  }

  // ---- A listed sensor always gets a slot ----

  function MacsUpTo(slots: seq<Slot>, n: nat): set<Mac>
    requires n <= |slots|
  {
    set k | 0 <= k < n && slots[k].inUse :: slots[k].mac
  }

  lemma {:induction false} DistinctCount(slots: seq<Slot>, n: nat)
    requires n <= |slots| && forall k :: 0 <= k < n ==> slots[k].inUse
    requires forall j, k :: 0 <= j < k < n ==> slots[j].mac != slots[k].mac
    ensures |MacsUpTo(slots, n)| == n
  {
    if n > 0 {
      DistinctCount(slots, n - 1);
      assert MacsUpTo(slots, n) == MacsUpTo(slots, n - 1) + {slots[n - 1].mac};
      assert slots[n - 1].mac !in MacsUpTo(slots, n - 1);
    } else {
      assert MacsUpTo(slots, 0) == {};
    }
  }

  function MacSet(list: seq<Mac>): set<Mac> {
    set m | m in list
  }

  lemma {:induction false} ListCount(list: seq<Mac>)
    ensures |MacSet(list)| <= |list|
  {
    if list == [] {
      assert MacSet(list) == {};
    } else {
      var n := |list| - 1;
      ListCount(list[..n]);
      assert list == list[..n] + [list[n]];
      assert MacSet(list) == MacSet(list[..n]) + {list[n]};
    }
  }

  lemma SubsetCount<T>(a: set<T>, b: set<T>)
    requires a <= b
    ensures |a| <= |b|
  {
    assert b == a + (b - a);
  }

  // A listed MAC without a slot leaves the used slots fewer MACs than the list has.
  lemma UsedAreFewer(t: Tables, mac: Mac)
    requires SlotsOk(t) && mac in t.list
    requires forall s <- t.slots :: !Holds(s, mac)
    ensures |MacsUpTo(t.slots, |t.slots|)| < |t.list|
  {
    var used := MacsUpTo(t.slots, |t.slots|);
    var all := MacSet(t.list);
    ListCount(t.list);
    assert used <= all - {mac} by {
      forall m | m in used ensures m in all - {mac} {
        var k :| 0 <= k < |t.slots| && t.slots[k].inUse && t.slots[k].mac == m;
        assert t.slots[k] in t.slots;
      }
    }
    SubsetCount(used, all - {mac});
  }

  // By pigeonhole, even if the list repeats a MAC.
  lemma AlwaysRoom(t: Tables, mac: Mac)
    requires SlotsOk(t) && mac in t.list
    requires forall s <- t.slots :: !Holds(s, mac)
    ensures exists k :: 0 <= k < |t.slots| && !t.slots[k].inUse
  {
    UsedAreFewer(t, mac);
    if forall k :: 0 <= k < |t.slots| ==> t.slots[k].inUse {
      DistinctCount(t.slots, |t.slots|);
    }
  }

  lemma SwapKeepsSlots(t: Tables, list: seq<Mac>)
    requires SlotsOk(t) && |list| <= MAX_TRACKED
    ensures SlotsOk(Swap(t, list))
    ensures forall k :: 0 <= k < |t.slots| && t.slots[k].inUse && t.slots[k].mac in list ==>
        Swap(t, list).slots[k] == t.slots[k]
  {
  }
}
