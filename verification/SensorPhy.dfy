/**
 Each listed sensor's primary PHY, learned from its adverts and packed with a count into one byte.

 `Learn` is the byte arithmetic; `Hear` is what it means. The table follows the whitelist through
 reloads by MAC, and goes through NVS as a list of records.
 */
module SensorPhy {
  type Mac = nat

  const UNKNOWN: bv8 := 0
  const ON_1M: bv8 := 1
  const CODED: bv8 := 2
  const MASK: bv8 := 3
  const FLIP_ADVERTS: bv8 := 4

  // `PHY_OF`
  function KnownOf(v: bv8): bv8 {
    v & MASK
  }

  // The byte after an advert heard on PHY `heard` (UNKNOWN: neither 1M nor Coded).
  function Learn(v: bv8, heard: bv8): bv8 {
    var known := v & MASK;
    if heard != UNKNOWN && known != heard then
      var other := (v >> 2) + 1;
      if known == UNKNOWN || other >= FLIP_ADVERTS then heard else known | (other << 2)
    else if heard == known && v != known then known
    else v
  }

  datatype Phy = Unknown | OneM | Coded

  function PhyOf(b: bv8): Phy {
    if b & MASK == ON_1M then OneM else if b & MASK == CODED then Coded else Unknown
  }

  function CountOf(b: bv8): nat {
    if b == 0 then 0 else if b == 1 then 1 else if b == 2 then 2 else 3
  }

  // What the byte holds: the PHY, and how many adverts in a row came on the other one.
  datatype View = View(known: Phy, run: nat)

  function Abs(v: bv8): View {
    View(PhyOf(v), CountOf(v >> 2))
  }

  predicate Sound(v: bv8) {
    v & MASK <= CODED && v >> 2 < FLIP_ADVERTS && (v & MASK == UNKNOWN ==> v == 0)
  }

  // The first advert teaches the PHY; a known one changes on the fourth advert in a row on the other
  // PHY; any advert on its own PHY starts the count over; one on neither PHY teaches nothing.
  function Hear(w: View, heard: Phy): View {
    if heard == Unknown then w
    else if heard == w.known then View(w.known, 0)
    else if w.known == Unknown || w.run >= 3 then View(heard, 0)
    else View(w.known, w.run + 1)
  }

  lemma LearnRefines(v: bv8, heard: bv8)
    requires Sound(v) && heard <= CODED
    ensures Abs(Learn(v, heard)) == Hear(Abs(v), PhyOf(heard)) && Sound(Learn(v, heard))
  {
  }

  function HearAll(w: View, hs: seq<Phy>): View {
    if hs == [] then w else Hear(HearAll(w, hs[..|hs| - 1]), hs[|hs| - 1])
  }

  function LearnAll(v: bv8, hs: seq<bv8>): bv8 {
    if hs == [] then v else Learn(LearnAll(v, hs[..|hs| - 1]), hs[|hs| - 1])
  }

  function Phys(hs: seq<bv8>): (r: seq<Phy>)
    ensures |r| == |hs| && forall k :: 0 <= k < |hs| ==> r[k] == PhyOf(hs[k])
  {
    seq(|hs|, k requires 0 <= k < |hs| => PhyOf(hs[k]))
  }

  // The byte follows its meaning over every sequence of adverts.
  lemma {:induction false} LearnAllRefines(v: bv8, hs: seq<bv8>)
    requires Sound(v) && forall k :: 0 <= k < |hs| ==> hs[k] <= CODED
    ensures Abs(LearnAll(v, hs)) == HearAll(Abs(v), Phys(hs)) && Sound(LearnAll(v, hs))
  {
    hide Learn, Hear, Abs, Sound, PhyOf;
    if hs != [] {
      var n := |hs| - 1;
      LearnAllRefines(v, hs[..n]);
      LearnRefines(LearnAll(v, hs[..n]), hs[n]);
      assert Phys(hs)[..n] == Phys(hs[..n]);
    }
  }

  // The adverts at the end of `hs` in a row not on PHY `k`.
  function Trailing(k: Phy, hs: seq<Phy>): nat {
    if hs == [] || hs[|hs| - 1] == k then 0 else Trailing(k, hs[..|hs| - 1]) + 1
  }

  // No four adverts in a row on the other PHY.
  ghost predicate NoFour(k: Phy, hs: seq<Phy>) {
    forall n :: 0 <= n <= |hs| ==> Trailing(k, hs[..n]) < 4
  }

  ghost predicate AllKnown(hs: seq<Phy>) {
    forall k :: 0 <= k < |hs| ==> hs[k] != Unknown
  }

  // A known PHY is kept while no four adverts in a row come on the other one, and the fourth in a row
  // changes it.
  lemma {:induction false} ChangesOnFourth(k: Phy, hs: seq<Phy>, h: Phy)
    requires k != Unknown && h != Unknown && AllKnown(hs) && NoFour(k, hs)
    ensures HearAll(View(k, 0), hs) == View(k, Trailing(k, hs))
    ensures HearAll(View(k, 0), hs + [h]).known != k <==> !NoFour(k, hs + [h])
    ensures !NoFour(k, hs + [h]) ==> HearAll(View(k, 0), hs + [h]) == View(h, 0)
  {
    if hs != [] {
      var n := |hs| - 1;
      assert forall m :: 0 <= m <= n ==> hs[..n][..m] == hs[..m];
      ChangesOnFourth(k, hs[..n], hs[n]);
      assert hs[..n] + [hs[n]] == hs;
    }
    assert hs[..|hs|] == hs && (hs + [h])[..|hs|] == hs;
    NoFourMore(k, hs, h);
  }

  lemma NoFourMore(k: Phy, hs: seq<Phy>, h: Phy)
    requires NoFour(k, hs)
    ensures NoFour(k, hs + [h]) <==> Trailing(k, hs + [h]) < 4
    ensures Trailing(k, hs + [h]) == if h == k then 0 else Trailing(k, hs) + 1
  {
    var l := hs + [h];
    assert l[..|hs|] == hs && l[..|l|] == l;
    assert forall n :: 0 <= n <= |hs| ==> l[..n] == hs[..n];
  }

  // Changes between known PHYs.
  function Flips(w: View, hs: seq<Phy>): nat {
    if hs == [] then 0
    else
      var n := |hs| - 1;
      var before, after := HearAll(w, hs[..n]), HearAll(w, hs);
      Flips(w, hs[..n]) + if before.known != Unknown && after.known != before.known then 1 else 0
  }

  // They number at most a quarter of the adverts.
  lemma {:induction false} FlipsAreRare(w: View, hs: seq<Phy>)
    ensures 4 * Flips(w, hs) + HearAll(w, hs).run <= |hs| + w.run
  {
    if hs != [] {
      FlipsAreRare(w, hs[..|hs| - 1]);
    }
  }

  // Adverts on neither PHY change nothing.
  function Taught(hs: seq<Phy>): seq<Phy> {
    if hs == [] then []
    else Taught(hs[..|hs| - 1]) + if hs[|hs| - 1] == Unknown then [] else [hs[|hs| - 1]]
  }

  lemma {:induction false} OtherPhysTeachNothing(w: View, hs: seq<Phy>)
    ensures HearAll(w, hs) == HearAll(w, Taught(hs)) && AllKnown(Taught(hs))
  {
    if hs != [] {
      var n := |hs| - 1;
      OtherPhysTeachNothing(w, hs[..n]);
      var before := Taught(hs[..n]);
      if hs[n] == Unknown {
        assert Taught(hs) == before;
      } else {
        assert (before + [hs[n]])[..|before|] == before;
      }
    }
  }

  // ---- The table across reloads ----

  // `wl_find`
  function Find(wl: seq<Mac>, mac: Mac): (r: int)
    ensures -1 <= r < |wl|
    ensures r >= 0 ==> wl[r] == mac && forall k :: 0 <= k < r ==> wl[k] != mac
    ensures r < 0 <==> mac !in wl
  {
    if wl == [] then -1
    else
      var n := |wl| - 1;
      var r := Find(wl[..n], mac);
      if r >= 0 then r else if wl[n] == mac then n else -1
  }

  // The last place of a MAC.
  function FindLast(wl: seq<Mac>, mac: Mac): (r: int)
    ensures -1 <= r < |wl|
    ensures r >= 0 ==> wl[r] == mac && forall k :: r < k < |wl| ==> wl[k] != mac
    ensures r < 0 <==> mac !in wl
  {
    if wl == [] then -1
    else
      var n := |wl| - 1;
      if wl[n] == mac then n
      else FindLast(wl[..n], mac)
  }

  ghost predicate NoRepeat(wl: seq<Mac>) {
    forall i, j :: 0 <= i < j < |wl| ==> wl[i] != wl[j]
  }

  // What entry `i` of the new list gets: its MAC's last value in the old one, at its first place.
  function Carried(prev: seq<Mac>, oldPhy: seq<bv8>, wl: seq<Mac>, i: nat): bv8
    requires i < |wl| && |oldPhy| == |prev|
  {
    var j := FindLast(prev, wl[i]);
    if Find(wl, wl[i]) == i && j >= 0 then oldPhy[j] else UNKNOWN
  }

  lemma CarriedMore(prev: seq<Mac>, oldPhy: seq<bv8>, wl: seq<Mac>, j: nat, i: nat)
    requires |oldPhy| == |prev| && j < |prev| && i < |wl|
    ensures Carried(prev[..j + 1], oldPhy[..j + 1], wl, i) ==
            if i == Find(wl, prev[j]) then oldPhy[j] else Carried(prev[..j], oldPhy[..j], wl, i)
  {
    assert prev[..j + 1][..j] == prev[..j];
    assert FindLast(prev[..j + 1], wl[i]) == if prev[j] == wl[i] then j else FindLast(prev[..j], wl[i]);
  }

  // `memset(phy, PHY_UNKNOWN, ...)`
  method Clear(phy: array<bv8>)
    modifies phy
    ensures forall k :: 0 <= k < phy.Length ==> phy[k] == UNKNOWN
  {
    for i := 0 to phy.Length
      invariant forall k :: 0 <= k < i ==> phy[k] == UNKNOWN
    {
      phy[i] := UNKNOWN;
    }
  }

  // `phy_carry`
  method PhyCarry(prev: seq<Mac>, oldPhy: seq<bv8>, wl: seq<Mac>, phy: array<bv8>) returns (dropped: bool, grew: bool)
    requires |oldPhy| == |prev| && |wl| <= phy.Length
    modifies phy
    ensures forall i :: 0 <= i < |wl| ==> phy[i] == Carried(prev, oldPhy, wl, i)
    ensures forall i :: |wl| <= i < phy.Length ==> phy[i] == UNKNOWN
    ensures dropped <==> exists j :: 0 <= j < |prev| && prev[j] !in wl && KnownOf(oldPhy[j]) != UNKNOWN
    ensures grew <==> exists i :: 0 <= i < |wl| && wl[i] !in prev
  {
    hide KnownOf, Carried;
    Clear(phy);
    dropped := false;
    forall i | 0 <= i < |wl| ensures Carried(prev[..0], oldPhy[..0], wl, i) == UNKNOWN {
      NothingCarried(wl, i);
    }
    for j := 0 to |prev|
      invariant forall i :: 0 <= i < |wl| ==> phy[i] == Carried(prev[..j], oldPhy[..j], wl, i)
      invariant forall i :: |wl| <= i < phy.Length ==> phy[i] == UNKNOWN
      invariant dropped <==> exists k :: 0 <= k < j && prev[k] !in wl && KnownOf(oldPhy[k]) != UNKNOWN
    {
      var at := Find(wl, prev[j]);
      ghost var was := phy[..];
      if at >= 0 {
        phy[at] := oldPhy[j];
      } else if KnownOf(oldPhy[j]) != UNKNOWN {
        dropped := true;
      }
      forall i | 0 <= i < |wl| ensures phy[i] == Carried(prev[..j + 1], oldPhy[..j + 1], wl, i) {
        assert was[i] == Carried(prev[..j], oldPhy[..j], wl, i);
        CarriedMore(prev, oldPhy, wl, j, i);
      }
    }
    assert prev[..|prev|] == prev && oldPhy[..|prev|] == oldPhy;
    grew := false;
    for i := 0 to |wl|
      invariant grew <==> exists k :: 0 <= k < i && wl[k] !in prev
    {
      if Find(prev, wl[i]) < 0 {
        grew := true;
        assert wl[i] !in prev;
        return;
      }
    }
  }

  lemma NothingCarried(wl: seq<Mac>, i: nat)
    requires i < |wl|
    ensures Carried([], [], wl, i) == UNKNOWN
  {
  }

  // A sensor the lookups find at `i` in the old list and at `j` in the new one keeps its byte exactly
  // when the old list's last entry for it holds the same one.
  lemma CarryKeeps(prev: seq<Mac>, oldPhy: seq<bv8>, wl: seq<Mac>, mac: Mac)
    requires |oldPhy| == |prev| && mac in prev && mac in wl
    ensures Carried(prev, oldPhy, wl, Find(wl, mac)) == oldPhy[Find(prev, mac)] <==>
            oldPhy[FindLast(prev, mac)] == oldPhy[Find(prev, mac)]
    ensures NoRepeat(prev) ==> Carried(prev, oldPhy, wl, Find(wl, mac)) == oldPhy[Find(prev, mac)]
  {
    var i, j := Find(prev, mac), FindLast(prev, mac);
    assert i <= j || j <= i;
  }

  // A repeated MAC loses what was learned: the second entry is never heard, and is the one carried.
  lemma CarryLosesRepeated(mac: Mac)
    ensures Carried([mac, mac], [ON_1M, UNKNOWN], [mac, mac], 0) == UNKNOWN
  {
    assert [mac, mac][..1] == [mac];
    assert FindLast([mac, mac], mac) == 1 && Find([mac, mac], mac) == 0;
  }

  // ---- The table in NVS ----

  datatype Rec = Rec(mac: Mac, phy: bv8)

  function SaveOf(wl: seq<Mac>, phy: seq<bv8>): seq<Rec>
    requires |phy| == |wl|
  {
    if wl == [] then []
    else
      var n := |wl| - 1;
      SaveOf(wl[..n], phy[..n]) + if KnownOf(phy[n]) != UNKNOWN then [Rec(wl[n], KnownOf(phy[n]))] else []
  }

  // `phy_save`'s records: the known PHYs.
  method PhySave(wl: seq<Mac>, phy: seq<bv8>) returns (recs: seq<Rec>)
    requires |phy| == |wl|
    ensures recs == SaveOf(wl, phy)
  {
    recs := [];
    for i := 0 to |wl|
      invariant recs == SaveOf(wl[..i], phy[..i])
    {
      assert wl[..i + 1][..i] == wl[..i] && phy[..i + 1][..i] == phy[..i];
      if KnownOf(phy[i]) != UNKNOWN {
        recs := recs + [Rec(wl[i], KnownOf(phy[i]))];
      }
    }
    assert wl[..|wl|] == wl && phy[..|wl|] == phy;
  }

  // What entry `i` gets from the records: the last one for its MAC, at its first place.
  function Loaded(recs: seq<Rec>, wl: seq<Mac>, i: nat): bv8
    requires i < |wl|
  {
    if recs == [] then UNKNOWN
    else
      var r := recs[|recs| - 1];
      if Find(wl, r.mac) == i && (r.phy == ON_1M || r.phy == CODED) then r.phy
      else Loaded(recs[..|recs| - 1], wl, i)
  }

  // A record of no listed sensor, or of no PHY.
  predicate Stale(r: Rec, wl: seq<Mac>) {
    r.mac !in wl || (r.phy != ON_1M && r.phy != CODED)
  }

  // `phy_load`
  method PhyLoad(recs: seq<Rec>, wl: seq<Mac>, phy: array<bv8>) returns (dropped: bool)
    requires |wl| <= phy.Length
    modifies phy
    ensures forall i :: 0 <= i < |wl| ==> phy[i] == Loaded(recs, wl, i)
    ensures forall i :: |wl| <= i < phy.Length ==> phy[i] == UNKNOWN
    ensures dropped <==> exists k :: 0 <= k < |recs| && Stale(recs[k], wl)
  {
    Clear(phy);
    dropped := false;
    for k := 0 to |recs|
      invariant forall i :: 0 <= i < |wl| ==> phy[i] == Loaded(recs[..k], wl, i)
      invariant forall i :: |wl| <= i < phy.Length ==> phy[i] == UNKNOWN
      invariant dropped <==> exists q :: 0 <= q < k && Stale(recs[q], wl)
    {
      var i := Find(wl, recs[k].mac);
      assert recs[..k + 1][..k] == recs[..k];
      if i >= 0 && (recs[k].phy == ON_1M || recs[k].phy == CODED) {
        phy[i] := recs[k].phy;
      } else {
        dropped := true;
      }
    }
    assert recs[..|recs|] == recs;
  }

  // Saved and loaded again, into any list, every sensor that was listed keeps its known PHY, and only
  // those have one.
  lemma {:induction false} SaveLoad(wl: seq<Mac>, phy: seq<bv8>, wl2: seq<Mac>, i: nat)
    requires |phy| == |wl| && NoRepeat(wl) && i < |wl2| && Find(wl2, wl2[i]) == i
    requires forall k :: 0 <= k < |phy| ==> Sound(phy[k])
    ensures Loaded(SaveOf(wl, phy), wl2, i) ==
            if wl2[i] in wl then KnownOf(phy[Find(wl, wl2[i])]) else UNKNOWN
  {
    hide Sound, KnownOf, Loaded;
    if wl == [] {
      assert SaveOf(wl, phy) == [];
      NothingLoaded(wl2, i);
    } else {
      var n := |wl| - 1;
      var recs := SaveOf(wl[..n], phy[..n]);
      SaveLoad(wl[..n], phy[..n], wl2, i);
      SavedOne(recs, wl[n], phy[n], wl2, i);
      assert wl == wl[..n] + [wl[n]];
      if wl2[i] == wl[n] {
        assert forall k :: 0 <= k < n ==> wl[k] != wl[n];
        assert Find(wl, wl2[i]) == n;
      } else {
        assert Find(wl, wl2[i]) == Find(wl[..n], wl2[i]);
      }
    }
  }

  lemma NothingLoaded(wl2: seq<Mac>, i: nat)
    requires i < |wl2|
    ensures Loaded([], wl2, i) == UNKNOWN
  {
  }

  lemma SavedOne(recs: seq<Rec>, mac: Mac, v: bv8, wl2: seq<Mac>, i: nat)
    requires Sound(v) && i < |wl2| && Find(wl2, wl2[i]) == i
    ensures Loaded(recs + if KnownOf(v) != UNKNOWN then [Rec(mac, KnownOf(v))] else [], wl2, i) ==
            if mac == wl2[i] && KnownOf(v) != UNKNOWN then KnownOf(v) else Loaded(recs, wl2, i)
  {
    if KnownOf(v) != UNKNOWN {
      assert (recs + [Rec(mac, KnownOf(v))])[..|recs|] == recs;
      assert KnownOf(v) == ON_1M || KnownOf(v) == CODED;
    } else {
      assert recs + [] == recs;
    }
  }
}
