/**
 I1, the Coded-gap bound: while no pulse, stop or failed start intervenes, the time from one Coded
 window's end to the next one's start stays within the rows' own gaps, whatever rows the policy
 wants, wherever they switch, and however late the passes that open Wi-Fi slots are.
 */
module CodedGap {
  import opened Ticks
  import opened RadioTable
  import opened ExecutorSpec

  // ---- How far into a row's gap a slot ends ----

  // The row's slots up to and including slot `k`, in ticks.
  function UpTo(r: RowDef, k: nat): nat {
    r.m0 / 10 + (if k >= 1 then r.m1 / 10 else 0) + (if k >= 2 then r.m2 / 10 else 0) +
    (if k >= 3 then r.m3 / 10 else 0)
  }

  // From the Coded window's end to the end of slot `k`, in turn, when nothing is late.
  function Off(r: RowDef, k: nat): int {
    UpTo(r, k) - UpTo(r, r.coded) + if k < r.coded then UpTo(r, 3) else 0
  }

  function IsScan(k: Kind): nat {
    if k == K_W || k == K_NONE then 0 else 1
  }

  function ScansUpTo(r: RowDef, k: nat): nat {
    IsScan(r.k0) + (if k >= 1 then IsScan(r.k1) else 0) + (if k >= 2 then IsScan(r.k2) else 0) +
    (if k >= 3 then IsScan(r.k3) else 0)
  }

  // ... and the scans among those slots.
  function OffScans(r: RowDef, k: nat): int {
    ScansUpTo(r, k) - ScansUpTo(r, r.coded) + if k < r.coded then ScansUpTo(r, 3) else 0
  }

  // A row's own Coded gap, in ticks.
  function GapTicks(r: RowDef): int {
    UpTo(r, 3) - r.MsAt(r.coded) / 10
  }

  // The scans of a row beside its Coded one.
  function GapScans(r: RowDef): int {
    ScansUpTo(r, 3) - 1
  }

  // What the table gives each row that holds I1, slot by slot.
  lemma RowKinds(row: Row, k: nat)
    requires RowOf(row).i1 && k < RowOf(row).n
    ensures var r := RowOf(row); r.KindAt(k) != K_NONE && r.MsAt(k) >= 300 && (KindCoded(r.KindAt(k)) <==> k == r.coded)
  {
  }

  lemma RowOffs(row: Row, k: nat)
    requires RowOf(row).i1 && k < RowOf(row).n && k != RowOf(row).coded
    ensures var r := RowOf(row); 0 <= Off(r, k) <= GapTicks(r)
  {
  }

  lemma RowScans(row: Row, k: nat)
    requires RowOf(row).i1 && k < RowOf(row).n && k != RowOf(row).coded
    ensures var r := RowOf(row); 0 <= OffScans(r, k) <= GapScans(r)
  {
  }

  lemma RowBounds(row: Row)
    requires RowOf(row).i1
    ensures var r := RowOf(row); 0 <= GapTicks(r) <= 120 && 0 <= GapScans(r) <= 1
  {
  }

  lemma RowFacts(row: Row)
    requires RowOf(row).i1
    ensures var r := RowOf(row);
      && (forall k :: 0 <= k < r.n ==>
          r.KindAt(k) != K_NONE && r.MsAt(k) >= 300 && (KindCoded(r.KindAt(k)) <==> k == r.coded))
      && (forall k :: 0 <= k < r.n && k != r.coded ==>
          0 <= Off(r, k) <= GapTicks(r) && 0 <= OffScans(r, k) <= GapScans(r))
      && 0 <= GapTicks(r) <= 120 && 0 <= GapScans(r) <= 1
  {
    hide RowOf, Off, OffScans, GapTicks, GapScans, KindCoded;
    var r := RowOf(row);
    RowBounds(row);
    forall k | 0 <= k < r.n
      ensures r.KindAt(k) != K_NONE && r.MsAt(k) >= 300 && (KindCoded(r.KindAt(k)) <==> k == r.coded)
    {
      RowKinds(row, k);
    }
    forall k | 0 <= k < r.n && k != r.coded
      ensures 0 <= Off(r, k) <= GapTicks(r) && 0 <= OffScans(r, k) <= GapScans(r)
    {
      RowOffs(row, k);
      RowScans(row, k);
    }
  }

  // The next slot's end lies its own length further on.
  lemma OffNext(r: RowDef, k: nat)
    requires 1 <= r.n <= 4 && k < r.n && r.coded < r.n && r.Next(k) != r.coded && r.Compact()
    ensures r.Next(k) < r.n
    ensures Off(r, r.Next(k)) == (if k == r.coded then 0 else Off(r, k)) + r.MsAt(r.Next(k)) / 10
    ensures OffScans(r, r.Next(k)) == (if k == r.coded then 0 else OffScans(r, k)) + IsScan(r.KindAt(r.Next(k)))
  {
  }

  // ---- Undisturbed passes ----

  /** A pass of the kind I1 is about. */
  datatype QuietIn = QuietIn(now: nat, mail: Option<Mail>, dither: nat, i: Inputs)

  /** How late a run is: how long after a slot's end a scan may start, and how long after its duration
      a scan's end may be stamped. It is never stamped before: the start stamp is taken first. */
  datatype Lateness = Lateness(start: nat, end: nat) {
    function PerScan(): nat {
      start + end
    }
  }

  // The lateness of `n` scans.
  function Lag(late: Lateness, n: int): nat
    decreases n
  {
    if n <= 0 then 0 else Lag(late, n - 1) + late.PerScan()
  }

  lemma LagMore(late: Lateness, n: int, k: Kind)
    requires n >= 0
    ensures Lag(late, n + IsScan(k)) == Lag(late, n) + if IsScan(k) == 1 then late.PerScan() else 0
  {
  }

  lemma {:induction false} LagGrows(late: Lateness, m: int, n: int)
    requires m <= n
    ensures Lag(late, m) <= Lag(late, n)
    decreases n - m
  {
    if m < n {
      LagGrows(late, m, n - 1);
    }
  }

  // The slot running, or the last one, ends here.
  function SlotEnd(x: Exec): nat {
    if x.scanOn then x.startedAt + FromMs(x.slotMs)
    else if WifiSlot(x) then x.wEndAt
    else x.endedAt
  }

  predicate QuietInputs(i: Inputs) {
    && i.discActive && i.synced && !i.conn && i.grant == P_NONE && !i.claimWanted && i.startRc == Started
    && i.wantRow != ROW_NONE && i.nextRow != ROW_NONE
    && RowOf(i.wantRow).i1 && RowOf(i.nextRow).i1
  }

  // The running scan's end is stamped at the end of its time or up to `end` ticks later, and taken
  // within a second of that time.
  predicate QuietMail(x: Exec, p: QuietIn, late: Lateness) {
    if x.scanOn then
      p.now < SlotEnd(x) + 100 &&
      (p.mail.Some? ==>
         var m := p.mail.value;
         m.gen == x.gen && m.reasonOk && SlotEnd(x) <= m.at <= SlotEnd(x) + late.end && m.at <= p.now &&
             p.dither <= DITHER_TICKS)
    else p.mail.None?
  }

  function Ready(x: Exec, p: QuietIn): Exec {
    WifiSlotOver(Take(x, p.now, p.mail, p.dither).(goneAt := 0), p.now)
  }

  function QuietPass(x: Exec, p: QuietIn): Exec
    requires SlotOk(x) && p.i.nextRow != ROW_NONE
  {
    Act(Take(x, p.now, p.mail, p.dither), p.now, p.i)
  }

  predicate StartsScan(x: Exec, p: QuietIn)
    requires SlotOk(x) && p.i.nextRow != ROW_NONE
  {
    !Ready(x, p).scanOn && QuietPass(x, p).scanOn
  }

  // A Wi-Fi slot timed from now: the tick the slot before it ended reads as "none".
  predicate StartsUntimed(x: Exec, p: QuietIn)
    requires SlotOk(x) && p.i.nextRow != ROW_NONE
  {
    var b := Ready(x, p);
    !b.scanOn && !WifiSlot(b) && WifiSlot(QuietPass(x, p)) && Unset(b.endedAt)
  }

  predicate QuietOk(x: Exec, t: nat, p: QuietIn, late: Lateness) {
    && SlotOk(x) && QuietInputs(p.i) && QuietMail(x, p, late)
    && t <= p.now < t + HALF / 2 && p.now < x.codedEndAt + MS_SAFE
    && ((StartsScan(x, p) || StartsUntimed(x, p)) && x.row != ROW_NONE ==> p.now <= Ready(x, p).endedAt + late.start)
  }

  const MS_SAFE := 429496600   // just under 2^32 ms, in ticks

  // ---- The invariant ----

  // The latest the slot running, or the last one, ends.
  function LatestEnd(x: Exec, late: Lateness): nat {
    SlotEnd(x) + if x.scanOn then late.end else 0
  }

  // A tick that reads as "none" lies from a to b.
  ghost predicate ZeroIn(a: int, b: int) {
    exists z: int :: a <= z <= b && Unset(z)
  }

  // A Wi-Fi slot of this gap may have been timed from now, and so started late. Such a tick comes once in
  // 2^32, so there is at most one in a gap.
  ghost function Zero(x: Exec, late: Lateness): nat {
    if ZeroIn(x.codedEndAt - 1, x.startedAt) then late.start else 0
  }

  predicate AfterCoded(x: Exec) {
    !x.scanOn && !WifiSlot(x) && x.codedLast
  }

  // Where the running or last slot stands in the gap since the last Coded window.
  ghost predicate InGap(x: Exec, late: Lateness) {
    var r := RowOf(x.row);
    if x.scanOn && KindCoded(x.kind) then
      !x.lead && x.slot == r.coded
    else if AfterCoded(x) then
      !x.lead && x.slot == r.coded && x.codedEndAt == Stamp(x.endedAt)
    else
      && x.codedEndAt != 0
      && (if x.lead then x.kind == K_W && x.slot == r.coded && LatestEnd(x, late) <= x.codedEndAt + 130
          else x.slot != r.coded &&
               LatestEnd(x, late) <= x.codedEndAt + Off(r, x.slot) + Lag(late, OffScans(r, x.slot)) + Zero(x, late))
  }

  // The slot has a length, and the last Coded window ended before its end.
  predicate InOrder(x: Exec) {
    x.startedAt < SlotEnd(x) && (x.codedEndAt <= SlotEnd(x) || (AfterCoded(x) && x.codedEndAt == SlotEnd(x) + 1))
  }

  ghost predicate Quiet(x: Exec, t: nat, late: Lateness) {
    && x.pulse == P_NONE && !x.recovery && SlotOk(x) && x.slotMs <= 1200
    && (x.scanOn ==> x.startedAt <= t && x.kind != K_W)
    && x.endedAt <= t
    && (WifiSlot(x) ==> x.wEndAt <= t + 130)
    && (if x.row == ROW_NONE then !x.scanOn && !x.codedLast && x.codedEndAt == 0 && x.kind == K_NONE
        else RowOf(x.row).i1 && InOrder(x) && (x.scanOn || WifiSlot(x) || x.slotDone) && InGap(x, late))
  }

  // ---- What an undisturbed pass does ----

  // The pass ends the slot that is over and starts the next one due; nothing else.
  lemma QuietPassIs(x: Exec, t: nat, p: QuietIn, late: Lateness)
    requires Quiet(x, t, late) && QuietOk(x, t, p, late)
    ensures var b := Ready(x, p);
      && SlotOk(b)
      && QuietPass(x, p) == if StartDue(b, p.now, p.i.wantRow)
          then ExecNextSlot(b, p.now, p.i.wantRow, p.i.nextRow, Started) else b
  {
    hide Quiet, QuietOk, StartDue, ExecNextSlot, Act, Settle, WifiSlotOver, Take;
    var a := Take(x, p.now, p.mail, p.dither);
    TakeQuiet(x, t, p, late);
    SettleQuiet(a, p.now, p.i);
    RestQuiet(a, p.now, p.i);
  }

  // With nothing to grant and nothing to stop, the rest of a pass is the next slot's start.
  lemma RestQuiet(a: Exec, now: nat, i: Inputs)
    requires SlotOk(a) && QuietInputs(i) && a.pulse == P_NONE && !a.recovery
    requires Settle(a, now, i) == WifiSlotOver(a.(goneAt := 0), now)
    ensures var b := Settle(a, now, i);
      SlotOk(b) && Act(a, now, i) == if StartDue(b, now, i.wantRow)
          then ExecNextSlot(b, now, i.wantRow, i.nextRow, Started) else b
  {
    hide Settle, StartDue, ExecNextSlot, RowOf;
    var b := Settle(a, now, i);
    assert b.pulse == P_NONE && !b.recovery && SlotOk(b);
    hide WifiSlotOver;
    assert Grants(b, now, i) == b;
    assert StopOrIdle(b, now, i) == b && Wanted(b, i) == i.wantRow;
  }

  lemma TakeQuiet(x: Exec, t: nat, p: QuietIn, late: Lateness)
    requires Quiet(x, t, late) && QuietOk(x, t, p, late)
    ensures var a := Take(x, p.now, p.mail, p.dither);
      QuietInputs(p.i) && a.pulse == P_NONE && !a.recovery && SlotOk(a) && a.slotMs <= 1200
      && (a.scanOn ==> a == x && x.startedAt <= p.now < x.startedAt + FromMs(x.slotMs + OVERDUE_MS))
  {
    hide InGap, RowOf, Early, StartsScan;
  }

  lemma SettleQuiet(a: Exec, now: nat, i: Inputs)
    requires a.pulse == P_NONE && QuietInputs(i)
    requires a.scanOn ==> a.slotMs <= 1200 && a.startedAt <= now < a.startedAt + FromMs(a.slotMs + OVERDUE_MS)
    ensures Settle(a, now, i) == WifiSlotOver(a.(goneAt := 0), now)
  {
    hide WifiSlotOver, RowOf;
    assert Gone(a, now, i) == a.(goneAt := 0);
    assert !IsOverdue(a.(goneAt := 0), now);
  }

  // Ending the slot that is over keeps its place in the gap.
  lemma ReadyQuiet(x: Exec, t: nat, p: QuietIn, late: Lateness)
    requires Quiet(x, t, late) && QuietOk(x, t, p, late)
    ensures Quiet(Ready(x, p), p.now, late)
  {
    hide Quiet, StartsScan, StartsUntimed;
    if x.scanOn && p.mail.Some? {
      SlotLength(x, t, late);
      OwnEndNotEarly(x, p.mail.value.at);
      OwnEndQuiet(x, t, p, late);
    } else {
      assert Ready(x, p) == WifiSlotOver(x.(goneAt := 0), p.now);
      OtherQuiet(x, t, p.now, late);
    }
  }

  lemma SlotLength(x: Exec, t: nat, late: Lateness)
    requires Quiet(x, t, late)
    ensures x.slotMs <= 1200
  {
    hide InGap, RowOf;
  }

  lemma OwnEndQuiet(x: Exec, t: nat, p: QuietIn, late: Lateness)
    requires Quiet(x, t, late) && QuietMail(x, p, late) && t <= p.now && x.scanOn && p.mail.Some?
    requires !Early(x, p.mail.value.at, true, false)
    ensures Quiet(Ready(x, p), p.now, late)
  {
    hide RowOf, Off, OffScans, Early, Lag;
  }

  lemma OtherQuiet(x: Exec, t: nat, now: nat, late: Lateness)
    requires Quiet(x, t, late) && t <= now < t + HALF / 2
    ensures Quiet(WifiSlotOver(x.(goneAt := 0), now), now, late)
  {
    hide RowOf, Off, OffScans, Lag;
  }

  lemma OwnEndNotEarly(x: Exec, at: nat)
    requires x.slotMs <= 1200 && x.startedAt + FromMs(x.slotMs) <= at < x.startedAt + FromMs(x.slotMs) + 100
    ensures !Early(x, at, true, false)
  {
    assert Since(at, x.startedAt) == at - x.startedAt;
    WrapOnce(at - x.startedAt + EARLY_TICKS);
  }

  // ---- The start of the next slot ----

  // Between two slots of an undisturbed run.
  ghost predicate AtBoundary(b: Exec, now: nat, late: Lateness) {
    Quiet(b, now, late) && !b.scanOn && !WifiSlot(b)
  }

  // How long after the last Coded window's end the slot before a Coded start may have ended.
  ghost function GapBound(b: Exec, late: Lateness): int {
    if b.lead then 130 else GapTicks(RowOf(b.row)) + Lag(late, GapScans(RowOf(b.row))) + Zero(b, late)
  }

  // Slot `k` of `row`, started at b, ends where it belongs in the gap.
  ghost predicate Fits(b: Exec, row: Row, k: nat, late: Lateness) {
    var r := RowOf(row);
    && k < r.n && k != r.coded && b.codedEndAt != 0 && !KindCoded(r.KindAt(k))
    && b.endedAt + r.MsAt(k) / 10 + (if IsScan(r.KindAt(k)) == 1 then late.PerScan() else 0) <=
       b.codedEndAt + Off(r, k) + Lag(late, OffScans(r, k)) + Zero(b, late)
  }

  // Picking the slot in turn.
  lemma InTurn(b: Exec, now: nat, late: Lateness)
    requires AtBoundary(b, now, late) && b.row != ROW_NONE && !b.lead
    ensures var r := RowOf(b.row); r.Next(b.slot) == r.coded || Fits(b, b.row, r.Next(b.slot), late)
  {
    hide RowOf, Off, OffScans, GapTicks, GapScans, Lag, Zero, IsScan;
    var r := RowOf(b.row);
    RowFacts(b.row);
    if r.Next(b.slot) != r.coded {
      OffNext(r, b.slot);
      LagMore(late, if b.slot == r.coded then 0 else OffScans(r, b.slot), r.KindAt(r.Next(b.slot)));
    }
  }

  // A switch right after a Coded window goes on after the new row's own.
  lemma Afresh(b: Exec, now: nat, late: Lateness, row: Row)
    requires AtBoundary(b, now, late) && b.row != ROW_NONE && b.codedLast && RowOf(row).i1
    ensures var r := RowOf(row); r.Next(r.coded) == r.coded || Fits(b, row, r.Next(r.coded), late)
  {
    hide RowOf, Off, OffScans, GapTicks, GapScans, Lag, Zero, IsScan;
    var r := RowOf(row);
    RowFacts(row);
    if r.Next(r.coded) != r.coded {
      OffNext(r, r.coded);
      LagMore(late, 0, r.KindAt(r.Next(r.coded)));
    }
  }

  // The slot picked is a Coded window, belongs in the gap, or is a lead Wi-Fi slot I1 has room for.
  ghost predicate Picked(b: Exec, p: Exec, now: nat, late: Lateness) {
    && p == b.(row := p.row, slot := p.slot, left := p.left, lead := p.lead)
    && p.row != ROW_NONE && RowOf(p.row).i1 && SlotOk(p)
    && (if p.lead then p.slot == RowOf(p.row).coded && b.codedEndAt != 0 && now <= b.codedEndAt + 100
        else p.slot == RowOf(p.row).coded || Fits(b, p.row, p.slot, late))
  }

  lemma BeginPicks(b: Exec, now: nat, late: Lateness, row: Row)
    requires AtBoundary(b, now, late) && now < b.codedEndAt + MS_SAFE
    requires row != ROW_NONE && RowOf(row).i1
    ensures Picked(b, RowBegin(b, row, now), now, late)
  {
    hide RowOf, Fits, Quiet;
    if b.codedLast && Just(b, now) {
      AtRow(b, now, late);
      Afresh(b, now, late, row);
    } else {
      LeadRoom(b, now, late, row);
    }
  }

  lemma AtRow(b: Exec, now: nat, late: Lateness)
    requires AtBoundary(b, now, late)
    ensures b.codedLast ==> b.row != ROW_NONE
    ensures b.codedEndAt <= now || (b.codedLast && b.endedAt == now && b.codedEndAt == now + 1)
  {
    hide InGap, RowOf;
  }

  lemma LeadRoom(b: Exec, now: nat, late: Lateness, row: Row)
    requires AtBoundary(b, now, late) && now < b.codedEndAt + MS_SAFE
    ensures RowBegin(b, row, now).lead ==> b.codedEndAt != 0 && now <= b.codedEndAt + 100
  {
    AtRow(b, now, late);
    hide Quiet, RowOf, LeadFits, Unset;
    if b.codedEndAt <= now {
      LeadEarly(b, now);
    } else {
      assert Just(b, now);
    }
  }

  lemma LeadEarly(b: Exec, now: nat)
    requires b.codedEndAt <= now < b.codedEndAt + MS_SAFE
    ensures LeadFits(b, now) ==> now <= b.codedEndAt + 100
  {
    var since := now - b.codedEndAt;
    assert Since(now, b.codedEndAt) == since && Ms(since) == 10 * since;
    WrapOnce(10 * since + I8_WIFI_MIN_MS + JITTER_MS);
  }

  lemma PickPicks(b: Exec, now: nat, late: Lateness, want: Row, nextRow: Row)
    requires AtBoundary(b, now, late) && now < b.codedEndAt + MS_SAFE
    requires want != ROW_NONE && nextRow != ROW_NONE && RowOf(want).i1 && RowOf(nextRow).i1 && SlotOk(b)
    ensures Picked(b, PickSlot(b, now, want, nextRow), now, late)
  {
    hide RowOf, Fits, RowBegin, Quiet;
    BeginPicks(b, now, late, want);
    BeginPicks(b, now, late, nextRow);
    if b.row == want && b.slotDone {
      LeadAtCoded(b, now, late);
      if !b.lead { InTurn(b, now, late); }
    }
  }

  lemma LeadAtCoded(b: Exec, now: nat, late: Lateness)
    requires AtBoundary(b, now, late) && b.row != ROW_NONE
    ensures b.lead ==> b.slot == RowOf(b.row).coded
    ensures RowOf(b.row).i1
  {
    hide RowOf, Off, OffScans;
  }

  // The lateness a run allows the slot that starts.
  predicate InTime(b: Exec, p: Exec, now: nat, late: Lateness) {
    ((!p.lead && RowOf(p.row).KindAt(p.slot) != K_W) || Unset(b.endedAt)) && b.row != ROW_NONE ==>
        now <= b.endedAt + late.start
  }

  lemma StartQuiet(b: Exec, p: Exec, now: nat, late: Lateness)
    requires AtBoundary(b, now, late) && Picked(b, p, now, late) && InTime(b, p, now, late)
    requires now < b.codedEndAt + MS_SAFE
    ensures Quiet(SlotStart(p, now, Started), now, late)
  {
    hide RowOf, InGap, Fits, InTime;
    RowKinds(p.row, p.slot);
    AtRow(b, now, late);
    BoundaryOrder(b, now, late);
    StartInGap(b, p, now, late);
    PickedSame(b, p, now, late);
    hide Picked;
    StartRuns(p, now);
  }

  lemma PickedSame(b: Exec, p: Exec, now: nat, late: Lateness)
    requires AtBoundary(b, now, late) && Picked(b, p, now, late)
    ensures p.pulse == P_NONE && !p.recovery && SlotOk(p) && !p.scanOn && p.endedAt <= now
    ensures p.codedEndAt == b.codedEndAt && p.endedAt == b.endedAt && p.row != ROW_NONE && RowOf(p.row).i1
  {
    hide RowOf, InGap, Fits, InOrder;
  }

  // A slot's start, but for its place in the gap.
  lemma StartRuns(p: Exec, now: nat)
    requires p.row != ROW_NONE && !p.scanOn && SlotOk(p) && p.endedAt <= now && p.codedEndAt <= p.endedAt + 1
    requires RowOf(p.row).KindAt(p.slot) != K_NONE && RowOf(p.row).MsAt(p.slot) >= 300
    ensures var y := SlotStart(p, now, Started);
      && y.slotMs <= 1200 && InOrder(y) && (y.scanOn ==> y.startedAt <= now && y.kind != K_W)
      && (WifiSlot(y) ==> y.wEndAt <= now + 130) && (y.scanOn || WifiSlot(y))
      && y.row == p.row && y.slot == p.slot && y.pulse == p.pulse && y.recovery == p.recovery && y.endedAt == p.endedAt
  {
    hide RowOf;
  }

  lemma BoundaryOrder(b: Exec, now: nat, late: Lateness)
    requires AtBoundary(b, now, late)
    ensures b.codedEndAt <= b.endedAt + 1 && (b.row != ROW_NONE ==> b.startedAt < b.endedAt)
  {
    hide InGap, RowOf;
  }

  lemma ScanIs(k: Kind)
    requires k != K_NONE
    ensures IsScan(k) == if k == K_W then 0 else 1
  {
  }

  // The start keeps the allowance of a tick that reads as "none", or takes it.
  lemma ZeroStart(b: Exec, now: nat, late: Lateness, from: nat)
    requires AtBoundary(b, now, late) && b.row != ROW_NONE && now < b.codedEndAt + MS_SAFE
    requires b.endedAt <= from <= now
    ensures var y := b.(startedAt := from);
      Zero(y, late) >= Zero(b, late) && (Unset(b.endedAt) ==> Zero(y, late) >= Zero(b, late) + late.start)
  {
    BoundaryOrder(b, now, late);
    hide Quiet;
    var a := b.codedEndAt - 1;
    if ZeroIn(a, b.startedAt) {
      var z: int :| a <= z <= b.startedAt && Unset(z);
      assert ZeroIn(a, from);
      if Unset(b.endedAt) {
        ZerosApart(z, b.endedAt);
        assert false;
      }
    }
    if Unset(b.endedAt) {
      assert ZeroIn(a, from);
    }
  }

  lemma ZerosApart(y: int, z: int)
    requires Unset(y) && Unset(z) && y < z
    ensures z >= y + WORD
  {
    assert y == WORD * (y / WORD) && z == WORD * (z / WORD);
  }

  lemma StartInGap(b: Exec, p: Exec, now: nat, late: Lateness)
    requires AtBoundary(b, now, late) && Picked(b, p, now, late) && InTime(b, p, now, late)
    requires now < b.codedEndAt + MS_SAFE
    ensures InGap(SlotStart(p, now, Started), late)
  {
    hide RowOf, Off, OffScans, IsScan, Zero, Lag;
    var r := RowOf(p.row);
    RowFacts(p.row);
    ScanIs(r.KindAt(p.slot));
    var y := SlotStart(p, now, Started);
    if !p.lead && p.slot != r.coded {
      FitsHasRow(b, now, late);
      ZeroStart(b, now, late, y.startedAt);
      assert Zero(y, late) == Zero(b.(startedAt := y.startedAt), late) by { SameZero(b, y, late); }
    }
  }

  lemma FitsHasRow(b: Exec, now: nat, late: Lateness)
    requires AtBoundary(b, now, late) && b.codedEndAt != 0
    ensures b.row != ROW_NONE
  {
    hide InGap, RowOf;
  }

  lemma SameZero(b: Exec, y: Exec, late: Lateness)
    requires y.codedEndAt == b.codedEndAt
    ensures Zero(y, late) == Zero(b.(startedAt := y.startedAt), late)
  {
  }

  // The gap a Coded start closes.
  lemma BoundaryGap(b: Exec, now: nat, late: Lateness)
    requires AtBoundary(b, now, late) && b.row != ROW_NONE
    ensures b.codedEndAt != 0 && b.endedAt <= b.codedEndAt + GapBound(b, late)
  {
    hide RowOf, Off, OffScans, GapScans, Lag, Zero;
    RowFacts(b.row);
    if !b.codedLast && !b.lead {
      LagGrows(late, OffScans(RowOf(b.row), b.slot), GapScans(RowOf(b.row)));
    }
  }

  // ---- Runs of undisturbed passes ----

  // The Coded scan this pass starts comes at most this long after the last Coded window's end: the
  // gap of the row that ran, or what I1 leaves a lead Wi-Fi slot, and the lateness of the starts.
  ghost predicate GapKept(x: Exec, p: QuietIn, late: Lateness)
    requires SlotOk(x) && p.i.nextRow != ROW_NONE
  {
    var b := Ready(x, p);
    StartsScan(x, p) && KindCoded(QuietPass(x, p).kind) && b.codedEndAt != 0 ==>
      p.now <= b.codedEndAt + GapBound(b, late) + late.start
  }

  lemma StartFrom(b: Exec, p: QuietIn, late: Lateness)
    requires AtBoundary(b, p.now, late) && SlotOk(b) && QuietInputs(p.i) && p.now < b.codedEndAt + MS_SAFE
    requires var y := ExecNextSlot(b, p.now, p.i.wantRow, p.i.nextRow, Started);
      (y.scanOn || Unset(b.endedAt)) && b.row != ROW_NONE ==> p.now <= b.endedAt + late.start
    ensures var y := ExecNextSlot(b, p.now, p.i.wantRow, p.i.nextRow, Started);
      && Quiet(y, p.now, late)
      && (y.scanOn && b.codedEndAt != 0 ==> p.now <= b.codedEndAt + GapBound(b, late) + late.start)
  {
    hide InGap, PickSlot, RowOf, GapBound, Off, OffScans, Picked;
    PickPicks(b, p.now, late, p.i.wantRow, p.i.nextRow);
    var q := PickSlot(b, p.now, p.i.wantRow, p.i.nextRow);
    StartsWhen(q, p.now);
    StartQuiet(b, q, p.now, late);
    if b.codedEndAt != 0 {
      FitsHasRow(b, p.now, late);
      BoundaryGap(b, p.now, late);
    }
  }

  lemma StartsWhen(q: Exec, now: nat)
    requires !q.scanOn && q.row != ROW_NONE
    ensures SlotStart(q, now, Started).scanOn <==> !q.lead && RowOf(q.row).KindAt(q.slot) != K_W
    ensures SlotStart(q, now, Started).scanOn || WifiSlot(SlotStart(q, now, Started))
  {
    hide RowOf;
  }

  lemma ReadyFacts(x: Exec, t: nat, p: QuietIn, late: Lateness)
    requires Quiet(x, t, late) && QuietOk(x, t, p, late)
    ensures var b := Ready(x, p);
      (b.row == ROW_NONE <==> x.row == ROW_NONE) && p.now < b.codedEndAt + MS_SAFE
  {
    hide InGap, RowOf, StartsScan;
    if x.scanOn && p.mail.Some? {
      OwnEndNotEarly(x, p.mail.value.at);
    }
  }

  lemma QuietKeeps(x: Exec, t: nat, p: QuietIn, late: Lateness)
    requires Quiet(x, t, late) && QuietOk(x, t, p, late)
    ensures Quiet(QuietPass(x, p), p.now, late) && GapKept(x, p, late)
  {
    hide InGap, Ready, ExecNextSlot, RowOf, GapBound, QuietPass, QuietMail;
    QuietPassIs(x, t, p, late);
    ReadyQuiet(x, t, p, late);
    ReadyFacts(x, t, p, late);
    var b := Ready(x, p);
    if StartDue(b, p.now, p.i.wantRow) {
      NextRuns(b, p);
      assert SlotOk(b) && QuietPass(x, p) == ExecNextSlot(b, p.now, p.i.wantRow, p.i.nextRow, Started);
      StartFrom(b, p, late);
    }
  }

  // The slot that starts is a scan or a Wi-Fi slot.
  lemma NextRuns(b: Exec, p: QuietIn)
    requires SlotOk(b) && QuietInputs(p.i) && !b.scanOn
    ensures var y := ExecNextSlot(b, p.now, p.i.wantRow, p.i.nextRow, Started); y.scanOn || WifiSlot(y)
  {
    hide PickSlot, RowOf;
    StartsWhen(PickSlot(b, p.now, p.i.wantRow, p.i.nextRow), p.now);
  }

  ghost predicate Goes(x: Exec, t: nat, p: QuietIn, late: Lateness, y: Exec) {
    QuietOk(x, t, p, late) && y == QuietPass(x, p)
  }

  function TimeAt(t0: nat, ps: seq<QuietIn>, k: nat): nat
    requires k <= |ps|
  {
    if k == 0 then t0 else ps[k - 1].now
  }

  // A run from boot in which no scan starts, and no end is stamped, later than `late` says.
  ghost predicate IsQuietRun(t0: nat, xs: seq<Exec>, ps: seq<QuietIn>, late: Lateness) {
    && |xs| == |ps| + 1 && xs[0] == InitExec(t0)
    && forall k :: 0 <= k < |ps| ==> Goes(xs[k], TimeAt(t0, ps, k), ps[k], late, xs[k + 1])
  }

  lemma {:induction false} QuietRun(t0: nat, xs: seq<Exec>, ps: seq<QuietIn>, late: Lateness, k: nat)
    requires IsQuietRun(t0, xs, ps, late) && k <= |ps|
    ensures Quiet(xs[k], TimeAt(t0, ps, k), late)
  {
    hide Quiet, Goes;
    if k == 0 {
      InitQuiet(t0, late);
    } else {
      QuietRun(t0, xs, ps, late, k - 1);
      assert Goes(xs[k - 1], TimeAt(t0, ps, k - 1), ps[k - 1], late, xs[k]);
      GoesQuiet(xs[k - 1], TimeAt(t0, ps, k - 1), ps[k - 1], late, xs[k]);
    }
  }

  lemma InitQuiet(t0: nat, late: Lateness)
    ensures Quiet(InitExec(t0), t0, late)
  {
  }

  lemma GoesQuiet(x: Exec, t: nat, p: QuietIn, late: Lateness, y: Exec)
    requires Quiet(x, t, late) && Goes(x, t, p, late, y)
    ensures Quiet(y, p.now, late) && GapKept(x, p, late)
  {
    hide Quiet, QuietPass, QuietMail, Ready, GapKept;
    QuietKeeps(x, t, p, late);
  }

  // I1: every Coded scan of the run starts within the gap bound of the last Coded window's end: the
  // row's own gap, the lateness of the scan between the two windows if the row has one, and its own.
  lemma CodedGapHolds(t0: nat, xs: seq<Exec>, ps: seq<QuietIn>, late: Lateness, k: nat)
    requires IsQuietRun(t0, xs, ps, late) && k < |ps|
    ensures SlotOk(xs[k]) && ps[k].i.nextRow != ROW_NONE && GapKept(xs[k], ps[k], late)
  {
    hide Quiet, QuietPass, QuietMail, Ready, GapKept;
    QuietRun(t0, xs, ps, late, k);
    assert Goes(xs[k], TimeAt(t0, ps, k), ps[k], late, xs[k + 1]);
    GoesQuiet(xs[k], TimeAt(t0, ps, k), ps[k], late, xs[k + 1]);
  }

  // When a start's lateness and an end's together are within one dither, no Coded gap is longer than
  // RP_GAP_MAX_MS: but for one that holds a tick that reads as "none", once in 2^32, which may be longer
  // by the lateness of the Wi-Fi slot timed from it.
  lemma CodedGapWithinMax(t0: nat, xs: seq<Exec>, ps: seq<QuietIn>, late: Lateness, k: nat)
    requires IsQuietRun(t0, xs, ps, late) && k < |ps| && 2 * late.start + late.end <= 2 * DITHER_TICKS
    requires SlotOk(xs[k]) && ps[k].i.nextRow != ROW_NONE
    requires StartsScan(xs[k], ps[k]) && KindCoded(QuietPass(xs[k], ps[k]).kind)
    requires Ready(xs[k], ps[k]).codedEndAt != 0
    ensures var b := Ready(xs[k], ps[k]);
      10 * (ps[k].now - b.codedEndAt) <= GAP_MAX_MS + if ZeroIn(b.codedEndAt - 1, b.startedAt)
          then 10 * late.start else 0
  {
    hide Quiet, QuietPass, Ready, RowOf, StartsScan, GapTicks, GapScans, ZeroIn, Lag;
    CodedGapHolds(t0, xs, ps, late, k);
    AllGaps(Ready(xs[k], ps[k]).row, late);
  }

  lemma AllGaps(row: Row, late: Lateness)
    ensures var r := RowOf(row); GapTicks(r) + Lag(late, GapScans(r)) <= 120 + late.PerScan()
  {
    hide Lag, RowOf, GapTicks, GapScans;
    LongestGap(row);
    MostScans(row);
    LagGrows(late, GapScans(RowOf(row)), 1);
    assert Lag(late, 1) == late.PerScan() by { LagMore(late, 0, K_C); LagNone(late); }
  }

  lemma LongestGap(row: Row)
    ensures GapTicks(RowOf(row)) <= 120
  {
  }

  lemma MostScans(row: Row)
    ensures GapScans(RowOf(row)) <= 1
  {
  }

  lemma LagNone(late: Lateness)
    ensures Lag(late, 0) == 0
  {
  }
}
