/**
 Slots, in every run: a scan or Wi-Fi slot in its time is left alone, a lost scan is given up after
 SCAN_GONE_MS, what is over makes room for the next, and a 1M slot does not run into a row's Coded window
 where I8 asks for Wi-Fi between.
 */
module ExecutorSlots {
  import opened Ticks
  import opened RadioTable
  import opened ExecutorSpec
  import opened ExecutorMoves
  import opened RadioHistory
  import opened ExecutorPace
  import opened ExecutorDuties
  import opened ExecutorPulses

  // ---- What a row's slot is ----

  // The slot that runs, or ran last, is the row's own or its lead; a Wi-Fi slot's end is its length after
  // its start, and the gate has been open since it began.
  predicate InRow(x: Exec, now: nat) {
    && SlotOk(x)
    && (x.row != ROW_NONE ==> x.kind == if x.lead then K_W else RowOf(x.row).KindAt(x.slot))
    && (x.row != ROW_NONE ==> x.slotMs == if x.lead then I8_WIFI_MIN_MS else RowOf(x.row).MsAt(x.slot))
    && (WifiSlot(x) ==> x.wEndAt == x.startedAt + FromMs(x.slotMs) && x.retryAt <= now)
  }

  lemma MoveInRow(x: Exec, m: Move, now: nat)
    requires Can(x, m, now) && InRow(x, now)
    ensures InRow(Apply(x, m, now), now)
  {
    hide Since, Signed, RowOf, CodedBudget, RowGapMs, BlindMs, Unset, Covering, Early;
  }

  lemma {:induction false} MovesInRow(x: Exec, now: nat, ms: seq<Move>, y: Exec)
    requires Moved(x, now, ms, y) && InRow(x, now)
    ensures InRow(y, now)
    decreases |ms|
  {
    hide Can, Apply, InRow;
    if ms != [] {
      MoveInRow(x, ms[0], now);
      MovesInRow(Apply(x, ms[0], now), now, ms[1..], y);
    }
  }

  lemma NextInRow(d: Exec, now: nat, want: Row, nextRow: Row, rc: StartRc)
    requires SlotOk(d) && want != ROW_NONE && nextRow != ROW_NONE && d.retryAt <= now && !d.scanOn
    ensures InRow(ExecNextSlot(d, now, want, nextRow, rc), now)
  {
    var q := PickSlot(d, now, want, nextRow);
    assert q.retryAt == d.retryAt && q.scanOn == d.scanOn && q.row != ROW_NONE && SlotOk(q);
    var r := RowOf(q.row);
    var k := if q.lead then K_W else r.KindAt(q.slot);
    var z := q.(slotDone := false, kind := k, slotMs := if q.lead then I8_WIFI_MIN_MS else r.MsAt(q.slot));
    hide PickSlot, RowOf, WifiStart, ScanStart, InRow;
    assert SlotStart(q, now, rc) == if k == K_W then WifiStart(z, now) else ScanStart(z, now, rc);
    hide SlotStart;
    if k == K_W { WifiInRow(z, now); } else { ScanInRow(z, now, rc); }
  }

  predicate OwnSlot(z: Exec) {
    && SlotOk(z) && z.row != ROW_NONE
    && z.kind == (if z.lead then K_W else RowOf(z.row).KindAt(z.slot))
    && z.slotMs == (if z.lead then I8_WIFI_MIN_MS else RowOf(z.row).MsAt(z.slot))
  }

  lemma WifiInRow(z: Exec, now: nat)
    requires OwnSlot(z) && z.retryAt <= now
    ensures InRow(WifiStart(z, now), now)
  {
    hide RowOf, Unset;
  }

  lemma ScanInRow(z: Exec, now: nat, rc: StartRc)
    requires OwnSlot(z) && z.kind != K_W
    ensures InRow(ScanStart(z, now, rc), now)
  {
    hide RowOf, NextGen;
  }

  lemma PassInRow(x: Exec, t: nat, p: PassIn)
    requires Comes(x, t, p) && InRow(x, t)
    ensures InRow(Ended(x, p), p.now) && InRow(Ready(x, p), p.now) && InRow(Pass(x, p), p.now)
  {
    Stages(x, t, p);
    var d := Ready(x, p);
    assert InRow(Ended(x, p), p.now) && InRow(d, p.now) by { ReadyInRow(x, t, p); }
    hide Comes, Pass, Ready, Ended, ExecNextSlot, InRow, Paced, Linked;
    if StartDue(d, p.now, Wanted(d, p.i)) {
      assert d.retryAt <= p.now;
      NextInRow(d, p.now, Wanted(d, p.i), p.i.nextRow, p.i.startRc);
    }
  }

  lemma ReadyInRow(x: Exec, t: nat, p: PassIn)
    requires Comes(x, t, p) && InRow(x, t)
    ensures InRow(Ended(x, p), p.now) && InRow(Ready(x, p), p.now)
  {
    assert InRow(x, p.now);
    hide Good, Paced, Rested, Timely, Take, Settle, Grants, StopOrIdle, Moved, LensOk, Act, InRow;
    var ms := TakeMoves(x, p.now, p.mail, p.dither);
    MovesInRow(x, p.now, ms, Taken(x, p));
    ms := SettleMoves(Taken(x, p), p.now, p.i);
    MovesInRow(Taken(x, p), p.now, ms, Ended(x, p));
    ms := GrantsMoves(Ended(x, p), p.now, p.i);
    MovesInRow(Ended(x, p), p.now, ms, Given(x, p));
    ms := StopMoves(Given(x, p), p.now, p.i);
    MovesInRow(Given(x, p), p.now, ms, Ready(x, p));
  }

  lemma {:induction false} RunInRow(t0: nat, xs: seq<Exec>, ps: seq<PassIn>, k: nat)
    requires IsRun(t0, xs, ps) && k <= |ps|
    ensures InRow(xs[k], TimeAt(t0, ps, k))
  {
    hide *;
    RunLength(t0, xs, ps);
    if k == 0 {
      FirstInRow(t0, xs, ps);
    } else {
      RunInRow(t0, xs, ps, k - 1);
      RunComes(t0, xs, ps, k - 1);
      PassInRow(xs[k - 1], TimeAt(t0, ps, k - 1), ps[k - 1]);
      TimeIs(t0, ps, k);
    }
  }

  lemma FirstInRow(t0: nat, xs: seq<Exec>, ps: seq<PassIn>)
    requires IsRun(t0, xs, ps)
    ensures InRow(xs[0], TimeAt(t0, ps, 0))
  {
    hide Goes;
    InitInRow(t0);
  }

  lemma InitInRow(t0: nat)
    ensures InRow(InitExec(t0), t0)
  {
  }

  // ---- A slot in its time ----

  // A scan that runs, with no end to take, not missing for long and not overdue.
  predicate RunsOn(x: Exec, p: PassIn) {
    StillOut(x, p) && p.now < x.startedAt + FromMs(x.slotMs + OVERDUE_MS)
  }

  lemma ZeroUnset()
    ensures Unset(0)
  {
  }

  lemma SinceIs(now: nat, at: nat)
    requires at <= now < at + WORD
    ensures Since(now, at) == now - at
  {
  }

  lemma ScanEndsNot(x: Exec, t: nat, p: PassIn)
    requires Comes(x, t, p) && RunsOn(x, p)
    ensures Ended(x, p).scanOn && Ended(x, p) == x.(goneAt := Ended(x, p).goneAt) && x.pulse == P_NONE
  {
    ScanAlone(x, t, p);
    assert Taken(x, p) == x by { hide Comes, ScanEnded; }
    hide Comes, RowOf, Taken;
    NotGone(x, p.now, p.i);
    var g := Gone(x, p.now, p.i);
    SinceIs(p.now, x.startedAt);
    hide Gone, Since;
    assert !IsOverdue(g, p.now);
    EndsSkip(g, p.now, p.i);
    SettleIs(x, p.now, p.i);
  }

  lemma ScanPast(x: Exec, t: nat, p: PassIn)
    requires Comes(x, t, p) && x.scanOn
    ensures x.startedAt <= p.now < x.startedAt + MS_WRAP_TICKS
  {
    GoodLater(x, t, p);
    hide Linked, Paced;
  }

  lemma ScanAlone(x: Exec, t: nat, p: PassIn)
    requires Comes(x, t, p) && x.scanOn
    ensures x.pulse == P_NONE && !p.i.conn && x.startedAt <= p.now < x.startedAt + WORD
  {
    assert x.pulse == P_NONE by { hide Linked, Paced, Rested, PassOk; }
    assert Taken(x, p).pulse == P_NONE by { hide Comes, ScanEnded; }
    ScanPast(x, t, p);
    hide Between, Paced, Rested, Take, LensOk;
  }

  lemma NotGone(x: Exec, now: nat, i: Inputs)
    requires x.scanOn && (i.discActive || x.goneAt == 0 || x.goneAt <= now < x.goneAt + GONE_TICKS)
    ensures Gone(x, now, i) == x.(goneAt := Gone(x, now, i).goneAt)
  {
    if x.goneAt <= now < x.goneAt + GONE_TICKS { SinceIs(now, x.goneAt); }
    ZeroUnset();
    hide ScanEnded, Since, SlotOk;
  }

  lemma EndsSkip(g: Exec, now: nat, i: Inputs)
    requires g.scanOn && !IsOverdue(g, now) && g.pulse == P_NONE && !i.conn
    ensures PulseEnd(WifiSlotOver(Overdue(g, now), now), now, i) == g
  {
    hide IsOverdue, ScanEnded, SlotOk, Due;
    assert Overdue(g, now) == g;
    hide Overdue;
    assert WifiSlotOver(g, now) == g;
    hide WifiSlotOver;
  }

  predicate SameSlot(x: Exec, y: Exec) {
    && y.startedAt == x.startedAt && y.gen == x.gen && y.slotMs == x.slotMs && y.kind == x.kind
    && y.row == x.row && y.slot == x.slot
  }

  lemma StillScans(x: Exec, t: nat, p: PassIn)
    requires Comes(x, t, p) && Ended(x, p).scanOn && p.i.synced && Pass(x, p).pulse == P_NONE
    ensures var (b, y) := (Ended(x, p), Pass(x, p));
      y.scanOn && y.log == b.log && SameSlot(b, y)
  {
    Stages(x, t, p);
    PulseKept(x, t, p);
    var (b, g, d) := (Ended(x, p), Given(x, p), Ready(x, p));
    GrantsAre(b, p);
    WifiPulseIs(b, p);
    hide Comes, Ended, Grants, ExecWifiPulse, Pass, Due;
    assert g == b;
    hide Given;
    StopOrIdleIs(g, p);
    hide Ready, ScanStop;
  }

  // In every run a scan in its time is left alone, unless its sync is lost or a pulse begins.
  lemma ScanRunsOn(t0: nat, xs: seq<Exec>, ps: seq<PassIn>, k: nat)
    requires IsRun(t0, xs, ps) && k < |ps| && RunsOn(xs[k], ps[k])
    requires ps[k].i.synced && xs[k + 1].pulse == P_NONE
    ensures var (x, y) := (xs[k], xs[k + 1]);
      y.scanOn && y.log == x.log && SameSlot(x, y)
  {
    RunComes(t0, xs, ps, k);
    hide *;
    ScanEndsNot(xs[k], TimeAt(t0, ps, k), ps[k]);
    StillScans(xs[k], TimeAt(t0, ps, k), ps[k]);
  }

  // The same of a Wi-Fi slot whose end has not come, while anything is wanted.
  lemma WifiEndsNot(x: Exec, t: nat, p: PassIn)
    requires Comes(x, t, p) && WifiSlot(x) && p.now < x.wEndAt
    ensures Ended(x, p) == x.(goneAt := 0) && x.pulse == P_NONE
  {
    assert x.pulse == P_NONE && !p.i.conn && !Due(p.now, x.wEndAt) by { hide Linked; }
    hide Comes, RowOf, Since;
    assert Taken(x, p) == x;
    var g := x.(goneAt := 0);
    assert Gone(x, p.now, p.i) == g && Overdue(g, p.now) == g && WifiSlotOver(g, p.now) == g;
    SettleIs(x, p.now, p.i);
  }

  lemma StillWifi(x: Exec, t: nat, p: PassIn)
    requires Comes(x, t, p) && WifiSlot(Ended(x, p)) && p.i.synced && Pass(x, p).pulse == P_NONE
    requires Pass(x, p).recovery || p.i.wantRow != ROW_NONE
    ensures Pass(x, p) == Ended(x, p)
  {
    Stages(x, t, p);
    PulseKept(x, t, p);
    RecoveryOnly(x, t, p);
    var (b, g, d) := (Ended(x, p), Given(x, p), Ready(x, p));
    GrantsAre(b, p);
    WifiPulseIs(b, p);
    hide Comes, Ended, Grants, ExecWifiPulse, Pass, Due;
    assert g == b;
    assert d == g;
    hide Ready;
  }

  lemma WifiRunsOn(t0: nat, xs: seq<Exec>, ps: seq<PassIn>, k: nat)
    requires IsRun(t0, xs, ps) && k < |ps| && WifiSlot(xs[k]) && ps[k].now < xs[k].wEndAt
    requires ps[k].i.synced && xs[k + 1].pulse == P_NONE && (xs[k + 1].recovery || ps[k].i.wantRow != ROW_NONE)
    ensures xs[k + 1] == xs[k].(goneAt := 0)
  {
    RunComes(t0, xs, ps, k);
    hide Comes, Pass, IsRun, Ended;
    WifiEndsNot(xs[k], TimeAt(t0, ps, k), ps[k]);
    StillWifi(xs[k], TimeAt(t0, ps, k), ps[k]);
  }

  // ... and once its end has come, the next slot starts at once.
  lemma WifiEnds(x: Exec, t: nat, p: PassIn)
    requires Comes(x, t, p) && InRow(x, t) && WifiSlot(x) && p.now >= x.wEndAt
    ensures GateOpen(Ended(x, p), p.now)
    ensures Ended(x, p) == x.(goneAt := 0, slotDone := true, codedLast := false, endedAt := x.wEndAt)
  {
    assert x.pulse == P_NONE && !p.i.conn && x.retryAt <= p.now by { hide Linked; }
    PacedLater(x, t, p.now);
    GoodLater(x, t, p);
    CodedPast(x, p.now);
    assert Due(p.now, x.wEndAt);
    hide Comes, RowOf, Since, Live, InRow, Good, Paced;
    assert Taken(x, p) == x;
    var g := x.(goneAt := 0);
    assert Gone(x, p.now, p.i) == g && Overdue(g, p.now) == g;
    assert WifiSlotOver(g, p.now) == g.(slotDone := true, codedLast := false, endedAt := x.wEndAt);
    SettleIs(x, p.now, p.i);
  }

  lemma WifiGivesWay(t0: nat, xs: seq<Exec>, ps: seq<PassIn>, k: nat)
    requires IsRun(t0, xs, ps) && k < |ps| && WifiSlot(xs[k]) && ps[k].now >= xs[k].wEndAt
    requires ps[k].i.synced && xs[k + 1].pulse == P_NONE
    ensures var (x, y, p) := (xs[k], xs[k + 1], ps[k]);
      && (y.recovery ==> Adds(x, y, Start(p.now, RECOVERY, K_C, p.i.startRc)))
      && (!y.recovery && p.i.wantRow != ROW_NONE ==> WifiSlot(y) || exists o :: Adds(x, y, o) && o.Start?)
  {
    RunInRow(t0, xs, ps, k);
    RunComes(t0, xs, ps, k);
    hide Comes, Pass, IsRun, Ended, InRow, GateOpen, Adds;
    WifiEnds(xs[k], TimeAt(t0, ps, k), ps[k]);
    PassAttempts(xs[k], TimeAt(t0, ps, k), ps[k]);
  }

  // ---- A scan NimBLE dropped ----

  predicate Off(x: Exec) {
    !x.scanOn
  }

  lemma {:induction false} MovesOff(x: Exec, now: nat, ms: seq<Move>, y: Exec)
    requires Moved(x, now, ms, y) && Off(x)
    ensures Off(y)
    decreases |ms|
  {
    hide Can, Apply, Off;
    if ms != [] {
      MoveOff(x, ms[0], now);
      MovesOff(Apply(x, ms[0], now), now, ms[1..], y);
    }
  }

  lemma MoveOff(x: Exec, m: Move, now: nat)
    requires Can(x, m, now) && Off(x)
    ensures Off(Apply(x, m, now))
  {
    hide Since, Signed, RowOf, CodedBudget, RowGapMs, BlindMs, Unset, Covering, Early;
  }

  // A scan that still runs after a pass that did nothing on the radio ran all through it.
  lemma RanThrough(x: Exec, t: nat, p: PassIn)
    requires Comes(x, t, p) && Pass(x, p).scanOn && Pass(x, p).log == x.log
    ensures Taken(x, p).scanOn && Ended(x, p).scanOn && Given(x, p).scanOn && Pass(x, p) == Ready(x, p)
  {
    Stages(x, t, p);
    ReadyNoStart(x, t, p);
    var d := Ready(x, p);
    var want := Wanted(d, p.i);
    if !d.scanOn && StartDue(d, p.now, want) {
      hide Comes, Pass, Ready, ExecNextSlot, PickSlot, RowOf, Signed;
      NextAdds(d, p.now, want, p.i.nextRow, p.i.startRc);
      assert false;
    }
    hide Good, Paced, Rested, Timely, Take, Settle, Grants, StopOrIdle, Moved, LensOk, Act, ExecNextSlot;
    var ms := SettleMoves(Taken(x, p), p.now, p.i);
    if Off(Taken(x, p)) { MovesOff(Taken(x, p), p.now, ms, Ended(x, p)); }
    ms := GrantsMoves(Ended(x, p), p.now, p.i);
    if Off(Ended(x, p)) { MovesOff(Ended(x, p), p.now, ms, Given(x, p)); }
    ms := StopMoves(Given(x, p), p.now, p.i);
    if Off(Given(x, p)) { MovesOff(Given(x, p), p.now, ms, d); }
  }

  // ... and is the same one, not given up.
  lemma SameScan(x: Exec, t: nat, p: PassIn)
    requires Comes(x, t, p) && Pass(x, p).scanOn && Pass(x, p).log == x.log
    ensures Taken(x, p) == x && x.scanOn
    ensures Pass(x, p).goneAt == Gone(x, p.now, p.i).goneAt && Gone(x, p.now, p.i).scanOn
    ensures Pass(x, p).startedAt == x.startedAt && !IsOverdue(Gone(x, p.now, p.i), p.now)
  {
    RanThrough(x, t, p);
    TakenIs(x, t, p);
    EndedScan(x, p.now, p.i);
    KeepsGone(Ended(x, p), p);
    hide Pass, Ready, Settle, Comes, Gone, IsOverdue;
  }

  lemma EndedScan(a: Exec, now: nat, i: Inputs)
    requires Settle(a, now, i).scanOn
    ensures var (g, b) := (Gone(a, now, i), Settle(a, now, i));
      g.scanOn && a.scanOn && !IsOverdue(g, now) && b.goneAt == g.goneAt && b.startedAt == g.startedAt == a.startedAt
  {
    hide *;
    SettleIs(a, now, i);
    var g := Gone(a, now, i);
    PulseEndScan(WifiSlotOver(Overdue(g, now), now), now, i);
    WifiOverScan(Overdue(g, now), now);
    OverdueScan(g, now);
    GoneScan(a, now, i);
  }

  lemma GoneScan(a: Exec, now: nat, i: Inputs)
    ensures var g := Gone(a, now, i); g.startedAt == a.startedAt && (g.scanOn ==> a.scanOn)
  {
    hide *;
    GoneIs(a, now, i);
    LostEnds(a, now);
  }

  lemma OverdueScan(g: Exec, now: nat)
    requires Overdue(g, now).scanOn
    ensures Overdue(g, now) == g && !IsOverdue(g, now)
  {
    hide IsOverdue, Early;
  }

  lemma WifiOverScan(b: Exec, now: nat)
    ensures var c := WifiSlotOver(b, now); c.scanOn == b.scanOn && c.goneAt == b.goneAt && c.startedAt == b.startedAt
  {
    hide Due;
  }

  lemma PulseEndScan(c: Exec, now: nat, i: Inputs)
    ensures var b := PulseEnd(c, now, i); b.scanOn == c.scanOn && b.goneAt == c.goneAt && b.startedAt == c.startedAt
  {
    hide Signed, Owed, PulseIsOver, OverrunDue, SlotOk;
    if c.pulse == P_NONE {
      if i.conn { BeginKeeps(c, now, FOREIGN_MS); }
      hide PulseBegin;
    } else if !PulseIsOver(c, now, i) {
      PulseStays(c, now, i);
      hide PulseEnd;
    } else {
      hide PulseBegin;
      assert PulseEnd(c, now, i).pulse == P_NONE;
    }
  }

  lemma BeginKeeps(c: Exec, now: nat, len: nat)
    ensures var b := PulseBegin(c, P_CONNECT, now, len);
      b.scanOn == c.scanOn && b.goneAt == c.goneAt && b.startedAt == c.startedAt
  {
  }

  lemma KeepsGone(b: Exec, p: PassIn)
    ensures var d := StopOrIdle(Grants(b, p.now, p.i), p.now, p.i); d.goneAt == b.goneAt && d.startedAt == b.startedAt
  {
    var g := Grants(b, p.now, p.i);
    assert g.goneAt == b.goneAt && g.startedAt == b.startedAt by {
      GrantsAre(b, p);
      WifiPulseIs(b, p);
      hide Grants, ExecWifiPulse, Stamp, ClaimCan, WifiCan, FromMs;
    }
    StopOrIdleIs(g, p);
    StopIs(g, p);
    hide *;
  }

  // A scan missing from pass j on is given up by the first pass SCAN_GONE_MS and a tick later.
  lemma {:induction false} MissingSince(t0: nat, xs: seq<Exec>, ps: seq<PassIn>, j: nat, m: nat)
    requires IsRun(t0, xs, ps) && j < m <= |ps| && xs[j].goneAt == 0
    requires forall i :: j <= i < m ==> !ps[i].i.discActive
    requires forall i :: j < i <= m ==> xs[i].scanOn && xs[i].log == xs[j].log
    ensures xs[m].startedAt == xs[j].startedAt <= ps[j].now
    ensures ps[j].now <= xs[m].goneAt <= ps[j].now + 1 && !Unset(xs[m].goneAt)
  {
    hide *;
    RunLength(t0, xs, ps);
    RunComes(t0, xs, ps, m - 1);
    var (x, t, p) := (xs[m - 1], TimeAt(t0, ps, m - 1), ps[m - 1]);
    if m - 1 > j { MissingSince(t0, xs, ps, j, m - 1); }
    SameScan(x, t, p);
    GoneStamp(x, p.now, p.i);
    ScanPast(x, t, p);
    ZeroUnset();
  }

  lemma GoneStamp(x: Exec, now: nat, i: Inputs)
    requires x.scanOn && !i.discActive && Gone(x, now, i).scanOn
    ensures if Unset(x.goneAt) then now <= Gone(x, now, i).goneAt <= now + 1 && !Unset(Gone(x, now, i).goneAt)
            else Gone(x, now, i).goneAt == x.goneAt && Since(now, x.goneAt) < GONE_TICKS
  {
    hide Since;
  }

  lemma LostScanEnds(t0: nat, xs: seq<Exec>, ps: seq<PassIn>, j: nat, m: nat)
    requires IsRun(t0, xs, ps) && j < m < |ps| && xs[j].goneAt == 0
    requires forall i :: j <= i <= m ==> !ps[i].i.discActive
    requires forall i :: j < i <= m ==> xs[i].scanOn && xs[i].log == xs[j].log
    requires ps[m].now >= ps[j].now + GONE_TICKS + 1
    ensures !(xs[m + 1].scanOn && xs[m + 1].log == xs[m].log)
  {
    hide *;
    RunLength(t0, xs, ps);
    RunComes(t0, xs, ps, m);
    var (x, t, p) := (xs[m], TimeAt(t0, ps, m), ps[m]);
    MissingSince(t0, xs, ps, j, m);
    if xs[m + 1].scanOn && xs[m + 1].log == x.log {
      SameScan(x, t, p);
      GoneStamp(x, p.now, p.i);
      ScanPast(x, t, p);
      LongMissing(p.now, ps[j].now, x.goneAt, x.startedAt);
      ZeroUnset();
    }
  }

  lemma LongMissing(now: nat, from: nat, at: nat, startedAt: nat)
    requires startedAt <= from <= at <= from + 1 && from + GONE_TICKS + 1 <= now < startedAt + MS_WRAP_TICKS
    ensures Since(now, at) >= GONE_TICKS
  {
  }

  // A scan with no end SCAN_OVERDUE_MS past its time is given up at once.
  lemma OverdueScanEnds(t0: nat, xs: seq<Exec>, ps: seq<PassIn>, k: nat)
    requires IsRun(t0, xs, ps) && k < |ps| && xs[k].scanOn
    requires ps[k].now >= xs[k].startedAt + FromMs(xs[k].slotMs + OVERDUE_MS)
    ensures !(xs[k + 1].scanOn && xs[k + 1].log == xs[k].log)
  {
    RunComes(t0, xs, ps, k);
    var (x, t, p) := (xs[k], TimeAt(t0, ps, k), ps[k]);
    hide *;
    if xs[k + 1].scanOn && xs[k + 1].log == x.log {
      SameScan(x, t, p);
      ScanPast(x, t, p);
      SinceIs(p.now, x.startedAt);
      GoneKeeps(x, p.now, p.i);
    }
  }

  lemma GoneKeeps(x: Exec, now: nat, i: Inputs)
    requires x.scanOn && Since(now, x.startedAt) >= FromMs(x.slotMs + OVERDUE_MS) && Gone(x, now, i).scanOn
    ensures IsOverdue(Gone(x, now, i), now)
  {
    LostEnds(x, now);
    hide Since, ScanEnded;
  }

  lemma LostEnds(x: Exec, now: nat)
    ensures var y := ScanEnded(x, now, now, true, true, 0); !y.scanOn && y.startedAt == x.startedAt
  {
  }

  // ---- Ends that are no scan's own ----

  lemma LostIs(z: Exec, now: nat)
    ensures Broken(z, ScanEnded(z, now, now, true, true, 0), now, now + SETTLE_TICKS)
  {
  }

  lemma GoneOdd(x: Exec, now: nat, i: Inputs)
    requires x.scanOn
    ensures var g := Gone(x, now, i);
      if g.scanOn then g == x.(goneAt := g.goneAt) else Broken(x, g, now, now + SETTLE_TICKS)
  {
    hide *;
    GoneIs(x, now, i);
    LostIs(x, now);
    LostEnds(x, now);
  }

  lemma GoneIs(x: Exec, now: nat, i: Inputs)
    ensures var g := Gone(x, now, i);
      || (g == x.(goneAt := g.goneAt) && g.scanOn == x.scanOn)
      || (x.scanOn && g == ScanEnded(x, now, now, true, true, 0))
  {
    hide ScanEnded, Since, Unset, Stamp, SlotOk;
    if x.scanOn && !i.discActive && !Unset(x.goneAt) && Since(now, x.goneAt) >= GONE_TICKS {
      assert Gone(x, now, i) == ScanEnded(x, now, now, true, true, 0);
    }
  }

  lemma OverdueOdd(g: Exec, now: nat)
    requires g.scanOn
    ensures var b := Overdue(g, now); if b.scanOn then b == g else Broken(g, b, now, now + SETTLE_TICKS)
  {
    LostIs(Did(g, Cancel(now)), now);
    hide ScanEnded, IsOverdue, SlotOk;
  }

  // Broken off, a scan leaves nothing for the rest of the ends to do.
  lemma RestSkips(b: Exec, now: nat, i: Inputs)
    requires b.row == ROW_NONE && b.pulse == P_NONE && !i.conn
    ensures PulseEnd(WifiSlotOver(b, now), now, i) == b
    ensures !b.scanOn ==> Gone(b, now, i) == b.(goneAt := 0) && Overdue(b, now) == b
  {
    hide ScanEnded, Due, SlotOk, Since, Unset;
  }

  lemma ScanSkips(b: Exec, now: nat, i: Inputs)
    requires b.scanOn && b.pulse == P_NONE && !i.conn
    ensures PulseEnd(WifiSlotOver(b, now), now, i) == b
  {
    hide SlotOk, Due;
  }

  lemma EndsOdd(x: Exec, now: nat, i: Inputs)
    requires x.scanOn && x.pulse == P_NONE && !i.conn
    ensures !Settle(x, now, i).scanOn ==> Broken(x, Settle(x, now, i), now, now + SETTLE_TICKS)
  {
    SettleIs(x, now, i);
    var g := Gone(x, now, i);
    var b := Overdue(g, now);
    GoneOdd(x, now, i);
    if g.scanOn { OverdueOdd(g, now); } else { RestSkips(g, now, i); }
    hide Settle, Gone, Overdue, PulseEnd, WifiSlotOver;
    if b.scanOn { ScanSkips(b, now, i); } else { RestSkips(b, now, i); }
  }

  // However a scan ends but by its own end, the row starts again at its Coded window, no claim may follow,
  // and nothing starts before the settle time, or the time of the scan that was reset early.
  lemma PassOddEnds(x: Exec, t: nat, p: PassIn)
    requires Comes(x, t, p) && x.scanOn && !OwnEnds(x, p)
    ensures !Ended(x, p).scanOn ==> Broken(x, Ended(x, p), p.now,
        if EarlyEnds(x, p) then x.startedAt + FromMs(x.slotMs + 50) else p.now + SETTLE_TICKS)
  {
    ScanAlone(x, t, p);
    TakenIs(x, t, p);
    var a := Taken(x, p);
    hide Comes, Taken, OwnEnds;
    if a.scanOn {
      EndsOdd(x, p.now, p.i);
    } else {
      SettleIs(a, p.now, p.i);
      hide Settle;
      RestSkips(a, p.now, p.i);
      RestSkips(a.(goneAt := 0), p.now, p.i);
    }
  }

  lemma OddEnds(t0: nat, xs: seq<Exec>, ps: seq<PassIn>, k: nat)
    requires IsRun(t0, xs, ps) && k < |ps| && xs[k].scanOn && !OwnEnds(xs[k], ps[k])
    requires !Ended(xs[k], ps[k]).scanOn
    ensures Broken(xs[k], Ended(xs[k], ps[k]), ps[k].now,
        if EarlyEnds(xs[k], ps[k]) then xs[k].startedAt + FromMs(xs[k].slotMs + 50) else ps[k].now + SETTLE_TICKS)
  {
    RunComes(t0, xs, ps, k);
    hide *;
    PassOddEnds(xs[k], TimeAt(t0, ps, k), ps[k]);
  }

  // Overdue with its end still out, it is cancelled.
  lemma OverdueCancelled(t0: nat, xs: seq<Exec>, ps: seq<PassIn>, k: nat)
    requires IsRun(t0, xs, ps) && k < |ps| && StillOut(xs[k], ps[k])
    requires ps[k].now >= xs[k].startedAt + FromMs(xs[k].slotMs + OVERDUE_MS)
    ensures Ended(xs[k], ps[k]).log == xs[k].log + [Cancel(ps[k].now)] && !Ended(xs[k], ps[k]).scanOn
  {
    RunComes(t0, xs, ps, k);
    var (x, t, p) := (xs[k], TimeAt(t0, ps, k), ps[k]);
    hide *;
    PassOverdue(x, t, p);
  }

  // A scan runs with no end stored for it, and is not missing for long.
  predicate StillOut(x: Exec, p: PassIn) {
    && x.scanOn && (p.mail.Some? ==> p.mail.value.gen != x.gen)
    && (p.i.discActive || x.goneAt == 0 || x.goneAt <= p.now < x.goneAt + GONE_TICKS)
  }

  lemma PassOverdue(x: Exec, t: nat, p: PassIn)
    requires Comes(x, t, p) && StillOut(x, p) && p.now >= x.startedAt + FromMs(x.slotMs + OVERDUE_MS)
    ensures Ended(x, p).log == x.log + [Cancel(p.now)] && !Ended(x, p).scanOn
  {
    ScanAlone(x, t, p);
    assert Taken(x, p) == x by { hide Comes, ScanEnded; }
    hide Comes, Taken;
    NotGone(x, p.now, p.i);
    var g := Gone(x, p.now, p.i);
    SinceIs(p.now, x.startedAt);
    hide Gone, Since;
    assert IsOverdue(g, p.now);
    OverdueLog(g, p.now);
    SettleIs(x, p.now, p.i);
    hide Settle, Overdue, IsOverdue;
    RestSkips(Overdue(g, p.now), p.now, p.i);
  }

  lemma OverdueLog(g: Exec, now: nat)
    requires IsOverdue(g, now)
    ensures var b := Overdue(g, now);
      b.log == g.log + [Cancel(now)] && !b.scanOn && b.row == ROW_NONE && b.pulse == g.pulse
  {
    hide IsOverdue, Early, SlotOk;
  }

  // ---- The next slot ----

  // The slots of a row that holds I8: after 1M comes Wi-Fi.
  lemma WifiAfterM(row: Row, slot: nat)
    requires RowOf(row).i8 && slot < RowOf(row).n && RowOf(row).KindAt(slot) == K_M
    ensures RowOf(row).KindAt(if slot + 1 >= RowOf(row).n then 0 else slot + 1) == K_W
  {
  }

  // A 1M slot just ended, and the Coded gap leaves room for a Wi-Fi slot of RP_I8_WIFI_MIN_MS.
  predicate FromM(b: Exec, now: nat) {
    && b.kind == K_M && !b.codedLast && b.endedAt <= now <= b.endedAt + 11
    && 0 < b.codedEndAt <= now && 10 * (now - b.codedEndAt) + I8_WIFI_MIN_MS + JITTER_MS <= GAP_MAX_MS
  }

  lemma LeadBegins(d: Exec, row: Row, now: nat)
    requires FromM(d, now) && !Unset(d.codedEndAt) && RowOf(row).i8
    ensures RowBegin(d, row, now).lead
  {
    hide RowOf, Unset;
    SinceIs(now, d.endedAt);
    SinceIs(now, d.codedEndAt);
  }

  // The scans of a row that holds I8 never follow a 1M slot at once.
  lemma NextFromM(d: Exec, now: nat, want: Row, nextRow: Row)
    requires InRow(d, now) && FromM(d, now) && !Unset(d.codedEndAt) && want != ROW_NONE && nextRow != ROW_NONE
    ensures var q := PickSlot(d, now, want, nextRow);
      RowOf(q.row).i8 ==> (if q.lead then K_W else RowOf(q.row).KindAt(q.slot)) == K_W
  {
    if d.row != want || !d.slotDone {
      PicksAfresh(d, now, want, nextRow);
      hide PickSlot, InRow, FromM, RowBegin, RowOf, Unset;
      if RowOf(want).i8 { LeadBegins(d, want, now); }
    } else {
      assert !d.lead && RowOf(want).KindAt(d.slot) == K_M && d.slot < RowOf(want).n by { hide RowOf; }
      hide InRow;
      TurnFromM(d, now, want, nextRow);
    }
  }

  lemma SlotIn(d: Exec)
    requires SlotOk(d) && d.row != ROW_NONE
    ensures d.slot < RowOf(d.row).n
  {
  }

  lemma TurnFromM(d: Exec, now: nat, want: Row, nextRow: Row)
    requires FromM(d, now) && !Unset(d.codedEndAt) && want != ROW_NONE && nextRow != ROW_NONE
    requires SlotOk(d) && d.row == want && d.slotDone && !d.lead && RowOf(want).KindAt(d.slot) == K_M
    ensures var q := PickSlot(d, now, want, nextRow);
      RowOf(q.row).i8 ==> (if q.lead then K_W else RowOf(q.row).KindAt(q.slot)) == K_W
  {
    hide *;
    if RowOf(want).i8 {
      SlotIn(d);
      WifiAfterM(want, d.slot);
    }
    if d.left > 1 {
      PicksInTurn(d, now, want, nextRow);
    } else {
      PicksNextRow(d, now, want, nextRow);
      var next := if want == RECOVERY then RECOVERY else nextRow;
      if RowOf(next).i8 && next != want { LeadBegins(d, next, now); }
    }
  }

  // Main result (I8): in every run, no scan of a row that holds I8 starts right after a 1M slot while the
  // Coded gap leaves room for Wi-Fi between.
  lemma NoRunFromM(t0: nat, xs: seq<Exec>, ps: seq<PassIn>, k: nat, n: nat)
    requires IsRun(t0, xs, ps) && k < |ps|
    requires |xs[k].log| <= n < |xs[k + 1].log| && xs[k + 1].log[n].Start? && RowOf(xs[k + 1].log[n].row).i8
    ensures !FromM(Ended(xs[k], ps[k]), ps[k].now)
  {
    RunInRow(t0, xs, ps, k);
    RunComes(t0, xs, ps, k);
    hide *;
    PassFromM(xs[k], TimeAt(t0, ps, k), ps[k], n);
  }

  lemma PassFromM(x: Exec, t: nat, p: PassIn, n: nat)
    requires Comes(x, t, p) && InRow(x, t)
    requires |x.log| <= n < |Pass(x, p).log| && Pass(x, p).log[n].Start? && RowOf(Pass(x, p).log[n].row).i8
    ensures !FromM(Ended(x, p), p.now)
  {
    Stages(x, t, p);
    ReadyNoStart(x, t, p);
    PassInRow(x, t, p);
    var d := Ready(x, p);
    var want := Wanted(d, p.i);
    LiveCoded(d, p.now);
    hide Comes, Pass, Ready, PickSlot, ExecNextSlot, RowOf, Given, InRow, Ended, FromM, StartDue;
    if StartDue(d, p.now, want) && FromM(Ended(x, p), p.now) {
      ReadyIsEnded(x, p);
      NoScanFromM(x, d, p, n);
    }
  }

  lemma SlotOf(d: Exec, now: nat)
    requires InRow(d, now)
    ensures SlotOk(d)
  {
  }

  lemma NoScanFromM(x: Exec, d: Exec, p: PassIn, n: nat)
    requires NoStart(x, d) && InRow(d, p.now) && FromM(d, p.now) && !Unset(d.codedEndAt) && p.i.nextRow != ROW_NONE
    requires StartDue(d, p.now, Wanted(d, p.i))
    requires var y := ExecNextSlot(d, p.now, Wanted(d, p.i), p.i.nextRow, p.i.startRc);
      |x.log| <= n < |y.log| && y.log[n].Start?
    ensures var y := ExecNextSlot(d, p.now, Wanted(d, p.i), p.i.nextRow, p.i.startRc); !RowOf(y.log[n].row).i8
  {
    var want := Wanted(d, p.i);
    var y := ExecNextSlot(d, p.now, want, p.i.nextRow, p.i.startRc);
    SlotOf(d, p.now);
    assert want != ROW_NONE;
    hide InRow, FromM, RowOf, StartDue, Wanted;
    NextAdds(d, p.now, want, p.i.nextRow, p.i.startRc);
    NextFromM(d, p.now, want, p.i.nextRow);
    hide PickSlot, ExecNextSlot, SlotOk, Added, NoStart;
    StartIs(x, d, PickSlot(d, p.now, want, p.i.nextRow), y, p.now, p.i.startRc, n);
  }

  lemma LiveCoded(d: Exec, now: nat)
    requires Live(d, now)
    ensures d.codedEndAt != 0 ==> !Unset(d.codedEndAt)
  {
    hide Radio, Paced, LogOk, Owing, CoverEnd, Barrier;
  }

  // A pass that starts something has neither granted nor stopped anything.
  lemma ReadyIsEnded(x: Exec, p: PassIn)
    requires StartDue(Ready(x, p), p.now, Wanted(Ready(x, p), p.i))
    ensures Ready(x, p) == Ended(x, p)
  {
    var (b, g, d) := (Ended(x, p), Given(x, p), Ready(x, p));
    GrantsAre(b, p);
    WifiPulseIs(b, p);
    hide Ended, Grants, ExecWifiPulse, Due, Covering, Stamp, FromMs;
    assert d.pulse == g.pulse;
    assert g == b;
  }

  // A row's first scan: its Coded window, or the slot after it if a Coded window ended last, within one
  // dither and a tick of now.
  predicate FirstOf(row: Row, kind: Kind, b: Exec, now: nat) {
    var r := RowOf(row);
    kind == r.KindAt(if b.codedLast && b.endedAt <= now <= b.endedAt + 11 then r.Next(r.coded) else r.coded)
  }

  // The scan that is next, from the state after the ends: the row's slots in turn (its Coded window after a
  // lead Wi-Fi slot), at the end of its period the policy's next row, and the wanted row from its start
  // when another ran or it was broken off.
  predicate NextScan(b: Exec, p: PassIn, o: Obs)
    requires o.Start?
  {
    var want := if b.recovery then RECOVERY else p.i.wantRow;
    var next := if want == RECOVERY then RECOVERY else p.i.nextRow;
    if b.row == want && b.slotDone then
      if b.lead then o.row == want && o.kind == RowOf(want).KindAt(b.slot)
      else if b.left > 1 || next == want then o.row == want && o.kind == RowOf(want).KindAt(RowOf(want).Next(b.slot))
      else o.row == next && FirstOf(next, o.kind, b, p.now)
    else o.row == want && FirstOf(want, o.kind, b, p.now)
  }

  lemma PlaceScan(b: Exec, q: Exec, p: PassIn, o: Obs)
    requires NextPlace(b, q, p) && o.Start? && o.kind != K_W
    requires o.row == q.row && o.kind == if q.lead then K_W else RowOf(q.row).KindAt(q.slot)
    ensures NextScan(b, p, o)
  {
    hide RowOf, Room;
  }

  // Main result: in every run, each start is of the scan that is next.
  lemma StartsNext(t0: nat, xs: seq<Exec>, ps: seq<PassIn>, k: nat, n: nat)
    requires IsRun(t0, xs, ps) && k < |ps|
    requires |xs[k].log| <= n < |xs[k + 1].log| && xs[k + 1].log[n].Start?
    ensures NextScan(Ended(xs[k], ps[k]), ps[k], xs[k + 1].log[n])
  {
    RunComes(t0, xs, ps, k);
    hide *;
    PassStartsNext(xs[k], TimeAt(t0, ps, k), ps[k], n);
  }

  lemma PassStartsNext(x: Exec, t: nat, p: PassIn, n: nat)
    requires Comes(x, t, p) && |x.log| <= n < |Pass(x, p).log| && Pass(x, p).log[n].Start?
    ensures NextScan(Ended(x, p), p, Pass(x, p).log[n])
  {
    Stages(x, t, p);
    ReadyNoStart(x, t, p);
    var d := Ready(x, p);
    hide Comes, Pass, Ready, PickSlot, ExecNextSlot, RowOf, Given, Ended, StartDue, NextScan, Live;
    if StartDue(d, p.now, Wanted(d, p.i)) {
      ReadyIsEnded(x, p);
      DueStartsNext(x, d, p, n);
    }
  }

  lemma DueStartsNext(x: Exec, d: Exec, p: PassIn, n: nat)
    requires NoStart(x, d) && Live(d, p.now) && SlotOk(d) && p.i.nextRow != ROW_NONE
    requires StartDue(d, p.now, Wanted(d, p.i))
    requires var y := ExecNextSlot(d, p.now, Wanted(d, p.i), p.i.nextRow, p.i.startRc);
      |x.log| <= n < |y.log| && y.log[n].Start?
    ensures var y := ExecNextSlot(d, p.now, Wanted(d, p.i), p.i.nextRow, p.i.startRc); NextScan(d, p, y.log[n])
  {
    var want := Wanted(d, p.i);
    var y := ExecNextSlot(d, p.now, want, p.i.nextRow, p.i.startRc);
    NextAdds(d, p.now, want, p.i.nextRow, p.i.startRc);
    PicksPlace(d, p);
    hide PickSlot, ExecNextSlot, RowOf, StartDue, Wanted, SlotOk, NextScan, NextPlace, Live, Added, NoStart;
    StartIs(x, d, PickSlot(d, p.now, want, p.i.nextRow), y, p.now, p.i.startRc, n);
    PlaceScan(d, PickSlot(d, p.now, want, p.i.nextRow), p, y.log[n]);
  }

  // ---- Where a row stands ----

  // The Coded gap leaves room for a lead Wi-Fi slot.
  predicate Room(b: Exec, now: nat) {
    (10 * (now - b.codedEndAt) + I8_WIFI_MIN_MS + JITTER_MS) % WORD <= GAP_MAX_MS
  }

  // A row begun: at its Coded window or, if one ended last within a dither and a tick, at the slot after
  // it; all its slots ahead; and a Wi-Fi slot leads it exactly when a 1M slot ended last, the row holds I8
  // and I1 leaves room.
  predicate Begun(b: Exec, y: Exec, row: Row, now: nat) {
    var r := RowOf(row);
    var just := b.endedAt <= now <= b.endedAt + 11;
    && y.row == row && y.left == r.n
    && y.slot == (if b.codedLast && just then r.Next(r.coded) else r.coded)
    && y.lead == (b.codedEndAt != 0 && !b.codedLast && just && b.kind == K_M && r.i8 && Room(b, now))
  }

  // The row, slot and slots left after a start, from the state after the ends.
  predicate NextPlace(b: Exec, y: Exec, p: PassIn) {
    var want := if b.recovery then RECOVERY else p.i.wantRow;
    var next := if want == RECOVERY then RECOVERY else p.i.nextRow;
    if b.row == want && b.slotDone then
      if b.lead then y.row == want && y.slot == b.slot && y.left == b.left && !y.lead
      else if b.left > 1 || next == want then
        && y.row == want && y.slot == RowOf(want).Next(b.slot) && !y.lead
        && y.left == if b.left > 1 then b.left - 1 else RowOf(want).n
      else Begun(b, y, next, p.now)
    else Begun(b, y, want, p.now)
  }

  lemma EndedNear(d: Exec, now: nat)
    requires Live(d, now) && d.codedEndAt != 0
    ensures Since(now, d.endedAt) <= 11 <==> now <= d.endedAt + 11
    ensures d.endedAt <= now && d.codedEndAt <= now + 1 && now < d.codedEndAt + MS_WRAP_TICKS && !Unset(d.codedEndAt)
  {
    CodedPast(d, now);
    hide Good;
    SinceIs(now, d.endedAt);
  }

  lemma RoomIs(d: Exec, now: nat)
    requires d.codedEndAt <= now + 1 && now < d.codedEndAt + MS_WRAP_TICKS
    ensures LeadFits(d, now) <==> Room(d, now)
  {
    if d.codedEndAt == now + 1 {
      assert Since(now, d.codedEndAt) == WORD - 1;
      assert (WORD - 1) * 10 == WORD * 9 + (WORD - 10);
      assert Ms(WORD - 1) == WORD - 10;
      assert (WORD - 10 + 400) % WORD == 390;
    } else {
      SinceIs(now, d.codedEndAt);
    }
  }

  lemma BeginsAt(d: Exec, row: Row, now: nat)
    requires Live(d, now) && row != ROW_NONE
    ensures Begun(d, RowBegin(d, row, now), row, now)
  {
    if d.codedEndAt != 0 {
      EndedNear(d, now);
      RoomIs(d, now);
    } else {
      NotCoded(d, now);
    }
    hide Live, RowOf, LeadFits, Room;
    if d.codedEndAt == 0 { assert Unset(0) by { ZeroUnset(); } }
  }

  lemma NotCoded(d: Exec, now: nat)
    requires Live(d, now) && d.codedEndAt == 0
    ensures !d.codedLast
  {
    hide Good;
  }

  lemma PicksPlace(d: Exec, p: PassIn)
    requires Live(d, p.now) && SlotOk(d) && p.i.nextRow != ROW_NONE && StartDue(d, p.now, Wanted(d, p.i))
    ensures NextPlace(d, PickSlot(d, p.now, Wanted(d, p.i), p.i.nextRow), p)
  {
    var (now, want) := (p.now, Wanted(d, p.i));
    assert want == (if d.recovery then RECOVERY else p.i.wantRow) && want != ROW_NONE;
    hide StartDue, Wanted, PickSlot, Live, RowOf, RowBegin, Begun, SlotOk;
    if d.row != want || !d.slotDone {
      PicksAfresh(d, now, want, p.i.nextRow);
      BeginsAt(d, want, now);
    } else if d.lead || d.left > 1 {
      PicksInTurn(d, now, want, p.i.nextRow);
    } else {
      PicksNextRow(d, now, want, p.i.nextRow);
      BeginsAt(d, if want == RECOVERY then RECOVERY else p.i.nextRow, now);
    }
  }

  // Main result: in every run, where a row stands after a pass that starts something and is not refused.
  lemma SlotsInTurn(t0: nat, xs: seq<Exec>, ps: seq<PassIn>, k: nat)
    requires IsRun(t0, xs, ps) && k < |ps|
    requires GateOpen(Ended(xs[k], ps[k]), ps[k].now) && ps[k].i.synced && xs[k + 1].pulse == P_NONE
    requires xs[k + 1].row != ROW_NONE && (xs[k + 1].recovery || ps[k].i.wantRow != ROW_NONE)
    ensures NextPlace(Ended(xs[k], ps[k]), xs[k + 1], ps[k])
  {
    RunComes(t0, xs, ps, k);
    hide *;
    PassInTurn(xs[k], TimeAt(t0, ps, k), ps[k]);
  }

  lemma PassInTurn(x: Exec, t: nat, p: PassIn)
    requires Comes(x, t, p) && GateOpen(Ended(x, p), p.now) && p.i.synced && Pass(x, p).pulse == P_NONE
    requires Pass(x, p).row != ROW_NONE && (Pass(x, p).recovery || p.i.wantRow != ROW_NONE)
    ensures NextPlace(Ended(x, p), Pass(x, p), p)
  {
    Stages(x, t, p);
    ReadyOpen(x, t, p);
    RecoveryOnly(x, t, p);
    PulseKept(x, t, p);
    var d := Ready(x, p);
    OpenIsDue(d, p.now);
    assert StartDue(d, p.now, Wanted(d, p.i)) by { DueNow(x, t, p); }
    ReadyIsEnded(x, p);
    PicksPlace(d, p);
    hide Comes, Pass, Ready, Ended, Live, StartDue, GateOpen;
    PlaceKept(PickSlot(d, p.now, Wanted(d, p.i), p.i.nextRow), p.now, p.i.startRc);
    SamePlace(d, PickSlot(d, p.now, Wanted(d, p.i), p.i.nextRow), Pass(x, p), p);
  }

  lemma SamePlace(b: Exec, q: Exec, y: Exec, p: PassIn)
    requires NextPlace(b, q, p) && y.row == q.row && y.slot == q.slot && y.left == q.left && y.lead == q.lead
    ensures NextPlace(b, y, p)
  {
    hide RowOf;
  }

  lemma PlaceKept(q: Exec, now: nat, rc: StartRc)
    ensures var y := SlotStart(q, now, rc);
      y.row != ROW_NONE ==> y.row == q.row && y.slot == q.slot && y.left == q.left && y.lead == q.lead
  {
    hide RowOf, Unset, NextGen;
  }

  lemma DueNow(x: Exec, t: nat, p: PassIn)
    requires Comes(x, t, p) && GateOpen(Ready(x, p), p.now) && p.i.synced && Pass(x, p).pulse == P_NONE
    requires Pass(x, p).recovery || p.i.wantRow != ROW_NONE
    ensures StartDue(Ready(x, p), p.now, Wanted(Ready(x, p), p.i))
  {
    Stages(x, t, p);
    var d := Ready(x, p);
    OpenIsDue(d, p.now);
    hide Comes, Pass, Ready, Live, Signed;
    var want := Wanted(d, p.i);
    if StartDue(d, p.now, want) { NextAdds(d, p.now, want, p.i.nextRow, p.i.startRc); }
  }
}
