/**
 What every history of the executor keeps: the settle rule after a cancel, recovery after a long
 pulse, the blind budget, one radio use at a time, and pulses that expire by themselves.

 The properties are stated on the history alone: `EntryOk` says what an entry owes to the ones
 before it. The executor's fields only appear in the invariant that connects the two.
 */
module RadioHistory {
  import opened Ticks
  import opened RadioTable
  import opened ExecutorSpec
  import opened ExecutorMoves

  // 49.7 days: 2^32 ms in ticks. `ticks_ms` overflows beyond it.
  const MS_WRAP_TICKS := 429496729

  // ---- The properties ----

  // The end of the last Coded window that counted: one that ran to its own end, or one stopped after
  // it covered an advert interval (its stamp; 0 for none).
  function CoverEnd(log: seq<Obs>): nat {
    if log == [] then 0 else CoverAfter(CoverEnd(log[..|log| - 1]), log[|log| - 1])
  }

  function CoverAfter(cover: nat, o: Obs): nat {
    match o
    case OwnEnd(_, k, _, at) => if KindCoded(k) then Stamp(at) else cover
    case Stopped(k, from, t) => if KindCoded(k) && t >= from + L_TICKS then Stamp(t) else cover
    case _ => cover
  }

  // A long pulse ended, and no RECOVERY Coded scan has run to its own end since.
  predicate Owing(log: seq<Obs>) {
    log != [] && OwingAfter(Owing(log[..|log| - 1]), CoverEnd(log[..|log| - 1]), log[|log| - 1])
  }

  predicate OwingAfter(owing: bool, cover: nat, o: Obs) {
    if o.OwnEnd? then owing && !(o.row == RECOVERY && o.kind == K_C)
    else owing || (o.Over? && LongBlind(cover, o.t, o.resume, o.synced))
  }

  // A pulse that ended at `t` left BLE blind, since `cover`, longer than the resumed row's own Coded gap
  // (a stamp just moved off 0 lies ahead of its own tick, and reads as long ago).
  predicate LongBlind(cover: nat, t: nat, resume: Row, synced: bool) {
    synced && resume != ROW_NONE && (cover == 0 || cover > t || 10 * (t - cover) > RowGapMs(resume) + JITTER_MS)
  }

  // No scan may be started before this tick: the settle time after the latest cancel.
  function Barrier(log: seq<Obs>): nat {
    if log == [] then 0 else BarrierAfter(Barrier(log[..|log| - 1]), log[|log| - 1])
  }

  function BarrierAfter(b: nat, o: Obs): nat {
    if o.Cancel? && o.t + SETTLE_TICKS > b then o.t + SETTLE_TICKS else b
  }

  // A deadline within RP_BLIND_MAX_MS of a Coded window's end (a tick more when its own stamp was
  // moved off 0).
  predicate WithinBlind(cover: nat, deadline: nat) {
    cover != 0 && (deadline <= cover + 280 || (deadline == cover + 281 && Unset(deadline - 1)))
  }

  predicate EntryOk(before: seq<Obs>, o: Obs) {
    match o
    case Start(t, _, _, _) => Barrier(before) <= t
    case Granted(_, t, d) => !Owing(before) && WithinBlind(CoverEnd(before), d)
    case _ => true
  }

  predicate LogOk(log: seq<Obs>) {
    log == [] || (LogOk(log[..|log| - 1]) && EntryOk(log[..|log| - 1], log[|log| - 1]))
  }

  // At most one of a running scan, an open Wi-Fi slot and a pulse.
  predicate OneUse(x: Exec) {
    (x.scanOn ==> x.pulse == P_NONE) && (WifiSlot(x) ==> x.pulse == P_NONE && !x.scanOn)
  }

  // ---- The invariant inside a pass ----

  predicate WifiPulse(x: Exec) {
    x.pulse != P_NONE && x.pulse != P_CONNECT
  }

  predicate Radio(x: Exec, now: nat) {
    && (x.pulse != P_NONE ==> !x.scanOn && x.row == ROW_NONE)
    && (x.scanOn ==> x.startedAt <= now < x.startedAt + MS_WRAP_TICKS)
    && x.slotMs <= 1200 && x.retryAt <= now + 200
    && RecoverySlot(x) && (x.row == RECOVERY && x.scanOn ==> x.kind == K_C)
    && (WifiPulse(x) ==> x.deadline <= now + 300 && now < x.deadline + MS_WRAP_TICKS)
  }

  predicate Linked(x: Exec, now: nat) {
    && x.codedEndAt == CoverEnd(x.log)
    && (x.codedEndAt == 0 || (!Unset(x.codedEndAt) && x.codedEndAt <= now + 1 && now < x.codedEndAt + MS_WRAP_TICKS))
    && (Owing(x.log) <==> x.recovery)
    && (Barrier(x.log) <= now || (!x.scanOn && Barrier(x.log) <= x.retryAt))
    && LogOk(x.log)
  }

  predicate Good(x: Exec, now: nat) {
    Radio(x, now) && Linked(x, now)
  }

  lemma Append(log: seq<Obs>, o: Obs)
    ensures var l := log + [o];
      && LogOk(l) == (LogOk(log) && EntryOk(log, o))
      && CoverEnd(l) == CoverAfter(CoverEnd(log), o)
      && Owing(l) == OwingAfter(Owing(log), CoverEnd(log), o)
      && Barrier(l) == BarrierAfter(Barrier(log), o)
  {
    hide EntryOk, CoverAfter, OwingAfter, BarrierAfter;
    assert (log + [o])[..|log|] == log;
  }

  lemma RadioMove(x: Exec, now: nat, m: Move)
    requires Radio(x, now) && Can(x, m, now)
    ensures Radio(Apply(x, m, now), now)
  {
    hide Since, Signed, RowOf, CodedBudget, RowGapMs, BlindMs, Unset, Covering, Early;
    if m.Grant? {
      BudgetBound(x, now);
    }
  }

  lemma BudgetBound(x: Exec, now: nat)
    ensures CodedBudget(x, now) <= BLIND_MAX_MS
  {
    hide Since, Covering, Unset;
  }

  lemma EndOwnKeeps(x: Exec, now: nat, at: nat, dither: nat)
    requires Good(x, now) && Can(x, EndOwn(at, dither), now)
    ensures Linked(Apply(x, EndOwn(at, dither), now), now)
  {
    hide RowOf, LogOk, Owing, CoverEnd, Barrier, Since, Unset;
    Append(x.log, OwnEnd(x.row, x.kind, x.startedAt, at));
  }

  lemma EndOddKeeps(x: Exec, now: nat, m: Move)
    requires Good(x, now) && Can(x, m, now) && (m.EndOdd? || m.CancelOverdue?)
    ensures Linked(Apply(x, m, now), now)
  {
    hide RowOf, LogOk, Owing, CoverEnd, Barrier, Since, Unset;
    Append(x.log, Cancel(now));
  }

  lemma StopKeeps(x: Exec, now: nat)
    requires Good(x, now) && Can(x, Stop, now)
    ensures Linked(Apply(x, Stop, now), now)
  {
    hide RowOf, LogOk, Owing, CoverEnd, Barrier, Unset;
    Append(x.log, Cancel(now));
    Append(x.log + [Cancel(now)], Stopped(x.kind, x.startedAt, now));
  }

  lemma EndPulseKeeps(x: Exec, now: nat, i: Inputs)
    requires Good(x, now) && Can(x, EndPulse(i), now)
    ensures Linked(Apply(x, EndPulse(i), now), now)
  {
    hide LogOk, Owing, CoverEnd, Barrier, LongBlind, Owed;
    var o := Over(now, i.resumeRow, i.synced);
    Append(x.log, o);
    LongIsOwed(x, now, i);
    OverIs(x, now, i);
    hide Can, Apply, Radio;
  }

  // The end of a pulse, field by field.
  lemma OverIs(x: Exec, now: nat, i: Inputs)
    requires Can(x, EndPulse(i), now)
    ensures var y := Apply(x, EndPulse(i), now);
      && y.log == x.log + [Over(now, i.resumeRow, i.synced)] && y.codedEndAt == x.codedEndAt && y.scanOn == x.scanOn
      && y.recovery == (x.recovery || Owed(x, now, i))
      && (x.retryAt <= y.retryAt || (y.retryAt == now && Signed(x.retryAt, now) < 0))
  {
    hide Owed, PulseIsOver, Signed;
  }

  lemma LongIsOwed(x: Exec, now: nat, i: Inputs)
    requires x.codedEndAt == 0 || (!Unset(x.codedEndAt) && x.codedEndAt <= now + 1 &&
        now < x.codedEndAt + MS_WRAP_TICKS)
    ensures Owed(x, now, i) <==> LongBlind(x.codedEndAt, now, i.resumeRow, i.synced)
  {
    hide RowOf;
    var gap := RowGapMs(i.resumeRow);
    assert gap <= 4800;
    if x.codedEndAt > now {
      assert Since(now, x.codedEndAt) == WORD - 1;
      assert (WORD - 1) * 10 == WORD * 9 + (WORD - 10);
    } else if x.codedEndAt != 0 {
      assert Since(now, x.codedEndAt) == now - x.codedEndAt;
      assert BlindMs(x, now) == 10 * (now - x.codedEndAt);
    }
  }

  lemma GrantKeeps(x: Exec, now: nat, m: Move)
    requires Good(x, now) && Can(x, m, now) && (m.Grant? || m.Claim?)
    ensures Linked(Apply(x, m, now), now)
  {
    hide RowOf, LogOk, Owing, CoverEnd, Barrier;
    var k := if m.Grant? then m.pulse else P_CONNECT;
    var o := Granted(k, now, Stamp(now + FromMs(m.len)));
    Append(x.log, o);
    GrantInBudget(x, now, m.len);
    assert EntryOk(x.log, o);
  }

  lemma GrantInBudget(x: Exec, now: nat, len: nat)
    requires !x.scanOn && 0 < len <= CodedBudget(x, now)
    requires x.codedEndAt == 0 || (!Unset(x.codedEndAt) && x.codedEndAt <= now + 1 &&
        now < x.codedEndAt + MS_WRAP_TICKS)
    ensures WithinBlind(x.codedEndAt, Stamp(now + FromMs(len)))
  {
  }

  lemma OtherKeeps(x: Exec, now: nat, m: Move)
    requires Good(x, now) && Can(x, m, now) && (m.Note? || m.EndWifi? || m.Idle?)
    ensures Linked(Apply(x, m, now), now)
  {
    hide RowOf, LogOk, Owing, CoverEnd, Barrier, Since, Unset;
  }

  lemma MoveKeeps(x: Exec, now: nat, m: Move)
    requires Good(x, now) && Can(x, m, now)
    ensures Good(Apply(x, m, now), now)
  {
    hide Radio, Linked, Can, Apply;
    RadioMove(x, now, m);
    match m {
      case EndOwn(at, dither) => EndOwnKeeps(x, now, at, dither);
      case EndOdd(_, _, _) => EndOddKeeps(x, now, m);
      case CancelOverdue => EndOddKeeps(x, now, m);
      case Stop => StopKeeps(x, now);
      case EndPulse(i) => EndPulseKeeps(x, now, i);
      case Grant(_, _) => GrantKeeps(x, now, m);
      case Claim(_) => GrantKeeps(x, now, m);
      case _ => OtherKeeps(x, now, m);
    }
  }

  // What a pass leaves beyond the invariant: no scan long overdue, no Wi-Fi pulse past its deadline.
  predicate Timely(x: Exec, now: nat) {
    (x.scanOn ==> now < x.startedAt + 300) && (WifiPulse(x) ==> now < x.deadline)
  }

  lemma TimelyMove(x: Exec, now: nat, m: Move)
    requires Timely(x, now) && Can(x, m, now)
    ensures Timely(Apply(x, m, now), now)
  {
    hide Since, Signed, RowOf, CodedBudget, RowGapMs, BlindMs, Unset, Covering, Early;
  }

  lemma {:induction false} MovesKeep(x: Exec, now: nat, ms: seq<Move>, y: Exec)
    requires Good(x, now) && Moved(x, now, ms, y)
    ensures Good(y, now) && (Timely(x, now) ==> Timely(y, now))
    decreases |ms|
  {
    hide Good, Can, Apply, Timely;
    if ms != [] {
      MoveKeeps(x, now, ms[0]);
      MovesKeep(Apply(x, ms[0], now), now, ms[1..], y);
      if Timely(x, now) { TimelyMove(x, now, ms[0]); }
    }
  }

  // The start of the next slot: a Wi-Fi slot, or a scan no sooner than the settle time allows.
  lemma NextKeeps(x: Exec, now: nat, want: Row, nextRow: Row, rc: StartRc)
    requires Good(x, now) && SlotOk(x) && nextRow != ROW_NONE && StartDue(x, now, want)
    ensures Good(ExecNextSlot(x, now, want, nextRow, rc), now)
    ensures Timely(x, now) ==> Timely(ExecNextSlot(x, now, want, nextRow, rc), now)
  {
    hide PickSlot, SlotStart, Barrier, LogOk, CoverEnd, Owing, RowOf, Signed, Unset;
    DueIsPast(x, now);
    SlotStartKeeps(PickSlot(x, now, want, nextRow), now, rc);
  }

  lemma DueIsPast(x: Exec, now: nat)
    requires Good(x, now) && !x.scanOn && Due(now, x.retryAt)
    ensures Barrier(x.log) <= now
  {
    hide LogOk, Owing, CoverEnd, Barrier, Unset, RowOf;
  }

  lemma SlotStartKeeps(x: Exec, now: nat, rc: StartRc)
    requires Good(x, now) && !x.scanOn && x.pulse == P_NONE && x.row != ROW_NONE && Barrier(x.log) <= now
    ensures Good(SlotStart(x, now, rc), now) && Timely(SlotStart(x, now, rc), now)
  {
    var r := RowOf(x.row);
    var k := if x.lead then K_W else r.KindAt(x.slot);
    var ms := if x.lead then I8_WIFI_MIN_MS else r.MsAt(x.slot);
    var z := x.(slotDone := false, kind := k, slotMs := ms);
    assert x.row == RECOVERY && x.slot == 0 && !x.lead ==> k == K_C by { RecoveryRow(); }
    assert ms <= 1200;
    hide RowOf, WifiStart, ScanStart, Linked;
    assert SlotStart(x, now, rc) == if k == K_W then WifiStart(z, now) else ScanStart(z, now, rc);
    assert Linked(z, now) by { SlotLinked(x, now, z); }
    if k == K_W { WifiStartKeeps(z, now); } else { ScanStartKeeps(z, now, rc); }
  }

  lemma SlotLinked(x: Exec, now: nat, z: Exec)
    requires Linked(x, now) && z == x.(slotDone := z.slotDone, kind := z.kind, slotMs := z.slotMs)
    ensures Linked(z, now)
  {
    hide LogOk, Owing, CoverEnd, Barrier;
  }

  lemma WifiStartKeeps(z: Exec, now: nat)
    requires Good(z, now) && !z.scanOn && z.pulse == P_NONE && Barrier(z.log) <= now
    ensures Good(WifiStart(z, now), now) && Timely(WifiStart(z, now), now)
  {
    hide LogOk, Owing, CoverEnd, Barrier, Unset, RowOf, FromMs;
  }

  lemma ScanStartKeeps(z: Exec, now: nat, rc: StartRc)
    requires Good(z, now) && !z.scanOn && z.pulse == P_NONE && z.row != ROW_NONE && Barrier(z.log) <= now
    requires z.row == RECOVERY ==> z.kind == K_C
    ensures Good(ScanStart(z, now, rc), now) && Timely(ScanStart(z, now, rc), now)
  {
    ScanStartRadio(z, now, rc);
    ScanStartLinked(z, now, rc);
    hide ScanStart, Radio, Linked, Timely;
  }

  lemma ScanStartRadio(z: Exec, now: nat, rc: StartRc)
    requires Radio(z, now) && !z.scanOn && z.pulse == P_NONE && (z.row == RECOVERY ==> z.kind == K_C)
    ensures Radio(ScanStart(z, now, rc), now) && Timely(ScanStart(z, now, rc), now)
  {
    hide NextGen;
  }

  lemma ScanStartLinked(z: Exec, now: nat, rc: StartRc)
    requires Linked(z, now) && !z.scanOn && Barrier(z.log) <= now
    ensures Linked(ScanStart(z, now, rc), now)
  {
    hide NextGen, Linked, Barrier;
    var o := Start(now, z.row, z.kind, rc);
    var m := z.(log := z.log + [o]);
    LinkedAttempt(z, m, now, o);
    if rc.Already? {
      LinkedCancel(m, ScanStart(z, now, rc), now);
    } else {
      LinkedAttempt(z, ScanStart(z, now, rc), now, o);
    }
  }

  lemma LinkedAttempt(z: Exec, y: Exec, now: nat, o: Obs)
    requires Linked(z, now) && Barrier(z.log) <= now && o.Start? && o.t == now
    requires y.log == z.log + [o] && y.codedEndAt == z.codedEndAt && y.recovery == z.recovery
    ensures Linked(y, now) && Barrier(y.log) <= now
  {
    hide LogOk, Owing, CoverEnd, Barrier, Unset;
    Append(z.log, o);
  }

  lemma LinkedCancel(z: Exec, y: Exec, now: nat)
    requires Linked(z, now) && Barrier(z.log) <= now
    requires y.log == z.log + [Cancel(now)] && y.codedEndAt == z.codedEndAt && y.recovery == z.recovery
    requires !y.scanOn && y.retryAt >= now + SETTLE_TICKS
    ensures Linked(y, now)
  {
    hide LogOk, Owing, CoverEnd, Barrier, Unset;
    Append(z.log, Cancel(now));
  }

  lemma RecoveryRow()
    ensures RowOf(RECOVERY).k0 == K_C
  {
  }

  lemma OverdueEnds(x: Exec, now: nat)
    requires x.slotMs <= 1200 && (x.scanOn ==> x.startedAt <= now < x.startedAt + MS_WRAP_TICKS)
    ensures var y := Overdue(x, now); y.scanOn ==> now < y.startedAt + 300
  {
    hide RowOf, Unset, Early;
  }

  lemma OverdueGood(x: Exec, now: nat)
    requires Good(x, now)
    ensures Overdue(x, now).scanOn ==> now < Overdue(x, now).startedAt + 300
  {
    hide Linked, Overdue;
    OverdueEnds(x, now);
  }

  lemma PulseExpires(b: Exec, now: nat, i: Inputs)
    requires Good(WifiSlotOver(b, now), now) && (b.scanOn ==> now < b.startedAt + 300)
    requires i.conn ==> WifiSlotOver(b, now).pulse == P_CONNECT
    ensures Timely(PulseEnd(WifiSlotOver(b, now), now, i), now)
  {
    hide Linked, Unset, BlindMs, RowGapMs;
  }

  lemma SettleEnds(x: Exec, now: nat, i: Inputs)
    requires Good(x, now)
    requires i.conn ==> x.pulse == P_CONNECT
    ensures Timely(Settle(x, now, i), now)
  {
    hide Gone, Overdue, WifiSlotOver, PulseEnd, Good, Timely;
    SettleIs(x, now, i);
    var a := Gone(x, now, i);
    var b := Overdue(a, now);
    var c := WifiSlotOver(b, now);
    var m1 := GoneMoves(x, now, i);
    MovesKeep(x, now, m1, a);
    var m2 := OverdueMoves(a, now);
    MovesKeep(a, now, m2, b);
    var m3 := WifiMoves(b, now);
    MovesKeep(b, now, m3, c);
    OverdueGood(a, now);
    PulseExpires(b, now, i);
  }

  // ---- Runs ----

  // One pass: its tick, the stored end it takes, that end's dither, and the rest of what it reads.
  datatype PassIn = PassIn(now: nat, mail: Option<Mail>, dither: nat, i: Inputs)

  function Pass(x: Exec, p: PassIn): Exec
    requires Admissible(Take(x, p.now, p.mail, p.dither), p.now, p.i)
  {
    Act(Take(x, p.now, p.mail, p.dither), p.now, p.i)
  }

  // A pass after one at `t`: time goes on, by less than 49 days (the last Coded window no older than
  // that either).
  predicate PassOk(x: Exec, t: nat, p: PassIn) {
    && t <= p.now < t + MS_WRAP_TICKS - 1000
    && (x.codedEndAt == 0 || p.now < x.codedEndAt + MS_WRAP_TICKS)
    && MailInTime(x, p.now, p.mail) && p.dither <= DITHER_TICKS
    && Admissible(Take(x, p.now, p.mail, p.dither), p.now, p.i)
  }

  predicate Between(x: Exec, t: nat) {
    Good(x, t) && Timely(x, t)
  }

  lemma GoodLater(x: Exec, t: nat, p: PassIn)
    requires Between(x, t) && PassOk(x, t, p)
    ensures Good(x, p.now)
  {
    hide Admissible, Take, LogOk, Owing, CoverEnd, Barrier;
  }

  lemma PassKeeps(x: Exec, t: nat, p: PassIn)
    requires Between(x, t) && PassOk(x, t, p)
    ensures Between(Pass(x, p), p.now)
  {
    hide Good, Timely, Take, Settle, Grants, StopOrIdle, StartDue, ExecNextSlot, Moved, LensOk, Act;
    GoodLater(x, t, p);
    var a := Take(x, p.now, p.mail, p.dither);
    var ms := TakeMoves(x, p.now, p.mail, p.dither);
    MovesKeep(x, p.now, ms, a);
    var b := Settle(a, p.now, p.i);
    ms := SettleMoves(a, p.now, p.i);
    MovesKeep(a, p.now, ms, b);
    SettleEnds(a, p.now, p.i);
    var c := Grants(b, p.now, p.i);
    ms := GrantsMoves(b, p.now, p.i);
    MovesKeep(b, p.now, ms, c);
    var d := StopOrIdle(c, p.now, p.i);
    ms := StopMoves(c, p.now, p.i);
    MovesKeep(c, p.now, ms, d);
    ActIs(a, p.now, p.i);
    if StartDue(d, p.now, Wanted(d, p.i)) {
      NextKeeps(d, p.now, Wanted(d, p.i), p.i.nextRow, p.i.startRc);
    }
  }

  function TimeAt(t0: nat, ps: seq<PassIn>, k: nat): nat
    requires k <= |ps|
  {
    if k == 0 then t0 else ps[k - 1].now
  }

  predicate Goes(x: Exec, t: nat, p: PassIn, y: Exec) {
    PassOk(x, t, p) && y == Pass(x, p)
  }

  // A run from boot: the state before each pass, and after the last.
  ghost predicate IsRun(t0: nat, xs: seq<Exec>, ps: seq<PassIn>) {
    && |xs| == |ps| + 1 && xs[0] == InitExec(t0)
    && forall k :: 0 <= k < |ps| ==>
         Goes(xs[k], TimeAt(t0, ps, k), ps[k], xs[k + 1])
  }

  lemma GoesKeeps(x: Exec, t: nat, p: PassIn, y: Exec)
    requires Between(x, t) && Goes(x, t, p, y)
    ensures Between(y, p.now)
  {
    hide Pass, Between, Admissible, MailInTime;
    PassKeeps(x, t, p);
  }

  lemma {:induction false} RunKeeps(t0: nat, xs: seq<Exec>, ps: seq<PassIn>, k: nat)
    requires IsRun(t0, xs, ps) && k <= |ps|
    ensures Between(xs[k], TimeAt(t0, ps, k))
  {
    hide Goes, Between;
    if k == 0 {
      InitBetween(t0);
    } else {
      RunKeeps(t0, xs, ps, k - 1);
      assert Goes(xs[k - 1], TimeAt(t0, ps, k - 1), ps[k - 1], xs[k]);
      GoesKeeps(xs[k - 1], TimeAt(t0, ps, k - 1), ps[k - 1], xs[k]);
    }
  }

  lemma InitBetween(t0: nat)
    ensures Between(InitExec(t0), t0)
  {
  }

  // After every pass the radio has at most one use, and a Wi-Fi pulse is never past its deadline.
  lemma RadioIsExclusive(t0: nat, xs: seq<Exec>, ps: seq<PassIn>, k: nat)
    requires IsRun(t0, xs, ps) && k <= |ps|
    ensures OneUse(xs[k])
    ensures WifiPulse(xs[k]) ==> TimeAt(t0, ps, k) < xs[k].deadline
  {
    hide Linked;
    RunKeeps(t0, xs, ps, k);
  }

  lemma {:induction false} EntryAt(log: seq<Obs>, b: nat)
    requires LogOk(log) && b < |log|
    ensures EntryOk(log[..b], log[b])
  {
    hide EntryOk;
    var n := |log| - 1;
    if b < n {
      EntryAt(log[..n], b);
      assert log[..n][..b] == log[..b];
    }
  }

  lemma {:induction false} BarrierCovers(log: seq<Obs>, a: nat)
    requires a < |log| && log[a].Cancel?
    ensures Barrier(log) >= log[a].t + SETTLE_TICKS
  {
    var n := |log| - 1;
    if a < n {
      BarrierCovers(log[..n], a);
    }
  }

  // No scan start is attempted within SCAN_SETTLE_MS of a cancel.
  lemma StartsSettle(t0: nat, xs: seq<Exec>, ps: seq<PassIn>, k: nat, a: nat, b: nat)
    requires IsRun(t0, xs, ps) && k <= |ps|
    requires a < b < |xs[k].log| && xs[k].log[a].Cancel? && xs[k].log[b].Start?
    ensures xs[k].log[b].t >= xs[k].log[a].t + SETTLE_TICKS
  {
    hide Radio, Timely, LogOk, Barrier, CoverEnd, Owing;
    RunKeeps(t0, xs, ps, k);
    EntryAt(xs[k].log, b);
    BarrierCovers(xs[k].log[..b], a);
  }

  // Every pulse's deadline lies within RP_BLIND_MAX_MS of the end of the last Coded window that counted.
  lemma PulsesFitBlindBudget(t0: nat, xs: seq<Exec>, ps: seq<PassIn>, k: nat, b: nat)
    requires IsRun(t0, xs, ps) && k <= |ps|
    requires b < |xs[k].log| && xs[k].log[b].Granted?
    ensures WithinBlind(CoverEnd(xs[k].log[..b]), xs[k].log[b].deadline)
  {
    hide Radio, Timely, LogOk, Barrier, CoverEnd, Owing, WithinBlind;
    RunKeeps(t0, xs, ps, k);
    EntryAt(xs[k].log, b);
  }

  predicate RecoveryEnd(o: Obs) {
    o.OwnEnd? && o.row == RECOVERY && o.kind == K_C
  }

  lemma {:induction false} OwingUntilRecovery(log: seq<Obs>, a: nat)
    requires a < |log| && log[a].Over?
    requires LongBlind(CoverEnd(log[..a]), log[a].t, log[a].resume, log[a].synced)
    requires forall c :: a < c < |log| ==> !RecoveryEnd(log[c])
    ensures Owing(log)
  {
    hide LongBlind, CoverEnd;
    var n := |log| - 1;
    if a < n {
      assert log[..n][..a] == log[..a];
      OwingUntilRecovery(log[..n], a);
      assert !RecoveryEnd(log[n]);
    }
  }

  // After a pulse that left BLE blind longer than the resumed row's gap, no pulse is granted until a
  // RECOVERY Coded scan has run to its own end.
  lemma RecoverySeparates(t0: nat, xs: seq<Exec>, ps: seq<PassIn>, k: nat, a: nat, b: nat)
    requires IsRun(t0, xs, ps) && k <= |ps|
    requires a < b < |xs[k].log| && xs[k].log[a].Over? && xs[k].log[b].Granted?
    requires LongBlind(CoverEnd(xs[k].log[..a]), xs[k].log[a].t, xs[k].log[a].resume, xs[k].log[a].synced)
    ensures exists c :: a < c < b && RecoveryEnd(xs[k].log[c])
  {
    RunLog(t0, xs, ps, k);
    var log := xs[k].log;
    hide *;
    LogSeparates(log, a, b);
  }

  lemma RunLog(t0: nat, xs: seq<Exec>, ps: seq<PassIn>, k: nat)
    requires IsRun(t0, xs, ps) && k <= |ps|
    ensures LogOk(xs[k].log)
  {
    hide Radio, Timely, LogOk, Barrier, CoverEnd, Owing, WithinBlind, LongBlind;
    RunKeeps(t0, xs, ps, k);
  }

  lemma LogSeparates(log: seq<Obs>, a: nat, b: nat)
    requires LogOk(log) && a < b < |log| && log[a].Over? && log[b].Granted?
    requires LongBlind(CoverEnd(log[..a]), log[a].t, log[a].resume, log[a].synced)
    ensures exists c :: a < c < b && RecoveryEnd(log[c])
  {
    hide LogOk, CoverEnd, Owing, WithinBlind, LongBlind;
    EntryAt(log, b);
    if forall c :: a < c < b ==> !RecoveryEnd(log[c]) {
      assert log[..b][..a] == log[..a];
      OwingUntilRecovery(log[..b], a);
    }
  }
}
