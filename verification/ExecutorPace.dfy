/**
 In every run the executor's stamps stay near the clock: a Wi-Fi slot's end, the start gate and a claim's
 deadline lie less than 2^31 ticks from now whenever a pass compares them, so that the signed 32-bit
 tests read them right. They hang on the last Coded window's end, which a run keeps within 49 days.
 */
module ExecutorPace {
  import opened Ticks
  import opened RadioTable
  import opened ExecutorSpec
  import opened ExecutorMoves
  import opened RadioHistory

  // ---- The invariant inside a pass ----

  predicate Paced(x: Exec, now: nat) {
    && x.endedAt <= now
    && (WifiSlot(x) ==> x.codedEndAt != 0 && x.codedEndAt <= x.wEndAt + 1 && x.wEndAt <= now + 120)
    && (x.pulse != P_NONE ==> x.codedEndAt != 0)
    && (x.pulse == P_CONNECT ==> x.codedEndAt <= x.deadline + 1 && x.deadline <= x.codedEndAt + 281)
    && (x.scanOn ==> x.codedEndAt <= x.startedAt + 1)
    && (if x.codedEndAt != 0 then x.codedEndAt <= x.retryAt + 1 && x.codedEndAt <= x.endedAt + 1 else Unstarted(x, now))
  }

  // No Coded window has counted yet: only a row's first scan, its Coded one, may run.
  predicate Unstarted(x: Exec, now: nat) {
    && !x.codedLast && (x.row == ROW_NONE || (x.scanOn && KindCoded(x.kind)))
    && (if x.scanOn then x.retryAt + MS_WRAP_TICKS >= x.startedAt else x.retryAt + MS_WRAP_TICKS >= now)
  }

  lemma OwnEndPaced(x: Exec, now: nat, at: nat, dither: nat)
    requires Good(x, now) && Paced(x, now) && Can(x, EndOwn(at, dither), now)
    ensures Paced(Apply(x, EndOwn(at, dither), now), now)
  {
    hide Linked, RowOf;
    CodedPast(x, now);
  }

  lemma OddEndPaced(x: Exec, now: nat, m: Move)
    requires Good(x, now) && Paced(x, now) && Can(x, m, now) && (m.EndOdd? || m.CancelOverdue?)
    ensures Paced(Apply(x, m, now), now)
  {
    hide Linked, RowOf, Early, Unset;
    CodedPast(x, now);
  }

  // The last Coded window's end is past, by a tick at most not.
  lemma CodedPast(x: Exec, now: nat)
    requires Good(x, now)
    ensures x.codedEndAt <= now + 1 && (x.codedEndAt != 0 ==>
        !Unset(x.codedEndAt) && now < x.codedEndAt + MS_WRAP_TICKS)
    ensures x.scanOn ==> x.startedAt <= now < x.startedAt + MS_WRAP_TICKS
  {
    hide LogOk, Owing, CoverEnd, Barrier;
  }

  lemma StopPaced(x: Exec, now: nat)
    requires Good(x, now) && Paced(x, now) && x.scanOn
    ensures Paced(Apply(x, Stop, now), now)
  {
    hide Linked, RowOf, Since;
    CodedPast(x, now);
  }

  lemma WifiPaced(x: Exec, now: nat)
    requires Good(x, now) && Paced(x, now) && Can(x, EndWifi, now)
    ensures Paced(Apply(x, EndWifi, now), now)
  {
    hide Linked, RowOf;
    CodedPast(x, now);
    assert x.wEndAt <= now;
  }

  lemma PulsePaced(x: Exec, now: nat, m: Move)
    requires Good(x, now) && Paced(x, now) && Can(x, m, now) && (m.EndPulse? || m.Grant? || m.Claim?)
    ensures Paced(Apply(x, m, now), now)
  {
    hide Linked, RowOf, Owed, PulseIsOver;
    CodedPast(x, now);
    if !m.EndPulse? {
      BudgetNeedsCoded(x, now);
      GrantInBudget(x, now, m.len);
    }
    hide CodedBudget;
  }

  lemma BudgetNeedsCoded(x: Exec, now: nat)
    requires !x.scanOn && CodedBudget(x, now) > 0
    ensures x.codedEndAt != 0
  {
  }

  lemma OtherPaced(x: Exec, now: nat, m: Move)
    requires Good(x, now) && Paced(x, now) && Can(x, m, now) && (m.Note? || m.Idle?)
    ensures Paced(Apply(x, m, now), now)
  {
    hide Linked, RowOf;
    CodedPast(x, now);
  }

  lemma MovePaced(x: Exec, now: nat, m: Move)
    requires Good(x, now) && Paced(x, now) && Can(x, m, now)
    ensures Paced(Apply(x, m, now), now)
  {
    hide Good, Paced, Apply;
    match m {
      case EndOwn(at, dither) => OwnEndPaced(x, now, at, dither);
      case EndOdd(_, _, _) => OddEndPaced(x, now, m);
      case CancelOverdue => OddEndPaced(x, now, m);
      case EndWifi => WifiPaced(x, now);
      case Stop => StopPaced(x, now);
      case EndPulse(_) => PulsePaced(x, now, m);
      case Grant(_, _) => PulsePaced(x, now, m);
      case Claim(_) => PulsePaced(x, now, m);
      case _ => OtherPaced(x, now, m);
    }
  }

  lemma {:induction false} MovesPaced(x: Exec, now: nat, ms: seq<Move>, y: Exec)
    requires Good(x, now) && Paced(x, now) && Moved(x, now, ms, y)
    ensures Good(y, now) && Paced(y, now)
    decreases |ms|
  {
    hide Good, Paced, Can, Apply;
    if ms != [] {
      MoveKeeps(x, now, ms[0]);
      MovePaced(x, now, ms[0]);
      MovesPaced(Apply(x, ms[0], now), now, ms[1..], y);
    }
  }

  // ---- The start of the next slot ----

  lemma NextPaced(x: Exec, now: nat, want: Row, nextRow: Row, rc: StartRc)
    requires Good(x, now) && Paced(x, now) && SlotOk(x) && want != ROW_NONE && nextRow != ROW_NONE
    requires !x.scanOn && !WifiSlot(x) && x.pulse == P_NONE
    ensures Paced(ExecNextSlot(x, now, want, nextRow, rc), now)
    ensures var y := ExecNextSlot(x, now, want, nextRow, rc); y.codedEndAt == 0 && !y.scanOn ==> y.retryAt >= now
  {
    hide Linked, Radio, SlotStart, RowOf;
    CodedPast(x, now);
    var q := PickSlot(x, now, want, nextRow);
    if x.codedEndAt == 0 { FirstIsCoded(x, now, want, nextRow); }
    hide PickSlot;
    StartPaced(q, now, rc);
  }

  // A row's first slot is its Coded window.
  lemma FirstIsCoded(x: Exec, now: nat, want: Row, nextRow: Row)
    requires Unstarted(x, now) && !x.scanOn && x.codedEndAt == 0 && want != ROW_NONE && nextRow != ROW_NONE && SlotOk(x)
    ensures var q := PickSlot(x, now, want, nextRow); !q.lead && KindCoded(RowOf(q.row).KindAt(q.slot))
  {
    hide RowOf, Just, LeadFits;
  }

  lemma StartPaced(q: Exec, now: nat, rc: StartRc)
    requires Paced(q.(row := ROW_NONE), now) && !q.scanOn && q.pulse == P_NONE && q.codedEndAt <= now + 1
    requires q.codedEndAt == 0 ==> !q.lead && KindCoded(RowOf(q.row).KindAt(q.slot))
    ensures Paced(SlotStart(q, now, rc), now)
    ensures var y := SlotStart(q, now, rc); y.codedEndAt == 0 && !y.scanOn ==> y.retryAt >= now
  {
    var r := RowOf(q.row);
    var k := if q.lead then K_W else r.KindAt(q.slot);
    var ms := if q.lead then I8_WIFI_MIN_MS else r.MsAt(q.slot);
    assert ms <= 1200;
    hide RowOf, NextGen, Unset;
  }

  // ---- Passes ----

  predicate Rested(x: Exec, now: nat) {
    x.codedEndAt == 0 && !x.scanOn ==> x.retryAt >= now
  }

  // With nothing started, the start gate is not behind the clock.
  lemma NotStarted(a: Exec, now: nat, i: Inputs)
    requires var b := Before(a, now, i); Paced(b, now) && !StartDue(b, now, Wanted(b, i))
    ensures Rested(Before(a, now, i), now)
  {
    var g := Grants(Settle(a, now, i), now, i);
    var b := Before(a, now, i);
    assert b == StopOrIdle(g, now, i);
    hide Grants, Settle;
    if b.codedEndAt == 0 && !b.scanOn {
      assert b.pulse == P_NONE && b.row == ROW_NONE && !WifiSlot(b);
      StopKeepsWanted(a, now, i);
      IdleRests(g, now, i);
    }
  }

  lemma IdleRests(g: Exec, now: nat, i: Inputs)
    requires var b := StopOrIdle(g, now, i);
      && b.codedEndAt == 0 && !b.scanOn && b.pulse == P_NONE && b.row == ROW_NONE
      && b.retryAt + MS_WRAP_TICKS >= now && !StartDue(b, now, Wanted(b, i))
    ensures StopOrIdle(g, now, i).retryAt >= now
  {
    var b := StopOrIdle(g, now, i);
    BehindIsDue(now, b.retryAt);
    var s := if g.pulse != P_NONE || !i.synced then ScanStop(g, now, i.cancelRefused) else g;
    assert Wanted(b, i) == Wanted(g, i) by { StopKeepsWanted(g, now, i); }
    hide RowOf, Due, ScanStop;
    assert g.pulse == P_NONE;
    assert Wanted(g, i) == ROW_NONE ==> b.retryAt == if Due(now, s.retryAt) then now else s.retryAt;
  }

  lemma BehindIsDue(now: nat, at: nat)
    ensures at < now <= at + MS_WRAP_TICKS ==> Due(now, at)
  {
  }

  lemma PacedLater(x: Exec, t: nat, now: nat)
    requires Between(x, t) && Paced(x, t) && Rested(x, t) && t <= now < t + MS_WRAP_TICKS - 1000
    ensures Paced(x, now)
  {
    hide Linked;
  }

  lemma PassPaced(x: Exec, t: nat, p: PassIn)
    requires Between(x, t) && Paced(x, t) && Rested(x, t) && PassOk(x, t, p)
    ensures Paced(Pass(x, p), p.now) && Rested(Pass(x, p), p.now)
  {
    var now := p.now;
    GoodLater(x, t, p);
    PacedLater(x, t, now);
    var a := Take(x, now, p.mail, p.dither);
    hide Good, Paced, Rested, Take, Before, Moved, Act, LensOk;
    var ms := TakeMoves(x, now, p.mail, p.dither);
    MovesPaced(x, now, ms, a);
    ms := BeforeMoves(a, now, p.i);
    var b := Before(a, now, p.i);
    MovesPaced(a, now, ms, b);
    ActIs(a, now, p.i);
    if StartDue(b, now, Wanted(b, p.i)) {
      NextPaced(b, now, Wanted(b, p.i), p.i.nextRow, p.i.startRc);
      RestedIs(Act(a, now, p.i), now);
    } else {
      NotStarted(a, now, p.i);
    }
  }

  lemma RestedIs(y: Exec, now: nat)
    requires y.codedEndAt == 0 && !y.scanOn ==> y.retryAt >= now
    ensures Rested(y, now)
  {
  }

  // Every run keeps its stamps near the clock.
  lemma {:induction false} RunPaced(t0: nat, xs: seq<Exec>, ps: seq<PassIn>, k: nat)
    requires IsRun(t0, xs, ps) && k <= |ps|
    ensures Good(xs[k], TimeAt(t0, ps, k)) && Paced(xs[k], TimeAt(t0, ps, k)) && Rested(xs[k], TimeAt(t0, ps, k))
  {
    hide Good, Paced, Rested, Timely, Pass, PassOk, InitExec;
    RunKeeps(t0, xs, ps, k);
    if k == 0 {
      InitPaced(t0);
    } else {
      RunPaced(t0, xs, ps, k - 1);
      RunKeeps(t0, xs, ps, k - 1);
      assert Goes(xs[k - 1], TimeAt(t0, ps, k - 1), ps[k - 1], xs[k]);
      PassPaced(xs[k - 1], TimeAt(t0, ps, k - 1), ps[k - 1]);
    }
  }

  lemma InitPaced(t0: nat)
    ensures Paced(InitExec(t0), t0) && Rested(InitExec(t0), t0)
  {
  }
}
