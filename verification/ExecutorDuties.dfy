/**
 What a pass of the executor must do, in every run: the recovery that is owed is scanned, what is due
 starts, ends are taken as they are, grants go out in their order, and a running scan or Wi-Fi slot is
 left alone. The invariants elsewhere bound what a pass may do; these say what it does.
 */
module ExecutorDuties {
  import opened Ticks
  import opened RadioTable
  import opened ExecutorSpec
  import opened ExecutorMoves
  import opened RadioHistory
  import opened ExecutorPace

  // ---- The stages of a pass ----

  ghost predicate Live(x: Exec, now: nat) {
    Good(x, now) && Paced(x, now)
  }

  // A state of a run, and the pass after it.
  ghost predicate Comes(x: Exec, t: nat, p: PassIn) {
    Between(x, t) && Paced(x, t) && Rested(x, t) && PassOk(x, t, p)
  }

  lemma RunComes(t0: nat, xs: seq<Exec>, ps: seq<PassIn>, k: nat)
    requires IsRun(t0, xs, ps) && k < |ps|
    ensures Comes(xs[k], TimeAt(t0, ps, k), ps[k]) && xs[k + 1] == Pass(xs[k], ps[k])
  {
    hide Between, Paced, Rested, PassOk, Pass;
    RunKeeps(t0, xs, ps, k);
    RunPaced(t0, xs, ps, k);
    assert Goes(xs[k], TimeAt(t0, ps, k), ps[k], xs[k + 1]);
  }

  // The stored end taken; all ends taken; the grants made.
  function Taken(x: Exec, p: PassIn): Exec {
    Take(x, p.now, p.mail, p.dither)
  }

  function Ended(x: Exec, p: PassIn): Exec {
    Settle(Taken(x, p), p.now, p.i)
  }

  function Given(x: Exec, p: PassIn): Exec {
    Grants(Ended(x, p), p.now, p.i)
  }

  function Ready(x: Exec, p: PassIn): Exec {
    StopOrIdle(Given(x, p), p.now, p.i)
  }

  lemma Stages(x: Exec, t: nat, p: PassIn)
    requires Comes(x, t, p)
    ensures Live(x, p.now) && Live(Taken(x, p), p.now) && Live(Ended(x, p), p.now) && Live(Given(x, p), p.now)
    ensures Live(Ready(x, p), p.now)
    ensures SlotOk(Taken(x, p)) && SlotOk(Ready(x, p)) && p.i.nextRow != ROW_NONE
    ensures var d := Ready(x, p); var want := Wanted(d, p.i);
      Pass(x, p) == if StartDue(d, p.now, want) then ExecNextSlot(d, p.now, want, p.i.nextRow, p.i.startRc) else d
  {
    hide Good, Paced, Rested, Timely, Take, Settle, Grants, StopOrIdle, Moved, LensOk, Act, StartDue, ExecNextSlot;
    hide SlotOk;
    var now := p.now;
    GoodLater(x, t, p);
    PacedLater(x, t, now);
    var ms := TakeMoves(x, now, p.mail, p.dither);
    MovesPaced(x, now, ms, Taken(x, p));
    ms := SettleMoves(Taken(x, p), now, p.i);
    MovesPaced(Taken(x, p), now, ms, Ended(x, p));
    ms := GrantsMoves(Ended(x, p), now, p.i);
    MovesPaced(Ended(x, p), now, ms, Given(x, p));
    ms := StopMoves(Given(x, p), now, p.i);
    MovesPaced(Given(x, p), now, ms, Ready(x, p));
    ActIs(Taken(x, p), now, p.i);
  }

  // ---- What is wanted ----

  // An entry the pass adds to the history.
  predicate Adds(x: Exec, y: Exec, o: Obs) {
    |x.log| <= |y.log| && o in y.log[|x.log|..]
  }

  // A stage that adds no start.
  predicate NoStart(x: Exec, y: Exec) {
    |x.log| <= |y.log| && y.log[..|x.log|] == x.log && forall n :: |x.log| <= n < |y.log| ==> !y.log[n].Start?
  }

  lemma NoStartOn(x: Exec, y: Exec, z: Exec)
    requires NoStart(x, y) && NoStart(y, z)
    ensures NoStart(x, z)
  {
    assert z.log[..|x.log|] == z.log[..|y.log|][..|x.log|];
    forall n | |x.log| <= n < |z.log| ensures !z.log[n].Start? {
      if n < |y.log| { assert z.log[..|y.log|][n] == y.log[n]; }
    }
  }

  lemma MoveNoStart(x: Exec, m: Move, now: nat)
    requires Can(x, m, now)
    ensures NoStart(x, Apply(x, m, now))
  {
    hide Since, Signed, RowOf, CodedBudget, RowGapMs, BlindMs, Unset, Covering, Early;
  }

  lemma {:induction false} MovesNoStart(x: Exec, now: nat, ms: seq<Move>, y: Exec)
    requires Moved(x, now, ms, y)
    ensures NoStart(x, y)
    decreases |ms|
  {
    hide Can, Apply;
    if ms != [] {
      MoveNoStart(x, ms[0], now);
      MovesNoStart(Apply(x, ms[0], now), now, ms[1..], y);
      NoStartOn(x, Apply(x, ms[0], now), y);
    }
  }

  lemma ReadyNoStart(x: Exec, t: nat, p: PassIn)
    requires Comes(x, t, p)
    ensures NoStart(x, Ready(x, p))
  {
    hide Good, Paced, Rested, Timely, Take, Settle, Grants, StopOrIdle, Moved, LensOk, Act, NoStart;
    var ms := TakeMoves(x, p.now, p.mail, p.dither);
    MovesNoStart(x, p.now, ms, Taken(x, p));
    ms := BeforeMoves(Taken(x, p), p.now, p.i);
    MovesNoStart(Taken(x, p), p.now, ms, Before(Taken(x, p), p.now, p.i));
    NoStartOn(x, Taken(x, p), Ready(x, p));
  }

  // The start of the next slot, as the history shows it: none for a Wi-Fi slot.
  lemma NextAdds(d: Exec, now: nat, want: Row, nextRow: Row, rc: StartRc)
    requires SlotOk(d) && want != ROW_NONE && nextRow != ROW_NONE
    ensures Added(d, PickSlot(d, now, want, nextRow), ExecNextSlot(d, now, want, nextRow, rc), now, rc)
  {
    var q := PickSlot(d, now, want, nextRow);
    StartAdds(q, now, rc);
    assert q == d.(row := q.row, slot := q.slot, left := q.left, lead := q.lead);
    hide PickSlot, SlotStart, RowOf, SlotOk, RecoverySlot;
  }

  predicate Added(d: Exec, q: Exec, y: Exec, now: nat, rc: StartRc) {
    var kind := if q.lead then K_W else RowOf(q.row).KindAt(q.slot);
    && y.log == d.log + (if kind == K_W then []
                         else [Start(now, q.row, kind, rc)] + if rc == Already then [Cancel(now)] else [])
    && y.pulse == d.pulse && y.recovery == d.recovery && y.kind == kind
    && (kind == K_W ==> y.row == q.row && y.scanOn == d.scanOn && !y.slotDone)
    && (kind != K_W && rc == Started ==> y.scanOn && y.row == q.row && y.slot == q.slot && y.startedAt == now)
    && (kind != K_W && rc != Started ==> y.scanOn == d.scanOn && y.row == ROW_NONE && y.retryAt == now + RETRY_TICKS)
  }

  // The start a pass adds is of the slot picked.
  lemma StartIs(x: Exec, d: Exec, q: Exec, y: Exec, now: nat, rc: StartRc, n: nat)
    requires NoStart(x, d) && Added(d, q, y, now, rc) && |x.log| <= n < |y.log| && y.log[n].Start?
    ensures var kind := if q.lead then K_W else RowOf(q.row).KindAt(q.slot);
      kind != K_W && y.log[n] == Start(now, q.row, kind, rc)
  {
    hide RowOf;
    assert forall m :: 0 <= m < |d.log| ==> y.log[m] == d.log[m];
  }

  lemma StartAdds(q: Exec, now: nat, rc: StartRc)
    ensures Added(q, q, SlotStart(q, now, rc), now, rc)
  {
    var k := if q.lead then K_W else RowOf(q.row).KindAt(q.slot);
    var z := q.(slotDone := false, kind := k, slotMs := if q.lead then I8_WIFI_MIN_MS else RowOf(q.row).MsAt(q.slot));
    hide RowOf, ScanStart, WifiStart;
    assert SlotStart(q, now, rc) == if k == K_W then WifiStart(z, now) else ScanStart(z, now, rc);
    assert q.log + [] == q.log;
    hide SlotStart;
    if k == K_W { WifiAdds(z, now); } else { ScanAdds(z, now, rc); }
  }

  lemma WifiAdds(z: Exec, now: nat)
    ensures var y := WifiStart(z, now);
      y == z.(startedAt := y.startedAt, wEndAt := y.wEndAt, codedLast := false)
  {
    hide Unset;
  }

  lemma ScanAdds(z: Exec, now: nat, rc: StartRc)
    ensures var y := ScanStart(z, now, rc);
      && y.log == z.log + ([Start(now, z.row, z.kind, rc)] + if rc == Already then [Cancel(now)] else [])
      && y.pulse == z.pulse && y.recovery == z.recovery && y.kind == z.kind
      && (rc == Started ==> y.scanOn && y.row == z.row && y.slot == z.slot && y.startedAt == now)
      && (rc != Started ==> y.scanOn == z.scanOn && y.row == ROW_NONE && y.retryAt == now + RETRY_TICKS)
  {
    hide NextGen;
    assert [Start(now, z.row, z.kind, rc)] + [] == [Start(now, z.row, z.kind, rc)];
    assert z.log + [Start(now, z.row, z.kind, rc)] + [Cancel(now)] ==
           z.log + ([Start(now, z.row, z.kind, rc)] + [Cancel(now)]);
  }

  // The row a start picks: the wanted one, or at its period's end the policy's next.
  lemma PicksRow(d: Exec, now: nat, want: Row, nextRow: Row)
    requires SlotOk(d) && RecoverySlot(d) && want != ROW_NONE && nextRow != ROW_NONE
    ensures var q := PickSlot(d, now, want, nextRow);
      && (q.row == want || (q.row == nextRow && d.row == want && want != RECOVERY))
      && (q.row == RECOVERY ==> (if q.lead then K_W else RowOf(q.row).KindAt(q.slot)) == K_C)
  {
    PicksRecovery(d, now, want, nextRow);
    hide Just, LeadFits, RowOf;
    PicksWanted(d, now, want, nextRow);
    hide PickSlot;
  }

  lemma PicksWanted(d: Exec, now: nat, want: Row, nextRow: Row)
    requires SlotOk(d) && want != ROW_NONE && nextRow != ROW_NONE
    ensures var q := PickSlot(d, now, want, nextRow);
      q.row == want || (q.row == nextRow && d.row == want && want != RECOVERY)
  {
    hide PickSlot, SlotOk, RecoverySlot;
    if d.row != want || !d.slotDone {
      PicksAfresh(d, now, want, nextRow);
    } else if d.lead || d.left > 1 {
      PicksInTurn(d, now, want, nextRow);
    } else {
      PicksNextRow(d, now, want, nextRow);
    }
  }

  // The wanted row from its start, when another one ran or this one was broken off ...
  lemma PicksAfresh(d: Exec, now: nat, want: Row, nextRow: Row)
    requires SlotOk(d) && want != ROW_NONE && nextRow != ROW_NONE && (d.row != want || !d.slotDone)
    ensures PickSlot(d, now, want, nextRow) == RowBegin(d, want, now)
  {
    hide RowBegin, RowOf, SlotOk, RecoverySlot;
  }

  // ... else its next slot in turn, its Coded window after a lead slot ...
  lemma PicksInTurn(d: Exec, now: nat, want: Row, nextRow: Row)
    requires SlotOk(d) && want != ROW_NONE && nextRow != ROW_NONE
    requires d.row == want && d.slotDone && (d.lead || d.left > 1)
    ensures PickSlot(d, now, want, nextRow) ==
            if d.lead then d.(lead := false)
            else d.(slot := if d.slot + 1 >= RowOf(want).n then 0 else d.slot + 1, left := d.left - 1)
  {
    hide RowBegin, RowOf, SlotOk, RecoverySlot;
  }

  // ... and after the last one of its period the policy's next row, or this one again.
  lemma PicksNextRow(d: Exec, now: nat, want: Row, nextRow: Row)
    requires SlotOk(d) && want != ROW_NONE && nextRow != ROW_NONE && d.row == want && d.slotDone
    requires !d.lead && d.left <= 1
    ensures var next := if want == RECOVERY then RECOVERY else nextRow;
      PickSlot(d, now, want, nextRow) ==
        if next != want then RowBegin(d, next, now)
        else d.(slot := if d.slot + 1 >= RowOf(want).n then 0 else d.slot + 1, left := RowOf(want).n)
  {
    hide RowBegin, RowOf, SlotOk, RecoverySlot;
  }

  lemma PicksRecovery(d: Exec, now: nat, want: Row, nextRow: Row)
    requires SlotOk(d) && RecoverySlot(d) && want != ROW_NONE && nextRow != ROW_NONE
    ensures var q := PickSlot(d, now, want, nextRow);
      q.row == RECOVERY ==> (if q.lead then K_W else RowOf(q.row).KindAt(q.slot)) == K_C
  {
    RecoveryRow();
    hide RowOf, Just, LeadFits;
  }

  predicate RowKept(x: Exec, y: Exec) {
    y.row == x.row || y.row == ROW_NONE
  }

  lemma MoveRow(x: Exec, m: Move, now: nat)
    requires Can(x, m, now)
    ensures RowKept(x, Apply(x, m, now))
  {
    hide Since, Signed, RowOf, CodedBudget, RowGapMs, BlindMs, Unset, Covering, Early;
  }

  lemma {:induction false} MovesRow(x: Exec, now: nat, ms: seq<Move>, y: Exec)
    requires Moved(x, now, ms, y)
    ensures RowKept(x, y)
    decreases |ms|
  {
    hide Can, Apply;
    if ms != [] {
      MoveRow(x, ms[0], now);
      MovesRow(Apply(x, ms[0], now), now, ms[1..], y);
    }
  }

  lemma ReadyRow(x: Exec, t: nat, p: PassIn)
    requires Comes(x, t, p)
    ensures RowKept(x, Ready(x, p))
  {
    hide Good, Paced, Rested, Timely, Take, Settle, Grants, StopOrIdle, Moved, LensOk, Act;
    var ms := TakeMoves(x, p.now, p.mail, p.dither);
    MovesRow(x, p.now, ms, Taken(x, p));
    ms := BeforeMoves(Taken(x, p), p.now, p.i);
    MovesRow(Taken(x, p), p.now, ms, Before(Taken(x, p), p.now, p.i));
  }

  // What a start in a pass must be: synced and with no pulse left, of the recovery while it is owed, and
  // else of the mode's row, or of the policy's next one at that row's end.
  predicate StartOk(x: Exec, y: Exec, p: PassIn, o: Obs)
    requires o.Start?
  {
    && o.t == p.now && o.rc == p.i.startRc && p.i.synced && y.pulse == P_NONE
    && if y.recovery then o.row == RECOVERY && o.kind == K_C
       else o.row != ROW_NONE && (o.row == p.i.wantRow || (o.row == p.i.nextRow && x.row == p.i.wantRow))
  }

  lemma NextStarts(x: Exec, d: Exec, p: PassIn, y: Exec, n: nat)
    requires NoStart(x, d) && RowKept(x, d) && SlotOk(d) && RecoverySlot(d) && p.i.nextRow != ROW_NONE
    requires StartDue(d, p.now, Wanted(d, p.i))
    requires y == ExecNextSlot(d, p.now, Wanted(d, p.i), p.i.nextRow, p.i.startRc)
    requires |x.log| <= n < |y.log| && y.log[n].Start?
    ensures StartOk(x, y, p, y.log[n])
  {
    var want := Wanted(d, p.i);
    NextAdds(d, p.now, want, p.i.nextRow, p.i.startRc);
    PicksRow(d, p.now, want, p.i.nextRow);
    var q := PickSlot(d, p.now, want, p.i.nextRow);
    StartIs(x, d, q, y, p.now, p.i.startRc, n);
    hide PickSlot, ExecNextSlot, RowOf, Signed, SlotOk, RecoverySlot, NoStart;
  }

  lemma PassStarts(x: Exec, t: nat, p: PassIn, n: nat)
    requires Comes(x, t, p) && |x.log| <= n < |Pass(x, p).log| && Pass(x, p).log[n].Start?
    ensures StartOk(x, Pass(x, p), p, Pass(x, p).log[n])
  {
    var (d, now) := (Ready(x, p), p.now);
    Stages(x, t, p);
    ReadyNoStart(x, t, p);
    ReadyRow(x, t, p);
    LiveRecovery(d, now);
    hide Comes, Pass, Ready, Good, Paced, PickSlot, ExecNextSlot, RowOf, Signed, StartOk, RowKept, StartDue;
    if StartDue(d, now, Wanted(d, p.i)) {
      NextStarts(x, d, p, Pass(x, p), n);
    }
  }

  lemma LiveRecovery(d: Exec, now: nat)
    requires Live(d, now)
    ensures RecoverySlot(d)
  {
    hide Linked, Paced;
  }

  // Main result: in every run, what each start is of.
  lemma StartsWanted(t0: nat, xs: seq<Exec>, ps: seq<PassIn>, k: nat, n: nat)
    requires IsRun(t0, xs, ps) && k < |ps|
    requires |xs[k].log| <= n < |xs[k + 1].log| && xs[k + 1].log[n].Start?
    ensures StartOk(xs[k], xs[k + 1], ps[k], xs[k + 1].log[n])
  {
    hide Comes, Pass;
    RunComes(t0, xs, ps, k);
    PassStarts(xs[k], TimeAt(t0, ps, k), ps[k], n);
  }

  // ---- What is due starts ----

  // No scan and no Wi-Fi slot runs, and the start gate is open.
  predicate GateOpen(x: Exec, now: nat) {
    !x.scanOn && !WifiSlot(x) && x.retryAt <= now
  }

  lemma MoveOpen(x: Exec, m: Move, now: nat)
    requires Can(x, m, now) && GateOpen(x, now)
    ensures GateOpen(Apply(x, m, now), now)
  {
    hide Since, Signed, RowOf, CodedBudget, RowGapMs, BlindMs, Unset, Covering, Early;
  }

  lemma {:induction false} MovesOpen(x: Exec, now: nat, ms: seq<Move>, y: Exec)
    requires Moved(x, now, ms, y) && GateOpen(x, now)
    ensures GateOpen(y, now)
    decreases |ms|
  {
    hide Can, Apply, GateOpen;
    if ms != [] {
      MoveOpen(x, ms[0], now);
      MovesOpen(Apply(x, ms[0], now), now, ms[1..], y);
    }
  }

  lemma ReadyOpen(x: Exec, t: nat, p: PassIn)
    requires Comes(x, t, p) && GateOpen(Ended(x, p), p.now)
    ensures GateOpen(Ready(x, p), p.now)
  {
    hide Good, Paced, Rested, Timely, Take, Settle, Grants, StopOrIdle, Moved, LensOk, Act, GateOpen;
    var ms := GrantsMoves(Ended(x, p), p.now, p.i);
    MovesOpen(Ended(x, p), p.now, ms, Given(x, p));
    ms := StopMoves(Given(x, p), p.now, p.i);
    MovesOpen(Given(x, p), p.now, ms, Ready(x, p));
  }

  // The ends of a pass leave an open gate open.
  lemma EndedOpen(x: Exec, t: nat, p: PassIn)
    requires Comes(x, t, p) && GateOpen(Taken(x, p), p.now)
    ensures GateOpen(Ended(x, p), p.now)
  {
    hide Good, Paced, Rested, Timely, Take, Settle, Grants, StopOrIdle, Moved, LensOk, Act, GateOpen;
    var ms := SettleMoves(Taken(x, p), p.now, p.i);
    MovesOpen(Taken(x, p), p.now, ms, Ended(x, p));
  }

  lemma OpenIsDue(d: Exec, now: nat)
    requires Live(d, now) && GateOpen(d, now)
    ensures Due(now, d.retryAt)
  {
    hide Linked, Radio;
    CodedPast(d, now);
  }

  // With the gate open and nothing running after its ends, and no pulse left, a synced pass starts something
  // if anything is wanted: the recovery while it is owed, and else a scan or a Wi-Fi slot of a row.
  lemma PassAttempts(x: Exec, t: nat, p: PassIn)
    requires Comes(x, t, p) && GateOpen(Ended(x, p), p.now) && p.i.synced && Pass(x, p).pulse == P_NONE
    ensures var y := Pass(x, p);
      && (y.recovery ==> Adds(x, y, Start(p.now, RECOVERY, K_C, p.i.startRc)))
      && (!y.recovery && p.i.wantRow != ROW_NONE ==> WifiSlot(y) || exists o :: Adds(x, y, o) && o.Start?)
  {
    var (d, now) := (Ready(x, p), p.now);
    var want := Wanted(d, p.i);
    Stages(x, t, p);
    ReadyOpen(x, t, p);
    ReadyNoStart(x, t, p);
    OpenIsDue(d, now);
    LiveRecovery(d, now);
    hide Comes, Pass, Ready, Good, Paced, ExecNextSlot, Signed;
    var y := Pass(x, p);
    if want != ROW_NONE {
      NextAdds(d, now, want, p.i.nextRow, p.i.startRc);
      PicksRow(d, now, want, p.i.nextRow);
      AddsNext(x, d, now, want, p.i.nextRow, p.i.startRc, y);
    }
  }

  lemma AddsNext(x: Exec, d: Exec, now: nat, want: Row, nextRow: Row, rc: StartRc, y: Exec)
    requires SlotOk(d) && want != ROW_NONE && nextRow != ROW_NONE && NoStart(x, d) && !d.scanOn
    requires y == ExecNextSlot(d, now, want, nextRow, rc)
    ensures var q := PickSlot(d, now, want, nextRow);
      var kind := if q.lead then K_W else RowOf(q.row).KindAt(q.slot);
      if kind == K_W then WifiSlot(y) else Adds(x, y, Start(now, q.row, kind, rc))
  {
    NextAdds(d, now, want, nextRow, rc);
    var q := PickSlot(d, now, want, nextRow);
    var kind := if q.lead then K_W else RowOf(q.row).KindAt(q.slot);
    assert q.row != ROW_NONE;
    hide PickSlot, ExecNextSlot, RowOf;
    if kind != K_W {
      assert y.log[|d.log|] == Start(now, q.row, kind, rc);
      assert y.log[|x.log|..][|d.log| - |x.log|] == y.log[|d.log|];
    }
  }

  // In every run: the same after any of its passes.
  lemma DueStarts(t0: nat, xs: seq<Exec>, ps: seq<PassIn>, k: nat)
    requires IsRun(t0, xs, ps) && k < |ps|
    requires GateOpen(Ended(xs[k], ps[k]), ps[k].now) && ps[k].i.synced && xs[k + 1].pulse == P_NONE
    ensures var (x, y, p) := (xs[k], xs[k + 1], ps[k]);
      && (y.recovery ==> Adds(x, y, Start(p.now, RECOVERY, K_C, p.i.startRc)))
      && (!y.recovery && p.i.wantRow != ROW_NONE ==> WifiSlot(y) || exists o :: Adds(x, y, o) && o.Start?)
  {
    hide Comes, Pass, GateOpen, Adds, Ended;
    RunComes(t0, xs, ps, k);
    PassAttempts(xs[k], TimeAt(t0, ps, k), ps[k]);
  }

  // ---- The recovery comes ----

  // A recovery is owed, and nothing uses the radio.
  predicate Waiting(x: Exec) {
    x.recovery && x.pulse == P_NONE && !x.scanOn && !WifiSlot(x)
  }

  lemma WaitingReady(x: Exec, t: nat, p: PassIn)
    requires Comes(x, t, p) && Waiting(x) && p.i.synced
    ensures Ready(x, p) == x.(goneAt := 0)
  {
    assert !p.i.conn;
    var g := x.(goneAt := 0);
    assert Taken(x, p) == x && Settle(x, p.now, p.i) == g by {
      hide Comes, Since, Signed, RowOf;
      SettleIs(x, p.now, p.i);
    }
    hide Settle;
    assert Grants(g, p.now, p.i) == g;
    assert StopOrIdle(g, p.now, p.i) == g;
  }

  lemma WaitingTaken(x: Exec, p: PassIn)
    requires Waiting(x)
    ensures Taken(x, p) == x
  {
  }

  // A pass before the gate opens changes nothing of it; the first after it starts the recovery.
  lemma WaitOrStart(x: Exec, t: nat, p: PassIn)
    requires Comes(x, t, p) && Waiting(x) && p.i.synced
    ensures var y := Pass(x, p);
      if x.retryAt <= p.now then Adds(x, y, Start(p.now, RECOVERY, K_C, p.i.startRc))
      else Waiting(y) && y.retryAt == x.retryAt
  {
    Stages(x, t, p);
    WaitingReady(x, t, p);
    if x.retryAt <= p.now {
      hide Ready, Pass;
      RecoveryStays(x, t, p);
      WaitingTaken(x, p);
      EndedOpen(x, t, p);
      PassAttempts(x, t, p);
    } else {
      assert !Due(p.now, x.retryAt) by { hide Linked, Paced; }
      hide Ready, Pass;
    }
  }

  lemma RecoveryStays(x: Exec, t: nat, p: PassIn)
    requires Comes(x, t, p) && Waiting(x) && p.i.synced
    ensures Pass(x, p).recovery && Pass(x, p).pulse == P_NONE
  {
    Stages(x, t, p);
    WaitingReady(x, t, p);
    hide Comes, Pass, Ready, PickSlot, ExecNextSlot, Signed, RowOf;
    var d := x.(goneAt := 0);
    var want := Wanted(d, p.i);
    if StartDue(d, p.now, want) { NextAdds(d, p.now, want, p.i.nextRow, p.i.startRc); }
  }

  // Main result: in every run, once a recovery is owed with the radio at rest, a RECOVERY scan is started
  // by the first synced pass at or after the start gate, which is never more than 2 s away.
  lemma {:induction false} RecoveryComes(t0: nat, xs: seq<Exec>, ps: seq<PassIn>, k: nat, m: nat) returns (j: nat)
    requires IsRun(t0, xs, ps) && k < m <= |ps| && Waiting(xs[k])
    requires forall i :: k <= i < m ==> ps[i].i.synced
    requires ps[m - 1].now >= xs[k].retryAt
    ensures k <= j < m && Adds(xs[j], xs[j + 1], Start(ps[j].now, RECOVERY, K_C, ps[j].i.startRc))
    ensures forall i :: k <= i < j ==> ps[i].now < xs[k].retryAt
    ensures xs[k].retryAt <= TimeAt(t0, ps, k) + 200
    decreases m - k
  {
    hide *;
    RunLength(t0, xs, ps);
    RunWaits(t0, xs, ps, k);
    if xs[k].retryAt <= ps[k].now {
      j := k;
    } else {
      j := RecoveryComes(t0, xs, ps, k + 1, m);
    }
  }

  lemma RunLength(t0: nat, xs: seq<Exec>, ps: seq<PassIn>)
    requires IsRun(t0, xs, ps)
    ensures |xs| == |ps| + 1
  {
  }

  lemma RunWaits(t0: nat, xs: seq<Exec>, ps: seq<PassIn>, k: nat)
    requires IsRun(t0, xs, ps) && k < |ps| && Waiting(xs[k]) && ps[k].i.synced
    ensures xs[k].retryAt <= TimeAt(t0, ps, k) + 200
    ensures if xs[k].retryAt <= ps[k].now then Adds(xs[k], xs[k + 1], Start(ps[k].now, RECOVERY, K_C, ps[k].i.startRc))
            else Waiting(xs[k + 1]) && xs[k + 1].retryAt == xs[k].retryAt
  {
    hide Comes, Pass, Waiting, Adds;
    RunComes(t0, xs, ps, k);
    WaitOrStart(xs[k], TimeAt(t0, ps, k), ps[k]);
    GateNear(xs[k], TimeAt(t0, ps, k), ps[k]);
  }

  lemma GateNear(x: Exec, t: nat, p: PassIn)
    requires Comes(x, t, p)
    ensures x.retryAt <= t + 200
  {
    hide Linked, Paced, PassOk;
  }

  // ---- Ends, and what waits for them ----

  // The stored end is the running scan's own: its generation, no reason, and no more than SCAN_EARLY_MS
  // before its time.
  predicate OwnEnds(x: Exec, p: PassIn) {
    && p.mail.Some? && x.scanOn && p.mail.value.gen == x.gen && p.mail.value.reasonOk
    && p.mail.value.at + EARLY_TICKS >= x.startedAt + FromMs(x.slotMs)
  }

  // ... or a stopped scan's late end, that came sooner.
  predicate EarlyEnds(x: Exec, p: PassIn) {
    && p.mail.Some? && x.scanOn && p.mail.value.gen == x.gen && p.mail.value.reasonOk
    && p.mail.value.at + EARLY_TICKS < x.startedAt + FromMs(x.slotMs)
  }

  // The tick the gate opens after an own end: at once, or after the dither where the row has one.
  function GateAfter(x: Exec, p: PassIn): nat
    requires OwnEnds(x, p)
  {
    p.mail.value.at + if x.row != ROW_NONE && RowOf(x.row).dither then p.dither else 0
  }

  // A scan broken off now: its row starts again at its Coded window, no claim may follow it, and the gate
  // opens at `gate`.
  predicate Broken(x: Exec, b: Exec, now: nat, gate: nat) {
    && !b.scanOn && b.endedAt == now && b.row == ROW_NONE && !b.ownEnd && !b.codedLast && !b.slotDone
    && b.codedEndAt == x.codedEndAt && b.recovery == x.recovery && b.pulse == x.pulse && b.retryAt == gate
  }

  lemma TakenIs(x: Exec, t: nat, p: PassIn)
    requires Comes(x, t, p)
    ensures var a := Taken(x, p);
      && (OwnEnds(x, p) ==>
            && a.log == x.log + [OwnEnd(x.row, x.kind, x.startedAt, p.mail.value.at)]
            && !a.scanOn && a.ownEnd && a.slotDone && a.row == x.row && a.retryAt == GateAfter(x, p)
            && a.endedAt == p.mail.value.at && a.codedLast == KindCoded(x.kind)
            && a.recovery == (x.recovery && x.row != RECOVERY))
      && (!OwnEnds(x, p) ==> a.log == x.log && a.recovery == x.recovery)
      && (if p.mail.Some? && x.scanOn && p.mail.value.gen == x.gen then !a.scanOn else a == x)
      && (!a.scanOn && x.scanOn && !OwnEnds(x, p) ==> Broken(x, a, p.now,
            if EarlyEnds(x, p) then x.startedAt + FromMs(x.slotMs + 50) else p.now + SETTLE_TICKS))
  {
    hide RowOf, Linked, Paced, Rested, Timely, Admissible;
    if p.mail.Some? && x.scanOn && p.mail.value.gen == x.gen {
      var at := p.mail.value.at;
      assert x.startedAt <= at <= p.now < x.startedAt + WORD;
      assert Since(at, x.startedAt) == at - x.startedAt;
    }
    hide Since, Unset;
  }

  // An end is taken as the scan's own exactly when it is.
  lemma OwnEndTaken(t0: nat, xs: seq<Exec>, ps: seq<PassIn>, k: nat)
    requires IsRun(t0, xs, ps) && k < |ps|
    ensures var (x, y, p) := (xs[k], xs[k + 1], ps[k]);
      && |x.log| <= |y.log|
      && (OwnEnds(x, p) ==> |x.log| < |y.log| && y.log[|x.log|] == OwnEnd(x.row, x.kind, x.startedAt, p.mail.value.at))
      && (!OwnEnds(x, p) ==> forall n :: |x.log| <= n < |y.log| ==> !y.log[n].OwnEnd?)
  {
    hide Comes, Pass, Taken, OwnEnds;
    RunComes(t0, xs, ps, k);
    hide IsRun;
    PassOwnEnd(xs[k], TimeAt(t0, ps, k), ps[k]);
  }

  lemma PassOwnEnd(x: Exec, t: nat, p: PassIn)
    requires Comes(x, t, p)
    ensures var y := Pass(x, p);
      && |x.log| <= |y.log|
      && (OwnEnds(x, p) ==> |x.log| < |y.log| && y.log[|x.log|] == OwnEnd(x.row, x.kind, x.startedAt, p.mail.value.at))
      && (!OwnEnds(x, p) ==> forall n :: |x.log| <= n < |y.log| ==> !y.log[n].OwnEnd?)
  {
    TakenIs(x, t, p);
    PassNoOwnEnd(x, t, p);
    hide Comes, Pass, Taken, OwnEnds;
    var (a, y) := (Taken(x, p), Pass(x, p));
    assert forall n :: 0 <= n < |a.log| ==> y.log[n] == y.log[..|a.log|][n];
  }

  predicate NoOwnEnd(x: Exec, y: Exec) {
    |x.log| <= |y.log| && y.log[..|x.log|] == x.log && forall n :: |x.log| <= n < |y.log| ==> !y.log[n].OwnEnd?
  }

  lemma NoOwnEndOn(x: Exec, y: Exec, z: Exec)
    requires NoOwnEnd(x, y) && NoOwnEnd(y, z)
    ensures NoOwnEnd(x, z)
  {
    assert z.log[..|x.log|] == z.log[..|y.log|][..|x.log|];
    forall n | |x.log| <= n < |z.log| ensures !z.log[n].OwnEnd? {
      if n < |y.log| { assert z.log[..|y.log|][n] == y.log[n]; }
    }
  }

  lemma MoveNoOwnEnd(x: Exec, m: Move, now: nat)
    requires Can(x, m, now) && !m.EndOwn?
    ensures NoOwnEnd(x, Apply(x, m, now))
  {
    hide Since, Signed, RowOf, CodedBudget, RowGapMs, BlindMs, Unset, Covering;
  }

  lemma {:induction false} MovesNoOwnEnd(x: Exec, now: nat, ms: seq<Move>, y: Exec)
    requires Moved(x, now, ms, y) && forall m <- ms :: !m.EndOwn?
    ensures NoOwnEnd(x, y)
    decreases |ms|
  {
    hide Can, Apply;
    if ms != [] {
      assert ms[0] in ms;
      MoveNoOwnEnd(x, ms[0], now);
      MovesNoOwnEnd(Apply(x, ms[0], now), now, ms[1..], y);
      NoOwnEndOn(x, Apply(x, ms[0], now), y);
    }
  }

  lemma NextNoOwnEnd(d: Exec, now: nat, want: Row, nextRow: Row, rc: StartRc)
    requires SlotOk(d) && want != ROW_NONE && nextRow != ROW_NONE
    ensures NoOwnEnd(d, ExecNextSlot(d, now, want, nextRow, rc))
  {
    NextAdds(d, now, want, nextRow, rc);
    hide PickSlot, ExecNextSlot, RowOf;
  }

  lemma PassNoOwnEnd(x: Exec, t: nat, p: PassIn)
    requires Comes(x, t, p)
    ensures NoOwnEnd(Taken(x, p), Pass(x, p))
  {
    Stages(x, t, p);
    var d := Ready(x, p);
    var want := Wanted(d, p.i);
    assert NoOwnEnd(Taken(x, p), d) by {
      hide Good, Paced, Rested, Timely, Take, Settle, Grants, StopOrIdle, Moved, LensOk, Act, NoOwnEnd;
      var ms := BeforeMoves(Taken(x, p), p.now, p.i);
      MovesNoOwnEnd(Taken(x, p), p.now, ms, Before(Taken(x, p), p.now, p.i));
    }
    hide Comes, Pass, Ready, PickSlot, ExecNextSlot, Signed, RowOf, Taken;
    if StartDue(d, p.now, want) {
      NextNoOwnEnd(d, p.now, want, p.i.nextRow, p.i.startRc);
      hide NoOwnEnd;
      NoOwnEndOn(Taken(x, p), d, Pass(x, p));
    }
  }

  // ---- Nothing before its time ----

  // No scan runs and none may start before `e`, or that time has come.
  predicate Held(x: Exec, now: nat, e: nat) {
    (!x.scanOn && x.retryAt >= e) || now >= e
  }

  lemma MoveHeld(x: Exec, m: Move, now: nat, e: nat)
    requires Good(x, now) && Can(x, m, now) && Held(x, now, e)
    ensures Held(Apply(x, m, now), now, e)
  {
    hide Since, RowOf, CodedBudget, RowGapMs, BlindMs, Unset, Covering, Early, Linked;
  }

  lemma {:induction false} MovesHeld(x: Exec, now: nat, ms: seq<Move>, y: Exec, e: nat)
    requires Good(x, now) && Moved(x, now, ms, y) && Held(x, now, e)
    ensures Held(y, now, e)
    decreases |ms|
  {
    hide Can, Apply, Held, Good;
    if ms != [] {
      MoveHeld(x, ms[0], now, e);
      MoveKeeps(x, now, ms[0]);
      MovesHeld(Apply(x, ms[0], now), now, ms[1..], y, e);
    }
  }

  lemma PassHeld(x: Exec, t: nat, p: PassIn, e: nat)
    requires Comes(x, t, p) && Held(Taken(x, p), p.now, e)
    ensures Held(Pass(x, p), p.now, e)
    ensures forall n :: |x.log| <= n < |Pass(x, p).log| && Pass(x, p).log[n].Start? ==> p.now >= e
  {
    var (d, now) := (Ready(x, p), p.now);
    Stages(x, t, p);
    ReadyNoStart(x, t, p);
    assert Held(d, now, e) by {
      hide Good, Paced, Rested, Timely, Take, Settle, Grants, StopOrIdle, Moved, LensOk, Act, Held;
      var ms := BeforeMoves(Taken(x, p), now, p.i);
      MovesHeld(Taken(x, p), now, ms, Before(Taken(x, p), now, p.i), e);
    }
    hide Comes, Pass, Ready, ExecNextSlot, RowOf, Taken, Paced, Linked;
    if StartDue(d, now, Wanted(d, p.i)) {
      assert d.retryAt <= now;
    }
  }

  lemma HeldOn(x: Exec, t: nat, p: PassIn, e: nat)
    requires Comes(x, t, p) && Held(x, t, e)
    ensures Held(Taken(x, p), p.now, e)
  {
    hide Between, Paced, Rested, ScanEnded;
  }

  lemma {:induction false} RunHeld(t0: nat, xs: seq<Exec>, ps: seq<PassIn>, k: nat, j: nat, e: nat)
    requires IsRun(t0, xs, ps) && k <= j < |ps| && Held(Taken(xs[k], ps[k]), ps[k].now, e)
    ensures Held(Taken(xs[j], ps[j]), ps[j].now, e)
  {
    hide *;
    RunLength(t0, xs, ps);
    if k < j {
      RunHeld(t0, xs, ps, k, j - 1, e);
      RunComes(t0, xs, ps, j - 1);
      RunComes(t0, xs, ps, j);
      PassHeld(xs[j - 1], TimeAt(t0, ps, j - 1), ps[j - 1], e);
      TimeIs(t0, ps, j);
      HeldOn(xs[j], TimeAt(t0, ps, j), ps[j], e);
    }
  }

  lemma TimeIs(t0: nat, ps: seq<PassIn>, j: nat)
    requires 0 < j <= |ps|
    ensures TimeAt(t0, ps, j) == ps[j - 1].now
  {
  }

  // In every run: once the gate stands at `e` with no scan running, no scan starts before it.
  lemma NothingBefore(t0: nat, xs: seq<Exec>, ps: seq<PassIn>, k: nat, j: nat, n: nat, e: nat)
    requires IsRun(t0, xs, ps) && k <= j < |ps|
    requires !Taken(xs[k], ps[k]).scanOn && Taken(xs[k], ps[k]).retryAt >= e
    requires |xs[j].log| <= n < |xs[j + 1].log| && xs[j + 1].log[n].Start?
    ensures ps[j].now >= e
  {
    RunHeld(t0, xs, ps, k, j, e);
    hide Comes, Pass, Taken, Held;
    RunComes(t0, xs, ps, j);
    PassHeld(xs[j], TimeAt(t0, ps, j), ps[j], e);
  }

  // A stopped scan's late end: nothing starts before the time of the scan it reset is over. A scan's own
  // end in a dithered row: nothing starts before the dither is.
  lemma EndsWait(t0: nat, xs: seq<Exec>, ps: seq<PassIn>, k: nat, j: nat, n: nat)
    requires IsRun(t0, xs, ps) && k <= j < |ps|
    requires |xs[j].log| <= n < |xs[j + 1].log| && xs[j + 1].log[n].Start?
    ensures EarlyEnds(xs[k], ps[k]) ==> ps[j].now >= xs[k].startedAt + FromMs(xs[k].slotMs + 50)
    ensures OwnEnds(xs[k], ps[k]) ==> ps[j].now >= GateAfter(xs[k], ps[k])
  {
    RunTaken(t0, xs, ps, k);
    hide Taken, EarlyEnds, OwnEnds, GateAfter;
    if EarlyEnds(xs[k], ps[k]) {
      NothingBefore(t0, xs, ps, k, j, n, xs[k].startedAt + FromMs(xs[k].slotMs + 50));
    }
    if OwnEnds(xs[k], ps[k]) {
      NothingBefore(t0, xs, ps, k, j, n, GateAfter(xs[k], ps[k]));
    }
  }

  lemma RunTaken(t0: nat, xs: seq<Exec>, ps: seq<PassIn>, k: nat)
    requires IsRun(t0, xs, ps) && k < |ps|
    ensures var (x, a, p) := (xs[k], Taken(xs[k], ps[k]), ps[k]);
      && (EarlyEnds(x, p) ==> !a.scanOn && !a.ownEnd && a.retryAt == x.startedAt + FromMs(x.slotMs + 50))
      && (OwnEnds(x, p) ==> !a.scanOn && a.ownEnd && a.slotDone && a.row == x.row && a.retryAt == GateAfter(x, p))
  {
    RunComes(t0, xs, ps, k);
    hide Comes, Pass, Taken, EarlyEnds, OwnEnds, GateAfter;
    TakenIs(xs[k], TimeAt(t0, ps, k), ps[k]);
  }

  // In every run, after a scan's own end and its dither, a synced pass that leaves no pulse starts what is
  // wanted next.
  lemma OwnEndGivesWay(t0: nat, xs: seq<Exec>, ps: seq<PassIn>, k: nat)
    requires IsRun(t0, xs, ps) && k < |ps| && OwnEnds(xs[k], ps[k]) && ps[k].now >= GateAfter(xs[k], ps[k])
    requires ps[k].i.synced && xs[k + 1].pulse == P_NONE
    ensures var (x, y, p) := (xs[k], xs[k + 1], ps[k]);
      && (y.recovery ==> Adds(x, y, Start(p.now, RECOVERY, K_C, p.i.startRc)))
      && (!y.recovery && p.i.wantRow != ROW_NONE ==> WifiSlot(y) || exists o :: Adds(x, y, o) && o.Start?)
  {
    RunTaken(t0, xs, ps, k);
    RunComes(t0, xs, ps, k);
    assert GateOpen(Taken(xs[k], ps[k]), ps[k].now) by { hide Comes, Pass, IsRun, Taken, GateAfter, OwnEnds; }
    hide Comes, Pass, IsRun, Taken, GateAfter, OwnEnds, GateOpen, Adds, Ended;
    EndedOpen(xs[k], TimeAt(t0, ps, k), ps[k]);
    PassAttempts(xs[k], TimeAt(t0, ps, k), ps[k]);
  }
}
