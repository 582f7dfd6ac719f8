/**
 Pulses, in every run: exactly when one ends and what it leaves owed, which of those asked for goes out,
 and when a scan is stopped for one.
 */
module ExecutorPulses {
  import opened Ticks
  import opened RadioTable
  import opened ExecutorSpec
  import opened ExecutorMoves
  import opened RadioHistory
  import opened ExecutorPace
  import opened ExecutorDuties

  // ---- A pulse's end ----

  // A claim's pulse is over once its connect is gone, another at its deadline or its requester's end.
  predicate IsOver(x: Exec, p: PassIn) {
    if x.pulse == P_CONNECT then !p.i.conn else p.now >= x.deadline || p.i.over
  }

  // A claim's connect is still there CLAIM_OVERRUN_MS past its deadline.
  predicate Overruns(x: Exec, now: nat) {
    x.pulse == P_CONNECT && x.deadline != 0 && now >= x.deadline + OVERRUN_TICKS
  }

  lemma InPulse(x: Exec, t: nat, p: PassIn)
    requires Comes(x, t, p) && x.pulse != P_NONE
    ensures Ended(x, p) == PulseEnd(x.(goneAt := 0), p.now, p.i) && !x.scanOn && x.row == ROW_NONE
  {
    assert !x.scanOn && x.row == ROW_NONE by { hide Linked, Paced, PassOk, Rested; }
    var g := x.(goneAt := 0);
    hide Comes, PulseEnd, RowOf;
    assert Taken(x, p) == x;
    assert Gone(x, p.now, p.i) == g && Overdue(g, p.now) == g && WifiSlotOver(g, p.now) == g;
    SettleIs(x, p.now, p.i);
  }

  lemma OverIsDue(x: Exec, t: nat, p: PassIn)
    requires Comes(x, t, p) && x.pulse != P_NONE
    ensures PulseIsOver(x.(goneAt := 0), p.now, p.i) <==> IsOver(x, p)
    ensures x.pulse == P_CONNECT && x.deadline != 0 ==>
        Signed(p.now, x.deadline) == p.now - x.deadline
  {
    hide Linked;
    CodedPast(x, t);
    PacedLater(x, t, p.now);
    hide Paced, Rested;
    GoodLater(x, t, p);
    CodedPast(x, p.now);
  }

  lemma PulseStays(g: Exec, now: nat, i: Inputs)
    requires g.pulse != P_NONE && !PulseIsOver(g, now, i)
    ensures PulseEnd(g, now, i) == g.(overrunAsked := g.overrunAsked || (g.pulse == P_CONNECT && OverrunDue(g, now)))
  {
    hide PulseIsOver, OverrunDue, Owed, SlotOk;
  }

  // A pulse that is not over goes on, nothing else is done on the radio, and a claim's overrun is asked
  // once it is CLAIM_OVERRUN_MS past its deadline.
  lemma PassKeepsPulse(x: Exec, t: nat, p: PassIn)
    requires Comes(x, t, p) && x.pulse != P_NONE && !IsOver(x, p)
    ensures var y := Pass(x, p);
      && y.log == x.log && y.pulse == x.pulse && y.deadline == x.deadline && !y.scanOn
      && y.overrunAsked == (x.overrunAsked || Overruns(x, p.now))
  {
    Stages(x, t, p);
    InPulse(x, t, p);
    OverIsDue(x, t, p);
    var g := x.(goneAt := 0);
    assert x.pulse == P_CONNECT ==> (OverrunDue(g, p.now) <==> !x.overrunAsked && Overruns(x, p.now)) by {
      hide Comes, PulseIsOver, Signed, IsOver, PulseEnd;
    }
    hide Comes, PulseIsOver, Signed, IsOver, OverrunDue, Pass;
    PulseStays(g, p.now, p.i);
    hide PulseEnd;
    PulseAlone(x, p);
    hide Ready, Ended, Overruns;
  }

  // With a pulse and no scan, neither grant, stop nor start.
  lemma PulseAlone(x: Exec, p: PassIn)
    requires Ended(x, p).pulse != P_NONE && !Ended(x, p).scanOn
    ensures Ready(x, p) == Ended(x, p) && !StartDue(Ready(x, p), p.now, Wanted(Ready(x, p), p.i))
  {
    hide Ended, Due;
    assert Given(x, p) == Ended(x, p);
    hide Given;
  }

  // A pulse that is over ends at once: the history shows it, and a recovery is owed after it exactly when
  // one was before or BLE was blind for longer than the resumed row's own gap.
  lemma PassEndsPulse(x: Exec, t: nat, p: PassIn)
    requires Comes(x, t, p) && x.pulse != P_NONE && IsOver(x, p)
    ensures var (b, y) := (Ended(x, p), Pass(x, p));
      && b.log == x.log + [Over(p.now, p.i.resumeRow, p.i.synced)]
      && b.pulse == P_NONE && !b.scanOn && b.row == ROW_NONE
      && b.retryAt == (if x.retryAt < p.now then p.now else x.retryAt)
      && (b.recovery <==> x.recovery || LongBlind(CoverEnd(x.log), p.now, p.i.resumeRow, p.i.synced))
      && y.recovery == b.recovery && |b.log| <= |y.log| && y.log[..|b.log|] == b.log
  {
    Stages(x, t, p);
    InPulse(x, t, p);
    OverIsDue(x, t, p);
    var g := x.(goneAt := 0);
    assert g.codedEndAt == CoverEnd(x.log) by { hide Radio, Paced, Rested, PassOk; }
    LiveBlind(x, p.now, p.i);
    LiveGate(x, p.now);
    hide Comes, PulseIsOver, Signed, IsOver, LongBlind, Live;
    assert Owed(g, p.now, p.i) <==> LongBlind(g.codedEndAt, p.now, p.i.resumeRow, p.i.synced);
    hide Owed;
    assert Ended(x, p) == PulseEnd(g, p.now, p.i);
    RecoveryOnly(x, t, p);
  }

  lemma LiveGate(x: Exec, now: nat)
    requires Live(x, now) && !x.scanOn
    ensures Signed(x.retryAt, now) < 0 <==> x.retryAt < now
  {
    hide Linked;
    CodedPast(x, now);
  }

  lemma LiveBlind(x: Exec, now: nat, i: Inputs)
    requires Live(x, now)
    ensures Owed(x.(goneAt := 0), now, i) <==> LongBlind(x.codedEndAt, now, i.resumeRow, i.synced)
  {
    LongIsOwed(x.(goneAt := 0), now, i) by { hide Radio, Paced, LogOk, Owing, CoverEnd, Barrier; }
  }

  // Nothing after the ends of a pass changes what is owed.
  predicate Follows(b: Exec, y: Exec) {
    y.recovery == b.recovery && |b.log| <= |y.log| && y.log[..|b.log|] == b.log
  }

  lemma FollowsOn(b: Exec, c: Exec, y: Exec)
    requires Follows(b, c) && Follows(c, y)
    ensures Follows(b, y)
  {
    assert y.log[..|b.log|] == y.log[..|c.log|][..|b.log|];
  }

  lemma StopFollows(g: Exec, p: PassIn)
    ensures Follows(g, StopOrIdle(g, p.now, p.i))
  {
    StopOrIdleIs(g, p);
    StopIs(g, p);
    hide StopOrIdle, ScanStop;
  }

  // The stop, if one is asked for; only the gate and the row may change after it.
  lemma StopOrIdleIs(g: Exec, p: PassIn)
    ensures var d := StopOrIdle(g, p.now, p.i);
      var s := if g.pulse != P_NONE || !p.i.synced then ScanStop(g, p.now, p.i.cancelRefused) else g;
      d == s.(retryAt := d.retryAt, row := d.row) && (s.scanOn ==> d.row == s.row)
  {
    hide ScanStop, Due, SlotOk;
  }

  lemma NextFollows(d: Exec, now: nat, want: Row, nextRow: Row, rc: StartRc)
    requires SlotOk(d) && want != ROW_NONE && nextRow != ROW_NONE
    ensures Follows(d, ExecNextSlot(d, now, want, nextRow, rc))
  {
    NextAdds(d, now, want, nextRow, rc);
    hide PickSlot, ExecNextSlot, RowOf;
  }

  lemma RecoveryOnly(x: Exec, t: nat, p: PassIn)
    requires Comes(x, t, p)
    ensures Follows(Ended(x, p), Pass(x, p))
  {
    Stages(x, t, p);
    var (b, g, d) := (Ended(x, p), Given(x, p), Ready(x, p));
    var want := Wanted(d, p.i);
    GrantBegins(b, p);
    assert Follows(b, g);
    StopFollows(g, p);
    hide Comes, Pass, Ended, Grants, StopOrIdle, ExecNextSlot, Follows, SlotOk;
    FollowsOn(b, g, d);
    if StartDue(d, p.now, want) {
      NextFollows(d, p.now, want, p.i.nextRow, p.i.startRc);
      FollowsOn(b, d, Pass(x, p));
    }
  }

  // Main result: in every run, exactly when a pulse ends, and what it leaves.
  lemma PulseEndsWhen(t0: nat, xs: seq<Exec>, ps: seq<PassIn>, k: nat)
    requires IsRun(t0, xs, ps) && k < |ps| && xs[k].pulse != P_NONE
    ensures var (x, y, p) := (xs[k], xs[k + 1], ps[k]);
      if IsOver(x, p) then
        && |x.log| < |y.log| && y.log[|x.log|] == Over(p.now, p.i.resumeRow, p.i.synced)
        && (y.recovery <==> x.recovery || LongBlind(CoverEnd(x.log), p.now, p.i.resumeRow, p.i.synced))
      else
        && y.log == x.log && y.pulse == x.pulse && y.deadline == x.deadline
        && y.overrunAsked == (x.overrunAsked || Overruns(x, p.now))
  {
    RunComes(t0, xs, ps, k);
    var (x, y, p) := (xs[k], xs[k + 1], ps[k]);
    hide *;
    if IsOver(x, p) {
      PassEndsPulse(x, TimeAt(t0, ps, k), p);
      EntryOf(x.log, Over(p.now, p.i.resumeRow, p.i.synced), y.log);
    } else {
      PassKeepsPulse(x, TimeAt(t0, ps, k), p);
    }
  }

  lemma EntryOf(before: seq<Obs>, o: Obs, log: seq<Obs>)
    requires |before| + 1 <= |log| && log[..|before| + 1] == before + [o]
    ensures log[|before|] == o
  {
    assert log[..|before| + 1][|before|] == o;
  }

  // ---- Which pulse goes out ----

  // A valve claim can go: right after a scan's own end, wanted, sized and its connect in flight.
  predicate ClaimCan(b: Exec, i: Inputs) {
    && !b.scanOn && (b.row == ROW_NONE || b.slotDone) && b.ownEnd
    && i.claimWanted && i.connectLen != 0 && i.connStarted
  }

  // A Wi-Fi pulse can go: granted, with no scan running or one that can be cancelled.
  predicate WifiCan(b: Exec, i: Inputs) {
    i.grant != P_NONE && !(b.scanOn && i.cancelRefused)
  }

  // What becomes of the pulses asked for, from the state after the ends: none between pulses or while a
  // recovery is owed; the claim, before the others while a leak response is pending and after them
  // otherwise; or the Wi-Fi pulse, for which a running scan is stopped.
  predicate Begins(b: Exec, y: Exec, p: PassIn) {
    var i := p.i;
    if b.pulse != P_NONE || b.recovery || !(ClaimCan(b, i) || WifiCan(b, i)) then y.pulse == b.pulse
    else if ClaimCan(b, i) && (i.lr || !WifiCan(b, i)) then
      y.pulse == P_CONNECT && y.log == b.log + [Granted(P_CONNECT, p.now, Stamp(p.now + FromMs(i.connectLen)))]
    else
      && y.pulse == i.grant
      && y.log == b.log + (if b.scanOn then [Cancel(p.now), Stopped(b.kind, b.startedAt, p.now)] else [])
                + [Granted(i.grant, p.now, Stamp(p.now + FromMs(i.grantLen)))]
  }

  // A Wi-Fi pulse, field by field.
  predicate WifiPulsed(b: Exec, y: Exec, done: bool, p: PassIn) {
    && done == WifiCan(b, p.i) && (!done ==> y == b) && y.goneAt == b.goneAt && y.startedAt == b.startedAt
    && (done ==>
          && y.pulse == p.i.grant && !y.scanOn && y.recovery == b.recovery
          && y.log == b.log + (if b.scanOn then [Cancel(p.now), Stopped(b.kind, b.startedAt, p.now)] else [])
                    + [Granted(p.i.grant, p.now, Stamp(p.now + FromMs(p.i.grantLen)))])
  }

  lemma WifiPulseIs(b: Exec, p: PassIn)
    ensures WifiPulsed(b, ExecWifiPulse(b, p.now, p.i).0, ExecWifiPulse(b, p.now, p.i).1, p)
  {
    var y := ScanStop(b, p.now, p.i.cancelRefused);
    StopIs(b, p);
    hide ScanStop, Stamp, FromMs;
    assert b.log + [] == b.log;
    if p.i.grant != P_NONE && !y.scanOn {
      assert ExecWifiPulse(b, p.now, p.i).1;
    }
  }

  lemma StopIs(b: Exec, p: PassIn)
    ensures var y := ScanStop(b, p.now, p.i.cancelRefused);
      && y.scanOn == (b.scanOn && p.i.cancelRefused) && (y.scanOn || !b.scanOn ==> y == b)
      && y.log == b.log + (if b.scanOn && !y.scanOn then [Cancel(p.now), Stopped(b.kind, b.startedAt, p.now)] else [])
      && y.goneAt == b.goneAt && y.startedAt == b.startedAt && y.recovery == b.recovery && y.pulse == b.pulse
  {
    hide Stamp, Covering, FromMs, SlotOk;
    assert b.log + [] == b.log;
    assert b.log + [Cancel(p.now)] + [Stopped(b.kind, b.startedAt, p.now)] ==
           b.log + [Cancel(p.now), Stopped(b.kind, b.startedAt, p.now)];
  }

  lemma GrantsAre(b: Exec, p: PassIn)
    ensures Grants(b, p.now, p.i) ==
      if b.pulse != P_NONE || b.recovery || !(ClaimCan(b, p.i) || WifiCan(b, p.i)) then b
      else if ClaimCan(b, p.i) && (p.i.lr || !WifiCan(b, p.i)) then ClaimStarts(b, p.now, p.i.connectLen)
      else ExecWifiPulse(b, p.now, p.i).0
  {
    WifiPulseIs(b, p);
    hide ExecWifiPulse, ClaimStarts;
  }

  lemma GrantBegins(b: Exec, p: PassIn)
    ensures var g := Grants(b, p.now, p.i);
      Begins(b, g, p) && (b.pulse == P_NONE && g.pulse != P_NONE ==> !g.scanOn) && g.recovery == b.recovery
      && |b.log| <= |g.log| && g.log[..|b.log|] == b.log
  {
    GrantsAre(b, p);
    WifiPulseIs(b, p);
    hide ExecWifiPulse, Grants, Stamp, FromMs, WifiCan, SlotOk;
  }

  // A pulse just granted is all the pass does after it.
  lemma GrantedIsAll(x: Exec, t: nat, p: PassIn)
    requires Comes(x, t, p) && Given(x, p).pulse != P_NONE && !Given(x, p).scanOn
    ensures Pass(x, p) == Given(x, p)
  {
    Stages(x, t, p);
    hide Comes, Given, Pass, Due;
    assert Ready(x, p) == Given(x, p);
  }

  lemma PassGrants(x: Exec, t: nat, p: PassIn)
    requires Comes(x, t, p)
    ensures Begins(Ended(x, p), Pass(x, p), p)
  {
    var (b, g) := (Ended(x, p), Given(x, p));
    GrantBegins(b, p);
    PulseKept(x, t, p);
    hide Comes, Ended, Stamp, Pass, Grants, FromMs, ClaimCan, WifiCan;
    if b.pulse == P_NONE && g.pulse != P_NONE { GrantedIsAll(x, t, p); }
    SamePulse(b, g, Pass(x, p), p);
  }

  lemma SamePulse(b: Exec, g: Exec, y: Exec, p: PassIn)
    requires Begins(b, g, p) && y.pulse == g.pulse && (b.pulse == P_NONE && g.pulse != P_NONE ==> y == g)
    ensures Begins(b, y, p)
  {
    hide Stamp, FromMs;
  }

  // Main result: in every run, which pulse a pass begins.
  lemma GrantsInOrder(t0: nat, xs: seq<Exec>, ps: seq<PassIn>, k: nat)
    requires IsRun(t0, xs, ps) && k < |ps|
    ensures Begins(Ended(xs[k], ps[k]), xs[k + 1], ps[k])
  {
    RunComes(t0, xs, ps, k);
    hide *;
    PassGrants(xs[k], TimeAt(t0, ps, k), ps[k]);
  }

  // Neither a stop nor a start changes the pulse.
  lemma PulseKept(x: Exec, t: nat, p: PassIn)
    requires Comes(x, t, p)
    ensures Pass(x, p).pulse == Given(x, p).pulse
  {
    Stages(x, t, p);
    var d := Ready(x, p);
    assert d.pulse == Given(x, p).pulse by {
      StopOrIdleIs(Given(x, p), p);
      StopIs(Given(x, p), p);
      hide *;
    }
    hide Comes, Pass, Ready, Given, PickSlot, ExecNextSlot, Signed, RowOf;
    var want := Wanted(d, p.i);
    if StartDue(d, p.now, want) { NextAdds(d, p.now, want, p.i.nextRow, p.i.startRc); }
  }

  // ---- With nothing to scan ----

  // A pass that leaves no pulse and wants nothing starts nothing, keeps no slot that does not scan, and
  // moves a start gate that is behind up to the clock.
  lemma PassIdles(x: Exec, t: nat, p: PassIn)
    requires Comes(x, t, p) && Pass(x, p).pulse == P_NONE
    requires !p.i.synced || (!Pass(x, p).recovery && p.i.wantRow == ROW_NONE)
    ensures var y := Pass(x, p);
      !y.scanOn ==> y.row == ROW_NONE && y.retryAt >= p.now
  {
    Stages(x, t, p);
    PulseKept(x, t, p);
    RecoveryOnly(x, t, p);
    var (b, g, d) := (Ended(x, p), Given(x, p), Ready(x, p));
    GrantsAre(b, p);
    WifiPulseIs(b, p);
    if !d.scanOn { LiveGate(d, p.now); }
    hide Comes, Ended, Grants, ExecWifiPulse, Pass, Live, Signed;
    IdleIs(g, p);
    hide StopOrIdle;
  }

  lemma IdleIs(g: Exec, p: PassIn)
    requires g.pulse == P_NONE && (!p.i.synced || (!g.recovery && p.i.wantRow == ROW_NONE))
    ensures var d := StopOrIdle(g, p.now, p.i);
      && (!d.scanOn ==> d.row == ROW_NONE && (d.retryAt == p.now || !Due(p.now, d.retryAt)))
      && (!g.scanOn && Due(p.now, g.retryAt) ==> d.retryAt == p.now)
  {
    StopIs(g, p);
    hide ScanStop, Due, SlotOk;
  }

  // In every run: the same after any of its passes.
  lemma NothingWanted(t0: nat, xs: seq<Exec>, ps: seq<PassIn>, k: nat)
    requires IsRun(t0, xs, ps) && k < |ps| && xs[k + 1].pulse == P_NONE
    requires !ps[k].i.synced || (!xs[k + 1].recovery && ps[k].i.wantRow == ROW_NONE)
    ensures !xs[k + 1].scanOn ==> xs[k + 1].row == ROW_NONE && xs[k + 1].retryAt >= ps[k].now
  {
    RunComes(t0, xs, ps, k);
    hide *;
    PassIdles(xs[k], TimeAt(t0, ps, k), ps[k]);
  }

  // ---- When a scan is stopped ----

  // With its sync lost, NimBLE's scan is stopped unless it refuses the cancel; and a scan is stopped
  // before its end for nothing but that and a pulse.
  lemma PassStops(x: Exec, t: nat, p: PassIn)
    requires Comes(x, t, p)
    ensures var y := Pass(x, p);
      && (y.scanOn && !p.i.cancelRefused ==> p.i.synced)
      && (Ready(x, p).scanOn && !p.i.synced ==> p.i.cancelRefused)
      && (Given(x, p).scanOn && p.i.synced && y.pulse == P_NONE ==>
            Ready(x, p).scanOn && Ready(x, p).log == Given(x, p).log)
  {
    Stages(x, t, p);
    PulseKept(x, t, p);
    var d := Ready(x, p);
    assert (d.scanOn && !p.i.synced ==> p.i.cancelRefused)
      && (Given(x, p).scanOn && p.i.synced && Given(x, p).pulse == P_NONE ==> d.scanOn && d.log == Given(x, p).log)
    by { hide Covering, Given, Due, Comes, Pass; }
    hide Comes, Pass, Ready, Given, PickSlot, ExecNextSlot, Signed, RowOf;
  }

  lemma StopsWhen(t0: nat, xs: seq<Exec>, ps: seq<PassIn>, k: nat)
    requires IsRun(t0, xs, ps) && k < |ps| && xs[k + 1].scanOn && !ps[k].i.synced
    ensures ps[k].i.cancelRefused
  {
    RunComes(t0, xs, ps, k);
    hide IsRun, Comes, Pass, Ready, Given;
    PassStops(xs[k], TimeAt(t0, ps, k), ps[k]);
  }
}
