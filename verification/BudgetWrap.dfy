/**
 A run from boot in which a pulse is granted long after the blind budget is spent. A Coded scan runs to
 its own end, nothing is wanted for 49.7 days while the executor polls on, and a pass then sizes a pulse
 by a budget whose milliseconds have wrapped.
 */
module BudgetWrap {
  import opened Ticks
  import opened RadioTable
  import opened ExecutorSpec
  import opened ExecutorMoves
  import opened ExecutorTimes
  import H = RadioHistory
  import C = ClaimSafety

  // ---- Runs with no bound on time ----

  function Pass(x: Exec, p: H.PassIn): Exec
    requires Admissible(Take(x, p.now, p.mail, p.dither), p.now, p.i)
  {
    H.Pass(x, p)
  }

  predicate Goes(x: Exec, t: nat, p: H.PassIn, y: Exec) {
    && t <= p.now <= t + POLL_TICKS && MailInTime(x, p.now, p.mail) && p.dither <= DITHER_TICKS
    && Admissible(Take(x, p.now, p.mail, p.dither), p.now, p.i)
    && y == Pass(x, p)
  }

  // A run from boot whose passes are at most EXEC_POLL_MS apart.
  ghost predicate IsRun(t0: nat, xs: seq<Exec>, ps: seq<H.PassIn>) {
    && |xs| == |ps| + 1 && xs[0] == InitExec(t0)
    && forall k :: 0 <= k < |ps| ==> Goes(xs[k], H.TimeAt(t0, ps, k), ps[k], xs[k + 1])
  }

  const T0 := 1000

  lemma Extend(xs: seq<Exec>, ps: seq<H.PassIn>, p: H.PassIn, y: Exec) returns (xs2: seq<Exec>, ps2: seq<H.PassIn>)
    requires IsRun(T0, xs, ps) && Goes(xs[|ps|], H.TimeAt(T0, ps, |ps|), p, y)
    ensures xs2 == xs + [y] && ps2 == ps + [p] && IsRun(T0, xs2, ps2)
  {
    hide Goes;
    xs2, ps2 := xs + [y], ps + [p];
    forall k | 0 <= k < |ps2| ensures Goes(xs2[k], H.TimeAt(T0, ps2, k), ps2[k], xs2[k + 1]) {
      assert H.TimeAt(T0, ps2, k) == H.TimeAt(T0, ps, k);
      if k < |ps| { assert Goes(xs[k], H.TimeAt(T0, ps, k), ps[k], xs[k + 1]); }
    }
  }

  // ---- The passes ----

  const SCAN := C.SCAN_IN
  const REST := SCAN.(wantRow := ROW_NONE)
  const GRANT := SCAN.(grant := P_SUBMIT, grantLen := 2000)

  // Nothing scans since the Coded window that ended at 1100.
  function Idle(t: nat): Exec {
    C.ENDED.(row := ROW_NONE, retryAt := t)
  }

  const LAST := 429497830   // 1100 + 429496730: 2^32 ms and 4 ms later

  lemma ScanRuns()
    ensures Goes(C.SCANNING, 1000, H.PassIn(1050, None, 0, SCAN), C.SCANNING)
  {
    var x := C.SCANNING;
    assert Take(x, 1050, None, 0) == x;
    assert Settle(x, 1050, SCAN) == x && Grants(x, 1050, SCAN) == x && StopOrIdle(x, 1050, SCAN) == x;
  }

  lemma ScanEnds()
    ensures Goes(C.SCANNING, 1050, H.PassIn(1100, Some(Mail(1, 1100, true)), 0, REST), Idle(1100))
  {
    var x := C.ENDED;
    C.OwnEndOfFirst();
    hide Take;
    assert Settle(x, 1100, REST) == x && Grants(x, 1100, REST) == x && StopOrIdle(x, 1100, REST) == Idle(1100);
  }

  lemma Idles(t: nat, now: nat)
    requires t <= now <= t + POLL_TICKS
    ensures Goes(Idle(t), t, H.PassIn(now, None, 0, REST), Idle(now))
  {
    var x := Idle(t);
    assert Take(x, now, None, 0) == x;
    hide CodedBudget;
    assert Settle(x, now, REST) == x && Grants(x, now, REST) == x;
    assert Due(now, t);
    assert StopOrIdle(x, now, REST) == Idle(now);
  }

  function Granting(t: nat): Exec {
    PulseBegin(Idle(t), P_SUBMIT, LAST, 2000).(slotDone := false, codedLast := false)
  }

  lemma WrongBudget(t: nat)
    ensures CodedBudget(Idle(t), LAST) == 2796 && TrueBudget(LAST - 1100) == 0
  {
    assert Since(LAST, 1100) == 429496730;
    assert (429496730 * 10) % WORD == 4;
  }

  lemma Grants49Days(t: nat)
    requires t <= LAST <= t + POLL_TICKS
    ensures Goes(Idle(t), t, H.PassIn(LAST, None, 0, GRANT), Granting(t))
  {
    var x := Idle(t);
    WrongBudget(t);
    hide CodedBudget;
    assert Take(x, LAST, None, 0) == x;
    assert Settle(x, LAST, GRANT) == x;
    assert Grants(x, LAST, GRANT) == Granting(t);
    assert StopOrIdle(Granting(t), LAST, GRANT) == Granting(t);
  }

  // ---- The run ----

  lemma Begin() returns (xs: seq<Exec>, ps: seq<H.PassIn>)
    ensures IsRun(T0, xs, ps) && H.TimeAt(T0, ps, |ps|) == 1100 && xs[|ps|] == Idle(1100)
  {
    C.FirstPass();
    ScanRuns();
    ScanEnds();
    assert Goes(C.BOOT, T0, H.PassIn(1000, None, 0, SCAN), C.SCANNING) by { C.TakesNothing(); }
    hide Goes, Idle;
    xs, ps := [C.BOOT], [];
    xs, ps := Extend(xs, ps, H.PassIn(1000, None, 0, SCAN), C.SCANNING);
    xs, ps := Extend(xs, ps, H.PassIn(1050, None, 0, SCAN), C.SCANNING);
    xs, ps := Extend(xs, ps, H.PassIn(1100, Some(Mail(1, 1100, true)), 0, REST), Idle(1100));
  }

  // The executor polls every half second, with nothing to scan, until less than one poll is left.
  lemma Wait() returns (xs: seq<Exec>, ps: seq<H.PassIn>, t: nat)
    ensures IsRun(T0, xs, ps) && H.TimeAt(T0, ps, |ps|) == t && xs[|ps|] == Idle(t) && t <= LAST <= t + POLL_TICKS
  {
    xs, ps := Begin();
    t := 1100;
    hide *;
    while LAST > t + POLL_TICKS
      invariant |xs| == |ps| + 1
      invariant IsRun(T0, xs, ps) && H.TimeAt(T0, ps, |ps|) == t && xs[|ps|] == Idle(t) && t <= LAST
      decreases LAST - t
    {
      var now := t + POLL_TICKS;
      Idles(t, now);
      xs, ps := AndThen(xs, ps, H.PassIn(now, None, 0, REST), Idle(t), Idle(now), t);
      t := now;
    }
  }

  lemma Covered(t: nat)
    ensures Idle(t).codedEndAt == H.CoverEnd(Idle(t).log) == 1100
  {
    var log := Idle(t).log;
    assert log[..|log| - 1] == C.SCANNING.log;
  }

  // A pass that grants a pulse of 2 s with nothing left of the true budget: the code's reads 2796 ms, and
  // the deadline is not within RP_BLIND_MAX_MS of the end of the last Coded window that counted.
  ghost predicate GrantsBeyond(x: Exec, now: nat, y: Exec) {
    && x.codedEndAt == H.CoverEnd(x.log) && x.codedEndAt <= now
    && CodedBudget(x, now) == 2796 && TrueBudget(now - x.codedEndAt) == 0
    && y.log == x.log + [Granted(P_SUBMIT, now, now + 200)]
    && !H.WithinBlind(H.CoverEnd(x.log), now + 200)
  }

  lemma LastGrant(t: nat)
    ensures GrantsBeyond(Idle(t), LAST, Granting(t))
  {
    WrongBudget(t);
    Covered(t);
    hide CodedBudget, H.CoverEnd;
  }

  lemma BudgetWrong() returns (xs: seq<Exec>, ps: seq<H.PassIn>)
    ensures IsRun(T0, xs, ps) && |ps| > 0
    ensures GrantsBeyond(xs[|ps| - 1], ps[|ps| - 1].now, xs[|ps|])
  {
    var t;
    xs, ps, t := Wait();
    Grants49Days(t);
    LastGrant(t);
    hide *;
    xs, ps := AndThen(xs, ps, H.PassIn(LAST, None, 0, GRANT), Idle(t), Granting(t), t);
  }

  lemma AndThen(xs: seq<Exec>, ps: seq<H.PassIn>, p: H.PassIn, x: Exec, y: Exec, t: nat)
      returns (xs2: seq<Exec>, ps2: seq<H.PassIn>)
    requires IsRun(T0, xs, ps) && H.TimeAt(T0, ps, |ps|) == t && xs[|ps|] == x && Goes(x, t, p, y)
    ensures IsRun(T0, xs2, ps2) && |xs2| == |ps2| + 1 == |ps| + 2 && xs2[|ps|] == x && xs2[|ps2|] == y && ps2[|ps|] == p
    ensures H.TimeAt(T0, ps2, |ps2|) == p.now
  {
    hide Goes;
    xs2, ps2 := Extend(xs, ps, p, y);
  }
}
