/**
 The executor's arithmetic on time: when a stopped Coded scan may count as a covering window, when
 the blind budget is right, and how long a pass may sleep.
 */
module ExecutorTimes {
  import opened Ticks
  import opened RadioTable
  import opened ExecutorSpec
  import opened RadioHistory
  import opened ExecutorPace

  // The tick in progress at an instant, in ms.
  function TickAt(ms: real): int {
    (ms / 10.0).Floor
  }

  // Any scan whose start and stop ticks are `n` apart ran for at least RP_L_MS.
  ghost predicate Covers(n: int) {
    forall s: real, e: real :: TickAt(e) - TickAt(s) == n ==> e - s >= L_MS as real
  }

  // L_TICKS is the least stamp difference that guarantees RP_L_MS of scanning, wherever in their
  // ticks the scan started and stopped.
  lemma CoveringTicks(n: int)
    ensures Covers(n) <==> n >= L_TICKS
  {
    assert L_TICKS == 56;
    if n >= 56 {
      forall s: real, e: real | TickAt(e) - TickAt(s) == n
        ensures e - s >= L_MS as real
      {
        assert s / 10.0 < TickAt(s) as real + 1.0 && TickAt(e) as real <= e / 10.0;
        assert TickAt(e) as real - TickAt(s) as real == n as real >= 56.0;
      }
    } else {
      var s, e := 9.0, 10.0 * n as real;
      assert TickAt(s) == 0 && e / 10.0 == n as real && TickAt(e) == n;
      assert e - s < L_MS as real;
    }
  }

  // The blind budget as it is meant: what is left of RP_BLIND_MAX_MS since the last Coded window.
  function TrueBudget(since: nat): nat {
    if 10 * since >= BLIND_MAX_MS then 0 else BLIND_MAX_MS - 10 * since
  }

  // With no covering scan running, the budget is right except when the milliseconds since the last
  // Coded window, 2.8 s or more, wrap in 32 bits to less than 2.8 s.
  lemma BudgetRight(x: Exec, now: nat)
    requires !Covering(x, now) && !Unset(x.codedEndAt) && x.codedEndAt <= now < x.codedEndAt + WORD
    ensures var since := now - x.codedEndAt;
      CodedBudget(x, now) == TrueBudget(since) <==> (since < 280 || (10 * since) % WORD >= BLIND_MAX_MS)
  {
    hide Covering, Unset;
    var since := now - x.codedEndAt;
    assert Since(now, x.codedEndAt) == since && Ms(since) == (since * 10) % WORD;
    if since < 280 {
      assert Ms(since) == since * 10;
    }
  }

  predicate Near(a: int, b: int) {
    -HALF <= a - b < HALF
  }

  // By the edge, or one tick on.
  predicate By(wake: int, edge: int, now: int) {
    wake <= edge || wake == now + 1
  }

  // A Coded scan that has not covered an advert interval yet.
  predicate YoungCoded(x: Exec, now: nat) {
    x.pulse == P_NONE && x.scanOn && KindCoded(x.kind) && x.startedAt <= now < x.startedAt + L_TICKS
  }

  // A pass sleeps at most one tick past the edge it waits for: a Wi-Fi slot's or a pulse's end, a join
  // assist's own end when that is sooner, a claim's deadline and CLAIM_OVERRUN_MS, the next start, or the
  // moment a young Coded scan covers an advert interval.
  lemma SleepsToEdge(x: Exec, now: nat, want: Row, joinEnd: Option<nat>)
    ensures var wake := now + Sleep(x, now, want, joinEnd);
      && (x.pulse == P_NONE && WifiSlot(x) && Near(x.wEndAt, now) ==> By(wake, x.wEndAt, now))
      && (WifiPulse(x) && x.deadline != 0 && Near(x.deadline, now) && JoinNear(x, now, joinEnd) ==>
            By(wake, x.deadline, now))
      && ((x.pulse == P_JOIN && joinEnd.Some? && x.deadline != 0 && Near(x.deadline, now) &&
           JoinNear(x, now, joinEnd)) ==> By(wake, joinEnd.value, now))
      && (x.pulse == P_CONNECT && !x.overrunAsked && x.deadline != 0 && Near(x.deadline + OVERRUN_TICKS, now) ==>
            By(wake, x.deadline + OVERRUN_TICKS, now))
      && (x.pulse == P_NONE && !x.scanOn && !WifiSlot(x) && want != ROW_NONE && Near(x.retryAt, now) ==>
            By(wake, x.retryAt, now))
      && (YoungCoded(x, now) ==> By(wake, x.startedAt + L_TICKS, now))
  {
    hide Since;
  }

  predicate JoinNear(x: Exec, now: nat, joinEnd: Option<nat>) {
    x.pulse == P_JOIN && joinEnd.Some? ==> Near(joinEnd.value, now) && Near(joinEnd.value, x.deadline)
  }

  // The stamps a pass of a run compares are all near.
  lemma RunNear(t0: nat, xs: seq<Exec>, ps: seq<PassIn>, k: nat)
    requires IsRun(t0, xs, ps) && k <= |ps|
    ensures var (x, now) := (xs[k], TimeAt(t0, ps, k));
      && (WifiSlot(x) ==> Near(x.wEndAt, now)) && (!x.scanOn ==> Near(x.retryAt, now))
      && (WifiPulse(x) ==> Near(x.deadline, now) && now < x.deadline)
      && (x.pulse == P_CONNECT ==> Near(x.deadline + OVERRUN_TICKS, now))
  {
    RunPaced(t0, xs, ps, k);
    RadioIsExclusive(t0, xs, ps, k);
    hide IsRun;
    CodedPast(xs[k], TimeAt(t0, ps, k));
    RadioNear(xs[k], TimeAt(t0, ps, k));
    hide Good;
  }

  lemma RadioNear(x: Exec, now: nat)
    requires Good(x, now)
    ensures x.retryAt <= now + 200 && (WifiPulse(x) ==> x.deadline <= now + 300)
  {
    hide Linked;
  }

  // After every pass of every run, the sleep ends at most one tick past the edge the pass waits for, and
  // by a Wi-Fi pulse's deadline. Only a join assist's own end comes from outside.
  lemma RunSleeps(t0: nat, xs: seq<Exec>, ps: seq<PassIn>, k: nat, want: Row, joinEnd: Option<nat>)
    requires IsRun(t0, xs, ps) && k <= |ps|
    ensures var (x, now) := (xs[k], TimeAt(t0, ps, k)); var wake := now + Sleep(x, now, want, joinEnd);
      && (x.pulse == P_NONE && WifiSlot(x) ==> By(wake, x.wEndAt, now))
      && (WifiPulse(x) && JoinNear(x, now, joinEnd) ==> wake <= x.deadline)
      && (x.pulse == P_CONNECT && !x.overrunAsked && x.deadline != 0 ==> By(wake, x.deadline + OVERRUN_TICKS, now))
      && (x.pulse == P_NONE && !x.scanOn && !WifiSlot(x) && want != ROW_NONE ==> By(wake, x.retryAt, now))
      && (YoungCoded(x, now) ==> By(wake, x.startedAt + L_TICKS, now))
  {
    var (x, now) := (xs[k], TimeAt(t0, ps, k));
    RunNear(t0, xs, ps, k);
    hide Sleep, IsRun, JoinNear;
    SleepsToEdge(x, now, want, joinEnd);
  }
}
