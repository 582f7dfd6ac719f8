/**
 The router retry: while the STA is down, a retry of the network in use, deferred by an attempt, by
 the setup page in use and by stations joining the SoftAP, each no longer than its cap.
 */
module RouterRetry {
  import opened Ticks

  const RETRY_TICKS := 3000        // ROUTER_RETRY_MS, 30 s
  const JITTER_MAX := 500          // ROUTER_RETRY_JITTER_MS, 5 s
  const PAGE_MAX := 30000          // ROUTER_RETRY_PAGE_MAX_MS, 300 s
  const JOIN_MAX := 1000           // ROUTER_RETRY_JOIN_MAX_MS, 10 s

  /** What a pass reads at one moment: the STA down with a network in use, the last attempt's stamp, one
      in flight, the setup page in use, a station joining the SoftAP. */
  datatype Facts = Facts(now: nat, fallback: bool, mark: nat, inFlight: bool, page: bool, joining: bool)

  /** A pass: its facts before the grant wait, a fresh jitter, its facts after, and whether
      wifi_manager's queue took the order. */
  datatype PassIn = PassIn(a: Facts, jitter: nat, b: Facts, queued: bool)

  datatype State = State(retries: nat, retryMark: nat, jitter: nat, joinDeferAt: nat)

  // How far a pass came: back before the grant wait, after it, or as far as the order.
  datatype Outcome = Early | AfterWait | Ordered(sent: bool)

  function JoinStamp(st: State, f: Facts): State {
    if f.joining && st.joinDeferAt == 0 then st.(joinDeferAt := Stamp(f.now)) else st
  }

  // `retry_join_wait`, after its stamp.
  predicate JoinWaits(st: State, f: Facts) {
    f.joining && Since(f.now, st.joinDeferAt) < JOIN_MAX
  }

  predicate PageWaits(f: Facts, mark: nat) {
    f.page && Since(f.now, mark) < PAGE_MAX
  }

  function Marked(st: State, p: PassIn): State {
    if p.a.mark != st.retryMark then st.(retryMark := p.a.mark, jitter := p.jitter, joinDeferAt := 0) else st
  }

  predicate TooSoon(st: State, f: Facts) {
    f.inFlight || Since(f.now, f.mark) < RETRY_TICKS + st.jitter
  }

  // `router_retry`
  function Pass(st: State, p: PassIn): (State, Outcome) {
    if !p.a.fallback then (st.(retries := 0), Early)
    else if p.a.mark == 0 then (st, Early)
    else
      var s := Marked(st, p);
      if TooSoon(s, p.a) || PageWaits(p.a, p.a.mark) then (s, Early)
      else
        var u := JoinStamp(s, p.a);
        if JoinWaits(u, p.a) then (u, Early)
        else if !p.b.fallback || p.b.inFlight || p.b.mark != p.a.mark || PageWaits(p.b, p.a.mark) then (u, AfterWait)
        else
          var v := JoinStamp(u, p.b);
          if JoinWaits(v, p.b) then (v, AfterWait)
          else if !p.queued then (v, Ordered(false))
          else (v.(retries := v.retries + 1), Ordered(true))
  }

  class RetryTask {
    var retries: nat
    var retryMark: nat
    var jitter: nat
    var joinDeferAt: nat

    function Value(): State
      reads this
    {
      State(retries, retryMark, jitter, joinDeferAt)
    }

    constructor ()
      ensures Value() == State(0, 0, 0, 0)
    {
      retries, retryMark, jitter, joinDeferAt := 0, 0, 0, 0;
    }

    method RetryJoinWait(f: Facts) returns (wait: bool)
      modifies this
      ensures Value() == JoinStamp(old(Value()), f) && wait == JoinWaits(Value(), f)
    {
      hide Since, Unset;
      if !f.joining {
        return false;
      }
      if joinDeferAt == 0 {
        joinDeferAt := Stamp(f.now);
      }
      return Since(f.now, joinDeferAt) < JOIN_MAX;
    }

    method RouterRetry(p: PassIn) returns (outcome: Outcome)
      modifies this
      ensures (Value(), outcome) == Pass(old(Value()), p)
    {
      hide Since, Unset, JoinStamp, JoinWaits;
      if !p.a.fallback {
        retries := 0;
        return Early;
      }
      if p.a.mark == 0 {
        return Early;
      }
      if p.a.mark != retryMark {
        retryMark := p.a.mark;
        jitter := p.jitter;
        joinDeferAt := 0;
      }
      if p.a.inFlight || Since(p.a.now, p.a.mark) < RETRY_TICKS + jitter {
        return Early;
      }
      if p.a.page && Since(p.a.now, p.a.mark) < PAGE_MAX {
        return Early;
      }
      var wait := RetryJoinWait(p.a);
      if wait {
        return Early;
      }
      if !p.b.fallback || p.b.inFlight || p.b.mark != p.a.mark || PageWaits(p.b, p.a.mark) {
        return AfterWait;
      }
      wait := RetryJoinWait(p.b);
      if wait {
        return AfterWait;
      }
      if !p.queued {
        return Ordered(false);
      }
      retries := retries + 1;
      return Ordered(true);
    }
  }

  // ---- No order too soon ----

  lemma SinceAtMost(now: nat, at: nat)
    requires at <= now
    ensures Since(now, at) <= now - at
  {
  }

  // An order goes out only ROUTER_RETRY_MS or more after the last attempt's start or end, none being
  // in flight.
  lemma NeverTooSoon(st: State, p: PassIn)
    requires Pass(st, p).1.Ordered? && p.a.mark <= p.a.now <= p.b.now
    ensures p.b.now >= p.a.mark + RETRY_TICKS && p.b.mark == p.a.mark && !p.a.inFlight && !p.b.inFlight
  {
    hide Since;
    SinceAtMost(p.a.now, p.a.mark);
  }

  // ---- Exactly when an order goes out ----

  // The jitter and the deferral's stamp (0: none) kept for a mark.
  function JitterFor(st: State, p: PassIn): nat {
    if st.retryMark == p.a.mark then st.jitter else p.jitter
  }

  function StampFor(st: State, mark: nat): nat {
    if st.retryMark == mark then st.joinDeferAt else 0
  }

  // A station joining lets the order go only once the deferral stamped at `since` is JOIN_MAX old. A
  // deferral that begins on a tick whose 32 bits are 0 is stamped one tick on and holds nothing back then.
  predicate Lets(f: Facts, since: nat) {
    f.joining ==> if since == 0 then Unset(f.now) else f.now - since >= JOIN_MAX || f.now == since - 1
  }

  // A moment's other facts: the STA down and no attempt, and the page not in use or PAGE_MAX past the mark.
  predicate Free(f: Facts, mark: nat) {
    f.fallback && !f.inFlight && f.mark == mark && (f.page ==> f.now - mark >= PAGE_MAX)
  }

  // The pass's clock: it goes on, the mark and a deferral kept for it lie behind.
  predicate Clocked(st: State, p: PassIn) {
    && p.a.mark <= p.a.now <= p.b.now < p.a.mark + WORD
    && var d := StampFor(st, p.a.mark); d != 0 ==> d <= p.a.now + 1 && p.b.now < d + WORD
  }

  // Before the grant wait a pass goes on if and only if an attempt is known, ROUTER_RETRY_MS and its
  // jitter past it, and neither the page nor a joining station holds it back.
  lemma AsksWhen(st: State, p: PassIn)
    requires Clocked(st, p)
    ensures !Pass(st, p).1.Early? <==>
            && p.a.mark != 0 && Free(p.a, p.a.mark) && p.a.now - p.a.mark >= RETRY_TICKS + JitterFor(st, p)
            && Lets(p.a, StampFor(st, p.a.mark))
  {
    hide Unset;
  }

  // ... and it orders if and only if, after the wait, no attempt came and neither holds it back either.
  lemma OrderedWhen(st: State, p: PassIn)
    requires Clocked(st, p)
    ensures Pass(st, p).1.Ordered? <==>
            && !Pass(st, p).1.Early? && Free(p.b, p.a.mark)
            && Lets(p.b, if StampFor(st, p.a.mark) == 0 && p.a.joining then Stamp(p.a.now) else StampFor(st, p.a.mark))
    ensures Pass(st, p).1.Ordered? ==> Pass(st, p).1.sent == p.queued
  {
    hide Unset;
  }

  // What a pass keeps: the mark it saw, with the jitter drawn and the deferral begun for that mark. A
  // station joining begins one, at the moment it is asked about, unless one is kept.
  lemma PassKeeps(st: State, p: PassIn)
    ensures var (s, o) := Pass(st, p); var seen := p.a.fallback && p.a.mark != 0;
      && s.retryMark == (if seen then p.a.mark else st.retryMark)
      && s.jitter == (if seen then JitterFor(st, p) else st.jitter)
      && s.retries == (if !p.a.fallback then 0 else if o == Ordered(true) then st.retries + 1 else st.retries)
      && var d := if seen then StampFor(st, p.a.mark) else st.joinDeferAt;
         && (d != 0 ==> s.joinDeferAt == d)
         && (d == 0 && s.joinDeferAt != 0 ==> seen && (Begins(p.a, s.joinDeferAt) || Begins(p.b, s.joinDeferAt)))
  {
    hide Unset, Since, Stamp;
  }

  predicate Begins(f: Facts, since: nat) {
    f.joining && since == Stamp(f.now)
  }

  // A run of passes with any facts, in the order of time.
  ghost predicate IsAnyRun(sts: seq<State>, ps: seq<PassIn>) {
    && |sts| == |ps| + 1
    && (forall k :: 0 <= k < |ps| ==> sts[k + 1] == Pass(sts[k], ps[k]).0 && ps[k].a.now <= ps[k].b.now)
    && (forall k :: 0 < k < |ps| ==> ps[k - 1].b.now <= ps[k].a.now)
  }

  // In a run from boot a deferral is never stamped past the next pass, but for the tick off 0.
  lemma {:induction false} StampIsPast(sts: seq<State>, ps: seq<PassIn>, k: nat)
    requires IsAnyRun(sts, ps) && k < |ps| && sts[0].joinDeferAt == 0
    ensures sts[k].joinDeferAt <= ps[k].a.now + 1
  {
    hide Pass, Stamp, Unset;
    if k > 0 {
      StampIsPast(sts, ps, k - 1);
      PassKeeps(sts[k - 1], ps[k - 1]);
    }
  }

  // One jitter and at most one deferral per mark: while no other mark is seen, the jitter stays as drawn and
  // a deferral begun stays as stamped, however often the page, stations or the STA's state change.
  lemma {:induction false} OnePerMark(sts: seq<State>, ps: seq<PassIn>, j: nat, k: nat)
    requires IsAnyRun(sts, ps) && j <= k <= |ps|
    requires forall i :: j <= i < k && ps[i].a.fallback ==> ps[i].a.mark == 0 || ps[i].a.mark == sts[j].retryMark
    ensures sts[k].retryMark == sts[j].retryMark && sts[k].jitter == sts[j].jitter
    ensures sts[j].joinDeferAt != 0 ==> sts[k].joinDeferAt == sts[j].joinDeferAt
  {
    hide Pass;
    if j < k {
      OnePerMark(sts, ps, j, k - 1);
      PassKeeps(sts[k - 1], ps[k - 1]);
    }
  }

  // ---- An order in bounded time ----

  // The pass's last moment.
  function EndOf(st: State, p: PassIn): nat {
    if Pass(st, p).1.Early? then p.a.now else p.b.now
  }

  // The STA stays down with no attempt after `mark`; the grant wait takes at most `wait`.
  predicate Down(p: PassIn, mark: nat, wait: nat) {
    && p.a.fallback && p.b.fallback && !p.a.inFlight && !p.b.inFlight
    && p.a.mark == mark && p.b.mark == mark && p.jitter <= JITTER_MAX
    && mark <= p.a.now <= p.b.now <= p.a.now + wait
  }

  // By when an order must have been reached.
  function Bound(mark: nat, wait: nat, gap: nat): nat {
    mark + PAGE_MAX + JOIN_MAX + 2 * wait + 2 * gap
  }

  // A run of passes: one starts at most `gap` after the one before it ended.
  ghost predicate IsRun(sts: seq<State>, ps: seq<PassIn>, mark: nat, wait: nat, gap: nat) {
    && |sts| == |ps| + 1 && mark > 0
    && (forall k :: 0 <= k < |ps| ==> Goes(sts[k], ps[k], sts[k + 1], mark, wait))
    && (forall k :: 0 < k < |ps| ==> Follows(sts[k - 1], ps[k - 1], ps[k], gap))
  }

  predicate Goes(st: State, p: PassIn, st2: State, mark: nat, wait: nat) {
    Down(p, mark, wait) && st2 == Pass(st, p).0
  }

  predicate Follows(st: State, p: PassIn, q: PassIn, gap: nat) {
    EndOf(st, p) <= q.a.now <= EndOf(st, p) + gap
  }

  // A deferral running for this mark began after it, and no later than now.
  predicate Deferral(st: State, now: nat, mark: nat) {
    st.retryMark == mark ==> st.jitter <= JITTER_MAX && (st.joinDeferAt != 0 ==> mark <= st.joinDeferAt <= now + 1)
  }

  // After a pass with no order: the page's cap is still ahead, or a join deferral still runs.
  predicate Waiting(st: State, end: nat, mark: nat, wait: nat, gap: nat) {
    && st.retryMark == mark && Deferral(st, end, mark)
    && (end < mark + PAGE_MAX ||
        (st.joinDeferAt != 0 && st.joinDeferAt <= mark + PAGE_MAX + gap + wait + 1 && end < st.joinDeferAt + JOIN_MAX))
  }

  // The state before a pass, and the pass's start.
  predicate Ready(st: State, p: PassIn, mark: nat, wait: nat, gap: nat) {
    && Deferral(st, p.a.now, mark)
    && (p.a.now < mark + PAGE_MAX + gap ||
        (st.retryMark == mark && st.joinDeferAt != 0 && st.joinDeferAt <= mark + PAGE_MAX + gap + wait + 1 &&
         p.a.now < st.joinDeferAt + JOIN_MAX + gap))
  }

  // A pass either reaches the order in time, or leaves a deferral that will run out.
  lemma PassWaits(st: State, p: PassIn, mark: nat, wait: nat, gap: nat)
    requires Down(p, mark, wait) && mark > 0 && Ready(st, p, mark, wait, gap)
    requires p.b.now < mark + HALF
    ensures var (s, o) := Pass(st, p);
      if o.Ordered? then p.b.now <= Bound(mark, wait, gap) else Waiting(s, EndOf(st, p), mark, wait, gap)
  {
    hide Unset, Stamp, JoinWaits, Since;
    var s := Marked(st, p);
    assert Since(p.a.now, mark) == p.a.now - mark && Since(p.b.now, mark) == p.b.now - mark;
    var u := JoinStamp(s, p.a);
    JoinOver(u, p.a);
    var v := JoinStamp(u, p.b);
    JoinOver(v, p.b);
    assert Pass(st, p) ==
      if TooSoon(s, p.a) || PageWaits(p.a, mark) then (s, Early)
      else if JoinWaits(u, p.a) then (u, Early)
      else if PageWaits(p.b, mark) then (u, AfterWait)
      else if JoinWaits(v, p.b) then (v, AfterWait)
      else if !p.queued then (v, Ordered(false)) else (v.(retries := v.retries + 1), Ordered(true));
    hide Pass;
    if TooSoon(s, p.a) || PageWaits(p.a, mark) {
    } else if JoinWaits(u, p.a) {
    } else if PageWaits(p.b, mark) {
    } else if JoinWaits(v, p.b) {
    } else {
    }
  }

  // A join deferral that still holds a pass back has not run its cap out.
  lemma JoinOver(st: State, f: Facts)
    requires f.joining ==> st.joinDeferAt <= f.now + 1 && f.now < st.joinDeferAt + HALF
    ensures JoinWaits(st, f) ==> st.joinDeferAt <= f.now < st.joinDeferAt + JOIN_MAX
  {
  }

  // While no pass has reached the order, every pass starts with a deferral that will run out.
  lemma {:induction false} StillReady(sts: seq<State>, ps: seq<PassIn>, mark: nat, wait: nat, gap: nat, k: nat)
    requires IsRun(sts, ps, mark, wait, gap) && k < |ps|
    requires Ready(sts[0], ps[0], mark, wait, gap)
    requires forall j :: 0 <= j < |ps| ==> ps[j].b.now < mark + HALF
    requires forall j :: 0 <= j < k ==> !Pass(sts[j], ps[j]).1.Ordered?
    ensures Ready(sts[k], ps[k], mark, wait, gap)
  {
    hide Pass, Ready, Waiting, Down;
    if k > 0 {
      StillReady(sts, ps, mark, wait, gap, k - 1);
      assert Goes(sts[k - 1], ps[k - 1], sts[k], mark, wait);
      assert Follows(sts[k - 1], ps[k - 1], ps[k], gap);
      PassWaits(sts[k - 1], ps[k - 1], mark, wait, gap);
      WaitingReady(sts[k], EndOf(sts[k - 1], ps[k - 1]), ps[k], mark, wait, gap);
    }
  }

  lemma WaitingReady(st: State, end: nat, q: PassIn, mark: nat, wait: nat, gap: nat)
    requires Waiting(st, end, mark, wait, gap) && end <= q.a.now <= end + gap
    ensures Ready(st, q, mark, wait, gap)
  {
  }

  lemma ReadyInTime(st: State, p: PassIn, mark: nat, wait: nat, gap: nat)
    requires Ready(st, p, mark, wait, gap)
    ensures p.a.now <= Bound(mark, wait, gap)
  {
  }

  // While the STA stays down with no attempt after the mark, whatever the page and the joining
  // stations do, a run that goes on past the bound has a pass that reached the order by then.
  lemma OrderedInTime(sts: seq<State>, ps: seq<PassIn>, mark: nat, wait: nat, gap: nat)
    requires IsRun(sts, ps, mark, wait, gap) && |ps| > 0
    requires Ready(sts[0], ps[0], mark, wait, gap)
    requires forall j :: 0 <= j < |ps| ==> ps[j].b.now < mark + HALF
    requires ps[|ps| - 1].a.now > Bound(mark, wait, gap)
    ensures exists k :: 0 <= k < |ps| && Pass(sts[k], ps[k]).1.Ordered? && ps[k].b.now <= Bound(mark, wait, gap)
  {
    hide Pass, Ready, Bound, Down, Follows;
    var k := 0;
    while k < |ps| && !Pass(sts[k], ps[k]).1.Ordered?
      invariant k <= |ps| && forall j :: 0 <= j < k ==> !Pass(sts[j], ps[j]).1.Ordered?
    {
      k := k + 1;
    }
    var last := if k < |ps| then k else |ps| - 1;
    StillReady(sts, ps, mark, wait, gap, last);
    assert Goes(sts[last], ps[last], sts[last + 1], mark, wait);
    PassWaits(sts[last], ps[last], mark, wait, gap);
    ReadyInTime(sts[last], ps[last], mark, wait, gap);
  }
}
