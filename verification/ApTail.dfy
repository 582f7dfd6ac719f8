/**
 The SoftAP's tail after an IP: how long it stays up, moved pass by pass from the stations on it and
 the page's Finish. All times in ticks after the IP.
 */
module ApTail {
  const AUTO_LEFT := 1000       // 10 s after the last station left
  const SUBMIT_CAP := 6000      // 60 s, a setup-page Connect
  const SUBMIT_LEFT := 1500     // 15 s after the last station left ...
  const SUBMIT_MIN := 1500      // ... never sooner than 15 s after the IP
  const BACKSTOP := 7500        // 75 s
  const FINISH := 200           // 2 s after the tap ...
  const FINISH_MIN := 500       // ... never sooner than 5 s after the IP
  const UNSET := 0xFFFF_FFFF    // AP_TAIL_STOP_UNSET

  /** The IP's tail, as its callback set it. */
  datatype Tail = Tail(ip: nat, cap: nat, armed: bool, submit: bool)

  /** What a pass reads: the STA connected with the SoftAP up, ticks since the IP, the stations (-1: the
      driver cannot say), the stop of a Finish for this IP (0: none), and whether the timer command and
      the backstop's order are taken. */
  datatype PassIn = PassIn(up: bool, since: nat, stations: int, finish: nat, timerTaken: bool, orderTaken: bool)

  datatype State = State(tailIp: nat, stop: nat, empty: nat, backstopFor: nat, orders: seq<nat>)

  function Min(a: nat, b: nat): nat {
    if a < b then a else b
  }

  function Max(a: nat, b: nat): nat {
    if a < b then b else a
  }

  // `portal_finish`'s stop for a tap at `since`.
  function FinishStop(since: nat): nat {
    Max(since + FINISH, FINISH_MIN)
  }

  // The stop the rules give: the cap, a sooner Finish, and with no station since `empty` its left rule.
  function RuleStop(t: Tail, finish: nat, empty: nat): nat {
    var byFinish := if finish != 0 then Min(t.cap, finish) else t.cap;
    if empty == 0 then byFinish
    else Min(byFinish, if t.submit then Max(empty + SUBMIT_LEFT, SUBMIT_MIN) else empty + AUTO_LEFT)
  }

  class TailTask {
    var tailIp: nat
    var stop: nat
    var empty: nat
    var backstopFor: nat
    ghost var orders: seq<nat>   // the IPs whose backstop's STOP_AP was taken

    ghost function Value(): State
      reads this
    {
      State(tailIp, stop, empty, backstopFor, orders)
    }

    constructor ()
      ensures Value() == State(0, 0, 0, 0, [])
    {
      tailIp, stop, empty, backstopFor := 0, 0, 0, 0;
      orders := [];
    }

    // The stop by the cap, the Finish and the stations.
    method NextStop(t: Tail, finish: nat) returns (next: nat)
      ensures next == RuleStop(t, finish, empty)
    {
      next := t.cap;
      if finish != 0 && finish < next {
        next := finish;
      }
      if empty != 0 {
        var byLeft := empty + (if t.submit then SUBMIT_LEFT else AUTO_LEFT);
        if t.submit && byLeft < SUBMIT_MIN {
          byLeft := SUBMIT_MIN;
        }
        if byLeft < next {
          next := byLeft;
        }
      }
    }

    // `ap_tail_maintain`
    method Maintain(t: Tail, p: PassIn)
      modifies this
      ensures Value() == Pass(old(Value()), t, p)
    {
      hide RuleStop;
      if t.ip == 0 || !p.up {
        tailIp := 0;
        return;
      }
      if p.since >= BACKSTOP {
        if backstopFor != t.ip && p.orderTaken {
          backstopFor := t.ip;
          orders := orders + [t.ip];
        }
        return;
      }
      if t.cap == 0 {
        return;
      }
      if tailIp != t.ip {
        tailIp := t.ip;
        stop := if t.armed then t.cap else UNSET;
        empty := 0;
      }
      if p.stations < 0 {
        return;
      }
      if p.stations > 0 {
        empty := 0;
      } else if empty == 0 {
        empty := if p.since != 0 then p.since else 1;
      }
      var next := NextStop(t, p.finish);
      if next == stop {
        return;
      }
      if !p.timerTaken {
        return;
      }
      stop := next;
    }
  }

  // ---- The pass ----

  function Follow(s: State, t: Tail): State {
    if s.tailIp != t.ip then s.(tailIp := t.ip, stop := if t.armed then t.cap else UNSET, empty := 0) else s
  }

  function Counted(s: State, p: PassIn): State {
    s.(empty := if p.stations > 0 then 0 else if s.empty == 0 then Max(p.since, 1) else s.empty)
  }

  function Pass(s: State, t: Tail, p: PassIn): State {
    if t.ip == 0 || !p.up then s.(tailIp := 0)
    else if p.since >= BACKSTOP then
      if s.backstopFor != t.ip && p.orderTaken then s.(backstopFor := t.ip, orders := s.orders + [t.ip]) else s
    else if t.cap == 0 then s
    else
      var f := Follow(s, t);
      if p.stations < 0 then f
      else
        var c := Counted(f, p);
        var next := RuleStop(t, p.finish, c.empty);
        if next == c.stop || !p.timerTaken then c else c.(stop := next)
  }

  // The pass follows the tail, with or without a count.
  predicate Followed(t: Tail, p: PassIn) {
    t.ip != 0 && p.up && p.since < BACKSTOP && t.cap != 0
  }

  // ---- What the recorded stop is ----

  /** Since when the SoftAP has had no station: the first of the unbroken passes, at the end of `ps`, that
      did not see one (0: a station was seen last). A pass with no count breaks nothing. */
  function EmptySince(ps: seq<PassIn>): nat {
    if ps == [] then 0
    else
      var p := ps[|ps| - 1];
      if p.stations < 0 then EmptySince(ps[..|ps| - 1])
      else if p.stations > 0 then 0
      else
        var before := EmptySince(ps[..|ps| - 1]);
        if before != 0 then before else Max(p.since, 1)
  }

  // The state after the passes that follow one IP's tail.
  function PassAll(s: State, t: Tail, ps: seq<PassIn>): State {
    if ps == [] then s else Pass(PassAll(s, t, ps[..|ps| - 1]), t, ps[|ps| - 1])
  }

  ghost predicate Follows(t: Tail, ps: seq<PassIn>) {
    forall k :: 0 <= k < |ps| ==> Followed(t, ps[k])
  }

  lemma {:induction false} EmptyTracked(s: State, t: Tail, ps: seq<PassIn>)
    requires Follows(t, ps) && ps != [] && s.tailIp != t.ip
    ensures PassAll(s, t, ps).tailIp == t.ip && PassAll(s, t, ps).empty == EmptySince(ps)
  {
    var n := |ps| - 1;
    var p := ps[n];
    if n > 0 {
      assert Follows(t, ps[..n]);
      EmptyTracked(s, t, ps[..n]);
    } else {
      assert ps[..n] == [];
    }
  }

  // No station is seen from pass j on. A pass with no count sees none.
  ghost predicate NoneSeen(ps: seq<PassIn>, j: int)
    requires 0 <= j
  {
    forall k :: j <= k < |ps| ==> ps[k].stations <= 0
  }

  // Pass j is the first that counted no station since the last one that saw one.
  ghost predicate FirstEmpty(ps: seq<PassIn>, j: int) {
    && 0 <= j < |ps| && ps[j].stations == 0 && NoneSeen(ps, j)
    && forall i :: 0 <= i < j && ps[i].stations == 0 ==> !NoneSeen(ps, i)
  }

  lemma NoneSeenMore(ps: seq<PassIn>, p: PassIn, j: nat)
    requires j <= |ps|
    ensures NoneSeen(ps + [p], j) <==> NoneSeen(ps, j) && p.stations <= 0
  {
    assert forall k :: 0 <= k < |ps| ==> (ps + [p])[k] == ps[k];
    assert (ps + [p])[|ps|] == p;
  }

  // The time the code keeps is that pass's, and 0 exactly when there is none.
  lemma {:induction false} EmptySinceIs(ps: seq<PassIn>)
    ensures forall j :: FirstEmpty(ps, j) ==> EmptySince(ps) == Max(ps[j].since, 1)
    ensures EmptySince(ps) == 0 <==> forall j :: 0 <= j < |ps| && ps[j].stations == 0 ==> !NoneSeen(ps, j)
  {
    if ps != [] {
      var n := |ps| - 1;
      var (qs, p) := (ps[..n], ps[n]);
      EmptySinceIs(qs);
      assert ps == qs + [p];
      forall j | 0 <= j <= n ensures NoneSeen(ps, j) <==> NoneSeen(qs, j) && p.stations <= 0 {
        NoneSeenMore(qs, p, j);
      }
      assert NoneSeen(qs, n);
      forall j | FirstEmpty(ps, j) ensures EmptySince(ps) == Max(ps[j].since, 1) {
        if j < n {
          assert qs[j] == ps[j];
          assert FirstEmpty(qs, j);
        } else {
          assert forall i :: 0 <= i < n && qs[i].stations == 0 ==> ps[i].stations == 0 && !NoneSeen(ps, i);
        }
      }
      assert EmptySince(qs) == 0 <==> forall j :: 0 <= j < n && qs[j].stations == 0 ==> !NoneSeen(qs, j);
      if p.stations == 0 {
        assert NoneSeen(ps, n);
      } else {
        assert forall j :: 0 <= j < n ==> qs[j] == ps[j];
      }
    }
  }

  // After every pass that gets a count and has its command taken, the recorded stop is the one the
  // rules give for that pass's Finish and the pass since which no station was seen, if there is one.
  lemma RecordedStop(s: State, t: Tail, ps: seq<PassIn>)
    requires Follows(t, ps) && ps != [] && s.tailIp != t.ip
    requires ps[|ps| - 1].stations >= 0 && ps[|ps| - 1].timerTaken
    ensures forall j :: FirstEmpty(ps, j) ==>
              PassAll(s, t, ps).stop == RuleStop(t, ps[|ps| - 1].finish, Max(ps[j].since, 1))
    ensures ps[|ps| - 1].stations > 0 ==> PassAll(s, t, ps).stop == RuleStop(t, ps[|ps| - 1].finish, 0)
    ensures ps[|ps| - 1].stations == 0 ==> exists j :: FirstEmpty(ps, j)
  {
    EmptySinceIs(ps);
    RuleRecorded(s, t, ps);
    if ps[|ps| - 1].stations == 0 {
      var j := FirstEmptyOf(ps, |ps| - 1);
    }
  }

  lemma {:induction false} FirstEmptyOf(ps: seq<PassIn>, j: nat) returns (i: nat)
    requires j < |ps| && ps[j].stations == 0 && NoneSeen(ps, j)
    ensures FirstEmpty(ps, i)
  {
    if k :| 0 <= k < j && ps[k].stations == 0 && NoneSeen(ps, k) {
      i := FirstEmptyOf(ps, k);
    } else {
      i := j;
    }
  }

  lemma RuleRecorded(s: State, t: Tail, ps: seq<PassIn>)
    requires Follows(t, ps) && ps != [] && s.tailIp != t.ip
    requires ps[|ps| - 1].stations >= 0 && ps[|ps| - 1].timerTaken
    ensures PassAll(s, t, ps).stop == RuleStop(t, ps[|ps| - 1].finish, EmptySince(ps))
  {
    EmptyTracked(s, t, ps);
  }

  // A stop `s` obeys the rules that apply: the cap, a Finish's stop, and with no station since `empty` the
  // left rule, which for a Connect is never sooner than SUBMIT_MIN.
  predicate Obeys(s: nat, t: Tail, finish: nat, empty: nat) {
    && s <= t.cap
    && (finish != 0 ==> s <= finish)
    && (empty != 0 && !t.submit ==> s <= empty + AUTO_LEFT)
    && (empty != 0 && t.submit ==> s <= empty + SUBMIT_LEFT || s <= SUBMIT_MIN)
  }

  // The recorded stop is the latest that obeys them.
  lemma StopIsLatest(s: State, t: Tail, ps: seq<PassIn>, empty: nat, later: nat)
    requires Follows(t, ps) && ps != [] && s.tailIp != t.ip
    requires ps[|ps| - 1].stations >= 0 && ps[|ps| - 1].timerTaken
    requires if ps[|ps| - 1].stations > 0 then empty == 0
             else exists j :: FirstEmpty(ps, j) && empty == Max(ps[j].since, 1)
    ensures Obeys(PassAll(s, t, ps).stop, t, ps[|ps| - 1].finish, empty)
    ensures Obeys(later, t, ps[|ps| - 1].finish, empty) ==> later <= PassAll(s, t, ps).stop
  {
    hide PassAll, Follows, FirstEmpty;
    RecordedStop(s, t, ps);
  }

  // Until a pass has a count, or a timer command taken, the stop stays as the IP's callback left it.
  lemma {:induction false} StopStays(s: State, t: Tail, ps: seq<PassIn>)
    requires Follows(t, ps) && ps != [] && s.tailIp != t.ip
    requires forall k :: 0 <= k < |ps| ==> ps[k].stations < 0 || !ps[k].timerTaken
    ensures PassAll(s, t, ps).tailIp == t.ip && PassAll(s, t, ps).stop == if t.armed then t.cap else UNSET
  {
    hide RuleStop;
    var n := |ps| - 1;
    if n > 0 {
      assert Follows(t, ps[..n]);
      StopStays(s, t, ps[..n]);
    } else {
      assert ps[..n] == [];
    }
  }

  // A pass with the STA or the SoftAP down ends the tail: the passes after it are counted afresh.
  lemma DownForgets(s: State, t: Tail, p: PassIn, ps: seq<PassIn>)
    requires t.ip != 0 && !p.up && Follows(t, ps) && ps != []
    requires ps[|ps| - 1].stations >= 0 && ps[|ps| - 1].timerTaken
    ensures PassAll(Pass(s, t, p), t, ps).stop == RuleStop(t, ps[|ps| - 1].finish, EmptySince(ps))
  {
    hide PassAll, Follows, RuleStop;
    RuleRecorded(Pass(s, t, p), t, ps);
  }

  // Without a Finish a Connect's recorded stop lies between 15 and 60 s.
  lemma ConnectStop(s: State, t: Tail, ps: seq<PassIn>)
    requires Follows(t, ps) && ps != [] && s.tailIp != t.ip
    requires ps[|ps| - 1].stations >= 0 && ps[|ps| - 1].timerTaken
    requires t.submit && t.cap == SUBMIT_CAP && ps[|ps| - 1].finish == 0
    ensures SUBMIT_MIN <= PassAll(s, t, ps).stop <= SUBMIT_CAP
  {
    RuleRecorded(s, t, ps);
  }

  // A Finish only caps what the tail's own rules give.
  lemma FinishCaps(t: Tail, finish: nat, empty: nat)
    requires finish != 0
    ensures RuleStop(t, finish, empty) == Min(finish, RuleStop(t, 0, empty))
  {
  }

  // Once a Finish at `tap` is taken up, the recorded stop is, after every pass with it, the sooner of the
  // Finish's and what the tail's own rules gave at one of those passes: never past the Finish's whatever
  // the stations do, and sooner than 2 s after the tap or 5 s after the IP only by those rules.
  lemma {:induction false} FinishHolds(s: State, t: Tail, ps: seq<PassIn>, qs: seq<PassIn>, tap: nat) returns (m: nat)
    requires Follows(t, ps + qs) && ps != [] && s.tailIp != t.ip
    requires ps[|ps| - 1].stations >= 0 && ps[|ps| - 1].timerTaken
    requires ps[|ps| - 1].finish == FinishStop(tap) && forall k :: 0 <= k < |qs| ==> qs[k].finish == FinishStop(tap)
    ensures |ps| <= m <= |ps + qs|
    ensures PassAll(s, t, ps + qs).stop == Min(FinishStop(tap), RuleStop(t, 0, EmptySince((ps + qs)[..m])))
    ensures FinishStop(tap) >= tap + FINISH && FinishStop(tap) >= FINISH_MIN
  {
    if qs == [] {
      assert ps + qs == ps && ps[..|ps|] == ps;
      RuleRecorded(s, t, ps);
      FinishCaps(t, FinishStop(tap), EmptySince(ps));
      m := |ps|;
    } else {
      var n := |qs| - 1;
      var all, before := ps + qs, ps + qs[..n];
      assert all[..|all| - 1] == before && all[..|all|] == all && all[|all| - 1] == qs[n];
      assert Follows(t, before) by {
        assert forall k :: 0 <= k < |before| ==> before[k] == all[k];
      }
      m := FinishHolds(s, t, ps, qs[..n], tap);
      assert all[..m] == before[..m];
      EmptyTracked(s, t, before);
      EmptyTracked(s, t, all);
      if qs[n].stations >= 0 && qs[n].timerTaken {
        RuleRecorded(s, t, all);
        FinishCaps(t, FinishStop(tap), EmptySince(all));
        m := |all|;
      }
    }
  }

  // ---- The backstop ----

  // Passes over many IPs, whose stamps only grow.
  datatype Turn = Turn(t: Tail, p: PassIn)

  function TurnAll(s: State, qs: seq<Turn>): State {
    if qs == [] then s else Pass(TurnAll(s, qs[..|qs| - 1]), qs[|qs| - 1].t, qs[|qs| - 1].p)
  }

  // The last IP's stamp so far.
  function LastIp(qs: seq<Turn>): nat {
    if qs == [] then 0
    else if qs[|qs| - 1].t.ip != 0 then qs[|qs| - 1].t.ip
    else LastIp(qs[..|qs| - 1])
  }

  ghost predicate Growing(qs: seq<Turn>) {
    forall k :: 0 <= k < |qs| ==> qs[k].t.ip == 0 || LastIp(qs[..k]) <= qs[k].t.ip
  }

  ghost predicate Distinct(orders: seq<nat>) {
    forall j, k :: 0 <= j < k < |orders| ==> orders[j] < orders[k]
  }

  // At most one backstop order is taken per IP.
  lemma {:induction false} OneBackstop(qs: seq<Turn>)
    requires Growing(qs)
    ensures var s := TurnAll(State(0, 0, 0, 0, []), qs);
      && Distinct(s.orders) && s.backstopFor <= LastIp(qs)
      && (forall k :: 0 <= k < |s.orders| ==> s.orders[k] <= s.backstopFor)
  {
    if qs != [] {
      var n := |qs| - 1;
      assert forall k :: 0 <= k < n ==> qs[..n][k] == qs[k] && qs[..n][..k] == qs[..k];
      OneBackstop(qs[..n]);
      OrderGrows(TurnAll(State(0, 0, 0, 0, []), qs[..n]), qs[n]);
    }
  }

  lemma OrderGrows(s: State, q: Turn)
    requires Distinct(s.orders) && forall k :: 0 <= k < |s.orders| ==> s.orders[k] <= s.backstopFor
    requires q.t.ip == 0 || s.backstopFor <= q.t.ip
    ensures var v := Pass(s, q.t, q.p);
      && Distinct(v.orders) && (v.backstopFor == s.backstopFor || v.backstopFor == q.t.ip)
      && (forall k :: 0 <= k < |v.orders| ==> v.orders[k] <= v.backstopFor)
  {
    hide RuleStop;
  }

  // ... and none before 75 s.
  lemma BackstopNotBefore(s: State, t: Tail, p: PassIn)
    ensures Pass(s, t, p).orders != s.orders ==>
        p.since >= BACKSTOP && p.up && Pass(s, t, p).orders == s.orders + [t.ip]
  {
  }

  // The IP whose backstop was ordered last has its order in the history.
  lemma {:induction false} OrderedLast(qs: seq<Turn>)
    ensures var s := TurnAll(State(0, 0, 0, 0, []), qs); s.backstopFor != 0 ==> s.backstopFor in s.orders
  {
    hide RuleStop;
    if qs != [] {
      OrderedLast(qs[..|qs| - 1]);
    }
  }

  // ... and it does come: whatever came before, a pass 75 s past an IP, with the SoftAP still up and its
  // order taken, has that IP's order in the history.
  lemma BackstopComes(qs: seq<Turn>, q: Turn)
    requires q.t.ip != 0 && q.p.up && q.p.since >= BACKSTOP && q.p.orderTaken
    ensures q.t.ip in TurnAll(State(0, 0, 0, 0, []), qs + [q]).orders
  {
    OrderedLast(qs);
    assert (qs + [q])[..|qs|] == qs;
  }
}
