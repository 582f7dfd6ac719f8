/**
 Every pass of the executor is a sequence of moves from one short list, the start of the next slot
 last. An invariant of every move is then an invariant of every pass.
 */
module ExecutorMoves {
  import opened Ticks
  import opened RadioTable
  import opened ExecutorSpec

  datatype Move =
    | Note(goneAt: nat, overrunAsked: bool)               // the lost-scan stamp, the overrun asked
    | EndOwn(at: nat, dither: nat)                        // a scan's own end
    | EndOdd(at: nat, reasonOk: bool, lost: bool)         // a reset, a stopped scan's late end, a lost one
    | CancelOverdue
    | EndWifi
    | EndPulse(i: Inputs)
    | Grant(pulse: Pulse, len: nat)                       // a Wi-Fi pulse
    | Claim(len: nat)                                     // a valve claim's connect
    | Stop
    | Idle(row: Row)

  predicate Can(x: Exec, m: Move, now: nat) {
    match m
    case Note(_, _) => true
    case EndOwn(at, dither) => x.scanOn && !Early(x, at, true, false) && x.startedAt <= at <= now &&
        dither <= DITHER_TICKS
    case EndOdd(at, reasonOk, lost) => x.scanOn && (lost || !reasonOk || Early(x, at, reasonOk, lost))
    case CancelOverdue => x.scanOn
    case EndWifi => WifiSlot(x) && Due(now, x.wEndAt)
    case EndPulse(i) => x.pulse != P_NONE && PulseIsOver(x, now, i)
    case Grant(k, len) =>
      x.pulse == P_NONE && !x.recovery && !x.scanOn && k != P_NONE && k != P_CONNECT &&
          PULSE_MIN_MS <= len <= CodedBudget(x, now)
    case Claim(len) =>
      x.pulse == P_NONE && !x.recovery && Boundary(x) && x.ownEnd && PULSE_MIN_MS <= len <= CodedBudget(x, now)
    case Stop => x.scanOn
    case Idle(row) => x.pulse == P_NONE && row == if x.scanOn then x.row else ROW_NONE
  }

  function Apply(x: Exec, m: Move, now: nat): Exec {
    match m
    case Note(g, o) => x.(goneAt := g, overrunAsked := o)
    case EndOwn(at, dither) => ScanEnded(x, now, at, true, false, dither)
    case EndOdd(at, reasonOk, lost) => ScanEnded(x, now, at, reasonOk, lost, 0)
    case CancelOverdue => ScanEnded(Did(x, Cancel(now)), now, now, true, true, 0)
    case EndWifi => x.(slotDone := true, codedLast := false, endedAt := x.wEndAt)
    case EndPulse(i) => PulseEnd(x, now, i)
    case Grant(k, len) => PulseBegin(x, k, now, len).(slotDone := false, codedLast := false, row := ROW_NONE)
    case Claim(len) => ClaimStarts(x, now, len)
    case Stop => ScanStop(x, now, false)
    case Idle(row) => x.(retryAt := if Due(now, x.retryAt) then now else x.retryAt, row := row)
  }

  predicate Moved(x: Exec, now: nat, ms: seq<Move>, y: Exec)
    decreases |ms|
  {
    if ms == [] then y == x
    else Can(x, ms[0], now) && Moved(Apply(x, ms[0], now), now, ms[1..], y)
  }

  // A length the policy grants: none, or at least the shortest pulse and at most the blind budget.
  predicate LensOk(x: Exec, now: nat, i: Inputs) {
    && (i.grant != P_NONE ==> PULSE_MIN_MS <= i.grantLen <= CodedBudget(x, now))
    && (i.connectLen != 0 ==> PULSE_MIN_MS <= i.connectLen <= CodedBudget(x, now))
  }

  // What the pass assumes of the radio policy and NimBLE: pulses fit the blind budget, the policy
  // never grants the claim's kind itself, and no connect runs that the executor did not grant.
  predicate Admissible(x: Exec, now: nat, i: Inputs) {
    && SlotOk(x) && i.nextRow != ROW_NONE
    && (i.conn ==> x.pulse == P_CONNECT)
    && i.grant != P_CONNECT
    && LensOk(Settle(x, now, i), now, i)
  }

  lemma {:induction false} MovedOn(x: Exec, now: nat, ms: seq<Move>, y: Exec, ns: seq<Move>, z: Exec)
    requires Moved(x, now, ms, y) && Moved(y, now, ns, z)
    ensures Moved(x, now, ms + ns, z)
    decreases |ms|
  {
    hide Can, Apply;
    if ms == [] {
      assert ms + ns == ns;
    } else {
      MovedOn(Apply(x, ms[0], now), now, ms[1..], y, ns, z);
      assert (ms + ns)[1..] == ms[1..] + ns;
    }
  }

  lemma MovedNone(x: Exec, now: nat)
    ensures Moved(x, now, [], x)
  {
  }

  lemma MoveOne(x: Exec, now: nat, m: Move)
    requires Can(x, m, now)
    ensures Moved(x, now, [m], Apply(x, m, now))
  {
    hide Can, Apply;
    assert Moved(Apply(x, m, now), now, [m][1..], Apply(x, m, now));
  }

  // `coded_budget` before a stop is the budget of what the stop records.
  lemma StopKeepsBudget(x: Exec, now: nat)
    requires x.scanOn
    ensures CodedBudget(ScanStop(x, now, false), now) == CodedBudget(x, now)
  {
    var y := ScanStop(x, now, false);
    assert !y.scanOn;
    if Covering(x, now) && Unset(now) {
      assert y.codedEndAt == now + 1 && Since(now, now + 1) == WORD - 1;
      assert (WORD - 1) * 10 == WORD * 9 + (WORD - 10);
    }
  }

  // The running scan's end was stored after its start.
  predicate MailInTime(x: Exec, now: nat, mail: Option<Mail>) {
    mail.Some? && x.scanOn && mail.value.gen == x.gen ==> x.startedAt <= mail.value.at <= now
  }

  lemma TakeMoves(x: Exec, now: nat, mail: Option<Mail>, dither: nat) returns (ms: seq<Move>)
    requires MailInTime(x, now, mail) && dither <= DITHER_TICKS
    ensures Moved(x, now, ms, Take(x, now, mail, dither))
  {
    hide Since, RowOf;
    ms := [];
    if mail.Some? && x.scanOn && mail.value.gen == x.gen {
      var v := mail.value;
      var m := if v.reasonOk && !Early(x, v.at, true, false)
          then EndOwn(v.at, dither) else EndOdd(v.at, v.reasonOk, false);
      ms := [m];
      assert Can(x, m, now);
      assert Apply(x, m, now) == Take(x, now, mail, dither) by { hide Since, RowOf, Can; }
      MoveOne(x, now, m);
    }
  }

  lemma GoneMoves(x: Exec, now: nat, i: Inputs) returns (ms: seq<Move>)
    ensures Moved(x, now, ms, Gone(x, now, i))
    ensures forall m <- ms :: !m.EndOwn?
  {
    hide Since, RowOf;
    var lost := x.scanOn && !i.discActive && !Unset(x.goneAt) && Since(now, x.goneAt) >= GONE_TICKS;
    var m := if lost then EndOdd(now, true, true)
             else Note(if !x.scanOn || i.discActive then 0 else if Unset(x.goneAt) then Stamp(now) else x.goneAt,
                       x.overrunAsked);
    MoveOne(x, now, m);
    ms := [m];
  }

  lemma OverdueMoves(x: Exec, now: nat) returns (ms: seq<Move>)
    ensures Moved(x, now, ms, Overdue(x, now))
    ensures forall m <- ms :: !m.EndOwn?
  {
    hide Since, RowOf;
    ms := [];
    if IsOverdue(x, now) {
      MoveOne(x, now, CancelOverdue);
      ms := [CancelOverdue];
    }
  }

  lemma WifiMoves(x: Exec, now: nat) returns (ms: seq<Move>)
    ensures Moved(x, now, ms, WifiSlotOver(x, now))
    ensures forall m <- ms :: !m.EndOwn?
  {
    hide Signed;
    ms := [];
    if WifiSlot(x) && Due(now, x.wEndAt) {
      MoveOne(x, now, EndWifi);
      ms := [EndWifi];
    }
  }

  lemma PulseEndMoves(x: Exec, now: nat, i: Inputs) returns (ms: seq<Move>)
    requires i.conn ==> x.pulse == P_CONNECT
    ensures Moved(x, now, ms, PulseEnd(x, now, i))
    ensures forall m <- ms :: !m.EndOwn?
  {
    hide Signed, RowGapMs, BlindMs;
    if x.pulse != P_NONE && PulseIsOver(x, now, i) {
      MoveOne(x, now, EndPulse(i));
      ms := [EndPulse(i)];
    } else {
      var m := Note(x.goneAt, x.overrunAsked || (x.pulse == P_CONNECT && OverrunDue(x, now)));
      MoveOne(x, now, m);
      ms := [m];
    }
  }

  lemma SettleMoves(x: Exec, now: nat, i: Inputs) returns (ms: seq<Move>)
    requires i.conn ==> x.pulse == P_CONNECT
    ensures Moved(x, now, ms, Settle(x, now, i))
    ensures forall m <- ms :: !m.EndOwn?
  {
    hide *;
    var a := Gone(x, now, i);
    var b := Overdue(a, now);
    var c := WifiSlotOver(b, now);
    var m1 := GoneMoves(x, now, i);
    var m2 := OverdueMoves(a, now);
    var m3 := WifiMoves(b, now);
    var m4 := PulseEndMoves(c, now, i);
    MovedOn(x, now, m1, a, m2, b);
    MovedOn(x, now, m1 + m2, b, m3, c);
    MovedOn(x, now, m1 + m2 + m3, c, m4, PulseEnd(c, now, i));
    ms := m1 + m2 + m3 + m4;
    assert Settle(x, now, i) == PulseEnd(c, now, i) by { SettleIs(x, now, i); }
  }

  lemma SettleIs(x: Exec, now: nat, i: Inputs)
    ensures Settle(x, now, i) == PulseEnd(WifiSlotOver(Overdue(Gone(x, now, i), now), now), now, i)
  {
    hide Gone, Overdue, WifiSlotOver, PulseEnd;
  }

  lemma StopAndGrant(x: Exec, now: nat, g: Move) returns (ms: seq<Move>)
    requires x.scanOn && x.pulse == P_NONE && !x.recovery
    requires g.Grant? && g.pulse != P_NONE && g.pulse != P_CONNECT && PULSE_MIN_MS <= g.len <= CodedBudget(x, now)
    ensures Moved(x, now, ms, Apply(ScanStop(x, now, false), g, now))
    ensures forall m <- ms :: !m.EndOwn?
  {
    hide CodedBudget, Covering, FromMs, Unset, Moved;
    var y := ScanStop(x, now, false);
    StopKeepsBudget(x, now);
    MoveOne(x, now, Stop);
    MoveOne(y, now, g);
    ms := [Stop] + [g];
    MovedOn(x, now, [Stop], y, [g], Apply(y, g, now));
  }

  lemma GrantsMoves(x: Exec, now: nat, i: Inputs) returns (ms: seq<Move>)
    requires i.grant != P_CONNECT
    requires LensOk(x, now, i)
    ensures Moved(x, now, ms, Grants(x, now, i))
    ensures forall m <- ms :: !m.EndOwn?
  {
    hide CodedBudget, Covering, FromMs, Unset, Moved, Stamp;
    ms := [];
    MovedNone(x, now);
    if x.pulse == P_NONE && !x.recovery {
      var claim := ClaimReady(x, Boundary(x), i);
      if claim && (i.lr || i.grant == P_NONE) {
        MoveOne(x, now, Claim(i.connectLen));
        ms := [Claim(i.connectLen)];
      } else if i.grant != P_NONE {
        var g := Grant(i.grant, i.grantLen);
        if !x.scanOn {
          MoveOne(x, now, g);
          ms := [g];
        } else if !i.cancelRefused {
          ms := StopAndGrant(x, now, g);
        }
      }
    }
  }

  lemma StopMoves(x: Exec, now: nat, i: Inputs) returns (ms: seq<Move>)
    ensures Moved(x, now, ms, StopOrIdle(x, now, i))
    ensures forall m <- ms :: !m.EndOwn?
  {
    hide Since, Signed, Covering, Unset;
    var stops := (x.pulse != P_NONE || !i.synced) && x.scanOn && !i.cancelRefused;
    var y := if stops then ScanStop(x, now, false) else x;
    var m1: seq<Move> := if stops then [Stop] else [];
    if stops { MoveOne(x, now, Stop); }
    ms := m1;
    if Wanted(x, i) == ROW_NONE && x.pulse == P_NONE {
      var m := Idle(if y.scanOn then y.row else ROW_NONE);
      MoveOne(y, now, m);
      MovedOn(x, now, m1, y, [m], Apply(y, m, now));
      ms := m1 + [m];
    }
  }

  // The pass up to the start of the next slot.
  function Before(x: Exec, now: nat, i: Inputs): Exec {
    StopOrIdle(Grants(Settle(x, now, i), now, i), now, i)
  }

  lemma BeforeMoves(x: Exec, now: nat, i: Inputs) returns (ms: seq<Move>)
    requires Admissible(x, now, i)
    ensures Moved(x, now, ms, Before(x, now, i))
    ensures forall m <- ms :: !m.EndOwn?
  {
    hide Gone, Overdue, WifiSlotOver, PulseEnd, Grants, StopOrIdle, Settle, CodedBudget, Moved;
    var a := Settle(x, now, i);
    var b := Grants(a, now, i);
    var m1 := SettleMoves(x, now, i);
    var m2 := GrantsMoves(a, now, i);
    var m3 := StopMoves(b, now, i);
    MovedOn(x, now, m1, a, m2, b);
    MovedOn(x, now, m1 + m2, b, m3, StopOrIdle(b, now, i));
    ms := m1 + m2 + m3;
  }

  // A pass is its moves, then a start if one is due.
  lemma ActIs(x: Exec, now: nat, i: Inputs)
    requires SlotOk(x) && i.nextRow != ROW_NONE
    ensures var y := Before(x, now, i); var want := Wanted(y, i);
      && SlotOk(y)
      && Act(x, now, i) == if StartDue(y, now, want) then ExecNextSlot(y, now, want, i.nextRow, i.startRc) else y
  {
    hide Settle, Grants, ScanStop, ExecNextSlot, StartDue;
    var g := Grants(Settle(x, now, i), now, i);
    assert Wanted(Before(x, now, i), i) == Wanted(g, i) by { StopKeepsWanted(g, now, i); }
  }

  lemma StopKeepsWanted(x: Exec, now: nat, i: Inputs)
    ensures Wanted(StopOrIdle(x, now, i), i) == Wanted(x, i)
  {
    hide Since, Signed, Covering, Unset;
  }
}
