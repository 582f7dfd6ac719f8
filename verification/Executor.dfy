/**
 The BLE scan executor: the RTOS task that holds `exec_t` and the functions that update it in place, each
 proved to compute the transition function that the invariants are about.
 */
module Executor {
  import opened Ticks
  import opened RadioTable
  import opened ExecutorSpec
  import opened ExecutorMoves

  class Executor {
    var x: Exec   // exec_t

    constructor (t0: nat)
      ensures x == InitExec(t0)
    {
      x := InitExec(t0);
    }

    method ScanStop(now: nat, refused: bool)
      modifies this
      ensures x == ExecutorSpec.ScanStop(old(x), now, refused)
    {
      hide Since, Unset;
      if !x.scanOn {
        return;
      }
      if refused {
        return;
      }
      x := Did(x, Cancel(now));
      x := Did(x, Stopped(x.kind, x.startedAt, now));
      if KindCoded(x.kind) {
        if Since(now, x.startedAt) >= L_TICKS {
          x := x.(codedEndAt := Stamp(now));
        }
      }
      x := x.(scanOn := false, slotDone := false, codedLast := false, ownEnd := false, row := ROW_NONE,
              endedAt := now, retryAt := now + SETTLE_TICKS);
    }

    method ScanEnded(now: nat, at: nat, reasonOk: bool, lost: bool, dither: nat)
      modifies this
      ensures x == ExecutorSpec.ScanEnded(old(x), now, at, reasonOk, lost, dither)
    {
      hide Early, Unset, RowOf, Stamp;
      var early := Early(x, at, reasonOk, lost);
      if lost || early || !reasonOk {
        var retryAt := now + SETTLE_TICKS;
        if early {
          retryAt := x.startedAt + FromMs(x.slotMs + 50);
        }
        x := x.(scanOn := false, goneAt := 0, slotDone := false, codedLast := false, ownEnd := false,
                row := ROW_NONE, endedAt := now, retryAt := retryAt);
        return;
      }
      var codedEndAt := x.codedEndAt;
      if KindCoded(x.kind) {
        codedEndAt := Stamp(at);
      }
      var recovery := x.recovery;
      if x.row == RECOVERY {
        recovery := false;
      }
      var retryAt := at;
      if x.row != ROW_NONE && RowOf(x.row).dither {
        retryAt := at + dither;
      }
      x := Did(x, OwnEnd(x.row, x.kind, x.startedAt, at));
      x := x.(scanOn := false, goneAt := 0, slotDone := true, ownEnd := true, endedAt := at,
              codedLast := KindCoded(x.kind), codedEndAt := codedEndAt, recovery := recovery, retryAt := retryAt);
    }

    method RowBegin(row: Row, now: nat)
      modifies this
      ensures x == ExecutorSpec.RowBegin(old(x), row, now)
    {
      hide Just, LeadFits, Unset, RowOf;
      var r := RowOf(row);
      var just := Just(x, now);
      var afresh := x.codedLast && just;
      var slot := if afresh then r.Next(r.coded) else r.coded;
      var lead := !afresh && just && x.kind == K_M && r.i8 && !Unset(x.codedEndAt) && LeadFits(x, now);
      x := x.(row := row, slot := slot, left := r.n, lead := lead);
    }

    method SlotStart(now: nat, rc: StartRc)
      modifies this
      ensures x == ExecutorSpec.SlotStart(old(x), now, rc)
    {
      hide RowOf, WifiStart, ExecutorSpec.ScanStart;
      var r := RowOf(x.row);
      var k := if x.lead then K_W else r.KindAt(x.slot);
      var ms := if x.lead then I8_WIFI_MIN_MS else r.MsAt(x.slot);
      x := x.(slotDone := false, kind := k, slotMs := ms);
      if k == K_W {
        OpenWifi(now);
      } else {
        ScanStart(now, rc);
      }
    }

    method OpenWifi(now: nat)
      modifies this
      ensures x == WifiStart(old(x), now)
    {
      var from := if !Unset(x.endedAt) then x.endedAt else now;
      x := x.(startedAt := from, wEndAt := from + FromMs(x.slotMs), codedLast := false);
    }

    method ScanStart(now: nat, rc: StartRc)
      modifies this
      ensures x == ExecutorSpec.ScanStart(old(x), now, rc)
    {
      hide NextGen;
      var gen := NextGen(x.genNext);
      x := Did(x, Start(now, x.row, x.kind, rc)).(genNext := gen);
      if rc == Started {
        x := x.(scanOn := true, gen := gen, startedAt := now, ownEnd := false);
        return;
      }
      if rc == Already {
        x := Did(x, Cancel(now));
      }
      x := x.(row := ROW_NONE, ownEnd := false, retryAt := now + RETRY_TICKS);
    }

    method PickSlot(now: nat, want: Row, nextRow: Row)
      requires want != ROW_NONE && nextRow != ROW_NONE && SlotOk(x)
      modifies this
      ensures x == ExecutorSpec.PickSlot(old(x), now, want, nextRow)
    {
      hide RowOf, ExecutorSpec.RowBegin;
      if x.row != want || !x.slotDone {
        RowBegin(want, now);
        return;
      }
      if x.lead {
        x := x.(lead := false);
        return;
      }
      if x.left > 1 {
        x := x.(slot := RowOf(x.row).Next(x.slot), left := x.left - 1);
        return;
      }
      var next := if want == RECOVERY then want else nextRow;
      if next != x.row {
        RowBegin(next, now);
      } else {
        x := x.(slot := RowOf(x.row).Next(x.slot), left := RowOf(x.row).n);
      }
    }

    method ExecNextSlot(now: nat, want: Row, nextRow: Row, rc: StartRc)
      requires want != ROW_NONE && nextRow != ROW_NONE && SlotOk(x)
      modifies this
      ensures x == ExecutorSpec.ExecNextSlot(old(x), now, want, nextRow, rc)
    {
      hide ExecutorSpec.PickSlot, ExecutorSpec.SlotStart;
      PickSlot(now, want, nextRow);
      SlotStart(now, rc);
    }

    method PulseBegin(k: Pulse, now: nat, len: nat)
      modifies this
      ensures x == ExecutorSpec.PulseBegin(old(x), k, now, len)
    {
      hide Unset;
      x := x.(deadline := Stamp(now + FromMs(len)));
      x := Did(x, Granted(k, now, x.deadline));
      x := x.(pulse := k);
    }

    // True when the connect is in flight.
    method ExecClaim(now: nat, boundary: bool, i: Inputs) returns (done: bool)
      modifies this
      ensures done == ClaimReady(old(x), boundary, i)
      ensures x == if done then ClaimStarts(old(x), now, i.connectLen) else old(x)
    {
      hide ExecutorSpec.PulseBegin;
      if !boundary || !x.ownEnd || !i.claimWanted {
        return false;
      }
      if i.connectLen == 0 {
        return false;
      }
      if !i.connStarted {
        return false;
      }
      PulseBegin(P_CONNECT, now, i.connectLen);
      x := x.(overrunAsked := false, slotDone := false, codedLast := false, ownEnd := false, row := ROW_NONE);
      return true;
    }

    method ExecWifiPulse(now: nat, i: Inputs) returns (done: bool)
      modifies this
      ensures (x, done) == ExecutorSpec.ExecWifiPulse(old(x), now, i)
    {
      hide ExecutorSpec.PulseBegin, Since, Unset;
      if i.grant == P_NONE {
        return false;
      }
      if x.scanOn {
        ScanStop(now, i.cancelRefused);
        if x.scanOn {
          return false;
        }
      }
      PulseBegin(i.grant, now, i.grantLen);
      x := x.(slotDone := false, codedLast := false, row := ROW_NONE);
      return true;
    }

    // The slots and scans that are over: a lost scan, an overdue one, a Wi-Fi slot.
    method EndSlots(now: nat, i: Inputs)
      modifies this
      ensures x == WifiSlotOver(Overdue(Gone(old(x), now, i), now), now)
    {
      hide Since, Signed, Unset, ExecutorSpec.ScanEnded;
      if x.scanOn && !i.discActive {
        if Unset(x.goneAt) {
          x := x.(goneAt := Stamp(now));
        } else if Since(now, x.goneAt) >= GONE_TICKS {
          ScanEnded(now, now, true, true, 0);
        }
      } else {
        x := x.(goneAt := 0);
      }
      assert x == Gone(old(x), now, i);
      hide Gone;
      if IsOverdue(x, now) {
        x := Did(x, Cancel(now));
        ScanEnded(now, now, true, true, 0);
      }
      assert x == Overdue(Gone(old(x), now, i), now);
      hide Overdue;
      if !x.scanOn && x.row != ROW_NONE && x.kind == K_W && !x.slotDone && Due(now, x.wEndAt) {
        x := x.(slotDone := true, codedLast := false, endedAt := x.wEndAt);
      }
    }

    method EndPulse(now: nat, i: Inputs)
      modifies this
      ensures x == PulseEnd(old(x), now, i)
    {
      hide Signed, Owed, PulseIsOver, ExecutorSpec.PulseBegin;
      if x.pulse != P_NONE {
        if PulseIsOver(x, now, i) {
          var recovery := x.recovery;
          if Owed(x, now, i) {
            recovery := true;
          }
          var retryAt := x.retryAt;
          if Signed(x.retryAt, now) < 0 {
            retryAt := now;
          }
          x := Did(x, Over(now, i.resumeRow, i.synced));
          x := x.(pulse := P_NONE, deadline := 0, overrunAsked := false, slotDone := false, codedLast := false,
                  row := ROW_NONE, recovery := recovery, retryAt := retryAt);
        } else if x.pulse == P_CONNECT && OverrunDue(x, now) {
          x := x.(overrunAsked := true);
        }
      } else if i.conn {
        PulseBegin(P_CONNECT, now, FOREIGN_MS);
        x := x.(overrunAsked := false);
      }
    }

    method GrantPulses(now: nat, i: Inputs)
      modifies this
      ensures x == Grants(old(x), now, i)
    {
      hide ExecutorSpec.ExecWifiPulse, ClaimStarts;
      if x.pulse == P_NONE && !x.recovery {
        var boundary := !x.scanOn && (x.row == ROW_NONE || x.slotDone);
        var done := false;
        if i.lr {
          done := ExecClaim(now, boundary, i);
        }
        if !done {
          done := ExecWifiPulse(now, i);
          if !done && !i.lr {
            done := ExecClaim(now, boundary, i);
          }
        }
      }
    }

    // A pulse or a lost sync stops the scan; with nothing to scan the start gate follows the clock.
    method StopForPulse(now: nat, want: Row, i: Inputs)
      requires want == Wanted(x, i)
      modifies this
      ensures x == StopOrIdle(old(x), now, i)
    {
      hide Due, Since, Unset, Covering, Stamp;
      if x.pulse != P_NONE || !i.synced {
        if x.scanOn {
          ScanStop(now, i.cancelRefused);
        }
      }
      if want == ROW_NONE && x.pulse == P_NONE {
        var retryAt := if Due(now, x.retryAt) then now else x.retryAt;
        x := x.(retryAt := retryAt, row := if x.scanOn then x.row else ROW_NONE);
      }
    }

    method StartNext(now: nat, i: Inputs) returns (want: Row)
      requires SlotOk(x) && i.nextRow != ROW_NONE
      modifies this
      ensures want == Wanted(old(x), i)
      ensures x == Run(old(x), now, i)
    {
      hide Due, StopOrIdle, ExecutorSpec.ExecNextSlot;
      if x.pulse != P_NONE || !i.synced {
        want := ROW_NONE;
      } else {
        want := if x.recovery then RECOVERY else i.wantRow;
      }
      StopForPulse(now, want, i);
      var active := x.scanOn || (x.row != ROW_NONE && x.kind == K_W && !x.slotDone);
      if !active && x.pulse == P_NONE && want != ROW_NONE && Due(now, x.retryAt) {
        ExecNextSlot(now, want, i.nextRow, i.startRc);
      }
    }

    // `executor_pass`: the state it leaves, and how long it may sleep.
    method ExecutorPass(now: nat, mail: Option<Mail>, dither: nat, i: Inputs) returns (wait: nat)
      requires SlotOk(x) && i.nextRow != ROW_NONE
      modifies this
      ensures x == Act(Take(old(x), now, mail, dither), now, i)
      ensures wait == Sleep(x, now, Wanted(x, i), i.joinEnd)
    {
      hide Settle, Gone, Overdue, WifiSlotOver, PulseEnd, Grants, Run, ExecutorSpec.ScanEnded, Sleep, Wanted;
      if mail.Some? {
        if x.scanOn && mail.value.gen == x.gen {
          ScanEnded(now, mail.value.at, mail.value.reasonOk, false, dither);
        }
      }
      ghost var a := Take(old(x), now, mail, dither);
      assert x == a;
      hide Take;
      EndSlots(now, i);
      EndPulse(now, i);
      assert x == Settle(a, now, i) by { SettleIs(a, now, i); }
      GrantPulses(now, i);
      ghost var g := x;
      var want := StartNext(now, i);
      RunKeepsWanted(g, now, i);
      wait := SleepFor(now, want, i.joinEnd);
    }

    // The edge the pass sleeps towards, if `timed`.
    method NextEdge(now: nat, want: Row, joinEnd: Option<nat>) returns (until: nat, timed: bool)
      ensures WakeAt(x, now, want, joinEnd) == if timed then Some(until) else None
    {
      hide Since, Signed;
      until, timed := 0, false;
      if x.pulse != P_NONE {
        until := x.deadline;
        if x.pulse == P_JOIN && joinEnd.Some? && Signed(joinEnd.value, x.deadline) < 0 {
          until := joinEnd.value;
        }
        timed := x.deadline != 0;
        if x.pulse == P_CONNECT {
          if !x.overrunAsked {
            until := until + OVERRUN_TICKS;
          } else {
            timed := false;
          }
        }
      } else if !x.scanOn && x.row != ROW_NONE && x.kind == K_W && !x.slotDone {
        until, timed := x.wEndAt, true;
      } else if !x.scanOn && want != ROW_NONE {
        until, timed := x.retryAt, true;
      } else if x.scanOn && KindCoded(x.kind) && Since(now, x.startedAt) < L_TICKS {
        until, timed := x.startedAt + L_TICKS, true;
      }
    }

    method SleepFor(now: nat, want: Row, joinEnd: Option<nat>) returns (wait: nat)
      ensures wait == Sleep(x, now, want, joinEnd)
    {
      hide WakeAt, Since;
      var until, timed := NextEdge(now, want, joinEnd);
      wait := POLL_TICKS;
      if timed {
        var ticks := Signed(until, now);
        if ticks < 1 {
          ticks := 1;
        }
        if ticks < wait {
          wait := ticks;
        }
      }
    }
  }

  lemma RunKeepsWanted(x: Exec, now: nat, i: Inputs)
    requires SlotOk(x) && i.nextRow != ROW_NONE
    ensures Wanted(Run(x, now, i), i) == Wanted(x, i)
  {
    hide Due, StopOrIdle, ExecNextSlot, RowOf;
    StopKeepsWanted(x, now, i);
    var y := StopOrIdle(x, now, i);
    NextKeepsWanted(y, now, i);
  }

  lemma NextKeepsWanted(y: Exec, now: nat, i: Inputs)
    requires SlotOk(y) && i.nextRow != ROW_NONE
    ensures var want := Wanted(y, i);
      want != ROW_NONE ==> Wanted(ExecNextSlot(y, now, want, i.nextRow, i.startRc), i) == want
  {
    hide PickSlot, SlotStart;
  }
}
