/**
 The BLE scan executor's transitions, as functions on its state.

 `Exec` is `exec_t` without the fields that only feed log lines, the duty accounting and the chores,
 plus the running pulse's deadline (kept by the radio policy) and a history of what the executor did
 on the radio, in order. `Take` is the part of a pass that consumes a stored scan end; `Act` is the
 rest of the pass, with what it reads from NimBLE, the radio policy and the valve module in `Inputs`.
 The class in Executor.dfy is proved to compute exactly these functions.
 */
module ExecutorSpec {
  import opened Ticks
  import opened RadioTable

  const SETTLE_TICKS := 5      // SCAN_SETTLE_MS, 50 ms
  const RETRY_TICKS := 5       // SCAN_RETRY_MS, 50 ms
  const EARLY_TICKS := 10      // SCAN_EARLY_MS, 100 ms
  const GONE_TICKS := 100      // SCAN_GONE_MS, 1 s
  const OVERDUE_MS := 1000
  const OVERRUN_TICKS := 200   // CLAIM_OVERRUN_MS, 2 s
  const POLL_TICKS := 50       // EXEC_POLL_MS, 500 ms
  const FOREIGN_MS := 2500     // RP_CONNECT_LR_MS
  const PULSE_MIN_MS := 300    // RP_PULSE_MIN_MS: no pulse is shorter
  const DITHER_TICKS := 10     // RP_JITTER_MS in ticks
  const BLIND_UNKNOWN := 0xFFFF_FFFF
  // L_TICKS: pdMS_TO_TICKS(RP_L_MS + portTICK_PERIOD_MS - 1) + 1
  const L_TICKS: nat := FromMs(L_MS + 9) + 1

  datatype Pulse = P_NONE | P_JOIN | P_SUBMIT | P_RETRY | P_LIST | P_CONNECT

  datatype StartRc = Started | Already | Failed

  /** What the executor did on the radio, each with the tick of its pass. */
  datatype Obs =
    | Start(t: nat, row: Row, kind: Kind, rc: StartRc)         // a scan start was attempted
    | Cancel(t: nat)                                           // a cancel it acted on
    | Stopped(kind: Kind, from: nat, t: nat)                   // its scan, stopped before its end
    | OwnEnd(row: Row, kind: Kind, from: nat, at: nat)         // its scan ran to its own end
    | Granted(pulse: Pulse, t: nat, deadline: nat)             // a pulse began
    | Over(t: nat, resume: Row, synced: bool)                  // the running pulse ended

  datatype Exec = Exec(
    scanOn: bool, slotDone: bool, ownEnd: bool, codedLast: bool, recovery: bool,
    overrunAsked: bool, lead: bool,
    pulse: Pulse, row: Row, slot: nat, left: nat, kind: Kind, gen: nat, genNext: nat, slotMs: nat,
    retryAt: nat, startedAt: nat, endedAt: nat, wEndAt: nat, codedEndAt: nat, goneAt: nat,
    deadline: nat,
    log: seq<Obs>)

  function InitExec(t0: nat): Exec {
    Exec(false, false, false, false, false, false, false, P_NONE, ROW_NONE, 0, 0, K_NONE, 0, 0, 0,
         t0, 0, 0, 0, 0, 0, 0, [])
  }

  /** A stored scan end: the callback argument (a generation, 8 bits), its tick, its reason. */
  datatype Mail = Mail(gen: nat, at: nat, reasonOk: bool)

  datatype Option<T> = None | Some(value: T)

  datatype Inputs = Inputs(
    discActive: bool,        // ble_gap_disc_active()
    synced: bool,            // ble_hs_synced()
    conn: bool,              // ble_gap_conn_active()
    cancelRefused: bool,     // ble_gap_disc_cancel() refuses (neither 0 nor BLE_HS_EALREADY)
    over: bool,              // the running Wi-Fi pulse ended before its deadline
    resumeRow: Row,          // radio_policy_exec_row(now, false) at a pulse's end
    lr: bool,                // a leak response is pending
    claimWanted: bool,       // ble_valve_claim_wanted()
    connectLen: nat,         // radio_policy_exec_connect_len()
    connStarted: bool,       // the claim's connect is in flight after ble_valve_claim_start()
    grant: Pulse,            // radio_policy_exec_wifi_grant() ...
    grantLen: nat,           // ... and its length
    wantRow: Row,            // the mode's row now
    nextRow: Row,            // radio_policy_exec_row(now, true) at a period's end
    startRc: StartRc,        // scan_start()
    joinEnd: Option<nat>)    // a join assist's own end, when known

  function Did(x: Exec, o: Obs): Exec {
    x.(log := x.log + [o])
  }

  // A Coded scan running that covered an advert interval.
  predicate Covering(x: Exec, now: nat) {
    x.scanOn && KindCoded(x.kind) && Since(now, x.startedAt) >= L_TICKS
  }

  // `scan_stop`
  function ScanStop(x: Exec, now: nat, refused: bool): (y: Exec)
    ensures SlotOk(x) ==> SlotOk(y)
  {
    if !x.scanOn || refused then x
    else
      var y := Did(Did(x, Cancel(now)), Stopped(x.kind, x.startedAt, now));
      y.(codedEndAt := if Covering(x, now) then Stamp(now) else x.codedEndAt,
         scanOn := false, slotDone := false, codedLast := false, ownEnd := false, row := ROW_NONE,
         endedAt := now, retryAt := now + SETTLE_TICKS)
  }

  // A stopped scan's late end: well before this scan's duration.
  predicate Early(x: Exec, at: nat, reasonOk: bool, lost: bool) {
    !lost && reasonOk && (Since(at, x.startedAt) + EARLY_TICKS) % WORD < FromMs(x.slotMs)
  }

  // `scan_ended`; `dither` is U(0, RP_JITTER_MS) in ticks.
  function ScanEnded(x: Exec, now: nat, at: nat, reasonOk: bool, lost: bool, dither: nat): (y: Exec)
    ensures SlotOk(x) ==> SlotOk(y)
    ensures y.pulse == x.pulse
  {
    var early := Early(x, at, reasonOk, lost);
    if lost || early || !reasonOk then
      x.(scanOn := false, goneAt := 0, slotDone := false, codedLast := false, ownEnd := false,
         row := ROW_NONE, endedAt := now,
         retryAt := if early then x.startedAt + FromMs(x.slotMs + 50) else now + SETTLE_TICKS)
    else
      var y := Did(x, OwnEnd(x.row, x.kind, x.startedAt, at));
      y.(scanOn := false, goneAt := 0, slotDone := true, ownEnd := true, endedAt := at,
         codedLast := KindCoded(x.kind),
         codedEndAt := if KindCoded(x.kind) then Stamp(at) else x.codedEndAt,
         recovery := x.recovery && x.row != RECOVERY,
         retryAt := at + if x.row != ROW_NONE && RowOf(x.row).dither then dither else 0)
  }

  // `coded_budget`: I2's budget left now, in ms.
  function CodedBudget(x: Exec, now: nat): nat {
    var ref := if Covering(x, now) then now else x.codedEndAt;
    if Unset(ref) then 0
    else
      var since := Ms(Since(now, ref));
      if since >= BLIND_MAX_MS then 0 else BLIND_MAX_MS - since
  }

  // Within one dither, and a tick, of the last slot's end.
  predicate Just(x: Exec, now: nat) {
    Since(now, x.endedAt) <= FromMs(JITTER_MS) + 1
  }

  // I1 leaves room for a lead Wi-Fi slot.
  predicate LeadFits(x: Exec, now: nat) {
    (Ms(Since(now, x.codedEndAt)) + I8_WIFI_MIN_MS + JITTER_MS) % WORD <= GAP_MAX_MS
  }

  // `row_begin`
  function RowBegin(x: Exec, row: Row, now: nat): (y: Exec)
    ensures y == x.(row := row, slot := y.slot, left := y.left, lead := y.lead) && SlotOk(y)
    ensures RecoverySlot(y)
  {
    var r := RowOf(row);
    var afresh := x.codedLast && Just(x, now);
    x.(row := row,
       slot := if afresh then r.Next(r.coded) else r.coded,
       left := r.n,
       lead := !afresh && Just(x, now) && x.kind == K_M && r.i8 && !Unset(x.codedEndAt) && LeadFits(x, now))
  }

  // `++gen_next`, 8 bits.
  function NextGen(g: nat): nat {
    (g + 1) % 256
  }

  // `slot_start`
  function SlotStart(x: Exec, now: nat, rc: StartRc): (y: Exec)
    ensures y.row == x.row || y.row == ROW_NONE
    ensures y.slot == x.slot && y.pulse == x.pulse && y.recovery == x.recovery
  {
    var r := RowOf(x.row);
    var k := if x.lead then K_W else r.KindAt(x.slot);
    var ms := if x.lead then I8_WIFI_MIN_MS else r.MsAt(x.slot);
    var y := x.(slotDone := false, kind := k, slotMs := ms);
    if k == K_W then WifiStart(y, now) else ScanStart(y, now, rc)
  }

  // A Wi-Fi slot, timed from the end of the slot before it.
  function WifiStart(x: Exec, now: nat): Exec {
    var from := if Unset(x.endedAt) then now else x.endedAt;
    x.(startedAt := from, wEndAt := from + FromMs(x.slotMs), codedLast := false)
  }

  // A scan start, and its outcome.
  function ScanStart(x: Exec, now: nat, rc: StartRc): Exec {
    var gen := NextGen(x.genNext);
    var log := x.log + [Start(now, x.row, x.kind, rc)];
    match rc
    case Started => x.(log := log, genNext := gen, scanOn := true, gen := gen, startedAt := now, ownEnd := false)
    case Already =>
      x.(log := log + [Cancel(now)], genNext := gen, row := ROW_NONE, ownEnd := false, retryAt := now + RETRY_TICKS)
    case Failed => x.(log := log, genNext := gen, row := ROW_NONE, ownEnd := false, retryAt := now + RETRY_TICKS)
  }

  // The slot to start next: the row's next in turn, the next period's row, or `want` afresh.
  function PickSlot(x: Exec, now: nat, want: Row, nextRow: Row): (y: Exec)
    requires want != ROW_NONE && nextRow != ROW_NONE
    requires SlotOk(x)
    ensures y == x.(row := y.row, slot := y.slot, left := y.left, lead := y.lead)
    ensures y.row != ROW_NONE && SlotOk(y)
    ensures RecoverySlot(x) ==> RecoverySlot(y)
  {
    if x.row == want && x.slotDone then
      var r := RowOf(x.row);
      var step := r.Next(x.slot);
      if x.lead then x.(lead := false)
      else if x.left <= 1 then
        var next := if want == RECOVERY then want else nextRow;
        if next != x.row then RowBegin(x, next, now) else x.(slot := step, left := r.n)
      else x.(slot := step, left := x.left - 1)
    else RowBegin(x, want, now)
  }

  // The running row's slot index is one of its slots.
  predicate SlotOk(x: Exec) {
    x.row != ROW_NONE ==> x.slot < RowOf(x.row).n
  }

  // The recovery row is its one Coded slot.
  predicate RecoverySlot(x: Exec) {
    x.row == RECOVERY ==> !x.lead && x.slot == 0
  }

  // `exec_next_slot`
  function ExecNextSlot(x: Exec, now: nat, want: Row, nextRow: Row, rc: StartRc): (y: Exec)
    requires want != ROW_NONE && nextRow != ROW_NONE
    requires SlotOk(x)
    ensures SlotOk(y)
  {
    SlotStart(PickSlot(x, now, want, nextRow), now, rc)
  }

  // `radio_policy_exec_pulse_begin`'s deadline, with the executor's own fields.
  function PulseBegin(x: Exec, k: Pulse, now: nat, len: nat): Exec {
    var d := Stamp(now + FromMs(len));
    Did(x, Granted(k, now, d)).(pulse := k, deadline := d)
  }

  predicate ClaimReady(x: Exec, boundary: bool, i: Inputs) {
    boundary && x.ownEnd && i.claimWanted && i.connectLen != 0 && i.connStarted
  }

  // `exec_claim`, when the connect is in flight.
  function ClaimStarts(x: Exec, now: nat, len: nat): Exec {
    PulseBegin(x, P_CONNECT, now, len).(overrunAsked := false, slotDone := false, codedLast := false,
                                        ownEnd := false, row := ROW_NONE)
  }

  // `exec_wifi_pulse`: the state, and whether the pulse began.
  function ExecWifiPulse(x: Exec, now: nat, i: Inputs): (r: (Exec, bool))
    ensures SlotOk(x) ==> SlotOk(r.0)
  {
    if i.grant == P_NONE then (x, false)
    else
      var y := ScanStop(x, now, i.cancelRefused);
      if y.scanOn then (y, false)
      else (PulseBegin(y, i.grant, now, i.grantLen).(slotDone := false, codedLast := false, row := ROW_NONE), true)
  }

  // ---- executor_pass(), in the order it runs ----

  // The stored scan end: only the running scan's.
  function Take(x: Exec, now: nat, mail: Option<Mail>, dither: nat): (y: Exec)
    ensures SlotOk(x) ==> SlotOk(y)
  {
    if mail.Some? && x.scanOn && mail.value.gen == x.gen
    then ScanEnded(x, now, mail.value.at, mail.value.reasonOk, false, dither)
    else x
  }

  // Our scan gone without its DISC_COMPLETE.
  function Gone(x: Exec, now: nat, i: Inputs): (y: Exec)
    ensures SlotOk(x) ==> SlotOk(y)
    ensures y.pulse == x.pulse
  {
    if x.scanOn && !i.discActive then
      if Unset(x.goneAt) then x.(goneAt := Stamp(now))
      else if Since(now, x.goneAt) >= GONE_TICKS then ScanEnded(x, now, now, true, true, 0)
      else x
    else x.(goneAt := 0)
  }

  // ... and one with no end long past its duration.
  predicate IsOverdue(x: Exec, now: nat) {
    x.scanOn && Since(now, x.startedAt) >= FromMs(x.slotMs + OVERDUE_MS)
  }

  function Overdue(x: Exec, now: nat): (y: Exec)
    ensures SlotOk(x) ==> SlotOk(y)
    ensures y.pulse == x.pulse
  {
    if IsOverdue(x, now) then ScanEnded(Did(x, Cancel(now)), now, now, true, true, 0) else x
  }

  // A Wi-Fi slot runs.
  predicate WifiSlot(x: Exec) {
    !x.scanOn && x.row != ROW_NONE && x.kind == K_W && !x.slotDone
  }

  function WifiSlotOver(x: Exec, now: nat): (y: Exec)
    ensures SlotOk(x) ==> SlotOk(y)
    ensures y.pulse == x.pulse
  {
    if WifiSlot(x) && Due(now, x.wEndAt)
    then x.(slotDone := true, codedLast := false, endedAt := x.wEndAt)
    else x
  }

  function BlindMs(x: Exec, now: nat): nat {
    if Unset(x.codedEndAt) then BLIND_UNKNOWN else Ms(Since(now, x.codedEndAt))
  }

  predicate PulseIsOver(x: Exec, now: nat, i: Inputs) {
    if x.pulse == P_CONNECT then !i.conn else Due(now, x.deadline) || i.over
  }

  // I2: a blind span longer than the resumed row's own Coded gap is followed by the recovery.
  predicate Owed(x: Exec, now: nat, i: Inputs) {
    i.synced && i.resumeRow != ROW_NONE && BlindMs(x, now) > RowGapMs(i.resumeRow) + JITTER_MS
  }

  predicate OverrunDue(x: Exec, now: nat) {
    !x.overrunAsked && x.deadline != 0 && Signed(now, x.deadline) >= OVERRUN_TICKS
  }

  function PulseEnd(x: Exec, now: nat, i: Inputs): (y: Exec)
    ensures SlotOk(x) ==> SlotOk(y)
  {
    if x.pulse != P_NONE then
      if PulseIsOver(x, now, i) then
        Did(x, Over(now, i.resumeRow, i.synced)).(
          pulse := P_NONE, deadline := 0, overrunAsked := false, slotDone := false, codedLast := false,
          row := ROW_NONE, recovery := x.recovery || Owed(x, now, i),
          retryAt := if Signed(x.retryAt, now) < 0 then now else x.retryAt)
      else if x.pulse == P_CONNECT && OverrunDue(x, now) then x.(overrunAsked := true)
      else x
    else if i.conn then PulseBegin(x, P_CONNECT, now, FOREIGN_MS).(overrunAsked := false)
    else x
  }

  // The pass up to the grants.
  function Settle(x: Exec, now: nat, i: Inputs): (y: Exec)
    ensures SlotOk(x) ==> SlotOk(y)
  {
    PulseEnd(WifiSlotOver(Overdue(Gone(x, now, i), now), now), now, i)
  }

  predicate Boundary(x: Exec) {
    !x.scanOn && (x.row == ROW_NONE || x.slotDone)
  }

  function Grants(x: Exec, now: nat, i: Inputs): (y: Exec)
    ensures SlotOk(x) ==> SlotOk(y)
  {
    if x.pulse != P_NONE || x.recovery then x
    else
      var boundary := Boundary(x);
      if i.lr && ClaimReady(x, boundary, i) then ClaimStarts(x, now, i.connectLen)
      else
        var (y, done) := ExecWifiPulse(x, now, i);
        if !done && !i.lr && ClaimReady(y, boundary, i) then ClaimStarts(y, now, i.connectLen) else y
  }

  function Wanted(x: Exec, i: Inputs): Row {
    if x.pulse != P_NONE || !i.synced then ROW_NONE
    else if x.recovery then RECOVERY
    else i.wantRow
  }

  // A scan stops for a pulse or a lost sync; an idle start gate follows the clock.
  function StopOrIdle(x: Exec, now: nat, i: Inputs): (y: Exec)
    ensures SlotOk(x) ==> SlotOk(y)
  {
    var want := Wanted(x, i);
    var y := if x.pulse != P_NONE || !i.synced then ScanStop(x, now, i.cancelRefused) else x;
    if want == ROW_NONE && x.pulse == P_NONE then
      y.(retryAt := if Due(now, y.retryAt) then now else y.retryAt,
         row := if y.scanOn then y.row else ROW_NONE)
    else y
  }

  predicate StartDue(x: Exec, now: nat, want: Row) {
    !x.scanOn && !WifiSlot(x) && x.pulse == P_NONE && want != ROW_NONE && Due(now, x.retryAt)
  }

  function Run(x: Exec, now: nat, i: Inputs): (y: Exec)
    requires SlotOk(x)
    requires i.nextRow != ROW_NONE
    ensures SlotOk(y)
  {
    var want := Wanted(x, i);
    var y := StopOrIdle(x, now, i);
    if StartDue(y, now, want) then ExecNextSlot(y, now, want, i.nextRow, i.startRc) else y
  }

  // The pass after the stored end was taken.
  function Act(x: Exec, now: nat, i: Inputs): (y: Exec)
    requires SlotOk(x)
    requires i.nextRow != ROW_NONE
    ensures SlotOk(y)
  {
    Run(Grants(Settle(x, now, i), now, i), now, i)
  }

  // What the pass sleeps towards, if anything: a pulse's end, a slot's edge, the next start, a young
  // Coded scan covering an advert interval.
  function WakeAt(x: Exec, now: nat, want: Row, joinEnd: Option<nat>): Option<nat> {
    if x.pulse != P_NONE then
      var until := if x.pulse == P_JOIN && joinEnd.Some? && Signed(joinEnd.value, x.deadline) < 0
                   then joinEnd.value else x.deadline;
      if x.pulse == P_CONNECT then
        if x.overrunAsked || x.deadline == 0 then None else Some(until + OVERRUN_TICKS)
      else if x.deadline != 0 then Some(until) else None
    else if WifiSlot(x) then Some(x.wEndAt)
    else if !x.scanOn && want != ROW_NONE then Some(x.retryAt)
    else if x.scanOn && KindCoded(x.kind) && Since(now, x.startedAt) < L_TICKS
    then Some(x.startedAt + L_TICKS)
    else None
  }

  // How long the pass may sleep, in ticks.
  function Sleep(x: Exec, now: nat, want: Row, joinEnd: Option<nat>): (wait: nat)
    ensures 1 <= wait <= POLL_TICKS
  {
    var at := WakeAt(x, now, want, joinEnd);
    var left := if at.Some? then Signed(at.value, now) else POLL_TICKS;
    if left < 1 then 1 else if left < POLL_TICKS then left else POLL_TICKS
  }
}
