/**
 Claim safety: a valve claim's connect never races a scan.

 The executor runs beside the BLE controller and the NimBLE host task. A world is the executor's
 state, the scan the controller runs, the scan ends queued for the host task, the callback argument
 NimBLE holds, and the end the GAP handler stored last. A pass is two steps, the stored end taken and
 the rest of the pass, and every other event may fall between them. The attempts are numbered
 without bound; the executor sees their low 8 bits.
 */
module ClaimSafety {
  import opened Ticks
  import opened RadioTable
  import opened ExecutorSpec
  import opened ExecutorMoves

  /** The end stored by the GAP handler, with what the executor cannot see: the scan it is the end of
      (0: a host reset), and the attempt whose argument it carries. */
  datatype Stored = Stored(mail: Mail, src: nat, tag: nat)

  datatype World = World(
    x: Exec,
    now: nat,
    running: nat,           // the scan the controller runs (0: none)
    queue: seq<nat>,        // scans whose ends the host task has not processed yet, oldest first
    started: nat,           // the last scan that started
    attempts: nat,          // start attempts so far
    arg: nat,               // the attempt whose argument NimBLE holds
    mail: Option<Stored>,
    mid: bool, passAt: nat) // inside a pass, and the tick it read

  datatype Event =
    | Time(dt: nat)
    | ScanOver(queued: bool)                 // the controller's scan ends; its end is queued, or lost
    | Deliver                                // the host task processes the oldest queued end
    | HostReset                              // an end with a reason
    | TakeEnd(dither: nat)                   // the pass begins: the stored end is taken
    | Rest(i: Inputs, argKept: bool)         // the rest of the pass

  predicate Tried(x: Exec, y: Exec) {
    y.genNext != x.genNext
  }

  predicate Began(x: Exec, y: Exec) {
    Tried(x, y) && y.scanOn
  }

  // A claim's connect was started after the first `from` entries of the history.
  predicate Claimed(log: seq<Obs>, from: nat) {
    exists k :: from <= k < |log| && log[k].Granted? && log[k].pulse == P_CONNECT
  }

  predicate Legal(w: World, e: Event) {
    match e
    case Time(_) => true
    case ScanOver(_) => w.running != 0
    case Deliver =>
      // Ends are processed in order; a stopped scan's late end comes well before the end of the scan
      // that runs by then; NimBLE's argument is never 255 attempts old.
      && w.queue != []
      && (w.queue[0] != w.started && w.x.scanOn ==> w.now + EARLY_TICKS < w.x.startedAt + FromMs(w.x.slotMs))
      && w.attempts - w.arg < 255
    case HostReset => true
    case TakeEnd(_) => !w.mid
    case Rest(i, _) =>
      && w.mid && Admissible(w.x, w.passAt, i)
      && (Began(w.x, Act(w.x, w.passAt, i)) ==> w.running == 0)         // the controller runs one scan
  }

  function Step(w: World, e: Event): World
    requires Legal(w, e)
  {
    match e
    case Time(dt) => w.(now := w.now + dt)
    case ScanOver(queued) => w.(running := 0, queue := if queued then w.queue + [w.running] else w.queue)
    case Deliver =>
      w.(queue := w.queue[1..],
         mail := Some(Stored(Mail(w.arg % 256, w.now, true), w.queue[0], w.arg)))
    case HostReset => w.(mail := Some(Stored(Mail(w.arg % 256, w.now, false), 0, w.arg)))
    case TakeEnd(dither) =>
      var m := if w.mail.Some? then Some(w.mail.value.mail) else None;
      w.(x := Take(w.x, w.now, m, dither), mail := None, mid := true, passAt := w.now)
    case Rest(i, argKept) =>
      var y := Act(w.x, w.passAt, i);
      var id := w.attempts + 1;
      w.(x := y, mid := false,
         attempts := if Tried(w.x, y) then id else w.attempts,
         started := if Began(w.x, y) then id else w.started,
         running := if Began(w.x, y) then id else w.running,
         arg := if Began(w.x, y) || (Tried(w.x, y) && !argKept) then id else w.arg)
  }

  // ---- What a pass keeps ----

  predicate OwnEndTaken(x: Exec, mail: Option<Mail>) {
    && mail.Some? && x.scanOn && mail.value.gen == x.gen && mail.value.reasonOk
    && !Early(x, mail.value.at, true, false)
  }

  lemma TakeFacts(x: Exec, now: nat, mail: Option<Mail>, dither: nat)
    ensures var y := Take(x, now, mail, dither);
      && y.genNext == x.genNext && y.gen == x.gen && y.slotMs == x.slotMs
      && (y.scanOn ==> y == x)
      && (y.ownEnd ==> !y.scanOn || x.ownEnd)
      && (y.ownEnd && !x.ownEnd ==> OwnEndTaken(x, mail))
  {
    hide Early, RowOf, Unset;
  }

  // x follows x0 with no start and no scan's own end in between.
  predicate Carries(x0: Exec, x: Exec) {
    && x.genNext == x0.genNext && x.gen == x0.gen && x.slotMs == x0.slotMs
    && (x.scanOn ==> x0.scanOn && x.startedAt == x0.startedAt)
    && (x.ownEnd ==> x0.ownEnd)
    && x0.log <= x.log
    && (Claimed(x.log, |x0.log|) ==> x0.ownEnd)
  }

  lemma CarriesMove(x0: Exec, x: Exec, now: nat, m: Move)
    requires Carries(x0, x) && Can(x, m, now) && !m.EndOwn?
    ensures Carries(x0, Apply(x, m, now))
  {
    hide Since, Signed, RowOf, CodedBudget, RowGapMs, BlindMs, FromMs, Unset, Covering;
  }

  lemma {:induction false} CarriesMoves(x0: Exec, x: Exec, now: nat, ms: seq<Move>, y: Exec)
    requires Carries(x0, x) && Moved(x, now, ms, y) && forall m <- ms :: !m.EndOwn?
    ensures Carries(x0, y)
    decreases |ms|
  {
    hide Can, Apply, Carries;
    if ms != [] {
      CarriesMove(x0, x, now, ms[0]);
      CarriesMoves(x0, Apply(x, ms[0], now), now, ms[1..], y);
    }
  }

  lemma NextByte(g: nat)
    requires g < 256
    ensures NextGen(g) != g
  {
  }

  // The history goes on with no pulse.
  ghost predicate NoGrant(x: Exec, y: Exec) {
    x.log <= y.log && forall k :: |x.log| <= k < |y.log| ==> !y.log[k].Granted?
  }

  // A start attempt under the next generation, or none.
  predicate Tries(x: Exec, y: Exec, now: nat) {
    if Tried(x, y) then
      y.genNext == NextGen(x.genNext) && !y.ownEnd && (y.scanOn ==> y.gen == y.genNext && y.startedAt == now)
    else !y.scanOn && y.gen == x.gen && y.ownEnd == x.ownEnd
  }

  lemma WifiFacts(x: Exec, now: nat)
    requires !x.scanOn
    ensures var y := WifiStart(x, now); y.slotMs == x.slotMs && NoGrant(x, y) && Tries(x, y, now)
  {
    hide Unset, FromMs;
  }

  lemma ScanFacts(x: Exec, now: nat, rc: StartRc)
    requires !x.scanOn && x.genNext < 256
    ensures var y := ScanStart(x, now, rc); y.slotMs == x.slotMs && NoGrant(x, y) && Tries(x, y, now)
  {
    NextByte(x.genNext);
    hide NextGen;
    var y := ScanStart(x, now, rc);
    ScanTries(x, now, rc);
    ScanLogs(x, now, rc);
    hide ScanStart, Tries;
    var o := Start(now, x.row, x.kind, rc);
    NoneGranted(x, y, if rc.Already? then [o, Cancel(now)] else [o]);
  }

  lemma ScanTries(x: Exec, now: nat, rc: StartRc)
    requires !x.scanOn && NextGen(x.genNext) != x.genNext
    ensures var y := ScanStart(x, now, rc); y.slotMs == x.slotMs && Tries(x, y, now)
  {
    hide NextGen;
    var gen := NextGen(x.genNext);
    var y := ScanStart(x, now, rc);
    assert y.genNext == gen && !y.ownEnd && y.slotMs == x.slotMs;
    if y.scanOn {
      assert y.gen == gen && y.startedAt == now;
    }
    hide ScanStart;
  }

  lemma ScanLogs(x: Exec, now: nat, rc: StartRc)
    ensures var o := Start(now, x.row, x.kind, rc);
      ScanStart(x, now, rc).log == x.log + if rc.Already? then [o, Cancel(now)] else [o]
  {
    hide NextGen;
    var o := Start(now, x.row, x.kind, rc);
    assert x.log + [o] + [Cancel(now)] == x.log + [o, Cancel(now)];
  }

  lemma NoneGranted(x: Exec, y: Exec, more: seq<Obs>)
    requires y.log == x.log + more && forall k :: 0 <= k < |more| ==> !more[k].Granted?
    ensures NoGrant(x, y)
  {
  }

  lemma StartFacts(x: Exec, now: nat, rc: StartRc)
    requires !x.scanOn && x.genNext < 256
    ensures var y := SlotStart(x, now, rc); y.slotMs <= 1200 && NoGrant(x, y) && Tries(x, y, now)
  {
    var r := RowOf(x.row);
    var k := if x.lead then K_W else r.KindAt(x.slot);
    var ms := if x.lead then I8_WIFI_MIN_MS else r.MsAt(x.slot);
    var z := x.(slotDone := false, kind := k, slotMs := ms);
    hide RowOf, WifiStart, ScanStart;
    assert SlotStart(x, now, rc) == if k == K_W then WifiStart(z, now) else ScanStart(z, now, rc);
    WifiFacts(z, now);
    ScanFacts(z, now, rc);
  }

  lemma NextFacts(x: Exec, now: nat, want: Row, nextRow: Row, rc: StartRc)
    requires want != ROW_NONE && nextRow != ROW_NONE && SlotOk(x)
    requires !x.scanOn && x.genNext < 256
    ensures var y := ExecNextSlot(x, now, want, nextRow, rc); y.slotMs <= 1200 && NoGrant(x, y) && Tries(x, y, now)
  {
    hide PickSlot, SlotStart;
    StartFacts(PickSlot(x, now, want, nextRow), now, rc);
  }

  // What a pass does to a claim's preconditions.
  ghost predicate Acted(x: Exec, y: Exec, now: nat) {
    && (x.slotMs <= 1200 ==> y.slotMs <= 1200) && x.log <= y.log
    && (Claimed(y.log, |x.log|) ==> x.ownEnd)
    && (if Tried(x, y) then
          y.genNext == NextGen(x.genNext) && !y.ownEnd && (y.scanOn ==> y.gen == y.genNext && y.startedAt == now)
        else
          && y.gen == x.gen && (y.ownEnd ==> x.ownEnd)
          && (y.scanOn ==> x.scanOn && y.startedAt == x.startedAt && y.slotMs == x.slotMs))
  }

  // The moves, and no start ...
  lemma NotStarted(x: Exec, b: Exec, now: nat)
    requires Carries(x, b)
    ensures Acted(x, b, now)
  {
  }

  // ... or a start after them.
  lemma StartedAfter(x: Exec, b: Exec, y: Exec, now: nat)
    requires Carries(x, b) && y.slotMs <= 1200 && NoGrant(b, y) && Tries(b, y, now)
    ensures Acted(x, y, now)
  {
    assert x.log <= y.log;
    if Claimed(y.log, |x.log|) {
      var k :| |x.log| <= k < |y.log| && y.log[k].Granted? && y.log[k].pulse == P_CONNECT;
      assert k < |b.log| && b.log[k] == y.log[k];
      assert Claimed(b.log, |x.log|);
    }
  }

  lemma ActFacts(x: Exec, now: nat, i: Inputs)
    requires Admissible(x, now, i) && x.genNext < 256
    ensures Acted(x, Act(x, now, i), now)
  {
    hide Before, ExecNextSlot, Moved, Act, Acted, NoGrant, Tries;
    var ms := BeforeMoves(x, now, i);
    var b := Before(x, now, i);
    CarriesMoves(x, x, now, ms, b);
    ActIs(x, now, i);
    var want := Wanted(b, i);
    if StartDue(b, now, want) {
      NextFacts(b, now, want, i.nextRow, i.startRc);
      hide StartDue, Wanted, Claimed;
      StartedAfter(x, b, Act(x, now, i), now);
    } else {
      NotStarted(x, b, now);
    }
  }

  // ---- The invariant ----

  ghost predicate Increasing(q: seq<nat>) {
    forall j, k :: 0 <= j < k < |q| ==> q[j] < q[k]
  }

  // Nothing scans and no end of a scan is still to come.
  predicate RadioQuiet(w: World) {
    w.running == 0 && w.queue == []
  }

  // A stored end is the last scan's own, or comes early in it.
  predicate MailOk(w: World, s: Stored) {
    && s.mail.gen == s.tag % 256 && s.tag <= w.attempts
    && (s.mail.reasonOk ==> w.attempts - s.tag < (if w.mid then 255 else 256))
    && (s.mail.reasonOk && w.x.scanOn && s.tag == w.started ==>
          RadioQuiet(w) || (w.x.startedAt <= s.mail.at && s.mail.at + EARLY_TICKS < w.x.startedAt + FromMs(w.x.slotMs)))
  }

  ghost predicate Inv(w: World) {
    && (w.running == 0 || w.running == w.started)
    && w.started <= w.attempts && w.arg <= w.attempts
    && Increasing(w.queue)
    && (forall q <- w.queue :: q <= w.started)
    && (w.running != 0 ==> w.started !in w.queue)
    && w.x.genNext == w.attempts % 256 && w.x.slotMs <= 1200
    && (w.x.scanOn ==> w.x.gen == w.started % 256 && w.arg == w.started == w.attempts && w.x.startedAt <= w.now)
    && (w.x.ownEnd ==> !w.x.scanOn && RadioQuiet(w))
    && (w.mail.Some? ==> MailOk(w, w.mail.value))
    && (w.mid ==> w.passAt <= w.now)
  }

  lemma RestKeeps(w: World, i: Inputs, argKept: bool)
    requires Inv(w) && Legal(w, Rest(i, argKept))
    ensures Inv(Step(w, Rest(i, argKept)))
    ensures Claimed(Step(w, Rest(i, argKept)).x.log, |w.x.log|) ==> RadioQuiet(w)
  {
    ActFacts(w.x, w.passAt, i);
    var y := Act(w.x, w.passAt, i);
    var v := Step(w, Rest(i, argKept));
    hide Act, Settle, Admissible, Increasing, MailOk;
    assert Claimed(y.log, |w.x.log|) ==> w.x.ownEnd;
    assert Inv(v) by {
      if Tried(w.x, y) { TriedKeeps(w, y, v); } else { NotTriedKeeps(w, y, v); }
    }
  }

  lemma TriedKeeps(w: World, y: Exec, v: World)
    requires Inv(w) && w.mid && Acted(w.x, y, w.passAt) && Tried(w.x, y) && (y.scanOn ==> w.running == 0)
    requires v.x == y && !v.mid && v.passAt == w.passAt && v.now == w.now && v.queue == w.queue && v.mail == w.mail
    requires v.attempts == w.attempts + 1 && v.started == (if y.scanOn then v.attempts else w.started)
    requires v.running == (if y.scanOn then v.attempts else w.running)
    requires v.arg == w.arg || v.arg == v.attempts
    requires y.scanOn ==> v.arg == v.attempts
    ensures Inv(v)
  {
    assert (w.attempts + 1) % 256 == NextGen(w.attempts % 256);
    hide NextGen, Increasing;
    if w.mail.Some? { MailAfterTry(w, v, w.mail.value); }
  }

  // A stored end's argument is older than the attempt.
  lemma MailAfterTry(w: World, v: World, s: Stored)
    requires MailOk(w, s) && w.mid && !v.mid && v.attempts == w.attempts + 1
    requires v.x.scanOn ==> v.started == v.attempts
    ensures MailOk(v, s)
  {
  }

  lemma NotTriedKeeps(w: World, y: Exec, v: World)
    requires Inv(w) && w.mid && Acted(w.x, y, w.passAt) && !Tried(w.x, y)
    requires v == w.(x := y, mid := false)
    ensures Inv(v)
  {
    hide Increasing;
  }

  // The one place own_end is set: the stored end is the running scan's own.
  lemma TakeKeeps(w: World, dither: nat)
    requires Inv(w) && Legal(w, TakeEnd(dither))
    ensures Inv(Step(w, TakeEnd(dither)))
  {
    hide Take, Early;
    var m := if w.mail.Some? then Some(w.mail.value.mail) else None;
    TakeFacts(w.x, w.now, m, dither);
    if OwnEndTaken(w.x, m) {
      var s := w.mail.value;
      SameByte(w.attempts, s.tag);
      if !RadioQuiet(w) {
        EndInTime(w.x, s.mail.at);
      }
    }
  }

  // A generation seen as a byte names one attempt among the last 256.
  lemma SameByte(a: nat, b: nat)
    requires b <= a < b + 256
    ensures a % 256 == b % 256 ==> a == b
  {
  }

  lemma EndInTime(x: Exec, at: nat)
    requires x.startedAt <= at && at + EARLY_TICKS < x.startedAt + FromMs(x.slotMs)
    requires FromMs(x.slotMs) < WORD
    ensures Early(x, at, true, false)
  {
    WrapOnce(Since(at, x.startedAt) + EARLY_TICKS);
  }

  lemma DeliverKeeps(w: World)
    requires Inv(w) && Legal(w, Deliver)
    ensures Inv(Step(w, Deliver))
  {
    hide Act, Take, Admissible;
    var v := Step(w, Deliver);
    assert w.queue == [w.queue[0]] + v.queue && w.queue[0] in w.queue;
    if |w.queue| > 1 {
      assert w.queue[1] in w.queue && w.queue[0] < w.started;
    }
    forall q | q in v.queue ensures q in w.queue {
      var k :| 0 <= k < |v.queue| && v.queue[k] == q;
      assert w.queue[k + 1] == q;
    }
    assert MailOk(v, v.mail.value);
  }

  lemma ScanOverKeeps(w: World, queued: bool)
    requires Inv(w) && Legal(w, ScanOver(queued))
    ensures Inv(Step(w, ScanOver(queued)))
  {
    hide Act, Take, Admissible;
    var v := Step(w, ScanOver(queued));
    assert forall k :: 0 <= k < |w.queue| ==> w.queue[k] in w.queue;
    assert Increasing(v.queue);
    assert w.mail.Some? ==> MailOk(v, v.mail.value);
  }

  lemma OtherKeeps(w: World, e: Event)
    requires Inv(w) && Legal(w, e) && (e.Time? || e.HostReset?)
    ensures Inv(Step(w, e))
  {
    hide Act, Take, Admissible;
  }

  // ---- Runs ----

  function Init(t0: nat): World {
    World(InitExec(t0), t0, 0, [], 0, 0, 0, None, false, 0)
  }

  ghost predicate IsRun(ws: seq<World>, es: seq<Event>) {
    && |ws| == |es| + 1 && ws[0] == Init(ws[0].now)
    && forall k :: 0 <= k < |es| ==> Legal(ws[k], es[k]) && ws[k + 1] == Step(ws[k], es[k])
  }

  lemma {:induction false} RunInv(ws: seq<World>, es: seq<Event>, k: nat)
    requires IsRun(ws, es) && k <= |es|
    ensures Inv(ws[k])
  {
    hide Inv, Step, Legal;
    if k == 0 {
      assert Inv(Init(ws[0].now)) by { InitInv(ws[0].now); }
    } else {
      RunInv(ws, es, k - 1);
      assert Legal(ws[k - 1], es[k - 1]) && ws[k] == Step(ws[k - 1], es[k - 1]);
      StepKeeps(ws[k - 1], es[k - 1]);
    }
  }

  lemma InitInv(t: nat)
    ensures Inv(Init(t))
  {
  }

  lemma StepKeeps(w: World, e: Event)
    requires Inv(w) && Legal(w, e)
    ensures Inv(Step(w, e))
  {
    hide Inv, Legal, Step;
    if e.TakeEnd? { TakeKeeps(w, e.dither); }
    else if e.Rest? { RestKeeps(w, e.i, e.argKept); }
    else if e.Deliver? { DeliverKeeps(w); }
    else if e.ScanOver? { ScanOverKeeps(w, e.queued); }
    else { OtherKeeps(w, e); }
  }

  lemma NoOtherClaims(w: World, e: Event)
    requires Legal(w, e) && !e.Rest?
    ensures !Claimed(Step(w, e).x.log, |w.x.log|)
  {
    hide Act, Early, Admissible, RowOf, Unset, FromMs;
  }

  // Whenever a pass starts a claim's connect, the controller runs no scan and no scan's end is still
  // to be processed.
  lemma ClaimIsSafe(ws: seq<World>, es: seq<Event>, k: nat)
    requires IsRun(ws, es) && k < |es|
    requires Claimed(ws[k + 1].x.log, |ws[k].x.log|)
    ensures RadioQuiet(ws[k])
  {
    hide Inv, Step, Legal, Claimed, RadioQuiet;
    RunInv(ws, es, k);
    assert Legal(ws[k], es[k]) && ws[k + 1] == Step(ws[k], es[k]);
    match es[k] {
      case Rest(i, argKept) => RestKeeps(ws[k], i, argKept);
      case _ => NoOtherClaims(ws[k], es[k]);
    }
  }

  // ---- Claims do happen ----

  // What the two passes of the run below read: a row to scan, then a claim ready to connect.
  const SCAN_IN :=
    Inputs(true, true, false, false, false, ROW_NONE, false, false, 0, false, P_NONE, 0,
           N_CODED, N_CODED, Started, None)
  const CLAIM_IN := SCAN_IN.(claimWanted := true, connectLen := 1500, connStarted := true)

  const BOOT := InitExec(1000)
  const SCANNING := BOOT.(scanOn := true, row := N_CODED, left := 1, kind := K_N, gen := 1, genNext := 1,
                          slotMs := 1000,
                          startedAt := 1000, log := [Start(1000, N_CODED, K_N, Started)])
  const ENDED := SCANNING.(scanOn := false, slotDone := true, ownEnd := true, endedAt := 1100, codedLast := true,
                           codedEndAt := 1100, retryAt := 1100,
                           log := SCANNING.log + [OwnEnd(N_CODED, K_N, 1000, 1100)])

  lemma FirstPass()
    ensures Admissible(BOOT, 1000, SCAN_IN) && Act(BOOT, 1000, SCAN_IN) == SCANNING
  {
    assert Settle(BOOT, 1000, SCAN_IN) == BOOT;
    assert Grants(BOOT, 1000, SCAN_IN) == BOOT;
    assert StopOrIdle(BOOT, 1000, SCAN_IN) == BOOT;
    assert PickSlot(BOOT, 1000, N_CODED, N_CODED) == BOOT.(row := N_CODED, left := 1);
  }

  lemma OwnEndOfFirst()
    ensures Take(SCANNING, 1100, Some(Mail(1, 1100, true)), 0) == ENDED
  {
  }

  lemma SecondPass()
    ensures Admissible(ENDED, 1100, CLAIM_IN)
    ensures Claimed(Act(ENDED, 1100, CLAIM_IN).log, |ENDED.log|) && !Began(ENDED, Act(ENDED, 1100, CLAIM_IN))
  {
    assert Settle(ENDED, 1100, CLAIM_IN) == ENDED;
    assert CodedBudget(ENDED, 1100) == 2800;
    var y := ClaimStarts(ENDED, 1100, 1500);
    assert Grants(ENDED, 1100, CLAIM_IN) == y;
    assert y.log == ENDED.log + [Granted(P_CONNECT, 1100, 1250)];
    assert StopOrIdle(y, 1100, CLAIM_IN) == y;
    assert Act(ENDED, 1100, CLAIM_IN) == y;
    assert y.log[|ENDED.log|].pulse == P_CONNECT;
  }

  lemma TakesNothing()
    ensures Take(BOOT, 1000, None, 0) == BOOT
  {
  }

  const W0 := Init(1000)
  const W1 := W0.(mid := true, passAt := 1000)
  const W2 := W1.(x := SCANNING, mid := false, attempts := 1, started := 1, running := 1, arg := 1)
  const W3 := W2.(now := 1100)
  const W4 := W3.(running := 0, queue := [1])
  const W5 := W4.(queue := [], mail := Some(Stored(Mail(1, 1100, true), 1, 1)))
  const W6 := W5.(x := ENDED, mail := None, mid := true, passAt := 1100)

  predicate Leads(w: World, e: Event, v: World) {
    Legal(w, e) && v == Step(w, e)
  }

  lemma ScanBegins()
    ensures Leads(W0, TakeEnd(0), W1) && Leads(W1, Rest(SCAN_IN, false), W2)
  {
    FirstPass();
    TakesNothing();
    hide Act, Take, Admissible;
  }

  lemma ScanEnds()
    ensures Leads(W2, Time(100), W3) && Leads(W3, ScanOver(true), W4)
    ensures Leads(W4, Deliver, W5) && Leads(W5, TakeEnd(0), W6)
  {
    OwnEndOfFirst();
    hide Act, Take, Admissible;
  }

  // The theorem is not empty: a scan runs to its own end, and the next pass starts the claim.
  lemma ClaimsHappen() returns (ws: seq<World>, es: seq<Event>, k: nat)
    ensures IsRun(ws, es) && k < |es| && Claimed(ws[k + 1].x.log, |ws[k].x.log|)
  {
    ScanBegins();
    ScanEnds();
    SecondPass();
    hide Act, Take, Admissible, Claimed;
    assert Legal(W6, Rest(CLAIM_IN, false));
    var w7 := Step(W6, Rest(CLAIM_IN, false));
    assert Claimed(w7.x.log, |W6.x.log|);
    hide Legal, Step;
    es := [TakeEnd(0), Rest(SCAN_IN, false), Time(100), ScanOver(true), Deliver, TakeEnd(0), Rest(CLAIM_IN, false)];
    ws, k := [W0, W1, W2, W3, W4, W5, W6, w7], 6;
  }
}
