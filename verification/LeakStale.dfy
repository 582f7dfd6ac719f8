/**
 A run in which the last health check-in goes on saying wet after a dry advert: the queue is full when
 a sensor reports wet, and it reports dry again within five seconds. It starts at boot.
 */
module LeakStale {
  import opened Ticks
  import opened SensorTables
  import opened LeakEvents

  const SENSOR: Mac := 1
  const T0 := 1000

  function Dry(battery: nat): Data {
    Data(false, battery, "")
  }

  // ---- Runs, one step longer ----

  function Last(ws: seq<World>): World
    requires ws != []
  {
    ws[|ws| - 1]
  }

  lemma Extend(ws: seq<World>, es: seq<Step>, e: Step) returns (vs: seq<World>, fs: seq<Step>)
    requires IsRun(ws, es) && Legal(Last(ws), e)
    ensures IsRun(vs, fs) && Last(vs) == Next(Last(ws), e)
  {
    hide Legal, Next, Init;
    vs, fs := ws + [Next(Last(ws), e)], es + [e];
    forall k | 0 <= k < |fs| ensures Goes(vs[k], fs[k], vs[k + 1]) {
      if k < |es| { assert Goes(ws[k], es[k], ws[k + 1]); }
    }
  }

  // ---- One advert of the sensor ----

  // The host is idle and the sensor listed, with slot k its own and every other one free.
  ghost predicate Ready(w: World, k: nat, s: Slot) {
    && w.pc.Idle? && w.now == T0 && w.t.list == [SENSOR] && |w.t.slots| == MAX_TRACKED && k < MAX_TRACKED
    && w.t.slots[k] == s && s.inUse && s.mac == SENSOR
    && forall j :: 0 <= j < MAX_TRACKED && j != k ==> !w.t.slots[j].inUse
  }

  lemma OwnSlot(w: World, k: nat, s: Slot)
    requires Ready(w, k, s)
    ensures LookupAt(w.t, SENSOR) == (w.t, k)
  {
    assert Holds(w.t.slots[k], SENSOR);
  }

  // What an advert leaves after its check-in's commit ...
  ghost predicate Checked(w: World, k: nat, s: Slot, d: Data, v: World)
    requires k < |w.t.slots|
  {
    var due := CheckinDue(s, d, T0);
    && v.pc.Posted? && v.pc == Posted(Adv(SENSOR, d), k, s, v.pc.look, T0, due)
    && v.now == T0 && v.queued == w.queued
    && v.lastCheckin == (if due then w.lastCheckin[SENSOR := PostFor(s, d)] else w.lastCheckin)
    && v.t == (if due then w.t.(slots := w.t.slots[k := s.(healthTick := T0)]) else w.t)
  }

  function PostFor(s: Slot, d: Data): Post {
    Post(d.leak, T0, s.seen && d.leak != s.data.leak, false)
  }

  // ... and before its event's.
  ghost predicate Through(w: World, k: nat, s: Slot, d: Data, v: World)
    requires k < |w.t.slots|
  {
    var due := CheckinDue(s, d, T0);
    var full := EventDue(s, d, T0) && w.queued >= QUEUE_LEN;
    && v.now == T0
    && v.lastCheckin == (if due then w.lastCheckin[SENSOR := PostFor(s, d).(held := full)] else w.lastCheckin)
    && v.t == (if due then w.t.(slots := w.t.slots[k := s.(healthTick := T0)]) else w.t)
    && (if EventDue(s, d, T0) && !full
        then v.pc.Sent? && v.pc.adv == Adv(SENSOR, d) && v.pc.slot == k && v.pc.now == T0 && v.queued == w.queued + 1
        else v.pc.Idle? && v.queued == w.queued && SENSOR in v.lastAdvert && v.lastAdvert[SENSOR] == d)
  }

  lemma CheckIn(ws: seq<World>, es: seq<Step>, k: nat, s: Slot, d: Data) returns (vs: seq<World>, fs: seq<Step>)
    requires IsRun(ws, es) && Ready(Last(ws), k, s)
    ensures IsRun(vs, fs) && Checked(Last(ws), k, s, d, Last(vs))
  {
    var w := Last(ws);
    OwnSlot(w, k, s);
    hide LookupAt, CheckinDue, EventDue, IsRun, Init;
    vs, fs := Extend(ws, es, Advert(Adv(SENSOR, d)));
    assert Last(vs) == w.(step := w.step + 1, pc := Looked(Adv(SENSOR, d), k, s, w.step));
    vs, fs := Extend(vs, fs, Checkin);
    assert Last(vs).t == w.t;
    vs, fs := Extend(vs, fs, CommitCheckin);
  }

  lemma Sending(w: World, k: nat, s: Slot, d: Data, u: World)
    requires k < |w.t.slots| && Checked(w, k, s, d, u)
    ensures Through(w, k, s, d, Next(u, Send))
  {
    hide CheckinDue, EventDue, Next;
    SendIs(u);
  }

  // From the lookup to the send, for a sensor whose slot the lookup finds.
  lemma Process(ws: seq<World>, es: seq<Step>, k: nat, s: Slot, d: Data) returns (vs: seq<World>, fs: seq<Step>)
    requires IsRun(ws, es) && Ready(Last(ws), k, s)
    ensures IsRun(vs, fs) && Through(Last(ws), k, s, d, Last(vs))
  {
    hide Goes, Init, Next, Through;
    vs, fs := CheckIn(ws, es, k, s, d);
    Sending(Last(ws), k, s, d, Last(vs));
    vs, fs := Extend(vs, fs, Send);
  }

  // A dry event that finds room: the slot then holds it.
  lemma Report(ws: seq<World>, es: seq<Step>, k: nat, s: Slot, d: Data) returns (vs: seq<World>, fs: seq<Step>)
    requires IsRun(ws, es) && Ready(Last(ws), k, s) && s.healthTick <= T0 && EventDue(s, d, T0) &&
        Last(ws).queued < QUEUE_LEN
    requires s.seen ==> s.healthTick == T0 && s.data.leak == d.leak
    ensures IsRun(vs, fs) && Ready(Last(vs), k, Slot(true, SENSOR, d, true, T0, T0)) &&
        Last(vs).queued == Last(ws).queued + 1
  {
    vs, fs := Process(ws, es, k, s, d);
    assert !s.seen ==> CheckinDue(s, d, T0);
    hide CheckinDue, EventDue, IsRun, Init;
    assert Last(vs).t.slots[k].healthTick == T0 && Holds(Last(vs).t.slots[k], SENSOR);
    vs, fs := Extend(vs, fs, Commit);
  }

  const FRESH := FREE.(inUse := true, mac := SENSOR)

  // From boot to the sensor's first advert.
  lemma FirstAdvert() returns (vs: seq<World>, fs: seq<Step>)
    ensures IsRun(vs, fs)
    ensures var w := Last(vs);
      && w.pc.Looked? && w.pc == Looked(Adv(SENSOR, Dry(0)), 0, FRESH, w.pc.look) && w.now == T0 && w.queued == 0
      && w.t == Tables([SENSOR], seq(MAX_TRACKED, _ => FREE)[0 := FRESH])
  {
    vs, fs := [Init(T0)], [];
    vs, fs := Extend(vs, fs, Reload([SENSOR]));
    FirstSlot(Last(vs));
    hide IsRun, Init, LookupAt;
    vs, fs := Extend(vs, fs, Advert(Adv(SENSOR, Dry(0))));
  }

  // ... and to its event.
  lemma Begin() returns (vs: seq<World>, fs: seq<Step>, k: nat)
    ensures IsRun(vs, fs) && Last(vs).queued == 1 && Ready(Last(vs), k, Slot(true, SENSOR, Dry(0), true, T0, T0))
  {
    vs, fs := FirstAdvert();
    k := 0;
    hide Init, LookupAt, Since;
    vs, fs := Extend(vs, fs, Checkin);
    vs, fs := Extend(vs, fs, CommitCheckin);
    vs, fs := Extend(vs, fs, Send);
    vs, fs := Extend(vs, fs, Commit);
  }

  lemma FirstSlot(w: World)
    requires w.t == Tables([SENSOR], seq(MAX_TRACKED, _ => FREE))
    ensures LookupAt(w.t, SENSOR) == (w.t.(slots := w.t.slots[0 := FREE.(inUse := true, mac := SENSOR)]), 0)
  {
  }

  // Nothing drains the queue, and the sensor's battery changes.
  lemma Fill() returns (vs: seq<World>, fs: seq<Step>, k: nat, battery: nat)
    ensures IsRun(vs, fs) && Last(vs).queued == QUEUE_LEN &&
        Ready(Last(vs), k, Slot(true, SENSOR, Dry(battery), true, T0, T0))
  {
    vs, fs, k := Begin();
    battery := 0;
    while Last(vs).queued < QUEUE_LEN
      invariant vs != [] && IsRun(vs, fs) && Last(vs).queued <= QUEUE_LEN
      invariant Ready(Last(vs), k, Slot(true, SENSOR, Dry(battery), true, T0, T0))
      decreases QUEUE_LEN - Last(vs).queued
    {
      vs, fs := Report(vs, fs, k, Slot(true, SENSOR, Dry(battery), true, T0, T0), Dry(battery + 1));
      battery := battery + 1;
    }
  }

  // The wet advert posts its check-in and is held; the dry one after it posts none.
  lemma StaleAfterFullQueue() returns (vs: seq<World>, fs: seq<Step>)
    ensures IsRun(vs, fs)
    ensures var w := Last(vs);
      && w.pc.Idle? && SENSOR in w.lastAdvert && SENSOR in w.lastCheckin
      && !w.lastAdvert[SENSOR].leak && w.lastCheckin[SENSOR].wet
  {
    var k, battery;
    vs, fs, k, battery := Fill();
    var s := Slot(true, SENSOR, Dry(battery), true, T0, T0);
    vs, fs := Process(vs, fs, k, s, Data(true, battery, ""));
    assert Ready(Last(vs), k, s);
    vs, fs := Process(vs, fs, k, s, Dry(battery));
  }
}
