/**
 No leak edge is lost: one advert's way through `process_leak_adv`, interleaved with whitelist
 reloads, tracking resets and queue drains.

 The host task processes one advert at a time, in steps: the lookup section, the health check-in, its
 commit, the telemetry send, its commit. The scan task's reload and `iothub_task`'s reset may fall
 between any two of them.
 */
module LeakEvents {
  import opened Ticks
  import opened SensorTables

  const HEARTBEAT_TICKS := 30000   // BLE_LEAK_HEARTBEAT_MS, 5 min
  const CHECKIN_TICKS := 500       // HEALTH_CHECKIN_MIN_MS, 5 s
  const QUEUE_LEN := 10

  datatype Adv = Adv(mac: Mac, data: Data)

  /** An enqueued event, when its advert was processed, and the step of that advert's lookup. */
  datatype Ev = Ev(data: Data, tick: nat, look: nat)

  datatype Pc =
    | Idle
    | Looked(adv: Adv, slot: nat, snap: Slot, look: nat)
    | Checked(adv: Adv, slot: nat, snap: Slot, look: nat, now: nat, posted: bool)
    | Posted(adv: Adv, slot: nat, snap: Slot, look: nat, now: nat, posted: bool)
    | Sent(adv: Adv, slot: nat, snap: Slot, look: nat, now: nat, posted: bool)

  /** A health check-in: its wet bit, when it was posted, whether it was an edge against its sensor's
      slot, and whether its own advert's event then met a full queue. */
  datatype Post = Post(wet: bool, tick: nat, edge: bool, held: bool)

  datatype World = World(
    t: Tables, pc: Pc, now: nat, step: nat, queued: nat,
    lastEvent: map<Mac, Ev>,          // the last event enqueued for a MAC
    lastCheckin: map<Mac, Post>,      // the last health check-in for a MAC
    lastAdvert: map<Mac, Data>,       // the last listed advert processed for a MAC
    held: set<Mac>,                   // ... whose own send met a full queue
    quiet: map<Mac, nat>,             // ... and when it was processed, if it posted no check-in
    pruned: map<Mac, nat>, reset: nat)   // the step a MAC's slot was last pruned, all were last reset

  datatype Step =
    | Time(dt: nat)
    | Advert(adv: Adv)
    | Checkin | CommitCheckin | Send | Commit
    | Reload(list: seq<Mac>) | ResetTracking | Drain

  // ---- The program ----

  predicate LeakEdge(s: Slot, d: Data) {
    !s.seen || d.leak != s.data.leak
  }

  predicate CheckinDue(s: Slot, d: Data, now: nat) {
    LeakEdge(s, d) || Since(now, s.healthTick) >= CHECKIN_TICKS
  }

  predicate EventDue(s: Slot, d: Data, now: nat) {
    !s.seen || s.data != d || Since(now, s.eventTick) >= HEARTBEAT_TICKS
  }

  // A commit reaches the slot only while it still belongs to the sensor.
  function CommitTo(t: Tables, k: nat, mac: Mac, s: Slot): Tables
    requires k < |t.slots|
  {
    if Holds(t.slots[k], mac) then t.(slots := t.slots[k := s]) else t
  }

  function PostOf(p: Pc, now: nat): Post
    requires p.Looked?
  {
    Post(p.adv.data.leak, now, p.snap.seen && p.adv.data.leak != p.snap.data.leak, false)
  }

  // The advert is through.
  function Processed(w: World, p: Pc): World
    requires p.Posted? || p.Sent?
  {
    var m := p.adv.mac;
    w.(pc := Idle, lastAdvert := w.lastAdvert[m := p.adv.data],
       quiet := if p.posted then w.quiet - {m} else w.quiet[m := p.now])
  }

  // The MACs a new list prunes.
  function Gone(slots: seq<Slot>, list: seq<Mac>): (gone: set<Mac>)
    ensures forall k :: 0 <= k < |slots| && slots[k].inUse && slots[k].mac !in list ==> slots[k].mac in gone
  {
    set k | 0 <= k < |slots| && slots[k].inUse && slots[k].mac !in list :: slots[k].mac
  }

  function Marked(pruned: map<Mac, nat>, gone: set<Mac>, step: nat): (r: map<Mac, nat>)
    ensures forall m :: m in r <==> m in pruned || m in gone
    ensures forall m <- r :: r[m] == if m in gone then step else pruned[m]
  {
    pruned + map m | m in gone :: step
  }

  predicate Legal(w: World, e: Step) {
    match e
    case Advert(_) => w.pc.Idle?
    case Checkin => w.pc.Looked?
    case CommitCheckin => w.pc.Checked? && w.pc.slot < |w.t.slots|
    case Send => w.pc.Posted?
    case Commit => w.pc.Sent? && w.pc.slot < |w.t.slots|
    case Reload(list) => |list| <= MAX_TRACKED
    case _ => true
  }

  function Next(w: World, e: Step): World
    requires Legal(w, e)
  {
    var v := w.(step := w.step + 1);
    match e
    case Time(dt) => v.(now := w.now + dt)
    case Drain => v.(queued := if w.queued > 0 then w.queued - 1 else 0)
    case Reload(list) =>
      v.(t := Swap(w.t, list), pruned := Marked(w.pruned, Gone(w.t.slots, list), w.step))
    case ResetTracking =>
      v.(t := w.t.(slots := seq(|w.t.slots|, k requires 0 <= k < |w.t.slots| =>
           w.t.slots[k].(seen := false, eventTick := 0, healthTick := 0))),
         reset := w.step)
    case Advert(adv) =>
      if adv.mac !in w.t.list then v
      else
        var (t, k) := LookupAt(w.t, adv.mac);
        if 0 <= k < |t.slots| then v.(t := t, pc := Looked(adv, k, t.slots[k], w.step)) else v
    case Checkin =>
      var p := w.pc;
      var due := CheckinDue(p.snap, p.adv.data, w.now);
      v.(lastCheckin := if due then w.lastCheckin[p.adv.mac := PostOf(p, w.now)] else w.lastCheckin,
         pc := Checked(p.adv, p.slot, p.snap, p.look, w.now, due))
    case CommitCheckin =>
      var p := w.pc;
      v.(t := if p.posted then CommitTo(w.t, p.slot, p.adv.mac, w.t.slots[p.slot].(healthTick := p.now)) else w.t,
         pc := Posted(p.adv, p.slot, p.snap, p.look, p.now, p.posted))
    case Send =>
      var p := w.pc;
      var m := p.adv.mac;
      if !EventDue(p.snap, p.adv.data, p.now) then Processed(v, p).(held := w.held - {m})
      else if w.queued >= QUEUE_LEN then
        Processed(v, p).(held := w.held + {m},
          lastCheckin := if p.posted && m in w.lastCheckin
              then w.lastCheckin[m := w.lastCheckin[m].(held := true)] else w.lastCheckin)
      else
        v.(pc := Sent(p.adv, p.slot, p.snap, p.look, p.now, p.posted), queued := w.queued + 1,
           lastEvent := w.lastEvent[m := Ev(p.adv.data, p.now, p.look)])
    case Commit =>
      var p := w.pc;
      var m := p.adv.mac;
      Processed(v, p).(
        t := CommitTo(w.t, p.slot, m, w.t.slots[p.slot].(data := p.adv.data, seen := true, eventTick := p.now)),
        held := w.held - {m})
  }

  // ---- The invariant ----

  // Neither a prune of the MAC's slot nor a reset since step `since`.
  predicate Calm(w: World, mac: Mac, since: nat) {
    w.reset < since && (mac in w.pruned ==> w.pruned[mac] < since)
  }

  predicate At(w: World, mac: Mac) {
    !w.pc.Idle? && w.pc.adv.mac == mac
  }

  // A slot that has reported holds exactly the last event enqueued for its MAC (but for a commit on
  // its way).
  ghost predicate SeenSlots(w: World) {
    forall k :: 0 <= k < |w.t.slots| && w.t.slots[k].inUse && w.t.slots[k].seen ==>
      var s := w.t.slots[k];
      s.mac in w.lastEvent &&
      (!(w.pc.Sent? && At(w, s.mac)) ==> s.data == w.lastEvent[s.mac].data && s.eventTick == w.lastEvent[s.mac].tick)
  }

  predicate SeenFor(s: Slot, mac: Mac) {
    Holds(s, mac) && s.seen
  }

  // The last event of a MAC left alone since its lookup is in a slot.
  ghost predicate EventsKept(w: World) {
    forall m <- w.lastEvent :: Calm(w, m, w.lastEvent[m].look) && !(w.pc.Sent? && At(w, m)) ==>
      exists k :: 0 <= k < |w.t.slots| && SeenFor(w.t.slots[k], m)
  }

  // What the advert in progress knows of the tables.
  ghost predicate InProgress(w: World) {
    w.pc.Idle? ||
    (&& w.pc.slot < |w.t.slots| && w.pc.look < w.step
     && (Calm(w, w.pc.adv.mac, w.pc.look) ==> Holds(w.t.slots[w.pc.slot], w.pc.adv.mac))
     && (forall k :: 0 <= k < |w.t.slots| && Holds(w.t.slots[k], w.pc.adv.mac) ==> k == w.pc.slot)
     && (!w.pc.Sent? ==>
          && (w.pc.snap.seen ==> w.pc.adv.mac in w.lastEvent && w.pc.snap.data == w.lastEvent[w.pc.adv.mac].data
                                 && w.pc.snap.eventTick == w.lastEvent[w.pc.adv.mac].tick)
          && (w.pc.adv.mac in w.lastEvent && Calm(w, w.pc.adv.mac, w.lastEvent[w.pc.adv.mac].look) ==> w.pc.snap.seen)
          && (Holds(w.t.slots[w.pc.slot], w.pc.adv.mac) && w.t.slots[w.pc.slot].seen ==> w.pc.snap.seen))
     && (w.pc.Sent? ==>
           w.pc.adv.mac in w.lastEvent && w.lastEvent[w.pc.adv.mac] == Ev(w.pc.adv.data, w.pc.now, w.pc.look))
     && (w.pc.Looked? || w.pc.now <= w.now)
     && ((w.pc.Checked? || w.pc.Posted?) && w.pc.adv.mac in w.lastEvent ==> w.lastEvent[w.pc.adv.mac].tick <= w.pc.now))
  }

  ghost predicate Times(w: World) {
    && (forall m <- w.lastEvent :: w.lastEvent[m].tick <= w.now && w.lastEvent[m].look < w.step)
    && w.reset < w.step && (forall m <- w.pruned :: w.pruned[m] < w.step)
  }

  ghost predicate Inv(w: World) {
    SlotsOk(w.t) && SeenSlots(w) && EventsKept(w) && InProgress(w) && Times(w)
  }

  // The slot that keeps a MAC's last event goes on keeping it.
  lemma KeptOn(w: World, v: World)
    requires EventsKept(w) && v.lastEvent == w.lastEvent && |v.t.slots| == |w.t.slots|
    requires forall m <- w.lastEvent ::
      Calm(v, m, w.lastEvent[m].look) && !(v.pc.Sent? && At(v, m)) ==>
        (Calm(w, m, w.lastEvent[m].look) && !(w.pc.Sent? && At(w, m)) &&
         forall k :: 0 <= k < |w.t.slots| && SeenFor(w.t.slots[k], m) ==> SeenFor(v.t.slots[k], m))
    ensures EventsKept(v)
  {
    forall m | m in v.lastEvent && Calm(v, m, v.lastEvent[m].look) && !(v.pc.Sent? && At(v, m))
      ensures exists k :: 0 <= k < |v.t.slots| && SeenFor(v.t.slots[k], m)
    {
      var k :| 0 <= k < |w.t.slots| && SeenFor(w.t.slots[k], m);
      assert SeenFor(v.t.slots[k], m);
    }
  }

  lemma ReloadKeeps(w: World, list: seq<Mac>)
    requires Inv(w) && |list| <= MAX_TRACKED
    ensures Inv(Next(w, Reload(list)))
  {
    hide Swap, Gone, Marked;
    SwapFacts(w.t, list);
    var v := Next(w, Reload(list));
    assert SeenSlots(v) && Times(v) by { hide EventsKept, InProgress, SlotsOk; }
    assert InProgress(v) by { hide EventsKept, SeenSlots, SlotsOk; }
    assert EventsKept(v) by {
      hide InProgress, SeenSlots, SlotsOk, Times;
      KeptOn(w, v);
    }
  }

  lemma SwapFacts(t: Tables, list: seq<Mac>)
    requires SlotsOk(t) && |list| <= MAX_TRACKED
    ensures var u := Swap(t, list);
      && SlotsOk(u) && u.list == list && |u.slots| == |t.slots|
      && forall k :: 0 <= k < |t.slots| ==>
          u.slots[k] == if t.slots[k].inUse && t.slots[k].mac !in list then FREE else t.slots[k]
  {
    SwapKeepsSlots(t, list);
  }

  lemma ResetKeeps(w: World)
    requires Inv(w)
    ensures Inv(Next(w, ResetTracking))
  {
  }

  lemma TimeKeeps(w: World, e: Step)
    requires Inv(w) && Legal(w, e) && (e.Time? || e.Drain?)
    ensures Inv(Next(w, e))
  {
    hide SlotsOk;
    var v := Next(w, e);
    assert v.t == w.t && v.pc == w.pc && v.lastEvent == w.lastEvent && v.reset == w.reset && v.pruned == w.pruned;
    assert v.now >= w.now && v.step == w.step + 1;
    hide Next;
    KeptOn(w, v);
  }

  lemma CheckinKeeps(w: World)
    requires Inv(w) && Legal(w, Checkin)
    ensures Inv(Next(w, Checkin))
  {
    hide SlotsOk, CheckinDue;
    var v := Next(w, Checkin);
    assert v.t == w.t && v.lastEvent == w.lastEvent && v.reset == w.reset && v.pruned == w.pruned;
    assert v.now == w.now && v.step == w.step + 1;
    assert v.pc == Checked(w.pc.adv, w.pc.slot, w.pc.snap, w.pc.look, w.now, v.pc.posted);
    hide Next;
    KeptOn(w, v);
  }

  lemma CommitCheckinKeeps(w: World)
    requires Inv(w) && Legal(w, CommitCheckin)
    ensures Inv(Next(w, CommitCheckin))
  {
    var v := Next(w, CommitCheckin);
    assert v.lastEvent == w.lastEvent && v.reset == w.reset && v.pruned == w.pruned && v.now == w.now &&
        v.step == w.step + 1;
    assert v.pc == Posted(w.pc.adv, w.pc.slot, w.pc.snap, w.pc.look, w.pc.now, w.pc.posted);
    assert v.t.list == w.t.list && |v.t.slots| == |w.t.slots|;
    assert forall k :: 0 <= k < |w.t.slots| ==> v.t.slots[k] == w.t.slots[k].(healthTick := v.t.slots[k].healthTick);
    hide Next, CommitTo;
    KeptOn(w, v);
  }

  // A listed MAC always gets a slot, its own or a cleared one.
  lemma LookupFinds(t: Tables, mac: Mac)
    requires SlotsOk(t) && mac in t.list
    ensures var (u, k) := LookupAt(t, mac);
      && u.list == t.list && |u.slots| == |t.slots| && 0 <= k < |u.slots| && SlotsOk(u)
      && Holds(u.slots[k], mac) && (u.slots[k] == t.slots[k] || (!t.slots[k].inUse && !u.slots[k].seen))
      && (forall j :: 0 <= j < |u.slots| && j != k ==> u.slots[j] == t.slots[j])
      && (forall j :: 0 <= j < |u.slots| && Holds(u.slots[j], mac) ==> j == k)
  {
    if FirstHolding(t.slots, mac, 0) < 0 {
      AlwaysRoom(t, mac);
    }
  }

  lemma AdvertKeeps(w: World, adv: Adv)
    requires Inv(w) && Legal(w, Advert(adv))
    ensures Inv(Next(w, Advert(adv)))
  {
    hide LookupAt, SlotsOk;
    var v := Next(w, Advert(adv));
    if adv.mac in w.t.list {
      LookupFinds(w.t, adv.mac);
      assert SeenSlots(v) && Times(v) by { hide EventsKept, InProgress; }
      assert EventsKept(v) by {
        hide InProgress, SeenSlots, Times;
        KeptOn(w, v);
      }
      AdvertProgress(w, adv);
    }
  }

  lemma AdvertProgress(w: World, adv: Adv)
    requires SlotsOk(w.t) && SeenSlots(w) && EventsKept(w) && Times(w) && Legal(w, Advert(adv)) && adv.mac in w.t.list
    ensures InProgress(Next(w, Advert(adv)))
  {
    hide LookupAt, SlotsOk;
    LookupFinds(w.t, adv.mac);
  }

  // The send, field by field.
  predicate Sending(w: World, v: World, due: bool)
    requires w.pc.Posted?
  {
    var (p, m) := (w.pc, w.pc.adv.mac);
    && v.t == w.t && v.now == w.now && v.step == w.step + 1 && v.reset == w.reset && v.pruned == w.pruned
    && if due && w.queued < QUEUE_LEN then
         && v.pc == Sent(p.adv, p.slot, p.snap, p.look, p.now, p.posted) && v.queued == w.queued + 1
         && v.lastEvent == w.lastEvent[m := Ev(p.adv.data, p.now, p.look)]
         && v.lastAdvert == w.lastAdvert && v.quiet == w.quiet && v.lastCheckin == w.lastCheckin
       else
         && v.pc == Idle && v.queued == w.queued && v.lastEvent == w.lastEvent
         && v.lastAdvert == w.lastAdvert[m := p.adv.data]
         && v.quiet == (if p.posted then w.quiet - {m} else w.quiet[m := p.now])
         && v.lastCheckin == if due && p.posted && m in w.lastCheckin
                             then w.lastCheckin[m := w.lastCheckin[m].(held := true)] else w.lastCheckin
  }

  lemma SendIs(w: World)
    requires Legal(w, Send)
    ensures Sending(w, Next(w, Send), EventDue(w.pc.snap, w.pc.adv.data, w.pc.now))
  {
    var due := EventDue(w.pc.snap, w.pc.adv.data, w.pc.now);
    hide EventDue;
    if !due {
    } else if w.queued < QUEUE_LEN {
    } else {
    }
  }

  lemma SendKeeps(w: World)
    requires Inv(w) && Legal(w, Send)
    ensures Inv(Next(w, Send))
  {
    hide Next, SlotsOk, SeenSlots, EventsKept, InProgress, Times;
    SendSeen(w);
    SendKept(w);
    SendRest(w);
  }

  lemma SendRest(w: World)
    requires SlotsOk(w.t) && InProgress(w) && Times(w) && Legal(w, Send)
    ensures SlotsOk(Next(w, Send).t) && InProgress(Next(w, Send)) && Times(Next(w, Send))
  {
    hide Next, SlotsOk, InProgress, Times;
    assert Next(w, Send).t == w.t by { SendSlots(w); }
    SendTimes(w);
    SendProgress(w);
  }

  lemma SendSlots(w: World)
    requires Legal(w, Send)
    ensures Next(w, Send).t == w.t
  {
    hide EventDue;
  }

  lemma SendTimes(w: World)
    requires InProgress(w) && Times(w) && Legal(w, Send)
    ensures Times(Next(w, Send))
  {
    SendIs(w);
    hide EventDue, Next;
  }

  lemma SendProgress(w: World)
    requires InProgress(w) && Legal(w, Send)
    ensures InProgress(Next(w, Send))
  {
    SendIs(w);
    hide EventDue, InProgress, Next;
    var v := Next(w, Send);
    if v.pc.Idle? {
      IdleProgress(v);
    } else {
      SentProgress(w, v);
    }
  }

  lemma IdleProgress(v: World)
    requires v.pc.Idle?
    ensures InProgress(v)
  {
  }

  lemma SentProgress(w: World, v: World)
    requires InProgress(w) && w.pc.Posted?
    requires v.pc == Sent(w.pc.adv, w.pc.slot, w.pc.snap, w.pc.look, w.pc.now, w.pc.posted)
    requires v.t == w.t && v.reset == w.reset && v.pruned == w.pruned && v.now == w.now && v.step == w.step + 1
    requires v.lastEvent == w.lastEvent[w.pc.adv.mac := Ev(w.pc.adv.data, w.pc.now, w.pc.look)]
    ensures InProgress(v)
  {
  }

  lemma SendSeen(w: World)
    requires SeenSlots(w) && Legal(w, Send)
    ensures SeenSlots(Next(w, Send))
  {
    hide EventDue;
  }

  lemma SendKept(w: World)
    requires EventsKept(w) && Legal(w, Send)
    ensures EventsKept(Next(w, Send))
  {
    SendIs(w);
    hide EventDue, Next;
    var v := Next(w, Send);
    forall m | m in v.lastEvent && Calm(v, m, v.lastEvent[m].look) && !(v.pc.Sent? && At(v, m))
      ensures exists k :: 0 <= k < |v.t.slots| && SeenFor(v.t.slots[k], m)
    {
      var k :| 0 <= k < |w.t.slots| && SeenFor(w.t.slots[k], m);
      assert SeenFor(v.t.slots[k], m);
    }
  }

  lemma CommitKeeps(w: World)
    requires Inv(w) && Legal(w, Commit)
    ensures Inv(Next(w, Commit))
  {
    var v := Next(w, Commit);
    assert SlotsOk(v.t) && SeenSlots(v) && Times(v);
    forall m | m in v.lastEvent && Calm(v, m, v.lastEvent[m].look)
      ensures exists k :: 0 <= k < |v.t.slots| && SeenFor(v.t.slots[k], m)
    {
      if m == w.pc.adv.mac {
        assert SeenFor(v.t.slots[w.pc.slot], m);
      } else {
        var k :| 0 <= k < |w.t.slots| && SeenFor(w.t.slots[k], m);
        assert SeenFor(v.t.slots[k], m);
      }
    }
  }

  // ---- What is told ----

  // After each listed advert the last event enqueued matches it, unless its own send met a full queue.
  ghost predicate EventsTold(w: World) {
    forall m <- w.lastAdvert :: m !in w.held && !(w.pc.Sent? && At(w, m)) ==>
      m in w.lastEvent && w.lastEvent[m].data == w.lastAdvert[m]
  }

  // The advert in progress has posted a check-in.
  predicate PostedNow(w: World, mac: Mac) {
    At(w, mac) && !w.pc.Looked? && w.pc.posted
  }

  // An edge whose own event met a full queue: the slot still has the bit before it.
  predicate Lost(c: Post) {
    c.edge && c.held
  }

  // The bit the slot has, after check-in c.
  function SlotBit(c: Post): bool {
    if Lost(c) then !c.wet else c.wet
  }

  // Within 5 s of a check-in (of a tick count that reads 0, once a tracking reset cleared the stamp).
  predicate Soon(now: nat, c: Post) {
    Since(now, c.tick) < CHECKIN_TICKS || Since(now, 0) < CHECKIN_TICKS
  }

  // The slot has the check-in's stamp, or none since a tracking reset.
  predicate StampOk(s: Slot, c: Post) {
    s.healthTick == c.tick || s.healthTick == 0
  }

  predicate Stamped(s: Slot, c: Post) {
    s.data.leak == SlotBit(c) && StampOk(s, c)
  }

  // A slot that has reported has its sensor's check-in's bit, or the bit before a lost edge.
  ghost predicate WetSlots(w: World) {
    forall k :: 0 <= k < |w.t.slots| && w.t.slots[k].inUse && w.t.slots[k].seen && !PostedNow(w, w.t.slots[k].mac) ==>
      w.t.slots[k].mac in w.lastCheckin && Stamped(w.t.slots[k], w.lastCheckin[w.t.slots[k].mac])
  }

  // The slot of the advert in progress, while it is still the sensor's.
  predicate SlotStamped(w: World, c: Post)
    requires !w.pc.Idle?
  {
    w.pc.slot < |w.t.slots| && Holds(w.t.slots[w.pc.slot], w.pc.adv.mac) ==> StampOk(w.t.slots[w.pc.slot], c)
  }

  // An advert past its check-in: it posted that one, or repeats the slot's bit soon after the last one.
  predicate PastCheckin(w: World, c: Post)
    requires w.pc.Checked? || w.pc.Posted? || w.pc.Sent?
  {
    var p := w.pc;
    if p.posted then
      && c == Post(p.adv.data.leak, p.now, p.snap.seen && p.adv.data.leak != p.snap.data.leak, false)
      && (!p.Checked? ==> SlotStamped(w, c))
    else
      && p.snap.seen && p.adv.data.leak == p.snap.data.leak == SlotBit(c)
      && (Lost(c) ==> Soon(p.now, c)) && SlotStamped(w, c)
  }

  // ... and so knows the advert in progress.
  predicate WetProgress(w: World) {
    && (w.pc.Looked? && w.pc.snap.seen ==>
          && w.pc.adv.mac in w.lastCheckin && Stamped(w.pc.snap, w.lastCheckin[w.pc.adv.mac])
          && SlotStamped(w, w.lastCheckin[w.pc.adv.mac]))
    && (w.pc.Checked? || w.pc.Posted? || w.pc.Sent? ==>
          w.pc.adv.mac in w.lastCheckin && PastCheckin(w, w.lastCheckin[w.pc.adv.mac]))
  }

  // The last check-in of a sensor carries its last advert's wet bit, but for exactly one case: it was an
  // edge whose own event met a full queue, and the last advert posted none. That advert then came
  // within 5 s of it.
  ghost predicate WetTold(w: World) {
    forall m <- w.lastAdvert :: ToldFor(w, m)
  }

  predicate ToldFor(w: World, m: Mac)
    requires m in w.lastAdvert
  {
    !PostedNow(w, m) ==>
      && m in w.lastCheckin
      && (w.lastCheckin[m].wet != w.lastAdvert[m].leak <==> Lost(w.lastCheckin[m]) && m in w.quiet)
      && (Lost(w.lastCheckin[m]) && m in w.quiet ==> Soon(w.quiet[m], w.lastCheckin[m]))
  }

  ghost predicate Wet(w: World) {
    WetSlots(w) && WetProgress(w) && WetTold(w)
  }

  lemma ToldKeeps(w: World, e: Step)
    requires Inv(w) && EventsTold(w) && Legal(w, e)
    ensures EventsTold(Next(w, e))
  {
    hide Inv;
    if e.Send? {
      SendToldKeeps(w);
    } else if e.Commit? {
      CommitToldKeeps(w);
    } else {
      hide EventsTold;
      OtherToldKeeps(w, e);
    }
  }

  lemma OtherToldKeeps(w: World, e: Step)
    requires EventsTold(w) && Legal(w, e) && !e.Send? && !e.Commit?
    ensures EventsTold(Next(w, e))
  {
    hide CheckinDue, LookupAt, Swap, CommitTo, Marked, Gone;
  }

  lemma SendToldKeeps(w: World)
    requires Inv(w) && EventsTold(w) && Legal(w, Send)
    ensures EventsTold(Next(w, Send))
  {
    hide SlotsOk, SeenSlots, EventsKept, Times, Since, Calm;
  }

  lemma CommitToldKeeps(w: World)
    requires Inv(w) && EventsTold(w) && Legal(w, Commit)
    ensures EventsTold(Next(w, Commit))
  {
    hide SlotsOk, SeenSlots, EventsKept, Times, Calm, CommitTo;
  }

  lemma WetKeepsTime(w: World, e: Step)
    requires Wet(w) && Legal(w, e) && (e.Time? || e.Drain?)
    ensures Wet(Next(w, e))
  {
    hide Since, Stamped, StampOk, SlotBit, Soon;
  }

  lemma WetKeepsReload(w: World, list: seq<Mac>)
    requires SlotsOk(w.t) && Wet(w) && |list| <= MAX_TRACKED
    ensures Wet(Next(w, Reload(list)))
  {
    hide SlotsOk, Since, Swap, Gone, Marked, Stamped, StampOk, SlotBit, Soon;
    SwapFacts(w.t, list);
  }

  lemma WetKeepsReset(w: World)
    requires Wet(w)
    ensures Wet(Next(w, ResetTracking))
  {
    hide Since, SlotBit, Soon;
  }

  lemma WetKeepsAdvert(w: World, adv: Adv)
    requires Inv(w) && Wet(w) && Legal(w, Advert(adv))
    ensures Wet(Next(w, Advert(adv)))
  {
    hide SeenSlots, EventsKept, Since, Calm, CommitTo, StampOk, SlotBit, Soon, LookupAt, SlotsOk;
    if adv.mac in w.t.list {
      LookupFinds(w.t, adv.mac);
    }
  }

  lemma WetKeepsCheckin(w: World, e: Step)
    requires Inv(w) && Wet(w) && Legal(w, e) && (e.Checkin? || e.CommitCheckin?)
    ensures Wet(Next(w, e))
  {
    hide SeenSlots, EventsKept, Since, Calm, SlotsOk;
  }

  lemma WetKeepsSend(w: World)
    requires Inv(w) && Wet(w) && Legal(w, Send)
    ensures Wet(Next(w, Send))
  {
    hide Next, Inv, WetSlots, WetProgress, WetTold;
    SendWetSlots(w);
    SendWetProgress(w);
    SendWetTold(w);
  }

  lemma SendWetProgress(w: World)
    requires WetProgress(w) && Legal(w, Send)
    ensures WetProgress(Next(w, Send))
  {
    SendIs(w);
    hide Next, Since, EventDue, StampOk, SlotBit, Soon;
  }

  lemma SendWetTold(w: World)
    requires WetProgress(w) && WetTold(w) && Legal(w, Send)
    ensures WetTold(Next(w, Send))
  {
    var v := Next(w, Send);
    forall m | m in v.lastAdvert ensures ToldFor(v, m) {
      if m == w.pc.adv.mac { SendToldOwn(w); } else { SendToldOther(w, m); }
    }
  }

  lemma SendToldOwn(w: World)
    requires WetProgress(w) && WetTold(w) && Legal(w, Send)
    ensures var v := Next(w, Send); w.pc.adv.mac in v.lastAdvert ==> ToldFor(v, w.pc.adv.mac)
  {
    SendIs(w);
    hide Next, Since, Soon, StampOk;
  }

  lemma SendToldOther(w: World, m: Mac)
    requires WetTold(w) && Legal(w, Send) && m != w.pc.adv.mac && m in Next(w, Send).lastAdvert
    ensures ToldFor(Next(w, Send), m)
  {
    SendIs(w);
    hide Next, Since, Soon, Lost;
    assert m in w.lastAdvert && ToldFor(w, m);
  }

  lemma SendWetSlots(w: World)
    requires Inv(w) && WetSlots(w) && WetProgress(w) && Legal(w, Send)
    ensures WetSlots(Next(w, Send))
  {
    SendIs(w);
    hide Next, EventsKept, Since, Calm, SlotsOk, Times;
  }

  lemma WetKeepsCommit(w: World)
    requires Inv(w) && Wet(w) && Legal(w, Commit)
    ensures Wet(Next(w, Commit))
  {
    hide SeenSlots, EventsKept, Since, Calm, SlotsOk;
  }

  // A send that enqueues an event equal to its sensor's last one, with no prune or reset since that
  // one's lookup, comes at least BLE_LEAK_HEARTBEAT_MS after it.
  predicate Spaced(w: World, v: World)
    requires w.pc.Posted?
  {
    var m := w.pc.adv.mac;
    (v.pc.Sent? && m in w.lastEvent && m in v.lastEvent && v.lastEvent[m].data == w.lastEvent[m].data &&
     Calm(w, m, w.lastEvent[m].look)) ==> v.lastEvent[m].tick >= w.lastEvent[m].tick + HEARTBEAT_TICKS
  }

  lemma SendSpaced(w: World)
    requires Inv(w) && Legal(w, Send)
    ensures Spaced(w, Next(w, Send))
  {
    hide SlotsOk, SeenSlots, EventsKept, Calm, Since;
    if w.pc.snap.seen && w.pc.snap.eventTick <= w.pc.now {
      SinceAtMost(w.pc.now, w.pc.snap.eventTick);
    }
  }

  lemma SinceAtMost(now: nat, at: nat)
    requires at <= now
    ensures Since(now, at) <= now - at
  {
  }

  // ---- Runs ----

  function Init(now: nat): World {
    World(Tables([], seq(MAX_TRACKED, _ => FREE)), Idle, now, 1, 0, map[], map[], map[], {}, map[], map[], 0)
  }

  predicate Goes(w: World, e: Step, v: World) {
    Legal(w, e) && v == Next(w, e)
  }

  ghost predicate IsRun(ws: seq<World>, es: seq<Step>) {
    && |ws| == |es| + 1 && ws[0] == Init(ws[0].now)
    && forall k :: 0 <= k < |es| ==> Goes(ws[k], es[k], ws[k + 1])
  }

  ghost predicate Told(w: World) {
    Inv(w) && EventsTold(w) && Wet(w)
  }

  lemma StepTold(w: World, e: Step, v: World)
    requires Told(w) && Goes(w, e, v)
    ensures Told(v)
  {
    hide Inv, EventsTold, Wet, Legal, Next;
    ToldKeeps(w, e);
    match e {
      case Advert(adv) => AdvertKeeps(w, adv); WetKeepsAdvert(w, adv);
      case Send => SendKeeps(w); WetKeepsSend(w);
      case Commit => CommitKeeps(w); WetKeepsCommit(w);
      case Reload(list) =>
        ReloadFits(w, e);
        InvSlots(w);
        ReloadKeeps(w, list);
        WetKeepsReload(w, list);
      case ResetTracking => ResetKeeps(w); WetKeepsReset(w);
      case Time(_) => TimeKeeps(w, e); WetKeepsTime(w, e);
      case Drain => TimeKeeps(w, e); WetKeepsTime(w, e);
      case Checkin => CheckinKeeps(w); WetKeepsCheckin(w, e);
      case CommitCheckin => CommitCheckinKeeps(w); WetKeepsCheckin(w, e);
    }
  }

  lemma InvSlots(w: World)
    requires Inv(w)
    ensures SlotsOk(w.t)
  {
  }

  lemma ReloadFits(w: World, e: Step)
    requires Legal(w, e) && e.Reload?
    ensures |e.list| <= MAX_TRACKED
  {
  }

  lemma InitTold(now: nat)
    ensures Told(Init(now))
  {
  }

  // Under every interleaving: what each slot, event and check-in holds.
  lemma {:induction false} NoEdgeLost(ws: seq<World>, es: seq<Step>, k: nat)
    requires IsRun(ws, es) && k <= |es|
    ensures SeenSlots(ws[k]) && EventsTold(ws[k]) && WetTold(ws[k])
    ensures Told(ws[k])
  {
    hide Goes, SeenSlots, EventsTold, WetTold, WetSlots, WetProgress, EventsKept, InProgress, Times, Init;
    if k == 0 {
      InitTold(ws[0].now);
    } else {
      NoEdgeLost(ws, es, k - 1);
      assert Goes(ws[k - 1], es[k - 1], ws[k]);
      StepTold(ws[k - 1], es[k - 1], ws[k]);
    }
  }

  lemma EqualEventsSpaced(ws: seq<World>, es: seq<Step>, k: nat)
    requires IsRun(ws, es) && k < |es| && es[k].Send?
    ensures ws[k].pc.Posted? && Spaced(ws[k], ws[k + 1])
  {
    hide SeenSlots, EventsTold, Wet, EventsKept, InProgress, Times, Spaced, Init, Next;
    NoEdgeLost(ws, es, k);
    assert Goes(ws[k], es[k], ws[k + 1]);
    SendSpaced(ws[k]);
  }

  // ---- What must be sent ----

  // A listed advert's event is enqueued, or meets a full queue, whenever its sensor has none yet, or its
  // data differs from the last one's, or the last one is BLE_LEAK_HEARTBEAT_MS or more ago.
  predicate Sends(w: World, v: World)
    requires w.pc.Posted?
  {
    var (m, p) := (w.pc.adv.mac, w.pc);
    (m !in w.lastEvent || w.lastEvent[m].data != p.adv.data || Elapsed(p.now, w.lastEvent[m].tick, HEARTBEAT_TICKS)) ==>
      w.queued >= QUEUE_LEN ||
      (v.lastEvent == w.lastEvent[m := Ev(p.adv.data, p.now, p.look)] && v.queued == w.queued + 1)
  }

  // At least `ticks` lie between, and not so many that 32 bits wrap.
  predicate Elapsed(now: nat, at: nat, ticks: nat) {
    ticks <= now - at < WORD
  }

  lemma SendSends(w: World)
    requires Inv(w) && Legal(w, Send)
    ensures Sends(w, Next(w, Send))
  {
    SendIs(w);
    hide Next, SlotsOk, SeenSlots, EventsKept, Times, Calm;
  }

  // In every run: no advert with new data and no telemetry heartbeat is dropped but by a full queue.
  lemma HeartbeatSent(ws: seq<World>, es: seq<Step>, k: nat)
    requires IsRun(ws, es) && k < |es| && es[k].Send?
    ensures ws[k].pc.Posted? && Sends(ws[k], ws[k + 1])
  {
    hide SeenSlots, EventsTold, Wet, EventsKept, InProgress, Times, Sends, Init, Next;
    NoEdgeLost(ws, es, k);
    assert Goes(ws[k], es[k], ws[k + 1]);
    SendSends(ws[k]);
  }

  // A listed advert posts a check-in whenever its sensor has none yet, or HEALTH_CHECKIN_MIN_MS or more
  // passed since the last one (and since a tick whose 32 bits are 0, the stamp a reset leaves).
  predicate ChecksIn(w: World, v: World)
    requires w.pc.Looked?
  {
    var (m, d) := (w.pc.adv.mac, w.pc.adv.data);
    (m !in w.lastCheckin ||
     (Elapsed(w.now, w.lastCheckin[m].tick, CHECKIN_TICKS) && w.now % WORD >= CHECKIN_TICKS)) ==>
      m in v.lastCheckin && v.lastCheckin[m].wet == d.leak && v.lastCheckin[m].tick == w.now
  }

  lemma CheckinChecksIn(w: World)
    requires Wet(w) && Legal(w, Checkin)
    ensures ChecksIn(w, Next(w, Checkin))
  {
    hide WetSlots, WetTold;
  }

  // In every run a sensor heard is checked in at least every HEALTH_CHECKIN_MIN_MS.
  lemma CheckinComes(ws: seq<World>, es: seq<Step>, k: nat)
    requires IsRun(ws, es) && k < |es| && es[k].Checkin?
    ensures ws[k].pc.Looked? && ChecksIn(ws[k], ws[k + 1])
  {
    hide SeenSlots, EventsTold, Inv, WetSlots, WetProgress, WetTold, ChecksIn, Init, Next;
    NoEdgeLost(ws, es, k);
    assert Goes(ws[k], es[k], ws[k + 1]);
    CheckinChecksIn(ws[k]);
  }
}
