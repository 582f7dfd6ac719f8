/**
 The capture checker's release-order monitor (F-08): a streaming pass over a capture, with what is wet
 kept per gateway, equals a property of the trace.
 */
module ReleaseOrder {
  type Gateway(==, !new) = nat
  type Id(==, !new) = nat

  const BOOT_SPLIT_S := 5.0
  const RECONNECT_PASS_S := 5.0

  datatype Option<T> = None | Some(value: T)

  datatype MsgType = Lifecycle | Snapshot | OtherType

  datatype Event = LeakDetected | LeakCleared | AutoCleared | CmdAck | OtherRules | OtherEvent

  /** One message as the monitor reads it. A ts or uptime that is no JSON number is None; `ident` is the
      first of valve_id and sensor_id that is set; `forgets` is an ok provision or decommission; `still`
      are the devices a snapshot lists and does not show dry. */
  datatype Msg = Msg(
    gw: Gateway, typ: MsgType, ev: Event, ident: Option<Id>, ts: Option<real>, up: Option<real>,
    forgets: bool, still: set<Id>)

  datatype State = State(wet: map<Id, Option<real>>, boot: Option<real>, reconnect: Option<real>)

  const NEW := State(map[], None, None)

  predicate Timed(m: Msg) {
    m.ts.Some? && m.up.Some?
  }

  function Base(m: Msg): real
    requires Timed(m)
  {
    m.ts.value - m.up.value
  }

  predicate Apart(a: real, b: real) {
    a - b > BOOT_SPLIT_S || b - a > BOOT_SPLIT_S
  }

  predicate IsRules(ev: Event) {
    ev == AutoCleared || ev == OtherRules
  }

  // ---- The monitor, message by message ----

  function AfterBoot(s: State, m: Msg): State {
    if !Timed(m) then s
    else State(if s.boot.Some? && Apart(Base(m), s.boot.value) then map[] else s.wet, Some(Base(m)), s.reconnect)
  }

  function Wetted(wet: map<Id, Option<real>>, m: Msg): map<Id, Option<real>> {
    match m.typ
    case Lifecycle => map[]
    case Snapshot => map k | k in wet && k in m.still :: wet[k]
    case OtherType =>
      if m.ev == CmdAck && m.forgets then map[]
      else if m.ev == LeakDetected && m.ident.Some? then wet[m.ident.value := m.ts]
      else if m.ev == LeakCleared && m.ident.Some? then wet - {m.ident.value}
      else wet
  }

  function After(s: State, m: Msg): State {
    var b := AfterBoot(s, m);
    State(Wetted(b.wet, m), b.boot,
          if m.typ == Lifecycle then m.ts
          else if m.typ == Snapshot || IsRules(m.ev) then None
          else b.reconnect)
  }

  // The devices whose leak a release comes too late for.
  function LateFor(s: State, m: Msg): set<Id> {
    LateIn(AfterBoot(s, m).wet, s.reconnect, m)
  }

  function LateIn(wet: map<Id, Option<real>>, reconnect: Option<real>, m: Msg): set<Id> {
    if m.typ == OtherType && m.ev == AutoCleared && m.ts.Some? &&
       !(reconnect.Some? && m.ts.value - reconnect.value <= RECONNECT_PASS_S)
    then set k | k in wet && wet[k].Some? && m.ts.value >= wet[k].value
    else {}
  }

  // A gateway's state after a capture.
  function StateOf(msgs: seq<Msg>, gw: Gateway): State {
    if msgs == [] then NEW
    else
      var n := |msgs| - 1;
      var s := StateOf(msgs[..n], gw);
      if msgs[n].gw == gw then After(s, msgs[n]) else s
  }

  // What is flagged at message `i`.
  function FlagAt(msgs: seq<Msg>, i: nat): set<Id>
    requires i < |msgs|
  {
    LateFor(StateOf(msgs[..i], msgs[i].gw), msgs[i])
  }

  // `check_release_order`: the messages flagged, with their devices, in order.
  function FlagsOf(msgs: seq<Msg>): seq<(nat, set<Id>)> {
    if msgs == [] then []
    else
      var n := |msgs| - 1;
      var late := LateFor(StateOf(msgs[..n], msgs[n].gw), msgs[n]);
      FlagsOf(msgs[..n]) + if late == {} then [] else [(n, late)]
  }

  // The dictionaries hold every gateway's state.
  ghost predicate Held(msgs: seq<Msg>, wet: map<Gateway, map<Id, Option<real>>>, boot: map<Gateway, real>,
                       reconnect: map<Gateway, Option<real>>) {
    forall g: Gateway ::
      StateOf(msgs, g) == State(if g in wet then wet[g] else map[],
                                if g in boot then Some(boot[g]) else None,
                                if g in reconnect then reconnect[g] else None)
  }

  // What is wet on one gateway, after one message.
  method UpdateWet(mine: map<Id, Option<real>>, m: Msg) returns (after: map<Id, Option<real>>)
    ensures after == Wetted(mine, m)
  {
    after := mine;
    if m.typ == Lifecycle {
      after := map[];
    } else if m.typ == Snapshot {
      after := map k | k in mine && k in m.still :: mine[k];
    } else if m.ev == CmdAck && m.forgets {
      after := map[];
    } else if m.ev == LeakDetected && m.ident.Some? {
      after := mine[m.ident.value := m.ts];
    } else if m.ev == LeakCleared && m.ident.Some? {
      after := mine - {m.ident.value};
    }
  }

  lemma HeldNext(msgs: seq<Msg>, m: Msg,
                 wet: map<Gateway, map<Id, Option<real>>>, boot: map<Gateway, real>,
                 reconnect: map<Gateway, Option<real>>,
                 wet2: map<Gateway, map<Id, Option<real>>>, boot2: map<Gateway, real>,
                 reconnect2: map<Gateway, Option<real>>)
    requires Held(msgs, wet, boot, reconnect)
    requires var s := After(StateOf(msgs, m.gw), m);
      && wet2 == wet[m.gw := s.wet]
      && boot2 == (if s.boot.Some? then boot[m.gw := s.boot.value] else boot)
      && (reconnect2 == reconnect[m.gw := s.reconnect] ||
          (reconnect2 == reconnect && s.reconnect == StateOf(msgs, m.gw).reconnect))
    requires After(StateOf(msgs, m.gw), m).boot.Some? || m.gw !in boot
    ensures Held(msgs + [m], wet2, boot2, reconnect2)
  {
    hide After, StateOf;
    forall g: Gateway
      ensures StateOf(msgs + [m], g) ==
              State(if g in wet2 then wet2[g] else map[], if g in boot2 then Some(boot2[g]) else None,
                    if g in reconnect2 then reconnect2[g] else None)
    {
      StateNext(msgs, m, g);
      HeldAt(msgs, wet, boot, reconnect, g);
    }
  }

  lemma StateNext(msgs: seq<Msg>, m: Msg, g: Gateway)
    ensures StateOf(msgs + [m], g) == if g == m.gw then After(StateOf(msgs, g), m) else StateOf(msgs, g)
  {
    hide After;
    assert (msgs + [m])[..|msgs|] == msgs;
  }

  lemma HeldNone()
    ensures Held([], map[], map[], map[])
  {
  }

  lemma HeldAt(msgs: seq<Msg>, wet: map<Gateway, map<Id, Option<real>>>, boot: map<Gateway, real>,
               reconnect: map<Gateway, Option<real>>, g: Gateway)
    requires Held(msgs, wet, boot, reconnect)
    ensures StateOf(msgs, g) == State(if g in wet then wet[g] else map[], if g in boot then Some(boot[g]) else None,
                                      if g in reconnect then reconnect[g] else None)
  {
  }

  method CheckReleaseOrder(msgs: seq<Msg>) returns (flags: seq<(nat, set<Id>)>)
    ensures flags == FlagsOf(msgs)
  {
    hide Wetted, LateIn, Held;
    flags := [];
    HeldNone();
    var wet: map<Gateway, map<Id, Option<real>>> := map[];
    var boot: map<Gateway, real> := map[];
    var reconnect: map<Gateway, Option<real>> := map[];
    for i := 0 to |msgs|
      invariant Held(msgs[..i], wet, boot, reconnect)
      invariant flags == FlagsOf(msgs[..i])
    {
      var m := msgs[i];
      var gw := m.gw;
      ghost var (wet0, boot0, reconnect0) := (wet, boot, reconnect);
      assert msgs[..i + 1][..i] == msgs[..i] && msgs[..i + 1] == msgs[..i] + [m];
      ghost var s := StateOf(msgs[..i], gw);
      HeldAt(msgs[..i], wet, boot, reconnect, gw);
      var mine := if gw in wet then wet[gw] else map[];
      if m.ts.Some? && m.up.Some? {
        var base := m.ts.value - m.up.value;
        if gw in boot && Apart(base, boot[gw]) {
          mine := map[];
        }
        boot := boot[gw := base];
      }
      assert mine == AfterBoot(s, m).wet;
      var late := LateIn(mine, if gw in reconnect then reconnect[gw] else None, m);
      if late != {} {
        flags := flags + [(i, late)];
      }
      mine := UpdateWet(mine, m);
      wet := wet[gw := mine];
      if m.typ == Lifecycle {
        reconnect := reconnect[gw := m.ts];
      } else if m.typ == Snapshot || IsRules(m.ev) {
        reconnect := reconnect[gw := None];
      }
      HeldNext(msgs[..i], m, wet0, boot0, reconnect0, wet, boot, reconnect);
    }
    assert msgs[..|msgs|] == msgs;
  }

  // ---- The property of the trace ----

  predicate Of(msgs: seq<Msg>, i: int, gw: Gateway) {
    0 <= i < |msgs| && msgs[i].gw == gw
  }

  // Message i shows another boot than the last timed one of its gateway.
  ghost predicate NewBoot(msgs: seq<Msg>, i: nat)
    requires i < |msgs|
  {
    Timed(msgs[i]) && exists p ::
      0 <= p < i && Of(msgs, p, msgs[i].gw) && LastTimed(msgs, p, i) && Apart(Base(msgs[i]), Base(msgs[p]))
  }

  // p is timed, and no message of its gateway between p and i is.
  ghost predicate LastTimed(msgs: seq<Msg>, p: nat, i: nat)
    requires p < |msgs|
  {
    Timed(msgs[p]) && forall q :: p < q < i && Of(msgs, q, msgs[p].gw) ==> !Timed(msgs[q])
  }

  // Message j makes device k wet.
  predicate Wets(m: Msg, k: Id) {
    m.typ == OtherType && m.ev == LeakDetected && m.ident == Some(k)
  }

  // Message j forgets device k, or replaces its leak.
  ghost predicate Forgets(msgs: seq<Msg>, j: nat, k: Id)
    requires j < |msgs|
  {
    var m := msgs[j];
    || NewBoot(msgs, j)
    || m.typ == Lifecycle
    || (m.typ == Snapshot && k !in m.still)
    || (m.typ == OtherType && m.ev == CmdAck && m.forgets)
    || (m.typ == OtherType && m.ev == LeakCleared && m.ident == Some(k))
    || Wets(m, k)
  }

  // Device k of gateway gw is wet before message n since message j.
  ghost predicate WetSince(msgs: seq<Msg>, n: nat, gw: Gateway, k: Id, j: int)
    requires n <= |msgs|
  {
    0 <= j < n && Of(msgs, j, gw) && Wets(msgs[j], k) &&
    forall q :: j < q < n && Of(msgs, q, gw) ==> !Forgets(msgs, q, k)
  }

  // Message l opened the reconnect pass still running at message n.
  ghost predicate PassFrom(msgs: seq<Msg>, n: nat, gw: Gateway, l: int)
    requires n <= |msgs|
  {
    0 <= l < n && Of(msgs, l, gw) && msgs[l].typ == Lifecycle &&
    forall q :: l < q < n && Of(msgs, q, gw) ==> msgs[q].typ == OtherType && !IsRules(msgs[q].ev)
  }

  // The release at message i came after the leak of device k: outside its gateway's reconnect pass,
  // with k wet since a leak_detected no newer than it.
  ghost predicate Late(msgs: seq<Msg>, i: nat, k: Id)
    requires i < |msgs|
  {
    var m := msgs[i];
    && m.typ == OtherType && m.ev == AutoCleared && m.ts.Some? && !NewBoot(msgs, i)
    && !(exists l ::
           PassFrom(msgs, i, m.gw, l) && msgs[l].ts.Some? && m.ts.value - msgs[l].ts.value <= RECONNECT_PASS_S)
    && (exists j :: WetSince(msgs, i, m.gw, k, j) && msgs[j].ts.Some? && m.ts.value >= msgs[j].ts.value)
  }

  // ---- The two are the same ----

  // The properties of a message depend on no later one.
  lemma NewBootPrefix(msgs: seq<Msg>, n: nat, i: nat)
    requires i < n <= |msgs|
    ensures NewBoot(msgs[..n], i) <==> NewBoot(msgs, i)
  {
    assert forall p :: 0 <= p < i ==> (Of(msgs[..n], p, msgs[i].gw) <==> Of(msgs, p, msgs[i].gw));
    forall p | 0 <= p < i ensures LastTimed(msgs[..n], p, i) <==> LastTimed(msgs, p, i) {
      assert forall q :: p < q < i ==> (Of(msgs[..n], q, msgs[p].gw) <==> Of(msgs, q, msgs[p].gw));
    }
  }

  ghost predicate BootIs(msgs: seq<Msg>, gw: Gateway, boot: Option<real>) {
    if boot.Some? then exists p :: Of(msgs, p, gw) && LastTimed(msgs, p, |msgs|) && boot.value == Base(msgs[p])
    else forall p :: Of(msgs, p, gw) ==> !Timed(msgs[p])
  }

  ghost predicate WetIs(msgs: seq<Msg>, gw: Gateway, wet: map<Id, Option<real>>) {
    && (forall k <- wet :: exists j :: WetSince(msgs, |msgs|, gw, k, j) && wet[k] == msgs[j].ts)
    && (forall k, j :: WetSince(msgs, |msgs|, gw, k, j) ==> k in wet && wet[k] == msgs[j].ts)
  }

  ghost predicate ReconnectIs(msgs: seq<Msg>, gw: Gateway, reconnect: Option<real>) {
    && (reconnect.Some? ==> exists l :: PassFrom(msgs, |msgs|, gw, l) && msgs[l].ts == reconnect)
    && (forall l :: PassFrom(msgs, |msgs|, gw, l) ==> msgs[l].ts == reconnect)
  }

  // The boot the state holds tells a new boot.
  lemma BootTells(msgs: seq<Msg>, m: Msg, boot: Option<real>)
    requires BootIs(msgs, m.gw, boot)
    ensures NewBoot(msgs + [m], |msgs|) <==> Timed(m) && boot.Some? && Apart(Base(m), boot.value)
  {
    var l := msgs + [m];
    var n := |msgs|;
    assert forall p :: 0 <= p < n ==> l[p] == msgs[p] && (Of(l, p, m.gw) <==> Of(msgs, p, m.gw));
    if boot.Some? {
      var p :| Of(msgs, p, m.gw) && LastTimed(msgs, p, n) && boot.value == Base(msgs[p]);
      assert Of(l, p, m.gw) && LastTimed(l, p, n);
      if NewBoot(l, n) {
        var p2 :| 0 <= p2 < n && Of(l, p2, m.gw) && LastTimed(l, p2, n) && Apart(Base(m), Base(l[p2]));
        assert p2 == p;
      }
    }
  }

  lemma BootAfter(msgs: seq<Msg>, m: Msg, gw: Gateway, boot: Option<real>)
    requires BootIs(msgs, gw, boot)
    ensures BootIs(msgs + [m], gw, if m.gw == gw && Timed(m) then Some(Base(m)) else boot)
  {
    var l := msgs + [m];
    var n := |msgs|;
    assert forall p :: 0 <= p < n ==> l[p] == msgs[p] && (Of(l, p, gw) <==> Of(msgs, p, gw));
    if m.gw == gw && Timed(m) {
      assert Of(l, n, gw) && LastTimed(l, n, n + 1);
    } else if boot.Some? {
      var p :| Of(msgs, p, gw) && LastTimed(msgs, p, n) && boot.value == Base(msgs[p]);
      assert Of(l, p, gw) && LastTimed(l, p, n + 1);
    }
  }

  // What one more message does to being wet since j.
  lemma WetSinceAfter(msgs: seq<Msg>, m: Msg, gw: Gateway, k: Id, j: int)
    ensures var l := msgs + [m];
      WetSince(l, |l|, gw, k, j) <==>
        if j == |msgs| then m.gw == gw && Wets(m, k)
        else WetSince(msgs, |msgs|, gw, k, j) && (m.gw == gw ==> !Forgets(l, |msgs|, k))
  {
    var l := msgs + [m];
    var n := |msgs|;
    assert l[..n] == msgs && l[n] == m;
    if 0 <= j < n {
      assert l[j] == msgs[j];
      forall q | 0 <= q < n
        ensures (Of(l, q, gw) <==> Of(msgs, q, gw)) && (Forgets(l, q, k) <==> Forgets(msgs, q, k))
      {
        assert l[q] == msgs[q];
        NewBootPrefix(l, n, q);
      }
      if WetSince(l, n + 1, gw, k, j) && m.gw == gw {
        assert Of(l, n, gw);
      }
    }
  }

  lemma WetAfter(msgs: seq<Msg>, m: Msg, s: State)
    requires BootIs(msgs, m.gw, s.boot) && WetIs(msgs, m.gw, s.wet)
    ensures WetIs(msgs + [m], m.gw, After(s, m).wet)
  {
    var l := msgs + [m];
    var n := |msgs|;
    var wet := After(s, m).wet;
    BootTells(msgs, m, s.boot);
    forall k, j | WetSince(l, n + 1, m.gw, k, j) ensures k in wet && wet[k] == l[j].ts {
      WetSinceAfter(msgs, m, m.gw, k, j);
    }
    forall k | k in wet ensures exists j :: WetSince(l, n + 1, m.gw, k, j) && wet[k] == l[j].ts {
      if Wets(m, k) {
        WetSinceAfter(msgs, m, m.gw, k, n);
        assert WetSince(l, n + 1, m.gw, k, n);
      } else {
        var j :| WetSince(msgs, n, m.gw, k, j) && s.wet[k] == msgs[j].ts;
        WetSinceAfter(msgs, m, m.gw, k, j);
        assert WetSince(l, n + 1, m.gw, k, j) && wet[k] == l[j].ts;
      }
    }
  }

  lemma WetOther(msgs: seq<Msg>, m: Msg, gw: Gateway, wet: map<Id, Option<real>>)
    requires WetIs(msgs, gw, wet) && m.gw != gw
    ensures WetIs(msgs + [m], gw, wet)
  {
    var l := msgs + [m];
    forall k, j | WetSince(l, |l|, gw, k, j) ensures k in wet && wet[k] == l[j].ts {
      WetSinceAfter(msgs, m, gw, k, j);
    }
    forall k | k in wet ensures exists j :: WetSince(l, |l|, gw, k, j) && wet[k] == l[j].ts {
      var j :| WetSince(msgs, |msgs|, gw, k, j) && wet[k] == msgs[j].ts;
      WetSinceAfter(msgs, m, gw, k, j);
      assert WetSince(l, |l|, gw, k, j) && wet[k] == l[j].ts;
    }
  }

  lemma PassAfter(msgs: seq<Msg>, m: Msg, gw: Gateway, l: int)
    ensures var t := msgs + [m];
      PassFrom(t, |t|, gw, l) <==>
        if l == |msgs| then m.gw == gw && m.typ == Lifecycle
        else PassFrom(msgs, |msgs|, gw, l) && (m.gw == gw ==> m.typ == OtherType && !IsRules(m.ev))
  {
    var t := msgs + [m];
    var n := |msgs|;
    assert forall q :: 0 <= q < n ==> t[q] == msgs[q] && (Of(t, q, gw) <==> Of(msgs, q, gw));
    assert t[n] == m && (Of(t, n, gw) <==> m.gw == gw);
  }

  lemma ReconnectAfter(msgs: seq<Msg>, m: Msg, gw: Gateway, s: State)
    requires ReconnectIs(msgs, gw, s.reconnect)
    ensures ReconnectIs(msgs + [m], gw, if m.gw == gw then After(s, m).reconnect else s.reconnect)
  {
    var t := msgs + [m];
    var r := if m.gw == gw then After(s, m).reconnect else s.reconnect;
    forall l | PassFrom(t, |t|, gw, l) ensures t[l].ts == r {
      PassAfter(msgs, m, gw, l);
    }
    if r.Some? {
      if m.gw == gw && m.typ == Lifecycle {
        PassAfter(msgs, m, gw, |msgs|);
        assert PassFrom(t, |t|, gw, |msgs|) && t[|msgs|].ts == r;
      } else {
        var l :| PassFrom(msgs, |msgs|, gw, l) && msgs[l].ts == s.reconnect;
        PassAfter(msgs, m, gw, l);
        assert PassFrom(t, |t|, gw, l) && t[l].ts == r;
      }
    }
  }

  // A gateway's state says what the trace says.
  lemma {:induction false} StateTells(msgs: seq<Msg>, gw: Gateway)
    ensures var s := StateOf(msgs, gw);
      BootIs(msgs, gw, s.boot) && WetIs(msgs, gw, s.wet) && ReconnectIs(msgs, gw, s.reconnect)
  {
    hide BootIs, WetIs, ReconnectIs, After;
    if msgs == [] {
      NothingYet(gw);
    } else {
      var n := |msgs| - 1;
      var m := msgs[n];
      var s := StateOf(msgs[..n], gw);
      StateTells(msgs[..n], gw);
      assert msgs[..n] + [m] == msgs;
      BootAfter(msgs[..n], m, gw, s.boot);
      ReconnectAfter(msgs[..n], m, gw, s);
      if m.gw == gw {
        WetAfter(msgs[..n], m, s);
        AfterBootIs(s, m);
      } else {
        WetOther(msgs[..n], m, gw, s.wet);
      }
    }
  }

  lemma NothingYet(gw: Gateway)
    ensures BootIs([], gw, None) && WetIs([], gw, map[]) && ReconnectIs([], gw, None)
  {
  }

  lemma AfterBootIs(s: State, m: Msg)
    ensures After(s, m).boot == if Timed(m) then Some(Base(m)) else s.boot
  {
  }

  // The monitor flags device k at message i exactly when the trace says so.
  lemma FlagsAreLate(msgs: seq<Msg>, i: nat, k: Id)
    requires i < |msgs|
    ensures k in FlagAt(msgs, i) <==> Late(msgs, i, k)
  {
    hide BootIs, Forgets;
    var m := msgs[i];
    var p := msgs[..i];
    var s := StateOf(p, m.gw);
    StateTells(p, m.gw);
    BootTells(p, m, s.boot);
    assert p + [m] == msgs[..i + 1];
    NewBootPrefix(msgs, i + 1, i);
    forall j ensures WetSince(p, i, m.gw, k, j) <==> WetSince(msgs, i, m.gw, k, j) {
      WetSincePrefix(msgs, i, m.gw, k, j);
    }
    forall l ensures PassFrom(p, i, m.gw, l) <==> PassFrom(msgs, i, m.gw, l) {
      PassPrefix(msgs, i, m.gw, l);
    }
  }

  lemma WetSincePrefix(msgs: seq<Msg>, n: nat, gw: Gateway, k: Id, j: int)
    requires n <= |msgs|
    ensures WetSince(msgs[..n], n, gw, k, j) <==> WetSince(msgs, n, gw, k, j)
  {
    forall q | 0 <= q < n
      ensures (Of(msgs[..n], q, gw) <==> Of(msgs, q, gw)) && (Forgets(msgs[..n], q, k) <==> Forgets(msgs, q, k))
    {
      NewBootPrefix(msgs, n, q);
    }
  }

  lemma PassPrefix(msgs: seq<Msg>, n: nat, gw: Gateway, l: int)
    requires n <= |msgs|
    ensures PassFrom(msgs[..n], n, gw, l) <==> PassFrom(msgs, n, gw, l)
  {
    assert forall q :: 0 <= q < n ==> (Of(msgs[..n], q, gw) <==> Of(msgs, q, gw));
  }

  // The list the monitor returns holds exactly the messages with a late release.
  lemma {:induction false} FlagsListed(msgs: seq<Msg>, i: nat, late: set<Id>)
    ensures (i, late) in FlagsOf(msgs) <==> i < |msgs| && late == FlagAt(msgs, i) && late != {}
  {
    if msgs != [] {
      var n := |msgs| - 1;
      FlagsListed(msgs[..n], i, late);
      if i < n {
        assert msgs[..n][..i] == msgs[..i];
      }
    }
  }

  // ---- Gateways do not disturb one another ----

  function Project(msgs: seq<Msg>, gw: Gateway): seq<Msg> {
    if msgs == [] then []
    else
      var n := |msgs| - 1;
      Project(msgs[..n], gw) + if msgs[n].gw == gw then [msgs[n]] else []
  }

  lemma {:induction false} StateOfProjection(msgs: seq<Msg>, gw: Gateway)
    ensures StateOf(msgs, gw) == StateOf(Project(msgs, gw), gw)
    ensures forall k :: 0 <= k < |Project(msgs, gw)| ==> Project(msgs, gw)[k].gw == gw
  {
    if msgs != [] {
      var n := |msgs| - 1;
      StateOfProjection(msgs[..n], gw);
      var p := Project(msgs[..n], gw);
      if msgs[n].gw == gw {
        assert (p + [msgs[n]])[..|p|] == p;
      } else {
        assert p + [] == p;
      }
    }
  }

  lemma {:induction false} ProjectPrefix(msgs: seq<Msg>, gw: Gateway, i: nat)
    requires i <= |msgs|
    ensures |Project(msgs[..i], gw)| <= |Project(msgs, gw)|
    ensures Project(msgs, gw)[..|Project(msgs[..i], gw)|] == Project(msgs[..i], gw)
    ensures i < |msgs| && msgs[i].gw == gw ==>
      |Project(msgs[..i], gw)| < |Project(msgs, gw)| && Project(msgs, gw)[|Project(msgs[..i], gw)|] == msgs[i]
  {
    if i == |msgs| {
      assert msgs[..i] == msgs;
    } else {
      var n := |msgs| - 1;
      ProjectPrefix(msgs[..n], gw, i);
      assert msgs[..n][..i] == msgs[..i];
    }
  }

  // Message i is flagged in the whole capture as it is in its own gateway's messages alone.
  lemma FlagsProject(msgs: seq<Msg>, i: nat)
    requires i < |msgs|
    ensures var gw := msgs[i].gw; var at := |Project(msgs[..i], gw)|;
      at < |Project(msgs, gw)| && FlagAt(msgs, i) == FlagAt(Project(msgs, gw), at)
  {
    var gw := msgs[i].gw;
    ProjectPrefix(msgs, gw, i);
    StateOfProjection(msgs[..i], gw);
  }
}
