/**
 The capture checker's message extraction: a depth and string scan over log text that finds where a
 printed JSON object ends, whatever its strings hold (strings as in section 7 of RFC 8259).
 */
module JsonScan {
  datatype Option<T> = None | Some(value: T)

  // ---- The scan ----

  datatype Scan = Scan(depth: int, instr: bool, esc: bool)

  const START := Scan(0, false, false)

  // The character that ends the object.
  predicate Closes(s: Scan, c: char) {
    !s.instr && c == '}' && s.depth == 1
  }

  function Step(s: Scan, c: char): Scan {
    if s.instr then
      if s.esc then s.(esc := false)
      else if c == '\\' then s.(esc := true)
      else if c == '"' then s.(instr := false)
      else s
    else if c == '"' then s.(instr := true)
    else if c == '{' then s.(depth := s.depth + 1)
    else if c == '}' then s.(depth := s.depth - 1)
    else s
  }

  // Where the scan of `t` stops: at the closing brace, or at the end of the text.
  function StopAt(s: Scan, t: string): (r: nat)
    ensures r <= |t| && (t != [] && !Closes(s, t[0]) ==> r >= 1)
    decreases |t|
  {
    if t == [] || Closes(s, t[0]) then 0 else 1 + StopAt(Step(s, t[0]), t[1..])
  }

  // `text.find('{', i)` on the rest of the text: the length for none.
  function FindBrace(t: string): (r: nat)
    ensures r <= |t| && '{' !in t[..r] && (r < |t| ==> t[r] == '{')
  {
    if t == [] || t[0] == '{' then 0
    else
      var r := 1 + FindBrace(t[1..]);
      assert t[..r] == [t[0]] + t[1..][..r - 1];
      r
  }

  // A parsed message: its keys' values.
  type Msg = map<string, string>

  // `extract`: `loads` stands for json.loads and the schema test.
  function Extract(t: string, loads: string -> Option<Msg>): seq<Msg>
    decreases |t|, 1
  {
    var k := FindBrace(t);
    if k == |t| then [] else FromBrace(t[k..], loads)
  }

  // ... from an opening brace: on a message past its end, else past the brace.
  function FromBrace(u: string, loads: string -> Option<Msg>): seq<Msg>
    requires u != [] && u[0] == '{'
    decreases |u|, 0
  {
    var e := StopAt(START, u);
    var end := if e < |u| then e + 1 else e;
    var o := loads(u[..end]);
    if o.Some? then [o.value] + Extract(u[end..], loads) else Extract(u[1..], loads)
  }

  // `text.find('{', i)`, the length for none.
  method FindFrom(text: string, i: nat) returns (k: nat)
    requires i <= |text|
    ensures i <= k <= |text| && k - i == FindBrace(text[i..])
  {
    k := i;
    while k < |text| && text[k] != '{'
      invariant i <= k <= |text|
      invariant FindBrace(text[i..]) == k - i + FindBrace(text[k..])
    {
      assert text[k..][1..] == text[k + 1..];
      k := k + 1;
    }
  }

  // The scan's loop, from the brace at i.
  method ScanFrom(text: string, i: nat) returns (j: nat)
    requires i < |text| && text[i] == '{'
    ensures i < j <= |text| && j - i == StopAt(START, text[i..])
  {
    var s := START;
    j := i;
    while j < |text| && !Closes(s, text[j])
      invariant i <= j <= |text|
      invariant StopAt(START, text[i..]) == j - i + StopAt(s, text[j..])
    {
      assert text[j..][1..] == text[j + 1..];
      s := Step(s, text[j]);
      j := j + 1;
    }
  }

  method ExtractAll(text: string, loads: string -> Option<Msg>) returns (out: seq<Msg>)
    ensures out == Extract(text, loads)
  {
    hide FindBrace, StopAt, Extract, FromBrace;
    out := [];
    var i := 0;
    assert text[0..] == text && out + Extract(text, loads) == Extract(text, loads);
    while true
      invariant 0 <= i <= |text|
      invariant out + Extract(text[i..], loads) == Extract(text, loads)
      decreases |text| - i
    {
      var k := FindFrom(text, i);
      ExtractFrom(text, i, k, loads);
      if k == |text| {
        return;
      }
      FirstBrace(text, i, k);
      var j := ScanFrom(text, k);
      var end := if j < |text| then j + 1 else j;
      FromBraceIs(text, k, j, loads);
      var o := loads(text[k..end]);
      if o.Some? {
        assert out + ([o.value] + Extract(text[end..], loads)) == (out + [o.value]) + Extract(text[end..], loads);
        out := out + [o.value];
        i := end;
      } else {
        i := k + 1;
      }
    }
  }

  lemma FirstBrace(text: string, i: nat, k: nat)
    requires i <= k < |text| && k - i == FindBrace(text[i..])
    ensures text[k] == '{'
  {
    assert text[i..][k - i] == text[k];
  }

  // One turn of the loop, from the brace at k whose scan stops at j.
  lemma FromBraceIs(text: string, k: nat, j: nat, loads: string -> Option<Msg>)
    requires k < j <= |text| && text[k] == '{' && j - k == StopAt(START, text[k..])
    ensures var end := if j < |text| then j + 1 else j;
      FromBrace(text[k..], loads) ==
      if loads(text[k..end]).Some?
          then [loads(text[k..end]).value] + Extract(text[end..], loads) else Extract(text[k + 1..], loads)
  {
    hide StopAt, Extract;
    var end := if j < |text| then j + 1 else j;
    var u := text[k..];
    assert u[..end - k] == text[k..end] && u[end - k..] == text[end..] && u[1..] == text[k + 1..];
  }

  lemma ExtractFrom(text: string, i: nat, k: nat, loads: string -> Option<Msg>)
    requires i <= k <= |text| && k - i == FindBrace(text[i..])
    ensures Extract(text[i..], loads) == if k == |text| then [] else FromBrace(text[k..], loads)
  {
    hide FindBrace, FromBrace;
    assert text[i..][k - i..] == text[k..];
  }

  lemma FoundBrace(t: string, k: nat)
    requires k <= |t| && '{' !in t[..k] && (k < |t| ==> t[k] == '{')
    ensures FindBrace(t) == k
  {
    hide FindBrace;
    var r := FindBrace(t);
    assert forall n :: 0 <= n < k ==> t[..k][n] == t[n];
    assert forall n :: 0 <= n < r ==> t[..r][n] == t[n];
  }

  // ---- Printed JSON ----

  /** One unit of a string: a character that is neither quote nor backslash, or an escape. */
  datatype Unit = Plain(c: char) | Escape(c: char)

  /** A JSON value as it is written: scalars by their text, and white space wherever the grammar of RFC
      8259 allows it. Around a value it is Spaced's, before a key the member's, on both sides of the colon
      part of `colon`, and before a closing bracket or brace, an empty one's included, the `pad`. */
  datatype Json =
    | Atom(text: string)
    | Str(units: seq<Unit>)
    | Arr(items: seq<Json>, pad: string)
    | Obj(members: seq<Member>, pad: string)
    | Spaced(before: string, value: Json, after: string)

  datatype Member = Member(before: string, key: seq<Unit>, colon: string, value: Json)

  // Text with no braces and no quotes: numbers, literals, commas, colons, white space.
  ghost predicate Calm(t: string) {
    forall k :: 0 <= k < |t| ==> t[k] != '"' && t[k] != '{' && t[k] != '}'
  }

  ghost predicate UnitsOk(us: seq<Unit>) {
    forall u <- us :: u.Plain? ==> u.c != '"' && u.c != '\\'
  }

  ghost predicate Wf(j: Json) {
    match j
    case Atom(t) => Calm(t)
    case Str(us) => UnitsOk(us)
    case Arr(items, pad) => Calm(pad) && forall i <- items :: Wf(i)
    case Obj(ms, pad) => Calm(pad) && forall m <- ms :: Calm(m.before) && UnitsOk(m.key) && Calm(m.colon) && Wf(m.value)
    case Spaced(a, v, b) => Calm(a) && Wf(v) && Calm(b)
  }

  function PrintUnits(us: seq<Unit>): string {
    if us == [] then ""
    else (if us[0].Plain? then [us[0].c] else ['\\', us[0].c]) + PrintUnits(us[1..])
  }

  function PrintStr(us: seq<Unit>): string {
    "\"" + (PrintUnits(us) + "\"")
  }

  function Print(j: Json): string
    decreases j, 1
  {
    match j
    case Atom(t) => t
    case Str(us) => PrintStr(us)
    case Arr(items, pad) => "[" + (PrintItems(items) + (pad + "]"))
    case Obj(ms, pad) => "{" + (PrintMembers(ms) + (pad + "}"))
    case Spaced(a, v, b) => a + (Print(v) + b)
  }

  function PrintItems(items: seq<Json>): string
    decreases items, 0
  {
    if items == [] then ""
    else Print(items[0]) + ((if |items| == 1 then "" else ",") + PrintItems(items[1..]))
  }

  function PrintMembers(ms: seq<Member>): string
    decreases ms, 0
  {
    if ms == [] then ""
    else
      var m := ms[0];
      var rest := (if |ms| == 1 then "" else ",") + PrintMembers(ms[1..]);
      m.before + (PrintStr(m.key) + (m.colon + (Print(m.value) + rest)))
  }

  // White space stands before a key, before a closing brace and inside an empty object.
  lemma PrintsSpaces(m: Member, pad: string)
    ensures Print(Obj([], pad)) == "{" + (pad + "}")
    ensures Print(Obj([m], pad)) == "{" + ((m.before + (PrintStr(m.key) + (m.colon + Print(m.value)))) + (pad + "}"))
  {
    hide PrintStr;
    assert [m][1..] == [];
    assert "" + (pad + "}") == pad + "}";
    assert Print(m.value) + ("" + PrintMembers([m][1..])) == Print(m.value);
  }

  // ---- The scan over printed text ----

  // The scan goes through all of `t` from s, ending in e, without a close.
  predicate Passes(s: Scan, t: string, e: Scan)
    decreases |t|
  {
    if t == [] then s == e else !Closes(s, t[0]) && Passes(Step(s, t[0]), t[1..], e)
  }

  lemma {:induction false} PassOn(s: Scan, a: string, m: Scan, b: string, e: Scan)
    requires Passes(s, a, m) && Passes(m, b, e)
    ensures Passes(s, a + b, e)
    decreases |a|
  {
    if a == [] {
      assert a + b == b;
    } else {
      PassOn(Step(s, a[0]), a[1..], m, b, e);
      assert (a + b)[1..] == a[1..] + b;
    }
  }

  lemma {:induction false} PassThenStop(s: Scan, a: string, m: Scan, b: string)
    requires Passes(s, a, m)
    ensures StopAt(s, a + b) == |a| + StopAt(m, b)
    decreases |a|
  {
    if a == [] {
      assert a + b == b;
    } else {
      PassThenStop(Step(s, a[0]), a[1..], m, b);
      assert (a + b)[1..] == a[1..] + b;
    }
  }

  lemma {:induction false} CalmPasses(s: Scan, t: string)
    requires Calm(t) && !s.instr
    ensures Passes(s, t, s)
    decreases |t|
  {
    if t != [] {
      CalmPasses(s, t[1..]);
    }
  }

  lemma {:induction false} UnitsPass(s: Scan, us: seq<Unit>)
    requires UnitsOk(us) && s.instr && !s.esc
    ensures Passes(s, PrintUnits(us), s)
  {
    if us != [] {
      var u := us[0];
      assert u in us;
      UnitsPass(s, us[1..]);
      if u.Plain? {
        assert Passes(s, [u.c], s) by { assert Step(s, u.c) == s; }
        PassOn(s, [u.c], s, PrintUnits(us[1..]), s);
      } else {
        var t := ['\\', u.c];
        assert t[1..] == [u.c] && t[1..][1..] == [];
        assert Passes(s, t, s);
        PassOn(s, t, s, PrintUnits(us[1..]), s);
      }
    }
  }

  lemma StrPasses(s: Scan, us: seq<Unit>)
    requires UnitsOk(us) && !s.instr && !s.esc
    ensures Passes(s, PrintStr(us), s)
  {
    var q := s.(instr := true);
    UnitsPass(q, us);
    OneChar(s, '"');
    OneChar(q, '"');
    PassOn(q, PrintUnits(us), q, "\"", s);
    PassOn(s, "\"", q, PrintUnits(us) + "\"", s);
  }

  lemma OneChar(s: Scan, c: char)
    requires !Closes(s, c)
    ensures Passes(s, [c], Step(s, c))
  {
  }

  // Inside an object, the scan passes over any printed value and comes back to where it was.
  lemma {:induction false} ValuePasses(j: Json, s: Scan)
    requires Wf(j) && s.depth >= 1 && !s.instr && !s.esc
    ensures Passes(s, Print(j), s)
    decreases j, 1
  {
    match j {
      case Atom(t) => CalmPasses(s, t);
      case Str(us) => StrPasses(s, us);
      case Arr(items, pad) =>
        ItemsPass(items, s);
        CalmPasses(s, pad);
        OneChar(s, '[');
        OneChar(s, ']');
        PassOn(s, pad, s, "]", s);
        PassOn(s, PrintItems(items), s, pad + "]", s);
        PassOn(s, "[", s, PrintItems(items) + (pad + "]"), s);
      case Obj(ms, pad) =>
        var d := s.(depth := s.depth + 1);
        MembersPass(ms, d);
        CalmPasses(d, pad);
        OneChar(s, '{');
        OneChar(d, '}');
        PassOn(d, pad, d, "}", s);
        PassOn(d, PrintMembers(ms), d, pad + "}", s);
        PassOn(s, "{", d, PrintMembers(ms) + (pad + "}"), s);
      case Spaced(a, v, b) =>
        ValuePasses(v, s);
        CalmPasses(s, a);
        CalmPasses(s, b);
        PassOn(s, Print(v), s, b, s);
        PassOn(s, a, s, Print(v) + b, s);
    }
  }

  lemma {:induction false} ItemsPass(items: seq<Json>, s: Scan)
    requires (forall i <- items :: Wf(i)) && s.depth >= 1 && !s.instr && !s.esc
    ensures Passes(s, PrintItems(items), s)
    decreases items, 0
  {
    if items != [] {
      assert items[0] in items;
      ValuePasses(items[0], s);
      ItemsPass(items[1..], s);
      var comma := if |items| == 1 then "" else ",";
      CalmPasses(s, comma);
      PassOn(s, comma, s, PrintItems(items[1..]), s);
      PassOn(s, Print(items[0]), s, comma + PrintItems(items[1..]), s);
    }
  }

  lemma {:induction false} MembersPass(ms: seq<Member>, s: Scan)
    requires forall m <- ms :: Calm(m.before) && UnitsOk(m.key) && Calm(m.colon) && Wf(m.value)
    requires s.depth >= 1 && !s.instr && !s.esc
    ensures Passes(s, PrintMembers(ms), s)
    decreases ms, 0
  {
    if ms != [] {
      var m := ms[0];
      assert m in ms;
      ValuePasses(m.value, s);
      MembersPass(ms[1..], s);
      StrPasses(s, m.key);
      CalmPasses(s, m.colon);
      var comma := if |ms| == 1 then "" else ",";
      CalmPasses(s, comma);
      var rest := comma + PrintMembers(ms[1..]);
      PassOn(s, comma, s, PrintMembers(ms[1..]), s);
      PassOn(s, Print(m.value), s, rest, s);
      PassOn(s, m.colon, s, Print(m.value) + rest, s);
      PassOn(s, PrintStr(m.key), s, m.colon + (Print(m.value) + rest), s);
      CalmPasses(s, m.before);
      PassOn(s, m.before, s, PrintStr(m.key) + (m.colon + (Print(m.value) + rest)), s);
    }
  }

  // The scan from a printed object's first brace stops exactly at its last one, whatever follows.
  lemma ObjectEnds(ms: seq<Member>, pad: string, after: string)
    requires Wf(Obj(ms, pad))
    ensures StopAt(START, Print(Obj(ms, pad)) + after) == |Print(Obj(ms, pad))| - 1
  {
    hide Passes, StopAt, PrintMembers;
    var d := Scan(1, false, false);
    var body := PrintMembers(ms) + pad;
    MembersPass(ms, d);
    CalmPasses(d, pad);
    PassOn(d, PrintMembers(ms), d, pad, d);
    OneChar(START, '{');
    PassOn(START, "{", d, body, d);
    PassThenStop(START, "{" + body, d, "}" + after);
    CloseStops(d, "}" + after);
    assert Print(Obj(ms, pad)) == "{" + body + "}";
    assert Print(Obj(ms, pad)) + after == "{" + body + ("}" + after);
  }

  lemma CloseStops(s: Scan, t: string)
    requires t != [] && Closes(s, t[0])
    ensures StopAt(s, t) == 0
  {
  }

  // ---- Logs ----

  /** A stretch of a log: other text, then a printed message. */
  datatype Part = Part(noise: string, members: seq<Member>, pad: string, value: Msg) {
    function Text(): string {
      Print(Obj(members, pad))
    }
  }

  function LogText(parts: seq<Part>, tail: string): string {
    if parts == [] then tail
    else parts[0].noise + (parts[0].Text() + LogText(parts[1..], tail))
  }

  function Values(parts: seq<Part>): seq<Msg> {
    if parts == [] then [] else [parts[0].value] + Values(parts[1..])
  }

  // What the scan takes for an object at the text's first brace: up to where it stops, the brace there
  // included.
  function Blob(u: string): string {
    var e := StopAt(START, u);
    if e < |u| then u[..e + 1] else u
  }

  // Whatever opening braces stand in the noise, none begins something that loads as a message; `rest` is
  // the log after it.
  ghost predicate Stray(noise: string, rest: string, loads: string -> Option<Msg>) {
    forall b :: 0 <= b < |noise| && noise[b] == '{' ==> loads(Blob(noise[b..] + rest)) == None
  }

  ghost predicate PartOk(p: Part, rest: string, loads: string -> Option<Msg>) {
    && Stray(p.noise, p.Text() + rest, loads)
    && Wf(Obj(p.members, p.pad)) && loads(p.Text()) == Some(p.value)
  }

  ghost predicate LogOk(parts: seq<Part>, tail: string, loads: string -> Option<Msg>) {
    if parts == [] then Stray(tail, "", loads)
    else PartOk(parts[0], LogText(parts[1..], tail), loads) && LogOk(parts[1..], tail, loads)
  }

  // The extraction goes through noise, stray braces and all, to what follows it.
  lemma {:induction false} NoisePasses(noise: string, rest: string, loads: string -> Option<Msg>)
    requires Stray(noise, rest, loads)
    ensures Extract(noise + rest, loads) == Extract(rest, loads)
    decreases |noise|
  {
    hide Blob, StopAt;
    if noise == "" {
      assert noise + rest == rest;
    } else {
      var u, t := noise[1..], noise + rest;
      assert t[1..] == u + rest;
      forall b | 0 <= b < |u| && u[b] == '{' ensures loads(Blob(u[b..] + rest)) == None {
        assert noise[b + 1] == '{' && noise[b + 1..] == u[b..];
      }
      NoisePasses(u, rest, loads);
      if noise[0] == '{' {
        assert noise[0..] == noise;
        Reread(t, loads);
      } else {
        SkipOne(t, loads);
      }
    }
  }

  // A brace whose blob does not load is left behind alone ...
  lemma Reread(t: string, loads: string -> Option<Msg>)
    requires t != "" && t[0] == '{' && loads(Blob(t)) == None
    ensures Extract(t, loads) == Extract(t[1..], loads)
  {
    hide StopAt;
    FoundBrace(t, 0);
    assert t[0..] == t;
    var e := StopAt(START, t);
    assert e >= |t| ==> t[..e] == t;
  }

  // ... and so is any other character.
  lemma SkipOne(t: string, loads: string -> Option<Msg>)
    requires t != "" && t[0] != '{'
    ensures Extract(t, loads) == Extract(t[1..], loads)
  {
    hide FromBrace;
    var k := FindBrace(t[1..]);
    assert FindBrace(t) == k + 1 && t[k + 1..] == t[1..][k..];
  }

  // Main result: on a log of printed messages and any other text whose stray braces begin nothing that
  // loads, the extraction returns exactly the messages, in order.
  lemma {:induction false} ExtractsMessages(parts: seq<Part>, tail: string, loads: string -> Option<Msg>)
    requires LogOk(parts, tail, loads)
    ensures Extract(LogText(parts, tail), loads) == Values(parts)
  {
    if parts == [] {
      NoisePasses(tail, "", loads);
      assert tail + "" == tail;
      FoundBrace("", 0);
    } else {
      var p := parts[0];
      var rest := LogText(parts[1..], tail);
      NoisePasses(p.noise, p.Text() + rest, loads);
      MessageTaken(p, rest, loads);
      ExtractsMessages(parts[1..], tail, loads);
    }
  }

  lemma MessageTaken(p: Part, rest: string, loads: string -> Option<Msg>)
    requires Wf(Obj(p.members, p.pad)) && loads(p.Text()) == Some(p.value)
    ensures Extract(p.Text() + rest, loads) == [p.value] + Extract(rest, loads)
  {
    var obj := p.Text();
    var t := obj + rest;
    ObjectEnds(p.members, p.pad, rest);
    hide StopAt, Print;
    assert |obj| > 0 && obj[0] == '{' by { FirstIsBrace(p); }
    FoundBrace(t, 0);
    assert t[0..] == t && t[..|obj|] == obj && t[|obj|..] == rest;
  }

  lemma FirstIsBrace(p: Part)
    ensures |p.Text()| > 0 && p.Text()[0] == '{'
  {
  }

  // Text with no opening brace hides nothing.
  lemma CalmIsStray(noise: string, rest: string, loads: string -> Option<Msg>)
    requires '{' !in noise
    ensures Stray(noise, rest, loads)
  {
    forall b | 0 <= b < |noise| ensures noise[b] != '{' { assert noise[b] in noise; }
  }
}
