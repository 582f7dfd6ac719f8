/**
 The cloud-to-device command parser: the JSON envelope, and the legacy text commands it falls back to.
 cJSON is an oracle that gives the fields of a parsed object; characters are bytes in the C locale.
 */
module LegacyCmd {
  datatype Option<T> = None | Some(value: T)

  datatype Command = Command(id: string, cmd: string, payload: Option<string>, isEnvelope: bool, ver: int)

  const BLANK := Command("", "", None, false, 0)

  // ---- The C library ----

  function ToUpper(c: char): char {
    if 'a' <= c <= 'z' then 'A' + (c - 'a') else c
  }

  function ToLower(c: char): char {
    if 'A' <= c <= 'Z' then 'a' + (c - 'A') else c
  }

  function Upper(s: string): (r: string)
    ensures |r| == |s| && forall i :: 0 <= i < |s| ==> r[i] == ToUpper(s[i])
  {
    seq(|s|, i requires 0 <= i < |s| => ToUpper(s[i]))
  }

  predicate At(s: string, i: int, key: string) {
    0 <= i <= i + |key| <= |s| && s[i..i + |key|] == key
  }

  // `strstr`, as an offset.
  function Find(s: string, key: string): (r: Option<nat>)
    ensures r.Some? ==> At(s, r.value, key) && forall j :: 0 <= j < r.value ==> !At(s, j, key)
    ensures r == None ==> forall j :: 0 <= j <= |s| ==> !At(s, j, key)
  {
    FindFrom(s, 0, key)
  }

  function FindFrom(s: string, i: nat, key: string): (r: Option<nat>)
    requires i <= |s| + 1
    ensures r.Some? ==> i <= r.value && At(s, r.value, key) && forall j :: i <= j < r.value ==> !At(s, j, key)
    ensures r == None ==> forall j :: i <= j <= |s| ==> !At(s, j, key)
    decreases |s| + 1 - i
  {
    if i > |s| then None
    else if At(s, i, key) then Some(i)
    else FindFrom(s, i + 1, key)
  }

  // `strcasecmp(s, t) == 0`.
  predicate SameIgnoringCase(s: string, t: string) {
    |s| == |t| && forall i :: 0 <= i < |s| ==> ToLower(s[i]) == ToLower(t[i])
  }

  predicate Blank(c: char) {
    c == ' ' || c == '\t' || c == '\n' || c == '\r'
  }

  predicate Space(c: char) {
    Blank(c) || c == 11 as char || c == 12 as char
  }

  predicate IsHex(c: char) {
    '0' <= c <= '9' || 'a' <= c <= 'f' || 'A' <= c <= 'F'
  }

  function Digit(c: char): (d: nat)
    requires IsHex(c)
    ensures d < 16
  {
    if c <= '9' then (c - '0') as nat else if c <= 'F' then (c - 'A') as nat + 10 else (c - 'a') as nat + 10
  }

  ghost predicate AllHex(s: string) {
    forall i :: 0 <= i < |s| ==> IsHex(s[i])
  }

  function HexValue(s: string): nat
    requires AllHex(s)
  {
    if s == "" then 0 else HexValue(s[..|s| - 1]) * 16 + Digit(s[|s| - 1])
  }

  // The longest run of hex digits a text begins with.
  function HexRun(s: string): (r: string)
    ensures r <= s && AllHex(r)
  {
    if s != "" && IsHex(s[0]) then [s[0]] + HexRun(s[1..]) else ""
  }

  function SkipSpace(s: string): string {
    if s != "" && Space(s[0]) then SkipSpace(s[1..]) else s
  }

  const WORD: nat := 0x1_0000_0000

  function Signed(s: string): (r: (bool, string)) {
    if s != "" && (s[0] == '-' || s[0] == '+') then (s[0] == '-', s[1..]) else (false, s)
  }

  function SkipMark(s: string): string {
    if |s| >= 2 && s[0] == '0' && (s[1] == 'x' || s[1] == 'X') then s[2..] else s
  }

  // `strtoul(s, NULL, 16)` with a 32-bit unsigned long.
  function StrToUl(s: string): nat {
    var (negative, rest) := Signed(SkipSpace(s));
    var v := HexValue(HexRun(SkipMark(rest)));
    if v >= WORD then WORD - 1 else if negative then (WORD - v) % WORD else v
  }

  const DIGITS := "0123456789ABCDEF"

  // `%0<width>lX` of a value that fits the width.
  function Hex(n: nat, width: nat): (r: string)
    ensures |r| == width && AllHex(r)
  {
    if width == 0 then "" else Hex(n / 16, width - 1) + [DIGITS[n % 16]]
  }

  // `snprintf` or `strncpy` into a buffer that keeps at most `n` characters.
  function Fit(s: string, n: nat): (r: string) {
    if |s| <= n then s else s[..n]
  }

  // ---- The text commands ----

  datatype Rule = Valve | Lora | Ble | All | Bare | Open | Close | Config | SensorMeta | LeakReset | Cancel

  // In the order they are tried.
  const RULES: seq<Rule> := [Valve, Lora, Ble, All, Bare, Open, Close, Config, SensorMeta, LeakReset, Cancel]

  function Key(r: Rule): string {
    match r
    case Valve => "DECOMMISSION_VALVE"
    case Lora => "DECOMMISSION_LORA:"
    case Ble => "DECOMMISSION_BLE:"
    case All => "DECOMMISSION_ALL"
    case Bare => "DECOMMISSION_LORA"
    case Open => "VALVE_OPEN"
    case Close => "VALVE_CLOSE"
    case Config => "RULES_CONFIG:"
    case SensorMeta => "SENSOR_META:"
    case LeakReset => "LEAK_RESET"
    case Cancel => "OVERRIDE_CANCEL"
  }

  predicate Hit(r: Rule, text: string) {
    || Find(Upper(text), Key(r)).Some?
    || (r == All && SameIgnoringCase(text, "DECOMMISSION"))
    || (r == Bare && Find(Upper(text), "DECOMMISSION_BLE").Some?)
  }

  // The position of the first rule that hits: the number of rules for none.
  function FirstHit(text: string, k: nat): (r: nat)
    requires k <= |RULES|
    ensures k <= r <= |RULES| && (r < |RULES| ==> Hit(RULES[r], text))
    decreases |RULES| - k
  {
    if k == |RULES| || Hit(RULES[k], text) then k else FirstHit(text, k + 1)
  }

  // What follows a rule's keyword.
  function After(r: Rule, text: string): string
    requires Find(Upper(text), Key(r)).Some?
  {
    text[Find(Upper(text), Key(r)).value + |Key(r)|..]
  }

  function MacRun(s: string, room: nat): string {
    if s != "" && room > 0 && !Blank(s[0]) then [s[0]] + MacRun(s[1..], room - 1) else ""
  }

  function Target(target: string): string {
    "{\"target\":\"" + target + "\"}"
  }

  function Quoted(target: string, id: string): string {
    "{\"target\":\"" + target + "\",\"sensor_id\":\"" + id + "\"}"
  }

  function DupStr(s: string): Option<string> {
    if s == "" then None else Some(s)
  }

  function Text(cmd: string, payload: Option<string>): Command {
    Command("", cmd, payload, false, 0)
  }

  function Outcome(r: Rule, text: string): Option<Command>
    requires Hit(r, text)
  {
    match r
    case Valve => Some(Text("decommission", Some(Target("valve"))))
    case Lora => Some(Text("decommission", Some(Fit(Quoted("lora", "0x" + Hex(StrToUl(After(r, text)), 8)), 79))))
    case Ble => Some(Text("decommission", Some(Fit(Quoted("ble", MacRun(After(r, text), 17)), 79))))
    case All => Some(Text("decommission", Some(Target("all"))))
    case Bare => None
    case Open => Some(Text("valve_open", None))
    case Close => Some(Text("valve_close", None))
    case Config => Some(Text("rules_config", DupStr(After(r, text))))
    case SensorMeta => Some(Text("sensor_meta", DupStr(After(r, text))))
    case LeakReset => Some(Text("leak_reset", None))
    case Cancel => Some(Text("override_cancel", None))
  }

  // ---- JSON ----

  datatype Field = Absent | String(text: string) | Number(n: int) | Other

  // The fields of a parsed object the parser asks for; `payload` is the printed payload, if there is
  // one that is not null.
  datatype Root = Root(schema: Field, ver: Field, cmd: Field, id: Field, payload: Option<string>)

  type Json = string -> Option<Root>

  const CANONICAL := "eflostop.cmd"
  const LEGACY := "eflostop.cmd.v1"

  predicate IsEnvelope(root: Option<Root>) {
    && root.Some? && root.value.schema.String? &&
        (root.value.schema.text == CANONICAL || root.value.schema.text == LEGACY)
    && root.value.cmd.String? && root.value.cmd.text != ""
  }

  function EnvelopeOf(root: Root): Command
    requires IsEnvelope(Some(root))
  {
    Command(if root.id.String? then Fit(root.id.text, 63) else "",
            Fit(root.cmd.text, 31),
            root.payload,
            true,
            if root.schema.text == CANONICAL && root.ver.Number? then root.ver.n else 1)
  }

  function Provision(text: string, json: Json): Option<Command> {
    if text == "" || text[0] != '{' || json(text) == None || json(text).value.cmd.String? then None
    else Some(Text("provision", Some(text)))
  }

  function Legacy(text: string, json: Json): Option<Command> {
    var k := FirstHit(text, 0);
    if k < |RULES| then Outcome(RULES[k], text) else Provision(text, json)
  }

  // The message up to its first NUL, without its leading blanks.
  function UpToNul(data: string): string {
    if data == "" || data[0] == 0 as char then "" else [data[0]] + UpToNul(data[1..])
  }

  function TrimLeft(s: string): string {
    if s != "" && Blank(s[0]) then TrimLeft(s[1..]) else s
  }

  function Parsed(data: string, json: Json): Option<Command> {
    var text := TrimLeft(UpToNul(data));
    if text != "" && text[0] == '{' && IsEnvelope(json(text)) then Some(EnvelopeOf(json(text).value))
    else Legacy(text, json)
  }

  // ---- The parser ----

  // None of the first `k` rules hits.
  ghost predicate NoneBefore(text: string, k: nat)
    requires k <= |RULES|
  {
    forall j :: 0 <= j < k ==> !Hit(RULES[j], text)
  }

  lemma NoneYet(text: string)
    ensures NoneBefore(text, 0)
  {
  }

  lemma Missed(text: string, r: Rule, k: nat)
    requires k < |RULES| && RULES[k] == r && NoneBefore(text, k) && !Hit(r, text)
    ensures NoneBefore(text, k + 1)
  {
  }

  lemma NoneLeft(text: string, json: Json)
    requires NoneBefore(text, |RULES|)
    ensures Legacy(text, json) == Provision(text, json)
  {
    NoRuleProvisions(text, json);
  }

  lemma Decided(text: string, json: Json, r: Rule, k: nat)
    requires k < |RULES| && RULES[k] == r && NoneBefore(text, k) && Hit(r, text)
    ensures Legacy(text, json) == Outcome(r, text)
  {
    FirstRuleDecides(text, json, k);
  }

  class Parser {
    var id: string
    var cmd: string
    var payload: Option<string>
    var isEnvelope: bool
    var ver: int

    constructor ()
      ensures State() == BLANK
    {
      id, cmd, payload, isEnvelope, ver := "", "", None, false, 0;
    }

    function State(): Command
      reads this
    {
      Command(id, cmd, payload, isEnvelope, ver)
    }

    // c2d_command_parse: nothing of a failed envelope is left in what the text parser accepts.
    method Parse(data: string, json: Json) returns (ok: bool)
      modifies this
      ensures data == "" ==> !ok && State() == old(State())
      ensures data != "" ==> ok == Parsed(data, json).Some? &&
                             State() == if ok then Parsed(data, json).value else BLANK
      ensures ok && !isEnvelope ==> id == "" && ver == 0
    {
      LegacyIsClean(data, json);
      if data == "" {
        return false;
      }
      id, cmd, payload, isEnvelope, ver := "", "", None, false, 0;
      var text := UpToNul(data);
      var i := 0;
      while i < |text| && Blank(text[i])
        invariant i <= |text| && TrimLeft(text[i..]) == TrimLeft(text)
      {
        assert text[i..][1..] == text[i + 1..];
        i := i + 1;
      }
      var trimmed := text[i..];
      assert trimmed == TrimLeft(text);
      ok := false;
      if trimmed != "" && trimmed[0] == '{' {
        ok := ParseEnvelope(json(trimmed));
      }
      if !ok {
        ok := ParseLegacy(trimmed, json);
      }
    }

    // parse_envelope: the version is written before the command name is looked at.
    method ParseEnvelope(root: Option<Root>) returns (ok: bool)
      requires State() == BLANK
      modifies this
      ensures ok == IsEnvelope(root)
      ensures ok ==> State() == EnvelopeOf(root.value)
      ensures !ok ==> State().(ver := 0) == BLANK
    {
      if root == None || !root.value.schema.String? {
        return false;
      }
      var r := root.value;
      var isCanonical := r.schema.text == CANONICAL;
      var isLegacy := r.schema.text == LEGACY;
      if !isCanonical && !isLegacy {
        return false;
      }
      if isCanonical {
        ver := if r.ver.Number? then r.ver.n else 1;
      } else {
        ver := 1;
      }
      if !r.cmd.String? || |r.cmd.text| == 0 {
        return false;
      }
      cmd := Fit(r.cmd.text, 31);
      if r.id.String? {
        id := Fit(r.id.text, 63);
      }
      payload := r.payload;
      isEnvelope := true;
      ok := true;
    }

    // parse_legacy.
    method ParseLegacy(text: string, json: Json) returns (ok: bool)
      requires State().(ver := 0) == BLANK
      modifies this
      ensures ok == Legacy(text, json).Some?
      ensures State() == if ok then Legacy(text, json).value else BLANK
    {
      hide Key, Upper, Find, SameIgnoringCase, Legacy, StrToUl, Hex, Quoted, Target, Fit, NoneBefore;
      isEnvelope, ver := false, 0;
      var upper := UpperCopy(text);
      NoneYet(text);
      if Find(upper, Key(Valve)).Some? {
        Decided(text, json, Valve, 0);
        Accept("decommission", Some(Target("valve")));
        return true;
      }
      Missed(text, Valve, 0);
      ok := ParseLora(text, upper, json);
    }

    // The LoRa keyword, with an id.
    method ParseLora(text: string, upper: string, json: Json) returns (ok: bool)
      requires State() == BLANK && upper == Upper(text)
      requires NoneBefore(text, 1)
      modifies this
      ensures ok == Legacy(text, json).Some?
      ensures State() == if ok then Legacy(text, json).value else BLANK
    {
      hide Key, Upper, Find, SameIgnoringCase, Legacy, StrToUl, Hex, Quoted, Target, Fit, NoneBefore;
      var at := Find(upper, Key(Lora));
      if at.Some? {
        var sid := StrToUl(text[at.value + |Key(Lora)|..]);
        Decided(text, json, Lora, 1);
        Accept("decommission", Some(Fit(Quoted("lora", "0x" + Hex(sid, 8)), 79)));
        return true;
      }
      Missed(text, Lora, 1);
      ok := ParseDecommission(text, upper, json);
    }

    // The other decommission keywords.
    method ParseDecommission(text: string, upper: string, json: Json) returns (ok: bool)
      requires State() == BLANK && upper == Upper(text)
      requires NoneBefore(text, 2)
      modifies this
      ensures ok == Legacy(text, json).Some?
      ensures State() == if ok then Legacy(text, json).value else BLANK
    {
      hide Key, Upper, Find, SameIgnoringCase, Legacy, MacRun, Quoted, Target, Fit, NoneBefore;
      var at := Find(upper, Key(Ble));
      if at.Some? {
        var mac := CopyMac(text[at.value + |Key(Ble)|..]);
        Decided(text, json, Ble, 2);
        Accept("decommission", Some(Fit(Quoted("ble", mac), 79)));
        return true;
      }
      Missed(text, Ble, 2);
      if Find(upper, Key(All)).Some? || SameIgnoringCase(text, "DECOMMISSION") {
        Decided(text, json, All, 3);
        Accept("decommission", Some(Target("all")));
        return true;
      }
      Missed(text, All, 3);
      if Find(upper, Key(Bare)).Some? || Find(upper, "DECOMMISSION_BLE").Some? {
        Decided(text, json, Bare, 4);
        return false;
      }
      Missed(text, Bare, 4);
      ok := ParseRest(text, upper, json);
    }

    // The rest of parse_legacy, when no decommission keyword hits.
    method ParseRest(text: string, upper: string, json: Json) returns (ok: bool)
      requires State() == BLANK && upper == Upper(text)
      requires NoneBefore(text, 5)
      modifies this
      ensures ok == Legacy(text, json).Some?
      ensures State() == if ok then Legacy(text, json).value else BLANK
    {
      hide Key, Upper, Find, SameIgnoringCase, Legacy, NoneBefore;
      if Find(upper, Key(Open)).Some? {
        Decided(text, json, Open, 5);
        Accept("valve_open", None);
        return true;
      }
      Missed(text, Open, 5);
      if Find(upper, Key(Close)).Some? {
        Decided(text, json, Close, 6);
        Accept("valve_close", None);
        return true;
      }
      Missed(text, Close, 6);
      var at := Find(upper, Key(Config));
      if at.Some? {
        Decided(text, json, Config, 7);
        Accept("rules_config", DupStr(text[at.value + |Key(Config)|..]));
        return true;
      }
      Missed(text, Config, 7);
      at := Find(upper, Key(SensorMeta));
      if at.Some? {
        Decided(text, json, SensorMeta, 8);
        Accept("sensor_meta", DupStr(text[at.value + |Key(SensorMeta)|..]));
        return true;
      }
      Missed(text, SensorMeta, 8);
      ok := ParseLast(text, upper, json);
    }

    // The last two keywords, and the provisioning fallback.
    method ParseLast(text: string, upper: string, json: Json) returns (ok: bool)
      requires State() == BLANK && upper == Upper(text)
      requires NoneBefore(text, 9)
      modifies this
      ensures ok == Legacy(text, json).Some?
      ensures State() == if ok then Legacy(text, json).value else BLANK
    {
      hide Key, Upper, Find, SameIgnoringCase, Legacy, NoneBefore;
      if Find(upper, Key(LeakReset)).Some? {
        Decided(text, json, LeakReset, 9);
        Accept("leak_reset", None);
        return true;
      }
      Missed(text, LeakReset, 9);
      if Find(upper, Key(Cancel)).Some? {
        Decided(text, json, Cancel, 10);
        Accept("override_cancel", None);
        return true;
      }
      Missed(text, Cancel, 10);
      NoneLeft(text, json);
      if text != "" && text[0] == '{' {
        var probe := json(text);
        if probe == None || probe.value.cmd.String? {
          return false;
        }
        Accept("provision", Some(text));
        return true;
      }
      ok := false;
    }

    // `strncpy` of the command name and the payload pointer.
    method Accept(name: string, p: Option<string>)
      requires |name| <= 31
      modifies `cmd, `payload
      ensures cmd == name && payload == p
    {
      cmd := Fit(name, 31);
      payload := p;
    }

    static method UpperCopy(text: string) returns (upper: string)
      ensures upper == Upper(text)
    {
      var copy := new char[|text|];
      for i := 0 to |text|
        invariant forall j :: 0 <= j < i ==> copy[j] == ToUpper(text[j])
      {
        copy[i] := ToUpper(text[i]);
      }
      upper := copy[..];
    }

    static method CopyMac(s: string) returns (mac: string)
      ensures mac == MacRun(s, 17)
    {
      hide Blank;
      mac := "";
      var i := 0;
      while i < |s| && i < 17 && !Blank(s[i])
        invariant i <= |s| && i <= 17 && mac == s[..i]
        invariant MacRun(s, 17) == mac + MacRun(s[i..], 17 - i)
      {
        assert s[i..][1..] == s[i + 1..] && s[..i + 1] == s[..i] + [s[i]];
        mac := mac + [s[i]];
        i := i + 1;
      }
      assert MacRun(s[i..], 17 - i) == "";
    }
  }

  // ---- What the text parser accepts ----

  // An accepted message is an envelope, or has an empty id, version 0 and no envelope mark.
  lemma LegacyIsClean(data: string, json: Json)
    ensures Parsed(data, json).Some? ==>
              var c := Parsed(data, json).value;
              c.isEnvelope || (c.id == "" && c.ver == 0)
    ensures Parsed(data, json).Some? ==>
              (Parsed(data, json).value.isEnvelope <==>
               var text := TrimLeft(UpToNul(data)); text != "" && text[0] == '{' && IsEnvelope(json(text)))
  {
    hide FirstHit, Hit, StrToUl, Hex, MacRun, Quoted, Fit, After;
  }

  lemma {:induction false} FirstHitIs(text: string, k: nat, r: nat)
    requires k <= r <= |RULES| && (r < |RULES| ==> Hit(RULES[r], text))
    requires forall j :: k <= j < r ==> !Hit(RULES[j], text)
    ensures FirstHit(text, k) == r
    decreases r - k
  {
    hide Hit;
    if k < r {
      FirstHitIs(text, k + 1, r);
    }
  }

  // The rule that decides is the first that hits, in the fixed order.
  lemma FirstRuleDecides(text: string, json: Json, k: nat)
    requires k < |RULES| && Hit(RULES[k], text) && forall j :: 0 <= j < k ==> !Hit(RULES[j], text)
    ensures Legacy(text, json) == Outcome(RULES[k], text)
  {
    hide Hit, Outcome;
    FirstHitIs(text, 0, k);
  }

  lemma NoRuleProvisions(text: string, json: Json)
    requires forall j :: 0 <= j < |RULES| ==> !Hit(RULES[j], text)
    ensures Legacy(text, json) == Provision(text, json)
  {
    hide Hit, Outcome;
    FirstHitIs(text, 0, |RULES|);
  }

  // ---- Letter case ----

  lemma UpperDecidesLower(c: char, d: char)
    ensures ToUpper(c) == ToUpper(d) <==> ToLower(c) == ToLower(d)
  {
  }

  lemma CaseHits(r: Rule, s: string, t: string)
    requires Upper(s) == Upper(t)
    ensures Hit(r, s) == Hit(r, t)
  {
    hide Find;
    assert |s| == |Upper(s)| == |Upper(t)| == |t|;
    forall i | 0 <= i < |s| ensures ToLower(s[i]) == ToLower(t[i]) {
      assert ToUpper(s[i]) == Upper(s)[i] == ToUpper(t[i]);
      UpperDecidesLower(s[i], t[i]);
    }
  }

  lemma {:induction false} CaseFirstHit(s: string, t: string, k: nat)
    requires Upper(s) == Upper(t) && k <= |RULES|
    ensures FirstHit(s, k) == FirstHit(t, k)
    decreases |RULES| - k
  {
    hide Hit;
    if k < |RULES| {
      CaseHits(RULES[k], s, t);
      CaseFirstHit(s, t, k + 1);
    }
  }

  lemma UpperTail(s: string, t: string, n: nat)
    requires Upper(s) == Upper(t) && n <= |s|
    ensures |s| == |t| && Upper(s[n..]) == Upper(t[n..])
  {
    assert |s| == |Upper(s)| == |t|;
    forall i | 0 <= i < |s| - n ensures Upper(s[n..])[i] == Upper(t[n..])[i] {
      assert Upper(s)[n + i] == Upper(t)[n + i];
    }
  }

  lemma {:induction false} CaseHexValue(s: string, t: string)
    requires AllHex(s) && AllHex(t) && Upper(s) == Upper(t)
    ensures HexValue(s) == HexValue(t)
    decreases |s|
  {
    assert |s| == |Upper(s)| == |t|;
    if s != "" {
      var n := |s| - 1;
      assert Upper(s)[n] == Upper(t)[n];
      assert Upper(s[..n]) == Upper(s)[..n] && Upper(t[..n]) == Upper(t)[..n];
      CaseHexValue(s[..n], t[..n]);
    }
  }

  lemma CaseHex(c: char, d: char)
    requires ToUpper(c) == ToUpper(d)
    ensures IsHex(c) == IsHex(d)
  {
  }

  lemma UpperCons(c: char, s: string)
    ensures Upper([c] + s) == [ToUpper(c)] + Upper(s)
  {
  }

  lemma {:induction false} CaseHexRun(s: string, t: string)
    requires Upper(s) == Upper(t)
    ensures Upper(HexRun(s)) == Upper(HexRun(t))
    decreases |s|
  {
    hide Upper, ToUpper, IsHex;
    assert |s| == |Upper(s)| == |t|;
    if s != "" {
      assert Upper(s)[0] == Upper(t)[0];
      CaseHex(s[0], t[0]);
      UpperTail(s, t, 1);
      CaseHexRun(s[1..], t[1..]);
      UpperCons(s[0], HexRun(s[1..]));
      UpperCons(t[0], HexRun(t[1..]));
    }
  }

  lemma {:induction false} CaseSkipSpace(s: string, t: string)
    requires Upper(s) == Upper(t)
    ensures Upper(SkipSpace(s)) == Upper(SkipSpace(t))
    decreases |s|
  {
    assert |s| == |Upper(s)| == |t|;
    if s != "" {
      assert Upper(s)[0] == Upper(t)[0];
      UpperTail(s, t, 1);
      CaseSkipSpace(s[1..], t[1..]);
    }
  }

  // The number a text holds does not depend on letter case.
  lemma CaseStrToUl(s: string, t: string)
    requires Upper(s) == Upper(t)
    ensures StrToUl(s) == StrToUl(t)
  {
    CaseSkipSpace(s, t);
    var a, b := SkipSpace(s), SkipSpace(t);
    hide SkipSpace, HexRun, HexValue;
    CaseSigned(a, b);
    CaseSkipMark(Signed(a).1, Signed(b).1);
    CaseHexRun(SkipMark(Signed(a).1), SkipMark(Signed(b).1));
    CaseHexValue(HexRun(SkipMark(Signed(a).1)), HexRun(SkipMark(Signed(b).1)));
  }

  lemma CaseSigned(s: string, t: string)
    requires Upper(s) == Upper(t)
    ensures Signed(s).0 == Signed(t).0 && Upper(Signed(s).1) == Upper(Signed(t).1)
  {
    assert |s| == |Upper(s)| == |t|;
    if s != "" {
      assert Upper(s)[0] == Upper(t)[0];
      UpperTail(s, t, 1);
    }
  }

  lemma CaseSkipMark(s: string, t: string)
    requires Upper(s) == Upper(t)
    ensures Upper(SkipMark(s)) == Upper(SkipMark(t))
  {
    assert |s| == |Upper(s)| == |t|;
    if |s| >= 2 {
      assert Upper(s)[0] == Upper(t)[0] && Upper(s)[1] == Upper(t)[1];
      UpperTail(s, t, 2);
    }
  }

  lemma CaseBlank(c: char, d: char)
    requires ToUpper(c) == ToUpper(d)
    ensures Blank(c) == Blank(d)
  {
  }

  lemma {:induction false} CaseMacRun(s: string, t: string, room: nat)
    requires Upper(s) == Upper(t)
    ensures Upper(MacRun(s, room)) == Upper(MacRun(t, room))
    decreases |s|
  {
    hide Upper, ToUpper, Blank;
    assert |s| == |Upper(s)| == |t|;
    if s != "" && room > 0 {
      assert Upper(s)[0] == Upper(t)[0];
      CaseBlank(s[0], t[0]);
      UpperTail(s, t, 1);
      CaseMacRun(s[1..], t[1..], room - 1);
      UpperCons(s[0], MacRun(s[1..], room - 1));
      UpperCons(t[0], MacRun(t[1..], room - 1));
    }
  }

  lemma CaseAfter(r: Rule, s: string, t: string)
    requires Upper(s) == Upper(t) && Find(Upper(s), Key(r)).Some?
    ensures Upper(After(r, s)) == Upper(After(r, t))
  {
    UpperTail(s, t, Find(Upper(s), Key(r)).value + |Key(r)|);
  }

  // Main result: two texts that differ only in letter case give the same keyword command, or are both
  // refused; a LoRa id is the same number, and other payloads differ in letter case at most.
  lemma KeywordsIgnoreCase(s: string, t: string, json: Json)
    requires Upper(s) == Upper(t)
    ensures FirstHit(s, 0) == FirstHit(t, 0)
    ensures FirstHit(s, 0) < |RULES| ==> SameCommand(RULES[FirstHit(s, 0)], Legacy(s, json), Legacy(t, json))
  {
    CaseFirstHit(s, t, 0);
    var k := FirstHit(s, 0);
    if k < |RULES| {
      CaseHits(RULES[k], s, t);
      hide FirstHit, Hit;
      CaseOutcome(RULES[k], s, t);
    }
  }

  ghost predicate SameCommand(r: Rule, a: Option<Command>, b: Option<Command>) {
    && a.Some? == b.Some?
    && (a.Some? ==>
          && a.value.cmd == b.value.cmd
          && a.value.payload.Some? == b.value.payload.Some?
          && (a.value.payload.Some? ==> Upper(a.value.payload.value) == Upper(b.value.payload.value))
          && (r !in {Ble, Config, SensorMeta} ==> a == b))
  }

  lemma CaseOutcome(r: Rule, s: string, t: string)
    requires Upper(s) == Upper(t) && Hit(r, s) && Hit(r, t)
    ensures SameCommand(r, Outcome(r, s), Outcome(r, t))
  {
    hide Find, StrToUl, Hex, MacRun, HexRun, Upper;
    match r
    case Lora => CaseAfter(r, s, t); CaseStrToUl(After(r, s), After(r, t));
    case Ble => CaseAfter(r, s, t); CaseBle(After(r, s), After(r, t));
    case Config => CaseAfter(r, s, t); assert |After(r, s)| == |Upper(After(r, s))| == |After(r, t)|;
    case SensorMeta => CaseAfter(r, s, t); assert |After(r, s)| == |Upper(After(r, s))| == |After(r, t)|;
    case _ =>
  }

  lemma CaseBle(s: string, t: string)
    requires Upper(s) == Upper(t)
    ensures Upper(Fit(Quoted("ble", MacRun(s, 17)), 79)) == Upper(Fit(Quoted("ble", MacRun(t, 17)), 79))
  {
    CaseMacRun(s, t, 17);
    NeverTruncated(MacRun(s, 17), MacRun(t, 17));
  }

  lemma NeverTruncated(a: string, b: string)
    requires Upper(a) == Upper(b)
    ensures Upper(Fit(Quoted("ble", a), 79)) == Upper(Fit(Quoted("ble", b), 79))
  {
    var p, q := Quoted("ble", a), Quoted("ble", b);
    assert |a| == |Upper(a)| == |b|;
    assert |p| == |q|;
    forall i | 0 <= i < |p| ensures ToUpper(p[i]) == ToUpper(q[i]) {
      if 29 <= i < 29 + |a| {
        assert p[i] == a[i - 29] && q[i] == b[i - 29];
        assert Upper(a)[i - 29] == Upper(b)[i - 29];
      }
    }
  }

  // ---- LoRa ids ----

  function Pow16(w: nat): nat {
    if w == 0 then 1 else 16 * Pow16(w - 1)
  }

  lemma DigitOf(d: nat)
    requires d < 16
    ensures IsHex(DIGITS[d]) && Digit(DIGITS[d]) == d
  {
  }

  // Printing in a width the value fits, then reading, gives the value.
  lemma {:induction false} HexReads(n: nat, w: nat)
    requires n < Pow16(w)
    ensures HexValue(Hex(n, w)) == n
    decreases w
  {
    if w > 0 {
      HexReads(n / 16, w - 1);
      DigitOf(n % 16);
      assert Hex(n, w)[..w - 1] == Hex(n / 16, w - 1);
    }
  }

  lemma WordFits()
    ensures Pow16(8) == WORD
  {
    assert Pow16(4) == 65536 by { assert Pow16(2) == 256; }
    assert Pow16(6) == 16777216 by { assert Pow16(5) == 1048576; }
  }

  lemma {:induction false} RunOfDigits(s: string)
    requires AllHex(s)
    ensures HexRun(s) == s
    decreases |s|
  {
    if s != "" {
      RunOfDigits(s[1..]);
    }
  }

  predicate IsMark(s: string) {
    s == "" || s == "0x" || s == "0X"
  }

  lemma MarkSkipped(mark: string, d: string)
    requires IsMark(mark) && d != "" && AllHex(d)
    ensures SkipSpace(mark + d) == mark + d && Signed(mark + d) == (false, mark + d) && SkipMark(mark + d) == d
  {
    var s := mark + d;
    if mark == "" {
      assert s == d;
      assert IsHex(s[0]) && (|s| >= 2 ==> IsHex(s[1]));
    } else {
      assert s[0] == '0' && s[1] == mark[1] && s[2..] == d;
    }
  }

  // The number read from hex digits, with or without the mark.
  lemma ReadsDigits(mark: string, d: string)
    requires IsMark(mark) && d != "" && AllHex(d) && HexValue(d) < WORD
    ensures StrToUl(mark + d) == HexValue(d)
  {
    hide AllHex, HexValue, HexRun, SkipSpace, Signed, SkipMark, IsMark;
    RunOfDigits(d);
    MarkSkipped(mark, d);
  }

  // No earlier keyword hides in the keyword followed by digits.
  lemma LoraHits(key: string, tail: string)
    requires Upper(key) == Key(Lora)
    requires forall i :: 0 <= i < |tail| ==> ToUpper(tail[i]) != 'V'
    ensures !Hit(Valve, key + tail) && Hit(Lora, key + tail) && After(Lora, key + tail) == tail
  {
    var text := key + tail;
    var u := Upper(text);
    assert |key| == |Upper(key)| == 18;
    assert u[..18] == Key(Lora) by { assert forall i :: 0 <= i < 18 ==> u[i] == Upper(key)[i]; }
    assert At(u, 0, Key(Lora)) by { assert u[0..0 + 18] == u[..18]; }
    assert forall i :: 0 <= i < |u| ==> u[i] != 'V' by {
      forall i | 0 <= i < |u| ensures u[i] != 'V' {
        if i < 18 { assert u[i] == u[..18][i]; } else { assert u[i] == ToUpper(tail[i - 18]); }
      }
    }
    Lacks(u, Key(Valve), 13);
  }

  lemma NoV(mark: string, d: string)
    requires IsMark(mark) && AllHex(d)
    ensures forall i :: 0 <= i < |mark + d| ==> ToUpper((mark + d)[i]) != 'V'
  {
    forall i | 0 <= i < |mark + d| ensures ToUpper((mark + d)[i]) != 'V' {
      if i >= |mark| { assert IsHex(d[i - |mark|]); }
    }
  }

  // Main result: for every 32-bit id, however its hex digits are printed, the keyword followed by them
  // gives a payload that names exactly that id in full.
  lemma LoraRoundTrip(key: string, mark: string, d: string, json: Json)
    requires Upper(key) == Key(Lora) && IsMark(mark)
    requires d != "" && AllHex(d) && HexValue(d) < WORD
    ensures Legacy(key + (mark + d), json) ==
            Some(Text("decommission", Some("{\"target\":\"lora\",\"sensor_id\":\"0x" + Hex(HexValue(d), 8) + "\"}")))
    ensures HexValue(Hex(HexValue(d), 8)) == HexValue(d)
  {
    hide HexValue, StrToUl, Hex, AllHex, Hit, After, Legacy, Key, Pow16, IsMark, Quoted, Fit;
    WordFits();
    HexReads(HexValue(d), 8);
    ReadsDigits(mark, d);
    NoV(mark, d);
    LoraHits(key, mark + d);
    assert RULES[0] == Valve && RULES[1] == Lora;
    FirstRuleDecides(key + (mark + d), json, 1);
    LoraText(HexValue(d));
  }

  lemma LoraText(id: nat)
    ensures Fit(Quoted("lora", "0x" + Hex(id, 8)), 79) == "{\"target\":\"lora\",\"sensor_id\":\"0x" + Hex(id, 8) + "\"}"
  {
    hide Hex;
    var q := Quoted("lora", "0x" + Hex(id, 8));
    assert q == "{\"target\":\"lora\",\"sensor_id\":\"0x" + Hex(id, 8) + "\"}";
  }

  // ---- A keyword inside JSON ----

  // A keyword decides wherever it stands, also in a text that is not an envelope but begins like one.
  lemma KeywordAnywhere(pre: string, word: string, post: string, json: Json)
    requires Upper(word) == Key(Open)
    requires forall i :: 0 <= i < |pre + word + post| ==> ToUpper((pre + word + post)[i]) != 'S'
    ensures Legacy(pre + word + post, json) == Some(Text("valve_open", None))
  {
    var text := pre + word + post;
    var u := Upper(text);
    assert |word| == |Upper(word)| == 10;
    forall j | 0 <= j < 5 ensures !Hit(RULES[j], text) {
      NoDecommission(RULES[j], text);
    }
    assert At(u, |pre|, Key(Open)) by {
      assert forall i :: 0 <= i < 10 ==> u[|pre| + i] == Upper(word)[i];
      assert u[|pre|..|pre| + 10] == Upper(word);
    }
    assert RULES[5] == Open && Hit(Open, text);
    FirstRuleDecides(text, json, 5);
  }

  lemma NoDecommission(r: Rule, text: string)
    requires r in {Valve, Lora, Ble, All, Bare}
    requires forall i :: 0 <= i < |text| ==> ToUpper(text[i]) != 'S'
    ensures !Hit(r, text)
  {
    var u := Upper(text);
    Lacks(u, Key(r), 7);
    Lacks(u, "DECOMMISSION_BLE", 7);
    assert |text| == 12 ==> ToLower(text[7]) != 's';
  }

  // A text without one of a keyword's characters does not hold the keyword.
  lemma Lacks(u: string, key: string, k: nat)
    requires k < |key| && forall i :: 0 <= i < |u| ==> u[i] != key[k]
    ensures Find(u, key) == None
  {
    forall j | 0 <= j <= |u| - |key| ensures !At(u, j, key) {
      assert u[j..j + |key|][k] == u[j + k];
    }
  }

  lemma Sample()
    ensures Upper("valve_open") == Key(Open)
    ensures forall i :: 0 <= i < |"{\"cmd\":\"valve_open\""| ==> ToUpper("{\"cmd\":\"valve_open\""[i]) != 'S'
  {
  }

  // So a truncated envelope is not always rejected: this one opens the valve.
  lemma TruncatedEnvelopeActs(json: Json)
    requires json("{\"cmd\":\"valve_open\"") == None
    ensures Legacy("{\"cmd\":\"valve_open\"", json) == Some(Text("valve_open", None))
  {
    hide Legacy, Find, Hit, Upper, ToUpper, Key;
    Sample();
    var pre, word, post := "{\"cmd\":\"", "valve_open", "\"";
    assert pre + word + post == "{\"cmd\":\"valve_open\"";
    KeywordAnywhere(pre, word, post, json);
  }

  // Exactly when text that is not an envelope is refused: the bare LoRa or BLE keyword comes first, or
  // no keyword hits and it is not a JSON object free of a command.
  lemma RefusedWhen(text: string, json: Json)
    ensures Legacy(text, json) == None <==>
            var k := FirstHit(text, 0);
            if k < |RULES| then RULES[k] == Bare
            else text == "" || text[0] != '{' || json(text) == None || json(text).value.cmd.String?
  {
    hide FirstHit, Hit, StrToUl, Hex, MacRun, Quoted, Fit, After;
  }

  // ---- What each keyword gives ----

  // The text has the keyword, in any letter case; its first place.
  ghost predicate Has(text: string, key: string) {
    exists i :: At(Upper(text), i, key)
  }

  ghost predicate FirstAt(text: string, i: nat, key: string) {
    At(Upper(text), i, key) && forall j :: 0 <= j < i ==> !At(Upper(text), j, key)
  }

  // Accepted off the text path, with this name and payload.
  predicate Gives(c: Option<Command>, cmd: string, payload: Option<string>) {
    c == Some(Command("", cmd, payload, false, 0))
  }

  lemma HasIs(text: string, key: string)
    ensures Has(text, key) <==> Find(Upper(text), key).Some?
  {
    hide Upper, At;
    var at := Find(Upper(text), key);
    if i :| At(Upper(text), i, key) {
      InText(Upper(text), i, key);
    }
  }

  lemma InText(s: string, i: int, key: string)
    requires At(s, i, key)
    ensures 0 <= i <= |s|
  {
  }

  lemma FirstIs(text: string, i: nat, key: string)
    requires FirstAt(text, i, key)
    ensures Has(text, key) && Find(Upper(text), key) == Some(i) && i + |key| <= |text|
  {
    hide Upper;
    InText(Upper(text), i, key);
    assert |Upper(text)| == |text|;
  }

  // A rule's own text: `Key` and `Hit`, written out.
  lemma HitIs(r: Rule, text: string)
    ensures Hit(r, text) <==>
      match r
      case Valve => Has(text, "DECOMMISSION_VALVE")
      case Lora => Has(text, "DECOMMISSION_LORA:")
      case Ble => Has(text, "DECOMMISSION_BLE:")
      case All => Has(text, "DECOMMISSION_ALL") || Upper(text) == "DECOMMISSION"
      case Bare => Has(text, "DECOMMISSION_LORA") || Has(text, "DECOMMISSION_BLE")
      case Open => Has(text, "VALVE_OPEN")
      case Close => Has(text, "VALVE_CLOSE")
      case Config => Has(text, "RULES_CONFIG:")
      case SensorMeta => Has(text, "SENSOR_META:")
      case LeakReset => Has(text, "LEAK_RESET")
      case Cancel => Has(text, "OVERRIDE_CANCEL")
  {
    HasIs(text, Key(r));
    HasIs(text, "DECOMMISSION_BLE");
    SameIs(text);
    hide Find, Upper, SameIgnoringCase, Has;
  }

  lemma SameIs(text: string)
    ensures SameIgnoringCase(text, "DECOMMISSION") <==> Upper(text) == "DECOMMISSION"
  {
    var key := "DECOMMISSION";
    forall i | 0 <= i < |text| && |text| == |key|
      ensures ToUpper(text[i]) == key[i] <==> ToLower(text[i]) == ToLower(key[i])
    {
      UpperDecidesLower(text[i], key[i]);
      assert ToUpper(key[i]) == key[i];
    }
    if Upper(text) == key {
      assert |text| == |key|;
      forall i | 0 <= i < |text| ensures ToUpper(text[i]) == key[i] { assert Upper(text)[i] == key[i]; }
    }
    if SameIgnoringCase(text, key) {
      assert forall i :: 0 <= i < |text| ==> Upper(text)[i] == key[i];
    }
  }

  lemma ValveCommand(text: string, json: Json)
    requires Has(text, "DECOMMISSION_VALVE")
    ensures Gives(Legacy(text, json), "decommission", Some("{\"target\":\"valve\"}"))
  {
    hide Has, Hit, Legacy;
    HitIs(Valve, text);
    Decided(text, json, Valve, 0);
    assert Target("valve") == "{\"target\":\"valve\"}";
  }

  // The id after the colon, printed as eight hex digits.
  lemma LoraCommand(text: string, i: nat, json: Json)
    requires !Has(text, "DECOMMISSION_VALVE") && FirstAt(text, i, "DECOMMISSION_LORA:")
    ensures i + 18 <= |text|
    ensures Gives(Legacy(text, json), "decommission",
                  Some("{\"target\":\"lora\",\"sensor_id\":\"0x" + Hex(StrToUl(text[i + 18..]), 8) + "\"}"))
  {
    hide Has, Hit, Legacy, FirstAt, Find, Upper, StrToUl, Hex, Quoted, Fit;
    FirstIs(text, i, "DECOMMISSION_LORA:");
    HitIs(Valve, text);
    HitIs(Lora, text);
    Decided(text, json, Lora, 1);
    LoraText(StrToUl(text[i + 18..]));
  }

  // The MAC after the colon: up to a blank, the end, or its seventeenth character.
  lemma BleCommand(text: string, i: nat, n: nat, json: Json)
    requires !Has(text, "DECOMMISSION_VALVE") && !Has(text, "DECOMMISSION_LORA:")
    requires FirstAt(text, i, "DECOMMISSION_BLE:") && i + 17 + n <= |text| && n <= 17
    requires forall k :: i + 17 <= k < i + 17 + n ==> text[k] !in " \t\n\r"
    requires n == 17 || i + 17 + n == |text| || text[i + 17 + n] in " \t\n\r"
    ensures Gives(Legacy(text, json), "decommission",
                  Some("{\"target\":\"ble\",\"sensor_id\":\"" + text[i + 17..i + 17 + n] + "\"}"))
  {
    hide Has, Hit, Legacy, FirstAt, Find, Upper, Quoted, Fit, MacRun;
    FirstIs(text, i, "DECOMMISSION_BLE:");
    HitIs(Valve, text);
    HitIs(Lora, text);
    HitIs(Ble, text);
    Decided(text, json, Ble, 2);
    var tail := text[i + 17..];
    MacRunIs(tail, 17, n);
    assert tail[..n] == text[i + 17..i + 17 + n];
    BleText(tail[..n]);
  }

  lemma {:induction false} MacRunIs(s: string, room: nat, n: nat)
    requires n <= |s| && n <= room && forall k :: 0 <= k < n ==> s[k] !in " \t\n\r"
    requires n == room || n == |s| || s[n] in " \t\n\r"
    ensures MacRun(s, room) == s[..n]
  {
    if n > 0 {
      MacRunIs(s[1..], room - 1, n - 1);
      assert s[..n] == [s[0]] + s[1..][..n - 1];
    }
  }

  lemma BleText(mac: string)
    requires |mac| <= 17
    ensures Fit(Quoted("ble", mac), 79) == "{\"target\":\"ble\",\"sensor_id\":\"" + mac + "\"}"
  {
    assert Quoted("ble", mac) == "{\"target\":\"ble\",\"sensor_id\":\"" + mac + "\"}";
  }

  // No keyword of the decommission family.
  ghost predicate NoFamily(text: string) {
    && !Has(text, "DECOMMISSION_VALVE") && !Has(text, "DECOMMISSION_LORA") && !Has(text, "DECOMMISSION_BLE")
    && !Has(text, "DECOMMISSION_ALL") && Upper(text) != "DECOMMISSION"
  }

  lemma AllCommand(text: string, json: Json)
    requires !Has(text, "DECOMMISSION_VALVE") && !Has(text, "DECOMMISSION_LORA:") && !Has(text, "DECOMMISSION_BLE:")
    ensures Has(text, "DECOMMISSION_ALL") || Upper(text) == "DECOMMISSION" ==>
              Gives(Legacy(text, json), "decommission", Some("{\"target\":\"all\"}"))
    ensures (&& !Has(text, "DECOMMISSION_ALL") && Upper(text) != "DECOMMISSION"
             && (Has(text, "DECOMMISSION_LORA") || Has(text, "DECOMMISSION_BLE"))) ==> Legacy(text, json) == None
  {
    hide Has, Hit, Legacy, Upper;
    HitIs(Valve, text);
    HitIs(Lora, text);
    HitIs(Ble, text);
    HitIs(All, text);
    HitIs(Bare, text);
    if Hit(All, text) {
      Decided(text, json, All, 3);
      assert Target("all") == "{\"target\":\"all\"}";
    } else if Hit(Bare, text) {
      Decided(text, json, Bare, 4);
    }
  }

  lemma NoColon(text: string)
    requires NoFamily(text)
    ensures NoneBefore(text, 5)
  {
    hide Has, Hit, Upper;
    if Has(text, "DECOMMISSION_LORA:") { Shorter(text, "DECOMMISSION_LORA:", "DECOMMISSION_LORA"); }
    if Has(text, "DECOMMISSION_BLE:") { Shorter(text, "DECOMMISSION_BLE:", "DECOMMISSION_BLE"); }
    HitIs(Valve, text);
    HitIs(Lora, text);
    HitIs(Ble, text);
    HitIs(All, text);
    HitIs(Bare, text);
  }

  lemma Shorter(text: string, key: string, part: string)
    requires part <= key && Has(text, key)
    ensures Has(text, part)
  {
    hide Upper;
    var u := Upper(text);
    var i :| At(u, i, key);
    assert u[i..i + |part|] == u[i..i + |key|][..|part|];
    assert At(u, i, part);
  }

  // Valve control.
  lemma ValveControl(text: string, json: Json)
    requires NoFamily(text)
    ensures Has(text, "VALVE_OPEN") ==> Gives(Legacy(text, json), "valve_open", None)
    ensures !Has(text, "VALVE_OPEN") && Has(text, "VALVE_CLOSE") ==> Gives(Legacy(text, json), "valve_close", None)
  {
    NoColon(text);
    HitIs(Open, text);
    HitIs(Close, text);
    hide Has, Hit, Legacy, NoFamily, NoneBefore, Key, Upper;
    if Hit(Open, text) {
      Decided(text, json, Open, 5);
    } else if Hit(Close, text) {
      Missed(text, Open, 5);
      Decided(text, json, Close, 6);
    }
  }

  // No keyword of valve control either.
  ghost predicate NoControl(text: string) {
    NoFamily(text) && !Has(text, "VALVE_OPEN") && !Has(text, "VALVE_CLOSE")
  }

  lemma NoneBefore7(text: string)
    requires NoControl(text)
    ensures NoneBefore(text, 7)
  {
    NoColon(text);
    hide Has, Hit, NoFamily;
    HitIs(Open, text);
    HitIs(Close, text);
  }

  // What follows the colon is the payload, none if nothing does.
  function Tail(text: string, from: nat): Option<string>
    requires from <= |text|
  {
    if from == |text| then None else Some(text[from..])
  }

  lemma ConfigCommand(text: string, i: nat, json: Json)
    requires NoControl(text) && FirstAt(text, i, "RULES_CONFIG:")
    ensures i + 13 <= |text| && Gives(Legacy(text, json), "rules_config", Tail(text, i + 13))
  {
    hide *;
    KeysAre();
    FirstIs(text, i, Key(Config));
    NoneBefore7(text);
    TailIs(Config, text, i);
    Decided(text, json, Config, 7);
  }

  lemma KeysAre()
    ensures Key(Config) == "RULES_CONFIG:" && Key(SensorMeta) == "SENSOR_META:"
    ensures |RULES| == 11 && RULES[7] == Config && RULES[8] == SensorMeta
  {
  }

  lemma NoConfig(text: string)
    requires !Has(text, "RULES_CONFIG:")
    ensures !Hit(Config, text)
  {
    HitIs(Config, text);
    hide Has, Hit;
  }

  lemma TailIs(r: Rule, text: string, i: nat)
    requires r.Config? || r.SensorMeta?
    requires Find(Upper(text), Key(r)) == Some(i) && i + |Key(r)| <= |text|
    ensures Hit(r, text)
    ensures Gives(Outcome(r, text), if r.Config? then "rules_config" else "sensor_meta", Tail(text, i + |Key(r)|))
  {
    hide Find, Upper;
  }

  lemma SensorMetaCommand(text: string, i: nat, json: Json)
    requires NoControl(text) && !Has(text, "RULES_CONFIG:") && FirstAt(text, i, "SENSOR_META:")
    ensures i + 12 <= |text| && Gives(Legacy(text, json), "sensor_meta", Tail(text, i + 12))
  {
    hide *;
    KeysAre();
    FirstIs(text, i, Key(SensorMeta));
    NoneBefore7(text);
    NoConfig(text);
    Missed(text, Config, 7);
    TailIs(SensorMeta, text, i);
    Decided(text, json, SensorMeta, 8);
  }

  // The last two keywords.
  lemma LastCommands(text: string, json: Json)
    requires NoControl(text) && !Has(text, "RULES_CONFIG:") && !Has(text, "SENSOR_META:")
    ensures Has(text, "LEAK_RESET") ==> Gives(Legacy(text, json), "leak_reset", None)
    ensures !Has(text, "LEAK_RESET") && Has(text, "OVERRIDE_CANCEL") ==>
              Gives(Legacy(text, json), "override_cancel", None)
  {
    NoneBefore9(text);
    hide Has, Hit, Legacy, NoControl, NoneBefore;
    HitIs(LeakReset, text);
    HitIs(Cancel, text);
    if Hit(LeakReset, text) {
      Decided(text, json, LeakReset, 9);
    } else if Hit(Cancel, text) {
      Missed(text, LeakReset, 9);
      Decided(text, json, Cancel, 10);
    }
  }

  lemma NoneBefore9(text: string)
    requires NoControl(text) && !Has(text, "RULES_CONFIG:") && !Has(text, "SENSOR_META:")
    ensures NoneBefore(text, 9)
  {
    NoneBefore7(text);
    hide Has, Hit, NoControl;
    HitIs(Config, text);
    HitIs(SensorMeta, text);
  }

  // With none of the eleven, only an object without a command name is taken, as provisioning.
  lemma Provisions(text: string, json: Json)
    requires NoControl(text) && !Has(text, "RULES_CONFIG:") && !Has(text, "SENSOR_META:")
    requires !Has(text, "LEAK_RESET") && !Has(text, "OVERRIDE_CANCEL")
    ensures if text != "" && text[0] == '{' && json(text).Some? && !json(text).value.cmd.String?
            then Gives(Legacy(text, json), "provision", Some(text)) else Legacy(text, json) == None
  {
    NoneBefore9(text);
    hide Has, Hit, Legacy, NoControl;
    HitIs(LeakReset, text);
    HitIs(Cancel, text);
    NoRuleProvisions(text, json);
  }

  // ---- What a message gives ----

  // A message is read from its first character that is no blank, up to its first NUL: its envelope, field
  // by field, if the object has a known schema and a command name, and the text path's command if not.
  lemma MessageReads(blanks: string, text: string, rest: string, json: Json)
    requires forall k :: 0 <= k < |blanks| ==> blanks[k] in " \t\n\r"
    requires text != "" ==> text[0] !in " \t\n\r"
    requires 0 as char !in text && (rest != "" ==> rest[0] == 0 as char)
    ensures Parsed(blanks + text + rest, json) ==
      if text != "" && text[0] == '{' && json(text).Some? && Known(json(text).value)
      then Some(Fields(json(text).value)) else Legacy(text, json)
  {
    hide Legacy;
    assert blanks + text + rest == (blanks + text) + rest;
    assert 0 as char !in blanks by {
      forall k | 0 <= k < |blanks| ensures blanks[k] != 0 as char { }
    }
    NulEnds(blanks + text, rest);
    Trims(blanks, text);
  }

  // A known schema and a command name.
  predicate Known(root: Root) {
    && (root.schema == String("eflostop.cmd") || root.schema == String("eflostop.cmd.v1"))
    && root.cmd.String? && root.cmd.text != ""
  }

  // The first 31 characters of the name and 63 of the id; the version as given under the canonical schema.
  function Fields(root: Root): Command
    requires Known(root)
  {
    var (name, id) := (root.cmd.text, if root.id.String? then root.id.text else "");
    Command(if |id| > 63 then id[..63] else id, if |name| > 31 then name[..31] else name, root.payload, true,
            if root.schema == String("eflostop.cmd") && root.ver.Number? then root.ver.n else 1)
  }

  lemma {:induction false} NulEnds(s: string, rest: string)
    requires 0 as char !in s && (rest != "" ==> rest[0] == 0 as char)
    ensures UpToNul(s + rest) == s
  {
    if s == "" {
      assert s + rest == rest;
    } else {
      assert (s + rest)[1..] == s[1..] + rest;
      NulEnds(s[1..], rest);
    }
  }

  lemma {:induction false} Trims(blanks: string, text: string)
    requires forall k :: 0 <= k < |blanks| ==> blanks[k] in " \t\n\r"
    requires text != "" ==> text[0] !in " \t\n\r"
    ensures TrimLeft(blanks + text) == text
  {
    if blanks == "" {
      assert blanks + text == text;
    } else {
      assert (blanks + text)[1..] == blanks[1..] + text;
      Trims(blanks[1..], text);
    }
  }

  // ---- Hex numbers ----

  // `strtoul` in base 16: white space, a sign, a mark, then the digits; too large a number saturates, and a
  // negative one wraps.
  lemma ReadsNumber(spaces: string, sign: string, mark: string, d: string, rest: string)
    requires forall k :: 0 <= k < |spaces| ==> spaces[k] in " \t\n\r" || spaces[k] in [11 as char, 12 as char]
    requires sign in ["", "+", "-"] && IsMark(mark) && d != "" && AllHex(d) && (rest != "" ==> !IsHex(rest[0]))
    requires mark == "" ==> d != "0" || rest == "" || rest[0] !in "xX"
    ensures var v := HexValue(d);
      StrToUl(spaces + (sign + (mark + (d + rest)))) ==
        if v >= 0x1_0000_0000 then 0xFFFF_FFFF
        else if sign == "-" && v > 0 then 0x1_0000_0000 - v else v
  {
    hide HexValue, AllHex, HexRun, SkipMark, SkipSpace, Signed;
    var t := mark + (d + rest);
    SpaceSkipped(spaces, sign + t);
    SignRead(sign, mark, d, rest);
    MarkRead(mark, d, rest);
    RunEnds(d, rest);
    WrapsOnce(HexValue(d));
  }

  lemma WrapsOnce(v: nat)
    ensures 0 < v < WORD ==> (WORD - v) % WORD == WORD - v
    ensures v == 0 ==> (WORD - v) % WORD == 0
  {
  }

  // No sign or mark begins a digit, nor white space a number.
  lemma SignRead(sign: string, mark: string, d: string, rest: string)
    requires sign in ["", "+", "-"] && IsMark(mark) && d != "" && AllHex(d)
    ensures var t := mark + (d + rest);
      Signed(sign + t) == (sign == "-", t) && SkipSpace(sign + t) == sign + t
  {
    var t := mark + (d + rest);
    assert t[0] == if mark == "" then d[0] else '0';
    assert IsHex(t[0]);
    if sign == "" {
      assert sign + t == t;
    } else {
      assert (sign + t)[1..] == t;
    }
  }

  lemma {:induction false} SpaceSkipped(spaces: string, t: string)
    requires forall k :: 0 <= k < |spaces| ==> spaces[k] in " \t\n\r" || spaces[k] in [11 as char, 12 as char]
    ensures SkipSpace(spaces + t) == SkipSpace(t)
  {
    if spaces == "" {
      assert spaces + t == t;
    } else {
      assert (spaces + t)[1..] == spaces[1..] + t;
      SpaceSkipped(spaces[1..], t);
    }
  }

  lemma MarkRead(mark: string, d: string, rest: string)
    requires IsMark(mark) && d != "" && AllHex(d)
    requires mark == "" ==> d != "0" || rest == "" || rest[0] !in "xX"
    ensures SkipMark(mark + (d + rest)) == d + rest
  {
    var t := mark + (d + rest);
    if mark == "" {
      assert t == d + rest;
      if |t| >= 2 { assert t[1] == if |d| > 1 then d[1] else rest[0]; }
    } else {
      assert t[2..] == d + rest;
    }
  }

  lemma {:induction false} RunEnds(d: string, rest: string)
    requires AllHex(d) && (rest != "" ==> !IsHex(rest[0]))
    ensures HexRun(d + rest) == d
  {
    if d == "" {
      assert d + rest == rest;
    } else {
      assert (d + rest)[1..] == d[1..] + rest;
      RunEnds(d[1..], rest);
    }
  }
}
