/**
 What an edited schema accepts, for every payload: also those the generated schema refuses and the edits
 were made to let through.
 */
module SchemaEdits {
  import opened Schema

  type Path = seq<string>

  // ---- The edits, node by node ----

  /** What becomes of a node's keywords, by the path of `properties` that leads to it. */
  datatype Patch = Patch(required: Path -> Option<set<string>>, enum: Path -> Option<Option<set<Json>>>,
                         fixed: Path -> Option<Option<Json>>)

  function Patched(n: Node, at: Path, p: Patch): Node {
    n.(required := if p.required(at).Some? then p.required(at).value else n.required,
       enum := if p.enum(at).Some? then p.enum(at).value else n.enum,
       fixed := if p.fixed(at).Some? then p.fixed(at).value else n.fixed)
  }

  function PatchAll(s: Node, at: Path, p: Patch): Node
    decreases s
  {
    Patched(s.(properties := map k | k in s.properties :: PatchAll(s.properties[k], at + [k], p)), at, p)
  }

  // A patched schema, keyword by keyword.
  lemma PatchIs(s: Node, at: Path, p: Patch)
    ensures var a := PatchAll(s, at, p);
      && a == Patched(s.(properties := a.properties), at, p) && a.properties.Keys == s.properties.Keys
      && forall k :: k in s.properties ==> a.properties[k] == PatchAll(s.properties[k], at + [k], p)
  {
  }

  lemma PatchAgrees(n: Node, m: Node, at: Path, p: Patch, q: Patch)
    requires m == n.(properties := m.properties) && Agree(p, q, at)
    ensures Patched(m, at, q) == Patched(n, at, p).(properties := m.properties)
  {
  }

  // Under patches that agree at the path, the same node but for what is below it.
  lemma PatchBelow(s: Node, t: Node, at: Path, p: Patch, q: Patch)
    requires t == s.(properties := t.properties) && Agree(p, q, at)
    ensures PatchAll(t, at, q) == PatchAll(s, at, p).(properties := PatchAll(t, at, q).properties)
  {
    PatchIs(s, at, p);
    PatchIs(t, at, q);
    var (a, b) := (PatchAll(s, at, p), PatchAll(t, at, q));
    hide PatchAll, Patched, Agree;
    PatchAgrees(s.(properties := a.properties), t.(properties := b.properties), at, p, q);
  }

  // The last narrowing of a path.
  function WordsFor(ov: Overrides, at: Path): Option<set<string>> {
    if ov == [] then None
    else if ov[|ov| - 1].0 == at then Some(ov[|ov| - 1].1)
    else WordsFor(ov[..|ov| - 1], at)
  }

  predicate IsType(at: Path, spec: Spec) {
    spec.literal.Some? && at == ["type"]
  }

  predicate IsData(at: Path, spec: Spec) {
    spec.dataRequired.Some? && at == ["data"]
  }

  predicate IsNarrowed(at: Path, spec: Spec) {
    WordsFor(spec.overrides, at).Some?
  }

  function Edits(spec: Spec): Patch {
    Patch(at => if IsData(at, spec) then spec.dataRequired else None,
          at => if IsType(at, spec) then Some(None)
                else if IsNarrowed(at, spec) then Some(Some(Strings(WordsFor(spec.overrides, at).value))) else None,
          at => if IsType(at, spec) then Some(Some(Str(spec.literal.value))) else None)
  }

  // The keywords the edits replace, dropped.
  function Drops(spec: Spec): Patch {
    Patch(at => if IsData(at, spec) then Some({}) else None,
          at => if IsType(at, spec) || IsNarrowed(at, spec) then Some(None) else None,
          at => if IsType(at, spec) then Some(None) else None)
  }

  predicate Agree(p: Patch, q: Patch, at: Path) {
    p.required(at) == q.required(at) && p.enum(at) == q.enum(at) && p.fixed(at) == q.fixed(at)
  }

  ghost predicate AgreeBelow(p: Patch, q: Patch, at: Path) {
    forall r: Path :: Agree(p, q, at + r)
  }

  lemma AgreeChild(p: Patch, q: Patch, at: Path, k: string)
    requires AgreeBelow(p, q, at)
    ensures AgreeBelow(p, q, at + [k])
  {
    hide Agree;
    forall r: Path ensures Agree(p, q, at + [k] + r) {
      assert at + [k] + r == at + ([k] + r);
    }
  }

  lemma {:induction false} PatchSame(s: Node, at: Path, p: Patch, q: Patch)
    requires AgreeBelow(p, q, at)
    ensures PatchAll(s, at, p) == PatchAll(s, at, q)
    decreases s
  {
    hide AgreeBelow;
    forall k | k in s.properties
      ensures PatchAll(s.properties[k], at + [k], p) == PatchAll(s.properties[k], at + [k], q)
    {
      AgreeChild(p, q, at, k);
      PatchSame(s.properties[k], at + [k], p, q);
    }
    AgreeHere(p, q, at);
  }

  lemma AgreeHere(p: Patch, q: Patch, at: Path)
    requires AgreeBelow(p, q, at)
    ensures Agree(p, q, at)
  {
    assert at + [] == at;
  }

  lemma {:induction false} LeadPatched(s: Node, at: Path, p: Patch, rel: Path)
    ensures Lead(PatchAll(s, at, p), rel) ==
            if Lead(s, rel).None? then None else Some(PatchAll(Lead(s, rel).value, at + rel, p))
    decreases |rel|
  {
    if rel == [] {
      assert at + rel == at;
    } else if rel[0] in s.properties {
      LeadPatched(s.properties[rel[0]], at + [rel[0]], p, rel[1..]);
      assert at + rel == at + [rel[0]] + rel[1..];
    }
  }

  // Two patches that agree but at one path differ in the node there.
  ghost predicate AgreeBut(p: Patch, q: Patch, at: Path) {
    forall r: Path :: r != at ==> Agree(p, q, r)
  }

  lemma AgreeAside(p: Patch, q: Patch, at: Path, rel: Path, k: string)
    requires AgreeBut(p, q, at + rel) && (rel == [] || rel[0] != k)
    ensures AgreeBelow(p, q, at + [k])
  {
    hide Agree;
    forall r: Path ensures Agree(p, q, at + [k] + r) {
      var full := at + [k] + r;
      assert full[|at|] == k;
      if rel != [] { assert (at + rel)[|at|] == rel[0]; }
      assert full != at + rel;
    }
  }

  lemma {:induction false} Repatch(s: Node, at: Path, p: Patch, q: Patch, rel: Path, t: Node)
    requires AgreeBut(p, q, at + rel)
    requires Lead(s, rel).Some? <==> Lead(PatchAll(s, at, p), rel).Some?
    requires Lead(s, rel).Some? ==> t == Patched(Lead(PatchAll(s, at, p), rel).value, at + rel, q)
    requires Covers(p, q, at + rel)
    ensures PatchAll(s, at, q) ==
            if Lead(s, rel).Some? then Put(PatchAll(s, at, p), rel, t) else PatchAll(s, at, p)
    decreases |rel|
  {
    hide AgreeBut, AgreeBelow;
    forall k | k in s.properties && (rel == [] || k != rel[0])
      ensures PatchAll(s.properties[k], at + [k], q) == PatchAll(s.properties[k], at + [k], p)
    {
      AgreeAside(p, q, at, rel, k);
      PatchSame(s.properties[k], at + [k], p, q);
    }
    if rel == [] {
      assert at + rel == at;
      RepatchHere(s, at, p, q, t);
    } else {
      OtherThan(p, q, at, rel);
      var k := rel[0];
      PatchesButChild(s, at, p, q, k);
      if k in s.properties {
        assert at + [k] + rel[1..] == at + rel;
        LeadPatched(s.properties[k], at + [k], p, rel[1..]);
        Repatch(s.properties[k], at + [k], p, q, rel[1..], t);
      }
      PatchIs(s, at, p);
      PatchIs(s, at, q);
      PutChild(PatchAll(s, at, p), PatchAll(s, at, q), rel, t);
    }
  }

  lemma OtherThan(p: Patch, q: Patch, at: Path, rel: Path)
    requires AgreeBut(p, q, at + rel) && rel != []
    ensures Agree(p, q, at)
  {
    assert |at + rel| != |at|;
  }

  // What one patch sets, the other does too.
  predicate Covers(p: Patch, q: Patch, at: Path) {
    && (p.required(at).Some? ==> q.required(at).Some?) && (p.enum(at).Some? ==> q.enum(at).Some?)
    && (p.fixed(at).Some? ==> q.fixed(at).Some?)
  }

  lemma RepatchHere(s: Node, at: Path, p: Patch, q: Patch, t: Node)
    requires t == Patched(PatchAll(s, at, p), at, q) && Covers(p, q, at)
    requires forall k :: k in s.properties ==>
        PatchAll(s.properties[k], at + [k], q) == PatchAll(s.properties[k], at + [k], p)
    ensures PatchAll(s, at, q) == t
  {
    assert PatchAll(s, at, p).properties ==
           map k | k in s.properties :: PatchAll(s.properties[k], at + [k], q);
  }

  // Nodes that differ in one child.
  predicate ButChild(a: Node, b: Node, k: string) {
    && b == a.(properties := b.properties) && b.properties.Keys == a.properties.Keys
    && forall j :: j in a.properties && j != k ==> b.properties[j] == a.properties[j]
  }

  lemma PutChild(a: Node, b: Node, rel: Path, t: Node)
    requires rel != [] && ButChild(a, b, rel[0])
    requires rel[0] in a.properties ==>
        var x := a.properties[rel[0]];
        b.properties[rel[0]] == if Lead(x, rel[1..]).Some? then Put(x, rel[1..], t) else x
    ensures b == if Lead(a, rel).Some? then Put(a, rel, t) else a
  {
    var k := rel[0];
    if Lead(a, rel).Some? {
      assert b.properties == a.properties[k := Put(a.properties[k], rel[1..], t)];
    } else {
      assert b.properties == a.properties;
    }
  }

  lemma PatchesButChild(s: Node, at: Path, p: Patch, q: Patch, k: string)
    requires Agree(p, q, at)
    requires forall j :: j in s.properties && j != k ==>
        PatchAll(s.properties[j], at + [j], q) == PatchAll(s.properties[j], at + [j], p)
    ensures ButChild(PatchAll(s, at, p), PatchAll(s, at, q), k)
  {
    PatchIs(s, at, p);
    PatchIs(s, at, q);
    PatchBelow(s, s, at, p, q);
    hide PatchAll, Patched, Agree;
  }

  const NOTHING := Spec(None, [], None)

  lemma {:induction false} PatchNothing(s: Node, at: Path)
    ensures PatchAll(s, at, Edits(NOTHING)) == s
    decreases s
  {
    forall k | k in s.properties ensures PatchAll(s.properties[k], at + [k], Edits(NOTHING)) == s.properties[k] {
      PatchNothing(s.properties[k], at + [k]);
    }
    assert PatchAll(s, at, Edits(NOTHING)).properties == s.properties;
  }

  lemma PatchData(s: Node, req: Option<set<string>>)
    ensures DataRequired(s, req) == PatchAll(s, [], Edits(Spec(req, [], None)))
  {
    var p, q := Edits(NOTHING), Edits(Spec(req, [], None));
    PatchNothing(s, []);
    assert [] + ["data"] == ["data"] && ["data"][1..] == [];
    if req.Some? {
      if "data" in s.properties {
        var t := s.properties["data"].(required := req.value);
        assert Lead(s, ["data"]) == Some(s.properties["data"]) by { assert Lead(s.properties["data"], []).Some?; }
        assert Put(s, ["data"], t) == s.(properties := s.properties["data" := t]);
        Repatch(s, [], p, q, ["data"], t);
      } else {
        Repatch(s, [], p, q, ["data"], s);
      }
    } else {
      assert AgreeBelow(p, q, []);
      PatchSame(s, [], p, q);
    }
  }

  lemma {:induction false} PatchNarrow(s: Node, req: Option<set<string>>, ov: Overrides)
    ensures NarrowAll(DataRequired(s, req), ov) == PatchAll(s, [], Edits(Spec(req, ov, None)))
    decreases |ov|
  {
    if ov == [] {
      PatchData(s, req);
    } else {
      var n := |ov| - 1;
      PatchNarrow(s, req, ov[..n]);
      var p, q := Edits(Spec(req, ov[..n], None)), Edits(Spec(req, ov, None));
      var (path, words) := ov[n];
      LeadPatched(s, [], p, path);
      assert [] + path == path;
      assert AgreeBut(p, q, path);
      var x := PatchAll(s, [], p);
      if Lead(s, path).Some? {
        var t := Lead(x, path).value.(enum := Some(Strings(words)));
        Repatch(s, [], p, q, path, t);
      } else {
        Repatch(s, [], p, q, path, s);
      }
    }
  }

  // The `type` property, created when it is absent.
  function WithType(s: Node, t: Option<string>): Node {
    if t.Some? && "type" !in s.properties then s.(properties := s.properties["type" := FREE]) else s
  }

  lemma PatchType(s: Node, spec: Spec)
    ensures Edited(s, spec) == PatchAll(WithType(s, spec.literal), [], Edits(spec))
  {
    var (req, ov, t) := (spec.dataRequired, spec.overrides, spec.literal);
    PatchNarrow(s, req, ov);
    var p, q := Edits(Spec(req, ov, None)), Edits(spec);
    var x := PatchAll(s, [], p);
    if t == None {
      assert AgreeBelow(p, q, []);
      PatchSame(s, [], p, q);
    } else if "type" in s.properties {
      PatchLiteral(s, spec, p, q);
    } else {
      PatchCreated(s, spec, p, q);
    }
  }

  lemma PatchLiteral(s: Node, spec: Spec, p: Patch, q: Patch)
    requires spec.literal.Some? && "type" in s.properties
    requires p == Edits(spec.(literal := None)) && q == Edits(spec)
    ensures TypeFixed(PatchAll(s, [], p), spec.literal) == PatchAll(s, [], q)
  {
    var x := PatchAll(s, [], p);
    PatchIs(s, [], p);
    LeadPatched(s, [], p, ["type"]);
    var at := x.properties["type"];
    var u := at.(fixed := Some(Str(spec.literal.value)), enum := None);
    LiteralIs(at, spec, p, q);
    assert AgreeBut(p, q, [] + ["type"]) && Covers(p, q, [] + ["type"]) by { assert [] + ["type"] == ["type"]; }
    OneStep(s);
    OneStep(x);
    hide PatchAll, AgreeBut, Covers, Patched, Edits, Lead, Put;
    Repatch(s, [], p, q, ["type"], u);
  }

  // The node the literal is put at.
  lemma LiteralIs(at: Node, spec: Spec, p: Patch, q: Patch)
    requires spec.literal.Some? && p == Edits(spec.(literal := None)) && q == Edits(spec)
    ensures Patched(at, [] + ["type"], q) == at.(fixed := Some(Str(spec.literal.value)), enum := None)
  {
    assert [] + ["type"] == ["type"];
  }

  lemma OneStep(s: Node)
    requires "type" in s.properties
    ensures Lead(s, ["type"]) == Some(s.properties["type"])
    ensures forall t: Node :: Put(s, ["type"], t) == s.(properties := s.properties["type" := t])
  {
    assert ["type"][1..] == [] && Lead(s.properties["type"], []) == Some(s.properties["type"]);
    forall t: Node ensures Put(s, ["type"], t) == s.(properties := s.properties["type" := t]) {
      assert Put(s.properties["type"], [], t) == t;
    }
  }

  lemma PatchFree(spec: Spec)
    requires spec.literal.Some?
    ensures PatchAll(FREE, [] + ["type"], Edits(spec)) == FREE.(fixed := Some(Str(spec.literal.value)), enum := None)
  {
    assert [] + ["type"] == ["type"];
    assert PatchAll(FREE, ["type"], Edits(spec)).properties == map[];
  }

  lemma PatchCreated(s: Node, spec: Spec, p: Patch, q: Patch)
    requires spec.literal.Some? && "type" !in s.properties
    requires p == Edits(spec.(literal := None)) && q == Edits(spec)
    ensures TypeFixed(PatchAll(s, [], p), spec.literal) == PatchAll(WithType(s, spec.literal), [], q)
  {
    var t := WithType(s, spec.literal);
    assert AgreeBut(p, q, [] + ["type"]) by { assert [] + ["type"] == ["type"]; }
    OtherThan(p, q, [], ["type"]);
    PatchFree(spec);
    CreatedChildren(s, t, p, q);
    PatchBelow(s, t, [], p, q);
    PatchIs(s, [], p);
    Created(PatchAll(s, [], p), PatchAll(t, [], q), spec.literal);
  }

  lemma CreatedChildren(s: Node, t: Node, p: Patch, q: Patch)
    requires "type" !in s.properties && t.properties == s.properties["type" := FREE]
    requires AgreeBut(p, q, [] + ["type"])
    ensures PatchAll(t, [], q).properties == PatchAll(s, [], p).properties["type" := PatchAll(FREE, [] + ["type"], q)]
  {
    PatchIs(s, [], p);
    PatchIs(t, [], q);
    var (a, b) := (PatchAll(s, [], p).properties, PatchAll(t, [], q).properties);
    var free := PatchAll(FREE, [] + ["type"], q);
    assert b.Keys == a.Keys + {"type"} && b["type"] == free;
    forall k | k in a ensures b[k] == a[k] {
      SameChild(s, p, q, k);
      assert t.properties[k] == s.properties[k];
    }
    hide *;
    OneMore(a, b, "type", free);
  }

  lemma SameChild(s: Node, p: Patch, q: Patch, k: string)
    requires "type" !in s.properties && k in s.properties && AgreeBut(p, q, [] + ["type"])
    ensures PatchAll(s.properties[k], [] + [k], p) == PatchAll(s.properties[k], [] + [k], q)
  {
    AgreeAside(p, q, [], ["type"], k);
    PatchSame(s.properties[k], [] + [k], p, q);
  }

  lemma OneMore(a: map<string, Node>, b: map<string, Node>, k: string, n: Node)
    requires b.Keys == a.Keys + {k} && k !in a && b[k] == n && forall j :: j in a ==> b[j] == a[j]
    ensures b == a[k := n]
  {
  }

  lemma Created(a: Node, b: Node, t: Option<string>)
    requires t.Some? && "type" !in a.properties
    requires b == a.(properties := b.properties)
    requires b.properties == a.properties["type" := FREE.(fixed := Some(Str(t.value)), enum := None)]
    ensures b == TypeFixed(a, t)
  {
  }

  // ---- Without the replaced keywords ----

  // The schema with the keywords the edits replace dropped.
  function Loose(s: Node, spec: Spec): Node {
    PatchAll(WithType(s, spec.literal), [], Drops(spec))
  }

  lemma {:induction false} PatchOver(s: Node, at: Path, p: Patch, q: Patch)
    requires forall r: Path :: Covers(p, q, r)
    ensures PatchAll(PatchAll(s, at, p), at, q) == PatchAll(s, at, q)
    decreases s
  {
    var a := PatchAll(s, at, p);
    PatchIs(s, at, p);
    PatchIs(s, at, q);
    PatchIs(a, at, q);
    var (b, c) := (PatchAll(s, at, q), PatchAll(a, at, q));
    forall k | k in s.properties ensures b.properties[k] == c.properties[k] {
      PatchOver(s.properties[k], at + [k], p, q);
    }
    hide PatchAll;
    assert c.properties == b.properties;
    assert Covers(p, q, at);
  }

  // Editing it gives the edited schema.
  lemma LooseEdits(s: Node, spec: Spec)
    ensures Edited(Loose(s, spec), spec) == Edited(s, spec)
  {
    PatchType(s, spec);
    PatchType(Loose(s, spec), spec);
    var t := WithType(s, spec.literal);
    assert WithType(Loose(s, spec), spec.literal) == Loose(s, spec);
    PatchOver(t, [], Drops(spec), Edits(spec));
  }

  // It accepts whatever the edited one does.
  lemma {:induction false} LooseAccepts(s: Node, at: Path, spec: Spec, w: Json)
    requires Valid(PatchAll(s, at, Edits(spec)), w)
    ensures Valid(PatchAll(s, at, Drops(spec)), w)
    decreases s
  {
    var a, b := PatchAll(s, at, Edits(spec)), PatchAll(s, at, Drops(spec));
    if w.Obj? {
      forall k | k in s.properties && k in w.members ensures Valid(b.properties[k], w.members[k]) {
        assert Valid(a.properties[k], w.members[k]);
        LooseAccepts(s.properties[k], at + [k], spec, w.members[k]);
      }
      assert ValidMembers(a, w.members);
      assert ValidMembers(b, w.members);
    }
  }

  // The edited schema accepts a payload exactly when the loose one does and the edits are met.
  lemma EditedAccepts(s: Node, spec: Spec, w: Json)
    requires s.closed && Keyed(spec.overrides)
    ensures Valid(Edited(s, spec), w) <==> Valid(Loose(s, spec), w) && MeetsEdits(s, w, spec)
  {
    hide Valid, Edited, MeetsEdits, PatchAll, Loose;
    var l := Loose(s, spec);
    LooseEdits(s, spec);
    PatchType(s, spec);
    assert l.closed by { LooseClosed(s, spec); }
    SameAsked(s, spec, w);
    if Valid(Edited(s, spec), w) {
      LooseAccepts(WithType(s, spec.literal), [], spec, w);
      assert Valid(l, w) by { LooseIs(s, spec); }
      EditsKept(l, spec, w);
    }
    if Valid(l, w) && MeetsEdits(s, w, spec) {
      EditsMet(l, spec, w);
    }
  }

  lemma LooseIs(s: Node, spec: Spec)
    ensures Loose(s, spec) == PatchAll(WithType(s, spec.literal), [], Drops(spec))
  {
    hide PatchAll;
  }

  lemma LooseClosed(s: Node, spec: Spec)
    requires s.closed
    ensures Loose(s, spec).closed
  {
  }

  lemma SameAsked(s: Node, spec: Spec, w: Json)
    requires Keyed(spec.overrides)
    ensures MeetsEdits(Loose(s, spec), w, spec) <==> MeetsEdits(s, w, spec)
  {
    forall i | 0 <= i < |spec.overrides| ensures Asked(Loose(s, spec), spec, i) <==> Asked(s, spec, i) {
      var path := spec.overrides[i].0;
      LeadPatched(WithType(s, spec.literal), [], Drops(spec), path);
      if spec.literal.Some? && path != ["type"] {
        LeadCreated(s, spec.literal, path);
      }
    }
  }

  lemma LeadCreated(s: Node, t: Option<string>, path: Path)
    requires path != [] && path != ["type"]
    ensures Lead(WithType(s, t), path).Some? <==> Lead(s, path).Some?
  {
    if path[0] == "type" {
      assert path[1..] != [] by { assert path == [path[0]] + path[1..]; }
    }
  }

  // ---- What a payload must do ----

  // Every key of the minimal payload that the maximal one has is there, at every level, but for `data`'s
  // own keys when they are replaced.
  ghost predicate CarriesBut(v: Json, minimal: Json, w: Json, at: Path, spec: Spec)
    decreases v
  {
    && (v.Obj? && w.Obj? ==>
          && (minimal.Obj? && !IsData(at, spec) ==>
                forall k :: k in v.members && k in minimal.members ==> k in w.members)
          && forall k :: k in v.members && k in w.members ==>
               CarriesBut(v.members[k], SubMin(minimal, k), w.members[k], at + [k], spec))
    && (v.Arr? ==> Carries(v, minimal, w))
  }

  // The vocabulary left of the declared one: a narrowing replaces a list of words, a type literal any.
  function Left(meta: Option<Meta>, at: Path, spec: Spec): Option<Meta> {
    if meta.Some? && (IsType(at, spec) || (IsNarrowed(at, spec) && meta.value.words.Members?))
    then Some(meta.value.(words := Vocabulary.Free)) else meta
  }

  // Every string uses what is left of the vocabulary declared for its path.
  ghost predicate WordedBut(v: Json, w: Json, path: string, c: Catalogue, at: Path, spec: Spec)
    decreases v
  {
    && (Expected(v) == TString && w.Str? ==> Speaks(Left(c.At(path), at, spec), w.text))
    && (v.Obj? && w.Obj? ==> forall k :: k in v.members && k in w.members ==>
          WordedBut(v.members[k], w.members[k], Child(path, k), c, at + [k], spec))
    && (v.Arr? ==> Worded(v, w, path, c))
  }

  lemma ScalarLoose(v: Json, path: string, minimal: Json, c: Catalogue, at: Path, spec: Spec, w: Json)
    requires !v.Obj? && !v.Arr?
    ensures Valid(PatchAll(SchemaFor(v, path, minimal, c), at, Drops(spec)), w) <==>
            Within(v, w, path, c) && CarriesBut(v, minimal, w, at, spec) && WordedBut(v, w, path, c, at, spec)
  {
    var n, meta := Shaped(v, path, minimal, c), c.At(path);
    ScalarNode(v, path, minimal, c);
    ScalarAccepts(v, path, minimal, c, w);
    LeftNull(meta, at, spec);
    hide Valid, Declare, Speaks, Shaped, PatchAll, SchemaFor, Left, KindOf, Expected;
    DeclareLeft(n, Expected(v), meta, at, spec);
    DeclareAccepts(n, Expected(v), Left(meta, at, spec), w);
    assert Expected(v) == TObject ==> v.Obj? by { ScalarKind(v); }
  }

  lemma ScalarKind(v: Json)
    ensures Expected(v) == TObject ==> v.Obj?
  {
  }

  lemma ScalarNode(v: Json, path: string, minimal: Json, c: Catalogue)
    requires !v.Obj? && !v.Arr?
    ensures var n := Shaped(v, path, minimal, c);
      && SchemaFor(v, path, minimal, c) == Declare(n, c.At(path))
      && n.types == {Expected(v)} && n.properties == map[] && n.required == {} && n.enum == None && n.fixed == None
  {
    hide Declare;
  }

  lemma LeftNull(meta: Option<Meta>, at: Path, spec: Spec)
    ensures meta.Some? <==> Left(meta, at, spec).Some?
    ensures meta.Some? ==> Left(meta, at, spec).value.nullable == meta.value.nullable
  {
  }

  lemma DeclareLeft(n: Node, t: Kind, meta: Option<Meta>, at: Path, spec: Spec)
    requires n.types == {t} && n.properties == map[] && n.required == {} && n.enum == None && n.fixed == None
    ensures PatchAll(Declare(n, meta), at, Drops(spec)) == Declare(n, Left(meta, at, spec))
  {
    var s := Declare(n, meta);
    assert s.properties == map[];
    assert PatchAll(s, at, Drops(spec)).properties == map[];
  }

  lemma ArrayLoose(v: Json, path: string, minimal: Json, c: Catalogue, at: Path, spec: Spec, w: Json)
    requires v.Arr?
    ensures Valid(PatchAll(SchemaFor(v, path, minimal, c), at, Drops(spec)), w) <==>
            Within(v, w, path, c) && CarriesBut(v, minimal, w, at, spec) && WordedBut(v, w, path, c, at, spec)
  {
    SchemaAccepts(v, path, minimal, c, w);
    ArrayKept(v, path, minimal, c, at, spec);
    hide Valid, SchemaFor, PatchAll, Within, Carries, Worded;
  }

  lemma ArrayKept(v: Json, path: string, minimal: Json, c: Catalogue, at: Path, spec: Spec)
    requires v.Arr?
    ensures PatchAll(SchemaFor(v, path, minimal, c), at, Drops(spec)) == SchemaFor(v, path, minimal, c)
  {
    var n := Shaped(v, path, minimal, c);
    assert n.types == {TArray} && n.properties == map[] && n.required == {} && n.enum == None && n.fixed == None;
    assert TArray in n.types && n.types != {TObject} && n.types != {TString};
    var s := Declare(n, c.At(path));
    assert s == n || s == n.(types := n.types + {TNull});
    hide Shaped, Declare;
    assert PatchAll(s, at, Drops(spec)).properties == s.properties;
  }

  // The loose schema of an object, keyword by keyword.
  lemma LooseObject(v: Json, path: string, minimal: Json, c: Catalogue, at: Path, spec: Spec)
    requires v.Obj?
    ensures var l := PatchAll(SchemaFor(v, path, minimal, c), at, Drops(spec));
      && l.types == {TObject} && l.enum == None && l.fixed == None && l.closed == !LeftOpen(path, c)
      && l.properties.Keys == v.members.Keys
      && (forall k :: k in v.members ==>
          l.properties[k] ==
            PatchAll(SchemaFor(v.members[k], Child(path, k), SubMin(minimal, k), c), at + [k], Drops(spec)))
      && (forall k :: k in l.required <==>
            !IsData(at, spec) && k in v.members && minimal.Obj? && k in minimal.members)
  {
    var s := SchemaFor(v, path, minimal, c);
    ShapedObject(v, path, minimal, c);
    assert s == Shaped(v, path, minimal, c);
    PatchIs(s, at, Drops(spec));
    hide SchemaFor, Shaped, PatchAll;
  }

  lemma {:induction false} ObjectLoose(v: Json, path: string, minimal: Json, c: Catalogue, at: Path, spec: Spec,
                                       w: Json)
    requires v.Obj?
    ensures Valid(PatchAll(SchemaFor(v, path, minimal, c), at, Drops(spec)), w) <==>
            Within(v, w, path, c) && CarriesBut(v, minimal, w, at, spec) && WordedBut(v, w, path, c, at, spec)
    decreases v, 0, 1
  {
    var l := PatchAll(SchemaFor(v, path, minimal, c), at, Drops(spec));
    LooseObject(v, path, minimal, c, at, spec);
    hide *;
    ValidObject(l, w);
    ObjectWithin(v, w, path, c);
    if w.Obj? {
      MembersLoose(v, path, minimal, c, at, spec, w);
      RequiredBut(l.required, v, minimal, w, at, spec);
      ObjectMembers(l, v, w, path, c);
      ObjectMeans(v, path, minimal, c, at, spec, w);
    }
  }

  lemma ObjectWithin(v: Json, w: Json, path: string, c: Catalogue)
    requires v.Obj?
    ensures Within(v, w, path, c) ==> w.Obj?
  {
  }

  lemma ObjectMembers(l: Node, v: Json, w: Json, path: string, c: Catalogue)
    requires v.Obj? && w.Obj? && l.closed == !LeftOpen(path, c) && l.properties.Keys == v.members.Keys
    ensures ValidMembers(l, w.members) <==>
            && l.required <= w.members.Keys && (LeftOpen(path, c) || w.members.Keys <= v.members.Keys)
            && forall k :: k in v.members && k in w.members ==> Valid(l.properties[k], w.members[k])
  {
    hide Valid, LeftOpen;
  }

  // The three conditions on an object, key by key.
  lemma ObjectMeans(v: Json, path: string, minimal: Json, c: Catalogue, at: Path, spec: Spec, w: Json)
    requires v.Obj? && w.Obj?
    ensures Within(v, w, path, c) && CarriesBut(v, minimal, w, at, spec) && WordedBut(v, w, path, c, at, spec) <==>
            && (LeftOpen(path, c) || w.members.Keys <= v.members.Keys)
            && (minimal.Obj? && !IsData(at, spec) ==>
                  forall k :: k in v.members && k in minimal.members ==> k in w.members)
            && forall k :: k in v.members && k in w.members ==>
                 && Within(v.members[k], w.members[k], Child(path, k), c)
                 && CarriesBut(v.members[k], SubMin(minimal, k), w.members[k], at + [k], spec)
                 && WordedBut(v.members[k], w.members[k], Child(path, k), c, at + [k], spec)
  {
    hide LeftOpen, IsData, Speaks, Left, Carries, Worded, Child, SubMin;
  }

  lemma {:induction false} MembersLoose(v: Json, path: string, minimal: Json, c: Catalogue, at: Path, spec: Spec,
                                        w: Json)
    requires v.Obj? && w.Obj?
    ensures forall k :: k in v.members && k in w.members ==>
        (Valid(PatchAll(SchemaFor(v.members[k], Child(path, k), SubMin(minimal, k), c), at + [k], Drops(spec)),
               w.members[k])
         <==> && Within(v.members[k], w.members[k], Child(path, k), c)
              && CarriesBut(v.members[k], SubMin(minimal, k), w.members[k], at + [k], spec)
              && WordedBut(v.members[k], w.members[k], Child(path, k), c, at + [k], spec))
    decreases v, 0, 0
  {
    hide *;
    forall k | k in v.members && k in w.members
      ensures Valid(PatchAll(SchemaFor(v.members[k], Child(path, k), SubMin(minimal, k), c), at + [k], Drops(spec)),
                    w.members[k]) <==>
              && Within(v.members[k], w.members[k], Child(path, k), c)
              && CarriesBut(v.members[k], SubMin(minimal, k), w.members[k], at + [k], spec)
              && WordedBut(v.members[k], w.members[k], Child(path, k), c, at + [k], spec)
    {
      LooseSchema(v.members[k], Child(path, k), SubMin(minimal, k), c, at + [k], spec, w.members[k]);
    }
  }

  lemma RequiredBut(required: set<string>, v: Json, minimal: Json, w: Json, at: Path, spec: Spec)
    requires v.Obj? && w.Obj?
    requires forall k :: k in required <==> !IsData(at, spec) && k in v.members && minimal.Obj? && k in minimal.members
    ensures required <= w.members.Keys <==>
            (minimal.Obj? && !IsData(at, spec) ==>
               forall k :: k in v.members && k in minimal.members ==> k in w.members)
  {
  }

  // What the generated schema accepts without the keywords the edits replace.
  lemma {:induction false} LooseSchema(v: Json, path: string, minimal: Json, c: Catalogue, at: Path, spec: Spec,
                                       w: Json)
    ensures Valid(PatchAll(SchemaFor(v, path, minimal, c), at, Drops(spec)), w) <==>
            Within(v, w, path, c) && CarriesBut(v, minimal, w, at, spec) && WordedBut(v, w, path, c, at, spec)
    decreases v, 1, 0
  {
    hide *;
    if v.Obj? {
      ObjectLoose(v, path, minimal, c, at, spec, w);
    } else if v.Arr? {
      ArrayLoose(v, path, minimal, c, at, spec, w);
    } else {
      ScalarLoose(v, path, minimal, c, at, spec, w);
    }
  }

  // ---- The edited schema ----

  // A payload without its `type` when the maximal one has none: the literal alone describes it then.
  function Described(maximal: Json, spec: Spec, w: Json): Json
    requires maximal.Obj?
  {
    if spec.literal.Some? && "type" !in maximal.members && w.Obj? then Obj(w.members - {"type"}) else w
  }

  // The data keys, the narrowings of paths the maximal payload has (the type's own is dropped when the
  // type is a literal), and the literal.
  ghost predicate Meets(maximal: Json, w: Json, spec: Spec) {
    && (spec.dataRequired.Some? && w.Obj? && "data" in w.members && w.members["data"].Obj? ==>
          spec.dataRequired.value <= w.members["data"].members.Keys)
    && (forall i :: 0 <= i < |spec.overrides| && ValueAt(maximal, spec.overrides[i].0).Some? ==>
          (spec.literal.Some? && spec.overrides[i].0 == ["type"]) ||
          var x := ValueAt(w, spec.overrides[i].0);
          x.Some? ==> x.value.Str? && x.value.text in spec.overrides[i].1)
    && (spec.literal.Some? && w.Obj? && "type" in w.members ==> w.members["type"] == Str(spec.literal.value))
  }

  // The schema has the paths the maximal payload has.
  lemma {:induction false} LeadOfSchema(v: Json, path: string, minimal: Json, c: Catalogue, q: Path)
    ensures Lead(SchemaFor(v, path, minimal, c), q).Some? <==> ValueAt(v, q).Some?
    decreases |q|
  {
    if q != [] {
      SchemaProperties(v, path, minimal, c);
      if v.Obj? && q[0] in v.members {
        LeadOfSchema(v.members[q[0]], Child(path, q[0]), SubMin(minimal, q[0]), c, q[1..]);
      }
      hide SchemaFor;
    }
  }

  lemma SchemaProperties(v: Json, path: string, minimal: Json, c: Catalogue)
    ensures var s := SchemaFor(v, path, minimal, c);
      if v.Obj? then
        s.properties.Keys == v.members.Keys && s.closed == !LeftOpen(path, c) &&
        (forall k :: k in v.members ==>
          s.properties[k] == SchemaFor(v.members[k], Child(path, k), SubMin(minimal, k), c))
      else s.properties == map[]
  {
    if v.Obj? {
      ShapedObject(v, path, minimal, c);
      hide Shaped, SubMin;
    }
  }

  lemma MeetsIs(maximal: Json, minimal: Json, c: Catalogue, spec: Spec, w: Json)
    requires maximal.Obj?
    ensures MeetsEdits(SchemaFor(maximal, "", minimal, c), w, spec) <==> Meets(maximal, w, spec)
  {
    forall i | 0 <= i < |spec.overrides|
      ensures Lead(SchemaFor(maximal, "", minimal, c), spec.overrides[i].0).Some? <==>
              ValueAt(maximal, spec.overrides[i].0).Some?
    {
      LeadOfSchema(maximal, "", minimal, c, spec.overrides[i].0);
    }
    hide SchemaFor, Lead, ValueAt;
  }

  lemma LooseTop(maximal: Json, minimal: Json, c: Catalogue, spec: Spec, w: Json)
    requires maximal.Obj?
    ensures Valid(Loose(SchemaFor(maximal, "", minimal, c), spec), w) <==>
            Valid(PatchAll(SchemaFor(maximal, "", minimal, c), [], Drops(spec)), Described(maximal, spec, w))
  {
    var s := SchemaFor(maximal, "", minimal, c);
    SchemaProperties(maximal, "", minimal, c);
    if spec.literal.Some? && "type" !in maximal.members {
      LooseObject(maximal, "", minimal, c, [], spec);
      hide SchemaFor;
      TypeAdded(s, spec, w);
    }
  }

  // A `type` that only the literal describes: any value goes before the literal is looked at.
  lemma TypeAdded(s: Node, spec: Spec, w: Json)
    requires spec.literal.Some? && "type" !in s.properties
    requires var a := PatchAll(s, [], Drops(spec));
      a.types == {TObject} && a.enum == None && a.fixed == None && "type" !in a.required && a.closed
    ensures Valid(Loose(s, spec), w) <==>
            Valid(PatchAll(s, [], Drops(spec)), if w.Obj? then Obj(w.members - {"type"}) else w)
  {
    var t := WithType(s, spec.literal);
    var (a, b) := (PatchAll(s, [], Drops(spec)), PatchAll(t, [], Drops(spec)));
    PatchIs(s, [], Drops(spec));
    PatchIs(t, [], Drops(spec));
    var free := PatchAll(FREE, [] + ["type"], Drops(spec));
    FreeLoose(spec);
    forall k | k in s.properties ensures b.properties[k] == a.properties[k] {
      assert t.properties[k] == s.properties[k];
    }
    assert b.properties["type"] == free;
    assert b == a.(properties := b.properties);
    hide PatchAll, Patched, Valid;
    ValidObject(b, w);
    if w.Obj? {
      ValidObject(a, Obj(w.members - {"type"}));
      MembersApart(a, b, w.members);
    }
  }

  lemma FreeLoose(spec: Spec)
    ensures forall w: Json :: Valid(PatchAll(FREE, [] + ["type"], Drops(spec)), w)
  {
    var free := PatchAll(FREE, [] + ["type"], Drops(spec));
    assert free.properties == map[] && free.required == {};
  }

  lemma MembersApart(a: Node, b: Node, m: map<string, Json>)
    requires b == a.(properties := b.properties) && b.properties.Keys == a.properties.Keys + {"type"}
    requires "type" !in a.properties && "type" !in a.required
    requires forall k :: k in a.properties ==> b.properties[k] == a.properties[k]
    requires "type" in m ==> Valid(b.properties["type"], m["type"])
    ensures ValidMembers(b, m) <==> ValidMembers(a, m - {"type"})
  {
    hide Valid;
    var rest := m - {"type"};
    assert rest.Keys == m.Keys - {"type"};
    assert a.required <= rest.Keys <==> b.required <= m.Keys;
    assert rest.Keys <= a.properties.Keys <==> m.Keys <= b.properties.Keys;
  }

  // Main result: the edited schema accepts a payload if and only if it stays within the maximal payload,
  // carries the minimal one (`data`'s own keys aside when they are replaced), uses what is left of the
  // declared vocabularies, and meets the edits.
  lemma BuiltAccepts(maximal: Json, minimal: Json, c: Catalogue, spec: Spec, w: Json)
    requires maximal.Obj? && Keyed(spec.overrides)
    ensures Valid(Edited(SchemaFor(maximal, "", minimal, c), spec), w) <==>
            var u := Described(maximal, spec, w);
            && Within(maximal, u, "", c) && CarriesBut(maximal, minimal, u, [], spec)
            && WordedBut(maximal, u, "", c, [], spec) && Meets(maximal, w, spec)
  {
    SchemaProperties(maximal, "", minimal, c);
    hide *;
    assert !LeftOpen("", c) by { TopClosed(c); }
    EditedAccepts(SchemaFor(maximal, "", minimal, c), spec, w);
    LooseTop(maximal, minimal, c, spec, w);
    LooseSchema(maximal, "", minimal, c, [], spec, Described(maximal, spec, w));
    MeetsIs(maximal, minimal, c, spec, w);
  }

  lemma TopClosed(c: Catalogue)
    ensures !LeftOpen("", c)
  {
  }
}
