/**
 The schema generator of the telemetry catalogue: which payloads a generated schema accepts, the
 acceptance of the two example payloads it was built from, and the edits made afterwards. Keywords
 mean what JSON Schema draft 2020-12 says they mean.
 */
module Schema {
  datatype Option<T> = None | Some(value: T)

  datatype Json =
    | Null
    | Bool(flag: bool)
    | Num(number: real)
    | Str(text: string)
    | Arr(items: seq<Json>)
    | Obj(members: map<string, Json>)

  const EMPTY := Obj(map[])

  datatype Kind = TNull | TBoolean | TNumber | TString | TArray | TObject

  function KindOf(v: Json): Kind {
    match v
    case Null => TNull
    case Bool(_) => TBoolean
    case Num(_) => TNumber
    case Str(_) => TString
    case Arr(_) => TArray
    case Obj(_) => TObject
  }

  // ---- Schemas and what they accept ----

  // A schema object; an absent keyword is the value that constrains nothing.
  datatype Node = Node(types: set<Kind>, properties: map<string, Node>, required: set<string>, closed: bool,
                       items: Option<Node>, enum: Option<set<Json>>, fixed: Option<Json>)

  // The empty schema.
  const FREE := Node({}, map[], {}, false, None, None, None)

  ghost predicate Valid(s: Node, w: Json)
    decreases s
  {
    && (s.types == {} || KindOf(w) in s.types)
    && (s.enum.Some? ==> w in s.enum.value)
    && (s.fixed.Some? ==> w == s.fixed.value)
    && (w.Obj? ==> ValidMembers(s, w.members))
    && (w.Arr? && s.items.Some? ==> forall i :: 0 <= i < |w.items| ==> Valid(s.items.value, w.items[i]))
  }

  ghost predicate ValidMembers(s: Node, m: map<string, Json>)
    decreases s, 0
  {
    && s.required <= m.Keys
    && (s.closed ==> m.Keys <= s.properties.Keys)
    && (forall k :: k in s.properties && k in m ==> Valid(s.properties[k], m[k]))
  }

  // ---- The generator ----

  datatype Plane = D2C | C2D | Other

  // What the field catalogue declares for a path: a type that includes null, and a vocabulary.
  datatype Meta = Meta(nullable: bool, words: Vocabulary)
  datatype Vocabulary = Free | Members(of: set<string>) | Literal(text: string)

  datatype Catalogue = Catalogue(plane: Plane, field: string -> Option<Meta>) {
    function At(path: string): Option<Meta> {
      if plane == D2C then field(path) else None
    }
  }

  function Child(path: string, k: string): string {
    if path == "" then k else path + "." + k
  }

  // The subtree of the minimal payload under a key: the empty object when there is none.
  function SubMin(minimal: Json, k: string): Json {
    if minimal.Obj? && k in minimal.members && minimal.members[k] != Null then minimal.members[k] else EMPTY
  }

  function FirstMin(minimal: Json): Json {
    if minimal.Arr? && minimal.items != [] then minimal.items[0] else EMPTY
  }

  predicate LeftOpen(path: string, c: Catalogue) {
    path == "payload" && c.plane == C2D
  }

  function Strings(words: set<string>): set<Json> {
    set x | x in words :: Str(x)
  }

  function Typed(k: Kind): Node {
    Node({k}, map[], {}, false, None, None, None)
  }

  // What the catalogue adds to a node: null, or a vocabulary for a plain string.
  function Declare(n: Node, meta: Option<Meta>): Node {
    if meta == None then n
    else if meta.value.nullable then if n.types == {TObject} then n else n.(types := n.types + {TNull})
    else if n.types != {TString} then n
    else
      match meta.value.words
      case Free => n
      case Members(of) => n.(enum := Some(Strings(of)))
      case Literal(text) => n.(fixed := Some(Str(text)))
  }

  function SchemaFor(value: Json, path: string, minimal: Json, c: Catalogue): Node
    decreases value
  {
    Declare(Shaped(value, path, minimal, c), c.At(path))
  }

  function Shaped(value: Json, path: string, minimal: Json, c: Catalogue): Node
    decreases value, 0
  {
    match value
    case Obj(members) =>
      Typed(TObject).(
        properties := (map k | k in members :: SchemaFor(members[k], Child(path, k), SubMin(minimal, k), c)),
        required := (set k | k in members && minimal.Obj? && k in minimal.members),
        closed := !LeftOpen(path, c))
    case Arr(items) =>
      Typed(TArray).(
        items := if items == [] then None else Some(SchemaFor(items[0], path + "[]", FirstMin(minimal), c)))
    case Bool(_) => Typed(TBoolean)
    case Num(_) => Typed(TNumber)
    case _ => Typed(TString)
  }

  // ---- What a payload must do to be accepted ----

  function Expected(v: Json): Kind {
    if v.Null? then TString else KindOf(v)
  }

  // Types agree and no key is foreign, at every level the maximal payload describes. Null is let
  // through where the catalogue declares it, and foreign keys in an open command payload.
  ghost predicate Within(v: Json, w: Json, path: string, c: Catalogue)
    decreases v
  {
    if w.Null? && !v.Obj? && c.At(path).Some? && c.At(path).value.nullable then true
    else
      && KindOf(w) == Expected(v)
      && (v.Obj? ==>
            && (LeftOpen(path, c) || w.members.Keys <= v.members.Keys)
            && forall k :: k in v.members && k in w.members ==> Within(v.members[k], w.members[k], Child(path, k), c))
      && (v.Arr? && v.items != [] ==>
            forall i :: 0 <= i < |w.items| ==> Within(v.items[0], w.items[i], path + "[]", c))
  }

  // Every key of the minimal payload that the maximal one has is there, at every level.
  ghost predicate Carries(v: Json, minimal: Json, w: Json)
    decreases v
  {
    && (v.Obj? && w.Obj? ==>
          && (minimal.Obj? ==> forall k :: k in v.members && k in minimal.members ==> k in w.members)
          && forall k :: k in v.members && k in w.members ==> Carries(v.members[k], SubMin(minimal, k), w.members[k]))
    && (v.Arr? && w.Arr? && v.items != [] ==>
          forall i :: 0 <= i < |w.items| ==> Carries(v.items[0], FirstMin(minimal), w.items[i]))
  }

  predicate Speaks(meta: Option<Meta>, text: string) {
    meta.Some? && !meta.value.nullable ==>
      match meta.value.words
      case Free => true
      case Members(of) => text in of
      case Literal(t) => text == t
  }

  // Every string uses the vocabulary declared for its path.
  ghost predicate Worded(v: Json, w: Json, path: string, c: Catalogue)
    decreases v
  {
    && (Expected(v) == TString && w.Str? ==> Speaks(c.At(path), w.text))
    && (v.Obj? && w.Obj? ==>
          forall k :: k in v.members && k in w.members ==> Worded(v.members[k], w.members[k], Child(path, k), c))
    && (v.Arr? && w.Arr? && v.items != [] ==>
          forall i :: 0 <= i < |w.items| ==> Worded(v.items[0], w.items[i], path + "[]", c))
  }

  // What the catalogue's additions change: null where declared, and the vocabulary of strings.
  lemma DeclareAccepts(n: Node, t: Kind, meta: Option<Meta>, w: Json)
    requires n.types == {t} && n.enum == None && n.fixed == None
    ensures Valid(Declare(n, meta), w) <==>
            || (w.Null? && t != TObject && meta.Some? && meta.value.nullable)
            || (Valid(n, w) && (t == TString && w.Str? ==> Speaks(meta, w.text)))
  {
    if t == TObject { assert n.types == {TObject}; } else { assert t in n.types && n.types != {TObject}; }
    if t == TString { assert n.types == {TString}; } else { assert t in n.types && n.types != {TString}; }
    assert forall words: set<string>, x :: Str(x) in Strings(words) <==> x in words;
  }

  lemma ObjectAccepts(v: Json, path: string, minimal: Json, c: Catalogue, w: Json)
    requires v.Obj?
    ensures Valid(Shaped(v, path, minimal, c), w) <==>
            && w.Obj?
            && (LeftOpen(path, c) || w.members.Keys <= v.members.Keys)
            && (minimal.Obj? ==> forall k :: k in v.members && k in minimal.members ==> k in w.members)
            && forall k :: k in v.members && k in w.members ==>
                 Valid(SchemaFor(v.members[k], Child(path, k), SubMin(minimal, k), c), w.members[k])
  {
    hide *;
    ShapedObject(v, path, minimal, c);
    var s := Shaped(v, path, minimal, c);
    ValidObject(s, w);
    if w.Obj? {
      RequiredIs(s.required, v, minimal, w);
      MembersAre(s, v, path, minimal, c, w);
    }
  }

  lemma RequiredIs(required: set<string>, v: Json, minimal: Json, w: Json)
    requires v.Obj? && w.Obj?
    requires forall k :: k in required <==> k in v.members && minimal.Obj? && k in minimal.members
    ensures required <= w.members.Keys <==>
            (minimal.Obj? ==> forall k :: k in v.members && k in minimal.members ==> k in w.members)
  {
  }

  lemma MembersAre(s: Node, v: Json, path: string, minimal: Json, c: Catalogue, w: Json)
    requires v.Obj? && w.Obj? && s.properties.Keys == v.members.Keys
    requires forall k :: k in v.members ==>
        s.properties[k] == SchemaFor(v.members[k], Child(path, k), SubMin(minimal, k), c)
    ensures ValidMembers(s, w.members) <==>
            && s.required <= w.members.Keys
            && (s.closed ==> w.members.Keys <= v.members.Keys)
            && forall k :: k in v.members && k in w.members ==>
                 Valid(SchemaFor(v.members[k], Child(path, k), SubMin(minimal, k), c), w.members[k])
  {
    hide Valid, SchemaFor, Child, SubMin;
  }

  lemma ValidObject(s: Node, w: Json)
    requires s.types == {TObject} && s.enum == None && s.fixed == None
    ensures Valid(s, w) <==> w.Obj? && ValidMembers(s, w.members)
  {
    hide ValidMembers;
  }

  // The schema of an object, keyword by keyword.
  lemma ShapedObject(v: Json, path: string, minimal: Json, c: Catalogue)
    requires v.Obj?
    ensures var s := Shaped(v, path, minimal, c);
      && s.types == {TObject} && s.enum == None && s.fixed == None && s.closed == !LeftOpen(path, c)
      && s.properties.Keys == v.members.Keys
      && (forall k :: k in v.members ==>
          s.properties[k] == SchemaFor(v.members[k], Child(path, k), SubMin(minimal, k), c))
      && (forall k :: k in s.required <==> k in v.members && minimal.Obj? && k in minimal.members)
  {
    hide Declare, SchemaFor, Child, SubMin, LeftOpen;
  }

  lemma ArrayAccepts(v: Json, path: string, minimal: Json, c: Catalogue, w: Json)
    requires v.Arr?
    ensures Valid(Shaped(v, path, minimal, c), w) <==>
            w.Arr? && (v.items != [] ==> forall i :: 0 <= i < |w.items| ==>
                         Valid(SchemaFor(v.items[0], path + "[]", FirstMin(minimal), c), w.items[i]))
  {
    hide Declare, SchemaFor, FirstMin;
  }

  lemma ScalarAccepts(v: Json, path: string, minimal: Json, c: Catalogue, w: Json)
    requires !v.Obj? && !v.Arr?
    ensures Valid(Shaped(v, path, minimal, c), w) <==> KindOf(w) == Expected(v)
  {
  }

  // Main result: a generated schema accepts exactly the payloads that do all three.
  lemma {:induction false} SchemaAccepts(v: Json, path: string, minimal: Json, c: Catalogue, w: Json)
    ensures Valid(SchemaFor(v, path, minimal, c), w) <==>
            Within(v, w, path, c) && Carries(v, minimal, w) && Worded(v, w, path, c)
    decreases v, 1
  {
    hide *;
    if v.Obj? {
      ObjectSchema(v, path, minimal, c, w);
    } else if v.Arr? {
      ArraySchema(v, path, minimal, c, w);
    } else {
      ScalarSchema(v, path, minimal, c, w);
    }
  }

  lemma ScalarSchema(v: Json, path: string, minimal: Json, c: Catalogue, w: Json)
    requires !v.Obj? && !v.Arr?
    ensures Valid(SchemaFor(v, path, minimal, c), w) <==>
            Within(v, w, path, c) && Carries(v, minimal, w) && Worded(v, w, path, c)
  {
    DeclareAccepts(Shaped(v, path, minimal, c), Expected(v), c.At(path), w);
    hide Valid, Declare, Shaped, Speaks;
    ScalarAccepts(v, path, minimal, c, w);
  }

  lemma {:induction false} ObjectSchema(v: Json, path: string, minimal: Json, c: Catalogue, w: Json)
    requires v.Obj?
    ensures Valid(SchemaFor(v, path, minimal, c), w) <==>
            Within(v, w, path, c) && Carries(v, minimal, w) && Worded(v, w, path, c)
    decreases v, 0, 1
  {
    DeclareAccepts(Shaped(v, path, minimal, c), TObject, c.At(path), w);
    hide Valid, Declare, Shaped, Speaks, Child, SubMin, LeftOpen;
    ObjectAccepts(v, path, minimal, c, w);
    if w.Obj? { MembersAccept(v, path, minimal, c, w); }
  }

  lemma {:induction false} ArraySchema(v: Json, path: string, minimal: Json, c: Catalogue, w: Json)
    requires v.Arr?
    ensures Valid(SchemaFor(v, path, minimal, c), w) <==>
            Within(v, w, path, c) && Carries(v, minimal, w) && Worded(v, w, path, c)
    decreases v, 0, 1
  {
    DeclareAccepts(Shaped(v, path, minimal, c), TArray, c.At(path), w);
    hide Valid, Declare, Shaped, Speaks, FirstMin;
    ArrayAccepts(v, path, minimal, c, w);
    if w.Arr? { ItemsAccept(v, path, minimal, c, w); }
  }

  lemma {:induction false} MembersAccept(v: Json, path: string, minimal: Json, c: Catalogue, w: Json)
    requires v.Obj? && w.Obj?
    ensures forall k :: k in v.members && k in w.members ==>
              (Valid(SchemaFor(v.members[k], Child(path, k), SubMin(minimal, k), c), w.members[k]) <==>
               && Within(v.members[k], w.members[k], Child(path, k), c)
               && Carries(v.members[k], SubMin(minimal, k), w.members[k])
               && Worded(v.members[k], w.members[k], Child(path, k), c))
    decreases v, 0, 0
  {
    hide *;
    forall k | k in v.members && k in w.members
      ensures Valid(SchemaFor(v.members[k], Child(path, k), SubMin(minimal, k), c), w.members[k]) <==>
              && Within(v.members[k], w.members[k], Child(path, k), c)
              && Carries(v.members[k], SubMin(minimal, k), w.members[k])
              && Worded(v.members[k], w.members[k], Child(path, k), c)
    {
      SchemaAccepts(v.members[k], Child(path, k), SubMin(minimal, k), c, w.members[k]);
    }
  }

  lemma {:induction false} ItemsAccept(v: Json, path: string, minimal: Json, c: Catalogue, w: Json)
    requires v.Arr? && w.Arr?
    ensures v.items != [] ==> forall i :: 0 <= i < |w.items| ==>
              (Valid(SchemaFor(v.items[0], path + "[]", FirstMin(minimal), c), w.items[i]) <==>
               && Within(v.items[0], w.items[i], path + "[]", c)
               && Carries(v.items[0], FirstMin(minimal), w.items[i])
               && Worded(v.items[0], w.items[i], path + "[]", c))
    decreases v, 0, 0
  {
    hide *;
    if v.items != [] {
      forall i | 0 <= i < |w.items|
        ensures Valid(SchemaFor(v.items[0], path + "[]", FirstMin(minimal), c), w.items[i]) <==>
                && Within(v.items[0], w.items[i], path + "[]", c)
                && Carries(v.items[0], FirstMin(minimal), w.items[i])
                && Worded(v.items[0], w.items[i], path + "[]", c)
      {
        SchemaAccepts(v.items[0], path + "[]", FirstMin(minimal), c, w.items[i]);
      }
    }
  }

  // ---- The two example payloads ----

  // Null-free, with the same keys and types at every level, across all elements of arrays. A payload
  // has the shape of itself exactly when it is null-free and its arrays are uniformly shaped.
  ghost predicate SameShape(v: Json, w: Json)
    decreases v
  {
    && KindOf(v) == KindOf(w) != TNull
    && (v.Obj? ==> v.members.Keys == w.members.Keys &&
                   forall k :: k in v.members ==> SameShape(v.members[k], w.members[k]))
    && (v.Arr? ==> forall i, j :: 0 <= i < |v.items| && 0 <= j < |w.items| ==> SameShape(v.items[i], w.items[j]))
  }

  // A smaller payload fits a larger one: its keys and types are a subset at every level.
  ghost predicate Fits(v: Json, w: Json)
    decreases v
  {
    && KindOf(v) == KindOf(w)
    && (v.Obj? ==> w.members.Keys <= v.members.Keys &&
                   forall k :: k in w.members ==> Fits(v.members[k], w.members[k]))
    && (v.Arr? && v.items != [] ==> forall i :: 0 <= i < |w.items| ==> Fits(v.items[0], w.items[i]))
  }

  lemma {:induction false} ShapeFits(v: Json, w: Json)
    requires SameShape(v, w)
    ensures Fits(v, w)
    decreases v
  {
    if v.Obj? {
      forall k | k in w.members ensures Fits(v.members[k], w.members[k]) { ShapeFits(v.members[k], w.members[k]); }
    } else if v.Arr? && v.items != [] {
      forall i | 0 <= i < |w.items| ensures Fits(v.items[0], w.items[i]) { ShapeFits(v.items[0], w.items[i]); }
    }
  }

  lemma {:induction false} FitsWithin(v: Json, w: Json, path: string, c: Catalogue)
    requires Fits(v, w) && SameShape(v, v)
    ensures Within(v, w, path, c)
    decreases v
  {
    if v.Obj? {
      forall k | k in v.members && k in w.members ensures Within(v.members[k], w.members[k], Child(path, k), c) {
        FitsWithin(v.members[k], w.members[k], Child(path, k), c);
      }
    } else if v.Arr? && v.items != [] {
      forall i | 0 <= i < |w.items| ensures Within(v.items[0], w.items[i], path + "[]", c) {
        FitsWithin(v.items[0], w.items[i], path + "[]", c);
      }
    }
  }

  // Whatever minimal payload is asked for, a payload of the maximal shape carries it.
  lemma {:induction false} ShapeCarries(v: Json, minimal: Json, w: Json)
    requires SameShape(v, w)
    ensures Carries(v, minimal, w)
    decreases v
  {
    if v.Obj? {
      forall k | k in v.members && k in w.members ensures Carries(v.members[k], SubMin(minimal, k), w.members[k]) {
        ShapeCarries(v.members[k], SubMin(minimal, k), w.members[k]);
      }
    } else if v.Arr? && v.items != [] {
      forall i | 0 <= i < |w.items| ensures Carries(v.items[0], FirstMin(minimal), w.items[i]) {
        ShapeCarries(v.items[0], FirstMin(minimal), w.items[i]);
      }
    }
  }

  // Nothing is owed to an empty minimal payload.
  lemma {:induction false} EmptyOwesNothing(v: Json, w: Json)
    ensures Carries(v, EMPTY, w)
    decreases v
  {
    if v.Obj? && w.Obj? {
      forall k | k in v.members && k in w.members ensures Carries(v.members[k], SubMin(EMPTY, k), w.members[k]) {
        EmptyOwesNothing(v.members[k], w.members[k]);
      }
    } else if v.Arr? && w.Arr? && v.items != [] {
      forall i | 0 <= i < |w.items| ensures Carries(v.items[0], FirstMin(EMPTY), w.items[i]) {
        EmptyOwesNothing(v.items[0], w.items[i]);
      }
    }
  }

  // A payload of the minimal shape carries the minimal payload, whatever the maximal one is.
  lemma {:induction false} MinimalCarries(v: Json, minimal: Json, w: Json)
    requires SameShape(minimal, w)
    ensures Carries(v, minimal, w)
    decreases v
  {
    if v.Obj? && w.Obj? {
      forall k | k in v.members && k in w.members ensures Carries(v.members[k], SubMin(minimal, k), w.members[k]) {
        MinimalCarries(v.members[k], minimal.members[k], w.members[k]);
      }
    } else if v.Arr? && w.Arr? && v.items != [] {
      forall i | 0 <= i < |w.items| ensures Carries(v.items[0], FirstMin(minimal), w.items[i]) {
        if minimal.items == [] {
          EmptyOwesNothing(v.items[0], w.items[i]);
        } else {
          MinimalCarries(v.items[0], minimal.items[0], w.items[i]);
        }
      }
    }
  }

  // Main result: of a null-free maximal payload with uniformly shaped arrays and a minimal payload that
  // fits it, the schema accepts each exactly when its strings use their declared vocabularies.
  lemma BothAccepted(maximal: Json, minimal: Json, c: Catalogue)
    requires SameShape(maximal, maximal) && SameShape(minimal, minimal) && Fits(maximal, minimal)
    ensures Valid(SchemaFor(maximal, "", minimal, c), maximal) <==> Worded(maximal, maximal, "", c)
    ensures Valid(SchemaFor(maximal, "", minimal, c), minimal) <==> Worded(maximal, minimal, "", c)
  {
    hide *;
    SchemaAccepts(maximal, "", minimal, c, maximal);
    SchemaAccepts(maximal, "", minimal, c, minimal);
    ShapeFits(maximal, maximal);
    FitsWithin(maximal, maximal, "", c);
    FitsWithin(maximal, minimal, "", c);
    ShapeCarries(maximal, minimal, maximal);
    MinimalCarries(maximal, minimal, minimal);
  }

  // Outside the telemetry plane there are no vocabularies, and both are accepted outright.
  lemma {:induction false} NothingDeclared(v: Json, w: Json, path: string, c: Catalogue)
    requires c.plane != D2C
    ensures Worded(v, w, path, c)
    decreases v
  {
    if v.Obj? && w.Obj? {
      forall k | k in v.members && k in w.members ensures Worded(v.members[k], w.members[k], Child(path, k), c) {
        NothingDeclared(v.members[k], w.members[k], Child(path, k), c);
      }
    } else if v.Arr? && w.Arr? && v.items != [] {
      forall i | 0 <= i < |w.items| ensures Worded(v.items[0], w.items[i], path + "[]", c) {
        NothingDeclared(v.items[0], w.items[i], path + "[]", c);
      }
    }
  }

  // A null in the maximal payload is described as a string: its own schema rejects it unless the
  // catalogue declares null.
  lemma NullNeedsDeclaring(path: string, minimal: Json, c: Catalogue)
    ensures Valid(SchemaFor(Null, path, minimal, c), Null) <==> c.At(path).Some? && c.At(path).value.nullable
  {
    SchemaAccepts(Null, path, minimal, c, Null);
  }

  // A key the maximal payload does not have is refused at every level.
  lemma ForeignKeyRejected(v: Json, path: string, minimal: Json, c: Catalogue, w: Json, k: string)
    requires v.Obj? && w.Obj? && k in w.members && k !in v.members && !LeftOpen(path, c)
    ensures !Valid(SchemaFor(v, path, minimal, c), w)
  {
    SchemaAccepts(v, path, minimal, c, w);
    assert !(w.members.Keys <= v.members.Keys) by { assert k in w.members.Keys; }
  }

  // One step into a payload: a member's value, or an element of a list.
  datatype Step = Key(k: string) | Item(i: nat)

  // The value some steps lead to; the examples describe a list by its first element.
  function Reach(w: Json, steps: seq<Step>, example: bool): Option<Json>
    decreases |steps|
  {
    if steps == [] then Some(w)
    else
      match steps[0]
      case Key(k) => if w.Obj? && k in w.members then Reach(w.members[k], steps[1..], example) else None
      case Item(i) =>
        var j := if example then 0 else i;
        if w.Arr? && j < |w.items| then Reach(w.items[j], steps[1..], example) else None
  }

  // The field catalogue's name for a place: keys joined by dots, a list's elements by brackets.
  function Named(path: string, steps: seq<Step>): string
    decreases |steps|
  {
    if steps == [] then path
    else if steps[0].Item? then Named(path + "[]", steps[1..])
    else Named(if path == "" then steps[0].k else path + "." + steps[0].k, steps[1..])
  }

  lemma {:induction false} WithinDown(v: Json, w: Json, path: string, c: Catalogue, steps: seq<Step>)
    requires Within(v, w, path, c) && Reach(v, steps, true).Some? && Reach(w, steps, false).Some?
    ensures Within(Reach(v, steps, true).value, Reach(w, steps, false).value, Named(path, steps), c)
    decreases |steps|
  {
    if steps != [] {
      match steps[0]
      case Key(k) => WithinDown(v.members[k], w.members[k], Child(path, k), c, steps[1..]);
      case Item(i) => WithinDown(v.items[0], w.items[i], path + "[]", c, steps[1..]);
    }
  }

  lemma {:induction false} WordedDown(v: Json, w: Json, path: string, c: Catalogue, steps: seq<Step>)
    requires Worded(v, w, path, c) && Reach(v, steps, true).Some? && Reach(w, steps, false).Some?
    ensures Worded(Reach(v, steps, true).value, Reach(w, steps, false).value, Named(path, steps), c)
    decreases |steps|
  {
    if steps != [] {
      match steps[0]
      case Key(k) => WordedDown(v.members[k], w.members[k], Child(path, k), c, steps[1..]);
      case Item(i) => WordedDown(v.items[0], w.items[i], path + "[]", c, steps[1..]);
    }
  }

  lemma {:induction false} CarriesDown(v: Json, minimal: Json, w: Json, steps: seq<Step>)
    requires Carries(v, minimal, w) && Reach(v, steps, true).Some? && Reach(w, steps, false).Some?
    requires Reach(minimal, steps, true).Some? && Reach(minimal, steps, true).value != Null
    ensures Carries(Reach(v, steps, true).value, Reach(minimal, steps, true).value, Reach(w, steps, false).value)
    decreases |steps|
  {
    if steps != [] {
      match steps[0]
      case Key(k) => CarriesDown(v.members[k], minimal.members[k], w.members[k], steps[1..]);
      case Item(i) => CarriesDown(v.items[0], minimal.items[0], w.items[i], steps[1..]);
    }
  }

  predicate NullHere(c: Catalogue, name: string) {
    c.plane == D2C && c.field(name).Some? && c.field(name).value.nullable
  }

  // An accepted payload, place by place: its type there, no key the maximal payload does not have there
  // (the open command payload aside), every key the minimal payload has there, and the vocabulary declared
  // for the place's name.
  lemma AcceptedAt(maximal: Json, minimal: Json, c: Catalogue, w: Json, steps: seq<Step>)
    requires Valid(SchemaFor(maximal, "", minimal, c), w)
    requires Reach(maximal, steps, true).Some? && Reach(w, steps, false).Some?
    ensures var (v, x, name) := (Reach(maximal, steps, true).value, Reach(w, steps, false).value, Named("", steps));
      && (!v.Null? ==> KindOf(x) == KindOf(v) || (x.Null? && NullHere(c, name)))
      && (v.Obj? ==> x.Obj? && forall k <- x.members :: k in v.members || (name == "payload" && c.plane == C2D))
      && (v.Obj? && Reach(minimal, steps, true).Some? && Reach(minimal, steps, true).value.Obj? ==>
            forall k <- Reach(minimal, steps, true).value.members :: k in v.members ==> k in x.members)
      && (v.Str? && x.Str? && c.plane == D2C && c.field(name).Some? && !c.field(name).value.nullable ==>
            match c.field(name).value.words
            case Free => true
            case Members(of) => x.text in of
            case Literal(t) => x.text == t)
  {
    SchemaAccepts(maximal, "", minimal, c, w);
    WithinDown(maximal, w, "", c, steps);
    WordedDown(maximal, w, "", c, steps);
    var (v, x) := (Reach(maximal, steps, true).value, Reach(w, steps, false).value);
    var m := Reach(minimal, steps, true);
    if m.Some? && m.value.Obj? { CarriesDown(maximal, minimal, w, steps); }
    hide Valid, SchemaFor, Reach, Named;
    if v.Obj? {
      assert x.Obj?;
      forall k | k in x.members ensures k in v.members || LeftOpen(Named("", steps), c) {
        assert k in x.members.Keys;
      }
    }
  }

  // In the open command payload a foreign key changes nothing, whatever it holds.
  lemma OpenPayload(v: Json, minimal: Json, c: Catalogue, w: Json, k: string, x: Json)
    requires v.Obj? && w.Obj? && k !in v.members && c.plane == C2D
    ensures Valid(SchemaFor(v, "payload", minimal, c), Obj(w.members[k := x])) <==>
            Valid(SchemaFor(v, "payload", minimal, c), w)
  {
    hide Worded, Valid, SchemaFor;
    var w' := Obj(w.members[k := x]);
    SchemaAccepts(v, "payload", minimal, c, w);
    SchemaAccepts(v, "payload", minimal, c, w');
    NothingDeclared(v, w, "payload", c);
    NothingDeclared(v, w', "payload", c);
  }

  // ---- The edits made to a generated schema ----

  // The subschema a dotted path leads to through `properties`, and the value there.
  function Lead(s: Node, segs: seq<string>): Option<Node>
    decreases |segs|
  {
    if segs == [] then Some(s)
    else if segs[0] in s.properties then Lead(s.properties[segs[0]], segs[1..])
    else None
  }

  function ValueAt(w: Json, segs: seq<string>): Option<Json>
    decreases |segs|
  {
    if segs == [] then Some(w)
    else if w.Obj? && segs[0] in w.members then ValueAt(w.members[segs[0]], segs[1..])
    else None
  }

  // Write another subschema at a path that is there.
  function Put(s: Node, segs: seq<string>, t: Node): Node
    requires Lead(s, segs).Some?
    decreases |segs|
  {
    if segs == [] then t
    else s.(properties := s.properties[segs[0] := Put(s.properties[segs[0]], segs[1..], t)])
  }

  // Giving one property another subschema: a payload that was accepted still is exactly when the new
  // subschema accepts its value there, if it has one.
  lemma PropertyAccepts(s: Node, k: string, t: Node, w: Json)
    requires Valid(s, w)
    ensures Valid(s.(properties := s.properties[k := t]), w) <==>
            (w.Obj? && k in w.members ==> Valid(t, w.members[k]))
  {
    var s' := s.(properties := s.properties[k := t]);
    if w.Obj? {
      assert Valid(s, w) <==> ValidMembers(s, w.members) && (s.types == {} || TObject in s.types)
                              && (s.enum.Some? ==> w in s.enum.value) && (s.fixed.Some? ==> w == s.fixed.value);
      assert ValidMembers(s, w.members);
      assert s'.properties.Keys == s.properties.Keys + {k};
      assert s'.properties[k] == t;
      assert ValidMembers(s', w.members) <==> (k in w.members ==> Valid(t, w.members[k]));
    }
  }

  // The same at the end of a path.
  lemma {:induction false} PutAccepts(s: Node, segs: seq<string>, t: Node, w: Json)
    requires Lead(s, segs).Some? && Valid(s, w)
    ensures Valid(Put(s, segs, t), w) <==> (ValueAt(w, segs).Some? ==> Valid(t, ValueAt(w, segs).value))
    decreases |segs|
  {
    if segs != [] {
      var k := segs[0];
      PropertyAccepts(s, k, Put(s.properties[k], segs[1..], t), w);
      if w.Obj? && k in w.members {
        PutAccepts(s.properties[k], segs[1..], t, w.members[k]);
      }
    }
  }

  // `body["properties"]["data"]["required"] = list(...)`.
  function DataRequired(s: Node, req: Option<set<string>>): Node {
    if req.Some? && "data" in s.properties
    then s.(properties := s.properties["data" := s.properties["data"].(required := req.value)])
    else s
  }

  function Narrow(s: Node, segs: seq<string>, words: set<string>): Node {
    var at := Lead(s, segs);
    if at == None then s else Put(s, segs, at.value.(enum := Some(Strings(words))))
  }

  // The discriminator: an absent `type` property is created.
  function TypeFixed(s: Node, t: Option<string>): Node {
    if t == None then s
    else
      var at := if "type" in s.properties then s.properties["type"] else FREE;
      s.(properties := s.properties["type" := at.(fixed := Some(Str(t.value)), enum := None)])
  }

  type Overrides = seq<(seq<string>, set<string>)>

  datatype Spec = Spec(dataRequired: Option<set<string>>, overrides: Overrides, literal: Option<string>)

  function NarrowAll(s: Node, overrides: Overrides): Node
    decreases |overrides|
  {
    if overrides == [] then s
    else
      var last := overrides[|overrides| - 1];
      Narrow(NarrowAll(s, overrides[..|overrides| - 1]), last.0, last.1)
  }

  function Edited(s: Node, spec: Spec): Node {
    TypeFixed(NarrowAll(DataRequired(s, spec.dataRequired), spec.overrides), spec.literal)
  }

  // The edits of one schema, in the order they are made.
  method BuildSchema(maximal: Json, minimal: Json, c: Catalogue, spec: Spec) returns (body: Node)
    ensures body == Edited(SchemaFor(maximal, "", minimal, c), spec)
  {
    hide SchemaFor, NarrowAll;
    body := SchemaFor(maximal, "", minimal, c);
    if spec.dataRequired.Some? && "data" in body.properties {
      var data := body.properties["data"];
      body := body.(properties := body.properties["data" := data.(required := spec.dataRequired.value)]);
    }
    body := NarrowEach(body, spec.overrides);
    if spec.literal.Some? {
      var tnode := if "type" in body.properties then body.properties["type"] else FREE;
      body := body.(properties := body.properties["type" := tnode.(fixed := Some(Str(spec.literal.value)),
          enum := None)]);
    }
  }

  method NarrowEach(s: Node, overrides: Overrides) returns (body: Node)
    ensures body == NarrowAll(s, overrides)
  {
    hide Narrow;
    body := s;
    for i := 0 to |overrides|
      invariant body == NarrowAll(s, overrides[..i])
    {
      assert overrides[..i + 1][..i] == overrides[..i];
      body := Narrow(body, overrides[i].0, overrides[i].1);
    }
    assert overrides[..|overrides|] == overrides;
  }

  // ---- What each edit asks ----

  ghost predicate HasRequired(w: Json, req: Option<set<string>>) {
    req.Some? && w.Obj? && "data" in w.members && w.members["data"].Obj? ==>
      req.value <= w.members["data"].members.Keys
  }

  ghost predicate Spoken(w: Json, segs: seq<string>, words: set<string>) {
    var at := ValueAt(w, segs);
    at.Some? ==> at.value.Str? && at.value.text in words
  }

  ghost predicate TypeIs(w: Json, t: Option<string>) {
    t.Some? && w.Obj? && "type" in w.members ==> w.members["type"] == Str(t.value)
  }

  // The union families: the keys asked for in `data` replace the derived ones.
  lemma DataRequiredAccepts(s: Node, req: Option<set<string>>, w: Json)
    requires Valid(s, w) && (s.closed || "data" in s.properties)
    ensures Valid(DataRequired(s, req), w) <==> HasRequired(w, req)
  {
    if req.Some? && "data" in s.properties {
      var data := s.properties["data"];
      PropertyAccepts(s, "data", data.(required := req.value), w);
      if w.Obj? && "data" in w.members {
        RequiredAccepts(data, req.value, w.members["data"]);
      }
    }
  }

  lemma RequiredAccepts(s: Node, req: set<string>, w: Json)
    requires Valid(s, w)
    ensures Valid(s.(required := req), w) <==> (w.Obj? ==> req <= w.members.Keys)
  {
  }

  // A narrowed vocabulary: exactly the values the message type can carry there.
  lemma NarrowAccepts(s: Node, segs: seq<string>, words: set<string>, w: Json)
    requires Valid(s, w) && Lead(s, segs).Some?
    ensures Valid(Narrow(s, segs, words), w) <==> Spoken(w, segs, words)
  {
    var at := Lead(s, segs).value;
    var t := at.(enum := Some(Strings(words)));
    PutAccepts(s, segs, t, w);
    if ValueAt(w, segs).Some? {
      var x := ValueAt(w, segs).value;
      LeadAccepts(s, segs, w);
      EnumAccepts(at, Strings(words), x);
      assert x in Strings(words) <==> x.Str? && x.text in words;
    }
  }

  lemma EnumAccepts(s: Node, words: set<Json>, w: Json)
    requires Valid(s, w)
    ensures Valid(s.(enum := Some(words)), w) <==> w in words
  {
  }

  lemma {:induction false} LeadAccepts(s: Node, segs: seq<string>, w: Json)
    requires Valid(s, w) && Lead(s, segs).Some? && ValueAt(w, segs).Some?
    ensures Valid(Lead(s, segs).value, ValueAt(w, segs).value)
    decreases |segs|
  {
    if segs != [] {
      LeadAccepts(s.properties[segs[0]], segs[1..], w.members[segs[0]]);
    }
  }

  // The discriminator becomes exactly the message type's literal.
  lemma TypeAccepts(s: Node, t: Option<string>, w: Json)
    requires Valid(s, w)
    ensures Valid(TypeFixed(s, t), w) <==> TypeIs(w, t)
  {
    if t.Some? {
      var at := if "type" in s.properties then s.properties["type"] else FREE;
      PropertyAccepts(s, "type", at.(fixed := Some(Str(t.value)), enum := None), w);
      if w.Obj? && "type" in w.members && w.members["type"] == Str(t.value) && "type" in s.properties {
        assert Valid(at, w.members["type"]);
      }
    }
  }

  // Writing a subschema with the same properties changes no other subschema's own keywords.
  lemma {:induction false} LeadPut(s: Node, p: seq<string>, t: Node, q: seq<string>)
    requires Lead(s, p).Some? && t.properties == Lead(s, p).value.properties
    ensures Lead(Put(s, p, t), q).Some? <==> Lead(s, q).Some?
    ensures Lead(s, q).Some? ==> if q == p then Lead(Put(s, p, t), q).value == t
                                 else SameKeywords(Lead(Put(s, p, t), q).value, Lead(s, q).value)
    decreases |p|
  {
    if p == [] {
      if q != [] { assert Lead(t, q) == Lead(s, q); }
    } else if q != [] && q[0] == p[0] {
      var k := p[0];
      LeadPut(s.properties[k], p[1..], t, q[1..]);
      assert q == p <==> q[1..] == p[1..] by {
        if q[1..] == p[1..] { assert q == [k] + q[1..] && p == [k] + p[1..]; }
      }
    }
  }

  predicate SameKeywords(a: Node, b: Node) {
    a.enum == b.enum && a.required == b.required && a.fixed == b.fixed
  }

  lemma LeadNarrow(s: Node, p: seq<string>, words: set<string>, q: seq<string>)
    ensures Lead(Narrow(s, p, words), q).Some? <==> Lead(s, q).Some?
    ensures Lead(s, q).Some? ==> if q == p then Lead(Narrow(s, p, words), q).value.enum == Some(Strings(words)) &&
                                               Lead(Narrow(s, p, words), q).value.required == Lead(s, q).value.required
                                 else SameKeywords(Lead(Narrow(s, p, words), q).value, Lead(s, q).value)
  {
    if Lead(s, p).Some? {
      LeadPut(s, p, Lead(s, p).value.(enum := Some(Strings(words))), q);
    }
  }

  // As the keys of a dictionary: distinct, and none the empty path.
  ghost predicate Keyed(ov: Overrides) {
    && (forall i :: 0 <= i < |ov| ==> ov[i].0 != [])
    && (forall i, j :: 0 <= i < j < |ov| ==> ov[i].0 != ov[j].0)
  }

  lemma {:induction false} LeadNarrowAll(s: Node, ov: Overrides, q: seq<string>)
    requires Keyed(ov)
    ensures Lead(NarrowAll(s, ov), q).Some? <==> Lead(s, q).Some?
    ensures Lead(s, q).Some? ==> Lead(NarrowAll(s, ov), q).value.required == Lead(s, q).value.required
    ensures Lead(s, q).Some? ==> forall i :: 0 <= i < |ov| && ov[i].0 == q ==>
              Lead(NarrowAll(s, ov), q).value.enum == Some(Strings(ov[i].1))
    decreases |ov|
  {
    if ov != [] {
      var n := |ov| - 1;
      LeadNarrowAll(s, ov[..n], q);
      LeadNarrow(NarrowAll(s, ov[..n]), ov[n].0, ov[n].1, q);
      assert forall i :: 0 <= i < n ==> ov[..n][i] == ov[i];
    }
  }

  lemma LeadTypeFixed(s: Node, t: Option<string>, q: seq<string>)
    requires q != [] && Lead(s, q).Some?
    ensures Lead(TypeFixed(s, t), q).Some? && Lead(TypeFixed(s, t), q).value.required == Lead(s, q).value.required
    ensures t == None || q != ["type"] ==> Lead(TypeFixed(s, t), q).value.enum == Lead(s, q).value.enum
  {
    if t.Some? && q[0] == "type" {
      var (at, now) := (s.properties["type"], TypeFixed(s, t).properties["type"]);
      if q[1..] == [] {
        assert q == ["type"];
      } else {
        assert Lead(at, q[1..]) == Lead(now, q[1..]);
      }
    }
  }

  // ---- The type literal first ----

  // The narrowings the type literal drops.
  function Without(ov: Overrides, t: Option<string>): Overrides {
    if ov == [] then []
    else
      var n := |ov| - 1;
      Without(ov[..n], t) + if t.Some? && ov[n].0 == ["type"] then [] else [ov[n]]
  }

  lemma {:induction false} WithoutHas(ov: Overrides, t: Option<string>)
    ensures forall x <- Without(ov, t) :: x in ov && (t == None || x.0 != ["type"])
    decreases |ov|
  {
    if ov != [] {
      WithoutHas(ov[..|ov| - 1], t);
    }
  }

  // Fixing the type commutes with a narrowing elsewhere, and undoes one of the type.
  lemma TypeThenNarrow(s: Node, t: Option<string>, p: seq<string>, words: set<string>)
    requires t.Some? && p != []
    ensures TypeFixed(Narrow(s, p, words), t) ==
            if p == ["type"] then TypeFixed(s, t) else Narrow(TypeFixed(s, t), p, words)
  {
    var k := p[0];
    if k != "type" {
      assert p != ["type"];
      if k in s.properties && Lead(s.properties[k], p[1..]).Some? {
        var x := Lead(s, p).value.(enum := Some(Strings(words)));
        assert Put(s, p, x).properties == s.properties[k := Put(s.properties[k], p[1..], x)];
        assert TypeFixed(Narrow(s, p, words), t).properties == Narrow(TypeFixed(s, t), p, words).properties;
      }
    } else if p[1..] == [] {
      assert p == ["type"];
      if "type" in s.properties {
        NarrowType(s, t, words);
      }
    } else {
      NarrowBelowType(s, t, p, words);
    }
  }

  lemma NarrowType(s: Node, t: Option<string>, words: set<string>)
    requires t.Some? && "type" in s.properties
    ensures TypeFixed(Narrow(s, ["type"], words), t) == TypeFixed(s, t)
  {
    var at := s.properties["type"];
    assert ["type"][1..] == [] && Lead(s, ["type"]) == Some(at);
    var x := at.(enum := Some(Strings(words)));
    assert Put(at, [], x) == x;
    assert Narrow(s, ["type"], words) == s.(properties := s.properties["type" := x]);
    assert TypeFixed(Narrow(s, ["type"], words), t).properties == TypeFixed(s, t).properties;
  }

  lemma NarrowBelowType(s: Node, t: Option<string>, p: seq<string>, words: set<string>)
    requires t.Some? && |p| > 1 && p[0] == "type"
    ensures TypeFixed(Narrow(s, p, words), t) == Narrow(TypeFixed(s, t), p, words)
  {
    var at := if "type" in s.properties then s.properties["type"] else FREE;
    var now := at.(fixed := Some(Str(t.value)), enum := None);
    assert TypeFixed(s, t) == s.(properties := s.properties["type" := now]);
    assert Lead(now, p[1..]) == Lead(at, p[1..]);
    if Lead(at, p[1..]).Some? {
      assert "type" in s.properties;
      var x := Lead(at, p[1..]).value.(enum := Some(Strings(words)));
      assert Put(now, p[1..], x) == Put(at, p[1..], x).(fixed := Some(Str(t.value)), enum := None);
      assert TypeFixed(Narrow(s, p, words), t).properties == Narrow(TypeFixed(s, t), p, words).properties;
    }
  }

  lemma {:induction false} TypeFirst(s: Node, ov: Overrides, t: Option<string>)
    requires t.Some? && forall i :: 0 <= i < |ov| ==> ov[i].0 != []
    ensures TypeFixed(NarrowAll(s, ov), t) == NarrowAll(TypeFixed(s, t), Without(ov, t))
    decreases |ov|
  {
    hide TypeFixed, Narrow;
    if ov != [] {
      var n := |ov| - 1;
      TypeFirst(s, ov[..n], t);
      TypeThenNarrow(NarrowAll(s, ov[..n]), t, ov[n].0, ov[n].1);
      var before := Without(ov[..n], t);
      if ov[n].0 == ["type"] {
        assert Without(ov, t) == before + [] == before;
      } else {
        var rest := before + [ov[n]];
        assert Without(ov, t) == rest && rest[..|rest| - 1] == before && rest[|rest| - 1] == ov[n];
      }
    }
  }

  // ---- All edits together ----

  // With every narrowing met that finds its path, a payload that was accepted still is.
  lemma {:induction false} NarrowAllAccepts(s: Node, ov: Overrides, w: Json)
    requires Valid(s, w) && forall i :: 0 <= i < |ov| && Lead(s, ov[i].0).Some? ==> Spoken(w, ov[i].0, ov[i].1)
    ensures Valid(NarrowAll(s, ov), w)
    ensures forall q :: Lead(NarrowAll(s, ov), q).Some? <==> Lead(s, q).Some?
    decreases |ov|
  {
    if ov != [] {
      var n := |ov| - 1;
      var before := NarrowAll(s, ov[..n]);
      NarrowAllAccepts(s, ov[..n], w);
      if Lead(before, ov[n].0).Some? {
        NarrowAccepts(before, ov[n].0, ov[n].1, w);
      }
      forall q: seq<string> ensures Lead(NarrowAll(s, ov), q).Some? <==> Lead(s, q).Some? {
        LeadNarrow(before, ov[n].0, ov[n].1, q);
      }
    }
  }

  // Everything the edits of a schema ask: the data keys, the narrowed vocabularies where the schema has
  // the path (the type's own is dropped when the type is a literal), and the literal.
  ghost predicate MeetsEdits(s: Node, w: Json, spec: Spec) {
    && HasRequired(w, spec.dataRequired)
    && (forall i :: 0 <= i < |spec.overrides| && Asked(s, spec, i) ==>
        Spoken(w, spec.overrides[i].0, spec.overrides[i].1))
    && TypeIs(w, spec.literal)
  }

  predicate Asked(s: Node, spec: Spec, i: nat)
    requires i < |spec.overrides|
  {
    Lead(s, spec.overrides[i].0).Some? && !(spec.literal.Some? && spec.overrides[i].0 == ["type"])
  }

  lemma LeadDataRequired(s: Node, req: Option<set<string>>, q: seq<string>)
    ensures Lead(DataRequired(s, req), q).Some? <==> Lead(s, q).Some?
  {
    if req.Some? && "data" in s.properties && q != [] && q[0] == "data" && q[1..] != [] {
      assert Lead(s.properties["data"].(required := req.value), q[1..]) == Lead(s.properties["data"], q[1..]);
    }
  }

  lemma LeadTyped(s: Node, t: string, q: seq<string>)
    requires q != [] && q != ["type"] && Lead(TypeFixed(s, Some(t)), q).Some?
    ensures Lead(s, q).Some?
  {
    if q[0] == "type" {
      var at := if "type" in s.properties then s.properties["type"] else FREE;
      var now := TypeFixed(s, Some(t)).properties["type"];
      assert q[1..] == [] ==> q == ["type"];
      assert Lead(now, q[1..]) == Lead(at, q[1..]);
    }
  }

  // Met edits leave a payload accepted ...
  lemma EditsMet(s: Node, spec: Spec, w: Json)
    requires Valid(s, w) && (s.closed || "data" in s.properties) && Keyed(spec.overrides) && MeetsEdits(s, w, spec)
    ensures Valid(Edited(s, spec), w)
  {
    var (ov, t) := (spec.overrides, spec.literal);
    var s1 := DataRequired(s, spec.dataRequired);
    DataRequiredAccepts(s, spec.dataRequired, w);
    hide Valid, DataRequired, Spoken, NarrowAll;
    forall q: seq<string> ensures Lead(s1, q).Some? <==> Lead(s, q).Some? {
      LeadDataRequired(s, spec.dataRequired, q);
    }
    if t == None {
      NarrowAllAccepts(s1, ov, w);
    } else {
      TypeAccepts(s1, t, w);
      var s2 := TypeFixed(s1, t);
      TypeFirst(s1, ov, t);
      WithoutHas(ov, t);
      hide TypeFixed, Without;
      var rest := Without(ov, t);
      forall i | 0 <= i < |rest| && Lead(s2, rest[i].0).Some? ensures Spoken(w, rest[i].0, rest[i].1) {
        assert rest[i] in rest;
        var j :| 0 <= j < |ov| && ov[j] == rest[i];
        LeadTyped(s1, t.value, ov[j].0);
        assert Asked(s, spec, j);
      }
      NarrowAllAccepts(s2, rest, w);
    }
  }

  // ... and one that is accepted meets them.
  lemma EditsKept(s: Node, spec: Spec, w: Json)
    requires Valid(s, w) && s.closed && Keyed(spec.overrides) && Valid(Edited(s, spec), w)
    ensures MeetsEdits(s, w, spec)
  {
    var (ov, t) := (spec.overrides, spec.literal);
    var s1 := DataRequired(s, spec.dataRequired);
    var s2 := NarrowAll(s1, ov);
    var f := Edited(s, spec);
    assert f == TypeFixed(s2, t);
    TypeKept(s2, t, w);
    RequiredKept(s, spec, w);
    forall i | 0 <= i < |ov| && Asked(s, spec, i) ensures Spoken(w, ov[i].0, ov[i].1) {
      SpokenKept(s, spec, w, i);
    }
  }

  lemma TypeKept(s: Node, t: Option<string>, w: Json)
    requires Valid(TypeFixed(s, t), w)
    ensures TypeIs(w, t)
  {
    if t.Some? && w.Obj? && "type" in w.members {
      MemberValid(TypeFixed(s, t), w, "type");
    }
  }

  lemma MemberValid(s: Node, w: Json, k: string)
    requires Valid(s, w) && w.Obj? && k in w.members && k in s.properties
    ensures Valid(s.properties[k], w.members[k])
  {
  }

  lemma SpokenKept(s: Node, spec: Spec, w: Json, i: nat)
    requires i < |spec.overrides| && Keyed(spec.overrides) && Asked(s, spec, i) && Valid(Edited(s, spec), w)
    ensures Spoken(w, spec.overrides[i].0, spec.overrides[i].1)
  {
    var (ov, t) := (spec.overrides, spec.literal);
    var q := ov[i].0;
    var s1 := DataRequired(s, spec.dataRequired);
    LeadDataRequired(s, spec.dataRequired, q);
    LeadNarrowAll(s1, ov, q);
    LeadTypeFixed(NarrowAll(s1, ov), t, q);
    hide TypeFixed, NarrowAll, DataRequired, Lead;
    if ValueAt(w, q).Some? {
      LeadAccepts(Edited(s, spec), q, w);
      var x := ValueAt(w, q).value;
      assert x in Strings(ov[i].1);
    }
  }

  lemma RequiredKept(s: Node, spec: Spec, w: Json)
    requires Valid(s, w) && s.closed && Keyed(spec.overrides) && Valid(Edited(s, spec), w)
    ensures HasRequired(w, spec.dataRequired)
  {
    var (req, ov, t) := (spec.dataRequired, spec.overrides, spec.literal);
    if req.Some? && w.Obj? && "data" in w.members && w.members["data"].Obj? {
      assert "data" in w.members.Keys && "data" in s.properties;
      var s1 := DataRequired(s, req);
      assert ["data"][1..] == [] && Lead(s1, ["data"]) == Some(s1.properties["data"]);
      assert s1.properties["data"].required == req.value;
      LeadNarrowAll(s1, ov, ["data"]);
      LeadTypeFixed(NarrowAll(s1, ov), t, ["data"]);
      assert ValueAt(w, ["data"]) == Some(w.members["data"]) by {
        assert ValueAt(w.members["data"], []) == Some(w.members["data"]);
      }
      LeadAccepts(Edited(s, spec), ["data"], w);
    }
  }

  // Main result: of two examples that fit and use their declared vocabularies, the edited schema accepts
  // each exactly when it meets every edit.
  lemma BuiltAcceptsBoth(maximal: Json, minimal: Json, c: Catalogue, spec: Spec, w: Json)
    requires SameShape(maximal, maximal) && SameShape(minimal, minimal) && Fits(maximal, minimal)
    requires w == maximal || w == minimal
    requires maximal.Obj? && Worded(maximal, w, "", c) && Keyed(spec.overrides)
    ensures Valid(Edited(SchemaFor(maximal, "", minimal, c), spec), w) <==>
            MeetsEdits(SchemaFor(maximal, "", minimal, c), w, spec)
  {
    var s := SchemaFor(maximal, "", minimal, c);
    assert s.closed by { assert Shaped(maximal, "", minimal, c).closed; }
    hide Valid, SchemaFor, Worded, SameShape, Fits, Edited, MeetsEdits;
    BothAccepted(maximal, minimal, c);
    if MeetsEdits(s, w, spec) { EditsMet(s, spec, w); }
    if Valid(Edited(s, spec), w) { EditsKept(s, spec, w); }
  }
}
