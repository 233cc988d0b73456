/**
 * Inlining of local references in a JSON Schema: every `$ref` to a definition is
 * replaced by the definition, except where that would not end.
 */
module InlineRefs {
  import opened Basics

  type Defs = map<string, Json>

  const RESERVED := {"$schema", "$defs", "definitions"}

  function FieldsAt(root: Json, key: string): Defs {
    if root.Obj? && key in root.fields && root.fields[key].Obj? then root.fields[key].fields else map[]
  }

  /** Definitions of both spellings; `$defs` wins. */
  function DefsOf(root: Json): Defs {
    FieldsAt(root, "definitions") + FieldsAt(root, "$defs")
  }

  // ---- References ----

  predicate EndsLine(c: char) {
    c == '\n' || c == '\r' || c == '\U{2028}' || c == '\U{2029}'
  }

  /** What follows `prefix`, if it is one non-empty line. */
  function After(prefix: string, ref: string): Option<string> {
    if prefix < ref && (forall i :: |prefix| <= i < |ref| ==> !EndsLine(ref[i])) then Some(ref[|prefix|..]) else None
  }

  /** The name in a local reference. */
  function NameOf(ref: string): Option<string> {
    if After("#/$defs/", ref).Some? then After("#/$defs/", ref) else After("#/definitions/", ref)
  }

  /** A node's reference: none that matters here, one to the root, or one to a definition. */
  datatype Reference = Plain | ToRoot | ToDef(name: string)

  function ReferenceOf(defs: Defs, node: Json): (r: Reference)
    ensures r.ToDef? ==> r.name in defs
    ensures !r.Plain? ==> node.Obj? && "$ref" in node.fields
  {
    if !node.Obj? || "$ref" !in node.fields || !node.fields["$ref"].Str? then Plain
    else
      var ref := node.fields["$ref"].s;
      if ref == "#" then ToRoot
      else if NameOf(ref).Some? && NameOf(ref).value in defs then ToDef(NameOf(ref).value)
      else Plain
  }

  /** A string that `.+` matches whole: something, and on one line. */
  predicate OneLine(name: string) {
    name != "" && '\n' !in name && '\r' !in name && '\U{2028}' !in name && '\U{2029}' !in name
  }

  lemma AfterIs(prefix: string, ref: string, name: string)
    ensures After(prefix, ref) == Some(name) <==> ref == prefix + name && OneLine(name)
  {
    if ref == prefix + name {
      assert ref[|prefix|..] == name;
      assert forall i :: |prefix| <= i < |ref| ==> ref[i] == name[i - |prefix|];
      assert forall i :: 0 <= i < |name| ==> name[i] == ref[|prefix| + i];
    }
    if After(prefix, ref) == Some(name) {
      assert ref == ref[..|prefix|] + ref[|prefix|..];
    }
  }

  lemma NameIs(ref: string, name: string)
    ensures NameOf(ref) == Some(name) <==> OneLine(name) && (ref == "#/$defs/" + name || ref == "#/definitions/" + name)
  {
    AfterIs("#/$defs/", ref, name);
    AfterIs("#/definitions/", ref, name);
    if After("#/$defs/", ref).Some? {
      AfterIs("#/$defs/", ref, After("#/$defs/", ref).value);
      assert ref[2] == '$';
      assert ("#/definitions/" + name)[2] == 'd';
    }
  }

  /** Which strings are references, written out: `#`, and either spelling before a known name on one line. */
  lemma ReferenceIs(defs: Defs, fields: Defs, name: string)
    ensures ReferenceOf(defs, Obj(fields)) == ToRoot <==> "$ref" in fields && fields["$ref"] == Str("#")
    ensures ReferenceOf(defs, Obj(fields)) == ToDef(name) <==>
            && name in defs && OneLine(name) && "$ref" in fields
            && (fields["$ref"] == Str("#/$defs/" + name) || fields["$ref"] == Str("#/definitions/" + name))
  {
    if "$ref" in fields && fields["$ref"].Str? {
      var ref := fields["$ref"].s;
      NameIs(ref, name);
      if NameOf(ref).Some? {
        NameIs(ref, NameOf(ref).value);
      }
    }
  }

  function Names(stack: seq<string>): set<string> {
    set name | name in stack
  }

  /** A reference that inlining must not follow again. */
  predicate Cyclic(defs: Defs, node: Json, stack: seq<string>) {
    var r := ReferenceOf(defs, node);
    r.ToRoot? || (r.ToDef? && r.name in stack)
  }

  // ---- Inlining ----

  /** Own enumerable properties, as object spread takes them. */
  function Spread(value: Json): Defs {
    match value
    case Obj(fields) => fields
    case Arr(items) => Numbered(items)
    case Str(s) => Numbered(seq(|s|, i requires 0 <= i < |s| => Str([s[i]])))
    case _ => map[]
  }

  function Numbered(items: seq<Json>): Defs {
    if items == [] then map[]
    else
      var last := |items| - 1;
      Numbered(items[..last])[Decimal(last) := items[last]]
  }

  /** The keys that are copied: all but the reserved ones, and not a reference that is replaced. */
  predicate Copied(key: string, replaced: bool) {
    key !in RESERVED && !(replaced && key == "$ref")
  }

  function Inlined(defs: Defs, node: Json, stack: seq<string>): Json
    decreases defs.Keys - Names(stack), node
  {
    match node
    case Arr(items) => Arr(seq(|items|, i requires 0 <= i < |items| => Inlined(defs, items[i], stack)))
    case Obj(fields) =>
      if Cyclic(defs, node, stack) then node
      else
        var r := ReferenceOf(defs, node);
        var out := map key | key in fields && Copied(key, r.ToDef?) :: Inlined(defs, fields[key], stack);
        if !r.ToDef? then Obj(out)
        else
          Smaller(defs, stack, r.name);
          var resolved := Inlined(defs, defs[r.name], stack + [r.name]);
          if fields.Keys == {"$ref"} then resolved else Obj(Spread(resolved) + out)
    case _ => node
  }

  lemma Smaller(defs: Defs, stack: seq<string>, name: string)
    requires name in defs && name !in stack
    ensures defs.Keys - Names(stack + [name]) < defs.Keys - Names(stack)
    ensures Names(stack + [name]) == Names(stack) + {name}
  {
    assert name in defs.Keys - Names(stack) && name !in defs.Keys - Names(stack + [name]);
  }

  /** Whether inlining leaves a reference where it is because it is cyclic. */
  predicate Recurs(defs: Defs, node: Json, stack: seq<string>)
    decreases defs.Keys - Names(stack), node
  {
    match node
    case Arr(items) => exists i :: 0 <= i < |items| && Recurs(defs, items[i], stack)
    case Obj(fields) =>
      Cyclic(defs, node, stack) ||
      var r := ReferenceOf(defs, node);
      (exists key :: key in fields && Copied(key, r.ToDef?) && Recurs(defs, fields[key], stack)) ||
      (r.ToDef? && (Smaller(defs, stack, r.name); Recurs(defs, defs[r.name], stack + [r.name])))
    case _ => false
  }

  datatype ModelSchema = ModelSchema(schema: Json, recursive: bool)

  /** A recursive schema keeps its definitions, under `$defs`. */
  function WithDefs(schema: Json, root: Json): Json {
    var fields := if root.Obj? then root.fields else map[];
    var kept :=
      if "$defs" in fields && fields["$defs"] != Null then Some(fields["$defs"])
      else if "definitions" in fields then Some(fields["definitions"])
      else None;
    Obj(Spread(schema) - {"$defs"} + (if kept.Some? then map["$defs" := kept.value] else map[]))
  }

  function InlineRefs(root: Json): ModelSchema {
    var defs := DefsOf(root);
    var schema := Inlined(defs, root, []);
    if Recurs(defs, root, []) then ModelSchema(WithDefs(schema, root), true) else ModelSchema(schema, false)
  }

  /** The visitor with its flag. */
  class Inliner {
    const defs: Defs
    var recursive: bool

    constructor (defs: Defs)
      ensures this.defs == defs && !recursive
    {
      this.defs, recursive := defs, false;
    }

    method VisitItems(node: Json, stack: seq<string>) returns (out: seq<Json>)
      requires node.Arr?
      modifies this
      ensures |out| == |node.items|
      ensures forall i :: 0 <= i < |out| ==> out[i] == Inlined(defs, node.items[i], stack)
      ensures recursive == (old(recursive) || exists i :: 0 <= i < |node.items| && Recurs(defs, node.items[i], stack))
      decreases defs.Keys - Names(stack), node, 0
    {
      var items := node.items;
      out := [];
      for i := 0 to |items|
        invariant |out| == i && forall j :: 0 <= j < i ==> out[j] == Inlined(defs, items[j], stack)
        invariant recursive == (old(recursive) || exists j :: 0 <= j < i && Recurs(defs, items[j], stack))
      {
        var item := Visit(items[i], stack);
        out := out + [item];
      }
    }

    /** The loop over an object's entries, in any order. */
    method VisitFields(node: Json, replaced: bool, stack: seq<string>) returns (out: Defs)
      requires node.Obj?
      modifies this
      ensures out == map key | key in node.fields && Copied(key, replaced) :: Inlined(defs, node.fields[key], stack)
      ensures recursive == (old(recursive) || exists key ::
        key in node.fields && Copied(key, replaced) && Recurs(defs, node.fields[key], stack))
      decreases defs.Keys - Names(stack), node, 0
    {
      var fields := node.fields;
      out := map[];
      var todo := fields.Keys;
      while todo != {}
        invariant todo <= fields.Keys
        invariant out == map key | key in fields && key !in todo && Copied(key, replaced) :: Inlined(defs, fields[key], stack)
        invariant recursive == (old(recursive) || exists key ::
          key in fields && key !in todo && Copied(key, replaced) && Recurs(defs, fields[key], stack))
        decreases todo
      {
        var key :| key in todo;
        todo := todo - {key};
        if !Copied(key, replaced) {
          continue;
        }
        var value := Visit(fields[key], stack);
        out := out[key := value];
      }
    }

    method Visit(node: Json, stack: seq<string>) returns (out: Json)
      modifies this
      ensures out == Inlined(defs, node, stack)
      ensures recursive == (old(recursive) || Recurs(defs, node, stack))
      decreases defs.Keys - Names(stack), node, 1
    {
      if node.Arr? {
        var items := VisitItems(node, stack);
        return Arr(items);
      }
      if !node.Obj? {
        return node;
      }
      var r := ReferenceOf(defs, node);
      if Cyclic(defs, node, stack) {
        recursive := true;
        return node;
      }
      if r.ToDef? {
        Smaller(defs, stack, r.name);
        var resolved := Visit(defs[r.name], stack + [r.name]);
        if node.fields.Keys == {"$ref"} {
          return resolved;
        }
        var rest := VisitFields(node, true, stack);
        return Obj(Spread(resolved) + rest);
      }
      var fields := VisitFields(node, false, stack);
      return Obj(fields);
    }
  }

  method Inline(root: Json) returns (result: ModelSchema)
    ensures result == InlineRefs(root)
  {
    var inliner := new Inliner(DefsOf(root));
    var schema := inliner.Visit(root, []);
    if !inliner.recursive {
      return ModelSchema(schema, false);
    }
    return ModelSchema(WithDefs(schema, root), true);
  }

  // ---- What is left ----

  /** Nothing in here that inlining would change: no reference to a definition or the root, and no reserved key. */
  predicate Clean(defs: Defs, value: Json) {
    match value
    case Arr(items) => forall i :: 0 <= i < |items| ==> Clean(defs, items[i])
    case Obj(fields) =>
      && ReferenceOf(defs, value).Plain? && fields.Keys !! RESERVED
      && forall key :: key in fields ==> Clean(defs, fields[key])
    case _ => true
  }

  /** What a chain of references that stand alone in their objects ends in. */
  function LoneEnd(defs: Defs, node: Json, stack: seq<string>): Json
    decreases defs.Keys - Names(stack)
  {
    var r := ReferenceOf(defs, node);
    if !r.ToDef? || r.name in stack || node.fields.Keys != {"$ref"} then node
    else
      Smaller(defs, stack, r.name);
      LoneEnd(defs, defs[r.name], stack + [r.name])
  }

  /** The `$ref` of a plain object is no reference, and does not become one: it does not end in a string that is one. */
  predicate StaysPlain(defs: Defs, fields: Defs, stack: seq<string>) {
    "$ref" in fields ==> ReferenceOf(defs, Obj(map["$ref" := LoneEnd(defs, fields["$ref"], stack)])).Plain?
  }

  /**
   * No object that the visitor copies becomes a reference. What the fields in
   * `over` hold does not matter: they are overridden where the copy ends up.
   */
  predicate Harmless(defs: Defs, node: Json, stack: seq<string>, over: set<string>)
    decreases defs.Keys - Names(stack), node
  {
    match node
    case Arr(items) => forall i :: 0 <= i < |items| && Decimal(i) !in over ==> Harmless(defs, items[i], stack, {})
    case Obj(fields) =>
      var r := ReferenceOf(defs, node);
      && (forall key :: key in fields && Copied(key, r.ToDef?) && key !in over ==> Harmless(defs, fields[key], stack, {}))
      && (r.Plain? ==> StaysPlain(defs, fields, stack))
      && (r.ToDef? && r.name !in stack ==>
            (Smaller(defs, stack, r.name); Harmless(defs, defs[r.name], stack + [r.name], over + Siblings(node))))
    case _ => true
  }

  /** The keys that stand beside a reference in its copy. */
  function Siblings(node: Json): set<string>
    requires node.Obj?
  {
    set key | key in node.fields && Copied(key, true)
  }

  lemma DecimalEndsInDigit(n: nat)
    ensures Decimal(n) != "" && '0' <= Decimal(n)[|Decimal(n)| - 1] <= '9'
  {
  }

  lemma {:induction false} NumberedKeys(items: seq<Json>)
    ensures forall key :: key in Numbered(items) ==>
              key != "" && '0' <= key[|key| - 1] <= '9' && exists i :: 0 <= i < |items| && Numbered(items)[key] == items[i]
  {
    if items != [] {
      var last := |items| - 1;
      NumberedKeys(items[..last]);
      DecimalEndsInDigit(last);
      forall key | key in Numbered(items)
        ensures key != "" && '0' <= key[|key| - 1] <= '9' && exists i :: 0 <= i < |items| && Numbered(items)[key] == items[i]
      {
        if key != Decimal(last) {
          var i :| 0 <= i < last && Numbered(items[..last])[key] == items[..last][i];
          assert Numbered(items)[key] == items[i];
        } else {
          assert Numbered(items)[key] == items[last];
        }
      }
    }
  }

  /** The keys and values of a numbered sequence. */
  lemma {:induction false} NumberedAre(items: seq<Json>)
    ensures forall i :: 0 <= i < |items| ==> Decimal(i) in Numbered(items) && Numbered(items)[Decimal(i)] == items[i]
    ensures forall key :: key in Numbered(items) ==> exists i :: 0 <= i < |items| && key == Decimal(i)
  {
    if items != [] {
      var last := |items| - 1;
      NumberedAre(items[..last]);
      forall i | 0 <= i < |items| ensures Decimal(i) in Numbered(items) && Numbered(items)[Decimal(i)] == items[i] {
        DecimalInjective(i, last);
        assert i < last ==> items[..last][i] == items[i];
      }
      forall key | key in Numbered(items) ensures exists i :: 0 <= i < |items| && key == Decimal(i) {
        if key == Decimal(last) {
          assert 0 <= last < |items|;
        }
      }
    }
  }

  lemma NotNumbered(items: seq<Json>, key: string)
    requires key in {"$ref", "$schema", "$defs", "definitions"}
    ensures key !in Numbered(items)
  {
    NumberedKeys(items);
  }

  /** Clean, but for the fields in `over`. */
  predicate CleanBut(defs: Defs, value: Json, over: set<string>) {
    match value
    case Arr(items) => forall i :: 0 <= i < |items| && Decimal(i) !in over ==> Clean(defs, items[i])
    case Obj(fields) =>
      && ReferenceOf(defs, value).Plain? && fields.Keys !! RESERVED
      && forall key :: key in fields && key !in over ==> Clean(defs, fields[key])
    case _ => true
  }

  lemma CleanButNothing(defs: Defs, value: Json)
    ensures CleanBut(defs, value, {}) <==> Clean(defs, value)
  {
  }

  /** What a value spreads into an object is clean but for some fields exactly when the value is. */
  lemma SpreadClean(defs: Defs, value: Json, over: set<string>)
    requires value.Obj? ==> ReferenceOf(defs, value).Plain? && value.fields.Keys !! RESERVED
    ensures CleanBut(defs, value, over) <==> forall key :: key in Spread(value) && key !in over ==> Clean(defs, Spread(value)[key])
  {
    if value.Arr? {
      NumberedAre(value.items);
    } else if value.Str? {
      var chars := seq(|value.s|, i requires 0 <= i < |value.s| => Str([value.s[i]]));
      NumberedAre(chars);
      assert forall i :: 0 <= i < |chars| ==> Clean(defs, chars[i]);
    }
  }

  lemma SpreadKeys(value: Json, key: string)
    requires key in {"$ref", "$schema", "$defs", "definitions"}
    ensures key in Spread(value) <==> value.Obj? && key in value.fields
  {
    if value.Arr? {
      NotNumbered(value.items, key);
    } else if value.Str? {
      NotNumbered(seq(|value.s|, i requires 0 <= i < |value.s| => Str([value.s[i]])), key);
    }
  }

  /** An inlined value is a string exactly when its chain of lone references ends in that string. */
  lemma {:induction false} InlinedString(defs: Defs, node: Json, stack: seq<string>)
    requires !Recurs(defs, node, stack)
    ensures Inlined(defs, node, stack).Str? <==> LoneEnd(defs, node, stack).Str?
    ensures Inlined(defs, node, stack).Str? ==> Inlined(defs, node, stack) == LoneEnd(defs, node, stack)
    decreases defs.Keys - Names(stack), node
  {
    var r := ReferenceOf(defs, node);
    if r.ToDef? {
      NoCycleInside(defs, node, stack);
      if node.fields.Keys == {"$ref"} {
        Smaller(defs, stack, r.name);
        InlinedString(defs, defs[r.name], stack + [r.name]);
      }
    }
  }

  /** Whether a plain object's copy is plain is decided by what its `$ref` ends in. */
  lemma CopyStaysPlain(defs: Defs, node: Json, stack: seq<string>)
    requires node.Obj? && ReferenceOf(defs, node).Plain? && !Recurs(defs, node, stack)
    ensures Inlined(defs, node, stack).Obj?
    ensures ReferenceOf(defs, Inlined(defs, node, stack)).Plain? <==> StaysPlain(defs, node.fields, stack)
  {
    InlinedObject(defs, node, stack);
    if "$ref" in node.fields {
      NoCycleInside(defs, node, stack);
      InlinedString(defs, node.fields["$ref"], stack);
    }
  }

  /** A reference's copy is its target's, with the copied siblings over it. */
  lemma MergedClean(defs: Defs, resolved: Json, rest: Defs, over: set<string>)
    requires "$ref" !in rest && rest.Keys !! RESERVED
    requires resolved.Obj? ==> resolved.fields.Keys !! RESERVED
    ensures CleanBut(defs, Obj(Spread(resolved) + rest), over) <==>
              CleanBut(defs, resolved, over + rest.Keys) && forall key :: key in rest && key !in over ==> Clean(defs, rest[key])
  {
    var merged := Obj(Spread(resolved) + rest);
    SpreadKeys(resolved, "$ref");
    SpreadKeys(resolved, "$schema");
    SpreadKeys(resolved, "$defs");
    SpreadKeys(resolved, "definitions");
    assert merged.fields.Keys !! RESERVED;
    assert "$ref" in Spread(resolved) ==> merged.fields["$ref"] == resolved.fields["$ref"];
    if resolved.Obj? ==> ReferenceOf(defs, resolved).Plain? {
      SpreadClean(defs, resolved, over + rest.Keys);
      MergedFields(defs, Spread(resolved), rest, over);
    }
  }

  lemma MergedFields(defs: Defs, under: Defs, rest: Defs, over: set<string>)
    ensures (forall key :: key in under + rest && key !in over ==> Clean(defs, (under + rest)[key])) <==>
              && (forall key :: key in under && key !in over + rest.Keys ==> Clean(defs, under[key]))
              && (forall key :: key in rest && key !in over ==> Clean(defs, rest[key]))
  {
    var all := under + rest;
    assert forall key :: key in rest ==> all[key] == rest[key];
    assert forall key :: key in under && key !in rest.Keys ==> all[key] == under[key];
  }

  /** No copy has a reserved key. */
  lemma {:induction false} NothingReserved(defs: Defs, node: Json, stack: seq<string>)
    requires !Recurs(defs, node, stack) && Inlined(defs, node, stack).Obj?
    ensures Inlined(defs, node, stack).fields.Keys !! RESERVED
    decreases defs.Keys - Names(stack)
  {
    var r := ReferenceOf(defs, node);
    NoCycleInside(defs, node, stack);
    if r.ToDef? {
      Smaller(defs, stack, r.name);
      var resolved := Inlined(defs, defs[r.name], stack + [r.name]);
      if resolved.Obj? {
        NothingReserved(defs, defs[r.name], stack + [r.name]);
      }
      SpreadKeys(resolved, "$schema");
      SpreadKeys(resolved, "$defs");
      SpreadKeys(resolved, "definitions");
    }
  }

  /** The copied fields of an object that are not overridden are clean exactly when they are harmless. */
  ghost predicate FieldsClean(defs: Defs, node: Json, stack: seq<string>, over: set<string>, replaced: bool)
    requires node.Obj?
  {
    forall key :: key in node.fields && Copied(key, replaced) && key !in over ==>
      (Clean(defs, Inlined(defs, node.fields[key], stack)) <==> Harmless(defs, node.fields[key], stack, {}))
  }

  lemma ListHarmless(defs: Defs, node: Json, stack: seq<string>, over: set<string>)
    requires node.Arr?
    requires forall i :: 0 <= i < |node.items| ==>
               (Clean(defs, Inlined(defs, node.items[i], stack)) <==> Harmless(defs, node.items[i], stack, {}))
    ensures CleanBut(defs, Inlined(defs, node, stack), over) <==> Harmless(defs, node, stack, over)
  {
  }

  lemma PlainHarmless(defs: Defs, node: Json, stack: seq<string>, over: set<string>)
    requires node.Obj? && ReferenceOf(defs, node).Plain? && !Recurs(defs, node, stack)
    requires FieldsClean(defs, node, stack, over, false)
    ensures CleanBut(defs, Inlined(defs, node, stack), over) <==> Harmless(defs, node, stack, over)
  {
    CopyStaysPlain(defs, node, stack);
    InlinedObject(defs, node, stack);
  }

  lemma ReferenceHarmless(defs: Defs, node: Json, stack: seq<string>, over: set<string>)
    requires node.Obj? && ReferenceOf(defs, node).ToDef? && !Recurs(defs, node, stack)
    requires FieldsClean(defs, node, stack, over, true)
    requires var name := ReferenceOf(defs, node).name;
             CleanBut(defs, Inlined(defs, defs[name], stack + [name]), over + Siblings(node))
             <==> Harmless(defs, defs[name], stack + [name], over + Siblings(node))
    ensures CleanBut(defs, Inlined(defs, node, stack), over) <==> Harmless(defs, node, stack, over)
  {
    var name := ReferenceOf(defs, node).name;
    NoCycleInside(defs, node, stack);
    Smaller(defs, stack, name);
    var resolved := Inlined(defs, defs[name], stack + [name]);
    var rest := map key | key in node.fields && Copied(key, true) :: Inlined(defs, node.fields[key], stack);
    assert rest.Keys == Siblings(node);
    if node.fields.Keys == {"$ref"} {
      assert over + Siblings(node) == over;
    } else {
      if resolved.Obj? {
        NothingReserved(defs, defs[name], stack + [name]);
      }
      MergedClean(defs, resolved, rest, over);
    }
  }

  lemma {:induction false} CleanExactly(defs: Defs, node: Json, stack: seq<string>, over: set<string>)
    requires !Recurs(defs, node, stack)
    ensures CleanBut(defs, Inlined(defs, node, stack), over) <==> Harmless(defs, node, stack, over)
    decreases defs.Keys - Names(stack), node
  {
    if node.Arr? {
      forall i | 0 <= i < |node.items|
        ensures Clean(defs, Inlined(defs, node.items[i], stack)) <==> Harmless(defs, node.items[i], stack, {})
      {
        CleanExactly(defs, node.items[i], stack, {});
        CleanButNothing(defs, Inlined(defs, node.items[i], stack));
      }
      ListHarmless(defs, node, stack, over);
    } else if node.Obj? {
      var r := ReferenceOf(defs, node);
      NoCycleInside(defs, node, stack);
      forall key | key in node.fields && Copied(key, r.ToDef?)
        ensures Clean(defs, Inlined(defs, node.fields[key], stack)) <==> Harmless(defs, node.fields[key], stack, {})
      {
        CleanExactly(defs, node.fields[key], stack, {});
        CleanButNothing(defs, Inlined(defs, node.fields[key], stack));
      }
      if r.Plain? {
        PlainHarmless(defs, node, stack, over);
      } else {
        Smaller(defs, stack, r.name);
        CleanExactly(defs, defs[r.name], stack + [r.name], over + Siblings(node));
        ReferenceHarmless(defs, node, stack, over);
      }
    }
  }

  /**
   * What is left to resolve: unless the schema is reported as recursive, the
   * result has no object that refers to a definition or to the root, and none with
   * a reserved key, if and only if the visitor copies no plain object whose `$ref`
   * ends in a string that is such a reference.
   */
  lemma NoReferenceLeft(defs: Defs, node: Json, stack: seq<string>)
    requires !Recurs(defs, node, stack)
    ensures Clean(defs, Inlined(defs, node, stack)) <==> Harmless(defs, node, stack, {})
  {
    CleanExactly(defs, node, stack, {});
    CleanButNothing(defs, Inlined(defs, node, stack));
  }

  /** A `$ref` is always a string. */
  predicate StringRefs(node: Json) {
    match node
    case Arr(items) => forall i :: 0 <= i < |items| ==> StringRefs(items[i])
    case Obj(fields) =>
      ("$ref" in fields ==> fields["$ref"].Str?) && forall key :: key in fields ==> StringRefs(fields[key])
    case _ => true
  }

  /** Where every `$ref` is a string, as in a schema, no copy makes a reference. */
  lemma {:induction false} StringRefsAreHarmless(defs: Defs, node: Json, stack: seq<string>, over: set<string>)
    requires StringRefs(node) && forall name :: name in defs ==> StringRefs(defs[name])
    ensures Harmless(defs, node, stack, over)
    decreases defs.Keys - Names(stack), node
  {
    if node.Arr? {
      forall i | 0 <= i < |node.items| ensures Harmless(defs, node.items[i], stack, {}) {
        StringRefsAreHarmless(defs, node.items[i], stack, {});
      }
    } else if node.Obj? {
      var r := ReferenceOf(defs, node);
      forall key | key in node.fields ensures Harmless(defs, node.fields[key], stack, {}) {
        StringRefsAreHarmless(defs, node.fields[key], stack, {});
      }
      if r.ToDef? && r.name !in stack {
        Smaller(defs, stack, r.name);
        StringRefsAreHarmless(defs, defs[r.name], stack + [r.name], over + Siblings(node));
      }
    }
  }

  /** What is clean is copied as it is. */
  lemma {:induction false} CleanStays(defs: Defs, node: Json, stack: seq<string>)
    requires Clean(defs, node)
    ensures Inlined(defs, node, stack) == node
    decreases node
  {
    match node
    case Arr(items) =>
      forall i | 0 <= i < |items| ensures Inlined(defs, items[i], stack) == items[i] {
        CleanStays(defs, items[i], stack);
      }
    case Obj(fields) =>
      forall key | key in fields ensures Inlined(defs, fields[key], stack) == fields[key] {
        CleanStays(defs, fields[key], stack);
      }
      InlinedObject(defs, node, stack);
    case _ =>
  }

  /** A plain object is rebuilt from its copied fields. */
  lemma InlinedObject(defs: Defs, node: Json, stack: seq<string>)
    requires node.Obj? && ReferenceOf(defs, node).Plain?
    ensures Inlined(defs, node, stack) == Obj(map key | key in node.fields && Copied(key, false) :: Inlined(defs, node.fields[key], stack))
  {
  }

  /** What is clean comes through unchanged and makes no reference, and nothing else does. */
  lemma UnchangedExactly(defs: Defs, node: Json, stack: seq<string>)
    requires !Recurs(defs, node, stack)
    ensures Clean(defs, node) <==> Inlined(defs, node, stack) == node && Harmless(defs, node, stack, {})
  {
    NoReferenceLeft(defs, node, stack);
    if Clean(defs, node) {
      CleanStays(defs, node, stack);
    }
  }

  // ---- Following references ----

  function Target(root: Json, r: Reference): Json
    requires !r.Plain? && (r.ToDef? ==> r.name in DefsOf(root))
  {
    if r.ToRoot? then root else DefsOf(root)[r.name]
  }

  /** Following the references in a node ends, with at most `fuel` of them one inside the other. */
  predicate Unwinds(root: Json, node: Json, fuel: nat)
    decreases fuel, node
  {
    match node
    case Arr(items) => forall i :: 0 <= i < |items| ==> Unwinds(root, items[i], fuel)
    case Obj(fields) =>
      var r := ReferenceOf(DefsOf(root), node);
      && (forall key :: key in fields && Copied(key, !r.Plain?) ==> Unwinds(root, fields[key], fuel))
      && (r.Plain? || (fuel > 0 && Unwinds(root, Target(root, r), fuel - 1)))
    case _ => true
  }

  lemma FewerLeft(defs: Defs, stack: seq<string>, name: string)
    requires name in defs && name !in stack
    ensures |defs.Keys - Names(stack)| == |defs.Keys - Names(stack + [name])| + 1
  {
    Smaller(defs, stack, name);
    assert defs.Keys - Names(stack) == (defs.Keys - Names(stack + [name])) + {name};
  }

  /** Which nodes unwind within which bound. */
  function Has(root: Json): (Json, nat) -> bool {
    (node: Json, fuel: nat) => Unwinds(root, node, fuel)
  }

  /** Where no cycle is found in an object, none is found in what it leads to. */
  lemma NoCycleInside(defs: Defs, node: Json, stack: seq<string>)
    requires node.Obj? && !Recurs(defs, node, stack)
    ensures var r := ReferenceOf(defs, node);
            && !r.ToRoot?
            && (forall key :: key in node.fields && Copied(key, !r.Plain?) ==> !Recurs(defs, node.fields[key], stack))
            && (r.ToDef? ==> r.name !in stack && !Recurs(defs, defs[r.name], stack + [r.name]))
  {
    var r := ReferenceOf(defs, node);
    if r.ToDef? {
      Smaller(defs, stack, r.name);
    }
  }

  /** A schema in which no cycle is found unwinds within one reference per definition. */
  lemma {:induction false} UnwindsWithin(root: Json, node: Json, stack: seq<string>, fuel: nat)
    requires var defs := DefsOf(root);
             !Recurs(defs, node, stack) && fuel >= |defs.Keys - Names(stack)|
    ensures Unwinds(root, node, fuel)
    decreases DefsOf(root).Keys - Names(stack), node
  {
    var defs := DefsOf(root);
    if node.Arr? {
      forall i | 0 <= i < |node.items| ensures Unwinds(root, node.items[i], fuel) {
        UnwindsWithin(root, node.items[i], stack, fuel);
      }
    } else if node.Obj? {
      var r := ReferenceOf(defs, node);
      NoCycleInside(defs, node, stack);
      forall key | key in node.fields && Copied(key, !r.Plain?) ensures Unwinds(root, node.fields[key], fuel) {
        UnwindsWithin(root, node.fields[key], stack, fuel);
      }
      if r.ToDef? {
        Smaller(defs, stack, r.name);
        FewerLeft(defs, stack, r.name);
        UnwindsWithin(root, defs[r.name], stack + [r.name], fuel - 1);
      }
    }
  }

  /** A bound that is being considered. */
  predicate Tried(fuel: nat) {
    true
  }

  /** A meaning needs that of another node, after following this many references. */
  ghost predicate Leads(has: (Json, nat) -> bool, from: Json, to: Json, steps: nat) {
    forall fuel: nat {:trigger Tried(fuel)} :: Tried(fuel) && has(from, fuel) ==> fuel >= steps && has(to, fuel - steps)
  }

  /** No bound is large enough. */
  ghost predicate Endless(has: (Json, nat) -> bool, node: Json) {
    forall fuel: nat {:trigger Tried(fuel)} :: Tried(fuel) ==> !has(node, fuel)
  }

  lemma LeadsOn(has: (Json, nat) -> bool, a: Json, b: Json, c: Json, m: nat, n: nat)
    requires Leads(has, a, b, m) && Leads(has, b, c, n)
    ensures Leads(has, a, c, m + n)
  {
    forall fuel: nat | Tried(fuel) && has(a, fuel) ensures fuel >= m + n && has(c, fuel - (m + n)) {
      assert Tried(fuel - m);
      assert fuel - m - n == fuel - (m + n);
    }
  }

  /** Whatever leads back to itself has no meaning. */
  lemma {:induction false} NoLoop(has: (Json, nat) -> bool, a: Json, steps: nat, fuel: nat)
    requires Leads(has, a, a, steps) && steps > 0
    ensures !has(a, fuel)
    decreases fuel
  {
    assert Tried(fuel);
    if has(a, fuel) {
      NoLoop(has, a, steps, fuel - steps);
    }
  }

  lemma LoopIsEndless(has: (Json, nat) -> bool, a: Json, steps: nat)
    requires Leads(has, a, a, steps) && steps > 0
    ensures Endless(has, a)
  {
    forall fuel: nat | Tried(fuel) ensures !has(a, fuel) {
      NoLoop(has, a, steps, fuel);
    }
  }

  lemma LeadsToEndless(has: (Json, nat) -> bool, a: Json, b: Json, steps: nat)
    requires Leads(has, a, b, steps) && Endless(has, b)
    ensures Endless(has, a)
  {
    forall fuel: nat | Tried(fuel) ensures !has(a, fuel) {
      assert fuel >= steps ==> Tried(fuel - steps);
    }
  }

  lemma ItemLeads(root: Json, node: Json, i: nat)
    requires node.Arr? && i < |node.items|
    ensures Leads(Has(root), node, node.items[i], 0)
  {
  }

  lemma FieldLeads(root: Json, node: Json, key: string)
    requires node.Obj? && key in node.fields && Copied(key, !ReferenceOf(DefsOf(root), node).Plain?)
    ensures Leads(Has(root), node, node.fields[key], 0)
  {
  }

  lemma ReferenceLeads(root: Json, node: Json)
    requires !ReferenceOf(DefsOf(root), node).Plain?
    ensures Leads(Has(root), node, Target(root, ReferenceOf(DefsOf(root), node)), 1)
  {
  }

  /** How the visitor got to a node: from the root through the definitions on its stack. */
  ghost predicate Visited(has: (Json, nat) -> bool, root: Json, defs: Defs, node: Json, stack: seq<string>) {
    && Leads(has, root, node, |stack|)
    && (forall i :: 0 <= i < |stack| ==> OnStack(has, root, defs, node, stack, i))
  }

  ghost predicate OnStack(has: (Json, nat) -> bool, root: Json, defs: Defs, node: Json, stack: seq<string>, i: nat)
    requires i < |stack|
  {
    && stack[i] in defs
    && Leads(has, root, defs[stack[i]], i + 1)
    && Leads(has, defs[stack[i]], node, |stack| - 1 - i)
  }

  lemma VisitsPart(has: (Json, nat) -> bool, root: Json, defs: Defs, node: Json, part: Json, stack: seq<string>)
    requires Visited(has, root, defs, node, stack) && Leads(has, node, part, 0)
    ensures Visited(has, root, defs, part, stack)
  {
    LeadsOn(has, root, node, part, |stack|, 0);
    forall i | 0 <= i < |stack| ensures OnStack(has, root, defs, part, stack, i) {
      assert OnStack(has, root, defs, node, stack, i);
      LeadsOn(has, defs[stack[i]], node, part, |stack| - 1 - i, 0);
    }
  }

  lemma VisitsDef(has: (Json, nat) -> bool, root: Json, defs: Defs, node: Json, stack: seq<string>, name: string)
    requires Visited(has, root, defs, node, stack) && name in defs && Leads(has, node, defs[name], 1)
    ensures Visited(has, root, defs, defs[name], stack + [name])
  {
    var longer := stack + [name];
    LeadsOn(has, root, node, defs[name], |stack|, 1);
    forall i | 0 <= i < |longer| ensures OnStack(has, root, defs, defs[name], longer, i) {
      if i < |stack| {
        assert OnStack(has, root, defs, node, stack, i);
        LeadsOn(has, defs[stack[i]], node, defs[name], |stack| - 1 - i, 1);
      }
    }
  }

  lemma CycleIsEndless(has: (Json, nat) -> bool, root: Json, defs: Defs, node: Json, stack: seq<string>, i: nat)
    requires Visited(has, root, defs, node, stack)
    requires i < |stack| ==> stack[i] in defs && Leads(has, node, defs[stack[i]], 1)
    requires i >= |stack| ==> Leads(has, node, root, 1)
    ensures Endless(has, root)
  {
    if i < |stack| {
      assert OnStack(has, root, defs, node, stack, i);
      LeadsOn(has, defs[stack[i]], node, defs[stack[i]], |stack| - 1 - i, 1);
      LoopIsEndless(has, defs[stack[i]], |stack| - i);
      LeadsToEndless(has, root, defs[stack[i]], i + 1);
    } else {
      LeadsOn(has, root, node, root, |stack|, 1);
      LoopIsEndless(has, root, |stack| + 1);
    }
  }

  /** A cycle the visitor meets is one that never ends. */
  lemma {:induction false} RecursIsEndless(root: Json, node: Json, stack: seq<string>)
    requires Visited(Has(root), root, DefsOf(root), node, stack) && Recurs(DefsOf(root), node, stack)
    ensures Endless(Has(root), root)
    decreases DefsOf(root).Keys - Names(stack), node
  {
    var defs, has := DefsOf(root), Has(root);
    if node.Arr? {
      var i :| 0 <= i < |node.items| && Recurs(defs, node.items[i], stack);
      ItemLeads(root, node, i);
      VisitsPart(has, root, defs, node, node.items[i], stack);
      RecursIsEndless(root, node.items[i], stack);
    } else if Cyclic(defs, node, stack) {
      var r := ReferenceOf(defs, node);
      ReferenceLeads(root, node);
      var i :| 0 <= i <= |stack| && if r.ToDef? then i < |stack| && stack[i] == r.name else i == |stack|;
      CycleIsEndless(has, root, defs, node, stack, i);
    } else {
      var r := ReferenceOf(defs, node);
      if key :| key in node.fields && Copied(key, r.ToDef?) && Recurs(defs, node.fields[key], stack) {
        FieldLeads(root, node, key);
        VisitsPart(has, root, defs, node, node.fields[key], stack);
        RecursIsEndless(root, node.fields[key], stack);
      } else {
        Smaller(defs, stack, r.name);
        ReferenceLeads(root, node);
        VisitsDef(has, root, defs, node, stack, r.name);
        RecursIsEndless(root, defs[r.name], stack + [r.name]);
      }
    }
  }

  /**
   * The report is exact: a schema is called recursive if and only if following its
   * references never ends, and otherwise one reference per definition is enough.
   */
  lemma RecursiveExactly(root: Json)
    ensures InlineRefs(root).recursive ==> forall fuel: nat :: !Unwinds(root, root, fuel)
    ensures !InlineRefs(root).recursive ==> Unwinds(root, root, |DefsOf(root)|)
  {
    if InlineRefs(root).recursive {
      RecursIsEndless(root, root, []);
      forall fuel: nat ensures !Unwinds(root, root, fuel) {
        assert Tried(fuel) && !Has(root)(root, fuel);
      }
    } else {
      assert DefsOf(root).Keys - Names([]) == DefsOf(root).Keys;
      UnwindsWithin(root, root, [], |DefsOf(root).Keys|);
      assert |DefsOf(root).Keys| == |DefsOf(root)|;
    }
  }

  // ---- What a recursive schema keeps ----

  /** The node a chain of references ends in: a plain one, or one that leads back into the chain. */
  function EndOf(defs: Defs, node: Json, stack: seq<string>): Json
    decreases defs.Keys - Names(stack)
  {
    var r := ReferenceOf(defs, node);
    if !r.ToDef? || r.name in stack then node
    else
      Smaller(defs, stack, r.name);
      EndOf(defs, defs[r.name], stack + [r.name])
  }

  /** What a reference into one of the two containers finds there. */
  function Lookup(root: Json, container: string, name: string): Option<Json> {
    if name in FieldsAt(root, container) then Some(FieldsAt(root, container)[name]) else None
  }

  /** The container and the name in a local reference. */
  function PointerOf(ref: string): Option<(string, string)> {
    if After("#/$defs/", ref).Some? then Some(("$defs", After("#/$defs/", ref).value))
    else if After("#/definitions/", ref).Some? then Some(("definitions", After("#/definitions/", ref).value))
    else None
  }

  lemma ReferencePoints(defs: Defs, node: Json)
    requires ReferenceOf(defs, node).ToDef?
    ensures var p := PointerOf(node.fields["$ref"].s);
            p.Some? && p.value.0 in {"$defs", "definitions"} && p.value.1 == ReferenceOf(defs, node).name
  {
  }

  /** The container that the result's `$defs` is. */
  function KeptContainer(root: Json): string
    requires root.Obj?
  {
    if "$defs" in root.fields && root.fields["$defs"] != Null then "$defs" else "definitions"
  }

  /** A root whose own chain of references comes back on itself is kept as the node it comes back from. */
  predicate LoopKeeps(root: Json, name: string) {
    var e := EndOf(DefsOf(root), root, []);
    && !ReferenceOf(DefsOf(root), e).Plain?
    && name in DefsOf(root) && Lookup(e, "definitions", name) == Some(DefsOf(root)[name])
  }

  /** `definitions` survives only in a node that is kept as it was. */
  lemma {:induction false} DefinitionsSurvive(defs: Defs, node: Json, stack: seq<string>)
    ensures var spread, e := Spread(Inlined(defs, node, stack)), EndOf(defs, node, stack);
            if ReferenceOf(defs, e).Plain? || "definitions" !in e.fields then "definitions" !in spread
            else "definitions" in spread && spread["definitions"] == e.fields["definitions"]
    decreases defs.Keys - Names(stack)
  {
    var r := ReferenceOf(defs, node);
    if r.ToDef? && r.name !in stack {
      Smaller(defs, stack, r.name);
      DefinitionsSurvive(defs, defs[r.name], stack + [r.name]);
    } else if r.Plain? {
      PlainSpread(defs, node, stack);
    }
  }

  lemma PlainSpread(defs: Defs, node: Json, stack: seq<string>)
    requires ReferenceOf(defs, node).Plain?
    ensures "definitions" !in Spread(Inlined(defs, node, stack))
  {
    if node.Arr? {
      NumberedKeys(Inlined(defs, node, stack).items);
    } else if node.Str? {
      NumberedKeys(seq(|node.s|, i requires 0 <= i < |node.s| => Str([node.s[i]])));
    }
  }

  lemma KeptLookups(root: Json, name: string)
    requires root.Obj? && InlineRefs(root).recursive
    ensures var out, e := InlineRefs(root).schema, EndOf(DefsOf(root), root, []);
            && Lookup(out, "$defs", name) == Lookup(root, KeptContainer(root), name)
            && Lookup(out, "definitions", name)
            == if ReferenceOf(DefsOf(root), e).Plain? then None else Lookup(e, "definitions", name)
  {
    var schema := Inlined(DefsOf(root), root, []);
    var out := InlineRefs(root).schema;
    DefinitionsSurvive(DefsOf(root), root, []);
    assert "definitions" in out.fields <==> "definitions" in Spread(schema);
    assert "definitions" in out.fields ==> out.fields["definitions"] == Spread(schema)["definitions"];
    var kept := KeptContainer(root);
    assert kept in root.fields ==> "$defs" in out.fields && out.fields["$defs"] == root.fields[kept];
    assert kept !in root.fields ==> "$defs" !in out.fields;
  }

  /**
   * A reference in a recursive schema still finds its definition in the result if
   * and only if it points into `$defs` and the definition is in the container that
   * was kept, or it points into `definitions` and the root's own chain of
   * references comes back on itself at a node with that definition.
   */
  lemma KeptReferences(root: Json, node: Json)
    requires InlineRefs(root).recursive && ReferenceOf(DefsOf(root), node).ToDef?
    ensures root.Obj? && PointerOf(node.fields["$ref"].s).Some?
    ensures var (container, name) := PointerOf(node.fields["$ref"].s).value;
            Lookup(InlineRefs(root).schema, container, name) == Some(DefsOf(root)[ReferenceOf(DefsOf(root), node).name]) <==>
              if container == "$defs" then name in FieldsAt(root, KeptContainer(root)) else LoopKeeps(root, name)
  {
    var name := ReferenceOf(DefsOf(root), node).name;
    assert name in FieldsAt(root, "definitions") || name in FieldsAt(root, "$defs");
    ReferencePoints(DefsOf(root), node);
    KeptLookups(root, name);
  }

  /** The usual shape of an exported recursive schema: its root refers to a definition, which refers to itself. */
  const SELF := Obj(map["$ref" := Str("#/definitions/a")])
  const NODE := Obj(map["items" := SELF])
  const EXPORTED := Obj(map["$ref" := Str("#/definitions/a"), "definitions" := Obj(map["a" := NODE])])

  lemma SelfRefersToA()
    ensures DefsOf(EXPORTED) == map["a" := NODE] && PointerOf("#/definitions/a") == Some(("definitions", "a"))
    ensures ReferenceOf(DefsOf(EXPORTED), SELF) == ToDef("a") == ReferenceOf(DefsOf(EXPORTED), EXPORTED)
  {
    var prefix, ref := "#/definitions/", "#/definitions/a";
    assert ref[|prefix|..] == "a" && prefix < ref;
    assert "#/$defs/"[2] != ref[2];
    assert After("#/$defs/", ref).None?;
    assert FieldsAt(EXPORTED, "$defs") == map[];
  }

  /** Its references are left dangling: they point into `definitions`, and the definitions are under `$defs`. */
  lemma DefinitionsDangle()
    ensures InlineRefs(EXPORTED).recursive
    ensures InlineRefs(EXPORTED).schema == Obj(map["items" := SELF, "$defs" := Obj(map["a" := NODE])])
    ensures Lookup(EXPORTED, "definitions", "a").Some? && Lookup(InlineRefs(EXPORTED).schema, "definitions", "a").None?
  {
    var defs := DefsOf(EXPORTED);
    SelfRefersToA();
    Smaller(defs, [], "a");
    assert [] + ["a"] == ["a"];
    assert Recurs(defs, SELF, ["a"]) && Inlined(defs, SELF, ["a"]) == SELF;
    assert Recurs(defs, NODE, ["a"]) by {
      assert "items" in NODE.fields && Copied("items", false);
    }
    InlinedObject(defs, NODE, ["a"]);
    assert Inlined(defs, NODE, ["a"]) == NODE;
    assert Recurs(defs, EXPORTED, []);
    assert Inlined(defs, EXPORTED, []) == NODE by {
      var rest := map key | key in EXPORTED.fields && Copied(key, true) :: Inlined(defs, EXPORTED.fields[key], []);
      assert rest == map[];
      assert "definitions" in EXPORTED.fields;
      assert NODE.fields + rest == NODE.fields;
    }
    assert InlineRefs(EXPORTED).schema.fields == map["items" := SELF, "$defs" := Obj(map["a" := NODE])];
  }
}
