/**
 * What a JSON Schema says, keyword by keyword, and when inlining keeps it.
 *
 * The meaning of a schema is the schema with every reference resolved, read by
 * position: some keywords hold schemas, some hold schemas under names, and the
 * values of all others are data. Two schemas with one meaning accept the same
 * values, whatever the keywords say about them.
 */
module SchemaMeanings {
  import opened Basics
  import opened InlineRefs
  import opened JsonPointers

  /** What stands at a place: a schema or a list of them, schemas under names, or data. */
  datatype Place = SchemaAt | NamesAt | DataAt

  /** How a reference is read as a path into the document it stands in; `PathOf` is one way. */
  type Reading = string -> Option<seq<string>>

  /** Which keywords hold schemas, or schemas under names, and how references are read. */
  datatype Dialect = Dialect(schemas: set<string>, names: set<string>, read: Reading)

  /** The applicators of JSON Schema Core, draft 2020-12, sections 10 and 11, and of draft 7. */
  const STANDARD :=
    Dialect({"items", "prefixItems", "additionalItems", "contains", "additionalProperties", "propertyNames",
             "unevaluatedItems", "unevaluatedProperties", "allOf", "anyOf", "oneOf", "not", "if", "then", "else",
             "contentSchema"},
            {"properties", "patternProperties", "dependentSchemas", "dependencies"},
            PathOf)

  function Under(d: Dialect, place: Place, key: string): Place {
    match place
    case SchemaAt =>
      if key == "$ref" then DataAt else if key in d.schemas then SchemaAt else if key in d.names then NamesAt else DataAt
    case NamesAt => SchemaAt
    case DataAt => DataAt
  }

  /** `Both` is a reference together with its siblings. */
  datatype Meaning =
    | Literal(value: Json)
    | Data(value: Json)
    | List(items: seq<Meaning>)
    | Keywords(fields: map<string, Meaning>)
    | Named(fields: map<string, Meaning>)
    | Both(target: Meaning, siblings: map<string, Meaning>)

  // ---- References, as the standard has them ----

  /** The two keywords that hold definitions. */
  const CONTAINERS := {"$defs", "definitions"}

  /** Keywords that name a schema in another way, or refer to one so named. */
  const IDENTIFIERS := {"$id", "$anchor", "$dynamicAnchor", "$dynamicRef", "$recursiveAnchor", "$recursiveRef"}

  /** Where a path leads; `hidden` if a container is on the way, so that only references get there. */
  datatype Spot = Spot(place: Place, node: Json, hidden: bool)

  function Inside(d: Dialect, place: Place, node: Json, key: string): Place {
    if IsData(place, node) then DataAt else if place.SchemaAt? && key in CONTAINERS then NamesAt else Under(d, place, key)
  }

  function Walk(d: Dialect, place: Place, node: Json, path: seq<string>, hidden: bool): Option<Spot>
    decreases |path|
  {
    if path == [] then Some(Spot(if IsData(place, node) then DataAt else place, node, hidden))
    else
      match node
      case Arr(items) =>
        var i := Number(path[0]);
        if i < |items| && Decimal(i) == path[0]
        then Walk(d, if place.SchemaAt? then SchemaAt else DataAt, items[i], path[1..], hidden)
        else None
      case Obj(fields) =>
        if path[0] in fields
        then
          Walk(d, Inside(d, place, node, path[0]), fields[path[0]], path[1..],
               hidden || (place.SchemaAt? && path[0] in RESERVED))
        else None
      case _ => None
  }

  /** Where a local reference leads. */
  function SpotOf(d: Dialect, root: Json, ref: string): Option<Spot> {
    match d.read(ref)
    case None => None
    case Some(path) => Walk(d, SchemaAt, root, path, false)
  }

  /**
   * What a reference into a container refers to: a schema that is no part of the
   * one it is for, except by that reference. A reference to any other place of the
   * document is the name of a part that is there anyway.
   */
  function TargetOf(d: Dialect, root: Json, ref: string): Option<Json> {
    match SpotOf(d, root, ref)
    case None => None
    case Some(spot) => if spot.hidden then Some(spot.node) else None
  }

  /** What reading a document takes: its dialect, and what its references refer to. */
  datatype Guide = Guide(dialect: Dialect, target: string -> Option<Json>)

  function GuideOf(d: Dialect, root: Json): Guide {
    Guide(d, (ref: string) => TargetOf(d, root, ref))
  }

  function StandardTarget(t: Guide, node: Json): Option<Json> {
    if !node.Obj? || "$ref" !in node.fields || !node.fields["$ref"].Str? then None else t.target(node.fields["$ref"].s)
  }

  /** A reference into the document leads to a schema in it. */
  predicate Resolves(d: Dialect, root: Json, ref: string) {
    Local(ref) ==> SpotOf(d, root, ref).Some? && SpotOf(d, root, ref).value.place.SchemaAt?
  }

  // ---- The meaning ----

  function AllSome(options: seq<Option<Meaning>>): Option<seq<Meaning>> {
    if forall i :: 0 <= i < |options| ==> options[i].Some?
    then Some(seq(|options|, i requires 0 <= i < |options| => options[i].value))
    else None
  }

  function AllFieldsSome(options: map<string, Option<Meaning>>): Option<map<string, Meaning>> {
    if forall key :: key in options ==> options[key].Some? then Some(map key | key in options :: options[key].value) else None
  }

  /** At a schema the containers say nothing about values, and neither does a reference about the keyword it stands for. */
  predicate Visible(t: Guide, place: Place, node: Json, key: string) {
    place.NamesAt? || (key !in RESERVED && !(key == "$ref" && StandardTarget(t, node).Some?))
  }

  /** What the keywords do not look into. */
  predicate IsData(place: Place, node: Json) {
    place.DataAt? || (place.NamesAt? && !node.Obj?)
  }

  /**
   * The meaning of a node: a reference into a container means what its
   * target means (section 8.2.3.1 of JSON Schema Core, draft 2020-12); one to
   * another place of the document, or to another document, means what that place
   * does, and is its name. `fuel` bounds how many references are followed one
   * inside the other; `None` is a bound too small.
   */
  function Means(t: Guide, place: Place, node: Json, fuel: nat): Option<Meaning>
    decreases fuel, node, 1
  {
    if IsData(place, node) then Some(Data(node))
    else
      match node
      case Arr(_) => OfList(ItemMeans(t, node, fuel))
      case Obj(_) =>
        var parts := FieldMeans(t, place, node, fuel);
        if place.NamesAt? then OfNames(parts)
        else
          var target := StandardTarget(t, node);
          if target.None? then OfKeywords(parts)
          else if fuel == 0 then None
          else Beside(Means(t, SchemaAt, target.value, fuel - 1), parts)
      case _ => Some(Literal(node))
  }

  function OfList(parts: seq<Option<Meaning>>): Option<Meaning> {
    var all := AllSome(parts);
    if all.None? then None else Some(List(all.value))
  }

  function OfKeywords(parts: map<string, Option<Meaning>>): Option<Meaning> {
    var all := AllFieldsSome(parts);
    if all.None? then None else Some(Keywords(all.value))
  }

  function OfNames(parts: map<string, Option<Meaning>>): Option<Meaning> {
    var all := AllFieldsSome(parts);
    if all.None? then None else Some(Named(all.value))
  }

  function Beside(target: Option<Meaning>, parts: map<string, Option<Meaning>>): Option<Meaning> {
    var all := AllFieldsSome(parts);
    if target.None? || all.None? then None
    else if all.value == map[] then target
    else Some(Both(target.value, all.value))
  }

  function ItemMeans(t: Guide, node: Json, fuel: nat): (parts: seq<Option<Meaning>>)
    requires node.Arr?
    ensures |parts| == |node.items|
    ensures forall i :: 0 <= i < |parts| ==> parts[i] == Means(t, SchemaAt, node.items[i], fuel)
    decreases fuel, node, 0
  {
    seq(|node.items|, i requires 0 <= i < |node.items| => Means(t, SchemaAt, node.items[i], fuel))
  }

  function FieldMeans(t: Guide, place: Place, node: Json, fuel: nat): (parts: map<string, Option<Meaning>>)
    requires node.Obj?
    ensures forall key :: key in parts <==> key in node.fields && Visible(t, place, node, key)
    ensures forall key :: key in parts ==> parts[key] == Means(t, Under(t.dialect, place, key), node.fields[key], fuel)
    decreases fuel, node, 0
  {
    map key | key in node.fields && Visible(t, place, node, key) ::
      Means(t, Under(t.dialect, place, key), node.fields[key], fuel)
  }

  /** The meaning of a whole document. */
  function MeaningOf(d: Dialect, root: Json, fuel: nat): Option<Meaning> {
    Means(GuideOf(d, root), SchemaAt, root, fuel)
  }

  // ---- What inlining is for ----

  /**
   * The schemas that inlining is for: a reference that the visitor resolves has no
   * siblings but the containers, and refers to what the visitor takes it to refer to.
   */
  predicate Regular(t: Guide, root: Json, place: Place, node: Json)
    decreases node
  {
    if IsData(place, node) then true
    else
      match node
      case Arr(items) => forall i :: 0 <= i < |items| ==> Regular(t, root, SchemaAt, items[i])
      case Obj(fields) =>
        && (place.SchemaAt? ==> Guided(t, root, node))
        && forall key :: key in fields && (place.NamesAt? || key !in RESERVED) ==>
             Regular(t, root, Under(t.dialect, place, key), fields[key])
      case _ => true
  }

  /** The visitor resolves this reference as the standard does, and it stands alone but for containers. */
  predicate Followed(t: Guide, root: Json, node: Json) {
    var r := ReferenceOf(DefsOf(root), node);
    r.ToDef? && StandardTarget(t, node) == Some(DefsOf(root)[r.name]) && node.fields.Keys - RESERVED == {"$ref"}
  }

  /** Where the visitor goes on, it does as the standard does. */
  predicate Guided(t: Guide, root: Json, node: Json) {
    ReferenceOf(DefsOf(root), node).ToDef? ==> Followed(t, root, node)
  }

  /** Every local reference leads to a schema, and schemas have no other names than their places. */
  predicate Resolving(d: Dialect, root: Json, place: Place, node: Json)
    decreases node
  {
    if IsData(place, node) then true
    else
      match node
      case Arr(items) => forall i :: 0 <= i < |items| ==> Resolving(d, root, SchemaAt, items[i])
      case Obj(fields) =>
        && (place.SchemaAt? && "$ref" in fields && fields["$ref"].Str? ==> Resolves(d, root, fields["$ref"].s))
        && (place.SchemaAt? ==> fields.Keys !! IDENTIFIERS)
        && forall key :: key in fields && (place.NamesAt? || key !in RESERVED) ==>
             Resolving(d, root, Under(d, place, key), fields[key])
      case _ => true
  }

  predicate Defines(root: Json, name: string) {
    name in DefsOf(root)
  }

  ghost predicate AllRegular(t: Guide, root: Json) {
    && Regular(t, root, SchemaAt, root)
    && forall name {:trigger Defines(root, name)} :: Defines(root, name) ==> Regular(t, root, SchemaAt, DefsOf(root)[name])
  }

  /** A schema that inlining is for, its definitions included. */
  ghost predicate Proper(d: Dialect, root: Json) {
    && AllRegular(GuideOf(d, root), root)
    && Resolving(d, root, SchemaAt, root)
    && forall name {:trigger Defines(root, name)} :: Defines(root, name) ==> Resolving(d, root, SchemaAt, DefsOf(root)[name])
  }

  /**
   * Nothing the visitor passes is mistaken: no reference into a container is one it
   * does not know, data and names hold nothing it would change, and a definition
   * that takes the place of a schema with containers is an object.
   */
  predicate Intact(t: Guide, root: Json, place: Place, node: Json, stack: seq<string>)
    decreases DefsOf(root).Keys - Names(stack), node
  {
    var defs := DefsOf(root);
    if IsData(place, node) then Clean(defs, node)
    else
      match node
      case Arr(items) => forall i :: 0 <= i < |items| ==> Intact(t, root, SchemaAt, items[i], stack)
      case Obj(fields) =>
        var r := ReferenceOf(defs, node);
        if place.NamesAt? then
          r.Plain? && fields.Keys !! RESERVED && forall key :: key in fields ==> Intact(t, root, SchemaAt, fields[key], stack)
        else if !r.ToDef? || r.name in stack then
          && StandardTarget(t, node).None?
          && forall key :: key in fields && key !in RESERVED ==>
               Intact(t, root, Under(t.dialect, SchemaAt, key), fields[key], stack)
        else
          Smaller(defs, stack, r.name);
          && Intact(t, root, SchemaAt, defs[r.name], stack + [r.name])
          && (fields.Keys == {"$ref"} || EndOf(defs, defs[r.name], stack + [r.name]).Obj?)
      case _ => true
  }

  // ---- Equal parts make equal meanings ----

  lemma ListsEqual(a: seq<Option<Meaning>>, b: seq<Option<Meaning>>)
    requires |a| == |b| && forall i :: 0 <= i < |a| ==> a[i].Some?
    ensures OfList(a).Some? && (OfList(a) == OfList(b) <==> forall i :: 0 <= i < |a| ==> a[i] == b[i])
  {
    assert a == b <==> forall i :: 0 <= i < |a| ==> a[i] == b[i];
    if OfList(a) == OfList(b) {
      var x, y := AllSome(a).value, AllSome(b).value;
      forall i | 0 <= i < |a| ensures a[i] == b[i] {
        assert x[i] == y[i];
      }
    }
  }

  lemma FieldsEqual(a: map<string, Option<Meaning>>, b: map<string, Option<Meaning>>)
    requires forall key :: key in a ==> a[key].Some?
    ensures AllFieldsSome(a).Some? && (AllFieldsSome(a) == AllFieldsSome(b) <==> a == b)
  {
    if AllFieldsSome(a) == AllFieldsSome(b) {
      var x, y := AllFieldsSome(a).value, AllFieldsSome(b).value;
      assert a.Keys == x.Keys == y.Keys == b.Keys;
      forall key | key in a ensures a[key] == b[key] {
        assert x[key] == y[key];
      }
    }
  }

  // ---- What is clean ----

  /** In what is clean no path leads behind a container. */
  lemma {:induction false} CleanHidesNothing(d: Dialect, defs: Defs, place: Place, node: Json, path: seq<string>)
    requires Clean(defs, node)
    ensures var spot := Walk(d, place, node, path, false); spot.Some? ==> !spot.value.hidden
    decreases |path|
  {
    if path != [] && node.Arr? {
      var i := Number(path[0]);
      if i < |node.items| {
        CleanHidesNothing(d, defs, if place.SchemaAt? then SchemaAt else DataAt, node.items[i], path[1..]);
      }
    } else if path != [] && node.Obj? && path[0] in node.fields {
      CleanHidesNothing(d, defs, Inside(d, place, node, path[0]), node.fields[path[0]], path[1..]);
    }
  }

  ghost predicate NoTargets(t: Guide) {
    forall ref :: t.target(ref).None?
  }

  /** So no reference in there has to be followed. */
  lemma CleanHasNoTargets(d: Dialect, defs: Defs, flat: Json)
    requires Clean(defs, flat)
    ensures NoTargets(GuideOf(d, flat))
  {
    forall ref ensures GuideOf(d, flat).target(ref).None? {
      if d.read(ref).Some? {
        CleanHidesNothing(d, defs, SchemaAt, flat, d.read(ref).value);
      }
    }
  }

  /** Where no reference has to be followed, everything has a meaning without following any. */
  lemma {:induction false} FlatMeans(u: Guide, place: Place, value: Json)
    requires NoTargets(u)
    ensures Means(u, place, value, 0).Some?
    decreases value
  {
    if !place.DataAt? && value.Arr? {
      forall i | 0 <= i < |value.items| ensures Means(u, SchemaAt, value.items[i], 0).Some? {
        FlatMeans(u, SchemaAt, value.items[i]);
      }
    } else if !place.DataAt? && value.Obj? {
      forall key | key in value.fields ensures Means(u, Under(u.dialect, place, key), value.fields[key], 0).Some? {
        FlatMeans(u, Under(u.dialect, place, key), value.fields[key]);
      }
    }
  }

  // ---- The meaning is kept ----

  /** What inlining is asked to keep the meaning of; in its result, `u`, there is nothing to follow. */
  ghost predicate Asked(t: Guide, root: Json, u: Guide, place: Place, node: Json, stack: seq<string>, fuel: nat) {
    var defs := DefsOf(root);
    && !Recurs(defs, node, stack) && fuel >= |defs.Keys - Names(stack)|
    && Regular(t, root, place, node) && AllRegular(t, root)
    && Harmless(defs, node, stack, {}) && NoTargets(u) && u.dialect == t.dialect
  }

  ghost predicate Kept(t: Guide, root: Json, u: Guide, place: Place, node: Json, stack: seq<string>, fuel: nat) {
    Means(u, place, Inlined(DefsOf(root), node, stack), 0) == Means(t, place, node, fuel)
  }

  lemma InlinedMeans(t: Guide, root: Json, u: Guide, place: Place, node: Json, stack: seq<string>, fuel: nat)
    requires Asked(t, root, u, place, node, stack, fuel)
    ensures Clean(DefsOf(root), Inlined(DefsOf(root), node, stack))
    ensures Means(u, place, Inlined(DefsOf(root), node, stack), 0).Some?
  {
    NoReferenceLeft(DefsOf(root), node, stack);
    FlatMeans(u, place, Inlined(DefsOf(root), node, stack));
  }

  lemma DataMeans(t: Guide, place: Place, node: Json, fuel: nat)
    requires IsData(place, node)
    ensures Means(t, place, node, fuel) == Some(Data(node))
  {
  }

  lemma DataIsCopied(defs: Defs, place: Place, node: Json, stack: seq<string>)
    requires IsData(place, node)
    ensures IsData(place, Inlined(defs, node, stack))
  {
  }

  lemma DataKept(t: Guide, root: Json, u: Guide, place: Place, node: Json, stack: seq<string>, fuel: nat)
    requires Asked(t, root, u, place, node, stack, fuel) && IsData(place, node)
    ensures Kept(t, root, u, place, node, stack, fuel) <==> Clean(DefsOf(root), node)
  {
    UnchangedExactly(DefsOf(root), node, stack);
    DataMeans(t, place, node, fuel);
    DataIsCopied(DefsOf(root), place, node, stack);
    DataMeans(u, place, Inlined(DefsOf(root), node, stack), 0);
  }

  lemma ListMeans(t: Guide, node: Json, fuel: nat)
    requires node.Arr?
    ensures Means(t, SchemaAt, node, fuel) == OfList(ItemMeans(t, node, fuel))
  {
  }

  lemma ListKept(t: Guide, root: Json, u: Guide, node: Json, stack: seq<string>, fuel: nat)
    requires node.Arr?
    requires forall i :: 0 <= i < |node.items| ==>
               && Means(u, SchemaAt, Inlined(DefsOf(root), node.items[i], stack), 0).Some?
               && (Kept(t, root, u, SchemaAt, node.items[i], stack, fuel)
                   <==> Intact(t, root, SchemaAt, node.items[i], stack))
    ensures Kept(t, root, u, SchemaAt, node, stack, fuel) <==> Intact(t, root, SchemaAt, node, stack)
  {
    var out := Inlined(DefsOf(root), node, stack);
    var a, b := ItemMeans(u, out, 0), ItemMeans(t, node, fuel);
    forall i | 0 <= i < |a|
      ensures a[i].Some? && (a[i] == b[i] <==> Intact(t, root, SchemaAt, node.items[i], stack))
    {
      assert out.items[i] == Inlined(DefsOf(root), node.items[i], stack);
    }
    ListsEqual(a, b);
    ListMeans(t, node, fuel);
    ListMeans(u, out, 0);
  }

  /** Which of a plain object's fields are kept. */
  ghost predicate FieldsKept(t: Guide, root: Json, u: Guide, place: Place, node: Json, stack: seq<string>, fuel: nat)
    requires node.Obj?
  {
    forall key :: key in node.fields && key !in RESERVED ==>
      (Kept(t, root, u, Under(t.dialect, place, key), node.fields[key], stack, fuel)
       <==> Intact(t, root, Under(t.dialect, place, key), node.fields[key], stack))
  }

  /** The copy of a plain object has the copies of its fields, without the reserved ones. */
  lemma CopiedFields(t: Guide, root: Json, u: Guide, place: Place, node: Json, stack: seq<string>, fuel: nat)
    requires !place.DataAt? && node.Obj? && ReferenceOf(DefsOf(root), node).Plain?
    requires Asked(t, root, u, place, node, stack, fuel)
    ensures Inlined(DefsOf(root), node, stack).Obj?
    ensures var out := Inlined(DefsOf(root), node, stack);
            var a := FieldMeans(u, place, out, 0);
            && StandardTarget(u, out).None?
            && (forall key :: key in a <==> key in node.fields && key !in RESERVED)
            && (forall key :: key in a ==>
                  a[key].Some?
                  && a[key] == Means(u, Under(u.dialect, place, key), Inlined(DefsOf(root), node.fields[key], stack), 0))
  {
    var out := Inlined(DefsOf(root), node, stack);
    InlinedObject(DefsOf(root), node, stack);
    NoReferenceLeft(DefsOf(root), node, stack);
    var a := FieldMeans(u, place, out, 0);
    forall key | key in a ensures a[key].Some? {
      FlatMeans(u, Under(u.dialect, place, key), out.fields[key]);
    }
  }

  /** The fields of a plain object that count. */
  lemma PlainFields(t: Guide, place: Place, node: Json, fuel: nat)
    requires !place.DataAt? && node.Obj? && (place.SchemaAt? ==> StandardTarget(t, node).None?)
    ensures var b := FieldMeans(t, place, node, fuel);
            forall key :: key in b <==> key in node.fields && (place.NamesAt? || key !in RESERVED)
  {
  }

  lemma FieldsCompare(t: Guide, root: Json, place: Place, node: Json, stack: seq<string>,
                      a: map<string, Option<Meaning>>, b: map<string, Option<Meaning>>)
    requires !place.DataAt? && node.Obj? && ReferenceOf(DefsOf(root), node).Plain?
    requires place.SchemaAt? ==> StandardTarget(t, node).None?
    requires forall key :: key in a <==> key in node.fields && key !in RESERVED
    requires forall key :: key in b <==> key in node.fields && (place.NamesAt? || key !in RESERVED)
    requires forall key :: key in a && key in b ==>
               (a[key] == b[key] <==> Intact(t, root, Under(t.dialect, place, key), node.fields[key], stack))
    ensures a == b <==> Intact(t, root, place, node, stack)
  {
    SameFields(a, b);
    assert (forall key :: key in a <==> key in b) <==> (place.NamesAt? ==> node.fields.Keys !! RESERVED);
  }

  lemma SameFields(a: map<string, Option<Meaning>>, b: map<string, Option<Meaning>>)
    ensures a == b <==> (forall key :: key in a <==> key in b) && (forall key :: key in a && key in b ==> a[key] == b[key])
  {
  }

  lemma ObjectMeans(t: Guide, place: Place, node: Json, fuel: nat)
    requires node.Obj? && !place.DataAt? && (place.SchemaAt? ==> StandardTarget(t, node).None?)
    ensures Means(t, place, node, fuel)
         == if place.NamesAt? then OfNames(FieldMeans(t, place, node, fuel)) else OfKeywords(FieldMeans(t, place, node, fuel))
  {
  }

  /** A plain object's copy and the object itself, field by field. */
  lemma ObjectCompare(t: Guide, root: Json, u: Guide, place: Place, node: Json, stack: seq<string>, fuel: nat, out: Json)
    requires !place.DataAt? && node.Obj? && ReferenceOf(DefsOf(root), node).Plain? && out.Obj?
    requires out == Inlined(DefsOf(root), node, stack) && StandardTarget(u, out).None?
    requires u.dialect == t.dialect && (place.SchemaAt? ==> StandardTarget(t, node).None?)
    requires var a := FieldMeans(u, place, out, 0);
             && (forall key :: key in a <==> key in node.fields && key !in RESERVED)
             && (forall key :: key in a ==>
                   a[key].Some?
                   && a[key] == Means(u, Under(u.dialect, place, key), Inlined(DefsOf(root), node.fields[key], stack), 0))
    requires var b := FieldMeans(t, place, node, fuel);
             forall key :: key in b <==> key in node.fields && (place.NamesAt? || key !in RESERVED)
    requires FieldsKept(t, root, u, place, node, stack, fuel)
    ensures Kept(t, root, u, place, node, stack, fuel) <==> Intact(t, root, place, node, stack)
  {
    var a, b := FieldMeans(u, place, out, 0), FieldMeans(t, place, node, fuel);
    forall key | key in a && key in b
      ensures a[key] == b[key] <==> Intact(t, root, Under(t.dialect, place, key), node.fields[key], stack)
    {
      assert Kept(t, root, u, Under(t.dialect, place, key), node.fields[key], stack, fuel) <==> a[key] == b[key];
    }
    FieldsCompare(t, root, place, node, stack, a, b);
    FieldsEqual(a, b);
    ObjectMeans(u, place, out, 0);
    ObjectMeans(t, place, node, fuel);
  }

  lemma ObjectKept(t: Guide, root: Json, u: Guide, place: Place, node: Json, stack: seq<string>, fuel: nat)
    requires !place.DataAt? && node.Obj? && ReferenceOf(DefsOf(root), node).Plain?
    requires Asked(t, root, u, place, node, stack, fuel) && FieldsKept(t, root, u, place, node, stack, fuel)
    ensures Kept(t, root, u, place, node, stack, fuel) <==> Intact(t, root, place, node, stack)
  {
    if place.SchemaAt? && StandardTarget(t, node).Some? {
      ReferenceIsLost(t, root, u, node, stack, fuel);
    } else {
      CopiedFields(t, root, u, place, node, stack, fuel);
      PlainFields(t, place, node, fuel);
      ObjectCompare(t, root, u, place, node, stack, fuel, Inlined(DefsOf(root), node, stack));
    }
  }

  /** The meaning of a schema with this reference, if it is not followed. */
  predicate Refers(m: Option<Meaning>, ref: string) {
    m.Some? && m.value.Keywords? && "$ref" in m.value.fields && m.value.fields["$ref"] == Data(Str(ref))
  }

  /** A keyword of a meaning is the keyword's own meaning. */
  lemma KeywordMeans(parts: map<string, Option<Meaning>>, key: string)
    requires OfKeywords(parts).Some? && key in OfKeywords(parts).value.fields
    ensures key in parts && parts[key] == Some(OfKeywords(parts).value.fields[key])
  {
  }

  lemma FollowedNeedsFuel(t: Guide, node: Json)
    requires node.Obj? && StandardTarget(t, node).Some?
    ensures Means(t, SchemaAt, node, 0).None?
  {
  }

  lemma FollowedMeans(t: Guide, node: Json, fuel: nat)
    requires node.Obj? && StandardTarget(t, node).Some? && fuel > 0
    ensures Means(t, SchemaAt, node, fuel)
         == Beside(Means(t, SchemaAt, StandardTarget(t, node).value, fuel - 1), FieldMeans(t, SchemaAt, node, fuel))
  {
  }

  lemma FieldNotLeft(t: Guide, node: Json, fuel: nat, ref: string)
    requires t.target(ref).Some? && node.Obj? && StandardTarget(t, node).None?
    ensures !Refers(OfKeywords(FieldMeans(t, SchemaAt, node, fuel)), ref)
  {
    var parts := FieldMeans(t, SchemaAt, node, fuel);
    if "$ref" in parts {
      DataMeans(t, DataAt, node.fields["$ref"], fuel);
      assert parts["$ref"] == Some(Data(node.fields["$ref"])) && node.fields["$ref"] != Str(ref);
    }
    if OfKeywords(parts).Some? && "$ref" in OfKeywords(parts).value.fields {
      KeywordMeans(parts, "$ref");
    }
  }

  lemma NotLeftHere(t: Guide, node: Json, fuel: nat, ref: string)
    requires t.target(ref).Some? && StandardTarget(t, node).None?
    ensures !Refers(Means(t, SchemaAt, node, fuel), ref)
  {
    if node.Obj? {
      ObjectMeans(t, SchemaAt, node, fuel);
      FieldNotLeft(t, node, fuel, ref);
    } else {
      NoObjectItself(t, node, fuel);
    }
  }

  /** What a meaning is that is no longer that of a node whose references have been followed. */
  predicate Merged(m: Option<Meaning>) {
    m.None? || m.value.Both?
  }

  lemma BesideIs(target: Option<Meaning>, parts: map<string, Option<Meaning>>)
    ensures Merged(Beside(target, parts)) || Beside(target, parts) == target
  {
  }

  lemma OneFollowed(t: Guide, node: Json, fuel: nat)
    requires StandardTarget(t, node).Some? && fuel > 0
    ensures || Merged(Means(t, SchemaAt, node, fuel))
            || Means(t, SchemaAt, node, fuel)
            == Means(t, SchemaAt, StandardTarget(t, node).value, fuel - 1)
  {
    FollowedMeans(t, node, fuel);
    BesideIs(Means(t, SchemaAt, StandardTarget(t, node).value, fuel - 1),
             FieldMeans(t, SchemaAt, node, fuel));
  }

  /** Where the references in a node lead, as far as the bound goes. */
  function FollowedTo(t: Guide, node: Json, fuel: nat): (Json, nat)
    decreases fuel
  {
    var target := StandardTarget(t, node);
    if target.None? || fuel == 0 then (node, fuel) else FollowedTo(t, target.value, fuel - 1)
  }

  lemma {:induction false} FollowedToMeans(t: Guide, node: Json, fuel: nat)
    ensures var (end, left) := FollowedTo(t, node, fuel);
            && (StandardTarget(t, end).Some? ==> left == 0)
            && (|| Merged(Means(t, SchemaAt, node, fuel))
                || Means(t, SchemaAt, node, fuel) == Means(t, SchemaAt, end, left))
    decreases fuel
  {
    var target := StandardTarget(t, node);
    if target.Some? && fuel > 0 {
      FollowedToMeans(t, target.value, fuel - 1);
      OneFollowed(t, node, fuel);
    }
  }

  /** A reference into a container is followed, wherever it is. */
  lemma NeverLeft(t: Guide, node: Json, fuel: nat, ref: string)
    requires t.target(ref).Some?
    ensures !Refers(Means(t, SchemaAt, node, fuel), ref)
  {
    var (end, left) := FollowedTo(t, node, fuel);
    FollowedToMeans(t, node, fuel);
    if StandardTarget(t, end).None? {
      NotLeftHere(t, end, left, ref);
    } else {
      FollowedNeedsFuel(t, end);
    }
  }

  /** A reference into a container that the visitor does not know is left, without its target. */
  lemma ReferenceIsLost(t: Guide, root: Json, u: Guide, node: Json, stack: seq<string>, fuel: nat)
    requires node.Obj? && ReferenceOf(DefsOf(root), node).Plain? && StandardTarget(t, node).Some?
    requires Asked(t, root, u, SchemaAt, node, stack, fuel)
    ensures !Kept(t, root, u, SchemaAt, node, stack, fuel) && !Intact(t, root, SchemaAt, node, stack)
  {
    var ref, out := node.fields["$ref"].s, Inlined(DefsOf(root), node, stack);
    NeverLeft(t, node, fuel, ref);
    InlinedObject(DefsOf(root), node, stack);
    InlinedMeans(t, root, u, SchemaAt, node, stack, fuel);
    assert out.fields["$ref"] == Str(ref);
    LeftMeans(u, out, ref);
  }

  lemma LeftMeans(u: Guide, out: Json, ref: string)
    requires out.Obj? && "$ref" in out.fields && out.fields["$ref"] == Str(ref) && StandardTarget(u, out).None?
    requires Means(u, SchemaAt, out, 0).Some?
    ensures Refers(Means(u, SchemaAt, out, 0), ref)
  {
    ObjectMeans(u, SchemaAt, out, 0);
    DataMeans(u, DataAt, Str(ref), 0);
    assert FieldMeans(u, SchemaAt, out, 0)["$ref"] == Some(Data(Str(ref)));
  }

  /** A clean object under names has no such name. */
  lemma CleanHasNoSuchName(u: Guide, defs: Defs, node: Json, out: Json)
    requires node.Obj? && ReferenceOf(defs, node).ToDef? && out.Obj? && Clean(defs, out) && "$ref" in out.fields
    ensures Means(u, SchemaAt, out.fields["$ref"], 0) != Some(Literal(node.fields["$ref"]))
  {
    assert out.fields["$ref"] != node.fields["$ref"];
  }

  /** A name that is spelled like a reference is lost. */
  lemma NamedReferenceIsLost(t: Guide, root: Json, u: Guide, node: Json, stack: seq<string>, fuel: nat)
    requires node.Obj? && ReferenceOf(DefsOf(root), node).ToDef? && Asked(t, root, u, NamesAt, node, stack, fuel)
    ensures !Kept(t, root, u, NamesAt, node, stack, fuel)
  {
    var out := Inlined(DefsOf(root), node, stack);
    InlinedMeans(t, root, u, NamesAt, node, stack, fuel);
    var b := FieldMeans(t, NamesAt, node, fuel);
    assert "$ref" in b && b["$ref"] == Some(Literal(node.fields["$ref"]));
    if out.Obj? {
      var a := FieldMeans(u, NamesAt, out, 0);
      FieldsEqual(a, b);
      if "$ref" in out.fields {
        CleanHasNoSuchName(u, DefsOf(root), node, out);
      }
      assert a != b;
    }
  }

  lemma IsFollowed(t: Guide, root: Json, node: Json)
    requires ReferenceOf(DefsOf(root), node).ToDef? && Regular(t, root, SchemaAt, node)
    ensures Followed(t, root, node)
  {
  }

  lemma NoFields()
    ensures var none: map<string, Option<Meaning>> := map[]; AllFieldsSome(none) == Some(map[])
  {
    var none: map<string, Option<Meaning>> := map[];
    assert forall key :: key !in AllFieldsSome(none).value;
  }

  /** A reference beside containers only. */
  lemma Lonely(t: Guide, root: Json, node: Json, fuel: nat)
    requires Followed(t, root, node)
    ensures forall key :: key in node.fields ==> key in RESERVED || key == "$ref"
    ensures FieldMeans(t, SchemaAt, node, fuel) == map[]
  {
    forall key | key in node.fields ensures key in RESERVED || key == "$ref" {
      assert key !in RESERVED ==> key in node.fields.Keys - RESERVED;
    }
  }

  /** Where the visitor goes from a reference, and with what stack. */
  predicate Leads(root: Json, node: Json, stack: seq<string>, target: Json, longer: seq<string>) {
    var r := ReferenceOf(DefsOf(root), node);
    r.ToDef? && r.name !in stack && target == DefsOf(root)[r.name] && longer == stack + [r.name]
  }

  /** The target of a reference is one the visitor has not met. */
  lemma TargetAsked(t: Guide, root: Json, u: Guide, node: Json, stack: seq<string>, fuel: nat)
    returns (target: Json, longer: seq<string>)
    requires ReferenceOf(DefsOf(root), node).ToDef? && Asked(t, root, u, SchemaAt, node, stack, fuel)
    ensures Leads(root, node, stack, target, longer) && fuel > 0
    ensures Asked(t, root, u, SchemaAt, target, longer, fuel - 1)
    ensures DefsOf(root).Keys - Names(longer) < DefsOf(root).Keys - Names(stack)
  {
    var name := ReferenceOf(DefsOf(root), node).name;
    target, longer := DefsOf(root)[name], stack + [name];
    NoCycleInside(DefsOf(root), node, stack);
    Smaller(DefsOf(root), stack, name);
    FewerLeft(DefsOf(root), stack, name);
    IsFollowed(t, root, node);
    Lonely(t, root, node, 0);
    assert {} + Siblings(node) == {};
    assert Defines(root, name);
  }

  /** It means what its target means. */
  lemma ReferenceMeans(t: Guide, root: Json, node: Json, fuel: nat)
    requires Followed(t, root, node) && fuel > 0
    ensures Means(t, SchemaAt, node, fuel) == Means(t, SchemaAt, DefsOf(root)[ReferenceOf(DefsOf(root), node).name], fuel - 1)
  {
    Lonely(t, root, node, fuel);
    NoFields();
  }

  /** It is replaced by the copy of its target. */
  lemma ReferenceInlined(t: Guide, root: Json, node: Json, stack: seq<string>)
    requires Followed(t, root, node)
    requires !Cyclic(DefsOf(root), node, stack)
    ensures var name := ReferenceOf(DefsOf(root), node).name;
            var resolved := Inlined(DefsOf(root), DefsOf(root)[name], stack + [name]);
            Inlined(DefsOf(root), node, stack) == (if node.fields.Keys == {"$ref"} then resolved else Obj(Spread(resolved)))
  {
    var defs := DefsOf(root);
    var name := ReferenceOf(defs, node).name;
    Smaller(defs, stack, name);
    Lonely(t, root, node, 0);
    var resolved := Inlined(defs, defs[name], stack + [name]);
    assert forall key :: key in node.fields ==> !Copied(key, true);
    if node.fields.Keys != {"$ref"} {
      assert Inlined(defs, node, stack).fields == Spread(resolved);
    }
  }

  /** A meaning that no object has. */
  predicate NotOfObject(m: Option<Meaning>) {
    m.None? || m.value.Literal? || m.value.List?
  }

  /** What is inlined to something that is no object means no object. */
  lemma NoObjectItself(t: Guide, node: Json, fuel: nat)
    requires !node.Obj?
    ensures NotOfObject(Means(t, SchemaAt, node, fuel))
  {
  }

  /** A copy that is no object is that of a value, or of a reference to such. */
  lemma NoObjectCopied(t: Guide, root: Json, node: Json, stack: seq<string>)
    requires node.Obj? && !Inlined(DefsOf(root), node, stack).Obj?
    ensures ReferenceOf(DefsOf(root), node).ToDef? && !Cyclic(DefsOf(root), node, stack)
  {
  }

  lemma NoObjectNext(t: Guide, root: Json, node: Json, stack: seq<string>)
    requires node.Obj? && !Inlined(DefsOf(root), node, stack).Obj? && Followed(t, root, node)
    ensures ReferenceOf(DefsOf(root), node).name !in stack
    ensures var name := ReferenceOf(DefsOf(root), node).name;
            !Inlined(DefsOf(root), DefsOf(root)[name], stack + [name]).Obj?
  {
    NoObjectCopied(t, root, node, stack);
    ReferenceInlined(t, root, node, stack);
  }

  /** Following references, at most `fuel` of them, ends in no object. */
  predicate NoObjectAhead(t: Guide, root: Json, node: Json, fuel: nat)
    decreases fuel
  {
    !node.Obj? ||
    (Followed(t, root, node)
     && (fuel == 0 || NoObjectAhead(t, root, DefsOf(root)[ReferenceOf(DefsOf(root), node).name], fuel - 1)))
  }

  ghost predicate AllGuided(t: Guide, root: Json) {
    forall name {:trigger Defines(root, name)} :: Defines(root, name) ==> Guided(t, root, DefsOf(root)[name])
  }

  lemma RegularIsGuided(t: Guide, root: Json)
    requires AllRegular(t, root)
    ensures AllGuided(t, root)
  {
    forall name | Defines(root, name) ensures Guided(t, root, DefsOf(root)[name]) {
      assert Regular(t, root, SchemaAt, DefsOf(root)[name]);
    }
  }

  lemma {:induction false} CopyHasNoObjectAhead(t: Guide, root: Json, node: Json, stack: seq<string>, fuel: nat)
    requires Guided(t, root, node) && AllGuided(t, root) && !Inlined(DefsOf(root), node, stack).Obj?
    ensures NoObjectAhead(t, root, node, fuel)
    decreases fuel
  {
    if node.Obj? {
      NoObjectCopied(t, root, node, stack);
      NoObjectNext(t, root, node, stack);
      var name := ReferenceOf(DefsOf(root), node).name;
      assert Defines(root, name);
      if fuel > 0 {
        CopyHasNoObjectAhead(t, root, DefsOf(root)[name], stack + [name], fuel - 1);
      }
    }
  }

  lemma {:induction false} NoObjectMeans(t: Guide, root: Json, node: Json, fuel: nat)
    requires NoObjectAhead(t, root, node, fuel)
    ensures NotOfObject(Means(t, SchemaAt, node, fuel))
    decreases fuel
  {
    if !node.Obj? {
      NoObjectItself(t, node, fuel);
    } else if fuel == 0 {
      FollowedNeedsFuel(t, node);
    } else {
      NoObjectMeans(t, root, DefsOf(root)[ReferenceOf(DefsOf(root), node).name], fuel - 1);
      ReferenceMeans(t, root, node, fuel);
    }
  }

  lemma IntactReference(t: Guide, root: Json, node: Json, stack: seq<string>)
    requires ReferenceOf(DefsOf(root), node).ToDef? && ReferenceOf(DefsOf(root), node).name !in stack
    ensures var defs, name := DefsOf(root), ReferenceOf(DefsOf(root), node).name;
            Intact(t, root, SchemaAt, node, stack) <==>
              && Intact(t, root, SchemaAt, defs[name], stack + [name])
              && (node.fields.Keys == {"$ref"} || EndOf(defs, defs[name], stack + [name]).Obj?)
  {
    Smaller(DefsOf(root), stack, ReferenceOf(DefsOf(root), node).name);
  }

  lemma {:induction false} EndIsObject(t: Guide, root: Json, node: Json, stack: seq<string>)
    requires Regular(t, root, SchemaAt, node) && AllRegular(t, root) && !Recurs(DefsOf(root), node, stack)
    requires Intact(t, root, SchemaAt, node, stack)
    ensures Inlined(DefsOf(root), node, stack).Obj? <==> EndOf(DefsOf(root), node, stack).Obj?
    decreases DefsOf(root).Keys - Names(stack)
  {
    var defs := DefsOf(root);
    if node.Obj? && ReferenceOf(defs, node).ToDef? {
      var name := ReferenceOf(defs, node).name;
      NoCycleInside(defs, node, stack);
      IsFollowed(t, root, node);
      ReferenceInlined(t, root, node, stack);
      IntactReference(t, root, node, stack);
      Smaller(defs, stack, name);
      assert Defines(root, name);
      EndIsObject(t, root, defs[name], stack + [name]);
    }
  }

  /** An object never means what no object means. */
  lemma ObjectIsObject(u: Guide, out: Json)
    requires out.Obj? && NoTargets(u)
    ensures !NotOfObject(Means(u, SchemaAt, out, 0))
  {
    FlatMeans(u, SchemaAt, out);
  }

  /** The copy of a reference is the copy of its target, but for an object that stands for a target that is none. */
  lemma TargetCopied(t: Guide, root: Json, node: Json, stack: seq<string>)
    requires Followed(t, root, node)
    requires !Cyclic(DefsOf(root), node, stack)
    ensures var name := ReferenceOf(DefsOf(root), node).name;
            var resolved, out := Inlined(DefsOf(root), DefsOf(root)[name], stack + [name]), Inlined(DefsOf(root), node, stack);
            && (out == resolved <==> node.fields.Keys == {"$ref"} || resolved.Obj?)
            && (out != resolved ==> out.Obj?)
  {
    ReferenceInlined(t, root, node, stack);
  }

  /** A reference is kept with its target, unless it comes to stand for something that is no object. */
  lemma ReferenceCompare(t: Guide, root: Json, u: Guide, node: Json, stack: seq<string>, fuel: nat, target: Json,
                         longer: seq<string>)
    requires ReferenceOf(DefsOf(root), node).ToDef? && ReferenceOf(DefsOf(root), node).name !in stack && fuel > 0
    requires target == DefsOf(root)[ReferenceOf(DefsOf(root), node).name]
    requires longer == stack + [ReferenceOf(DefsOf(root), node).name]
    requires Means(t, SchemaAt, node, fuel) == Means(t, SchemaAt, target, fuel - 1)
    requires var resolved, out := Inlined(DefsOf(root), target, longer), Inlined(DefsOf(root), node, stack);
             && (out == resolved <==> node.fields.Keys == {"$ref"} || resolved.Obj?)
             && (out != resolved ==> !Kept(t, root, u, SchemaAt, node, stack, fuel))
             && (Intact(t, root, SchemaAt, target, longer) ==> (resolved.Obj? <==> EndOf(DefsOf(root), target, longer).Obj?))
    requires Kept(t, root, u, SchemaAt, target, longer, fuel - 1) <==> Intact(t, root, SchemaAt, target, longer)
    ensures Kept(t, root, u, SchemaAt, node, stack, fuel) <==> Intact(t, root, SchemaAt, node, stack)
  {
    IntactReference(t, root, node, stack);
  }

  /** An object does not mean what something without an object ahead means. */
  lemma NoObjectMeant(t: Guide, root: Json, u: Guide, out: Json, node: Json, fuel: nat)
    requires NoObjectAhead(t, root, node, fuel)
    requires out.Obj? && NoTargets(u)
    ensures Means(u, SchemaAt, out, 0) != Means(t, SchemaAt, node, fuel)
  {
    NoObjectMeans(t, root, node, fuel);
    ObjectIsObject(u, out);
  }

  lemma MisplacedReference(t: Guide, root: Json, u: Guide, node: Json, stack: seq<string>, fuel: nat)
    requires fuel > 0 && !Cyclic(DefsOf(root), node, stack)
    requires Followed(t, root, node) && AllGuided(t, root)
    requires NoTargets(u)
    ensures var name := ReferenceOf(DefsOf(root), node).name;
            var resolved, out := Inlined(DefsOf(root), DefsOf(root)[name], stack + [name]), Inlined(DefsOf(root), node, stack);
            out != resolved ==> !Kept(t, root, u, SchemaAt, node, stack, fuel)
  {
    var name := ReferenceOf(DefsOf(root), node).name;
    TargetCopied(t, root, node, stack);
    if Inlined(DefsOf(root), node, stack) != Inlined(DefsOf(root), DefsOf(root)[name], stack + [name]) {
      TargetAhead(t, root, node, stack, fuel);
      NoObjectMeant(t, root, u, Inlined(DefsOf(root), node, stack), node, fuel);
    }
  }

  lemma TargetAhead(t: Guide, root: Json, node: Json, stack: seq<string>, fuel: nat)
    requires fuel > 0 && Followed(t, root, node) && AllGuided(t, root)
    requires var name := ReferenceOf(DefsOf(root), node).name;
             !Inlined(DefsOf(root), DefsOf(root)[name], stack + [name]).Obj?
    ensures NoObjectAhead(t, root, node, fuel)
  {
    var name := ReferenceOf(DefsOf(root), node).name;
    assert Defines(root, name);
    CopyHasNoObjectAhead(t, root, DefsOf(root)[name], stack + [name], fuel - 1);
  }

  lemma TargetEnds(t: Guide, root: Json, u: Guide, target: Json, stack: seq<string>, fuel: nat)
    requires Asked(t, root, u, SchemaAt, target, stack, fuel) && Intact(t, root, SchemaAt, target, stack)
    ensures Inlined(DefsOf(root), target, stack).Obj? <==> EndOf(DefsOf(root), target, stack).Obj?
  {
    EndIsObject(t, root, target, stack);
  }

  lemma ReferenceKept(t: Guide, root: Json, u: Guide, node: Json, stack: seq<string>, fuel: nat)
    requires node.Obj? && ReferenceOf(DefsOf(root), node).ToDef? && Asked(t, root, u, SchemaAt, node, stack, fuel) && fuel > 0
    ensures var name := ReferenceOf(DefsOf(root), node).name;
            name !in stack && Means(t, SchemaAt, node, fuel) == Means(t, SchemaAt, DefsOf(root)[name], fuel - 1)
    ensures var name := ReferenceOf(DefsOf(root), node).name;
            var resolved, out := Inlined(DefsOf(root), DefsOf(root)[name], stack + [name]), Inlined(DefsOf(root), node, stack);
            out == resolved <==> node.fields.Keys == {"$ref"} || resolved.Obj?
  {
    NoCycleInside(DefsOf(root), node, stack);
    TargetCopied(t, root, node, stack);
    ReferenceMeans(t, root, node, fuel);
  }

  /** A reference is kept exactly if its target is, and no object has come to stand for it. */
  lemma TargetKept(t: Guide, root: Json, u: Guide, node: Json, stack: seq<string>, fuel: nat, target: Json, longer: seq<string>)
    requires Leads(root, node, stack, target, longer) && fuel > 0
    requires Asked(t, root, u, SchemaAt, node, stack, fuel) && Asked(t, root, u, SchemaAt, target, longer, fuel - 1)
    requires Kept(t, root, u, SchemaAt, target, longer, fuel - 1) <==> Intact(t, root, SchemaAt, target, longer)
    ensures Kept(t, root, u, SchemaAt, node, stack, fuel) <==> Intact(t, root, SchemaAt, node, stack)
  {
    ReferenceKept(t, root, u, node, stack, fuel);
    InlinedMeans(t, root, u, SchemaAt, node, stack, fuel);
    IsFollowed(t, root, node);
    RegularIsGuided(t, root);
    MisplacedReference(t, root, u, node, stack, fuel);
    if Intact(t, root, SchemaAt, target, longer) {
      TargetEnds(t, root, u, target, longer, fuel - 1);
    }
    ReferenceCompare(t, root, u, node, stack, fuel, target, longer);
  }

  lemma ItemAsked(t: Guide, root: Json, u: Guide, node: Json, stack: seq<string>, fuel: nat, i: nat)
    requires node.Arr? && i < |node.items| && Asked(t, root, u, SchemaAt, node, stack, fuel)
    ensures Asked(t, root, u, SchemaAt, node.items[i], stack, fuel)
  {
  }

  lemma FieldAsked(t: Guide, root: Json, u: Guide, place: Place, node: Json, stack: seq<string>, fuel: nat, key: string)
    requires node.Obj? && ReferenceOf(DefsOf(root), node).Plain? && key in node.fields && key !in RESERVED && !place.DataAt?
    requires Asked(t, root, u, place, node, stack, fuel)
    ensures Asked(t, root, u, Under(t.dialect, place, key), node.fields[key], stack, fuel)
  {
    NoCycleInside(DefsOf(root), node, stack);
  }

  lemma {:induction false} ItemsMeaningKept(t: Guide, root: Json, u: Guide, node: Json, stack: seq<string>, fuel: nat)
    requires node.Arr? && Asked(t, root, u, SchemaAt, node, stack, fuel)
    ensures Kept(t, root, u, SchemaAt, node, stack, fuel) <==> Intact(t, root, SchemaAt, node, stack)
    decreases DefsOf(root).Keys - Names(stack), node, 0
  {
    forall i | 0 <= i < |node.items|
      ensures Kept(t, root, u, SchemaAt, node.items[i], stack, fuel) <==> Intact(t, root, SchemaAt, node.items[i], stack)
      ensures Means(u, SchemaAt, Inlined(DefsOf(root), node.items[i], stack), 0).Some?
    {
      ItemAsked(t, root, u, node, stack, fuel, i);
      InlinedMeans(t, root, u, SchemaAt, node.items[i], stack, fuel);
      MeaningKept(t, root, u, SchemaAt, node.items[i], stack, fuel);
    }
    ListKept(t, root, u, node, stack, fuel);
  }

  lemma {:induction false} FieldsMeaningKept(t: Guide, root: Json, u: Guide, place: Place, node: Json, stack: seq<string>,
                                             fuel: nat)
    requires node.Obj? && ReferenceOf(DefsOf(root), node).Plain? && !place.DataAt?
    requires Asked(t, root, u, place, node, stack, fuel)
    ensures Kept(t, root, u, place, node, stack, fuel) <==> Intact(t, root, place, node, stack)
    decreases DefsOf(root).Keys - Names(stack), node, 0
  {
    forall key | key in node.fields && key !in RESERVED
      ensures Kept(t, root, u, Under(t.dialect, place, key), node.fields[key], stack, fuel)
         <==> Intact(t, root, Under(t.dialect, place, key), node.fields[key], stack)
    {
      FieldAsked(t, root, u, place, node, stack, fuel, key);
      MeaningKept(t, root, u, Under(t.dialect, place, key), node.fields[key], stack, fuel);
    }
    ObjectKept(t, root, u, place, node, stack, fuel);
  }

  lemma {:induction false} TargetMeaningKept(t: Guide, root: Json, u: Guide, node: Json, stack: seq<string>, fuel: nat)
    requires ReferenceOf(DefsOf(root), node).ToDef? && Asked(t, root, u, SchemaAt, node, stack, fuel)
    ensures Kept(t, root, u, SchemaAt, node, stack, fuel) <==> Intact(t, root, SchemaAt, node, stack)
    decreases DefsOf(root).Keys - Names(stack), node, 0
  {
    var name := ReferenceOf(DefsOf(root), node).name;
    NoCycleInside(DefsOf(root), node, stack);
    Smaller(DefsOf(root), stack, name);
    var target, longer := DefsOf(root)[name], stack + [name];
    assert Asked(t, root, u, SchemaAt, target, longer, fuel - 1) by {
      var _, _ := TargetAsked(t, root, u, node, stack, fuel);
    }
    MeaningKept(t, root, u, SchemaAt, target, longer, fuel - 1);
    TargetKept(t, root, u, node, stack, fuel, target, longer);
  }

  lemma {:induction false} MeaningKept(t: Guide, root: Json, u: Guide, place: Place, node: Json, stack: seq<string>, fuel: nat)
    requires Asked(t, root, u, place, node, stack, fuel)
    ensures Kept(t, root, u, place, node, stack, fuel) <==> Intact(t, root, place, node, stack)
    decreases DefsOf(root).Keys - Names(stack), node, 1
  {
    if IsData(place, node) {
      DataKept(t, root, u, place, node, stack, fuel);
    } else if node.Arr? {
      ItemsMeaningKept(t, root, u, node, stack, fuel);
    } else if node.Obj? {
      NoCycleInside(DefsOf(root), node, stack);
      if ReferenceOf(DefsOf(root), node).Plain? {
        FieldsMeaningKept(t, root, u, place, node, stack, fuel);
      } else if place.NamesAt? {
        NamedReferenceIsLost(t, root, u, node, stack, fuel);
      } else {
        TargetMeaningKept(t, root, u, node, stack, fuel);
      }
    }
  }

  /**
   * Inlining keeps the meaning of a schema that is not recursive if and only if
   * nothing the visitor passes is mistaken; its result never needs a reference
   * followed.
   */
  lemma InliningKeepsMeaning(d: Dialect, root: Json, fuel: nat)
    requires Proper(d, root) && Harmless(DefsOf(root), root, [], {})
    requires !InlineRefs.InlineRefs(root).recursive && fuel >= |DefsOf(root)|
    ensures var result := InlineRefs.InlineRefs(root).schema;
            && Clean(DefsOf(root), result)
            && MeaningOf(d, result, 0).Some?
            && (MeaningOf(d, result, 0) == MeaningOf(d, root, fuel) <==> Intact(GuideOf(d, root), root, SchemaAt, root, []))
  {
    var result := InlineRefs.InlineRefs(root).schema;
    assert DefsOf(root).Keys - Names([]) == DefsOf(root).Keys;
    assert |DefsOf(root).Keys| == |DefsOf(root)|;
    NoReferenceLeft(DefsOf(root), root, []);
    CleanHasNoTargets(d, DefsOf(root), result);
    InlinedMeans(GuideOf(d, root), root, GuideOf(d, result), SchemaAt, root, [], fuel);
    MeaningKept(GuideOf(d, root), root, GuideOf(d, result), SchemaAt, root, [], fuel);
  }

  // ---- References to places that are not definitions ----

  lemma {:induction false} WalkStays(d: Dialect, place: Place, node: Json, path: seq<string>, hidden: bool)
    requires Walk(d, place, node, path, hidden).Some?
    ensures hidden ==> Walk(d, place, node, path, hidden).value.hidden
    ensures IsData(place, node) ==> Walk(d, place, node, path, hidden).value.place.DataAt?
    decreases |path|
  {
    if path != [] && node.Arr? {
      WalkStays(d, if place.SchemaAt? then SchemaAt else DataAt, node.items[Number(path[0])], path[1..], hidden);
    } else if path != [] {
      WalkStays(d, Inside(d, place, node, path[0]), node.fields[path[0]], path[1..],
                hidden || (place.SchemaAt? && path[0] in RESERVED));
    }
  }

  /** This path leads to a schema, and not behind a container. */
  predicate InSight(d: Dialect, place: Place, node: Json, path: seq<string>) {
    match Walk(d, place, node, path, false)
    case None => false
    case Some(spot) => spot.place.SchemaAt? && !spot.hidden
  }

  /** Such a path goes through what the visitor copies. */
  lemma WayIsCopied(t: Guide, root: Json, place: Place, node: Json, path: seq<string>)
    requires Regular(t, root, place, node) && Intact(t, root, place, node, []) && !Recurs(DefsOf(root), node, [])
    requires path != [] && node.Obj? && InSight(t.dialect, place, node, path)
    ensures !place.DataAt? && ReferenceOf(DefsOf(root), node).Plain?
    ensures path[0] in node.fields && path[0] !in RESERVED
    ensures Inside(t.dialect, place, node, path[0]) == Under(t.dialect, place, path[0])
    ensures InSight(t.dialect, Under(t.dialect, place, path[0]), node.fields[path[0]], path[1..])
  {
    var next := Inside(t.dialect, place, node, path[0]);
    WalkStays(t.dialect, place, node, path, false);
    WalkStays(t.dialect, next, node.fields[path[0]], path[1..], place.SchemaAt? && path[0] in RESERVED);
    NoCycleInside(DefsOf(root), node, []);
    if place.SchemaAt? && ReferenceOf(DefsOf(root), node).ToDef? {
      IsFollowed(t, root, node);
      Lonely(t, root, node, 0);
    }
  }

  lemma {:induction false} PlaceKept(t: Guide, root: Json, place: Place, node: Json, path: seq<string>)
    requires Regular(t, root, place, node) && Intact(t, root, place, node, []) && !Recurs(DefsOf(root), node, [])
    requires InSight(t.dialect, place, node, path)
    ensures Walk(t.dialect, place, Inlined(DefsOf(root), node, []), path, false)
         == Some(Spot(SchemaAt, Inlined(DefsOf(root), Walk(t.dialect, place, node, path, false).value.node, []), false))
    decreases |path|
  {
    var defs := DefsOf(root);
    if path != [] && node.Arr? {
      WalkStays(t.dialect, place, node, path, false);
      var i := Number(path[0]);
      PlaceKept(t, root, SchemaAt, node.items[i], path[1..]);
    } else if path != [] {
      WayIsCopied(t, root, place, node, path);
      NoCycleInside(defs, node, []);
      InlinedObject(defs, node, []);
      PlaceKept(t, root, Under(t.dialect, place, path[0]), node.fields[path[0]], path[1..]);
    }
  }

  /**
   * A reference that inlining leaves alone because it leads to another place of the
   * schema leads to the copy of that place in the result.
   */
  lemma PlacesAreKept(d: Dialect, root: Json, ref: string)
    requires Proper(d, root) && !InlineRefs.InlineRefs(root).recursive
    requires Intact(GuideOf(d, root), root, SchemaAt, root, [])
    requires Local(ref) && Resolves(d, root, ref) && TargetOf(d, root, ref).None?
    ensures SpotOf(d, InlineRefs.InlineRefs(root).schema, ref)
         == Some(Spot(SchemaAt, Inlined(DefsOf(root), SpotOf(d, root, ref).value.node, []), false))
  {
    PlaceKept(GuideOf(d, root), root, SchemaAt, root, d.read(ref).value);
  }

  // ---- What is not kept ----

  /** A property with the name of a container is lost. */
  const TEXT := Obj(map["type" := Str("string")])
  const PROPERTY := Obj(map["properties" := Obj(map["definitions" := TEXT])])

  lemma PropertyInlined()
    ensures DefsOf(PROPERTY) == map[] && !Recurs(map[], PROPERTY, [])
    ensures Inlined(map[], PROPERTY, []) == Obj(map["properties" := Obj(map[])])
  {
    var properties := PROPERTY.fields["properties"];
    InlinedObject(map[], properties, []);
    assert Inlined(map[], properties, []).fields == map[];
    InlinedObject(map[], PROPERTY, []);
    assert Inlined(map[], PROPERTY, []).fields == map["properties" := Obj(map[])];
    assert !Recurs(map[], properties, []);
  }

  lemma PropertyIsMistaken()
    requires DefsOf(PROPERTY) == map[]
    ensures !Intact(GuideOf(STANDARD, PROPERTY), PROPERTY, SchemaAt, PROPERTY, [])
  {
    var properties := PROPERTY.fields["properties"];
    assert "definitions" in RESERVED && "definitions" in properties.fields.Keys;
    assert !Intact(GuideOf(STANDARD, PROPERTY), PROPERTY, NamesAt, properties, []);
    assert "properties" in PROPERTY.fields && Under(STANDARD, SchemaAt, "properties") == NamesAt;
  }

  lemma TextIsRegular(d: Dialect, root: Json)
    ensures Regular(GuideOf(d, root), root, SchemaAt, TEXT) && Resolving(d, root, SchemaAt, TEXT)
  {
  }

  lemma PropertyIsProper(d: Dialect)
    requires DefsOf(PROPERTY) == map[] && Under(d, SchemaAt, "properties") == NamesAt
    ensures Proper(d, PROPERTY)
  {
    var properties := PROPERTY.fields["properties"];
    TextIsRegular(d, PROPERTY);
    assert Regular(GuideOf(d, PROPERTY), PROPERTY, NamesAt, properties);
    assert Resolving(d, PROPERTY, NamesAt, properties);
  }

  lemma PropertyIsLost()
    ensures var result := InlineRefs.InlineRefs(PROPERTY);
            && result == ModelSchema(Obj(map["properties" := Obj(map[])]), false)
            && MeaningOf(STANDARD, result.schema, 0) != MeaningOf(STANDARD, PROPERTY, 0)
  {
    PropertyInlined();
    PropertyIsMistaken();
    PropertyIsProper(STANDARD);
    InliningKeepsMeaning(STANDARD, PROPERTY, 0);
  }

  /** A constant that looks like a reference is replaced. */
  const LOOK_ALIKE := Obj(map["$ref" := Str("#/$defs/a")])
  const CONSTANT := Obj(map["const" := LOOK_ALIKE, "$defs" := Obj(map["a" := TEXT])])

  lemma LookAlikeRefers(root: Json)
    requires "a" in DefsOf(root)
    ensures ReferenceOf(DefsOf(root), LOOK_ALIKE) == ToDef("a")
  {
    var prefix, ref := "#/$defs/", "#/$defs/a";
    assert ref[|prefix|..] == "a" && prefix < ref;
  }

  lemma LookAlikeInlined(defs: Defs)
    requires defs == map["a" := TEXT] && ReferenceOf(defs, LOOK_ALIKE) == ToDef("a")
    ensures Inlined(defs, LOOK_ALIKE, []) == TEXT && !Recurs(defs, LOOK_ALIKE, [])
  {
    Smaller(defs, [], "a");
    CleanStays(defs, TEXT, ["a"]);
    assert [] + ["a"] == ["a"] && LOOK_ALIKE.fields.Keys == {"$ref"};
    assert !Recurs(defs, TEXT, ["a"]);
  }

  lemma ConstantInlined()
    ensures DefsOf(CONSTANT) == map["a" := TEXT] && !Recurs(DefsOf(CONSTANT), CONSTANT, [])
    ensures Inlined(DefsOf(CONSTANT), CONSTANT, []) == Obj(map["const" := TEXT])
  {
    var defs := DefsOf(CONSTANT);
    assert defs == map["a" := TEXT];
    LookAlikeRefers(CONSTANT);
    LookAlikeInlined(defs);
    InlinedObject(defs, CONSTANT, []);
    assert Inlined(defs, CONSTANT, []).fields == map["const" := TEXT];
  }

  lemma ConstantIsMistaken()
    requires DefsOf(CONSTANT) == map["a" := TEXT]
    ensures !Intact(GuideOf(STANDARD, CONSTANT), CONSTANT, SchemaAt, CONSTANT, [])
  {
    LookAlikeRefers(CONSTANT);
    assert !Clean(DefsOf(CONSTANT), LOOK_ALIKE);
    assert "const" in CONSTANT.fields && Under(STANDARD, SchemaAt, "const") == DataAt;
  }

  lemma ConstantIsProper()
    requires DefsOf(CONSTANT) == map["a" := TEXT]
    ensures Proper(STANDARD, CONSTANT)
  {
    TextIsRegular(STANDARD, CONSTANT);
    assert Regular(GuideOf(STANDARD, CONSTANT), CONSTANT, DataAt, LOOK_ALIKE) && Under(STANDARD, SchemaAt, "const") == DataAt;
  }

  lemma ConstantIsHarmless()
    requires DefsOf(CONSTANT) == map["a" := TEXT] && !Recurs(DefsOf(CONSTANT), CONSTANT, [])
    requires Inlined(DefsOf(CONSTANT), CONSTANT, []) == Obj(map["const" := TEXT])
    ensures Harmless(DefsOf(CONSTANT), CONSTANT, [], {})
  {
    NoReferenceLeft(DefsOf(CONSTANT), CONSTANT, []);
    assert Clean(DefsOf(CONSTANT), TEXT);
  }

  lemma ConstantIsReplaced()
    ensures var result := InlineRefs.InlineRefs(CONSTANT);
            && result == ModelSchema(Obj(map["const" := TEXT]), false)
            && MeaningOf(STANDARD, result.schema, 0) != MeaningOf(STANDARD, CONSTANT, 1)
  {
    ConstantInlined();
    ConstantIsMistaken();
    ConstantIsProper();
    ConstantIsHarmless();
    InliningKeepsMeaning(STANDARD, CONSTANT, 1);
  }

  /** A schema that accepts nothing becomes one that accepts everything. */
  const NEVER := Obj(map["$ref" := Str("#/$defs/a"), "$defs" := Obj(map["a" := Bool(false)])])

  /** A reference to a definition called `a`, as the standard reads it. */
  lemma LeadsToA(root: Json)
    requires root.Obj? && "$defs" in root.fields && root.fields["$defs"].Obj? && "a" in root.fields["$defs"].fields
    ensures SpotOf(STANDARD, root, "#/$defs/a") == Some(Spot(SchemaAt, root.fields["$defs"].fields["a"], true))
  {
    var path := ["$defs", "a"];
    RoundTrip(path);
    WrittenA();
    LeadsToDefinition(root, "a");
  }

  /** The path to a definition leads behind its container. */
  lemma LeadsToDefinition(root: Json, name: string)
    requires root.Obj? && "$defs" in root.fields && root.fields["$defs"].Obj? && name in root.fields["$defs"].fields
    ensures Walk(STANDARD, SchemaAt, root, ["$defs", name], false)
         == Some(Spot(SchemaAt, root.fields["$defs"].fields[name], true))
  {
    var path, defs := ["$defs", name], root.fields["$defs"];
    assert path[1..] == [name] && [name][1..] == [];
    assert Inside(STANDARD, SchemaAt, root, "$defs") == NamesAt && Inside(STANDARD, NamesAt, defs, name) == SchemaAt;
    assert Walk(STANDARD, SchemaAt, defs.fields[name], [], true) == Some(Spot(SchemaAt, defs.fields[name], true));
    assert Walk(STANDARD, NamesAt, defs, [name], true) == Walk(STANDARD, SchemaAt, defs.fields[name], [], true);
  }

  lemma Spelled(first: string, second: string)
    requires first == "$defs"
    ensures "#/" + first + "/" + second == "#/$defs/" + second
  {
    assert "#/" + first + "/" == "#/$defs/";
  }

  lemma WrittenA()
    ensures Written(["$defs", "a"]) == "#/$defs/a"
  {
    var first, second := "$defs", "a";
    assert PlainName(first) && PlainName(second);
    WrittenPlain(first, second);
    Spelled(first, second);
  }

  lemma NeverRefers()
    ensures DefsOf(NEVER) == map["a" := Bool(false)] && Followed(GuideOf(STANDARD, NEVER), NEVER, NEVER)
  {
    assert DefsOf(NEVER) == map["a" := Bool(false)];
    LookAlikeRefers(NEVER);
    LeadsToA(NEVER);
    assert ReferenceOf(DefsOf(NEVER), NEVER) == ToDef("a");
    assert NEVER.fields.Keys - RESERVED == {"$ref"};
  }

  lemma NeverInlined()
    requires DefsOf(NEVER) == map["a" := Bool(false)] && ReferenceOf(DefsOf(NEVER), NEVER) == ToDef("a")
    ensures InlineRefs.InlineRefs(NEVER) == ModelSchema(Obj(map[]), false)
  {
    var defs := DefsOf(NEVER);
    Smaller(defs, [], "a");
    assert [] + ["a"] == ["a"] && Inlined(defs, Bool(false), ["a"]) == Bool(false) && Spread(Bool(false)) == map[];
    assert NEVER.fields.Keys != {"$ref"} by {
      assert "$defs" in NEVER.fields.Keys;
    }
    assert forall key :: key in NEVER.fields ==> !Copied(key, true);
    assert Inlined(defs, NEVER, []).fields == map[];
    assert !Recurs(defs, NEVER, []);
  }

  lemma NothingBecomesEverything()
    ensures var result := InlineRefs.InlineRefs(NEVER);
            && result == ModelSchema(Obj(map[]), false)
            && MeaningOf(STANDARD, NEVER, 1) == Some(Literal(Bool(false)))
            && MeaningOf(STANDARD, result.schema, 0) == Some(Keywords(map[]))
  {
    NeverRefers();
    NeverInlined();
    ReferenceMeans(GuideOf(STANDARD, NEVER), NEVER, NEVER, 1);
    NothingMeans();
  }

  lemma NothingMeans()
    ensures MeaningOf(STANDARD, Obj(map[]), 0) == Some(Keywords(map[]))
  {
    assert FieldMeans(GuideOf(STANDARD, Obj(map[])), SchemaAt, Obj(map[]), 0) == map[];
    NoFields();
  }

  /** A reference that the visitor does not know is left without its definition. */
  const ESCAPED := Obj(map["$ref" := Str("#/$defs/a~1b"), "$defs" := Obj(map["a/b" := TEXT])])

  lemma EscapedIsPlain()
    ensures DefsOf(ESCAPED) == map["a/b" := TEXT] && ReferenceOf(DefsOf(ESCAPED), ESCAPED).Plain?
  {
    var prefix, ref := "#/$defs/", "#/$defs/a~1b";
    assert ref[|prefix|..] == "a~1b" && prefix < ref;
    assert "a~1b"[1] != "a/b"[1];
  }

  lemma EscapedSlash()
    ensures Escaped("a/b") == "a~1b"
  {
    var rest := "a/b"[1..];
    assert rest == "/b" && rest[1..] == "b" && "b"[1..] == "";
    assert Escaped("b") == "b" && Escaped(rest) == "~1" + "b";
  }

  lemma WrittenDefinition(name: string, written: string)
    requires Escaped(name) == written && '%' !in written
    ensures Written(["$defs", name]) == "#/$defs/" + written
  {
    var first := "$defs";
    assert PlainName(first);
    EscapesNothing(first);
    WrittenTwo(first, name);
    Spelled(first, written);
  }

  /** As the standard has it, it leads to the definition. */
  lemma LeadsThere(root: Json, name: string, ref: string)
    requires root.Obj? && "$defs" in root.fields && root.fields["$defs"].Obj? && name in root.fields["$defs"].fields
    requires ref == Written(["$defs", name])
    ensures SpotOf(STANDARD, root, ref) == Some(Spot(SchemaAt, root.fields["$defs"].fields[name], true))
  {
    RoundTrip(["$defs", name]);
    LeadsToDefinition(root, name);
  }

  /** Where there are no definitions it leads nowhere. */
  lemma LeadsNowhere(root: Json, name: string, ref: string)
    requires root.Obj? && "$defs" !in root.fields && ref == Written(["$defs", name])
    ensures SpotOf(STANDARD, root, ref).None?
  {
    RoundTrip(["$defs", name]);
  }

  lemma EscapedWritten()
    ensures Written(["$defs", "a/b"]) == "#/$defs/a~1b"
  {
    EscapedSlash();
    WrittenDefinition("a/b", "a~1b");
    assert "#/$defs/" + "a~1b" == "#/$defs/a~1b";
  }

  /** A schema whose own reference leads to its one definition, spelled in whatever way. */
  predicate LoneReference(d: Dialect, root: Json, name: string, ref: string) {
    && root == Obj(map["$ref" := Str(ref), "$defs" := Obj(map[name := TEXT])])
    && SpotOf(d, root, ref) == Some(Spot(SchemaAt, TEXT, true))
    && ReferenceOf(DefsOf(root), root).Plain?
  }

  lemma LoneReferenceIsProper(d: Dialect, root: Json, name: string, ref: string)
    requires LoneReference(d, root, name, ref)
    ensures Proper(d, root)
  {
    assert forall key :: key in root.fields ==> key in RESERVED || key == "$ref";
    assert Under(d, SchemaAt, "$ref") == DataAt;
    assert DefsOf(root) == map[name := TEXT];
    TextIsRegular(d, root);
  }

  /** Unless the visitor knows the reference it leaves it, and the result has no definitions. */
  lemma LoneReferenceIsMistaken(d: Dialect, root: Json, name: string, ref: string)
    requires LoneReference(d, root, name, ref)
    ensures !Intact(GuideOf(d, root), root, SchemaAt, root, [])
  {
    assert StandardTarget(GuideOf(d, root), root) == Some(TEXT);
  }

  lemma LoneReferenceInlined(defs: Defs, node: Json, ref: string)
    requires node.Obj? && node.fields.Keys == {"$ref", "$defs"} && node.fields["$ref"] == Str(ref)
    requires ReferenceOf(defs, node).Plain?
    ensures Inlined(defs, node, []) == Obj(map["$ref" := Str(ref)])
    ensures !Recurs(defs, node, []) && Harmless(defs, node, [], {})
  {
    var out := Obj(map["$ref" := Str(ref)]);
    InlinedObject(defs, node, []);
    assert Inlined(defs, node, []).fields == out.fields;
    assert Clean(defs, out);
    NoReferenceLeft(defs, node, []);
  }

  lemma EscapedIsLone()
    ensures LoneReference(STANDARD, ESCAPED, "a/b", "#/$defs/a~1b")
    ensures SpotOf(STANDARD, Obj(map["$ref" := Str("#/$defs/a~1b")]), "#/$defs/a~1b").None?
  {
    EscapedIsPlain();
    EscapedWritten();
    LeadsThere(ESCAPED, "a/b", "#/$defs/a~1b");
    LeadsNowhere(Obj(map["$ref" := Str("#/$defs/a~1b")]), "a/b", "#/$defs/a~1b");
  }

  lemma EscapedIsLost()
    ensures var result := InlineRefs.InlineRefs(ESCAPED);
            && result == ModelSchema(Obj(map["$ref" := Str("#/$defs/a~1b")]), false)
            && MeaningOf(STANDARD, result.schema, 0) != MeaningOf(STANDARD, ESCAPED, 1)
  {
    EscapedIsPlain();
    EscapedIsLone();
    LoneReferenceInlined(DefsOf(ESCAPED), ESCAPED, "#/$defs/a~1b");
    LoneReferenceIsProper(STANDARD, ESCAPED, "a/b", "#/$defs/a~1b");
    LoneReferenceIsMistaken(STANDARD, ESCAPED, "a/b", "#/$defs/a~1b");
    InliningKeepsMeaning(STANDARD, ESCAPED, 1);
  }

  /** A definition that is a string can become the reference that was not there. */
  const MISLED := Obj(map["$ref" := LOOK_ALIKE, "$defs" := Obj(map["a" := Str("#")])])

  lemma StringBecomesReference()
    ensures var result := InlineRefs.InlineRefs(MISLED);
            && result == ModelSchema(Obj(map["$ref" := Str("#")]), false)
            && ReferenceOf(DefsOf(MISLED), result.schema) == ToRoot
            && !Harmless(DefsOf(MISLED), MISLED, [], {})
  {
    var defs := DefsOf(MISLED);
    assert defs == map["a" := Str("#")];
    LookAlikeRefers(MISLED);
    Smaller(defs, [], "a");
    assert [] + ["a"] == ["a"] && LOOK_ALIKE.fields.Keys == {"$ref"};
    assert Inlined(defs, LOOK_ALIKE, []) == Str("#");
    InlinedObject(defs, MISLED, []);
    assert Inlined(defs, MISLED, []).fields == map["$ref" := Str("#")];
    assert !Recurs(defs, LOOK_ALIKE, []);
    assert !Recurs(defs, MISLED, []);
    NoReferenceLeft(defs, MISLED, []);
  }

  /** It can even come out as the reference it replaces: unchanged, but not clean. */
  const LOOP := Obj(map["$ref" := Obj(map["$ref" := Str("#/$defs/b")])])
  const LOOP_DEFS: Defs := map["a" := LOOP, "b" := Str("#/$defs/a")]

  lemma LoopRefers()
    ensures ReferenceOf(LOOP_DEFS, LOOK_ALIKE) == ToDef("a")
    ensures ReferenceOf(LOOP_DEFS, Obj(map["$ref" := Str("#/$defs/b")])) == ToDef("b")
  {
    var prefix, a, b := "#/$defs/", "#/$defs/a", "#/$defs/b";
    assert a[|prefix|..] == "a" && prefix < a;
    assert b[|prefix|..] == "b" && prefix < b;
  }

  /** So `Harmless` cannot be left out of `UnchangedExactly`. */
  lemma ReferenceReplacesItself()
    ensures Inlined(LOOP_DEFS, LOOK_ALIKE, []) == LOOK_ALIKE && !Recurs(LOOP_DEFS, LOOK_ALIKE, [])
    ensures !Clean(LOOP_DEFS, LOOK_ALIKE) && !Harmless(LOOP_DEFS, LOOK_ALIKE, [], {})
  {
    var defs, inner := LOOP_DEFS, Obj(map["$ref" := Str("#/$defs/b")]);
    LoopRefers();
    Smaller(defs, [], "a");
    Smaller(defs, ["a"], "b");
    assert [] + ["a"] == ["a"] && ["a"] + ["b"] == ["a", "b"] && LOOK_ALIKE.fields.Keys == {"$ref"} == inner.fields.Keys;
    assert Inlined(defs, inner, ["a"]) == Str("#/$defs/a");
    assert !Recurs(defs, inner, ["a"]);
    InlinedObject(defs, LOOP, ["a"]);
    assert Inlined(defs, LOOP, ["a"]).fields == LOOK_ALIKE.fields;
    assert !Recurs(defs, LOOP, ["a"]);
    assert !Recurs(defs, LOOK_ALIKE, []);
    NoReferenceLeft(defs, LOOK_ALIKE, []);
  }

  /** A schema that has its name in a container loses it, which is why identifiers are excluded. */
  const ANCHORED := Obj(map["$ref" := Str("#here"), "$defs" := Obj(map["a" := Obj(map["$anchor" := Str("here")])])])

  lemma AnchorIsLost()
    ensures InlineRefs.InlineRefs(ANCHORED) == ModelSchema(Obj(map["$ref" := Str("#here")]), false)
    ensures !Proper(STANDARD, ANCHORED)
  {
    assert "#here"[1] != "#/$defs/"[1] && "#here"[1] != "#/definitions/"[1];
    assert After("#/$defs/", "#here").None? && After("#/definitions/", "#here").None?;
    LoneReferenceInlined(DefsOf(ANCHORED), ANCHORED, "#here");
    var def := Obj(map["$anchor" := Str("here")]);
    assert Defines(ANCHORED, "a") && DefsOf(ANCHORED)["a"] == def;
    assert "$anchor" in def.fields.Keys && "$anchor" in IDENTIFIERS;
    assert !Resolving(STANDARD, ANCHORED, SchemaAt, def);
  }
}
