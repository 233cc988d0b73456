/**
 * Files inside JSON values: extraction replaces every blob by a placeholder and
 * lists the blobs, injection puts them back.
 */
module Files {
  import opened Basics

  datatype Blob = Blob(size: nat, body: seq<int>)

  /**
   * A value before or after extraction. Objects and arrays are nodes with entries
   * in order (an array's keys do not matter); `at` is the object's identity, and
   * `Opaque` is an object of some other class. An array or an object of another
   * class can have further properties: `looks` is its `id` if they look like those
   * of a placeholder. It says nothing of other objects, whose entries show it.
   */
  datatype Tree =
    | Scalar(json: Json)
    | File(blob: Blob)
    | Opaque(at: nat, looks: Option<string>)
    | Node(at: nat, isArray: bool, looks: Option<string>, entries: seq<Entry>)
  datatype Entry = Entry(key: string, child: Tree)

  datatype Limits = Limits(maxFiles: nat, maxFileSize: nat)

  datatype Problem = TooManyFiles | FileTooLarge | CircularValue | MissingPart(id: string) | UnexpectedPart

  datatype Result<+T> = Ok(value: T) | Error(problem: Problem)

  const SKIP_KEYS := {"__proto__", "constructor", "prototype"}

  /** The identity of an object made by a walk. */
  const MADE := 0

  predicate Skipped(isArray: bool, key: string) {
    !isArray && key in SKIP_KEYS
  }

  function Get(entries: seq<Entry>, key: string): Option<Tree> {
    if entries == [] then None else if entries[0].key == key then Some(entries[0].child) else Get(entries[1..], key)
  }

  predicate IsString(t: Option<Tree>) {
    t.Some? && t.value.Scalar? && t.value.json.Str?
  }

  predicate IsFilePlaceholder(t: Tree) {
    match t
    case Opaque(_, looks) => looks.Some?
    case Node(_, isArray, looks, entries) =>
      if isArray then looks.Some? else Get(entries, "$pf") == Some(Scalar(Str("file"))) && IsString(Get(entries, "id"))
    case _ => false
  }

  function PlaceholderId(t: Tree): string
    requires IsFilePlaceholder(t)
  {
    if t.Opaque? || t.isArray then t.looks.value else Get(t.entries, "id").value.json.s
  }

  function Placeholder(id: string): Tree {
    Node(MADE, false, None, [Entry("$pf", Scalar(Str("file"))), Entry("id", Scalar(Str(id)))])
  }

  // ---- Extraction ----

  /** What a walk has collected so far. */
  datatype Bag = Bag(files: seq<Blob>, seen: set<nat>)

  function Extract(t: Tree, bag: Bag, limits: Limits): Result<(Tree, Bag)>
    decreases t
  {
    match t
    case File(blob) =>
      if |bag.files| >= limits.maxFiles then Error(TooManyFiles)
      else if blob.size > limits.maxFileSize then Error(FileTooLarge)
      else Ok((Placeholder(Decimal(|bag.files|)), bag.(files := bag.files + [blob])))
    case Scalar(_) => Ok((t, bag))
    case Opaque(at, _) => if at in bag.seen then Error(CircularValue) else Ok((t, bag.(seen := bag.seen + {at})))
    case Node(at, isArray, looks, entries) =>
      if at in bag.seen then Error(CircularValue)
      else
        match ExtractEntries(entries, isArray, bag.(seen := bag.seen + {at}), limits)
        case Error(problem) => Error(problem)
        case Ok(r) => Ok((Node(MADE, isArray, None, r.0), r.1))
  }

  function ExtractEntries(entries: seq<Entry>, isArray: bool, bag: Bag, limits: Limits): Result<(seq<Entry>, Bag)>
    decreases entries
  {
    if entries == [] then Ok(([], bag))
    else if Skipped(isArray, entries[0].key) then ExtractEntries(entries[1..], isArray, bag, limits)
    else
      match Extract(entries[0].child, bag, limits)
      case Error(problem) => Error(problem)
      case Ok(first) =>
        match ExtractEntries(entries[1..], isArray, first.1, limits)
        case Error(problem) => Error(problem)
        case Ok(rest) => Ok(([Entry(entries[0].key, first.0)] + rest.0, rest.1))
  }

  const EMPTY := Bag([], {})

  /** The value with placeholders, and the files. */
  function ExtractFiles(t: Tree, limits: Limits): Result<(Tree, seq<Blob>)> {
    match Extract(t, EMPTY, limits)
    case Error(problem) => Error(problem)
    case Ok(r) => Ok((r.0, r.1.files))
  }

  // ---- Injection ----

  function Inject(t: Tree, parts: map<string, Blob>, used: set<string>): Result<(Tree, set<string>)>
    decreases t
  {
    if IsFilePlaceholder(t) then
      var id := PlaceholderId(t);
      if id in parts then Ok((File(parts[id]), used + {id})) else Error(MissingPart(id))
    else if !t.Node? then Ok((t, used))
    else
      match InjectEntries(t.entries, t.isArray, parts, used)
      case Error(problem) => Error(problem)
      case Ok(r) => Ok((Node(MADE, t.isArray, None, r.0), r.1))
  }

  function InjectEntries(entries: seq<Entry>, isArray: bool, parts: map<string, Blob>, used: set<string>)
    : Result<(seq<Entry>, set<string>)>
    decreases entries
  {
    if entries == [] then Ok(([], used))
    else if Skipped(isArray, entries[0].key) then InjectEntries(entries[1..], isArray, parts, used)
    else
      match Inject(entries[0].child, parts, used)
      case Error(problem) => Error(problem)
      case Ok(first) =>
        match InjectEntries(entries[1..], isArray, parts, first.1)
        case Error(problem) => Error(problem)
        case Ok(rest) => Ok(([Entry(entries[0].key, first.0)] + rest.0, rest.1))
  }

  function InjectFiles(t: Tree, parts: map<string, Blob>): Result<Tree> {
    match Inject(t, parts, {})
    case Error(problem) => Error(problem)
    case Ok(r) => if |r.1| != |parts| then Error(UnexpectedPart) else Ok(r.0)
  }

  /** Each file under its number. */
  function PartsOf(files: seq<Blob>): map<string, Blob> {
    if files == [] then map[]
    else
      var last := |files| - 1;
      PartsOf(files[..last])[Decimal(last) := files[last]]
  }

  // ---- The walkers, step by step ----

  class Extractor {
    const limits: Limits
    var files: seq<Blob>
    var seen: set<nat>

    ghost function Held(): Bag
      reads this
    {
      Bag(files, seen)
    }

    constructor (limits: Limits)
      ensures this.limits == limits && Held() == EMPTY
    {
      this.limits, files, seen := limits, [], {};
    }

    method Walk(t: Tree) returns (r: Result<Tree>)
      modifies this
      ensures match Extract(t, old(Held()), limits)
              case Error(problem) => r == Error(problem)
              case Ok(out) => r == Ok(out.0) && Held() == out.1
      decreases t, 1
    {
      if t.File? {
        if |files| >= limits.maxFiles {
          return Error(TooManyFiles);
        }
        if t.blob.size > limits.maxFileSize {
          return Error(FileTooLarge);
        }
        var id := Decimal(|files|);
        files := files + [t.blob];
        return Ok(Placeholder(id));
      }
      if t.Scalar? {
        return Ok(t);
      }
      if t.at in seen {
        return Error(CircularValue);
      }
      seen := seen + {t.at};
      if t.Opaque? {
        return Ok(t);
      }
      var out := WalkEntries(t);
      return if out.Error? then Error(out.problem) else Ok(Node(MADE, t.isArray, None, out.value));
    }

    method WalkEntries(t: Tree) returns (r: Result<seq<Entry>>)
      requires t.Node?
      modifies this
      ensures match ExtractEntries(t.entries, t.isArray, old(Held()), limits)
              case Error(problem) => r == Error(problem)
              case Ok(out) => r == Ok(out.0) && Held() == out.1
      decreases t, 0
    {
      var entries := t.entries;
      var out: seq<Entry> := [];
      var i := 0;
      assert entries[0..] == entries && forall rest: seq<Entry> :: out + rest == rest;
      while i < |entries|
        invariant 0 <= i <= |entries|
        invariant match ExtractEntries(entries[i..], t.isArray, Held(), limits)
                  case Error(problem) => ExtractEntries(entries, t.isArray, old(Held()), limits) == Error(problem)
                  case Ok(rest) => ExtractEntries(entries, t.isArray, old(Held()), limits) == Ok((out + rest.0, rest.1))
        decreases |entries| - i
      {
        assert entries[i..][1..] == entries[i + 1..];
        var entry := entries[i];
        i := i + 1;
        if Skipped(t.isArray, entry.key) {
          continue;
        }
        var child := Walk(entry.child);
        if child.Error? {
          return Error(child.problem);
        }
        ghost var before := out;
        out := out + [Entry(entry.key, child.value)];
        assert forall rest: seq<Entry> :: before + ([Entry(entry.key, child.value)] + rest) == out + rest;
      }
      assert out + [] == out;
      return Ok(out);
    }
  }

  class Injector {
    const parts: map<string, Blob>
    var used: set<string>

    constructor (parts: map<string, Blob>)
      ensures this.parts == parts && used == {}
    {
      this.parts, used := parts, {};
    }

    method Walk(t: Tree) returns (r: Result<Tree>)
      modifies this
      ensures match Inject(t, parts, old(used))
              case Error(problem) => r == Error(problem)
              case Ok(out) => r == Ok(out.0) && used == out.1
      decreases t, 1
    {
      if IsFilePlaceholder(t) {
        var id := PlaceholderId(t);
        if id !in parts {
          return Error(MissingPart(id));
        }
        used := used + {id};
        return Ok(File(parts[id]));
      }
      if !t.Node? {
        return Ok(t);
      }
      var out := WalkEntries(t);
      return if out.Error? then Error(out.problem) else Ok(Node(MADE, t.isArray, None, out.value));
    }

    method WalkEntries(t: Tree) returns (r: Result<seq<Entry>>)
      requires t.Node?
      modifies this
      ensures match InjectEntries(t.entries, t.isArray, parts, old(used))
              case Error(problem) => r == Error(problem)
              case Ok(out) => r == Ok(out.0) && used == out.1
      decreases t, 0
    {
      var entries := t.entries;
      var out: seq<Entry> := [];
      var i := 0;
      assert entries[0..] == entries && forall rest: seq<Entry> :: out + rest == rest;
      while i < |entries|
        invariant 0 <= i <= |entries|
        invariant match InjectEntries(entries[i..], t.isArray, parts, used)
                  case Error(problem) => InjectEntries(entries, t.isArray, parts, old(used)) == Error(problem)
                  case Ok(rest) => InjectEntries(entries, t.isArray, parts, old(used)) == Ok((out + rest.0, rest.1))
        decreases |entries| - i
      {
        assert entries[i..][1..] == entries[i + 1..];
        var entry := entries[i];
        i := i + 1;
        if Skipped(t.isArray, entry.key) {
          continue;
        }
        var child := Walk(entry.child);
        if child.Error? {
          return Error(child.problem);
        }
        ghost var before := out;
        out := out + [Entry(entry.key, child.value)];
        assert forall rest: seq<Entry> :: before + ([Entry(entry.key, child.value)] + rest) == out + rest;
      }
      assert out + [] == out;
      return Ok(out);
    }
  }

  method InjectAll(t: Tree, parts: map<string, Blob>) returns (r: Result<Tree>)
    ensures r == InjectFiles(t, parts)
  {
    var injector := new Injector(parts);
    var out := injector.Walk(t);
    if out.Error? {
      return Error(out.problem);
    }
    if |injector.used| != |parts| {
      return Error(UnexpectedPart);
    }
    return Ok(out.value);
  }

  method ExtractAll(t: Tree, limits: Limits) returns (r: Result<(Tree, seq<Blob>)>)
    ensures r == ExtractFiles(t, limits)
  {
    var extractor := new Extractor(limits);
    var out := extractor.Walk(t);
    if out.Error? {
      return Error(out.problem);
    }
    return Ok((out.value, extractor.files));
  }

  // ---- What extraction collects ----

  /** The blobs of a value in the order of the walk, without those under skipped keys. */
  function Blobs(t: Tree): seq<Blob>
    decreases t
  {
    match t
    case File(blob) => [blob]
    case Node(_, isArray, _, entries) => EntryBlobs(entries, isArray)
    case _ => []
  }

  function EntryBlobs(entries: seq<Entry>, isArray: bool): seq<Blob>
    decreases entries
  {
    if entries == [] then []
    else (if Skipped(isArray, entries[0].key) then [] else Blobs(entries[0].child)) + EntryBlobs(entries[1..], isArray)
  }

  /** The identities of the objects a walk visits, in order. */
  function Objects(t: Tree): seq<nat>
    decreases t
  {
    match t
    case Opaque(at, _) => [at]
    case Node(at, isArray, looks, entries) => [at] + EntryObjects(entries, isArray)
    case _ => []
  }

  function EntryObjects(entries: seq<Entry>, isArray: bool): seq<nat>
    decreases entries
  {
    if entries == [] then []
    else (if Skipped(isArray, entries[0].key) then [] else Objects(entries[0].child)) + EntryObjects(entries[1..], isArray)
  }

  /** The value without what is under skipped keys, in new objects. */
  function Pruned(t: Tree): Tree
    decreases t
  {
    match t
    case Node(_, isArray, _, entries) => Node(MADE, isArray, None, PrunedEntries(entries, isArray))
    case _ => t
  }

  function PrunedEntries(entries: seq<Entry>, isArray: bool): seq<Entry>
    decreases entries
  {
    if entries == [] then []
    else
      (if Skipped(isArray, entries[0].key) then [] else [Entry(entries[0].key, Pruned(entries[0].child))])
      + PrunedEntries(entries[1..], isArray)
  }

  /** No object of the value is taken for a placeholder; an array is copied, without its further properties. */
  predicate NoLookAlikes(t: Tree)
    decreases t
  {
    match t
    case Opaque(_, looks) => looks.None?
    case Node(_, isArray, _, entries) => (isArray || !IsFilePlaceholder(t)) && NoLookAlikesIn(entries, isArray)
    case _ => true
  }

  predicate NoLookAlikesIn(entries: seq<Entry>, isArray: bool)
    decreases entries
  {
    entries != [] ==>
      (Skipped(isArray, entries[0].key) || NoLookAlikes(entries[0].child)) && NoLookAlikesIn(entries[1..], isArray)
  }

  // ---- Exactly when extraction succeeds ----

  predicate AllDistinct(objects: seq<nat>) {
    forall i, j :: 0 <= i < j < |objects| ==> objects[i] != objects[j]
  }

  predicate NoneIn(objects: seq<nat>, seen: set<nat>) {
    forall i :: 0 <= i < |objects| ==> objects[i] !in seen
  }

  predicate Small(blobs: seq<Blob>, limits: Limits) {
    forall i :: 0 <= i < |blobs| ==> blobs[i].size <= limits.maxFileSize
  }

  function SetOf(objects: seq<nat>): set<nat> {
    set at | at in objects
  }

  /** Nothing stands in the way: room for the files, and every object new. */
  predicate Passes(blobs: seq<Blob>, objects: seq<nat>, bag: Bag, limits: Limits) {
    && (blobs == [] || |bag.files| + |blobs| <= limits.maxFiles)
    && Small(blobs, limits)
    && AllDistinct(objects) && NoneIn(objects, bag.seen)
  }

  /** The bag after a successful walk. */
  function Filled(bag: Bag, blobs: seq<Blob>, objects: seq<nat>): Bag {
    Bag(bag.files + blobs, bag.seen + SetOf(objects))
  }

  lemma PassesInTwo(b1: seq<Blob>, o1: seq<nat>, b2: seq<Blob>, o2: seq<nat>, bag: Bag, limits: Limits)
    ensures Passes(b1 + b2, o1 + o2, bag, limits)
       <==> Passes(b1, o1, bag, limits) && Passes(b2, o2, Filled(bag, b1, o1), limits)
    ensures Filled(Filled(bag, b1, o1), b2, o2) == Filled(bag, b1 + b2, o1 + o2)
  {
    SmallInTwo(b1, b2, limits);
    FreshInTwo(o1, o2, bag.seen);
    assert bag.files + b1 + b2 == bag.files + (b1 + b2);
    assert bag.seen + SetOf(o1) + SetOf(o2) == bag.seen + SetOf(o1 + o2);
  }

  lemma SmallInTwo(b1: seq<Blob>, b2: seq<Blob>, limits: Limits)
    ensures Small(b1 + b2, limits) <==> Small(b1, limits) && Small(b2, limits)
  {
    if Small(b1 + b2, limits) {
      assert forall i :: 0 <= i < |b1| ==> (b1 + b2)[i] == b1[i];
      assert forall i :: 0 <= i < |b2| ==> (b1 + b2)[|b1| + i] == b2[i];
    }
  }

  lemma FreshInTwo(o1: seq<nat>, o2: seq<nat>, seen: set<nat>)
    ensures AllDistinct(o1 + o2) && NoneIn(o1 + o2, seen)
       <==> AllDistinct(o1) && NoneIn(o1, seen) && AllDistinct(o2) && NoneIn(o2, seen + SetOf(o1))
  {
    var o := o1 + o2;
    assert forall i :: 0 <= i < |o1| ==> o[i] == o1[i];
    assert forall i :: 0 <= i < |o2| ==> o[|o1| + i] == o2[i];
    if AllDistinct(o) && NoneIn(o, seen) {
      forall i | 0 <= i < |o2| ensures o2[i] !in seen + SetOf(o1) {
        assert o[|o1| + i] == o2[i];
      }
      forall i, j | 0 <= i < j < |o2| ensures o2[i] != o2[j] {
        assert o[|o1| + i] == o2[i] && o[|o1| + j] == o2[j];
      }
    }
    if AllDistinct(o1) && NoneIn(o1, seen) && AllDistinct(o2) && NoneIn(o2, seen + SetOf(o1)) {
      forall i, j | 0 <= i < j < |o| ensures o[i] != o[j] {
        assert j >= |o1| ==> o[j] == o2[j - |o1|];
        assert i >= |o1| ==> o[i] == o2[i - |o1|];
      }
      forall i | 0 <= i < |o| ensures o[i] !in seen {
        assert i >= |o1| ==> o[i] == o2[i - |o1|];
      }
    }
  }

  lemma NodePasses(at: nat, blobs: seq<Blob>, objects: seq<nat>, bag: Bag, limits: Limits)
    ensures Passes(blobs, [at] + objects, bag, limits)
       <==> at !in bag.seen && Passes(blobs, objects, bag.(seen := bag.seen + {at}), limits)
    ensures Filled(bag.(seen := bag.seen + {at}), blobs, objects) == Filled(bag, blobs, [at] + objects)
  {
    PassesInTwo([], [at], blobs, objects, bag, limits);
    assert [] + blobs == blobs;
    assert Filled(bag, [], [at]) == bag.(seen := bag.seen + {at});
  }

  /** Extraction succeeds exactly when nothing stands in the way, and collects exactly the blobs. */
  lemma {:induction false} ExtractExactly(t: Tree, bag: Bag, limits: Limits)
    ensures var r := Extract(t, bag, limits);
            && (r.Ok? <==> Passes(Blobs(t), Objects(t), bag, limits))
            && (r.Ok? ==> r.value.1 == Filled(bag, Blobs(t), Objects(t)))
    decreases t
  {
    match t
    case File(blob) =>
      assert SetOf([]) == {} && bag.seen + {} == bag.seen;
      assert Small([blob], limits) <==> [blob][0].size <= limits.maxFileSize;
    case Scalar(_) =>
      assert bag.files + [] == bag.files && bag.seen + SetOf([]) == bag.seen;
    case Opaque(at, _) =>
      NodePasses(at, [], [], bag, limits);
      assert [at] + [] == [at] && bag.files + [] == bag.files && SetOf([]) == {};
    case Node(at, isArray, looks, entries) =>
      NodePasses(at, EntryBlobs(entries, isArray), EntryObjects(entries, isArray), bag, limits);
      if at !in bag.seen {
        EntriesExactly(entries, isArray, bag.(seen := bag.seen + {at}), limits);
      }
  }

  lemma {:induction false} EntriesExactly(entries: seq<Entry>, isArray: bool, bag: Bag, limits: Limits)
    ensures var r := ExtractEntries(entries, isArray, bag, limits);
            && (r.Ok? <==> Passes(EntryBlobs(entries, isArray), EntryObjects(entries, isArray), bag, limits))
            && (r.Ok? ==> r.value.1 == Filled(bag, EntryBlobs(entries, isArray), EntryObjects(entries, isArray)))
    decreases entries
  {
    if entries == [] {
      assert bag.files + [] == bag.files && bag.seen + SetOf([]) == bag.seen;
    } else {
      var blobs, objects := EntryBlobs(entries[1..], isArray), EntryObjects(entries[1..], isArray);
      if Skipped(isArray, entries[0].key) {
        EntriesExactly(entries[1..], isArray, bag, limits);
        assert [] + blobs == blobs && [] + objects == objects;
      } else {
        var child := entries[0].child;
        ExtractExactly(child, bag, limits);
        PassesInTwo(Blobs(child), Objects(child), blobs, objects, bag, limits);
        if Extract(child, bag, limits).Ok? {
          EntriesExactly(entries[1..], isArray, Filled(bag, Blobs(child), Objects(child)), limits);
        }
      }
    }
  }

  // ---- Round trip ----

  /** The placeholder ids of the files from number `from` up to `to`. */
  function Ids(from: nat, to: nat): set<string> {
    set i: nat | from <= i < to :: Decimal(i)
  }

  lemma {:induction false} PartsOfFiles(files: seq<Blob>)
    ensures forall i: nat :: i < |files| ==> Decimal(i) in PartsOf(files) && PartsOf(files)[Decimal(i)] == files[i]
    ensures PartsOf(files).Keys == Ids(0, |files|)
  {
    if files != [] {
      var last := |files| - 1;
      PartsOfFiles(files[..last]);
      forall i: nat | i < |files| ensures Decimal(i) in PartsOf(files) && PartsOf(files)[Decimal(i)] == files[i] {
        DecimalInjective(i, last);
      }
      assert Ids(0, |files|) == Ids(0, last) + {Decimal(last)};
    }
  }

  /** Every file collected so far is among the parts, under its number. */
  predicate Covers(parts: map<string, Blob>, files: seq<Blob>) {
    forall i: nat :: i < |files| ==> Decimal(i) in parts && parts[Decimal(i)] == files[i]
  }

  lemma CoversFewer(parts: map<string, Blob>, files: seq<Blob>, more: seq<Blob>)
    requires Covers(parts, files + more)
    ensures Covers(parts, files)
  {
    assert forall i: nat :: i < |files| ==> (files + more)[i] == files[i];
  }

  lemma PlaceholderIs(id: string)
    ensures IsFilePlaceholder(Placeholder(id)) && PlaceholderId(Placeholder(id)) == id
  {
    var entries := Placeholder(id).entries;
    assert entries[1..] == [entries[1]];
    assert Get(entries[1..], "id") == Some(Scalar(Str(id)));
  }

  /** Extraction keeps scalars and makes none. */
  lemma {:induction false} ScalarsKept(entries: seq<Entry>, isArray: bool, bag: Bag, limits: Limits, key: string)
    requires ExtractEntries(entries, isArray, bag, limits).Ok? && !Skipped(isArray, key)
    ensures var out := ExtractEntries(entries, isArray, bag, limits).value.0;
            forall json :: Get(out, key) == Some(Scalar(json)) <==> Get(entries, key) == Some(Scalar(json))
    decreases entries
  {
    if entries != [] {
      if Skipped(isArray, entries[0].key) {
        ScalarsKept(entries[1..], isArray, bag, limits, key);
      } else {
        var first := Extract(entries[0].child, bag, limits).value;
        ScalarsKept(entries[1..], isArray, first.1, limits, key);
        var out := ExtractEntries(entries, isArray, bag, limits).value.0;
        assert out[1..] == ExtractEntries(entries[1..], isArray, first.1, limits).value.0;
      }
    }
  }

  /** So an object is taken for a placeholder after extraction exactly if it was before. */
  lemma LookAlikesStay(entries: seq<Entry>, isArray: bool, looks: Option<string>, bag: Bag, limits: Limits, at: nat)
    requires ExtractEntries(entries, isArray, bag, limits).Ok?
    ensures var out := ExtractEntries(entries, isArray, bag, limits).value.0;
            IsFilePlaceholder(Node(MADE, isArray, None, out)) <==> !isArray && IsFilePlaceholder(Node(at, isArray, looks, entries))
  {
    if !isArray {
      ScalarsKept(entries, isArray, bag, limits, "$pf");
      ScalarsKept(entries, isArray, bag, limits, "id");
      var out := ExtractEntries(entries, isArray, bag, limits).value.0;
      assert IsString(Get(out, "id")) ==> Get(out, "id") == Some(Scalar(Get(out, "id").value.json));
      assert IsString(Get(entries, "id")) ==> Get(entries, "id") == Some(Scalar(Get(entries, "id").value.json));
    }
  }

  lemma FilesGrow(t: Tree, bag: Bag, limits: Limits)
    requires Extract(t, bag, limits).Ok?
    ensures bag.files <= Extract(t, bag, limits).value.1.files
  {
    ExtractExactly(t, bag, limits);
  }

  lemma EntryFilesGrow(entries: seq<Entry>, isArray: bool, bag: Bag, limits: Limits)
    requires ExtractEntries(entries, isArray, bag, limits).Ok?
    ensures bag.files <= ExtractEntries(entries, isArray, bag, limits).value.1.files
  {
    EntriesExactly(entries, isArray, bag, limits);
  }

  /** Injection undoes extraction and uses exactly the ids handed out. */
  lemma {:induction false} InjectExtracted(t: Tree, bag: Bag, limits: Limits, parts: map<string, Blob>, used: set<string>)
    requires Extract(t, bag, limits).Ok? && NoLookAlikes(t)
    requires Covers(parts, Extract(t, bag, limits).value.1.files)
    ensures var out := Extract(t, bag, limits).value;
            Inject(out.0, parts, used) == Ok((Pruned(t), used + Ids(|bag.files|, |out.1.files|)))
    decreases t
  {
    var out := Extract(t, bag, limits).value;
    match t
    case File(blob) =>
      var n := |bag.files|;
      PlaceholderIs(Decimal(n));
      assert out.1.files[n] == blob;
      assert Ids(n, n + 1) == {Decimal(n)};
    case Scalar(_) => assert Ids(|bag.files|, |bag.files|) == {} && used + {} == used;
    case Opaque(_, _) => assert Ids(|bag.files|, |bag.files|) == {} && used + {} == used;
    case Node(at, isArray, looks, entries) =>
      var inner := bag.(seen := bag.seen + {at});
      LookAlikesStay(entries, isArray, looks, inner, limits, at);
      InjectEntriesExtracted(entries, isArray, inner, limits, parts, used);
  }

  lemma {:induction false} InjectEntriesExtracted(entries: seq<Entry>, isArray: bool, bag: Bag, limits: Limits,
                                                 parts: map<string, Blob>, used: set<string>)
    requires ExtractEntries(entries, isArray, bag, limits).Ok? && NoLookAlikesIn(entries, isArray)
    requires Covers(parts, ExtractEntries(entries, isArray, bag, limits).value.1.files)
    ensures var out := ExtractEntries(entries, isArray, bag, limits).value;
            InjectEntries(out.0, isArray, parts, used)
            == Ok((PrunedEntries(entries, isArray), used + Ids(|bag.files|, |out.1.files|)))
    decreases entries
  {
    if entries == [] {
      assert Ids(|bag.files|, |bag.files|) == {} && used + {} == used;
    } else if Skipped(isArray, entries[0].key) {
      InjectEntriesExtracted(entries[1..], isArray, bag, limits, parts, used);
      assert [] + PrunedEntries(entries[1..], isArray) == PrunedEntries(entries[1..], isArray);
    } else {
      var out := ExtractEntries(entries, isArray, bag, limits).value;
      var first := Extract(entries[0].child, bag, limits).value;
      EntryFilesGrow(entries[1..], isArray, first.1, limits);
      FilesGrow(entries[0].child, bag, limits);
      CoversFewer(parts, first.1.files, out.1.files[|first.1.files|..]);
      InjectExtracted(entries[0].child, bag, limits, parts, used);
      var used1 := used + Ids(|bag.files|, |first.1.files|);
      InjectEntriesExtracted(entries[1..], isArray, first.1, limits, parts, used1);
      assert out.0[1..] == ExtractEntries(entries[1..], isArray, first.1, limits).value.0;
      assert used1 + Ids(|first.1.files|, |out.1.files|) == used + Ids(|bag.files|, |out.1.files|);
    }
  }

  /** An object taken for a placeholder does not come back. */
  lemma {:induction false} LookAlikeIsLost(t: Tree, bag: Bag, limits: Limits, parts: map<string, Blob>, used: set<string>)
    requires Extract(t, bag, limits).Ok? && !NoLookAlikes(t)
    requires Covers(parts, Extract(t, bag, limits).value.1.files)
    ensures var r := Inject(Extract(t, bag, limits).value.0, parts, used); r.Error? || r.value.0 != Pruned(t)
    decreases t
  {
    if t.Node? {
      var inner := bag.(seen := bag.seen + {t.at});
      LookAlikesStay(t.entries, t.isArray, t.looks, inner, limits, t.at);
      if t.isArray || !IsFilePlaceholder(t) {
        LookAlikeEntryIsLost(t.entries, t.isArray, inner, limits, parts, used);
      }
    }
  }

  lemma {:induction false} LookAlikeEntryIsLost(entries: seq<Entry>, isArray: bool, bag: Bag, limits: Limits,
                                               parts: map<string, Blob>, used: set<string>)
    requires ExtractEntries(entries, isArray, bag, limits).Ok? && !NoLookAlikesIn(entries, isArray)
    requires Covers(parts, ExtractEntries(entries, isArray, bag, limits).value.1.files)
    ensures var r := InjectEntries(ExtractEntries(entries, isArray, bag, limits).value.0, isArray, parts, used);
            r.Error? || r.value.0 != PrunedEntries(entries, isArray)
    decreases entries
  {
    if Skipped(isArray, entries[0].key) {
      LookAlikeEntryIsLost(entries[1..], isArray, bag, limits, parts, used);
      assert [] + PrunedEntries(entries[1..], isArray) == PrunedEntries(entries[1..], isArray);
    } else {
      var out := ExtractEntries(entries, isArray, bag, limits).value;
      var child := entries[0].child;
      var first := Extract(child, bag, limits).value;
      EntryFilesGrow(entries[1..], isArray, first.1, limits);
      CoversFewer(parts, first.1.files, out.1.files[|first.1.files|..]);
      assert out.0[1..] == ExtractEntries(entries[1..], isArray, first.1, limits).value.0;
      if !NoLookAlikes(child) {
        LookAlikeIsLost(child, bag, limits, parts, used);
        assert PrunedEntries(entries, isArray)[0] == Entry(entries[0].key, Pruned(child));
      } else {
        InjectExtracted(child, bag, limits, parts, used);
        var used1 := used + Ids(|bag.files|, |first.1.files|);
        LookAlikeEntryIsLost(entries[1..], isArray, first.1, limits, parts, used1);
        assert PrunedEntries(entries, isArray)[1..] == PrunedEntries(entries[1..], isArray);
      }
    }
  }

  /**
   * Injecting the extracted files gives the value back, without what was under
   * skipped keys, exactly when no object in it is taken for a placeholder. The
   * check for unused parts never gets in the way.
   */
  lemma RoundTrip(t: Tree, limits: Limits)
    requires ExtractFiles(t, limits).Ok?
    ensures var out := ExtractFiles(t, limits).value;
            InjectFiles(out.0, PartsOf(out.1)) == Ok(Pruned(t)) <==> NoLookAlikes(t)
  {
    var out := Extract(t, EMPTY, limits).value;
    PartsOfFiles(out.1.files);
    if NoLookAlikes(t) {
      InjectExtracted(t, EMPTY, limits, PartsOf(out.1.files), {});
      assert {} + Ids(0, |out.1.files|) == PartsOf(out.1.files).Keys;
    } else {
      LookAlikeIsLost(t, EMPTY, limits, PartsOf(out.1.files), {});
    }
  }

  /** Extraction succeeds exactly within the limits and without a repeated object; the files are the blobs in order. */
  lemma ExtractsExactly(t: Tree, limits: Limits)
    ensures var r := ExtractFiles(t, limits);
            && (r.Ok? <==>
                  && |Blobs(t)| <= limits.maxFiles
                  && Small(Blobs(t), limits)
                  && AllDistinct(Objects(t)))
            && (r.Ok? ==> r.value.1 == Blobs(t))
  {
    ExtractExactly(t, EMPTY, limits);
    assert [] + Blobs(t) == Blobs(t);
  }

  // ---- The placeholders ----

  /** The ids of all placeholders in a value, in order. */
  function PlaceholderIds(t: Tree): seq<string>
    decreases t
  {
    if IsFilePlaceholder(t) then [PlaceholderId(t)]
    else if t.Node? then EntryIds(t.entries, t.isArray)
    else []
  }

  function EntryIds(entries: seq<Entry>, isArray: bool): seq<string>
    decreases entries
  {
    if entries == [] then []
    else (if Skipped(isArray, entries[0].key) then [] else PlaceholderIds(entries[0].child)) + EntryIds(entries[1..], isArray)
  }

  function Counted(from: nat, to: nat): seq<string>
    requires from <= to
  {
    seq(to - from, i requires 0 <= i < to - from => Decimal(from + i))
  }

  lemma {:induction false} IdsOfExtracted(t: Tree, bag: Bag, limits: Limits)
    requires Extract(t, bag, limits).Ok? && NoLookAlikes(t)
    ensures var out := Extract(t, bag, limits).value;
            |bag.files| <= |out.1.files| && PlaceholderIds(out.0) == Counted(|bag.files|, |out.1.files|)
    decreases t
  {
    match t
    case File(_) => PlaceholderIs(Decimal(|bag.files|));
    case Scalar(_) =>
    case Opaque(_, _) =>
    case Node(at, isArray, looks, entries) =>
      var inner := bag.(seen := bag.seen + {at});
      LookAlikesStay(entries, isArray, looks, inner, limits, at);
      EntryIdsOfExtracted(entries, isArray, inner, limits);
  }

  lemma {:induction false} EntryIdsOfExtracted(entries: seq<Entry>, isArray: bool, bag: Bag, limits: Limits)
    requires ExtractEntries(entries, isArray, bag, limits).Ok? && NoLookAlikesIn(entries, isArray)
    ensures var out := ExtractEntries(entries, isArray, bag, limits).value;
            |bag.files| <= |out.1.files| && EntryIds(out.0, isArray) == Counted(|bag.files|, |out.1.files|)
    decreases entries
  {
    if entries != [] {
      if Skipped(isArray, entries[0].key) {
        EntryIdsOfExtracted(entries[1..], isArray, bag, limits);
      } else {
        var out := ExtractEntries(entries, isArray, bag, limits).value;
        var first := Extract(entries[0].child, bag, limits).value;
        IdsOfExtracted(entries[0].child, bag, limits);
        EntryIdsOfExtracted(entries[1..], isArray, first.1, limits);
        assert out.0[1..] == ExtractEntries(entries[1..], isArray, first.1, limits).value.0;
      }
    }
  }

  /** Placeholder ids are exactly "0" to "n - 1" in order, for the n blobs that were kept. */
  lemma PlaceholdersAreNumbered(t: Tree, limits: Limits)
    requires ExtractFiles(t, limits).Ok? && NoLookAlikes(t)
    ensures PlaceholderIds(ExtractFiles(t, limits).value.0) == Counted(0, |Blobs(t)|)
  {
    ExtractsExactly(t, limits);
    IdsOfExtracted(t, EMPTY, limits);
  }

  // ---- What does not come back ----

  /** An object that looks like a placeholder, and an object that occurs twice. */
  const LOOK_ALIKE := Node(1, false, None, [Entry("$pf", Scalar(Str("file"))), Entry("id", Scalar(Str("0")))])
  const SHARED := Node(1, false, None, [])
  const TWICE := Node(2, true, None, [Entry("0", SHARED), Entry("1", SHARED)])

  lemma LookAlikeIsRefused(limits: Limits)
    ensures ExtractFiles(LOOK_ALIKE, limits).Ok? && ExtractFiles(LOOK_ALIKE, limits).value.1 == []
    ensures InjectFiles(ExtractFiles(LOOK_ALIKE, limits).value.0, map[]) == Error(MissingPart("0"))
  {
    var entries := LOOK_ALIKE.entries;
    assert entries[1..] == [entries[1]] && entries[1..][1..] == [];
    assert ExtractEntries([], false, Bag([], {1}), limits) == Ok(([], Bag([], {1})));
    assert [entries[1]] + [] == [entries[1]];
    assert ExtractEntries(entries[1..], false, Bag([], {1}), limits) == Ok(([entries[1]], Bag([], {1})));
    assert ExtractEntries(entries, false, Bag([], {1}), limits) == Ok(([entries[0]] + [entries[1]], Bag([], {1})));
    var out := ExtractFiles(LOOK_ALIKE, limits).value.0;
    assert out == Node(MADE, false, None, entries);
    assert Get(out.entries, "id") == Some(Scalar(Str("0")));
  }

  lemma SharedIsRefused(limits: Limits)
    ensures ExtractFiles(TWICE, limits) == Error(CircularValue)
  {
    var entries := TWICE.entries;
    assert entries[1..] == [entries[1]];
    assert ExtractEntries([], false, Bag([], {2, 1}), limits) == Ok(([], Bag([], {2, 1})));
    assert {2} + {1} == {2, 1} && {} + {2} == {2};
    assert Extract(SHARED, Bag([], {2}), limits) == Ok((Node(MADE, false, None, []), Bag([], {2, 1})));
    assert Extract(entries[1].child, Bag([], {2, 1}), limits) == Error(CircularValue);
    assert ExtractEntries(entries[1..], true, Bag([], {2, 1}), limits) == Error(CircularValue);
    assert ExtractEntries(entries, true, Bag([], {2}), limits) == Error(CircularValue);
  }

  // ---- What goes wrong first ----

  /** What a walk comes by, in order. */
  datatype Stop = Object(at: nat) | Found(blob: Blob)

  function Trail(t: Tree): seq<Stop>
    decreases t
  {
    match t
    case Scalar(_) => []
    case File(blob) => [Found(blob)]
    case Opaque(at, _) => [Object(at)]
    case Node(at, isArray, _, entries) => [Object(at)] + EntryTrail(entries, isArray)
  }

  function EntryTrail(entries: seq<Entry>, isArray: bool): seq<Stop>
    decreases entries
  {
    if entries == [] then []
    else (if Skipped(isArray, entries[0].key) then [] else Trail(entries[0].child)) + EntryTrail(entries[1..], isArray)
  }

  /** The first thing on the trail that a walk does not accept. */
  function Obstacle(trail: seq<Stop>, files: nat, seen: set<nat>, limits: Limits): Option<Problem>
    decreases |trail|
  {
    if trail == [] then None
    else
      match trail[0]
      case Object(at) => if at in seen then Some(CircularValue) else Obstacle(trail[1..], files, seen + {at}, limits)
      case Found(blob) =>
        if files >= limits.maxFiles then Some(TooManyFiles)
        else if blob.size > limits.maxFileSize then Some(FileTooLarge)
        else Obstacle(trail[1..], files + 1, seen, limits)
  }

  function FoundIn(trail: seq<Stop>): nat
    decreases |trail|
  {
    if trail == [] then 0 else (if trail[0].Found? then 1 else 0) + FoundIn(trail[1..])
  }

  function SeenIn(trail: seq<Stop>): set<nat>
    decreases |trail|
  {
    if trail == [] then {} else (if trail[0].Object? then {trail[0].at} else {}) + SeenIn(trail[1..])
  }

  lemma {:induction false} ObstacleInTwo(a: seq<Stop>, b: seq<Stop>, files: nat, seen: set<nat>, limits: Limits)
    ensures Obstacle(a + b, files, seen, limits)
         == if Obstacle(a, files, seen, limits).Some? then Obstacle(a, files, seen, limits)
            else Obstacle(b, files + FoundIn(a), seen + SeenIn(a), limits)
    decreases |a|
  {
    if a == [] {
      assert a + b == b && seen + {} == seen;
    } else {
      assert (a + b)[1..] == a[1..] + b;
      match a[0]
      case Object(at) =>
        ObstacleInTwo(a[1..], b, files, seen + {at}, limits);
        assert seen + {at} + SeenIn(a[1..]) == seen + SeenIn(a);
      case Found(_) =>
        ObstacleInTwo(a[1..], b, files + 1, seen, limits);
        assert seen + ({} + SeenIn(a[1..])) == seen + SeenIn(a[1..]);
    }
  }

  /** A walk stops at the first obstacle, and only there. */
  predicate StopsAt<T>(r: Result<(T, Bag)>, trail: seq<Stop>, bag: Bag, limits: Limits) {
    match Obstacle(trail, |bag.files|, bag.seen, limits)
    case Some(problem) => r == Error(problem)
    case None => r.Ok? && |r.value.1.files| == |bag.files| + FoundIn(trail) && r.value.1.seen == bag.seen + SeenIn(trail)
  }

  lemma {:induction false} WalkStops(t: Tree, bag: Bag, limits: Limits)
    ensures StopsAt(Extract(t, bag, limits), Trail(t), bag, limits)
    decreases t
  {
    match t
    case Scalar(_) => assert bag.seen + {} == bag.seen;
    case File(blob) => assert Trail(t)[1..] == [] && bag.seen + ({} + {}) == bag.seen;
    case Opaque(at, _) => assert Trail(t)[1..] == [] && bag.seen + ({at} + {}) == bag.seen + {at};
    case Node(at, isArray, _, entries) =>
      var more := EntryTrail(entries, isArray);
      assert ([Object(at)] + more)[1..] == more;
      if at !in bag.seen {
        EntriesStop(entries, isArray, bag.(seen := bag.seen + {at}), limits);
        assert bag.seen + {at} + SeenIn(more) == bag.seen + ({at} + SeenIn(more));
      }
  }

  lemma {:induction false} EntriesStop(entries: seq<Entry>, isArray: bool, bag: Bag, limits: Limits)
    ensures StopsAt(ExtractEntries(entries, isArray, bag, limits), EntryTrail(entries, isArray), bag, limits)
    decreases entries
  {
    if entries == [] {
      assert bag.seen + {} == bag.seen;
    } else {
      var rest := EntryTrail(entries[1..], isArray);
      if Skipped(isArray, entries[0].key) {
        EntriesStop(entries[1..], isArray, bag, limits);
        assert [] + rest == rest;
      } else {
        var child := entries[0].child;
        WalkStops(child, bag, limits);
        ObstacleInTwo(Trail(child), rest, |bag.files|, bag.seen, limits);
        TrailInTwo(Trail(child), rest);
        if Extract(child, bag, limits).Ok? {
          EntriesStop(entries[1..], isArray, Extract(child, bag, limits).value.1, limits);
          assert bag.seen + SeenIn(Trail(child)) + SeenIn(rest) == bag.seen + (SeenIn(Trail(child)) + SeenIn(rest));
        }
      }
    }
  }

  lemma {:induction false} TrailInTwo(a: seq<Stop>, b: seq<Stop>)
    ensures FoundIn(a + b) == FoundIn(a) + FoundIn(b) && SeenIn(a + b) == SeenIn(a) + SeenIn(b)
    decreases |a|
  {
    if a == [] {
      assert a + b == b;
    } else {
      assert (a + b)[1..] == a[1..] + b;
      TrailInTwo(a[1..], b);
    }
  }

  /** Extraction fails with the first obstacle of the walk, whatever comes behind it, and with none it succeeds. */
  lemma FirstProblemIsTold(t: Tree, limits: Limits)
    ensures match Obstacle(Trail(t), 0, {}, limits)
            case Some(problem) => ExtractFiles(t, limits) == Error(problem)
            case None => ExtractFiles(t, limits).Ok?
  {
    WalkStops(t, EMPTY, limits);
  }

  /** The first id that there is no part for. */
  function FirstMissing(ids: seq<string>, parts: map<string, Blob>): Option<string>
    decreases |ids|
  {
    if ids == [] then None else if ids[0] !in parts then Some(ids[0]) else FirstMissing(ids[1..], parts)
  }

  lemma {:induction false} MissingInTwo(a: seq<string>, b: seq<string>, parts: map<string, Blob>)
    ensures FirstMissing(a + b, parts)
         == if FirstMissing(a, parts).Some? then FirstMissing(a, parts) else FirstMissing(b, parts)
    decreases |a|
  {
    if a == [] {
      assert a + b == b;
    } else {
      assert (a + b)[1..] == a[1..] + b;
      MissingInTwo(a[1..], b, parts);
    }
  }

  function NamesIn(ids: seq<string>): set<string> {
    set id | id in ids
  }

  /** A walk puts in the parts it names, and stops at the first that is not there. */
  predicate Uses<T>(r: Result<(T, set<string>)>, ids: seq<string>, parts: map<string, Blob>, used: set<string>) {
    match FirstMissing(ids, parts)
    case Some(id) => r == Error(MissingPart(id))
    case None => r.Ok? && r.value.1 == used + NamesIn(ids)
  }

  lemma {:induction false} InjectUses(t: Tree, parts: map<string, Blob>, used: set<string>)
    ensures Uses(Inject(t, parts, used), PlaceholderIds(t), parts, used)
    decreases t
  {
    if IsFilePlaceholder(t) {
      var id := PlaceholderId(t);
      assert [id][1..] == [] && NamesIn([id]) == {id};
    } else if t.Node? {
      EntriesUse(t.entries, t.isArray, parts, used);
    } else {
      assert used + NamesIn([]) == used;
    }
  }

  lemma {:induction false} EntriesUse(entries: seq<Entry>, isArray: bool, parts: map<string, Blob>, used: set<string>)
    ensures Uses(InjectEntries(entries, isArray, parts, used), EntryIds(entries, isArray), parts, used)
    decreases entries
  {
    if entries == [] {
      assert used + NamesIn([]) == used;
    } else {
      var rest := EntryIds(entries[1..], isArray);
      if Skipped(isArray, entries[0].key) {
        EntriesUse(entries[1..], isArray, parts, used);
        assert [] + rest == rest;
      } else {
        var ids := PlaceholderIds(entries[0].child);
        InjectUses(entries[0].child, parts, used);
        MissingInTwo(ids, rest, parts);
        if Inject(entries[0].child, parts, used).Ok? {
          EntriesUse(entries[1..], isArray, parts, used + NamesIn(ids));
          assert used + NamesIn(ids) + NamesIn(rest) == used + NamesIn(ids + rest);
        }
      }
    }
  }

  lemma {:induction false} PresentAreKeys(ids: seq<string>, parts: map<string, Blob>)
    requires FirstMissing(ids, parts).None?
    ensures NamesIn(ids) <= parts.Keys
    decreases |ids|
  {
    if ids != [] {
      PresentAreKeys(ids[1..], parts);
    }
  }

  lemma SameSize(a: set<string>, b: set<string>)
    requires a <= b
    ensures |a| == |b| <==> a == b
  {
    assert b == a + (b - a) && |b| == |a| + |b - a|;
  }

  /**
   * Injection succeeds exactly if the placeholders name the parts that there are: it
   * refuses the first name that there is no part for, and any part that is not named.
   */
  lemma InjectsExactly(t: Tree, parts: map<string, Blob>)
    ensures match FirstMissing(PlaceholderIds(t), parts)
            case Some(id) => InjectFiles(t, parts) == Error(MissingPart(id))
            case None =>
              if exists id :: id in parts && id !in PlaceholderIds(t) then InjectFiles(t, parts) == Error(UnexpectedPart)
              else InjectFiles(t, parts).Ok?
  {
    var ids := PlaceholderIds(t);
    InjectUses(t, parts, {});
    if FirstMissing(ids, parts).None? {
      PresentAreKeys(ids, parts);
      SameSize(NamesIn(ids), parts.Keys);
      assert {} + NamesIn(ids) == NamesIn(ids);
      assert |parts| == |parts.Keys|;
      if id :| id in parts && id !in ids {
        assert id in parts.Keys && id !in NamesIn(ids);
      } else {
        assert parts.Keys <= NamesIn(ids);
      }
    }
  }

  // ---- Keys that never get through ----

  /** No object has a key that reaches its prototype. */
  predicate Safe(t: Tree)
    decreases t
  {
    t.Node? ==> SafeEntries(t.entries, t.isArray)
  }

  predicate SafeEntries(entries: seq<Entry>, isArray: bool)
    decreases entries
  {
    entries != [] ==>
      && (isArray || (entries[0].key != "__proto__" && entries[0].key != "constructor" && entries[0].key != "prototype"))
      && Safe(entries[0].child) && SafeEntries(entries[1..], isArray)
  }

  /** The same value in new objects, with every entry it has. */
  function Renewed(t: Tree): Tree
    decreases t
  {
    match t
    case Node(_, isArray, _, entries) => Node(MADE, isArray, None, RenewedEntries(entries))
    case _ => t
  }

  function RenewedEntries(entries: seq<Entry>): seq<Entry>
    decreases entries
  {
    if entries == [] then [] else [Entry(entries[0].key, Renewed(entries[0].child))] + RenewedEntries(entries[1..])
  }

  /** What extraction and injection make is free of such keys, and of a value that has none nothing is left out. */
  lemma {:induction false} OnlyUnsafeKeysGo(t: Tree)
    ensures Safe(Pruned(t)) && (Safe(t) ==> Pruned(t) == Renewed(t))
    decreases t
  {
    if t.Node? {
      OnlyUnsafeEntriesGo(t.entries, t.isArray);
    }
  }

  lemma {:induction false} OnlyUnsafeEntriesGo(entries: seq<Entry>, isArray: bool)
    ensures SafeEntries(PrunedEntries(entries, isArray), isArray)
    ensures SafeEntries(entries, isArray) ==> PrunedEntries(entries, isArray) == RenewedEntries(entries)
    decreases entries
  {
    if entries != [] {
      var rest := PrunedEntries(entries[1..], isArray);
      OnlyUnsafeEntriesGo(entries[1..], isArray);
      if Skipped(isArray, entries[0].key) {
        assert [] + rest == rest;
      } else {
        OnlyUnsafeKeysGo(entries[0].child);
        var first := Entry(entries[0].key, Pruned(entries[0].child));
        assert ([first] + rest)[1..] == rest;
      }
    }
  }
}
