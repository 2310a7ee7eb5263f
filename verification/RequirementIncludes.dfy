/** Exact requirement pins over nested includes. */
module RequirementIncludes {
  import opened Wrappers

  type Path = string
  type Pins = map<string, string>

  /** One stripped line; an include names the resolved file, a pin the canonical project. */
  datatype Line = Blank | Include(target: Path) | Pin(name: string, version: string) | Unpinned

  type Files = map<Path, seq<Line>>

  lemma FewerLeft(files: Files, seen: set<Path>, path: Path)
    requires path in files && path !in seen
    ensures |files.Keys - (seen + {path})| < |files.Keys - seen|
  {
    assert files.Keys - (seen + {path}) == (files.Keys - seen) - {path};
  }

  /** The pins of a file, given the files being read around it. */
  function Inputs(files: Files, path: Path, seen: set<Path>): Result<Pins>
    decreases |files.Keys - seen|, 0
  {
    if path in seen || path !in files then Err
    else
      FewerLeft(files, seen, path);
      Collect(files, files[path], seen + {path}, map[])
  }

  function Collect(files: Files, lines: seq<Line>, seen: set<Path>, result: Pins): Result<Pins>
    decreases |files.Keys - seen|, |lines|
  {
    if lines == [] then Ok(result)
    else match lines[0]
      case Blank => Collect(files, lines[1..], seen, result)
      case Unpinned => Err
      case Pin(name, version) => if name in result then Err else Collect(files, lines[1..], seen, result[name := version])
      case Include(target) =>
        var nested := Inputs(files, target, seen);
        if nested.Err? || nested.value.Keys * result.Keys != {} then Err
        else Collect(files, lines[1..], seen, result + nested.value)
  }

  /** What the line at `i` does to the rest of the reading. */
  function Next(files: Files, line: Line, seen: set<Path>, result: Pins): Result<Pins> {
    if line.Unpinned? || (line.Pin? && line.name in result) then Err
    else if line.Pin? then Ok(result[line.name := line.version])
    else if line.Blank? then Ok(result)
    else
      var nested := Inputs(files, line.target, seen);
      if nested.Err? || nested.value.Keys * result.Keys != {} then Err else Ok(result + nested.value)
  }

  lemma CollectAt(files: Files, lines: seq<Line>, i: nat, seen: set<Path>, result: Pins)
    requires i <= |lines|
    ensures i == |lines| ==> Collect(files, lines[i..], seen, result) == Ok(result)
    ensures i < |lines| ==>
              var next := Next(files, lines[i], seen, result);
              Collect(files, lines[i..], seen, result) == if next.Err? then Err else Collect(files, lines[i + 1..], seen, next.value)
  {
    if i < |lines| { assert lines[i..][0] == lines[i] && lines[i..][1..] == lines[i + 1..]; }
  }

  lemma InputsOf(files: Files, path: Path, seen: set<Path>)
    ensures path in seen || path !in files ==> Inputs(files, path, seen) == Err
    ensures path !in seen && path in files ==> Inputs(files, path, seen) == Collect(files, files[path], seen + {path}, map[])
  {
  }

  /** The set of files being read, shared by the whole recursion. */
  class Reader {
    var seen: set<Path>

    constructor ()
      ensures seen == {}
    {
      seen := {};
    }

    /** `_exact_inputs` */
    method ExactInputs(files: Files, path: Path) returns (r: Result<Pins>)
      modifies this
      ensures r == Inputs(files, path, old(seen))
      ensures r.Ok? ==> seen == old(seen)
      decreases |files.Keys - seen|, 0
    {
      hide Inputs, Collect;
      InputsOf(files, path, seen);
      if path in seen { return Err; }
      seen := seen + {path};
      if path !in files { return Err; }
      FewerLeft(files, old(seen), path);
      r := ReadLines(files, files[path]);
      if r.Err? { return; }
      seen := seen - {path};
      assert seen == old(seen);
    }

    method ReadLines(files: Files, lines: seq<Line>) returns (r: Result<Pins>)
      modifies this
      ensures r == Collect(files, lines, old(seen), map[])
      ensures r.Ok? ==> seen == old(seen)
      decreases |files.Keys - seen|, 1
    {
      hide Inputs, Collect;
      var result: Pins := map[];
      var i := 0;
      assert lines[0..] == lines;
      while i < |lines|
        invariant 0 <= i <= |lines| && seen == old(seen)
        invariant Collect(files, lines, old(seen), map[]) == Collect(files, lines[i..], seen, result)
        decreases |lines| - i
      {
        CollectAt(files, lines, i, seen, result);
        var line := lines[i];
        i := i + 1;
        if line.Include? {
          var nested := ExactInputs(files, line.target);
          if nested.Err? { return Err; }
          if nested.value.Keys * result.Keys != {} { return Err; }
          result := result + nested.value;
        } else if line.Pin? {
          if line.name in result { return Err; }
          result := result[line.name := line.version];
        } else if line.Unpinned? {
          return Err;
        }
      }
      CollectAt(files, lines, i, seen, result);
      return Ok(result);
    }
  }

  // ---------------------------------------------------------------- unfoldings

  /** What a line comes to; an include is replaced by the lines of the file it names. */
  datatype Item = Direct(name: string, version: string) | Nested(path: Path, items: seq<Item>) | Nothing

  /** The items are the lines with every include replaced, to the end. */
  ghost predicate Unfolds(files: Files, lines: seq<Line>, items: seq<Item>)
    decreases items
  {
    |items| == |lines| && (items != [] ==>
      && (match lines[0]
          case Blank => items[0] == Nothing
          case Unpinned => false
          case Pin(name, version) => items[0] == Direct(name, version)
          case Include(target) =>
            items[0].Nested? && items[0].path == target && target in files && Unfolds(files, files[target], items[0].items))
      && Unfolds(files, lines[1..], items[1..]))
  }

  /** Lines unfold in at most one way. */
  lemma {:induction false} UnfoldingUnique(files: Files, lines: seq<Line>, a: seq<Item>, b: seq<Item>)
    requires Unfolds(files, lines, a) && Unfolds(files, lines, b)
    ensures a == b
    decreases a
  {
    if a != [] {
      if lines[0].Include? { UnfoldingUnique(files, files[lines[0].target], a[0].items, b[0].items); }
      UnfoldingUnique(files, lines[1..], a[1..], b[1..]);
      assert a == [a[0]] + a[1..] && b == [b[0]] + b[1..];
    }
  }

  // ---------------------------------------------------------------- what the pins are

  datatype Requirement = Requirement(name: string, version: string)

  /** Every pin of an unfolding, in the order of reading. */
  function Declared(items: seq<Item>): seq<Requirement>
    decreases items
  {
    if items == [] then []
    else
      (match items[0]
       case Direct(name, version) => [Requirement(name, version)]
       case Nested(_, inner) => Declared(inner)
       case Nothing => [])
      + Declared(items[1..])
  }

  predicate DistinctNames(pins: seq<Requirement>) {
    forall i, j :: 0 <= i < j < |pins| ==> pins[i].name != pins[j].name
  }

  function Names(pins: seq<Requirement>): set<string> {
    set p | p in pins :: p.name
  }

  /** `m` is `base` with these pins added, none of which it had. */
  ghost predicate Adds(base: Pins, pins: seq<Requirement>, m: Pins) {
    && DistinctNames(pins) && Names(pins) !! base.Keys && m.Keys == base.Keys + Names(pins)
    && (forall n :: n in base ==> m[n] == base[n]) && (forall p :: p in pins ==> m[p.name] == p.version)
  }

  lemma NamesAppend(a: seq<Requirement>, b: seq<Requirement>)
    ensures Names(a + b) == Names(a) + Names(b)
    ensures DistinctNames(a) && DistinctNames(b) && Names(a) !! Names(b) ==> DistinctNames(a + b)
  {
    forall n ensures n in Names(a + b) <==> n in Names(a) || n in Names(b) {
      assert forall p :: p in a + b <==> p in a || p in b;
    }
    if DistinctNames(a) && DistinctNames(b) && Names(a) !! Names(b) {
      forall i, j | 0 <= i < j < |a + b| ensures (a + b)[i].name != (a + b)[j].name {
        if i < |a| <= j { assert a[i].name in Names(a) && b[j - |a|].name in Names(b); }
      }
    }
  }

  lemma DistinctParts(a: seq<Requirement>, b: seq<Requirement>)
    requires DistinctNames(a + b)
    ensures DistinctNames(a) && DistinctNames(b) && Names(a) !! Names(b)
  {
    forall i, j | 0 <= i < j < |a| ensures a[i].name != a[j].name { assert (a + b)[i] == a[i] && (a + b)[j] == a[j]; }
    forall i, j | 0 <= i < j < |b| ensures b[i].name != b[j].name { assert (a + b)[|a| + i] == b[i] && (a + b)[|a| + j] == b[j]; }
    forall n | n in Names(a) ensures n !in Names(b) {
      var i :| 0 <= i < |a| && a[i].name == n;
      forall j | 0 <= j < |b| ensures b[j].name != n { assert (a + b)[i] == a[i] && (a + b)[|a| + j] == b[j]; }
    }
  }

  lemma AddsMore(base: Pins, a: seq<Requirement>, m: Pins, b: seq<Requirement>, n: Pins)
    requires Adds(base, a, m) && Adds(m, b, n)
    ensures Adds(base, a + b, n)
  {
    NamesAppend(a, b);
    assert forall p :: p in a + b <==> p in a || p in b;
    assert forall p :: p in a ==> p.name in Names(a);
  }

  lemma AddsNothing(base: Pins)
    ensures Adds(base, [], base)
  {
  }

  lemma AddsOne(base: Pins, name: string, version: string)
    requires name !in base
    ensures Adds(base, [Requirement(name, version)], base[name := version])
  {
  }

  lemma AddsNested(base: Pins, pins: seq<Requirement>, nested: Pins)
    requires Adds(map[], pins, nested) && nested.Keys * base.Keys == {}
    ensures Adds(base, pins, base + nested)
  {
    assert forall p :: p in pins ==> p.name in Names(pins);
    assert nested.Keys == Names(pins);
    forall n | n in Names(pins) ensures n !in base {
      assert n in nested.Keys * base.Keys || n !in base;
    }
  }

  /** Added pins determine the result. */
  lemma AddsUnique(base: Pins, pins: seq<Requirement>, m: Pins, n: Pins)
    requires Adds(base, pins, m) && Adds(base, pins, n)
    ensures m == n
  {
    forall x | x in m ensures m[x] == n[x] {
      if x in Names(pins) { var p :| p in pins && p.name == x; }
    }
  }

  lemma OneMore(item: Item, more: seq<Item>)
    ensures Declared([item] + more) == Declared([item]) + Declared(more)
    ensures Declared([item]) == match item case Direct(name, version) => [Requirement(name, version)] case Nested(_, inner) => Declared(inner) case Nothing => []
  {
    assert ([item] + more)[1..] == more && [item][1..] == [];
  }

  // ---------------------------------------------------------------- success means an unfolding with distinct names

  lemma {:induction false} Sound(files: Files, path: Path, seen: set<Path>) returns (items: seq<Item>)
    requires Inputs(files, path, seen).Ok?
    ensures path in files && Unfolds(files, files[path], items) && Adds(map[], Declared(items), Inputs(files, path, seen).value)
    decreases |files.Keys - seen|, 0
  {
    FewerLeft(files, seen, path);
    items := SoundLines(files, files[path], seen + {path}, map[]);
  }

  lemma {:induction false} SoundLines(files: Files, lines: seq<Line>, seen: set<Path>, result: Pins) returns (items: seq<Item>)
    requires Collect(files, lines, seen, result).Ok?
    ensures Unfolds(files, lines, items) && Adds(result, Declared(items), Collect(files, lines, seen, result).value)
    decreases |files.Keys - seen|, |lines|
  {
    hide Adds, Declared;
    if lines == [] {
      items := [];
      AddsNothing(result);
      NothingDeclared();
    } else {
      var item: Item := Nothing;
      var next := result;
      match lines[0] {
        case Blank => AddsNothing(result);
        case Pin(name, version) =>
          item, next := Direct(name, version), result[name := version];
          AddsOne(result, name, version);
        case Include(target) =>
          var inner := Sound(files, target, seen);
          item, next := Nested(target, inner), result + Inputs(files, target, seen).value;
          AddsNested(result, Declared(inner), Inputs(files, target, seen).value);
      }
      var more := SoundLines(files, lines[1..], seen, next);
      items := [item] + more;
      assert items[1..] == more;
      OneMore(item, more);
      AddsMore(result, Declared([item]), next, Declared(more), Collect(files, lines, seen, result).value);
    }
  }

  lemma NothingDeclared()
    ensures Declared([]) == []
  {
  }

  // ---------------------------------------------------------------- an unfolding with distinct names means success

  function Weight(items: seq<Item>): nat
    decreases items
  {
    if items == [] then 0 else (if items[0].Nested? then 1 + Weight(items[0].items) else 0) + Weight(items[1..])
  }

  /** Every file being read unfolds to more than what is left to read below it. */
  ghost predicate Around(files: Files, seen: set<Path>, weight: nat) {
    forall s :: s in seen ==> s in files && exists items :: Unfolds(files, files[s], items) && Weight(items) > weight
  }

  lemma {:induction false} Complete(files: Files, path: Path, seen: set<Path>, items: seq<Item>)
    requires path in files && Unfolds(files, files[path], items) && DistinctNames(Declared(items))
    requires Around(files, seen, Weight(items))
    ensures Inputs(files, path, seen).Ok? && Adds(map[], Declared(items), Inputs(files, path, seen).value)
    decreases |files.Keys - seen|, 0
  {
    if path in seen {
      var other :| Unfolds(files, files[path], other) && Weight(other) > Weight(items);
      UnfoldingUnique(files, files[path], items, other);
      assert false;
    } else {
      FewerLeft(files, seen, path);
      CompleteLines(files, path, items, files[path], items, seen + {path}, map[]);
    }
  }

  lemma {:induction false} CompleteLines(files: Files, path: Path, whole: seq<Item>, lines: seq<Line>, items: seq<Item>, seen: set<Path>, result: Pins)
    requires path in files && Unfolds(files, files[path], whole) && Weight(items) <= Weight(whole)
    requires Around(files, seen - {path}, Weight(whole)) && path in seen
    requires Unfolds(files, lines, items) && DistinctNames(Declared(items)) && Names(Declared(items)) !! result.Keys
    ensures Collect(files, lines, seen, result).Ok? && Adds(result, Declared(items), Collect(files, lines, seen, result).value)
    decreases |files.Keys - seen|, |lines|
  {
    hide Adds, Declared, Names, DistinctNames, Around;
    NothingDeclared();
    if lines == [] {
      AddsNothing(result);
    } else {
      var item, more := items[0], items[1..];
      assert items == [item] + more;
      OneMore(item, more);
      DistinctParts(Declared([item]), Declared(more));
      NamesAppend(Declared([item]), Declared(more));
      var next := result;
      match lines[0] {
        case Blank => AddsNothing(result);
        case Pin(name, version) =>
          NewName(name, version, result);
          next := result[name := version];
          AddsOne(result, name, version);
        case Include(target) =>
          Deeper(files, path, whole, seen, Weight(item.items));
          Complete(files, target, seen, item.items);
          var nested := Inputs(files, target, seen).value;
          NestedNames(Declared(item.items), nested, result);
          next := result + nested;
          AddsNested(result, Declared(item.items), nested);
      }
      StillApart(result, Declared([item]), next, Declared(more));
      CompleteLines(files, path, whole, lines[1..], more, seen, next);
      AddsMore(result, Declared([item]), next, Declared(more), Collect(files, lines, seen, result).value);
    }
  }

  lemma NewName(name: string, version: string, result: Pins)
    requires Names([Requirement(name, version)]) !! result.Keys
    ensures name !in result
  {
    assert Requirement(name, version) in [Requirement(name, version)];
    assert name in Names([Requirement(name, version)]);
  }

  lemma NestedNames(pins: seq<Requirement>, nested: Pins, result: Pins)
    requires Adds(map[], pins, nested) && Names(pins) !! result.Keys
    ensures nested.Keys * result.Keys == {}
  {
  }

  lemma StillApart(result: Pins, a: seq<Requirement>, next: Pins, b: seq<Requirement>)
    requires Adds(result, a, next) && Names(a) !! Names(b) && Names(b) !! result.Keys
    ensures Names(b) !! next.Keys
  {
  }

  lemma Deeper(files: Files, path: Path, whole: seq<Item>, seen: set<Path>, weight: nat)
    requires path in files && Unfolds(files, files[path], whole) && weight < Weight(whole)
    requires Around(files, seen - {path}, Weight(whole))
    ensures Around(files, seen, weight)
  {
    forall s | s in seen ensures s in files && exists items :: Unfolds(files, files[s], items) && Weight(items) > weight {
      if s != path {
        assert s in seen - {path};
        var items :| Unfolds(files, files[s], items) && Weight(items) > Weight(whole);
      }
    }
  }

  /** Reading succeeds with `m` exactly when the includes unfold to the end, every name is declared once over the
      whole unfolding, and `m` is the table of those declarations. */
  ghost predicate Flattens(files: Files, path: Path, items: seq<Item>, m: Pins) {
    path in files && Unfolds(files, files[path], items) && Adds(map[], Declared(items), m)
  }

  lemma ReadingIsExact(files: Files, path: Path, m: Pins)
    ensures Inputs(files, path, {}) == Ok(m) <==> exists items :: Flattens(files, path, items, m)
  {
    if Inputs(files, path, {}) == Ok(m) {
      var items := Sound(files, path, {});
      assert Flattens(files, path, items, m);
    }
    if items :| Flattens(files, path, items, m) {
      Complete(files, path, {}, items);
      AddsUnique(map[], Declared(items), m, Inputs(files, path, {}).value);
    }
  }

  /** Each file of the chain includes the next. */
  ghost predicate Chain(files: Files, chain: seq<Path>) {
    forall k :: 0 <= k < |chain| - 1 ==> chain[k] in files && Include(chain[k + 1]) in files[chain[k]]
  }

  /** If reading succeeds, no chain of includes comes back to a file it has passed. */
  lemma NoCycle(files: Files, path: Path, chain: seq<Path>)
    requires Inputs(files, path, {}).Ok? && chain != [] && chain[0] == path && Chain(files, chain)
    ensures forall i, j :: 0 <= i < j < |chain| ==> chain[i] != chain[j]
  {
    var items := Sound(files, path, {});
    var all := Below(files, chain, items);
    forall i, j | 0 <= i < j < |chain| ensures chain[i] != chain[j] {
      if chain[i] == chain[j] {
        UnfoldingUnique(files, files[chain[i]], all[i], all[j]);
        Lighter(all, i, j);
      }
    }
  }

  lemma {:induction false} Below(files: Files, chain: seq<Path>, items: seq<Item>) returns (all: seq<seq<Item>>)
    requires chain != [] && Chain(files, chain) && chain[0] in files && Unfolds(files, files[chain[0]], items)
    ensures |all| == |chain| && all[0] == items
    ensures forall k :: 0 <= k < |chain| ==> chain[k] in files && Unfolds(files, files[chain[k]], all[k])
    ensures forall k :: 0 <= k < |chain| - 1 ==> Weight(all[k + 1]) < Weight(all[k])
    decreases |chain|
  {
    if |chain| == 1 {
      all := [items];
    } else {
      assert Include(chain[1]) in files[chain[0]];
      var inner := Included(files, files[chain[0]], items, chain[1]);
      forall k | 0 <= k < |chain[1..]| - 1 ensures chain[1..][k] in files && Include(chain[1..][k + 1]) in files[chain[1..][k]] {
        assert chain[k + 1] in files && Include(chain[k + 2]) in files[chain[k + 1]];
      }
      var more := Below(files, chain[1..], inner);
      all := [items] + more;
      forall k | 0 <= k < |chain| ensures chain[k] in files && Unfolds(files, files[chain[k]], all[k]) {
        if k > 0 { assert chain[1..][k - 1] == chain[k] && more[k - 1] == all[k]; }
      }
      forall k | 0 <= k < |chain| - 1 ensures Weight(all[k + 1]) < Weight(all[k]) {
        if k > 0 { assert Weight(more[k - 1 + 1]) < Weight(more[k - 1]); }
      }
    }
  }

  lemma {:induction false} Included(files: Files, lines: seq<Line>, items: seq<Item>, target: Path) returns (inner: seq<Item>)
    requires Unfolds(files, lines, items) && Include(target) in lines
    ensures target in files && Unfolds(files, files[target], inner) && Weight(inner) < Weight(items)
    decreases |lines|
  {
    if lines[0] == Include(target) {
      inner := items[0].items;
    } else {
      inner := Included(files, lines[1..], items[1..], target);
    }
  }

  lemma {:induction false} Lighter(all: seq<seq<Item>>, i: nat, j: nat)
    requires i < j < |all| && forall k :: 0 <= k < |all| - 1 ==> Weight(all[k + 1]) < Weight(all[k])
    ensures Weight(all[j]) < Weight(all[i])
    decreases j - i
  {
    if j > i + 1 { Lighter(all, i + 1, j); }
    assert Weight(all[i + 1]) < Weight(all[i]);
  }
}
