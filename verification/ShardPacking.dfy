/** The parts of one exported hour: the greedy packing loop, its contents and its optimality. */
module ShardPacking {
  import opened Wrappers

  const MAX_PART_BYTES: nat := 393_216

  /** One encoded record: a character stands for a byte. */
  datatype Entry = Entry(at: int, service: string, line: string, error: bool)

  /** The hour's `index.json`. */
  datatype Summary = Summary(
    first: int, last: int, records: nat, services: map<string, nat>, errors: map<string, nat>, parts: nat)

  function Bytes(part: seq<string>): nat {
    if part == [] then 0 else Bytes(part[..|part| - 1]) + |part[|part| - 1]|
  }

  function Flatten(parts: seq<seq<string>>): seq<string> {
    if parts == [] then [] else Flatten(parts[..|parts| - 1]) + parts[|parts| - 1]
  }

  function Lines(entries: seq<Entry>): (lines: seq<string>)
    ensures |lines| == |entries| && forall i :: 0 <= i < |entries| ==> lines[i] == entries[i].line
  {
    seq(|entries|, i requires 0 <= i < |entries| => entries[i].line)
  }

  /** A split within the limit, in order. */
  predicate Split(parts: seq<seq<string>>, lines: seq<string>) {
    Flatten(parts) == lines && forall p :: p in parts ==> Bytes(p) <= MAX_PART_BYTES
  }

  /** The number of entries of one service. */
  function Count(entries: seq<Entry>, service: string, errorsOnly: bool): nat {
    if entries == [] then 0
    else
      var e := entries[|entries| - 1];
      Count(entries[..|entries| - 1], service, errorsOnly) + (if e.service == service && (errorsOnly ==> e.error) then 1 else 0)
  }

  ghost predicate Counts(entries: seq<Entry>, counter: map<string, nat>, errorsOnly: bool) {
    && (forall s :: s in counter ==> counter[s] == Count(entries, s, errorsOnly) > 0)
    && (forall s :: s !in counter ==> Count(entries, s, errorsOnly) == 0)
  }

  /** The entries of a service, and those of them that report an error. */
  function Of(entries: seq<Entry>, service: string): set<int> {
    set i | 0 <= i < |entries| && entries[i].service == service
  }

  function ErrorsOf(entries: seq<Entry>, service: string): set<int> {
    set i | 0 <= i < |entries| && entries[i].service == service && entries[i].error
  }

  /** Counting is taking the size of these sets. */
  lemma OfNext(front: seq<Entry>, e: Entry, service: string)
    ensures Of(front + [e], service) == Of(front, service) + if e.service == service then {|front|} else {}
    ensures ErrorsOf(front + [e], service) == ErrorsOf(front, service) + if e.service == service && e.error then {|front|} else {}
  {
    var all := front + [e];
    forall i ensures i in Of(all, service) <==> i in Of(front, service) || (e.service == service && i == |front|) {
      if 0 <= i < |front| { assert all[i] == front[i]; }
    }
    forall i ensures i in ErrorsOf(all, service) <==> i in ErrorsOf(front, service) || (e.service == service && e.error && i == |front|) {
      if 0 <= i < |front| { assert all[i] == front[i]; }
    }
  }

  lemma Beyond(front: seq<Entry>, service: string)
    ensures |front| !in Of(front, service) && |front| !in ErrorsOf(front, service)
  {
  }

  lemma {:induction false} CountIsSize(entries: seq<Entry>, service: string)
    ensures Count(entries, service, false) == |Of(entries, service)| && Count(entries, service, true) == |ErrorsOf(entries, service)|
    decreases |entries|
  {
    if entries != [] {
      hide Of, ErrorsOf;
      var n := |entries| - 1;
      var front, e := entries[..n], entries[n];
      assert entries == front + [e];
      CountIsSize(front, service);
      OfNext(front, e, service);
      Beyond(front, service);
    } else {
      assert Of(entries, service) == {} && ErrorsOf(entries, service) == {};
    }
  }

  lemma CountersTell(entries: seq<Entry>, services: map<string, nat>, errors: map<string, nat>)
    requires Counts(entries, services, false) && Counts(entries, errors, true)
    ensures forall s :: (if s in services then services[s] else 0) == |Of(entries, s)| && (s in services ==> services[s] > 0)
    ensures forall s :: (if s in errors then errors[s] else 0) == |ErrorsOf(entries, s)| && (s in errors ==> errors[s] > 0)
  {
    hide Of, ErrorsOf, Count;
    forall s: string
      ensures (if s in services then services[s] else 0) == |Of(entries, s)| && (s in services ==> services[s] > 0)
      ensures (if s in errors then errors[s] else 0) == |ErrorsOf(entries, s)| && (s in errors ==> errors[s] > 0)
    {
      CountIsSize(entries, s);
    }
  }

  /** The last part, to which the next line may be added. */
  function Tail(parts: seq<seq<string>>): seq<string> {
    if parts == [] then [] else parts[|parts| - 1]
  }

  /** At least as good as any split of the same lines, now and whatever follows. */
  predicate Ahead(parts: seq<seq<string>>, other: seq<seq<string>>) {
    |parts| < |other| || (|parts| == |other| && Bytes(Tail(parts)) <= Bytes(Tail(other)))
  }

  /** What the loop does with one line. */
  function Place(parts: seq<seq<string>>, line: string): seq<seq<string>> {
    if parts == [] || Bytes(Tail(parts)) + |line| > MAX_PART_BYTES then parts + [[line]]
    else parts[..|parts| - 1] + [Tail(parts) + [line]]
  }

  lemma PlaceFlatten(parts: seq<seq<string>>, line: string)
    ensures Flatten(Place(parts, line)) == Flatten(parts) + [line]
  {
    var placed := Place(parts, line);
    assert placed[..|placed| - 1] == (if |placed| > |parts| then parts else parts[..|parts| - 1]);
  }

  lemma BytesSnoc(part: seq<string>, line: string)
    ensures Bytes(part + [line]) == Bytes(part) + |line|
  {
    assert (part + [line])[..|part|] == part;
  }

  lemma FlattenSnoc(parts: seq<seq<string>>, p: seq<string>)
    ensures Flatten(parts + [p]) == Flatten(parts) + p
  {
    assert (parts + [p])[..|parts|] == parts;
  }

  lemma SameSnoc<T>(a: seq<T>, x: T, b: seq<T>, y: T)
    requires a + [x] == b + [y]
    ensures a == b && x == y
  {
    assert |a| == |b|;
    assert a == (a + [x])[..|a|] && b == (b + [y])[..|b|];
    assert x == (a + [x])[|a|] && y == (b + [y])[|b|];
  }

  lemma Regroup<T>(a: seq<T>, b: seq<T>, x: T)
    ensures a + (b + [x]) == (a + b) + [x]
  {
  }

  /** Taking the last line out of a split. */
  lemma Shorten(lines: seq<string>, line: string, front: seq<seq<string>>, rest: seq<string>, end: string)
    requires Split(front + [rest + [end]], lines + [line])
    ensures end == line && Bytes(rest) + |line| <= MAX_PART_BYTES
    ensures Split(front + [rest], lines)
  {
    hide Bytes, Flatten;
    var p := rest + [end];
    BytesSnoc(rest, end);
    FlattenSnoc(front, p);
    FlattenSnoc(front, rest);
    Regroup(Flatten(front), rest, end);
    SameSnoc(Flatten(front) + rest, end, lines, line);
    Within(front, p, rest);
  }

  lemma Within(front: seq<seq<string>>, p: seq<string>, rest: seq<string>)
    requires (forall x :: x in front + [p] ==> Bytes(x) <= MAX_PART_BYTES) && Bytes(rest) <= Bytes(p)
    ensures Bytes(p) <= MAX_PART_BYTES && forall x :: x in front + [rest] ==> Bytes(x) <= MAX_PART_BYTES
  {
    assert p in front + [p];
    forall x | x in front + [rest] ensures Bytes(x) <= MAX_PART_BYTES { assert x in front + [p] || x == rest; }
  }

  /** The parts hold the lines in order within the limit, none is empty, and no split is ahead of them. */
  ghost predicate Packed(parts: seq<seq<string>>, lines: seq<string>) {
    && Split(parts, lines) && (forall p :: p in parts ==> p != []) && (lines == [] <==> parts == [])
    && forall q :: Split(q, lines) && lines != [] ==> Ahead(parts, q)
  }

  /** Greedy stays ahead: no split of one line more is shorter, nor as short with more room left. */
  lemma {:induction false} StaysAhead(lines: seq<string>, parts: seq<seq<string>>, line: string, other: seq<seq<string>>)
    requires Packed(parts, lines) && Split(other, lines + [line])
    ensures Ahead(Place(parts, line), other)
    decreases |other|
  {
    hide Split;
    SplitSomething(other, lines + [line]);
    var n := |other| - 1;
    var front, p := other[..n], other[n];
    assert other == front + [p];
    if p == [] {
      FrontSplit(front, lines + [line]);
      StaysAhead(lines, parts, line, front);
    } else {
      var rest, end := p[..|p| - 1], p[|p| - 1];
      assert p == rest + [end];
      LastLine(lines, parts, line, front, rest, end);
    }
  }

  /** The step for a split whose last part is not empty. */
  lemma LastLine(lines: seq<string>, parts: seq<seq<string>>, line: string, front: seq<seq<string>>, rest: seq<string>, end: string)
    requires Packed(parts, lines) && Split(front + [rest + [end]], lines + [line])
    ensures Ahead(Place(parts, line), front + [rest + [end]])
  {
    hide Split, Bytes;
    Shorten(lines, line, front, rest, end);
    assert Ahead(parts, front + [rest]) || lines == [];
    BytesSnoc(rest, end);
    BytesSnoc(Tail(parts), line);
    BytesOne();
    LastPart(front, rest);
    LastPart(front, rest + [end]);
    assert Tail(Place(parts, line)) == if |Place(parts, line)| > |parts| then [line] else Tail(parts) + [line];
  }

  lemma LastPart(front: seq<seq<string>>, p: seq<string>)
    ensures Tail(front + [p]) == p && |front + [p]| == |front| + 1
  {
  }

  lemma SplitSomething(parts: seq<seq<string>>, lines: seq<string>)
    requires Split(parts, lines) && lines != []
    ensures parts != []
  {
  }

  lemma FrontSplit(front: seq<seq<string>>, lines: seq<string>)
    requires Split(front + [[]], lines)
    ensures Split(front, lines)
  {
    FlattenSnoc(front, []);
    forall p | p in front ensures Bytes(p) <= MAX_PART_BYTES { assert p in front + [[]]; }
  }

  lemma Placed(parts: seq<seq<string>>, lines: seq<string>, line: string)
    requires Packed(parts, lines) && |line| <= MAX_PART_BYTES
    ensures Packed(Place(parts, line), lines + [line])
  {
    var placed := Place(parts, line);
    PlaceFlatten(parts, line);
    BytesSnoc(Tail(parts), line);
    BytesSnoc([], line);
    forall p | p in placed ensures p != [] && Bytes(p) <= MAX_PART_BYTES {
      assert p in parts || p == placed[|placed| - 1];
    }
    forall q | Split(q, lines + [line]) ensures Ahead(placed, q) {
      StaysAhead(lines, parts, line, q);
    }
  }

  lemma BytesOne()
    ensures Bytes([]) == 0 && forall line {:trigger [line]} :: Bytes([line]) == |line|
  {
    forall line: string ensures Bytes([line]) == |line| { BytesSnoc([], line); }
  }

  lemma NothingPacked()
    ensures Packed([], Lines([])) && forall b :: Counts([], map[], b)
  {
  }

  lemma PackedBest(parts: seq<seq<string>>, lines: seq<string>)
    requires Packed(parts, lines)
    ensures Split(parts, lines) && (forall p :: p in parts ==> p != []) && forall q :: Split(q, lines) ==> |parts| <= |q|
  {
  }

  lemma Counted(entries: seq<Entry>, i: nat, counter: map<string, nat>, errorsOnly: bool)
    requires i < |entries| && Counts(entries[..i], counter, errorsOnly)
    ensures Counts(entries[..i + 1], if errorsOnly && !entries[i].error then counter else Increment(counter, entries[i].service), errorsOnly)
  {
    assert entries[..i + 1][..i] == entries[..i];
  }

  /** `export_hour`: fills a part until the next line would overflow it. */
  method ExportHour(entries: seq<Entry>) returns (r: Result<Option<Summary>>, parts: seq<seq<string>>)
    ensures r.Err? <==> exists e :: e in entries && |e.line| > MAX_PART_BYTES
    ensures r.Ok? ==> Split(parts, Lines(entries)) && forall p :: p in parts ==> p != []
    ensures r.Ok? ==> forall q :: Split(q, Lines(entries)) ==> |parts| <= |q|
    ensures r.Ok? ==> (r.value.None? <==> entries == [])
    ensures r.Ok? && entries != [] ==>
              var s := r.value.value;
              && s.records == |entries| && s.parts == |parts| && s.first == entries[0].at && s.last == entries[|entries| - 1].at
              && (forall x :: (if x in s.services then s.services[x] else 0) == |Of(entries, x)| && (x in s.services ==> s.services[x] > 0))
              && (forall x :: (if x in s.errors then s.errors[x] else 0) == |ErrorsOf(entries, x)| && (x in s.errors ==> s.errors[x] > 0))
  {
    hide Packed, Split, Counts, Increment, Bytes, Flatten, Of, ErrorsOf;
    NothingPacked();
    BytesOne();
    parts := [];
    var size, count := 0, 0;
    var services: map<string, nat> := map[];
    var errors: map<string, nat> := map[];
    var first, last := 0, 0;
    var i := 0;
    assert entries[..0] == [];
    while i < |entries|
      invariant 0 <= i <= |entries| && count == i
      invariant forall k :: 0 <= k < i ==> |entries[k].line| <= MAX_PART_BYTES
      invariant size == Bytes(Tail(parts)) && (i == 0 <==> parts == []) && Packed(parts, Lines(entries[..i]))
      invariant i > 0 ==> first == entries[0].at && last == entries[i - 1].at
      invariant Counts(entries[..i], services, false) && Counts(entries[..i], errors, true)
    {
      var e := entries[i];
      if |e.line| > MAX_PART_BYTES {
        assert e in entries;
        return Err, parts;
      }
      ghost var before := parts;
      if parts == [] || size + |e.line| > MAX_PART_BYTES {
        parts, size := parts + [[e.line]], |e.line|;
      } else {
        parts, size := parts[..|parts| - 1] + [parts[|parts| - 1] + [e.line]], size + |e.line|;
      }
      count := count + 1;
      Counted(entries, i, services, false);
      Counted(entries, i, errors, true);
      services := Increment(services, e.service);
      if e.error { errors := Increment(errors, e.service); }
      if i == 0 { first := e.at; }
      last := e.at;
      assert parts == Place(before, e.line);
      assert Lines(entries[..i + 1]) == Lines(entries[..i]) + [e.line];
      Placed(before, Lines(entries[..i]), e.line);
      BytesSnoc(Tail(before), e.line);
      i := i + 1;
    }
    assert entries[..i] == entries;
    PackedBest(parts, Lines(entries));
    if count == 0 { return Ok(None), parts; }
    CountersTell(entries, services, errors);
    return Ok(Some(Summary(first, last, count, services, errors, |parts|))), parts;
  }

  function Increment(counter: map<string, nat>, key: string): map<string, nat> {
    counter[key := (if key in counter then counter[key] else 0) + 1]
  }
}
