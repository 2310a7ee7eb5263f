/** Batching of retained log lines: bounded ordinary batches, and owner incidents that are never split. */
module LogBatches {
  import opened Wrappers
  import opened LogLines
  import opened Sequences
  import opened Sorting

  const MAX_OWNER_RECORD_LINES := 128
  const MAX_OWNER_INCIDENT_BYTES := 524_288

  /** The lines from one stamped header to the next; the first group has no header. */
  datatype Group = Group(stamp: Option<nat>, lines: seq<string>)

  /** A row of the spool. */
  datatype Record = Record(stamp: nat, lines: seq<string>)

  /** The characters of these lines, each with its newline. */
  function Size(lines: seq<string>): nat {
    if lines == [] then 0 else Size(lines[..|lines| - 1]) + |lines[|lines| - 1]| + 1
  }

  function Concat(batches: seq<seq<string>>): seq<string> {
    if batches == [] then [] else Concat(batches[..|batches| - 1]) + batches[|batches| - 1]
  }

  function Add(groups: seq<Group>, line: string, stampOf: string -> Option<nat>): (r: seq<Group>)
    requires groups != []
    ensures r != []
  {
    var n := |groups| - 1;
    if stampOf(line).Some? then groups + [Group(stampOf(line), [line])]
    else groups[..n] + [groups[n].(lines := groups[n].lines + [line])]
  }

  function Groups(lines: seq<string>, stampOf: string -> Option<nat>): (r: seq<Group>)
    ensures r != []
  {
    if lines == [] then [Group(None, [])] else Add(Groups(lines[..|lines| - 1], stampOf), lines[|lines| - 1], stampOf)
  }

  /** The lines cut exactly before each line with a stamp, each group with the stamp of its first line. */
  ghost predicate CutAtStamps(lines: seq<string>, stampOf: string -> Option<nat>, groups: seq<Group>) {
    && groups != [] && Members(groups) == lines
    && groups[0].stamp.None? && (forall l :: l in groups[0].lines ==> stampOf(l).None?)
    && (forall i :: 0 < i < |groups| ==> Headed(groups[i], stampOf))
  }

  /** The first line is the only one with a stamp. */
  ghost predicate Headed(g: Group, stampOf: string -> Option<nat>) {
    && g.lines != [] && g.stamp.Some? && g.stamp == stampOf(g.lines[0])
    && forall k :: 0 < k < |g.lines| ==> stampOf(g.lines[k]).None?
  }

  lemma HeadedMore(g: Group, line: string, stampOf: string -> Option<nat>)
    requires stampOf(line).None?
    ensures Headed(g, stampOf) ==> Headed(g.(lines := g.lines + [line]), stampOf)
    ensures (forall l :: l in g.lines ==> stampOf(l).None?) ==> forall l :: l in g.lines + [line] ==> stampOf(l).None?
  {
  }

  lemma HeadedAlone(line: string, stampOf: string -> Option<nat>)
    requires stampOf(line).Some?
    ensures Headed(Group(stampOf(line), [line]), stampOf)
  {
  }

  lemma {:induction false} GroupsCut(lines: seq<string>, stampOf: string -> Option<nat>)
    ensures CutAtStamps(lines, stampOf, Groups(lines, stampOf))
    decreases |lines|
  {
    hide Members, Headed;
    ConservedLines(lines, stampOf);
    if lines != [] {
      var line := lines[|lines| - 1];
      GroupsCut(lines[..|lines| - 1], stampOf);
      var before := Groups(lines[..|lines| - 1], stampOf);
      if stampOf(line).None? {
        HeadedMore(before[|before| - 1], line, stampOf);
      } else {
        assert Headed(Group(stampOf(line), [line]), stampOf) by { HeadedAlone(line, stampOf); }
      }
    }
  }

  /** All of these lines in one piece. */
  ghost predicate Within(part: seq<string>, whole: seq<string>) {
    exists a, b :: whole == a + part + b
  }

  lemma WithinMore(part: seq<string>, whole: seq<string>, more: seq<string>)
    ensures Within(part, whole) ==> Within(part, whole + more)
    ensures Within(part, whole + part)
  {
    if Within(part, whole) {
      var a, b :| whole == a + part + b;
      assert whole + more == a + part + (b + more);
    }
    assert whole + part == whole + part + [];
  }

  /** A record that is not an owner record stands in one piece among the ordinary lines. */
  lemma {:induction false} OrdinaryWhole(groups: seq<Group>, hit: string -> bool, g: Group)
    requires g in groups && !Relevant(g, hit)
    ensures Within(g.lines, Ordinary(groups, hit))
    decreases |groups|
  {
    hide Relevant, Within;
    var front, last := groups[..|groups| - 1], groups[|groups| - 1];
    assert groups == front + [last];
    var more := if Relevant(last, hit) then [] else last.lines;
    WithinMore(g.lines, Ordinary(front, hit), more);
    if g in front { OrdinaryWhole(front, hit, g); }
  }

  lemma {:induction false} SpoolWhole(groups: seq<Group>, hit: string -> bool, g: Group)
    requires g in groups && Relevant(g, hit)
    ensures g.stamp.Some? && Record(g.stamp.value, g.lines) in Spool(groups, hit)
    decreases |groups|
  {
    var front, last := groups[..|groups| - 1], groups[|groups| - 1];
    assert groups == front + [last];
    if g in front { SpoolWhole(front, hit, g); }
  }

  lemma {:induction false} BodiesWhole(spool: seq<Record>, r: Record)
    requires r in spool
    ensures Within(r.lines, Bodies(spool, r.stamp))
    decreases |spool|
  {
    hide Within;
    var front, last := spool[..|spool| - 1], spool[|spool| - 1];
    assert spool == front + [last];
    var more := if last.stamp == r.stamp then last.lines else [];
    WithinMore(r.lines, Bodies(front, r.stamp), more);
    if r in front { BodiesWhole(front, r); }
  }

  /** Each record in one piece: an owner record in the incident of its second, any other among the ordinary lines. */
  ghost predicate KeptWhole(groups: seq<Group>, hit: string -> bool, ordinary: seq<string>, incidents: seq<seq<string>>, stamps: seq<nat>) {
    && |incidents| == |stamps|
    && (forall i :: 0 <= i < |groups| ==>
          if groups[i].stamp.Some? && exists l :: l in groups[i].lines && hit(l)
          then exists k :: 0 <= k < |stamps| && stamps[k] == groups[i].stamp.value && Within(groups[i].lines, incidents[k])
          else Within(groups[i].lines, ordinary))
  }

  lemma RecordsWhole(groups: seq<Group>, hit: string -> bool, incidents: seq<seq<string>>, stamps: seq<nat>)
    requires Incidental(Spool(groups, hit), incidents, stamps)
    ensures KeptWhole(groups, hit, Ordinary(groups, hit), incidents, stamps)
  {
    hide Within, Spool, Ordinary, Bodies, Rising;
    forall i | 0 <= i < |groups|
      ensures if groups[i].stamp.Some? && exists l :: l in groups[i].lines && hit(l)
              then exists k :: 0 <= k < |stamps| && stamps[k] == groups[i].stamp.value && Within(groups[i].lines, incidents[k])
              else Within(groups[i].lines, Ordinary(groups, hit))
    {
      var g := groups[i];
      if Relevant(g, hit) {
        SpoolWhole(groups, hit, g);
        var record := Record(g.stamp.value, g.lines);
        BodiesWhole(Spool(groups, hit), record);
        assert record.stamp in stamps;
        var k :| 0 <= k < |stamps| && stamps[k] == record.stamp;
        assert Within(g.lines, incidents[k]);
      } else {
        OrdinaryWhole(groups, hit, g);
      }
    }
  }

  /** A stamped group with a line that may report an owner transition. */
  predicate Relevant(g: Group, hit: string -> bool) {
    g.stamp.Some? && exists l :: l in g.lines && hit(l)
  }

  predicate TooLarge(g: Group) {
    Size(g.lines) > LOG_READ_BYTES || |g.lines| > MAX_OWNER_RECORD_LINES
  }

  predicate Unsafe(groups: seq<Group>, hit: string -> bool) {
    exists g :: g in groups && Relevant(g, hit) && TooLarge(g)
  }

  /** The lines that belong to no owner record, in order. */
  function Ordinary(groups: seq<Group>, hit: string -> bool): seq<string> {
    if groups == [] then []
    else
      var n := |groups| - 1;
      Ordinary(groups[..n], hit) + if Relevant(groups[n], hit) then [] else groups[n].lines
  }

  /** The owner records, whole and in order. */
  function Spool(groups: seq<Group>, hit: string -> bool): seq<Record> {
    if groups == [] then []
    else
      var n := |groups| - 1;
      Spool(groups[..n], hit) + if Relevant(groups[n], hit) then [Record(groups[n].stamp.value, groups[n].lines)] else []
  }

  /** All owner lines of one second, in order. */
  function Bodies(spool: seq<Record>, stamp: nat): seq<string> {
    if spool == [] then []
    else
      var n := |spool| - 1;
      Bodies(spool[..n], stamp) + if spool[n].stamp == stamp then spool[n].lines else []
  }

  lemma SizeSnoc(lines: seq<string>, line: string)
    ensures Size(lines + [line]) == Size(lines) + |line| + 1
  {
    assert (lines + [line])[..|lines|] == lines;
  }

  lemma {:induction false} SizeAppend(a: seq<string>, b: seq<string>)
    ensures Size(a + b) == Size(a) + Size(b)
    decreases |b|
  {
    if b == [] {
      assert a + b == a;
    } else {
      var front, x := b[..|b| - 1], b[|b| - 1];
      SizeAppend(a, front);
      assert a + b == (a + front) + [x];
      SizeSnoc(a + front, x);
    }
  }

  lemma ConcatSnoc(batches: seq<seq<string>>, b: seq<string>)
    ensures Concat(batches + [b]) == Concat(batches) + b
  {
    assert (batches + [b])[..|batches|] == batches;
  }

  lemma GroupsSnoc(groups: seq<Group>, g: Group, hit: string -> bool)
    ensures Ordinary(groups + [g], hit) == Ordinary(groups, hit) + (if Relevant(g, hit) then [] else g.lines)
    ensures Spool(groups + [g], hit) == Spool(groups, hit) + (if Relevant(g, hit) then [Record(g.stamp.value, g.lines)] else [])
  {
    assert (groups + [g])[..|groups|] == groups;
  }

  lemma GroupsNext(lines: seq<string>, i: nat, stampOf: string -> Option<nat>)
    requires i < |lines|
    ensures Groups(lines[..i + 1], stampOf) == Add(Groups(lines[..i], stampOf), lines[i], stampOf)
  {
    assert lines[..i + 1][..i] == lines[..i];
  }

  lemma Grown(g: Group, line: string, hit: string -> bool)
    requires Relevant(g, hit) && TooLarge(g)
    ensures Relevant(g.(lines := g.lines + [line]), hit) && TooLarge(g.(lines := g.lines + [line]))
  {
    SizeSnoc(g.lines, line);
    var l :| l in g.lines && hit(l);
    assert l in g.lines + [line];
  }

  lemma UnsafeAdd(groups: seq<Group>, line: string, stampOf: string -> Option<nat>, hit: string -> bool)
    requires groups != [] && Unsafe(groups, hit)
    ensures Unsafe(Add(groups, line, stampOf), hit)
  {
    hide Relevant, TooLarge;
    var g :| g in groups && Relevant(g, hit) && TooLarge(g);
    var added := Add(groups, line, stampOf);
    var n := |groups| - 1;
    var k :| 0 <= k < |groups| && groups[k] == g;
    if k < n || stampOf(line).Some? {
      assert added[k] == g;
    } else {
      Grown(g, line, hit);
      assert added[n] == g.(lines := g.lines + [line]);
    }
  }

  /** An owner record that is too large already stays so. */
  lemma {:induction false} UnsafeLater(lines: seq<string>, i: nat, stampOf: string -> Option<nat>, hit: string -> bool)
    requires i <= |lines| && Unsafe(Groups(lines[..i], stampOf), hit)
    ensures Unsafe(Groups(lines, stampOf), hit)
    decreases |lines| - i
  {
    if i == |lines| {
      assert lines[..i] == lines;
    } else {
      GroupsNext(lines, i, stampOf);
      UnsafeAdd(Groups(lines[..i], stampOf), lines[i], stampOf, hit);
      UnsafeLater(lines, i + 1, stampOf, hit);
    }
  }

  /** No line is lost or repeated. */
  lemma {:induction false} Conserved(lines: seq<string>, stampOf: string -> Option<nat>, hit: string -> bool)
    ensures multiset(lines) == multiset(Ordinary(Groups(lines, stampOf), hit)) + multiset(Spooled(Spool(Groups(lines, stampOf), hit)))
  {
    ConservedLines(lines, stampOf);
    ConservedGroups(Groups(lines, stampOf), hit);
  }

  function Spooled(spool: seq<Record>): seq<string> {
    if spool == [] then [] else Spooled(spool[..|spool| - 1]) + spool[|spool| - 1].lines
  }

  function Members(groups: seq<Group>): seq<string> {
    if groups == [] then [] else Members(groups[..|groups| - 1]) + groups[|groups| - 1].lines
  }

  lemma MembersSnoc(groups: seq<Group>, g: Group)
    ensures Members(groups + [g]) == Members(groups) + g.lines
  {
    assert (groups + [g])[..|groups|] == groups;
  }

  lemma MembersAdd(groups: seq<Group>, line: string, stampOf: string -> Option<nat>)
    requires groups != []
    ensures Members(Add(groups, line, stampOf)) == Members(groups) + [line]
  {
    var n := |groups| - 1;
    var front, g := groups[..n], groups[n];
    assert groups == front + [g];
    hide Members;
    MembersSnoc(front, g);
    if stampOf(line).Some? {
      MembersSnoc(groups, Group(stampOf(line), [line]));
    } else {
      MembersSnoc(front, g.(lines := g.lines + [line]));
      assert Members(front) + (g.lines + [line]) == (Members(front) + g.lines) + [line];
    }
  }

  lemma {:induction false} ConservedLines(lines: seq<string>, stampOf: string -> Option<nat>)
    ensures Members(Groups(lines, stampOf)) == lines
    decreases |lines|
  {
    hide Members, Add;
    if lines == [] {
      MembersSnoc([], Group(None, []));
      NoMembers();
      assert [] + [Group(None, [])] == [Group(None, [])];
    } else {
      var front, line := lines[..|lines| - 1], lines[|lines| - 1];
      ConservedLines(front, stampOf);
      MembersAdd(Groups(front, stampOf), line, stampOf);
      assert lines == front + [line];
    }
  }

  lemma NoMembers()
    ensures Members([]) == []
  {
  }

  lemma SpooledSnoc(spool: seq<Record>, r: Record)
    ensures Spooled(spool + [r]) == Spooled(spool) + r.lines
  {
    assert (spool + [r])[..|spool|] == spool;
  }

  lemma {:induction false} ConservedGroups(groups: seq<Group>, hit: string -> bool)
    ensures multiset(Members(groups)) == multiset(Ordinary(groups, hit)) + multiset(Spooled(Spool(groups, hit)))
    decreases |groups|
  {
    if groups != [] {
      hide Relevant, Members, Ordinary, Spool, Spooled;
      var front, g := groups[..|groups| - 1], groups[|groups| - 1];
      assert groups == front + [g];
      ConservedGroups(front, hit);
      MembersSnoc(front, g);
      GroupsSnoc(front, g, hit);
      if Relevant(g, hit) {
        StampedGroup(g, hit);
        SpooledSnoc(Spool(front, hit), Record(g.stamp.value, g.lines));
        assert Ordinary(groups, hit) == Ordinary(front, hit);
      } else {
        assert Spool(groups, hit) == Spool(front, hit);
      }
    }
  }

  lemma StampedGroup(g: Group, hit: string -> bool)
    requires Relevant(g, hit)
    ensures g.stamp.Some?
  {
  }

  /** The variables of the first pass; `emitted` is what the open group has already given to ordinary batches. */
  datatype Scan = Scan(
    batches: seq<seq<string>>, ordinary: seq<string>, spool: seq<Record>,
    record: seq<string>, emitted: seq<string>, timestamp: Option<nat>, relevant: bool, oversized: bool)

  ghost predicate Tracks(s: Scan, groups: seq<Group>, hit: string -> bool) {
    groups != [] &&
      var closed, g := groups[..|groups| - 1], groups[|groups| - 1];
      && s.timestamp == g.stamp && s.relevant == Relevant(g, hit) && g.lines == s.emitted + s.record
      && Concat(s.batches) + s.ordinary == Ordinary(closed, hit) + s.emitted
      && s.spool == Spool(closed, hit) && !Unsafe(closed, hit)
      && (s.oversized <==> TooLarge(g)) && (s.oversized ==> !s.relevant) && (!s.oversized ==> s.emitted == [])
      && Size(s.record) <= LOG_READ_BYTES + 1
  }

  /** What `finish_record` leaves. */
  function Finished(s: Scan): Scan {
    if s.record == [] then s
    else if s.relevant && s.timestamp.Some? then s.(spool := s.spool + [Record(s.timestamp.value, s.record)])
    else s.(ordinary := s.ordinary + s.record)
  }

  /** A header closes the open group. */
  lemma CloseGroup(s: Scan, groups: seq<Group>, hit: string -> bool, stamp: nat)
    requires Tracks(s, groups, hit)
    ensures Tracks(Finished(s).(record := [], emitted := [], timestamp := Some(stamp), relevant := false, oversized := false),
                   groups + [Group(Some(stamp), [])], hit)
    ensures Concat(s.batches) + Finished(s).ordinary == Ordinary(groups, hit) && Finished(s).spool == Spool(groups, hit)
    ensures !Unsafe(groups, hit)
  {
    var n := |groups| - 1;
    var closed, g := groups[..n], groups[n];
    assert groups == closed + [g];
    GroupsSnoc(closed, g, hit);
    assert (groups + [Group(Some(stamp), [])])[..n + 1] == groups;
    var whole := Concat(s.batches) + s.ordinary;
    if s.relevant {
      var l :| l in g.lines && hit(l);
      assert s.emitted + s.record == s.record;
      assert Ordinary(closed, hit) + s.emitted == Ordinary(closed, hit);
    } else {
      assert Concat(s.batches) + (s.ordinary + s.record) == whole + s.record;
      assert (Ordinary(closed, hit) + s.emitted) + s.record == Ordinary(closed, hit) + g.lines;
      assert s.record == [] ==> s.ordinary + s.record == s.ordinary;
    }
    assert Ordinary(groups, hit) + [] == Ordinary(groups, hit);
    assert !Unsafe(groups, hit) by {
      forall x | x in groups ensures !(Relevant(x, hit) && TooLarge(x)) {
        assert x in closed || x == g;
      }
    }
  }

  /** The open group with one line more. */
  function Longer(groups: seq<Group>, line: string): seq<Group>
    requires groups != []
  {
    var n := |groups| - 1;
    groups[..n] + [groups[n].(lines := groups[n].lines + [line])]
  }

  lemma LongerRelevant(g: Group, line: string, hit: string -> bool)
    ensures Relevant(g.(lines := g.lines + [line]), hit) == (Relevant(g, hit) || (g.stamp.Some? && hit(line)))
  {
    var h := g.(lines := g.lines + [line]);
    assert forall l :: l in h.lines <==> l in g.lines || l == line;
  }

  /** Which lines overflow the record, and what that means for the open group. */
  lemma Overflows(s: Scan, groups: seq<Group>, hit: string -> bool, line: string)
    requires Tracks(s, groups, hit)
    ensures var g := Longer(groups, line)[|groups| - 1];
            var overflow := Size(s.record) + |line| + 1 > LOG_READ_BYTES || |s.record| >= MAX_OWNER_RECORD_LINES;
            && (TooLarge(g) <==> overflow || s.oversized)
  {
    var g := groups[|groups| - 1];
    SizeSnoc(g.lines, line);
    if s.oversized {
      assert TooLarge(g);
    } else {
      assert s.emitted + s.record == s.record;
    }
  }

  /** The line joins the record. */
  lemma JoinLine(s: Scan, groups: seq<Group>, hit: string -> bool, line: string)
    requires Tracks(s, groups, hit)
    requires Size(s.record) + |line| + 1 <= LOG_READ_BYTES && |s.record| < MAX_OWNER_RECORD_LINES
    requires !((s.relevant || (s.timestamp.Some? && hit(line))) && s.oversized)
    ensures Tracks(s.(record := s.record + [line], relevant := s.relevant || (s.timestamp.Some? && hit(line))), Longer(groups, line), hit)
  {
    hide Relevant, TooLarge, Concat, Ordinary, Spool, Unsafe, Size;
    var n := |groups| - 1;
    assert Longer(groups, line)[..n] == groups[..n];
    LongerRelevant(groups[n], line, hit);
    Overflows(s, groups, hit, line);
    SizeSnoc(s.record, line);
    assert (s.emitted + s.record) + [line] == s.emitted + (s.record + [line]);
  }

  /** The line starts the next part of an ordinary group. */
  lemma SplitLine(s: Scan, groups: seq<Group>, hit: string -> bool, line: string)
    requires Tracks(s, groups, hit) && |line| <= LOG_READ_BYTES
    requires Size(s.record) + |line| + 1 > LOG_READ_BYTES || |s.record| >= MAX_OWNER_RECORD_LINES
    requires !s.relevant && !(s.timestamp.Some? && hit(line))
    ensures Tracks(s.(ordinary := s.ordinary + s.record, emitted := s.emitted + s.record, record := [line], oversized := true), Longer(groups, line), hit)
  {
    hide Relevant, TooLarge, Concat, Ordinary, Spool, Unsafe, Size;
    var n := |groups| - 1;
    assert Longer(groups, line)[..n] == groups[..n];
    LongerRelevant(groups[n], line, hit);
    Overflows(s, groups, hit, line);
    OneLine(line);
    assert Concat(s.batches) + (s.ordinary + s.record) == (Concat(s.batches) + s.ordinary) + s.record;
    assert Ordinary(groups[..n], hit) + (s.emitted + s.record) == (Ordinary(groups[..n], hit) + s.emitted) + s.record;
  }

  lemma OneLine(line: string)
    ensures Size([line]) == |line| + 1 && Size([]) == 0
  {
    assert [] + [line] == [line];
    SizeSnoc([], line);
  }

  lemma FinishedOrdinary(s: Scan)
    requires !s.relevant
    ensures Finished(s) == s.(ordinary := s.ordinary + s.record)
  {
    if s.record == [] { assert s.ordinary + s.record == s.ordinary; }
  }

  lemma BatchOut(s: Scan, groups: seq<Group>, hit: string -> bool)
    requires Tracks(s, groups, hit)
    ensures Tracks(s.(batches := s.batches + [s.ordinary], ordinary := []), groups, hit)
  {
    ConcatSnoc(s.batches, s.ordinary);
    assert (Concat(s.batches) + s.ordinary) + [] == Concat(s.batches) + s.ordinary;
  }

  lemma NoGroups(hit: string -> bool)
    ensures Tracks(Scan([], [], [], [], [], None, false, false), [Group(None, [])], hit)
  {
    assert [Group(None, [])][..0] == [];
  }

  /** A relevant line on a record that is too large makes the configuration unsafe. */
  lemma OversizedOwner(s: Scan, groups: seq<Group>, hit: string -> bool, line: string)
    requires Tracks(s, groups, hit) && (s.relevant || (s.timestamp.Some? && hit(line)))
    requires s.oversized || Size(s.record) + |line| + 1 > LOG_READ_BYTES || |s.record| >= MAX_OWNER_RECORD_LINES
    ensures Unsafe(Longer(groups, line), hit)
  {
    var g := Longer(groups, line)[|groups| - 1];
    LongerRelevant(groups[|groups| - 1], line, hit);
    Overflows(s, groups, hit, line);
    assert g in Longer(groups, line);
  }

  /** The first pass over the lines: ordinary batches, and the spool of owner records. */
  method Collect(lines: seq<string>, stampOf: string -> Option<nat>, hit: string -> bool)
    returns (r: Status, batches: seq<seq<string>>, spool: seq<Record>)
    requires forall l :: l in lines ==> |l| <= LOG_READ_BYTES
    ensures r.Raised? <==> Unsafe(Groups(lines, stampOf), hit)
    ensures r.Done? ==> Concat(batches) == Ordinary(Groups(lines, stampOf), hit) && spool == Spool(Groups(lines, stampOf), hit)
    ensures forall b :: b in batches ==> Size(b) <= 2 * LOG_READ_BYTES
  {
    hide Tracks, Groups, Relevant, TooLarge, Concat, Ordinary, Spool, Unsafe, Size, Finished, Add, Longer;
    batches, spool := [], [];
    var ordinary: seq<string>, ordinarySize := [], 0;
    var record: seq<string>, recordSize := [], 0;
    var timestamp: Option<nat>, relevant, oversized := None, false, false;
    ghost var emitted: seq<string> := [];
    var i := 0;
    NoGroups(hit);
    OneLine("");
    NothingRead(lines, stampOf);
    while i < |lines|
      invariant 0 <= i <= |lines|
      invariant Tracks(Scan(batches, ordinary, spool, record, emitted, timestamp, relevant, oversized), Groups(lines[..i], stampOf), hit)
      invariant recordSize == Size(record) <= LOG_READ_BYTES + 1 && ordinarySize == Size(ordinary) < LOG_READ_BYTES
      invariant forall b :: b in batches ==> Size(b) <= 2 * LOG_READ_BYTES
    {
      var line := lines[i];
      ghost var groups := Groups(lines[..i], stampOf);
      GroupsNext(lines, i, stampOf);
      SizeAppend(ordinary, record);
      OneLine(line);
      var stamp := stampOf(line);
      if stamp.Some? {
        ghost var s := Scan(batches, ordinary, spool, record, emitted, timestamp, relevant, oversized);
        CloseGroup(s, groups, hit, stamp.value);
        ordinary, ordinarySize, spool := FinishRecord(record, recordSize, relevant, timestamp, ordinary, ordinarySize, spool);
        record, recordSize, emitted := [], 0, [];
        timestamp, relevant, oversized := stamp, false, false;
        groups := groups + [Group(stamp, [])];
        SizeAppend(ordinary, record);
      }
      AddLonger(Groups(lines[..i], stampOf), line, stampOf, groups);
      ghost var s := Scan(batches, ordinary, spool, record, emitted, timestamp, relevant, oversized);
      if timestamp.Some? && hit(line) { relevant := true; }
      if recordSize + |line| + 1 > LOG_READ_BYTES || |record| >= MAX_OWNER_RECORD_LINES {
        if relevant {
          OversizedOwner(s, groups, hit, line);
          UnsafeLater(lines, i + 1, stampOf, hit);
          return Raised, batches, spool;
        }
        SplitLine(s, groups, hit, line);
        FinishedOrdinary(s);
        ordinary, ordinarySize, spool := FinishRecord(record, recordSize, relevant, timestamp, ordinary, ordinarySize, spool);
        emitted := emitted + record;
        record, recordSize, oversized := [], 0, true;
        assert [] + [line] == [line];
      } else if !(relevant && oversized) {
        JoinLine(s, groups, hit, line);
      }
      if relevant && oversized {
        OversizedOwner(s, groups, hit, line);
        UnsafeLater(lines, i + 1, stampOf, hit);
        return Raised, batches, spool;
      }
      SizeSnoc(record, line);
      record, recordSize := record + [line], recordSize + |line| + 1;
      i := i + 1;
      if ordinarySize >= LOG_READ_BYTES {
        BatchOut(Scan(batches, ordinary, spool, record, emitted, timestamp, relevant, oversized), Groups(lines[..i], stampOf), hit);
        batches := batches + [ordinary];
        ordinary, ordinarySize := [], 0;
      }
    }
    assert lines[..i] == lines;
    SizeAppend(ordinary, record);
    ghost var s := Scan(batches, ordinary, spool, record, emitted, timestamp, relevant, oversized);
    CloseGroup(s, Groups(lines, stampOf), hit, 0);
    ordinary, ordinarySize, spool := FinishRecord(record, recordSize, relevant, timestamp, ordinary, ordinarySize, spool);
    batches := LastBatch(batches, ordinary);
    return Done, batches, spool;
  }

  method LastBatch(batches: seq<seq<string>>, ordinary: seq<string>) returns (all: seq<seq<string>>)
    ensures Concat(all) == Concat(batches) + ordinary
    ensures forall b :: b in all ==> b in batches || b == ordinary
  {
    if ordinary == [] {
      assert Concat(batches) + [] == Concat(batches);
      return batches;
    }
    ConcatSnoc(batches, ordinary);
    return batches + [ordinary];
  }

  /** `finish_record` */
  method FinishRecord(record: seq<string>, recordSize: nat, relevant: bool, timestamp: Option<nat>,
        ordinary: seq<string>, ordinarySize: nat, spool: seq<Record>)
    returns (o: seq<string>, n: nat, p: seq<Record>)
    requires recordSize == Size(record) && ordinarySize == Size(ordinary)
    ensures n == Size(o)
    ensures forall b, e, v :: var s := Scan(b, ordinary, spool, record, e, timestamp, relevant, v);
              Finished(s) == s.(ordinary := o, spool := p)
    ensures n <= ordinarySize + recordSize
  {
    o, n, p := ordinary, ordinarySize, spool;
    if record == [] { return; }
    if relevant && timestamp.Some? {
      p := spool + [Record(timestamp.value, record)];
    } else {
      SizeAppend(ordinary, record);
      o, n := ordinary + record, ordinarySize + recordSize;
    }
  }

  lemma NothingRead(lines: seq<string>, stampOf: string -> Option<nat>)
    ensures Groups(lines[..0], stampOf) == [Group(None, [])]
  {
  }

  lemma AddLonger(groups: seq<Group>, line: string, stampOf: string -> Option<nat>, next: seq<Group>)
    requires groups != []
    requires next == if stampOf(line).Some? then groups + [Group(stampOf(line), [])] else groups
    ensures Add(groups, line, stampOf) == Longer(next, line)
  {
    if stampOf(line).Some? {
      assert next[..|groups|] == groups;
      assert [] + [line] == [line];
    }
  }

  // ---------------------------------------------------------------- incidents

  function Second(): Record -> nat {
    (r: Record) => r.stamp
  }

  /** `ORDER BY stamp, seq` */
  function Ordered(spool: seq<Record>): seq<Record> {
    SortedBy(spool, Second())
  }

  lemma BodiesSnoc(s: seq<Record>, r: Record, stamp: nat)
    ensures Bodies(s + [r], stamp) == Bodies(s, stamp) + (if r.stamp == stamp then r.lines else [])
  {
    assert (s + [r])[..|s|] == s;
  }

  lemma {:induction false} InsertBodies(sorted: seq<Record>, r: Record, stamp: nat)
    requires Ascending(sorted, Second())
    ensures Bodies(InsertBy(sorted, r, Second()), stamp) == Bodies(sorted + [r], stamp)
    decreases |sorted|
  {
    if sorted != [] && sorted[|sorted| - 1].stamp > r.stamp {
      hide Bodies;
      var front, last := sorted[..|sorted| - 1], sorted[|sorted| - 1];
      assert sorted == front + [last];
      AscendingFront(sorted, Second());
      InsertBodies(front, r, stamp);
      BodiesSnoc(InsertBy(front, r, Second()), last, stamp);
      BodiesSnoc(front, r, stamp);
      BodiesSnoc(front, last, stamp);
      BodiesSnoc(sorted, r, stamp);
    }
  }

  /** Sorting keeps every second's records together, and in their order. */
  lemma {:induction false} OrderedKeeps(spool: seq<Record>, stamp: nat)
    ensures Bodies(Ordered(spool), stamp) == Bodies(spool, stamp)
    ensures Ascending(Ordered(spool), Second()) && forall x :: x in Ordered(spool) <==> x in spool
    decreases |spool|
  {
    SortedKeeps(spool, Second());
    SortedMembers(spool, Second());
    if spool != [] {
      var front, last := spool[..|spool| - 1], spool[|spool| - 1];
      assert spool == front + [last];
      OrderedKeeps(front, stamp);
      InsertBodies(Ordered(front), last, stamp);
      BodiesSnoc(Ordered(front), last, stamp);
      BodiesSnoc(front, last, stamp);
    }
  }

  predicate Overfull(spool: seq<Record>, stamp: nat) {
    Size(Bodies(spool, stamp)) > MAX_OWNER_INCIDENT_BYTES
  }

  lemma {:induction false} BodiesGrow(s: seq<Record>, i: nat, stamp: nat)
    requires i <= |s|
    ensures Size(Bodies(s[..i], stamp)) <= Size(Bodies(s, stamp))
    decreases |s| - i
  {
    if i == |s| {
      assert s[..i] == s;
    } else {
      assert s[..i + 1] == s[..i] + [s[i]];
      BodiesSnoc(s[..i], s[i], stamp);
      SizeAppend(Bodies(s[..i], stamp), if s[i].stamp == stamp then s[i].lines else []);
      BodiesGrow(s, i + 1, stamp);
    }
  }

  /** The incidents finished so far, and the one still open. */
  ghost predicate Grouped(read: seq<Record>, incidents: seq<seq<string>>, stamps: seq<nat>, open: Option<nat>, incident: seq<string>) {
    && |incidents| == |stamps| && Rising(stamps)
    && (forall k :: 0 <= k < |stamps| ==> incidents[k] == Bodies(read, stamps[k]))
    && (forall x :: x in read ==> x.stamp in stamps || open == Some(x.stamp))
    && (forall t :: t in stamps ==> open.Some? && t < open.value && exists x :: x in read && x.stamp == t)
    && (open.Some? ==> incident == Bodies(read, open.value) && exists x :: x in read && x.stamp == open.value)
    && (open.None? ==> read == [] && incident == [] && stamps == [])
  }

  lemma RowRead(read: seq<Record>, row: Record)
    ensures forall t :: Bodies(read + [row], t) == Bodies(read, t) + (if row.stamp == t then row.lines else [])
    ensures forall x :: x in read + [row] <==> x in read || x == row
  {
    forall t ensures Bodies(read + [row], t) == Bodies(read, t) + (if row.stamp == t then row.lines else []) {
      BodiesSnoc(read, row, t);
    }
  }

  /** The next row joins the open second. */
  lemma JoinRow(read: seq<Record>, row: Record, incidents: seq<seq<string>>, stamps: seq<nat>, incident: seq<string>)
    requires Grouped(read, incidents, stamps, Some(row.stamp), incident)
    ensures Grouped(read + [row], incidents, stamps, Some(row.stamp), incident + row.lines)
  {
    hide Bodies;
    RowRead(read, row);
    forall k | 0 <= k < |stamps| ensures incidents[k] == Bodies(read + [row], stamps[k]) {
      assert stamps[k] in stamps;
    }
  }

  /** The next row closes the open second and opens its own. */
  lemma OpenRow(read: seq<Record>, row: Record, incidents: seq<seq<string>>, stamps: seq<nat>, open: nat, incident: seq<string>)
    requires Grouped(read, incidents, stamps, Some(open), incident) && open < row.stamp
    requires forall x :: x in read ==> x.stamp < row.stamp
    ensures Grouped(read + [row], incidents + [incident], stamps + [open], Some(row.stamp), row.lines)
  {
    hide Bodies;
    RowRead(read, row);
    NoBodies(read, row.stamp);
    assert [] + row.lines == row.lines;
    var all := stamps + [open];
    assert forall t :: t in all <==> t in stamps || t == open;
    forall k | 0 <= k < |all| ensures (incidents + [incident])[k] == Bodies(read + [row], all[k]) {
      assert all[k] in all;
      if k < |stamps| { assert stamps[k] in stamps; }
    }
    forall i, j | 0 <= i < j < |all| ensures all[i] < all[j] { assert all[i] in stamps; }
  }

  lemma FirstRow(row: Record)
    ensures Grouped([row], [], [], Some(row.stamp), row.lines)
  {
    BodiesSnoc([], row, row.stamp);
    assert [] + [row] == [row] && [] + row.lines == row.lines;
  }

  lemma {:induction false} NoBodies(read: seq<Record>, stamp: nat)
    ensures (forall x :: x in read ==> x.stamp != stamp) ==> Bodies(read, stamp) == []
    decreases |read|
  {
    if read != [] && forall x :: x in read ==> x.stamp != stamp {
      assert forall x :: x in read[..|read| - 1] ==> x in read;
      NoBodies(read[..|read| - 1], stamp);
    }
  }

  lemma BelowRow(sorted: seq<Record>, i: nat, incidents: seq<seq<string>>, stamps: seq<nat>, open: nat, incident: seq<string>)
    requires i < |sorted| && Ascending(sorted, Second()) && Grouped(sorted[..i], incidents, stamps, Some(open), incident) && open != sorted[i].stamp
    ensures open < sorted[i].stamp && forall x :: x in sorted[..i] ==> x.stamp < sorted[i].stamp
  {
    var x :| x in sorted[..i] && x.stamp == open;
    var k :| 0 <= k < i && sorted[k] == x;
  }

  /** Nothing read so far exceeds the limit. */
  ghost predicate Fits(read: seq<Record>) {
    forall t :: !Overfull(read, t)
  }

  lemma FitsMore(read: seq<Record>, row: Record)
    requires Fits(read) && !Overfull(read + [row], row.stamp)
    ensures Fits(read + [row])
  {
    forall t ensures !Overfull(read + [row], t) {
      BodiesSnoc(read, row, t);
      assert !Overfull(read, t);
      assert t != row.stamp ==> Bodies(read, t) + [] == Bodies(read, t);
    }
  }

  lemma FitsOrdered(spool: seq<Record>)
    requires Fits(Ordered(spool))
    ensures forall t :: !Overfull(spool, t)
  {
    forall t ensures !Overfull(spool, t) {
      OrderedKeeps(spool, t);
      assert !Overfull(Ordered(spool), t);
    }
  }

  lemma OverfullOrdered(spool: seq<Record>, i: nat, t: nat)
    requires i <= |Ordered(spool)| && Overfull(Ordered(spool)[..i], t)
    ensures Overfull(spool, t)
  {
    BodiesGrow(Ordered(spool), i, t);
    OrderedKeeps(spool, t);
  }

  /** One incident per second, with every record of that second, in ascending order of seconds. */
  ghost predicate Incidental(spool: seq<Record>, incidents: seq<seq<string>>, stamps: seq<nat>) {
    && |incidents| == |stamps| && Rising(stamps)
    && (forall k :: 0 <= k < |stamps| ==> incidents[k] == Bodies(spool, stamps[k]))
    && (forall t :: t in stamps <==> exists x :: x in spool && x.stamp == t)
  }

  lemma AllGrouped(spool: seq<Record>, incidents: seq<seq<string>>, stamps: seq<nat>, open: Option<nat>, incident: seq<string>)
    requires Grouped(Ordered(spool), incidents, stamps, open, incident)
    ensures open.Some? ==> Incidental(spool, incidents + [incident], stamps + [open.value])
    ensures open.None? ==> Incidental(spool, incidents, stamps)
  {
    hide Bodies, Ordered;
    forall t ensures Bodies(Ordered(spool), t) == Bodies(spool, t) { OrderedKeeps(spool, t); }
    OrderedKeeps(spool, 0);
    if open.Some? {
      var all := stamps + [open.value];
      assert forall t :: t in all <==> t in stamps || t == open.value;
      forall k | 0 <= k < |all| ensures (incidents + [incident])[k] == Bodies(spool, all[k]) {
        assert all[k] in all;
        if k < |stamps| { assert stamps[k] in stamps; }
      }
      forall i, j | 0 <= i < j < |all| ensures all[i] < all[j] { assert all[i] in stamps; }
    }
  }

  /** The second pass, over the spool. */
  method Incidents(spool: seq<Record>) returns (r: Status, incidents: seq<seq<string>>, ghost stamps: seq<nat>)
    ensures r.Raised? <==> exists t :: Overfull(spool, t)
    ensures r.Done? ==> Incidental(spool, incidents, stamps) && forall t :: !Overfull(spool, t)
  {
    hide Bodies, Ordered, Ascending, Grouped, Fits, Size, Incidental, Overfull;
    var sorted := Ordered(spool);
    incidents, stamps := [], [];
    var incident: seq<string>, incidentSize, previous: Option<nat> := [], 0, None;
    var i := 0;
    Unread(sorted);
    OrderedKeeps(spool, 0);
    while i < |sorted|
      invariant 0 <= i <= |sorted| && Fits(sorted[..i]) && incidentSize == Size(incident)
      invariant Grouped(sorted[..i], incidents, stamps, previous, incident)
    {
      var row := sorted[i];
      assert sorted[..i + 1] == sorted[..i] + [row];
      SizeAppend(incident, row.lines);
      SizeAppend([], row.lines);
      assert [] + row.lines == row.lines;
      if previous.None? {
        NothingGrouped(sorted[..i], incidents, stamps, incident);
        FirstRow(row);
        assert sorted[..i + 1] == [row] && incident + row.lines == row.lines;
      } else if previous.value != row.stamp {
        BelowRow(sorted, i, incidents, stamps, previous.value, incident);
        OpenRow(sorted[..i], row, incidents, stamps, previous.value, incident);
        stamps := stamps + [previous.value];
        incidents := incidents + [incident];
        incident, incidentSize := [], 0;
      } else {
        JoinRow(sorted[..i], row, incidents, stamps, incident);
      }
      previous := Some(row.stamp);
      incidentSize := incidentSize + Size(row.lines);
      OpenSize(sorted[..i + 1], incidents, stamps, row.stamp, incident + row.lines);
      if incidentSize > MAX_OWNER_INCIDENT_BYTES {
        OverfullOrdered(spool, i + 1, row.stamp);
        return Raised, incidents, stamps;
      }
      FitsMore(sorted[..i], row);
      incident := incident + row.lines;
      i := i + 1;
    }
    assert sorted[..i] == sorted;
    FitsOrdered(spool);
    AllGrouped(spool, incidents, stamps, previous, incident);
    if previous.Some? {
      incidents, stamps := incidents + [incident], stamps + [previous.value];
    }
    return Done, incidents, stamps;
  }

  lemma Unread(sorted: seq<Record>)
    ensures Fits(sorted[..0]) && Grouped(sorted[..0], [], [], None, []) && Size([]) == 0
  {
  }

  lemma NothingGrouped(read: seq<Record>, incidents: seq<seq<string>>, stamps: seq<nat>, incident: seq<string>)
    requires Grouped(read, incidents, stamps, None, incident)
    ensures read == [] && incident == [] && incidents == [] && stamps == []
  {
  }

  lemma OpenSize(read: seq<Record>, incidents: seq<seq<string>>, stamps: seq<nat>, open: nat, incident: seq<string>)
    requires Grouped(read, incidents, stamps, Some(open), incident)
    ensures Overfull(read, open) <==> Size(incident) > MAX_OWNER_INCIDENT_BYTES
  {
  }

  // ---------------------------------------------------------------- nothing lost, nothing repeated

  /** The owner lines of these seconds, second by second. */
  function All(spool: seq<Record>, stamps: seq<nat>): seq<string> {
    if stamps == [] then [] else All(spool, stamps[..|stamps| - 1]) + Bodies(spool, stamps[|stamps| - 1])
  }

  /** One record more comes up in exactly one second. */
  lemma {:induction false} AllSnoc(spool: seq<Record>, r: Record, stamps: seq<nat>)
    requires Rising(stamps)
    ensures multiset(All(spool + [r], stamps)) == multiset(All(spool, stamps)) + (if r.stamp in stamps then multiset(r.lines) else multiset{})
  {
    hide Bodies;
    if stamps != [] {
      var n := |stamps| - 1;
      var rest, last := stamps[..n], stamps[n];
      AllSnoc(spool, r, rest);
      BodiesSnoc(spool, r, last);
      var before, body := All(spool, rest), Bodies(spool, last);
      assert stamps == rest + [last] && last !in rest;
      if r.stamp == last {
        assert All(spool + [r], stamps) == All(spool + [r], rest) + (body + r.lines);
      } else {
        assert All(spool + [r], stamps) == All(spool + [r], rest) + body;
        assert r.stamp in stamps <==> r.stamp in rest;
      }
      assert multiset(All(spool, stamps)) == multiset(before) + multiset(body);
    }
  }

  lemma {:induction false} NothingOf(stamps: seq<nat>)
    ensures All([], stamps) == []
  {
    if stamps != [] { NothingOf(stamps[..|stamps| - 1]); }
  }

  lemma {:induction false} AllSpooled(spool: seq<Record>, stamps: seq<nat>)
    requires Rising(stamps) && forall x :: x in spool ==> x.stamp in stamps
    ensures multiset(All(spool, stamps)) == multiset(Spooled(spool))
  {
    if spool == [] {
      NothingOf(stamps);
    } else {
      var front, r := spool[..|spool| - 1], spool[|spool| - 1];
      assert spool == front + [r] && r in spool;
      AllSpooled(front, stamps);
      AllSnoc(front, r, stamps);
    }
  }

  lemma {:induction false} ConcatAll(spool: seq<Record>, incidents: seq<seq<string>>, stamps: seq<nat>)
    requires |incidents| == |stamps| && forall k :: 0 <= k < |stamps| ==> incidents[k] == Bodies(spool, stamps[k])
    ensures Concat(incidents) == All(spool, stamps)
  {
    if stamps != [] {
      ConcatAll(spool, incidents[..|stamps| - 1], stamps[..|stamps| - 1]);
    }
  }

  /** The incidents hold exactly the lines of the spool. */
  lemma IncidentsConserve(spool: seq<Record>, incidents: seq<seq<string>>, stamps: seq<nat>)
    requires Incidental(spool, incidents, stamps)
    ensures multiset(Concat(incidents)) == multiset(Spooled(spool))
  {
    ConcatAll(spool, incidents, stamps);
    AllSpooled(spool, stamps);
  }

  lemma {:induction false} ConcatAppend(a: seq<seq<string>>, b: seq<seq<string>>)
    ensures Concat(a + b) == Concat(a) + Concat(b)
    decreases |b|
  {
    if b == [] {
      assert a + b == a;
    } else {
      ConcatAppend(a, b[..|b| - 1]);
      assert a + b == (a + b[..|b| - 1]) + [b[|b| - 1]];
      ConcatSnoc(a + b[..|b| - 1], b[|b| - 1]);
    }
  }

  /** `_log_batches`: every line exactly once; ordinary lines in order and in bounded batches, and one batch
      for each second in which an owner transition may have been reported. */
  method Batches(lines: seq<string>, stampOf: string -> Option<nat>, hit: string -> bool)
    returns (r: Status, batches: seq<seq<string>>, ghost ordinary: seq<seq<string>>, ghost incidents: seq<seq<string>>, ghost stamps: seq<nat>)
    requires forall l :: l in lines ==> |l| <= LOG_READ_BYTES
    ensures CutAtStamps(lines, stampOf, Groups(lines, stampOf))
    ensures r.Done? ==> KeptWhole(Groups(lines, stampOf), hit, Concat(ordinary), incidents, stamps) && Rising(stamps)
    ensures r.Raised? <==>
              || Unsafe(Groups(lines, stampOf), hit)
              || exists t :: Overfull(Spool(Groups(lines, stampOf), hit), t)
    ensures r.Done? ==>
              && batches == ordinary + incidents
              && Concat(ordinary) == Ordinary(Groups(lines, stampOf), hit)
              && (forall b :: b in ordinary ==> Size(b) <= 2 * LOG_READ_BYTES)
              && Incidental(Spool(Groups(lines, stampOf), hit), incidents, stamps)
    ensures r.Done? ==> forall b :: b in batches ==> Size(b) <= MAX_OWNER_INCIDENT_BYTES
    ensures r.Done? ==> multiset(Concat(batches)) == multiset(lines)
  {
    hide Groups, Unsafe, Spool, Ordinary, Concat, Size, Overfull, Spooled, CutAtStamps, KeptWhole, Bodies, Rising;
    GroupsCut(lines, stampOf);
    Conserved(lines, stampOf, hit);
    batches, ordinary, incidents, stamps := [], [], [], [];
    var spool;
    r, batches, spool := Collect(lines, stampOf, hit);
    ordinary := batches;
    if r.Raised? { return; }
    var later;
    r, later, stamps := Incidents(spool);
    if r.Raised? { return; }
    incidents := later;
    IncidentSizes(spool, incidents, stamps);
    IncidentsConserve(spool, incidents, stamps);
    RecordsWhole(Groups(lines, stampOf), hit, incidents, stamps);
    ConcatAppend(ordinary, incidents);
    batches := batches + later;
  }

  lemma IncidentSizes(spool: seq<Record>, incidents: seq<seq<string>>, stamps: seq<nat>)
    requires Incidental(spool, incidents, stamps) && forall t :: !Overfull(spool, t)
    ensures forall b :: b in incidents ==> Size(b) <= MAX_OWNER_INCIDENT_BYTES
  {
    forall b | b in incidents ensures Size(b) <= MAX_OWNER_INCIDENT_BYTES {
      var k :| 0 <= k < |incidents| && incidents[k] == b;
      assert !Overfull(spool, stamps[k]);
    }
  }

  lemma StripShorter(s: string)
    ensures |Strip(s)| <= |s|
  {
  }

  /** What a stream delivers fits a batch. */
  lemma StreamFits(pieces: seq<string>)
    requires pieces != [] && Bounded(pieces)
    ensures forall l :: l in StripAll(Front(pieces)) ==> |l| <= LOG_READ_BYTES
  {
    forall l | l in StripAll(Front(pieces)) ensures |l| <= LOG_READ_BYTES {
      var i :| 0 <= i < |Front(pieces)| && l == Strip(Front(pieces)[i]);
      StripShorter(pieces[i]);
      assert pieces[i] in pieces;
    }
  }

  /** The stream read to its end and batched: whatever the chunks, the batches hold exactly the lines of the bytes.
      It raises exactly for an oversized or unfinished line, an oversized owner record, or an overfull second. */
  method BatchStream(chunks: seq<string>, stampOf: string -> Option<nat>, hit: string -> bool)
    returns (r: Status, batches: seq<seq<string>>, ghost pieces: seq<string>, ghost complete: seq<string>,
             ghost groups: seq<Group>, ghost ordinary: seq<seq<string>>, ghost incidents: seq<seq<string>>, ghost stamps: seq<nat>)
    ensures Cut(Whole(chunks), pieces) && forall other :: Cut(Whole(chunks), other) ==> other == pieces
    ensures |complete| == |pieces| - 1 && forall i :: 0 <= i < |complete| ==> Trimmed(pieces[i], complete[i])
    ensures CutAtStamps(complete, stampOf, groups)
    ensures r.Done? <==>
              && (forall p :: p in pieces ==> |p| <= LOG_READ_BYTES) && pieces[|pieces| - 1] == ""
              && !Unsafe(groups, hit) && forall t :: !Overfull(Spool(groups, hit), t)
    ensures r.Done? ==> batches == ordinary + incidents && multiset(Concat(batches)) == multiset(complete)
    ensures r.Done? ==> KeptWhole(groups, hit, Concat(ordinary), incidents, stamps) && Rising(stamps)
    ensures r.Done? ==> forall b :: b in batches ==> Size(b) <= MAX_OWNER_INCIDENT_BYTES
  {
    hide Split, Whole, Strip, Cut, Trimmed, CutAtStamps, Groups, Unsafe, Spool, Ordinary, Concat, Size, Incidental, Overfull, KeptWhole, Rising;
    batches, ordinary, incidents, stamps := [], [], [], [];
    var lines;
    r, lines, pieces := StreamLines(chunks);
    complete := StripAll(Front(pieces));
    groups := Groups(complete, stampOf);
    GroupsCut(complete, stampOf);
    Trims(Front(pieces), complete);
    if r.Raised? { return; }
    StreamFits(pieces);
    r, batches, ordinary, incidents, stamps := Batches(lines, stampOf, hit);
  }
}
