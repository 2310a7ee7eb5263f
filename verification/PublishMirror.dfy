/** The hourly evidence mirror: the incremental publisher against a rebuild from the log table. */
module PublishMirror {
  import opened Wrappers

  /** Instants are whole microseconds; an hour is named by its number since the epoch. */
  const HOUR: int := 3_600_000_000
  const RETENTION: int := 2_592_000_000_000

  datatype Row = Row(id: nat, at: int, record: string)

  /** An hour directory: complete, or left by an interrupted export. */
  datatype Shard = Whole(rows: set<Row>) | Broken

  /** `last-published.json` */
  datatype State = State(at: int, last: nat, store: nat)

  function HourOf(t: int): (h: int)
    ensures h * HOUR <= t < (h + 1) * HOUR
  {
    t / 3_600_000_000
  }

  function Max(a: int, b: int): int {
    if a < b then b else a
  }

  /** What `export_hour` selects: the rows of hour `h` that are not older than the cutoff. */
  function HourRows(table: set<Row>, h: int, cutoff: int): set<Row> {
    set r | r in table && Max(h * HOUR, cutoff) <= r.at < (h + 1) * HOUR
  }

  /** Hour `h` of the mirror holds exactly these rows; an hour without rows has no directory. */
  predicate Mirrored(mirror: map<int, Shard>, h: int, rows: set<Row>) {
    if rows == {} then h !in mirror else h in mirror && mirror[h] == Whole(rows)
  }

  /** Nothing was inserted into hour `h` after row `last`. */
  ghost predicate Unchanged(table: set<Row>, h: int, last: nat) {
    forall r :: r in table && HourOf(r.at) == h ==> r.id <= last
  }

  /** `insertion_hours` */
  function InsertionHours(table: set<Row>, after: nat, cutoff: int, generated: int): set<int> {
    set r | r in table && r.id > after && cutoff <= r.at <= generated :: HourOf(r.at)
  }

  /** `MIN(at)` from the cutoff on. */
  ghost predicate IsOldest(table: set<Row>, cutoff: int, oldest: Option<int>) {
    match oldest
    case None => forall r :: r in table ==> r.at < cutoff
    case Some(t) => (exists r :: r in table && r.at == t) && cutoff <= t && forall r :: r in table ==> r.at < cutoff || t <= r.at
  }

  function RetainedHours(table: set<Row>, generated: int): set<int> {
    set r | r in table && generated - RETENTION <= r.at && HourOf(r.at) <= HourOf(generated) :: HourOf(r.at)
  }

  /** The mirror a rebuild at `generated` writes. */
  function Rebuild(table: set<Row>, generated: int): map<int, Shard> {
    map h | h in RetainedHours(table, generated) :: Whole(HourRows(table, h, generated - RETENTION))
  }

  /** A rebuild mirrors every retained hour, and nothing else. */
  lemma RebuildMirrors(table: set<Row>, generated: int, h: int)
    requires HourOf(generated - RETENTION) <= h <= HourOf(generated)
    ensures Mirrored(Rebuild(table, generated), h, HourRows(table, h, generated - RETENTION))
  {
    var rows := HourRows(table, h, generated - RETENTION);
    if h in RetainedHours(table, generated) {
      var r :| r in table && generated - RETENTION <= r.at && HourOf(r.at) == h;
      assert r in rows;
    }
    if r :| r in rows {
      assert r in table && HourOf(r.at) == h;
      assert h in RetainedHours(table, generated);
    }
  }

  lemma NotRetained(table: set<Row>, generated: int, h: int)
    requires !(HourOf(generated - RETENTION) <= h <= HourOf(generated))
    ensures h !in RetainedHours(table, generated)
  {
  }

  /** A mirror that agrees hour by hour is the rebuild. */
  lemma IsRebuild(table: set<Row>, generated: int, mirror: map<int, Shard>)
    requires forall h :: h in mirror ==> HourOf(generated - RETENTION) <= h <= HourOf(generated)
    requires forall h {:trigger h in mirror} :: HourOf(generated - RETENTION) <= h <= HourOf(generated) ==>
               Mirrored(mirror, h, HourRows(table, h, generated - RETENTION))
    ensures mirror == Rebuild(table, generated)
  {
    var rebuilt := Rebuild(table, generated);
    forall h ensures (h in mirror <==> h in rebuilt) && (h in mirror ==> mirror[h] == rebuilt[h]) {
      if HourOf(generated - RETENTION) <= h <= HourOf(generated) {
        RebuildMirrors(table, generated, h);
        assert h in mirror || h !in mirror;
      } else {
        NotRetained(table, generated, h);
      }
    }
  }

  /** `evidence-index.json`: the record count of every hour. */
  function Index(mirror: map<int, Shard>): map<int, nat> {
    map h | h in mirror :: if mirror[h].Whole? then |mirror[h].rows| else 0
  }

  /** The index names exactly the hours of the mirror, each with the number of its rows. */
  ghost predicate Indexed(mirror: map<int, Shard>, index: map<int, nat>) {
    && (forall h :: h in index <==> h in mirror)
    && (forall h :: h in mirror && mirror[h].Whole? ==> index[h] == |mirror[h].rows|)
  }

  /** The mirror holds this row of hour `h`. */
  predicate Kept(mirror: map<int, Shard>, h: int, r: Row) {
    h in mirror && mirror[h].Whole? && r in mirror[h].rows
  }

  /** Of hour `h` and up to row `last`, exactly the rows in `missed` are missing; later ones may be. */
  ghost predicate UpTo(mirror: map<int, Shard>, h: int, all: set<Row>, last: nat, missed: set<Row>) {
    && (h in mirror ==> mirror[h].Whole? && mirror[h].rows != {} && mirror[h].rows <= all)
    && (forall r :: r in all && r.id <= last ==> (Kept(mirror, h, r) <==> r !in missed))
  }

  /** Hours that closed more than an hour before the last publication and have not been inserted into since
      lack exactly what it missed. */
  ghost predicate Trusted(table: set<Row>, mirror: map<int, Shard>, s: State, missed: set<Row>, now: int) {
    forall h :: HourOf(now - RETENTION) < h < HourOf(s.at - HOUR) && Unchanged(table, h, s.last) ==>
      UpTo(mirror, h, HourRows(table, h, h * HOUR), s.last, missed)
  }

  /** A row that a publication up to row `last` is to mirror. */
  predicate Wanted(table: set<Row>, r: Row, last: nat, cutoff: int, now: int) {
    r in table && r.id <= last && cutoff <= r.at && HourOf(r.at) <= HourOf(now)
  }

  /** Rows that arrived between the two reads of a rebuild, into hours the run does not export. */
  function Overlooked(table: set<Row>, seen: set<Row>, hours: set<int>, last: nat, cutoff: int, now: int): set<Row> {
    set r | r in table && r !in seen && Wanted(table, r, last, cutoff, now) && HourOf(r.at) !in hours
  }

  /** Rows missed before that are still to be mirrored, and whose hours are not exported. */
  function Carried(missed: set<Row>, table: set<Row>, hours: set<int>, last: nat, cutoff: int, now: int): set<Row> {
    set r | r in missed && Wanted(table, r, last, cutoff, now) && HourOf(r.at) !in hours
  }

  /** Retained rows that the mirror does not hold. */
  function Lacking(table: set<Row>, mirror: map<int, Shard>, cutoff: int, now: int): set<Row> {
    set r | r in table && cutoff <= r.at && HourOf(r.at) <= HourOf(now) && !Kept(mirror, HourOf(r.at), r)
  }

  /** Every hour of the mirror is a retained one, whole, and holds rows of the table. */
  ghost predicate Clean(table: set<Row>, mirror: map<int, Shard>, cutoff: int, now: int) {
    forall h :: h in mirror ==>
      && HourOf(cutoff) <= h <= HourOf(now) && mirror[h].Whole? && mirror[h].rows != {}
      && mirror[h].rows <= HourRows(table, h, cutoff)
  }

  /** What a finished publication leaves: of the rows up to the saved one exactly those in `missed` are missing. */
  ghost predicate Published(table: set<Row>, mirror: map<int, Shard>, now: int, last: nat, missed: set<Row>) {
    && Clean(table, mirror, now - RETENTION, now)
    && missed == set r | r in Lacking(table, mirror, now - RETENTION, now) && r.id <= last
  }

  /** The same row by row: every hour directory is whole, not empty, and holds retained rows of its hour only; and of the
      rows up to the saved one a retained row stands in the directory of its hour or is among the missed ones. */
  ghost predicate Exact(table: set<Row>, mirror: map<int, Shard>, now: int, last: nat, missed: set<Row>) {
    && (forall h :: h in mirror ==> mirror[h].Whole? && mirror[h].rows != {})
    && (forall h, r :: h in mirror && r in mirror[h].rows ==>
          r in table && h * 3_600_000_000 <= r.at < (h + 1) * 3_600_000_000 && now - RETENTION <= r.at)
    && (forall h, r :: r in table && now - RETENTION <= r.at && h * 3_600_000_000 <= r.at < (h + 1) * 3_600_000_000 && h <= HourOf(now) && r.id <= last ==>
          (r in missed <==> !(h in mirror && r in mirror[h].rows)))
  }

  lemma RowPublished(table: set<Row>, mirror: map<int, Shard>, now: int, last: nat, missed: set<Row>, r: Row)
    requires Published(table, mirror, now, last, missed)
    requires r in table && now - RETENTION <= r.at && HourOf(r.at) <= HourOf(now) && r.id <= last
    ensures r in missed <==> !(HourOf(r.at) in mirror && mirror[HourOf(r.at)].Whole? && r in mirror[HourOf(r.at)].rows)
  {
    hide Clean, HourOf;
  }

  lemma PublishedExact(table: set<Row>, mirror: map<int, Shard>, now: int, last: nat, missed: set<Row>)
    requires Published(table, mirror, now, last, missed)
    ensures Exact(table, mirror, now, last, missed) && forall h :: h in mirror ==> mirror[h].Whole?
  {
    hide Lacking, Kept;
    forall h, r | r in table && now - RETENTION <= r.at && h * 3_600_000_000 <= r.at < (h + 1) * 3_600_000_000 && h <= HourOf(now) && r.id <= last
      ensures r in missed <==> !(h in mirror && r in mirror[h].rows)
    {
      assert h == HourOf(r.at);
      RowPublished(table, mirror, now, last, missed, r);
    }
  }

  /** A clean mirror is the rebuild exactly when it lacks nothing. */
  lemma LackingIff(table: set<Row>, mirror: map<int, Shard>, now: int)
    requires Clean(table, mirror, now - RETENTION, now)
    ensures mirror == Rebuild(table, now) <==> Lacking(table, mirror, now - RETENTION, now) == {}
  {
    var cutoff, rebuilt := now - RETENTION, Rebuild(table, now);
    if Lacking(table, mirror, cutoff, now) == {} {
      forall h | HourOf(cutoff) <= h <= HourOf(now) ensures Mirrored(mirror, h, HourRows(table, h, cutoff)) {
        forall r | r in HourRows(table, h, cutoff) ensures Kept(mirror, h, r) {
          assert HourOf(r.at) == h && r !in Lacking(table, mirror, cutoff, now);
        }
        if h in mirror { assert mirror[h].rows == HourRows(table, h, cutoff); }
      }
      IsRebuild(table, now, mirror);
    } else {
      var r :| r in Lacking(table, mirror, cutoff, now);
      RebuildMirrors(table, now, HourOf(r.at));
      assert r in HourRows(table, HourOf(r.at), cutoff);
    }
  }

  /** Inserting a row after `last` changes nothing of what an hour holds up to `last`. */
  lemma InsertUpTo(mirror: map<int, Shard>, table: set<Row>, next: set<Row>, h: int, cutoff: int, last: nat, missed: set<Row>)
    requires UpTo(mirror, h, HourRows(table, h, cutoff), last, missed)
    requires table <= next && forall r :: r in next - table ==> r.id > last
    ensures UpTo(mirror, h, HourRows(next, h, cutoff), last, missed)
  {
    assert HourRows(table, h, cutoff) <= HourRows(next, h, cutoff);
    forall r | r in HourRows(next, h, cutoff) && r.id <= last ensures Kept(mirror, h, r) <==> r !in missed {
      assert r in table && r in HourRows(table, h, cutoff);
    }
  }

  /** Every retained hour, except the chosen ones from `next` on, lacks exactly the missed rows up to `last`. */
  ghost predicate Covered(table: set<Row>, mirror: map<int, Shard>, cutoff: int, now: int, hours: set<int>, next: int,
                          last: nat, missed: set<Row>)
  {
    forall h {:trigger UpTo(mirror, h, HourRows(table, h, cutoff), last, missed)} ::
      HourOf(cutoff) <= h <= HourOf(now) && (h in hours ==> h < next) ==>
        UpTo(mirror, h, HourRows(table, h, cutoff), last, missed)
  }

  /** The same of every retained hour. */
  ghost predicate Complete(table: set<Row>, mirror: map<int, Shard>, cutoff: int, now: int, last: nat, missed: set<Row>) {
    forall h :: HourOf(cutoff) <= h <= HourOf(now) ==> UpTo(mirror, h, HourRows(table, h, cutoff), last, missed)
  }

  lemma CoveredComplete(table: set<Row>, mirror: map<int, Shard>, cutoff: int, now: int, hours: set<int>, next: int,
                        last: nat, missed: set<Row>)
    requires Covered(table, mirror, cutoff, now, hours, next, last, missed) && HourOf(now) < next
    ensures Complete(table, mirror, cutoff, now, last, missed)
  {
    forall h | HourOf(cutoff) <= h <= HourOf(now) ensures UpTo(mirror, h, HourRows(table, h, cutoff), last, missed) {
      assert h in hours ==> h < next;
    }
  }

  /** Removing older hours leaves the retained ones as they are. */
  lemma PruneComplete(table: set<Row>, mirror: map<int, Shard>, after: map<int, Shard>, cutoff: int, now: int,
                      last: nat, missed: set<Row>)
    requires Complete(table, mirror, cutoff, now, last, missed)
    requires forall h {:trigger h in after} :: HourOf(cutoff) <= h ==>
               (h in after <==> h in mirror) && (h in after ==> after[h] == mirror[h])
    ensures Complete(table, after, cutoff, now, last, missed)
  {
    forall h | HourOf(cutoff) <= h <= HourOf(now) ensures UpTo(after, h, HourRows(table, h, cutoff), last, missed) {
      assert UpTo(mirror, h, HourRows(table, h, cutoff), last, missed);
      assert h in after <==> h in mirror;
    }
  }

  lemma InsertCovered(table: set<Row>, more: set<Row>, mirror: map<int, Shard>, cutoff: int, now: int, hours: set<int>,
                      next: int, last: nat, missed: set<Row>)
    requires Covered(table, mirror, cutoff, now, hours, next, last, missed)
    requires table <= more && forall r :: r in more - table ==> r.id > last
    ensures Covered(more, mirror, cutoff, now, hours, next, last, missed)
  {
    forall h | HourOf(cutoff) <= h <= HourOf(now) && (h in hours ==> h < next)
      ensures UpTo(mirror, h, HourRows(more, h, cutoff), last, missed)
    {
      InsertUpTo(mirror, table, more, h, cutoff, last, missed);
    }
  }

  ghost predicate NotIn(missed: set<Row>, hours: set<int>) {
    forall r :: r in missed ==> HourOf(r.at) !in hours
  }

  lemma ExportCovered(table: set<Row>, mirror: map<int, Shard>, after: map<int, Shard>, cutoff: int, now: int,
                      hours: set<int>, next: int, last: nat, missed: set<Row>)
    requires Covered(table, mirror, cutoff, now, hours, next, last, missed) && NotIn(missed, hours)
    requires forall x {:trigger x in after} :: x != next ==>
               (x in after <==> x in mirror) && (x in after ==> after[x] == mirror[x])
    requires next in hours ==> Mirrored(after, next, HourRows(table, next, cutoff))
    requires next !in hours ==> after == mirror
    ensures Covered(table, after, cutoff, now, hours, next + 1, last, missed)
  {
    forall h | HourOf(cutoff) <= h <= HourOf(now) && (h in hours ==> h < next + 1)
      ensures UpTo(after, h, HourRows(table, h, cutoff), last, missed)
    {
      if h != next || next !in hours {
        assert UpTo(mirror, h, HourRows(table, h, cutoff), last, missed);
        assert h in after <==> h in mirror;
      } else {
        assert forall r :: r in HourRows(table, h, cutoff) ==> HourOf(r.at) == h;
      }
    }
  }

  /** A complete mirror of retained hours lacks exactly the missed rows. */
  lemma CompletePublished(table: set<Row>, mirror: map<int, Shard>, now: int, last: nat, missed: set<Row>)
    requires Complete(table, mirror, now - RETENTION, now, last, missed)
    requires forall h :: h in mirror ==> HourOf(now - RETENTION) <= h <= HourOf(now)
    requires forall r :: r in missed ==> Wanted(table, r, last, now - RETENTION, now)
    ensures Published(table, mirror, now, last, missed)
  {
    var cutoff := now - RETENTION;
    forall h | h in mirror ensures mirror[h].Whole? && mirror[h].rows != {} && mirror[h].rows <= HourRows(table, h, cutoff) {
      assert UpTo(mirror, h, HourRows(table, h, cutoff), last, missed);
    }
    forall r ensures r in missed <==> r in Lacking(table, mirror, cutoff, now) && r.id <= last {
      if r in table && cutoff <= r.at && HourOf(r.at) <= HourOf(now) && r.id <= last {
        assert UpTo(mirror, HourOf(r.at), HourRows(table, HourOf(r.at), cutoff), last, missed);
        assert r in HourRows(table, HourOf(r.at), cutoff);
      }
    }
  }

  class Publisher {
    var table: set<Row>            // the collector's log table
    var sequence: nat              // `sqlite_sequence`: no later row reuses an id
    var store: nat                 // `store_id`
    var used: set<nat>             // every store identity so far: they are never reused
    var clock: int
    var mirror: map<int, Shard>
    var index: map<int, nat>
    var state: Option<State>
    var missed: set<Row>           // history: what the last saved run did not mirror of the rows up to the saved one

    ghost predicate Valid()
      reads this`table, this`sequence, this`store, this`used, this`clock, this`mirror, this`state, this`missed
    {
      && (forall r :: r in table ==> r.id <= sequence)
      && (forall h :: h in mirror ==> h <= HourOf(clock))
      && store in used && (state.Some? ==> state.value.store in used)
      && (state.Some? && state.value.store == store ==>
            state.value.last <= sequence && state.value.at <= clock && Trusted(table, mirror, state.value, missed, clock))
    }

    constructor (clock: int, store: nat)
      ensures Valid() && this.clock == clock && table == {} && sequence == 0 && mirror == map[] && state == None && missed == {}
    {
      this.clock, this.store, used := clock, store, {store};
      table, sequence, mirror, index, state, missed := {}, 0, map[], map[], None, {};
    }

    // -------------------------------------------------------------- the collector and the world

    method Tick(t: int)
      requires Valid() && clock <= t
      modifies this`clock
      ensures Valid() && clock == t
    {
      clock := t;
    }

    /** A record may be as late, or as far ahead, as its source says. */
    method Insert(at: int, record: string)
      requires Valid()
      modifies this`table, this`sequence
      ensures Valid() && sequence == old(sequence) + 1 && table == old(table) + {Row(sequence, at, record)}
    {
      sequence := sequence + 1;
      assert forall h :: h != HourOf(at) ==>
        HourRows(table + {Row(sequence, at, record)}, h, h * HOUR) == HourRows(table, h, h * HOUR);
      assert Row(sequence, at, record) in table + {Row(sequence, at, record)};
      table := table + {Row(sequence, at, record)};
    }

    /** `prune_history` by a collector whose clock read `end`. */
    method PruneHistory(end: int)
      requires Valid() && end <= clock
      modifies this`table
      ensures Valid() && table == set r | r in old(table) && end - RETENTION <= r.at
    {
      table := set r | r in table && end - RETENTION <= r.at;
      assert forall h :: HourOf(clock - RETENTION) < h ==> HourRows(table, h, h * HOUR) == HourRows(old(table), h, h * HOUR);
    }

    /** A new database has a new identity; its ids start afresh. */
    method NewStore(identity: nat)
      requires Valid() && identity !in used
      modifies this`table, this`sequence, this`store, this`used
      ensures Valid() && store == identity
    {
      table, sequence, store, used := {}, 0, identity, used + {identity};
    }

    method LoseState()
      requires Valid()
      modifies this`state
      ensures Valid()
    {
      state := None;
    }

    // -------------------------------------------------------------- the publisher

    /** The collector may insert while a run is under way; it does not prune below the run's cutoff meanwhile. */
    method Interleave()
      requires Valid()
      modifies this`table, this`sequence
      ensures Valid() && old(sequence) <= sequence && old(table) <= table
      ensures forall r :: r in table - old(table) ==> r.id > old(sequence)
      ensures sequence == old(sequence) ==> table == old(table)
    {
      var arrivals: seq<(int, string)> := *;
      for i := 0 to |arrivals|
        invariant Valid() && old(sequence) <= sequence && old(table) <= table
        invariant forall r :: r in table - old(table) ==> r.id > old(sequence)
        invariant sequence == old(sequence) ==> table == old(table)
      {
        Insert(arrivals[i].0, arrivals[i].1);
      }
    }

    /** Rewriting or losing hour `h` breaks no promise. */
    ghost predicate Exposed(rows: set<Row>, h: int)
      reads this`state, this`store, this`clock
    {
      && h <= HourOf(clock)
      && (state.Some? && state.value.store == store ==>
            || h <= HourOf(clock - RETENTION) || HourOf(state.value.at - HOUR) <= h || !Unchanged(rows, h, state.value.last))
    }

    lemma ExposedMore(rows: set<Row>, next: set<Row>, h: int)
      requires Exposed(rows, h) && rows <= next
      ensures Exposed(next, h)
    {
    }

    /** `export_hour` */
    method ExportHour(h: int, cutoff: int) returns (r: Status)
      requires Valid() && Exposed(table, h)
      modifies this`mirror
      ensures Valid()
      ensures forall x {:trigger x in mirror} :: x != h ==> (x in mirror <==> x in old(mirror)) && (x in mirror ==> mirror[x] == old(mirror)[x])
      ensures r.Done? ==> Mirrored(mirror, h, HourRows(table, h, cutoff))
    {
      if * { return Raised; }
      mirror := mirror[h := Broken];
      if * { return Raised; }
      var rows := HourRows(table, h, cutoff);
      mirror := if rows == {} then mirror - {h} else mirror[h := Whole(rows)];
      return Done;
    }

    /** The oldest retained stamp. */
    method Oldest(cutoff: int) returns (oldest: Option<int>)
      ensures IsOldest(table, cutoff, oldest)
    {
      oldest := None;
      var todo := table;
      while todo != {}
        invariant todo <= table && IsOldest(table - todo, cutoff, oldest)
        decreases todo
      {
        var r :| r in todo;
        if cutoff <= r.at && (oldest.None? || r.at < oldest.value) { oldest := Some(r.at); }
        assert r in table - (todo - {r});
        todo := todo - {r};
      }
    }

    /** The boundary hour, and every hour from `earliest` to now. */
    method Window(earliest: int, cutoff: int) returns (hours: set<int>)
      ensures forall h :: h in hours <==> h == HourOf(cutoff) || HourOf(earliest) <= h <= HourOf(clock)
    {
      hours := {HourOf(cutoff)};
      var h := HourOf(earliest);
      while h <= HourOf(clock)
        invariant HourOf(earliest) <= h
        invariant forall x :: x in hours <==> x == HourOf(cutoff) || (HourOf(earliest) <= x < h && x <= HourOf(clock))
      {
        hours := hours + {h};
        h := h + 1;
      }
    }

    /** `rmtree` of the whole mirror; interrupted, it leaves some hours behind. */
    method RemoveEvidence() returns (r: Status)
      requires Valid() && (state.Some? ==> state.value.store != store)
      modifies this`mirror
      ensures Valid() && (r.Done? ==> mirror == map[])
    {
      var rest: map<int, Shard> := *;
      if * {
        if rest.Keys <= mirror.Keys { mirror := rest; }
        return Raised;
      }
      mirror := map[];
      return Done;
    }

    /** `prune_hours` */
    method PruneHours(threshold: int) returns (r: Status)
      requires Valid() && threshold <= HourOf(clock - RETENTION)
      modifies this`mirror
      ensures Valid()
      ensures forall h {:trigger h in mirror} :: threshold <= h ==> (h in mirror <==> h in old(mirror)) && (h in mirror ==> mirror[h] == old(mirror)[h])
      ensures r.Done? ==> forall h :: h in mirror ==> threshold <= h
    {
      var todo := set h | h in mirror && h < threshold;
      while todo != {}
        invariant Valid()
        invariant forall h {:trigger h in mirror} :: threshold <= h ==> (h in mirror <==> h in old(mirror)) && (h in mirror ==> mirror[h] == old(mirror)[h])
        invariant forall h :: h in mirror && h < threshold ==> h in todo
        invariant forall h :: h in todo ==> h < threshold
        decreases todo
      {
        if * { return Raised; }
        var h :| h in todo;
        mirror := mirror - {h};
        todo := todo - {h};
      }
      return Done;
    }

    /** A rebuild starts from an empty mirror and covers every hour from the oldest stamp on. */
    lemma RebuildCovers(oldest: Option<int>, seen: set<Row>, hours: set<int>, last: nat)
      requires Valid() && mirror == map[] && IsOldest(seen, clock - RETENTION, oldest) && seen <= table
      requires forall h :: h in hours <==>
                 || h == HourOf(clock - RETENTION)
                 || HourOf(if oldest.Some? then Max(clock - RETENTION, oldest.value) else clock) <= h <= HourOf(clock)
      ensures Covered(table, mirror, clock - RETENTION, clock, hours, HourOf(clock - RETENTION), last,
                      Overlooked(table, seen, hours, last, clock - RETENTION, clock))
      ensures (state.Some? ==> state.value.store != store) ==>
                forall h :: h in hours ==> Exposed(table, h) && HourOf(clock - RETENTION) <= h
    {
      var cutoff := clock - RETENTION;
      var missed := Overlooked(table, seen, hours, last, cutoff, clock);
      forall h | HourOf(cutoff) <= h <= HourOf(clock) && (h in hours ==> h < HourOf(cutoff))
        ensures UpTo(mirror, h, HourRows(table, h, cutoff), last, missed)
      {
        forall r | r in HourRows(table, h, cutoff) && r.id <= last ensures r in missed {
          assert r in seen ==> r.at >= cutoff;
          assert HourOf(r.at) == h && r !in seen;
        }
      }
    }

    /** An incremental run rewrites every hour its predecessor's promise does not reach. */
    lemma IncrementCovers(hours: set<int>, last: nat)
      requires Valid() && state.Some? && state.value.store == store && state.value.last <= last
      requires forall h :: h in hours <==>
                 || h == HourOf(clock - RETENTION)
                 || HourOf(Max(clock - RETENTION, state.value.at - HOUR)) <= h <= HourOf(clock)
                 || h in InsertionHours(table, state.value.last, clock - RETENTION, clock)
      ensures Covered(table, mirror, clock - RETENTION, clock, hours, HourOf(clock - RETENTION), last,
                      Carried(missed, table, hours, last, clock - RETENTION, clock))
      ensures forall h :: h in hours ==> Exposed(table, h) && HourOf(clock - RETENTION) <= h
    {
      var s, cutoff := state.value, clock - RETENTION;
      var still := Carried(missed, table, hours, last, cutoff, clock);
      forall h | HourOf(cutoff) <= h <= HourOf(clock) && (h in hours ==> h < HourOf(cutoff))
        ensures UpTo(mirror, h, HourRows(table, h, cutoff), last, still)
      {
        assert HourOf(cutoff) < h < HourOf(s.at - HOUR);
        forall r | r in table && HourOf(r.at) == h ensures r.id <= s.last {
          assert cutoff <= r.at <= clock;
        }
        assert Unchanged(table, h, s.last);
        assert HourRows(table, h, cutoff) == HourRows(table, h, h * HOUR);
        assert UpTo(mirror, h, HourRows(table, h, h * HOUR), s.last, missed);
        forall r | r in HourRows(table, h, cutoff) ensures r in still <==> r in missed {
          assert HourOf(r.at) == h && r.id <= s.last;
        }
      }
      forall h | h in hours ensures Exposed(table, h) && HourOf(cutoff) <= h {
        if h in InsertionHours(table, s.last, cutoff, clock) {
          var r :| r in table && r.id > s.last && cutoff <= r.at <= clock && HourOf(r.at) == h;
        }
      }
    }

    /** A finished run keeps the promise its state makes. */
    lemma NowTrusted(last: nat, missing: set<Row>)
      requires Complete(table, mirror, clock - RETENTION, clock, last, missing)
      ensures Trusted(table, mirror, State(clock, last, store), missing, clock)
    {
      forall h | HourOf(clock - RETENTION) < h < HourOf(clock - HOUR)
        ensures UpTo(mirror, h, HourRows(table, h, h * HOUR), last, missing)
      {
        assert UpTo(mirror, h, HourRows(table, h, clock - RETENTION), last, missing);
        assert HourRows(table, h, clock - RETENTION) == HourRows(table, h, h * HOUR);
      }
    }

    /** Rewrites the chosen hours, in order, while the collector goes on inserting. */
    method ExportHours(hours: set<int>, ghost last: nat, missing: set<Row>) returns (r: Status)
      requires Valid() && last <= sequence && NotIn(missing, hours)
      requires Covered(table, mirror, clock - RETENTION, clock, hours, HourOf(clock - RETENTION), last, missing)
      requires forall h :: h in hours ==> Exposed(table, h) && HourOf(clock - RETENTION) <= h
      modifies this`table, this`sequence, this`mirror
      ensures Valid() && old(sequence) <= sequence && (sequence == old(sequence) ==> table == old(table))
      ensures old(table) <= table && forall x :: x in table - old(table) ==> x.id > old(sequence)
      ensures r.Done? ==> Complete(table, mirror, clock - RETENTION, clock, last, missing)
    {
      hide Valid, Covered, Complete, Exposed, Mirrored, HourRows, NotIn;
      var h := HourOf(clock - RETENTION);
      while h <= HourOf(clock)
        invariant Valid() && old(sequence) <= sequence && (sequence == old(sequence) ==> table == old(table))
        invariant HourOf(clock - RETENTION) <= h
        invariant Covered(table, mirror, clock - RETENTION, clock, hours, h, last, missing)
        invariant forall x :: x in hours ==> Exposed(table, x)
        invariant old(table) <= table && forall x :: x in table - old(table) ==> x.id > old(sequence)
      {
        if h in hours {
          ghost var rows := table;
          Interleave();
          forall x | x in hours ensures Exposed(table, x) { ExposedMore(rows, table, x); }
          InsertCovered(rows, table, mirror, clock - RETENTION, clock, hours, h, last, missing);
          ghost var before := mirror;
          r := ExportHour(h, clock - RETENTION);
          if r.Raised? { return; }
          ExportCovered(table, before, mirror, clock - RETENTION, clock, hours, h, last, missing);
        } else {
          ExportCovered(table, mirror, mirror, clock - RETENTION, clock, hours, h, last, missing);
        }
        h := h + 1;
      }
      CoveredComplete(table, mirror, clock - RETENTION, clock, hours, h, last, missing);
      return Done;
    }

    /** The state vouches for the mirror; otherwise everything is rebuilt. */
    predicate Incremental()
      reads this`state, this`store
    {
      state.Some? && state.value.store == store
    }

    /** The hours of a rebuild, and what it overlooks. */
    method PlanRebuild(seen: set<Row>, oldest: Option<int>, last: nat)
      returns (r: Status, hours: set<int>, missing: set<Row>)
      requires Valid() && !Incremental() && IsOldest(seen, clock - RETENTION, oldest) && last <= sequence && seen <= table
      modifies this`mirror
      ensures Valid()
      ensures r.Done? ==> forall h :: h in hours <==>
                || h == HourOf(clock - RETENTION)
                || HourOf(if oldest.Some? then Max(clock - RETENTION, oldest.value) else clock) <= h <= HourOf(clock)
      ensures missing == Overlooked(table, seen, hours, last, clock - RETENTION, clock)
      ensures r.Done? ==> Covered(table, mirror, clock - RETENTION, clock, hours, HourOf(clock - RETENTION), last, missing)
      ensures r.Done? ==> forall h :: h in hours ==> Exposed(table, h) && HourOf(clock - RETENTION) <= h
    {
      hide Covered, Complete, Trusted, Unchanged, IsOldest, Overlooked;
      hours := {};
      r := RemoveEvidence();
      if r.Done? {
        var cutoff := clock - RETENTION;
        hours := Window(if oldest.Some? then Max(cutoff, oldest.value) else clock, cutoff);
        RebuildCovers(oldest, seen, hours, last);
      }
      missing := Overlooked(table, seen, hours, last, clock - RETENTION, clock);
    }

    /** The hours of an incremental run, and what it leaves missing. */
    method PlanIncrement(last: nat) returns (hours: set<int>, missing: set<Row>)
      requires Valid() && Incremental() && state.value.last <= last
      ensures forall h :: h in hours <==>
                || h == HourOf(clock - RETENTION)
                || HourOf(Max(clock - RETENTION, state.value.at - HOUR)) <= h <= HourOf(clock)
                || h in InsertionHours(table, state.value.last, clock - RETENTION, clock)
      ensures missing == Carried(missed, table, hours, last, clock - RETENTION, clock)
      ensures Covered(table, mirror, clock - RETENTION, clock, hours, HourOf(clock - RETENTION), last, missing)
      ensures forall h :: h in hours ==> Exposed(table, h) && HourOf(clock - RETENTION) <= h
    {
      hide Covered, Complete, Trusted, Unchanged, Carried, InsertionHours;
      var cutoff := clock - RETENTION;
      hours := Window(Max(cutoff, state.value.at - HOUR), cutoff);
      hours := hours + InsertionHours(table, state.value.last, cutoff, clock);
      IncrementCovers(hours, last);
      missing := Carried(missed, table, hours, last, cutoff, clock);
    }

    /** `publish`. A run may be cut short anywhere. A finished one leaves every retained row up to the saved one, but for
        the rows in `missed`, and exactly the rebuild if no retained row is lacking. A rebuild may overlook rows that
        arrive between its two reads; an incremental run overlooks nothing, and what was missed before stays missed
        only while it is retained and its hour is not exported again. */
    method Publish() returns (r: Status, hours: set<int>)
      requires Valid()
      modifies this`table, this`sequence, this`mirror, this`index, this`state, this`missed
      ensures Valid() && old(sequence) <= sequence && (sequence == old(sequence) ==> table == old(table))
      ensures old(table) <= table
      ensures r.Done? ==>
                && state.Some? && state.value.at == clock && state.value.store == store
                && (forall h :: h in index <==> h in mirror)
                && (forall h :: h in mirror ==> mirror[h].Whole? && index[h] == |mirror[h].rows|)
                && Exact(table, mirror, clock, state.value.last, missed)
                && old(sequence) <= state.value.last && Published(table, mirror, clock, state.value.last, missed)
                && (mirror == Rebuild(table, clock) <==> Lacking(table, mirror, clock - RETENTION, clock) == {})
      ensures r.Done? && old(Incremental()) ==>
                && missed == Carried(old(missed), table, hours, state.value.last, clock - RETENTION, clock)
                && HourOf(clock - RETENTION) in hours
                && (forall h :: HourOf(Max(clock - RETENTION, old(state).value.at - HOUR)) <= h <= HourOf(clock) ==> h in hours)
                && InsertionHours(old(table), old(state).value.last, clock - RETENTION, clock) <= hours
      ensures old(Incremental()) ==> missed <= old(missed)
      ensures !old(Incremental()) ==> forall m :: m in missed ==> m in old(missed) || m.id > old(sequence)
      ensures r.Done? && !old(Incremental()) ==> forall m :: m in missed ==> m.id > old(sequence) && HourOf(m.at) !in hours
    {
      hide Valid, Covered, Complete, Exposed, IsOldest, Rebuild, Trusted, HourOf, UpTo, HourRows, Max, Wanted, Lacking, Published, Exact;
      hours := {};
      Interleave();
      if * { return Raised, hours; }
      var cutoff := clock - RETENTION;
      var seen := table;
      var oldest := Oldest(cutoff);
      Interleave();
      var last := sequence;
      KnownIds();
      Interleave();
      ghost var rows, ids := table, sequence;
      var chosen: set<int>;
      var missing: set<Row>;
      if state.None? || state.value.last > last || state.value.store != store {
        r, chosen, missing := PlanRebuild(seen, oldest, last);
        if r.Raised? { return; }
      } else {
        chosen, missing := PlanIncrement(last);
      }
      hours := chosen;
      PlannedMissing(rows, seen, missed, chosen, last, cutoff, clock);
      r := Export(chosen, last, missing);
      if r.Done? { PublishedExact(table, mirror, clock, last, missed); }
      CarriedStill(old(missed), rows, table, chosen, last, cutoff, clock);
    }

    /** The exported hours, the removal of older ones, the index and the state. */
    method Export(hours: set<int>, last: nat, missing: set<Row>) returns (r: Status)
      requires Valid() && last <= sequence && NotIn(missing, hours)
      requires forall m :: m in missing ==> Wanted(table, m, last, clock - RETENTION, clock)
      requires Covered(table, mirror, clock - RETENTION, clock, hours, HourOf(clock - RETENTION), last, missing)
      requires forall h :: h in hours ==> Exposed(table, h) && HourOf(clock - RETENTION) <= h
      modifies this`table, this`sequence, this`mirror, this`index, this`state, this`missed
      ensures Valid() && old(sequence) <= sequence && (sequence == old(sequence) ==> table == old(table))
      ensures old(table) <= table && forall x :: x in table - old(table) ==> x.id > old(sequence)
      ensures missed == old(missed) || missed == missing
      ensures r.Done? ==>
                && missed == missing && Indexed(mirror, index) && state == Some(State(clock, last, store))
                && Published(table, mirror, clock, last, missed)
                && (mirror == Rebuild(table, clock) <==> Lacking(table, mirror, clock - RETENTION, clock) == {})
    {
      hide Valid, Covered, Complete, Exposed, Rebuild, HourOf, Indexed, UpTo, HourRows, Lacking, NotIn, Clean;
      r := ExportHours(hours, last, missing);
      if r.Raised? { return; }
      ghost var before := mirror;
      r := PruneHours(HourOf(clock - RETENTION));
      if r.Raised? { return; }
      PruneComplete(table, before, mirror, clock - RETENTION, clock, last, missing);
      WindowHours();
      CompletePublished(table, mirror, clock, last, missing);
      LackingIff(table, mirror, clock);
      r := SaveIndex(last, missing);
    }

    lemma IndexCounts()
      ensures Indexed(mirror, Index(mirror))
    {
    }

    /** The index, then the state that names the last exported row. */
    method SaveIndex(last: nat, missing: set<Row>) returns (r: Status)
      requires Valid() && last <= sequence && Complete(table, mirror, clock - RETENTION, clock, last, missing)
      modifies this`index, this`state, this`missed
      ensures Valid() && (missed == old(missed) || missed == missing)
      ensures r.Done? ==> Indexed(mirror, index) && state == Some(State(clock, last, store)) && missed == missing
    {
      hide Complete, Index, Indexed, Trusted;
      index := Index(mirror);
      IndexCounts();
      if * { return Raised; }
      r := SaveState(last, missing);
    }

    method SaveState(last: nat, missing: set<Row>) returns (r: Status)
      requires Valid() && last <= sequence && Complete(table, mirror, clock - RETENTION, clock, last, missing)
      modifies this`state, this`missed
      ensures Valid() && (missed == old(missed) || missed == missing)
      ensures r.Done? ==> state == Some(State(clock, last, store)) && missed == missing
    {
      if * { return Raised; }
      NowTrusted(last, missing);
      state, missed := Some(State(clock, last, store)), missing;
      if * { return Raised; }
      return Done;
    }

    lemma KnownIds()
      requires Valid()
      ensures state.Some? && state.value.store == store ==> state.value.last <= sequence
      ensures forall r :: r in table ==> r.id <= sequence
    {
    }

    lemma WindowHours()
      requires Valid() && forall h :: h in mirror ==> HourOf(clock - RETENTION) <= h
      ensures forall h :: h in mirror ==> HourOf(clock - RETENTION) <= h <= HourOf(clock)
    {
    }
  }

  /** Neither plan leaves a row missing in an hour it exports. */
  lemma PlannedMissing(table: set<Row>, seen: set<Row>, missed: set<Row>, hours: set<int>, last: nat, cutoff: int, now: int)
    ensures NotIn(Overlooked(table, seen, hours, last, cutoff, now), hours) && NotIn(Carried(missed, table, hours, last, cutoff, now), hours)
    ensures forall m :: m in Overlooked(table, seen, hours, last, cutoff, now) ==> Wanted(table, m, last, cutoff, now)
    ensures forall m :: m in Carried(missed, table, hours, last, cutoff, now) ==> Wanted(table, m, last, cutoff, now)
  {
  }

  /** Rows that arrive later are none of those missed before. */
  lemma CarriedStill(missed: set<Row>, table: set<Row>, more: set<Row>, hours: set<int>, last: nat, cutoff: int, now: int)
    requires table <= more && forall r :: r in more - table ==> r.id > last
    ensures Carried(missed, more, hours, last, cutoff, now) == Carried(missed, table, hours, last, cutoff, now)
  {
  }

  datatype Event =
    | Tick(t: int) | Arrival(at: int, record: string) | Pruning(end: int) | Replacement(store: nat) | StateLost | Publication

  /** What an event leaves behind: the result of a run, whether it was incremental, the last row id before it, and the
      state after it. */
  datatype Outcome = Outcome(
    result: Status, incremental: bool, first: nat,
    table: set<Row>, clock: int, mirror: map<int, Shard>, state: Option<State>, missed: set<Row>)

  function ClockAfter(clock: int, events: seq<Event>): int {
    if events == [] then clock
    else
      var before := ClockAfter(clock, events[..|events| - 1]);
      var e := events[|events| - 1];
      if e.Tick? && before <= e.t then e.t else before
  }

  /** The record came in, and the store has not been replaced since. */
  ghost predicate Arrived(events: seq<Event>, at: int, record: string) {
    exists j :: 0 <= j < |events| && events[j] == Arrival(at, record) && forall k :: j < k < |events| ==> !events[k].Replacement?
  }

  /** The table holds the record, under an id up to `last`. */
  ghost predicate Here(table: set<Row>, last: nat, at: int, record: string) {
    exists r :: r in table && r.id <= last && r.at == at && r.record == record
  }

  /** Retained records that came in are in the table. */
  ghost predicate AllHere(events: seq<Event>, table: set<Row>, last: nat, clock: int) {
    forall at, record :: Arrived(events, at, record) && clock - RETENTION <= at ==> Here(table, last, at, record)
  }

  /** Mirrored, or one of the rows known to be missed. */
  ghost predicate MirroredOrMissed(o: Outcome, at: int, record: string) {
    exists r :: r in o.table && r.at == at && r.record == record && (Kept(o.mirror, HourOf(at), r) || r in o.missed)
  }

  ghost predicate Finished(o: Outcome) {
    && o.state.Some? && o.state.value.at == o.clock && o.first <= o.state.value.last
    && Published(o.table, o.mirror, o.clock, o.state.value.last, o.missed)
    && (o.mirror == Rebuild(o.table, o.clock) <==> Lacking(o.table, o.mirror, o.clock - RETENTION, o.clock) == {})
  }

  /** A missed row arrived during some earlier rebuild. */
  ghost predicate Blamed(events: seq<Event>, outcomes: seq<Outcome>, m: Row)
    requires |events| == |outcomes|
  {
    exists j :: 0 <= j < |outcomes| && events[j].Publication? && !outcomes[j].incremental && m in outcomes[j].missed && m.id > outcomes[j].first
  }

  function MissedSoFar(outcomes: seq<Outcome>): set<Row> {
    if outcomes == [] then {} else outcomes[|outcomes| - 1].missed
  }

  /** What is known of the last of these events. Only a rebuild adds to the missed rows. */
  ghost predicate ToldLast(clock: int, events: seq<Event>, outcomes: seq<Outcome>)
    requires |events| == |outcomes| > 0
  {
    var e, before, o := events[|events| - 1], events[..|events| - 1], outcomes[|outcomes| - 1];
    && o.clock == ClockAfter(clock, events)
    && (forall m :: m in o.missed ==> Blamed(events, outcomes, m))
    && (!(e.Publication? && !o.incremental) ==> o.missed <= MissedSoFar(outcomes[..|outcomes| - 1]))
    && (e.Publication? && o.result.Done? ==>
          && Finished(o)
          && forall at, record :: Arrived(before, at, record) && o.clock - RETENTION <= at && HourOf(at) <= HourOf(o.clock) ==>
               MirroredOrMissed(o, at, record))
  }

  ghost predicate Told(clock: int, events: seq<Event>, outcomes: seq<Outcome>) {
    |outcomes| == |events| && forall i :: 0 < i <= |events| ==> ToldLast(clock, events[..i], outcomes[..i])
  }

  /** One event. */
  method Happen(p: Publisher, e: Event) returns (o: Outcome)
    requires p.Valid()
    modifies p
    ensures p.Valid()
    ensures o == Outcome(o.result, old(p.Incremental()), old(p.sequence), p.table, p.clock, p.mirror, p.state, p.missed)
    ensures p.clock == if e.Tick? && old(p.clock) <= e.t then e.t else old(p.clock)
    ensures !e.Replacement? ==>
              && old(p.sequence) <= p.sequence
              && forall r :: r in old(p.table) && p.clock - RETENTION <= r.at ==> r in p.table
    ensures e.Arrival? ==> Row(p.sequence, e.at, e.record) in p.table
    ensures if e.Publication? && !o.incremental then forall m :: m in o.missed ==> m in old(p.missed) || m.id > o.first
            else o.missed <= old(p.missed)
    ensures e.Publication? && o.result.Done? ==> Finished(o)
  {
    hide Trusted, Unchanged, Published, Rebuild, Lacking, HourOf, Carried;
    var incremental, first, r := p.Incremental(), p.sequence, Done;
    match e {
      case Tick(t) => if p.clock <= t { p.Tick(t); }
      case Arrival(at, record) => p.Insert(at, record);
      case Pruning(end) => if end <= p.clock { p.PruneHistory(end); }
      case Replacement(store) => if store !in p.used { p.NewStore(store); }
      case StateLost => p.LoseState();
      case Publication =>
        var hours;
        r, hours := p.Publish();
    }
    o := Outcome(r, incremental, first, p.table, p.clock, p.mirror, p.state, p.missed);
  }

  /** Any history of the collector, the clock and the publisher; every run in it may have been cut short. Every finished
      run has published: what came in before it and is retained is mirrored, or is among the rows missed, and a row is
      missed only if it arrived during a rebuild. */
  method Lifetime(p: Publisher, events: seq<Event>) returns (outcomes: seq<Outcome>)
    requires p.Valid() && p.missed == {} && p.table == {}
    modifies p
    ensures p.Valid() && Told(old(p.clock), events, outcomes)
  {
    hide Trusted, Finished, Arrived, Here, MirroredOrMissed, Told, AllHere;
    outcomes := [];
    ghost var clock := p.clock;
    Untold(clock, p.table, p.sequence);
    var i := 0;
    while i < |events|
      invariant 0 <= i <= |events| && p.Valid() && Told(clock, events[..i], outcomes) && p.clock == ClockAfter(clock, events[..i])
      invariant AllHere(events[..i], p.table, p.sequence, p.clock)
      invariant |outcomes| == i && p.missed == MissedSoFar(outcomes) && forall m :: m in p.missed ==> Blamed(events[..i], outcomes, m)
    {
      ghost var rows, last, missed := p.table, p.sequence, p.missed;
      var o := Happen(p, events[i]);
      Ids(p);
      Next(clock, events[..i], outcomes, events[i], o, rows, last, missed);
      StillHere(events[..i], events[i], rows, last, ClockAfter(clock, events[..i]), p.table, p.sequence, p.clock);
      assert events[..i + 1] == events[..i] + [events[i]];
      outcomes := outcomes + [o];
      i := i + 1;
    }
    assert events[..i] == events;
  }

  lemma Ids(p: Publisher)
    requires p.Valid()
    ensures forall r :: r in p.table ==> r.id <= p.sequence
  {
  }

  lemma Untold(clock: int, table: set<Row>, last: nat)
    ensures Told(clock, [], []) && AllHere([], table, last, clock)
  {
  }

  /** Nothing that came in and is retained leaves the table, unless the store is replaced. */
  lemma StillHere(events: seq<Event>, e: Event, table: set<Row>, last: nat, clock: int, next: set<Row>, now: nat, later: int)
    requires AllHere(events, table, last, clock) && clock <= later
    requires !e.Replacement? ==> last <= now && forall r :: r in table && later - RETENTION <= r.at ==> r in next
    requires e.Arrival? ==> Row(now, e.at, e.record) in next
    ensures AllHere(events + [e], next, now, later)
  {
    var all := events + [e];
    forall at, record | Arrived(all, at, record) && later - RETENTION <= at ensures Here(next, now, at, record) {
      var j :| 0 <= j < |all| && all[j] == Arrival(at, record) && forall k :: j < k < |all| ==> !all[k].Replacement?;
      if j < |events| {
        assert !all[|events|].Replacement?;
        assert events[j] == Arrival(at, record) && forall k :: j < k < |events| ==> events[k] == all[k];
        assert Arrived(events, at, record);
        var r :| r in table && r.id <= last && r.at == at && r.record == record;
        assert r in next;
      }
    }
  }

  /** Up to the saved row the mirror lacks exactly the missed rows, so what is in the table is mirrored or missed. */
  lemma InMirror(o: Outcome, at: int, record: string)
    requires Finished(o) && Here(o.table, o.first, at, record)
    requires o.clock - RETENTION <= at && HourOf(at) <= HourOf(o.clock)
    ensures MirroredOrMissed(o, at, record)
  {
    var r :| r in o.table && r.id <= o.first && r.at == at && r.record == record;
    assert r in o.missed || Kept(o.mirror, HourOf(at), r);
  }

  lemma Next(clock: int, events: seq<Event>, outcomes: seq<Outcome>, e: Event, o: Outcome, table: set<Row>, last: nat, missed: set<Row>)
    requires Told(clock, events, outcomes) && o.first == last && AllHere(events, table, last, ClockAfter(clock, events))
    requires o.clock == if e.Tick? && ClockAfter(clock, events) <= e.t then e.t else ClockAfter(clock, events)
    requires !e.Replacement? ==> forall r :: r in table && o.clock - RETENTION <= r.at ==> r in o.table
    requires missed == MissedSoFar(outcomes) && forall m :: m in missed ==> Blamed(events, outcomes, m)
    requires if e.Publication? && !o.incremental then forall m :: m in o.missed ==> m in missed || m.id > o.first else o.missed <= missed
    requires e.Publication? && o.result.Done? ==> Finished(o)
    ensures Told(clock, events + [e], outcomes + [o]) && ClockAfter(clock, events + [e]) == o.clock
    ensures forall m :: m in o.missed ==> Blamed(events + [e], outcomes + [o], m)
  {
    hide Finished, Arrived, MirroredOrMissed, Here;
    var n, es, os := |events|, events + [e], outcomes + [o];
    assert es[..n] == events && es[..n + 1] == es && os[..n + 1] == os && os[..n] == outcomes;
    forall m | m in o.missed ensures Blamed(es, os, m) {
      if m in missed {
        var j :| 0 <= j < n && events[j].Publication? && !outcomes[j].incremental && m in outcomes[j].missed && m.id > outcomes[j].first;
        assert es[j] == events[j] && os[j] == outcomes[j];
      } else {
        assert es[n] == e && os[n] == o;
      }
    }
    if e.Publication? && o.result.Done? {
      forall at, record | Arrived(events, at, record) && o.clock - RETENTION <= at && HourOf(at) <= HourOf(o.clock)
        ensures MirroredOrMissed(o, at, record)
      {
        StillHereNow(table, last, o.table, at, record, o.clock);
        InMirror(o, at, record);
      }
    }
    assert ToldLast(clock, es, os);
    forall i | 0 < i <= |es| ensures ToldLast(clock, es[..i], os[..i]) {
      if i <= n { assert es[..i] == events[..i] && os[..i] == outcomes[..i]; }
    }
  }

  lemma StillHereNow(table: set<Row>, last: nat, next: set<Row>, at: int, record: string, clock: int)
    requires Here(table, last, at, record) && clock - RETENTION <= at && forall r :: r in table && clock - RETENTION <= r.at ==> r in next
    ensures Here(next, last, at, record)
  {
    var r :| r in table && r.id <= last && r.at == at && r.record == record;
    assert r in next;
  }

  /** A rebuild of the whole table lacks nothing. */
  lemma RebuildComplete(table: set<Row>, generated: int)
    ensures Lacking(table, Rebuild(table, generated), generated - RETENTION, generated) == {}
  {
    var cutoff, mirror := generated - RETENTION, Rebuild(table, generated);
    forall r | r in table && cutoff <= r.at && HourOf(r.at) <= HourOf(generated) ensures Kept(mirror, HourOf(r.at), r) {
      RebuildMirrors(table, generated, HourOf(r.at));
      assert r in HourRows(table, HourOf(r.at), cutoff);
    }
  }

  /** The first run of a publisher, while one row arrives two hours late between its two reads: if it finishes,
      the state it saves names that row and the mirror does not hold it. */
  method ReadGap(now: int) returns (r: Status, table: set<Row>, mirror: map<int, Shard>, state: Option<State>)
    ensures r.Done? ==> state.Some? && state.value.last == 1
    ensures r.Done? ==> Row(1, now - 2 * HOUR, "late") in Lacking(table, mirror, now - RETENTION, now)
    ensures r.Done? ==> mirror != Rebuild(table, now)
  {
    hide Covered, Complete, Rebuild, HourRows, RetainedHours, Lacking, Trusted;
    var p := new Publisher(now, 0);
    var oldest := p.Oldest(now - RETENTION);
    p.Insert(now - 2 * HOUR, "late");
    var hours, missing;
    r, hours, missing := p.PlanRebuild({}, oldest, p.sequence);
    if r.Done? {
      PlannedMissing(p.table, {}, {}, hours, 1, now - RETENTION, now);
      assert Row(1, now - 2 * HOUR, "late") in missing;
      r := p.Export(hours, p.sequence, missing);
      RebuildComplete(p.table, now);
    }
    table, mirror, state := p.table, p.mirror, p.state;
  }
}
