/** Overlapping collection of container logs: cursors, fingerprints, gaps and retention. */
module LogCollection {
  import opened Wrappers

  /** Whole microseconds. */
  const RETENTION: int := 2_592_000_000_000
  const OVERLAP: int := 2_000_000

  const OMITTED := "[Credential-shaped log record omitted]"

  type Container = string

  /** One line of `docker logs --timestamps`. */
  datatype Line = Stamped(at: int, message: string) | Blank | Unparsed

  /** The distinct digest of a row: service, time and cleaned text. */
  datatype Fingerprint = Fingerprint(service: string, at: int, text: string)

  datatype Row = Row(id: nat, fingerprint: Fingerprint)

  datatype Reason =
    | Truncated | CredentialOmitted | Unparseable | CaptureFailed | Disappeared(container: Container) | InventoryFailed | Paused

  datatype Gap = Gap(at: int, source: string, reason: Reason)

  /** The checks and changes of a message that `insert_log` makes before it stores anything. */
  datatype Filter = Filter(
    oversized: string -> bool, truncate: string -> string, redact: string -> string, shaped: string -> bool)

  /** `docker logs --since … --until end` of one container, as it went: what it delivered, and whether it ended well. */
  datatype Reading = Reading(container: Container, service: string, lines: seq<Line>, complete: bool)

  /** The containers of a run; their inventory may fail, or the run be held for lack of space. */
  datatype Inventory = Listed(readings: seq<Reading>) | Failed | Held

  /** One run of the collector; a run that does not commit leaves nothing behind. */
  datatype Run = Run(end: int, inventory: Inventory, committed: bool)

  // ---------------------------------------------------------------- asking

  datatype Answer = Answer(lines: seq<Line>, complete: bool)

  /** One container, and what `docker logs` answers when it is asked from an instant on. */
  datatype Query = Query(container: Container, service: string, answer: int -> Answer)

  datatype Census = Known(queries: seq<Query>) | Unknown | Suspended

  /** A run before it is known from where each container is read. */
  datatype Inquiry = Inquiry(end: int, census: Census, committed: bool)

  function Ask(q: Query, since: int): Reading {
    Reading(q.container, q.service, q.answer(since).lines, q.answer(since).complete)
  }

  /** Where the read of a container begins: `get_meta(db, key, stamp(end - RETENTION))`. */
  function Start(cursors: map<Container, int>, c: Container, end: int): int {
    if c in cursors then cursors[c] else end - RETENTION
  }

  function Readings(queries: seq<Query>, cursors: map<Container, int>, end: int): (r: seq<Reading>)
    ensures |r| == |queries|
    ensures forall k :: 0 <= k < |r| ==> r[k] == Ask(queries[k], Start(cursors, queries[k].container, end))
  {
    seq(|queries|, k requires 0 <= k < |queries| => Ask(queries[k], Start(cursors, queries[k].container, end)))
  }

  /** The run that this inquiry becomes with these cursors. */
  function Answered(i: Inquiry, cursors: map<Container, int>): Run {
    Run(i.end,
        match i.census
        case Known(queries) => Listed(Readings(queries, cursors, i.end))
        case Unknown => Failed
        case Suspended => Held,
        i.committed)
  }

  /** An inventory lists a container once. */
  predicate Once(queries: seq<Query>) {
    forall a, b :: 0 <= a < b < |queries| ==> queries[a].container != queries[b].container
  }

  // ---------------------------------------------------------------- one message

  function Kept(f: Filter, message: string): string {
    f.redact(if f.oversized(message) then f.truncate(message) else message)
  }

  function Clean(f: Filter, message: string): string {
    if f.shaped(Kept(f, message)) then OMITTED else Kept(f, message)
  }

  /** What is stored of a message, case by case: it is cut if too long, then redacted, and left out altogether
      if the redacted text still looks like a credential. */
  predicate Sanitized(f: Filter, message: string, text: string) {
    && (!f.oversized(message) && !f.shaped(f.redact(message)) ==> text == f.redact(message))
    && (!f.oversized(message) && f.shaped(f.redact(message)) ==> text == OMITTED)
    && (f.oversized(message) && !f.shaped(f.redact(f.truncate(message))) ==> text == f.redact(f.truncate(message)))
    && (f.oversized(message) && f.shaped(f.redact(f.truncate(message))) ==> text == OMITTED)
  }

  /** No raw text: the marker, or something redacted that does not look like a credential. */
  ghost predicate Safe(f: Filter, text: string) {
    text == OMITTED || (!f.shaped(text) && exists m :: text == f.redact(m))
  }

  function FingerprintOf(f: Filter, service: string, line: Line): Fingerprint
    requires line.Stamped?
  {
    Fingerprint(service, line.at, Clean(f, line.message))
  }

  function MessageGaps(f: Filter, message: string, now: int): seq<Gap> {
    (if f.oversized(message) then [Gap(now, "docker", Truncated)] else [])
    + (if f.shaped(Kept(f, message)) then [Gap(now, "docker", CredentialOmitted)] else [])
  }

  // ---------------------------------------------------------------- one reading

  function Prints(f: Filter, service: string, lines: seq<Line>): set<Fingerprint> {
    set l | l in lines && l.Stamped? :: FingerprintOf(f, service, l)
  }

  function LineGaps(f: Filter, service: string, line: Line, now: int): seq<Gap> {
    match line
    case Stamped(_, message) => MessageGaps(f, message, now)
    case Blank => []
    case Unparsed => [Gap(now, service, Unparseable)]
  }

  function LinesGaps(f: Filter, service: string, lines: seq<Line>, now: int): seq<Gap> {
    if lines == [] then []
    else LinesGaps(f, service, lines[..|lines| - 1], now) + LineGaps(f, service, lines[|lines| - 1], now)
  }

  function ReadingGaps(f: Filter, r: Reading, now: int): seq<Gap> {
    LinesGaps(f, r.service, r.lines, now) + if r.complete then [] else [Gap(now, r.service, CaptureFailed)]
  }

  lemma NextLine(f: Filter, service: string, lines: seq<Line>, i: nat, now: int)
    requires i < |lines|
    ensures LinesGaps(f, service, lines[..i + 1], now) ==
            LinesGaps(f, service, lines[..i], now) + LineGaps(f, service, lines[i], now)
    ensures Prints(f, service, lines[..i + 1]) ==
            Prints(f, service, lines[..i]) + if lines[i].Stamped? then {FingerprintOf(f, service, lines[i])} else {}
  {
    assert lines[..i + 1][..i] == lines[..i];
    assert lines[..i + 1] == lines[..i] + [lines[i]];
  }

  // ---------------------------------------------------------------- a history of runs

  /** The container was read to its end in this run. */
  predicate CompleteIn(run: Run, c: Container) {
    run.committed && run.inventory.Listed? && exists r :: r in run.inventory.readings && r.container == c && r.complete
  }

  /** The end of the last complete read of a container. */
  function LastComplete(runs: seq<Run>, c: Container): Option<int> {
    if runs == [] then None
    else if CompleteIn(runs[|runs| - 1], c) then Some(runs[|runs| - 1].end)
    else LastComplete(runs[..|runs| - 1], c)
  }

  /** Everything older has been deleted. */
  function Cutoff(runs: seq<Run>): Option<int> {
    if runs == [] then None
    else if runs[|runs| - 1].committed then Some(runs[|runs| - 1].end - RETENTION)
    else Cutoff(runs[..|runs| - 1])
  }

  predicate Retained(runs: seq<Run>, at: int) {
    Cutoff(runs).Some? ==> Cutoff(runs).value <= at
  }

  predicate DeliveredIn(f: Filter, run: Run, p: Fingerprint) {
    run.committed && run.inventory.Listed? && exists r :: r in run.inventory.readings && p in Prints(f, r.service, r.lines)
  }

  predicate Delivered(f: Filter, runs: seq<Run>, p: Fingerprint) {
    exists i :: 0 <= i < |runs| && DeliveredIn(f, runs[i], p)
  }

  function Names(readings: seq<Reading>): set<Container> {
    set r | r in readings :: r.container
  }

  /** The containers of the last inventory. */
  function Seen(runs: seq<Run>): set<Container> {
    if runs == [] then {}
    else if runs[|runs| - 1].committed && runs[|runs| - 1].inventory.Listed? then Names(runs[|runs| - 1].inventory.readings)
    else Seen(runs[..|runs| - 1])
  }

  function NoInventory(run: Run): Gap {
    if run.inventory.Held? then Gap(run.end, "storage", Paused) else Gap(run.end, "docker", InventoryFailed)
  }

  /** What a read puts on record: a line that could not be parsed, a message that was cut or left out, a read that failed. */
  predicate Unread(f: Filter, r: Reading, now: int, g: Gap) {
    || (Unparsed in r.lines && g == Gap(now, r.service, Unparseable))
    || (g == Gap(now, "docker", Truncated) && exists l :: l in r.lines && l.Stamped? && f.oversized(l.message))
    || (g == Gap(now, "docker", CredentialOmitted)
        && exists l :: l in r.lines && l.Stamped? && f.shaped(f.redact(if f.oversized(l.message) then f.truncate(l.message) else l.message)))
    || (!r.complete && g == Gap(now, r.service, CaptureFailed))
  }

  lemma {:induction false} LinesGapsMean(f: Filter, service: string, lines: seq<Line>, now: int, g: Gap)
    ensures g in LinesGaps(f, service, lines, now) <==> exists l :: l in lines && g in LineGaps(f, service, l, now)
    decreases |lines|
  {
    hide LineGaps;
    if lines != [] {
      var front, last := lines[..|lines| - 1], lines[|lines| - 1];
      assert lines == front + [last];
      LinesGapsMean(f, service, front, now, g);
    }
  }

  lemma GapsMean(f: Filter, r: Reading, now: int, g: Gap)
    ensures g in ReadingGaps(f, r, now) <==> Unread(f, r, now, g)
  {
    LinesGapsMean(f, r.service, r.lines, now, g);
  }

  /** What a run puts on record as not captured. */
  predicate Missing(f: Filter, seen: set<Container>, run: Run, g: Gap) {
    if !run.inventory.Listed? then g == NoInventory(run)
    else
      || (exists r :: r in run.inventory.readings && Unread(f, r, run.end, g))
      || (exists c :: c in seen - Names(run.inventory.readings) && g == Gap(run.end, "docker", Disappeared(c)))
  }

  predicate Reported(f: Filter, runs: seq<Run>, g: Gap) {
    exists i :: 0 <= i < |runs| && runs[i].committed && Missing(f, Seen(runs[..i]), runs[i], g)
  }

  /** The clock does not run backwards. */
  ghost predicate Orderly(runs: seq<Run>) {
    forall i, j :: 0 <= i < j < |runs| ==> runs[i].end <= runs[j].end
  }

  // ---------------------------------------------------------------- what Docker promises

  /** Everything each container ever logs, and the name of each container. */
  datatype World = World(written: Container -> set<Line>, named: Container -> string)

  /** Where the history says that the read of a container begins. */
  function Since(earlier: seq<Run>, c: Container, end: int): int {
    match LastComplete(earlier, c)
    case Some(e) => e - OVERLAP
    case None => end - RETENTION
  }

  predicate Within(earlier: seq<Run>, run: Run, c: Container, l: Line) {
    l.Stamped? && Since(earlier, c, run.end) <= l.at <= run.end - OVERLAP
  }

  /** A read delivers lines under the container's name; one that ends well delivers all of its interval that are
      at least two seconds old, for a younger line may not be visible yet. */
  ghost predicate Faithful(w: World, earlier: seq<Run>, run: Run) {
    run.inventory.Listed? ==> forall r :: r in run.inventory.readings ==>
      && r.service == w.named(r.container)
      && (r.complete ==> forall l :: l in w.written(r.container) && Within(earlier, run, r.container, l) ==> l in r.lines)
  }

  ghost predicate FaithfulHistory(w: World, runs: seq<Run>) {
    forall i :: 0 <= i < |runs| ==> Faithful(w, runs[..i], runs[i])
  }

  /** Up to two seconds before the last complete read of the container, and within retention. */
  predicate Covered(runs: seq<Run>, c: Container, l: Line) {
    l.Stamped? && LastComplete(runs, c).Some? && Retained(runs, l.at) && l.at <= LastComplete(runs, c).value - OVERLAP
  }

  lemma CutoffRises(runs: seq<Run>)
    requires Orderly(runs) && runs != []
    ensures Orderly(runs[..|runs| - 1])
    ensures Cutoff(runs[..|runs| - 1]).Some? ==> Cutoff(runs).Some? && Cutoff(runs[..|runs| - 1]).value <= Cutoff(runs).value
  {
    CutoffIsAnEnd(runs[..|runs| - 1]);
  }

  lemma {:induction false} CutoffIsAnEnd(runs: seq<Run>)
    ensures Cutoff(runs).Some? ==> exists i :: 0 <= i < |runs| && Cutoff(runs).value == runs[i].end - RETENTION
  {
    if runs != [] && !runs[|runs| - 1].committed {
      CutoffIsAnEnd(runs[..|runs| - 1]);
    }
  }

  /** However many reads failed or were cut short, and however many runs were lost: what a container wrote up to
      two seconds before its last complete read, and within retention, has been delivered by some committed run. */
  lemma {:induction false} NothingMissed(f: Filter, w: World, runs: seq<Run>, c: Container, l: Line)
    requires Orderly(runs) && FaithfulHistory(w, runs) && l in w.written(c) && Covered(runs, c, l)
    ensures Delivered(f, runs, FingerprintOf(f, w.named(c), l))
  {
    hide Orderly, FingerprintOf;
    var n := |runs| - 1;
    var p := FingerprintOf(f, w.named(c), l);
    CutoffRises(runs);
    if CompleteIn(runs[n], c) && Since(runs[..n], c, runs[n].end) <= l.at {
      var r :| r in runs[n].inventory.readings && r.container == c && r.complete;
      assert Faithful(w, runs[..n], runs[n]);
      assert l in r.lines && p in Prints(f, r.service, r.lines);
      assert DeliveredIn(f, runs[n], p);
    } else {
      Earlier(w, runs);
      NothingMissed(f, w, runs[..n], c, l);
      var i :| 0 <= i < n && DeliveredIn(f, runs[..n][i], p);
      assert DeliveredIn(f, runs[i], p);
    }
  }

  // ---------------------------------------------------------------- a history of inquiries

  /** The run that an inquiry becomes after these. */
  function AnsweredAfter(earlier: seq<Run>, i: Inquiry): Run {
    Run(i.end,
        match i.census
        case Known(queries) =>
          Listed(seq(|queries|, k requires 0 <= k < |queries| => Ask(queries[k], Since(earlier, queries[k].container, i.end))))
        case Unknown => Failed
        case Suspended => Held,
        i.committed)
  }

  function History(inquiries: seq<Inquiry>): (runs: seq<Run>)
    ensures |runs| == |inquiries| && forall i :: 0 <= i < |runs| ==> runs[i].end == inquiries[i].end
  {
    if inquiries == [] then []
    else
      var earlier := History(inquiries[..|inquiries| - 1]);
      earlier + [AnsweredAfter(earlier, inquiries[|inquiries| - 1])]
  }

  /** What Docker promises of one container: a complete answer, from whatever instant on, holds every line from there on
      that is at least two seconds old; a younger one may not be visible yet. */
  ghost predicate Candid(w: World, q: Query, end: int) {
    && q.service == w.named(q.container)
    && forall since, l :: q.answer(since).complete && l in w.written(q.container) && l.Stamped? && since <= l.at <= end - OVERLAP ==>
         l in q.answer(since).lines
  }

  /** The clock does not run backwards, an inventory lists a container once, and Docker keeps its promise. */
  ghost predicate Regular(w: World, inquiries: seq<Inquiry>) {
    && (forall i, j :: 0 <= i < j < |inquiries| ==> inquiries[i].end <= inquiries[j].end)
    && forall i :: i in inquiries && i.census.Known? ==> Once(i.census.queries) && forall q :: q in i.census.queries ==> Candid(w, q, i.end)
  }

  lemma RegularFront(w: World, inquiries: seq<Inquiry>)
    requires Regular(w, inquiries) && inquiries != []
    ensures var n := |inquiries| - 1;
      && Regular(w, inquiries[..n])
      && (inquiries[n].census.Known? ==> forall q :: q in inquiries[n].census.queries ==> Candid(w, q, inquiries[n].end))
  {
    hide Candid, Once;
    assert inquiries[|inquiries| - 1] in inquiries;
    assert forall i :: i in inquiries[..|inquiries| - 1] ==> i in inquiries;
  }

  lemma {:induction false} HistoryFaithful(w: World, inquiries: seq<Inquiry>)
    requires Regular(w, inquiries)
    ensures Orderly(History(inquiries)) && FaithfulHistory(w, History(inquiries))
  {
    hide Faithful, Candid, Once, AnsweredAfter;
    if inquiries != [] {
      var n := |inquiries| - 1;
      var front, last := inquiries[..n], inquiries[n];
      RegularFront(w, inquiries);
      HistoryFaithful(w, front);
      var earlier, runs := History(front), History(inquiries);
      forall i | 0 <= i < |runs| ensures Faithful(w, runs[..i], runs[i]) {
        if i < n {
          assert runs[..i] == earlier[..i] && runs[i] == earlier[i];
        } else {
          assert runs[..i] == earlier;
          AnswerFaithful(w, earlier, last);
        }
      }
    }
  }

  lemma AnswerFaithful(w: World, earlier: seq<Run>, i: Inquiry)
    requires i.census.Known? ==> forall q :: q in i.census.queries ==> Candid(w, q, i.end)
    ensures Faithful(w, earlier, AnsweredAfter(earlier, i))
  {
    var run := AnsweredAfter(earlier, i);
    if i.census.Known? {
      forall r | r in run.inventory.readings
        ensures r.service == w.named(r.container)
        ensures r.complete ==> forall l :: l in w.written(r.container) && Within(earlier, run, r.container, l) ==> l in r.lines
      {
        var k :| 0 <= k < |run.inventory.readings| && run.inventory.readings[k] == r;
        var q := i.census.queries[k];
        assert q in i.census.queries && Candid(w, q, i.end) && r == Ask(q, Since(earlier, q.container, i.end));
      }
    }
  }

  lemma Earlier(w: World, runs: seq<Run>)
    requires FaithfulHistory(w, runs) && runs != []
    ensures FaithfulHistory(w, runs[..|runs| - 1])
  {
    var n := |runs| - 1;
    forall i | 0 <= i < n ensures Faithful(w, runs[..n][..i], runs[..n][i]) {
      assert runs[..n][..i] == runs[..i];
    }
  }

  // ---------------------------------------------------------------- the store

  function Keys(rows: seq<Row>): set<Fingerprint> {
    set row | row in rows :: row.fingerprint
  }

  /** No fingerprint is stored twice, and rows stand in the order in which they were inserted. */
  ghost predicate Unique(rows: seq<Row>, nextId: nat) {
    && (forall i, j :: 0 <= i < j < |rows| ==> rows[i].fingerprint != rows[j].fingerprint && rows[i].id < rows[j].id)
    && (forall row :: row in rows ==> row.id < nextId)
  }

  /** `DELETE FROM logs WHERE at < ?` */
  function RowsFrom(rows: seq<Row>, cutoff: int): (r: seq<Row>)
    ensures forall row :: row in r <==> row in rows && cutoff <= row.fingerprint.at
  {
    if rows == [] then []
    else RowsFrom(rows[..|rows| - 1], cutoff) + if cutoff <= rows[|rows| - 1].fingerprint.at then [rows[|rows| - 1]] else []
  }

  lemma {:induction false} RowsFromUnique(rows: seq<Row>, cutoff: int, nextId: nat)
    requires Unique(rows, nextId)
    ensures Unique(RowsFrom(rows, cutoff), nextId)
  {
    if rows != [] {
      var rest, last := rows[..|rows| - 1], rows[|rows| - 1];
      RowsFromUnique(rest, cutoff, nextId);
      forall row | row in RowsFrom(rest, cutoff) ensures row.fingerprint != last.fingerprint && row.id < last.id {
        var i :| 0 <= i < |rest| && rows[i] == row;
      }
    }
  }

  function GapsFrom(gaps: seq<Gap>, cutoff: int): (r: seq<Gap>)
    ensures forall g :: g in r <==> g in gaps && cutoff <= g.at
  {
    if gaps == [] then []
    else GapsFrom(gaps[..|gaps| - 1], cutoff) + if cutoff <= gaps[|gaps| - 1].at then [gaps[|gaps| - 1]] else []
  }

  /** What the last committed transaction left in the database. */
  datatype Store = Store(rows: seq<Row>, nextId: nat, gaps: seq<Gap>, cursors: map<Container, int>, seen: set<Container>)

  /** The store after these runs: rows and gaps are exactly those delivered and reported, within retention. */
  ghost predicate Holds(f: Filter, runs: seq<Run>, s: Store) {
    && Unique(s.rows, s.nextId)
    && (forall p :: p in Keys(s.rows) <==> Delivered(f, runs, p) && Retained(runs, p.at))
    && (forall g :: g in s.gaps <==> Reported(f, runs, g) && Retained(runs, g.at))
    && (forall c :: c in s.cursors <==> LastComplete(runs, c).Some?)
    && (forall c :: c in s.cursors ==> s.cursors[c] == LastComplete(runs, c).value - OVERLAP)
    && s.seen == Seen(runs)
  }

  /** The cursors in the store are where the history says the next reads begin. */
  lemma CursorSince(f: Filter, runs: seq<Run>, s: Store, i: Inquiry)
    requires Holds(f, runs, s)
    ensures Answered(i, s.cursors) == AnsweredAfter(runs, i)
  {
    hide LastComplete, Unique, Keys, Delivered, Reported, Retained;
    forall c ensures Start(s.cursors, c, i.end) == Since(runs, c, i.end) {
    }
    if i.census.Known? {
      assert Answered(i, s.cursors).inventory.readings == AnsweredAfter(runs, i).inventory.readings;
    }
  }

  class Collector {
    const filter: Filter
    var store: Store

    constructor (filter: Filter)
      ensures this.filter == filter && Holds(filter, [], store)
    {
      this.filter, store := filter, Store([], 0, [], map[], {});
    }

    method RecordGap(g: Gap)
      modifies this`store
      ensures store == old(store).(gaps := old(store).gaps + [g])
    {
      store := store.(gaps := store.gaps + [g]);
    }

    /** `insert_log`: a repeated fingerprint is ignored. */
    method InsertLog(service: string, at: int, message: string, now: int)
      requires Unique(store.rows, store.nextId)
      modifies this`store
      ensures var p := Fingerprint(service, at, Clean(filter, message));
        && Unique(store.rows, store.nextId) && Keys(store.rows) == Keys(old(store).rows) + {p}
        && store.rows == (if p in Keys(old(store).rows) then old(store).rows else old(store).rows + [Row(old(store).nextId, p)])
      ensures exists text :: Sanitized(filter, message, text)
                && Keys(store.rows) == Keys(old(store).rows) + {Fingerprint(service, at, text)}
      ensures store.gaps == old(store).gaps + MessageGaps(filter, message, now)
      ensures var m := if filter.oversized(message) then filter.truncate(message) else message;
        && (Gap(now, "docker", Truncated) in store.gaps[|old(store).gaps|..] <==> filter.oversized(message))
        && (Gap(now, "docker", CredentialOmitted) in store.gaps[|old(store).gaps|..] <==> filter.shaped(filter.redact(m)))
      ensures store == old(store).(rows := store.rows, nextId := store.nextId, gaps := store.gaps)
    {
      var text := message;
      if filter.oversized(message) {
        text := filter.truncate(message);
        RecordGap(Gap(now, "docker", Truncated));
      }
      var cleaned := filter.redact(text);
      if filter.shaped(cleaned) {
        cleaned := OMITTED;
        RecordGap(Gap(now, "docker", CredentialOmitted));
      }
      var p := Fingerprint(service, at, cleaned);
      assert Sanitized(filter, message, cleaned);
      if p in Keys(store.rows) {
        assert Keys(store.rows) + {p} == Keys(store.rows);
      } else {
        Inserted(store.rows, Row(store.nextId, p));
        store := store.(rows := store.rows + [Row(store.nextId, p)], nextId := store.nextId + 1);
      }
    }

    lemma Inserted(rows: seq<Row>, row: Row)
      ensures Keys(rows + [row]) == Keys(rows) + {row.fingerprint}
    {
      assert row in rows + [row];
    }

    /** `collect_docker`, for one container: read from the cursor on, which moves only after a complete read. */
    method CollectContainer(q: Query, end: int)
      requires Unique(store.rows, store.nextId)
      modifies this`store
      ensures var r := Ask(q, Start(old(store).cursors, q.container, end));
        && Unique(store.rows, store.nextId)
        && Keys(store.rows) == Keys(old(store).rows) + Prints(filter, r.service, r.lines)
        && store.gaps == old(store).gaps + ReadingGaps(filter, r, end)
        && store.cursors == (if r.complete then old(store).cursors[q.container := end - OVERLAP] else old(store).cursors)
        && store.seen == old(store).seen
    {
      hide Unique, Keys, Prints, LineGaps, LinesGaps, MessageGaps, Clean;
      var since := if q.container in store.cursors then store.cursors[q.container] else end - RETENTION;
      var answer := q.answer(since);
      var lines := answer.lines;
      var i := 0;
      NoLines(q.service, end);
      while i < |lines|
        invariant 0 <= i <= |lines| && Unique(store.rows, store.nextId)
        invariant Keys(store.rows) == Keys(old(store).rows) + Prints(filter, q.service, lines[..i])
        invariant store.gaps == old(store).gaps + LinesGaps(filter, q.service, lines[..i], end)
        invariant store.cursors == old(store).cursors && store.seen == old(store).seen
      {
        NextLine(filter, q.service, lines, i, end);
        CollectLine(q.service, lines[i], end);
        i := i + 1;
      }
      assert lines[..i] == lines;
      if answer.complete {
        store := store.(cursors := store.cursors[q.container := end - OVERLAP]);
      } else {
        RecordGap(Gap(end, q.service, CaptureFailed));
      }
    }

    lemma NoLines(service: string, now: int)
      ensures Prints(filter, service, []) == {} && LinesGaps(filter, service, [], now) == []
    {
    }

    method CollectLine(service: string, line: Line, now: int)
      requires Unique(store.rows, store.nextId)
      modifies this`store
      ensures Unique(store.rows, store.nextId)
      ensures Keys(store.rows) == Keys(old(store).rows) + if line.Stamped? then {FingerprintOf(filter, service, line)} else {}
      ensures store.gaps == old(store).gaps + LineGaps(filter, service, line, now)
      ensures store.cursors == old(store).cursors && store.seen == old(store).seen
    {
      hide Unique, Keys, MessageGaps, Clean;
      match line {
        case Stamped(at, message) => InsertLog(service, at, message, now);
        case Blank =>
        case Unparsed => RecordGap(Gap(now, service, Unparseable));
      }
    }

    /** `collect_docker`: every container in turn, then the containers that are gone. */
    method CollectDocker(queries: seq<Query>, end: int)
      requires Unique(store.rows, store.nextId) && Once(queries)
      modifies this`store
      ensures Unique(store.rows, store.nextId)
      ensures var readings := Readings(queries, old(store).cursors, end); var run := Run(end, Listed(readings), true);
        && (forall p :: p in Keys(store.rows) <==>
              p in Keys(old(store).rows) || exists r :: r in readings && p in Prints(filter, r.service, r.lines))
        && (forall g :: g in store.gaps <==> g in old(store).gaps || Missing(filter, old(store).seen, run, g))
        && (forall c :: c in store.cursors <==> c in old(store).cursors || CompleteIn(run, c))
        && (forall c :: c in store.cursors ==>
              store.cursors[c] == if CompleteIn(run, c) then end - OVERLAP else old(store).cursors[c])
        && store.seen == Names(readings)
    {
      hide Unique, Keys, Prints, ReadingGaps, Unread;
      ghost var readings := Readings(queries, store.cursors, end);
      forall r: Reading, g: Gap ensures g in ReadingGaps(filter, r, end) <==> Unread(filter, r, end, g) { GapsMean(filter, r, end, g); }
      var i := 0;
      while i < |queries|
        invariant 0 <= i <= |queries| && Unique(store.rows, store.nextId) && store.seen == old(store).seen
        invariant forall p :: p in Keys(store.rows) <==>
                    p in Keys(old(store).rows) || exists k :: 0 <= k < i && p in Prints(filter, readings[k].service, readings[k].lines)
        invariant forall g :: g in store.gaps <==>
                    g in old(store).gaps || exists k :: 0 <= k < i && g in ReadingGaps(filter, readings[k], end)
        invariant forall c :: c in store.cursors <==> c in old(store).cursors || ReadIn(readings[..i], c)
        invariant forall c :: c in store.cursors ==>
                    store.cursors[c] == if ReadIn(readings[..i], c) then end - OVERLAP else old(store).cursors[c]
      {
        NotYetRead(queries, readings, i);
        assert Start(store.cursors, queries[i].container, end) == Start(old(store).cursors, queries[i].container, end);
        CollectContainer(queries[i], end);
        ReadNext(readings, i);
        i := i + 1;
      }
      assert readings[..i] == readings;
      var names := set k | 0 <= k < |queries| :: queries[k].container;
      SameNames(queries, readings, names);
      ReportGone(store.seen - names, end);
      store := store.(seen := names);
    }

    /** Some of these reads of the container was complete. */
    ghost predicate ReadIn(readings: seq<Reading>, c: Container) {
      exists r :: r in readings && r.container == c && r.complete
    }

    lemma ReadNext(readings: seq<Reading>, i: nat)
      requires i < |readings|
      ensures forall c :: ReadIn(readings[..i + 1], c) <==> ReadIn(readings[..i], c) || (readings[i].container == c && readings[i].complete)
    {
      var all, some := readings[..i + 1], readings[..i];
      assert all == some + [readings[i]];
      forall c ensures ReadIn(all, c) <==> ReadIn(some, c) || (readings[i].container == c && readings[i].complete) {
        if ReadIn(all, c) {
          var r :| r in all && r.container == c && r.complete;
          assert r in some || r == readings[i];
        }
        if ReadIn(some, c) {
          var r :| r in some && r.container == c && r.complete;
          assert r in all;
        }
        if readings[i].container == c && readings[i].complete { assert readings[i] in all; }
      }
    }

    lemma NotYetRead(queries: seq<Query>, readings: seq<Reading>, i: nat)
      requires Once(queries) && |readings| == |queries| && i < |queries|
      requires forall k :: 0 <= k < |queries| ==> readings[k].container == queries[k].container
      ensures !ReadIn(readings[..i], queries[i].container)
    {
    }

    lemma SameNames(queries: seq<Query>, readings: seq<Reading>, names: set<Container>)
      requires |readings| == |queries| && forall k :: 0 <= k < |queries| ==> readings[k].container == queries[k].container
      requires names == set k | 0 <= k < |queries| :: queries[k].container
      ensures names == Names(readings)
    {
      forall c ensures c in names <==> c in Names(readings) {
        if c in names {
          var k :| 0 <= k < |queries| && queries[k].container == c;
          assert readings[k] in readings;
        }
      }
    }

    method ReportGone(gone: set<Container>, end: int)
      modifies this`store
      ensures store == old(store).(gaps := store.gaps)
      ensures forall g :: g in store.gaps <==>
                g in old(store).gaps || exists c :: c in gone && g == Gap(end, "docker", Disappeared(c))
    {
      var left := gone;
      while left != {}
        invariant left <= gone && store == old(store).(gaps := store.gaps)
        invariant forall g :: g in store.gaps <==>
                    g in old(store).gaps || exists c :: c in gone - left && g == Gap(end, "docker", Disappeared(c))
        decreases left
      {
        var c :| c in left;
        RecordGap(Gap(end, "docker", Disappeared(c)));
        left := left - {c};
      }
    }

    /** `prune_history` */
    method PruneHistory(cutoff: int)
      requires Unique(store.rows, store.nextId)
      modifies this`store
      ensures Unique(store.rows, store.nextId)
      ensures forall p :: p in Keys(store.rows) <==> p in Keys(old(store).rows) && cutoff <= p.at
      ensures forall g :: g in store.gaps <==> g in old(store).gaps && cutoff <= g.at
      ensures store == old(store).(rows := store.rows, gaps := store.gaps)
    {
      hide Unique;
      RowsFromUnique(store.rows, cutoff, store.nextId);
      store := store.(rows := RowsFrom(store.rows, cutoff), gaps := GapsFrom(store.gaps, cutoff));
    }

    /** One run as a transaction: the containers, then the end of retention. */
    method Transact(i: Inquiry)
      requires Unique(store.rows, store.nextId) && (i.census.Known? ==> Once(i.census.queries))
      modifies this`store
      ensures Effect(filter, old(store), Answered(i, old(store).cursors), store)
    {
      hide Unique, Keys, Missing, Readings, Once;
      ghost var run := Answered(i, store.cursors);
      if i.census.Known? {
        CollectDocker(i.census.queries, i.end);
      } else {
        RecordGap(if i.census.Suspended? then Gap(i.end, "storage", Paused) else Gap(i.end, "docker", InventoryFailed));
      }
      assert forall g :: g in store.gaps <==> g in old(store).gaps || Missing(filter, old(store).seen, run, g) by {
        SameGaps(old(store).seen, run);
      }
      PruneHistory(i.end - RETENTION);
    }

    lemma SameGaps(seen: set<Container>, run: Run)
      ensures !run.inventory.Listed? ==> forall g :: Missing(filter, seen, run, g) <==> g == NoInventory(run)
      ensures forall g :: Missing(filter, seen, run, g) <==> Missing(filter, seen, run.(committed := true), g)
    {
    }

    /** `collect`, as far as containers go: rows, gaps and cursors are committed together, or not at all. */
    method Collect(i: Inquiry, ghost earlier: seq<Run>)
      requires Holds(filter, earlier, store) && Orderly(earlier + [AnsweredAfter(earlier, i)])
      requires i.census.Known? ==> Once(i.census.queries)
      modifies this`store
      ensures Holds(filter, earlier + [AnsweredAfter(earlier, i)], store)
      ensures !i.committed ==> store == old(store)
    {
      hide Effect, Orderly, Reported, Delivered, LastComplete, Seen, Retained, Once;
      var before := store;
      CursorSince(filter, earlier, store, i);
      ghost var run := Answered(i, store.cursors);
      Transact(i);
      if i.committed {
        Commit(filter, earlier, run, before, store);
      } else {
        store := before;
        Lost(filter, earlier, run, store);
      }
    }
  }

  // ---------------------------------------------------------------- one run more

  /** What one transaction makes of a store. */
  ghost predicate Effect(f: Filter, s: Store, run: Run, t: Store) {
    var done := run.(committed := true);
    && Unique(t.rows, t.nextId)
    && (forall p :: p in Keys(t.rows) <==> (p in Keys(s.rows) || DeliveredIn(f, done, p)) && run.end - RETENTION <= p.at)
    && (forall g :: g in t.gaps <==> (g in s.gaps || Missing(f, s.seen, run, g)) && run.end - RETENTION <= g.at)
    && (forall c :: c in t.cursors <==> c in s.cursors || CompleteIn(done, c))
    && (forall c :: c in t.cursors ==> t.cursors[c] == if CompleteIn(done, c) then run.end - OVERLAP else s.cursors[c])
    && t.seen == if run.inventory.Listed? then Names(run.inventory.readings) else s.seen
  }

  lemma OneMore(f: Filter, runs: seq<Run>)
    requires runs != []
    ensures var n := |runs| - 1;
      && (forall p :: Delivered(f, runs, p) <==> Delivered(f, runs[..n], p) || DeliveredIn(f, runs[n], p))
      && (forall g :: Reported(f, runs, g) <==>
            Reported(f, runs[..n], g) || (runs[n].committed && Missing(f, Seen(runs[..n]), runs[n], g)))
  {
    hide DeliveredIn, Missing, Seen;
    var n := |runs| - 1;
    forall p ensures Delivered(f, runs, p) <==> Delivered(f, runs[..n], p) || DeliveredIn(f, runs[n], p) {
      if Delivered(f, runs[..n], p) {
        var i :| 0 <= i < n && DeliveredIn(f, runs[..n][i], p);
        assert DeliveredIn(f, runs[i], p);
      }
      if Delivered(f, runs, p) && !DeliveredIn(f, runs[n], p) {
        var i :| 0 <= i < |runs| && DeliveredIn(f, runs[i], p);
        assert DeliveredIn(f, runs[..n][i], p);
      }
    }
    forall g
      ensures Reported(f, runs, g) <==>
                Reported(f, runs[..n], g) || (runs[n].committed && Missing(f, Seen(runs[..n]), runs[n], g))
    {
      if Reported(f, runs[..n], g) {
        var i :| 0 <= i < n && runs[..n][i].committed && Missing(f, Seen(runs[..n][..i]), runs[..n][i], g);
        assert runs[..n][..i] == runs[..i];
        assert runs[i].committed && Missing(f, Seen(runs[..i]), runs[i], g);
      }
      if Reported(f, runs, g) && !(runs[n].committed && Missing(f, Seen(runs[..n]), runs[n], g)) {
        var i :| 0 <= i < |runs| && runs[i].committed && Missing(f, Seen(runs[..i]), runs[i], g);
        assert runs[..n][..i] == runs[..i];
        assert runs[..n][i].committed && Missing(f, Seen(runs[..n][..i]), runs[..n][i], g);
      }
    }
  }

  lemma Commit(f: Filter, earlier: seq<Run>, run: Run, s: Store, t: Store)
    requires Holds(f, earlier, s) && Orderly(earlier + [run]) && run.committed && Effect(f, s, run, t)
    ensures Holds(f, earlier + [run], t)
  {
    hide Orderly, Unique, Keys, Delivered, DeliveredIn, Reported, Missing, CompleteIn;
    var runs := earlier + [run];
    assert runs[..|runs| - 1] == earlier;
    assert run.(committed := true) == run;
    OneMore(f, runs);
    CutoffRises(runs);
  }

  lemma Lost(f: Filter, earlier: seq<Run>, run: Run, s: Store)
    requires Holds(f, earlier, s) && !run.committed
    ensures Holds(f, earlier + [run], s)
  {
    hide Unique, Keys, Delivered, Reported, Missing;
    var runs := earlier + [run];
    assert runs[..|runs| - 1] == earlier;
    OneMore(f, runs);
  }

  /** Over any history of runs, whatever failed, was cut short or was lost: rows and gaps are exactly those
      delivered and reported within retention, no fingerprint twice, no text is stored as it came, and every line a container wrote up to two
      seconds before its last complete read, and within retention, is stored. */
  method Lifetime(filter: Filter, ghost w: World, inquiries: seq<Inquiry>) returns (store: Store)
    requires Regular(w, inquiries)
    ensures Holds(filter, History(inquiries), store)
    ensures forall c, l :: l in w.written(c) && Covered(History(inquiries), c, l) ==>
              exists text :: Sanitized(filter, l.message, text) && Fingerprint(w.named(c), l.at, text) in Keys(store.rows)
    ensures forall p :: p in Keys(store.rows) ==> Safe(filter, p.text) && exists message :: Sanitized(filter, message, p.text)
  {
    hide Orderly, FaithfulHistory, LastComplete, Seen, Regular, AnsweredAfter, Candid;
    var c := new Collector(filter);
    var i := 0;
    while i < |inquiries|
      invariant 0 <= i <= |inquiries| && c.filter == filter && Holds(filter, History(inquiries[..i]), c.store)
    {
      SoFar(w, inquiries, i);
      c.Collect(inquiries[i], History(inquiries[..i]));
      i := i + 1;
    }
    assert inquiries[..i] == inquiries;
    store := c.store;
    HistoryFaithful(w, inquiries);
    forall c, l | l in w.written(c) && Covered(History(inquiries), c, l)
      ensures exists text :: Sanitized(filter, l.message, text) && Fingerprint(w.named(c), l.at, text) in Keys(store.rows)
    {
      NothingMissed(filter, w, History(inquiries), c, l);
      assert Sanitized(filter, l.message, Clean(filter, l.message));
    }
    forall p | p in Keys(store.rows) ensures Safe(filter, p.text) && exists message :: Sanitized(filter, message, p.text) {
      DeliveredSafe(filter, History(inquiries), p);
    }
  }

  /** Whatever a run delivered was sanitized first. */
  lemma DeliveredSafe(f: Filter, runs: seq<Run>, p: Fingerprint)
    requires Delivered(f, runs, p)
    ensures Safe(f, p.text) && exists message :: Sanitized(f, message, p.text)
  {
    var i :| 0 <= i < |runs| && DeliveredIn(f, runs[i], p);
    var r :| r in runs[i].inventory.readings && p in Prints(f, r.service, r.lines);
    var l :| l in r.lines && l.Stamped? && p == FingerprintOf(f, r.service, l);
    assert Sanitized(f, l.message, p.text);
  }

  lemma SoFar(w: World, inquiries: seq<Inquiry>, i: nat)
    requires Regular(w, inquiries) && i < |inquiries|
    ensures History(inquiries[..i + 1]) == History(inquiries[..i]) + [AnsweredAfter(History(inquiries[..i]), inquiries[i])]
    ensures Orderly(History(inquiries[..i + 1])) && (inquiries[i].census.Known? ==> Once(inquiries[i].census.queries))
  {
    assert inquiries[..i + 1][..i] == inquiries[..i] && inquiries[i] in inquiries;
  }

  /** A read that failed is on record for as long as its lines would be. */
  lemma FailureReported(f: Filter, runs: seq<Run>, s: Store, i: nat, r: Reading)
    requires Holds(f, runs, s) && i < |runs| && runs[i].committed && runs[i].inventory.Listed?
    requires r in runs[i].inventory.readings && !r.complete && Retained(runs, runs[i].end)
    ensures Gap(runs[i].end, r.service, CaptureFailed) in s.gaps
  {
    var g := Gap(runs[i].end, r.service, CaptureFailed);
    assert Unread(f, r, runs[i].end, g);
    assert Missing(f, Seen(runs[..i]), runs[i], g);
  }
}
