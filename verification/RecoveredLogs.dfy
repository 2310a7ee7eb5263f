/** Review of logs that precede a recovery: splitting into records, what may be accepted, and the incident accounts. */
module RecoveredLogs {
  import opened Sequences
  import opened Wrappers

  /** Whole microseconds. */
  const SECOND: int := 1_000_000
  const ASSET_TASK := "memberaudit.tasks.assets_build_list_from_esi"
  const WITHHELD := "[2000-01-01 00:00:00: ERROR/MainProcess] Unrecognized ESI metadata log record; payload withheld"
  const RETAINED := "[2000-01-01 00:00:00: INFO/MainProcess] Reviewed record retained"

  type Source = string
  type Record = seq<string>

  datatype Level = Debug | Error | Otherwise

  datatype Header = Header(at: int, level: Level, logger: string)

  datatype Kind =
    | IdentityMetadata | TaskError | AssetTaskError | AssetNotFound | RateLimit | Unavailable | SchemaModelName | CallbackMiss

  /** What the regular expressions and literal parsers find in a record. */
  datatype Facts = Facts(identity: bool, fatal: bool, hard: bool, trace: bool, task: Option<string>,
                         character: Option<nat>, discord: Option<Kind>, web: Option<Kind>)

  datatype Verdict = Rejected | Accepted(kind: Kind) | Unknown

  datatype Incident = Incident(at: int, characters: set<nat>, consumed: nat)

  /** A retained record. */
  datatype Entry = Entry(kind: Kind, source: Source, at: int, lines: Record)

  datatype Group = Group(records: nat, first: int, last: int, digest: seq<Record>)

  // ---------------------------------------------------------------- Records

  function Flatten(parts: seq<Record>): Record {
    if parts == [] then [] else Flatten(parts[..|parts| - 1]) + parts[|parts| - 1]
  }

  lemma {:induction false} FlattenFront(part: Record, parts: seq<Record>)
    ensures Flatten([part] + parts) == part + Flatten(parts)
  {
    var all := [part] + parts;
    if parts == [] {
      assert all[..0] == [] && Flatten([]) == [];
      assert Flatten(all) == part;
    } else {
      assert all[..|all| - 1] == [part] + parts[..|parts| - 1];
      FlattenFront(part, parts[..|parts| - 1]);
      assert all[|all| - 1] == parts[|parts| - 1];
    }
  }

  /** A record is its first line and every line after it that opens no record of its own. */
  predicate IsRecord(opens: string -> bool, part: Record) {
    part != [] && forall i :: 0 < i < |part| ==> !opens(part[i])
  }

  /** The lines in order, cut exactly before the headers. */
  ghost predicate IsPartition(opens: string -> bool, lines: seq<string>, parts: seq<Record>) {
    && Flatten(parts) == lines
    && (forall p :: p in parts ==> IsRecord(opens, p))
    && forall i :: 0 < i < |parts| ==> parts[i] != [] && opens(parts[i][0])
  }

  /** The end of the first record is where the next header is. */
  lemma FirstRecord(opens: string -> bool, lines: seq<string>, parts: seq<Record>)
    requires IsPartition(opens, lines, parts) && parts != []
    ensures |parts[0]| <= |lines| && parts[0] == lines[..|parts[0]|] && Flatten(parts[1..]) == lines[|parts[0]|..]
    ensures |parts[0]| < |lines| ==> opens(lines[|parts[0]|])
    ensures IsPartition(opens, lines[|parts[0]|..], parts[1..]) && IsRecord(opens, parts[0])
  {
    assert parts == [parts[0]] + parts[1..];
    FlattenFront(parts[0], parts[1..]);
    if |parts| > 1 {
      assert parts[1..] == [parts[1]] + parts[2..];
      FlattenFront(parts[1], parts[2..]);
      assert parts[1] in parts;
    }
    forall p | p in parts[1..] ensures IsRecord(opens, p) {
      assert p in parts;
    }
  }

  /** A record ends before the next line that opens one. */
  lemma NotBeyond(opens: string -> bool, lines: seq<string>, part: Record, n: nat)
    requires IsRecord(opens, part) && |part| <= |lines| && part == lines[..|part|]
    requires 0 < n <= |lines| && (n < |lines| ==> opens(lines[n]))
    ensures |part| <= n
  {
    if n < |part| { assert false; }
  }

  /** There is only one way to cut the lines. */
  lemma {:induction false} PartitionUnique(opens: string -> bool, lines: seq<string>, a: seq<Record>, b: seq<Record>)
    requires IsPartition(opens, lines, a) && IsPartition(opens, lines, b)
    ensures a == b
    decreases |a|
  {
    if a != [] { FirstRecord(opens, lines, a); }
    if b != [] { FirstRecord(opens, lines, b); }
    if lines != [] {
      NotBeyond(opens, lines, a[0], |b[0]|);
      NotBeyond(opens, lines, b[0], |a[0]|);
      PartitionUnique(opens, lines[|a[0]|..], a[1..], b[1..]);
      assert a == [a[0]] + a[1..] && b == [b[0]] + b[1..];
    }
  }

  /** `records` */
  method Records(opens: string -> bool, lines: seq<string>) returns (parts: seq<Record>)
    ensures IsPartition(opens, lines, parts)
  {
    hide Flatten;
    parts := [];
    var current: Record := [];
    var i := 0;
    NoParts();
    while i < |lines|
      invariant 0 <= i <= |lines|
      invariant Flatten(parts) + current == lines[..i]
      invariant forall p :: p in parts ==> IsRecord(opens, p)
      invariant current != [] ==> IsRecord(opens, current)
      invariant current == [] ==> i == 0 && parts == []
      invariant forall k :: 0 < k < |parts| ==> parts[k] != [] && opens(parts[k][0])
      invariant parts != [] && current != [] ==> opens(current[0])
    {
      if opens(lines[i]) && current != [] {
        Close(parts, current);
        parts := parts + [current];
        current := [];
        assert Flatten(parts) == lines[..i];
      }
      Extend(Flatten(parts), current, lines, i);
      current := current + [lines[i]];
      i := i + 1;
    }
    assert lines[..i] == lines;
    if current != [] {
      Close(parts, current);
      parts := parts + [current];
    }
  }

  lemma NoParts()
    ensures Flatten([]) == []
  {
  }

  lemma Close(parts: seq<Record>, current: Record)
    ensures Flatten(parts + [current]) == Flatten(parts) + current
  {
    assert (parts + [current])[..|parts|] == parts;
  }

  lemma Extend(done: seq<string>, current: Record, lines: seq<string>, i: nat)
    requires i < |lines| && done + current == lines[..i]
    ensures done + (current + [lines[i]]) == lines[..i + 1]
  {
    assert done + (current + [lines[i]]) == (done + current) + [lines[i]];
  }

  // ---------------------------------------------------------------- Accounts

  /** The retained records of one kind and source, of one time or of any. */
  function Select(log: seq<Entry>, kind: Kind, source: Source, when: Option<int>): seq<Entry> {
    if log == [] then [] else
      var e := log[|log| - 1];
      Select(log[..|log| - 1], kind, source, when)
      + if e.kind == kind && e.source == source && (when.None? || e.at == when.value) then [e] else []
  }

  lemma SelectNext(log: seq<Entry>, e: Entry, kind: Kind, source: Source, when: Option<int>)
    ensures Select(log + [e], kind, source, when) == Select(log, kind, source, when)
            + if e.kind == kind && e.source == source && (when.None? || e.at == when.value) then [e] else []
  {
    assert (log + [e])[..|log|] == log;
  }

  /** How many more task errors the open incident of a source excuses. */
  function Credit(incidents: map<Source, Incident>, source: Source, when: Option<int>): int {
    if source in incidents && (when.None? || incidents[source].at == when.value)
    then |incidents[source].characters| - incidents[source].consumed else 0
  }

  /** Task errors excused so far, and those the open incident would still excuse, are covered by 404 records. */
  ghost predicate Covered(incidents: map<Source, Incident>, log: seq<Entry>) {
    && (forall s :: s in incidents ==> incidents[s].consumed <= |incidents[s].characters|)
    && forall s, when :: |Select(log, AssetTaskError, s, when)| + Credit(incidents, s, when) <= |Select(log, AssetNotFound, s, when)|
  }

  /** On every prefix of the record stream, per source and per event time, task errors never exceed 404 records. */
  ghost predicate Balanced(log: seq<Entry>) {
    forall n, s, when :: 0 <= n <= |log| ==>
      |Select(log[..n], AssetTaskError, s, when)| <= |Select(log[..n], AssetNotFound, s, when)|
  }

  /** Each group counts, bounds and digests exactly the retained records of its kind and source. */
  ghost predicate IsGroup(g: Group, entries: seq<Entry>) {
    && g.records == |entries| > 0
    && (forall e :: e in entries ==> g.first <= e.at <= g.last)
    && (exists e :: e in entries && e.at == g.first)
    && (exists e :: e in entries && e.at == g.last)
    && g.digest == seq(|entries|, i requires 0 <= i < |entries| => entries[i].lines)
  }

  ghost predicate Summarised(groups: map<(Kind, Source), Group>, log: seq<Entry>) {
    && (forall k, s :: (k, s) in groups <==> Select(log, k, s, None) != [])
    && (forall k, s :: (k, s) in groups ==> IsGroup(groups[(k, s)], Select(log, k, s, None)))
  }

  lemma GroupNext(g: Group, entries: seq<Entry>, e: Entry)
    requires IsGroup(g, entries)
    ensures IsGroup(Group(g.records + 1, if e.at < g.first then e.at else g.first, if e.at > g.last then e.at else g.last,
                          g.digest + [e.lines]), entries + [e])
  {
    var all := entries + [e];
    var first :| first in entries && first.at == g.first;
    var last :| last in entries && last.at == g.last;
    assert first in all && last in all && all[|entries|] == e;
  }

  lemma FirstGroup(e: Entry)
    ensures IsGroup(Group(1, e.at, e.at, [e.lines]), [e])
  {
    assert [e][0] == e;
  }

  lemma BalancedNext(incidents: map<Source, Incident>, log: seq<Entry>, e: Entry)
    requires Balanced(log) && Covered(incidents, log + [e])
    ensures Balanced(log + [e])
  {
    forall n, s, when | 0 <= n <= |log| + 1
      ensures |Select((log + [e])[..n], AssetTaskError, s, when)| <= |Select((log + [e])[..n], AssetNotFound, s, when)|
    {
      if n <= |log| {
        assert (log + [e])[..n] == log[..n];
      } else {
        assert (log + [e])[..n] == log + [e];
        assert Credit(incidents, s, when) >= 0;
      }
    }
  }

  lemma Solvent(incidents: map<Source, Incident>, log: seq<Entry>, source: Source)
    requires Covered(incidents, log)
    ensures source in incidents ==> incidents[source].consumed <= |incidents[source].characters|
  {
  }

  /** Excusing a task error spends the incident's credit. */
  lemma Spend(incidents: map<Source, Incident>, log: seq<Entry>, e: Entry)
    requires Covered(incidents, log) && e.kind == AssetTaskError
    requires e.source in incidents && incidents[e.source].at == e.at && incidents[e.source].consumed < |incidents[e.source].characters|
    ensures Covered(incidents[e.source := incidents[e.source].(consumed := incidents[e.source].consumed + 1)], log + [e])
  {
    var next := incidents[e.source := incidents[e.source].(consumed := incidents[e.source].consumed + 1)];
    forall s, when
      ensures |Select(log + [e], AssetTaskError, s, when)| + Credit(next, s, when) <= |Select(log + [e], AssetNotFound, s, when)|
    {
      SelectNext(log, e, AssetTaskError, s, when);
      SelectNext(log, e, AssetNotFound, s, when);
      assert |Select(log, AssetTaskError, s, when)| + Credit(incidents, s, when) <= |Select(log, AssetNotFound, s, when)|;
    }
  }

  /** The incident a 404 record of this time and character leaves. */
  function Opened(incidents: map<Source, Incident>, source: Source, at: int, character: nat): Incident {
    if source in incidents && incidents[source].at == at
    then incidents[source].(characters := incidents[source].characters + {character})
    else Incident(at, {character}, 0)
  }

  lemma OneMore(characters: set<nat>, character: nat)
    ensures |characters| <= |characters + {character}| <= |characters| + 1
  {
    if character in characters { assert characters + {character} == characters; }
  }

  /** A 404 record earns at most one credit, also when it replaces the incident of another time. */
  lemma Earn(incidents: map<Source, Incident>, log: seq<Entry>, e: Entry, character: nat)
    requires Covered(incidents, log) && e.kind == AssetNotFound
    ensures Covered(incidents[e.source := Opened(incidents, e.source, e.at, character)], log + [e])
  {
    var next := incidents[e.source := Opened(incidents, e.source, e.at, character)];
    if e.source in incidents { OneMore(incidents[e.source].characters, character); }
    forall s, when
      ensures |Select(log + [e], AssetTaskError, s, when)| + Credit(next, s, when) <= |Select(log + [e], AssetNotFound, s, when)|
    {
      SelectNext(log, e, AssetTaskError, s, when);
      SelectNext(log, e, AssetNotFound, s, when);
      assert 0 <= Credit(incidents, s, when);
      assert |Select(log, AssetTaskError, s, when)| + Credit(incidents, s, when) <= |Select(log, AssetNotFound, s, when)|;
    }
  }

  /** Every other kind leaves the accounts alone. */
  lemma Neutral(incidents: map<Source, Incident>, log: seq<Entry>, e: Entry)
    requires Covered(incidents, log) && e.kind != AssetNotFound && e.kind != AssetTaskError
    ensures Covered(incidents, log + [e])
  {
    forall s, when
      ensures |Select(log + [e], AssetTaskError, s, when)| + Credit(incidents, s, when) <= |Select(log + [e], AssetNotFound, s, when)|
    {
      SelectNext(log, e, AssetTaskError, s, when);
      SelectNext(log, e, AssetNotFound, s, when);
    }
  }

  // ---------------------------------------------------------------- Review

  function Least(s: seq<int>): (least: int)
    requires s != []
    ensures least in s && forall y :: y in s ==> least <= y
  {
    if |s| == 1 then s[0] else
      assert s == [s[0]] + s[1..];
      var least := Least(s[1..]);
      if s[0] < least then s[0] else least
  }

  /** The last run of each character in the snapshot's rows. */
  function Runs(rows: seq<(nat, int)>): (runs: map<nat, int>)
    ensures forall c :: c in runs ==> exists i :: 0 <= i < |rows| && rows[i].0 == c
    ensures forall i :: 0 <= i < |rows| ==> rows[i].0 in runs
  {
    if rows == [] then map[] else
      var n := |rows| - 1;
      assert rows == rows[..n] + [rows[n]];
      Runs(rows[..n])[rows[n].0 := rows[n].1]
  }

  /** The oldest of the runs of these rows. */
  function Oldest(rows: seq<(nat, int)>, runs: map<nat, int>): (oldest: int)
    requires rows != [] && forall i :: 0 <= i < |rows| ==> rows[i].0 in runs
    ensures forall i :: 0 <= i < |rows| ==> oldest <= runs[rows[i].0]
    ensures exists i :: 0 <= i < |rows| && oldest == runs[rows[i].0]
  {
    var n := |rows| - 1;
    var last := runs[rows[n].0];
    if n == 0 then last else
      assert forall i :: 0 <= i < n ==> rows[..n][i] == rows[i];
      var oldest := Oldest(rows[..n], runs);
      if last < oldest then last else oldest
  }

  class RecoveredLogReview {
    const header: string -> Option<Header>
    const facts: Record -> Facts
    const taskRuns: map<string, seq<int>>
    const assetRuns: map<nat, int>
    const aliases: map<nat, nat>
    const startedAt: int
    const taskSuccess: map<string, int>
    const allAssets: int
    var incidents: map<Source, Incident>
    var groups: map<(Kind, Source), Group>
    ghost var log: seq<Entry>

    ghost predicate Valid()
      reads this
    {
      Covered(incidents, log) && Balanced(log) && Summarised(groups, log)
    }

    /** The caller has validated the snapshot: there are assets, and every task has a run. */
    constructor (header: string -> Option<Header>, facts: Record -> Facts, taskRuns: map<string, seq<int>>,
                 assetRows: seq<(nat, int)>, aliases: map<nat, nat>, startedAt: int)
      requires assetRows != [] && forall t :: t in taskRuns ==> taskRuns[t] != []
      ensures Valid() && log == [] && groups == map[] && incidents == map[]
      ensures this.header == header && this.facts == facts && this.taskRuns == taskRuns && assetRuns == Runs(assetRows)
      ensures this.aliases == aliases && this.startedAt == startedAt - startedAt % SECOND && Clocks()
    {
      this.header, this.facts, this.taskRuns, assetRuns := header, facts, taskRuns, Runs(assetRows);
      this.aliases, this.startedAt := aliases, startedAt - startedAt % SECOND;
      taskSuccess := map t | t in taskRuns :: Least(taskRuns[t]);
      allAssets := Oldest(assetRows, Runs(assetRows));
      incidents, groups, log := map[], map[], [];
    }

    /** The success clocks are the oldest of the runs they stand for. */
    ghost predicate Clocks() {
      && taskSuccess.Keys == taskRuns.Keys
      && (forall t :: t in taskSuccess ==> taskSuccess[t] in taskRuns[t])
      && (forall t, r :: t in taskSuccess && r in taskRuns[t] ==> taskSuccess[t] <= r)
      && (forall c :: c in assetRuns ==> allAssets <= assetRuns[c])
      && exists c :: c in assetRuns && allAssets == assetRuns[c]
    }

    predicate Opens(line: string) {
      header(line).Some?
    }

    /** What must be so of a record for it to be kept out of the strict scan: it ended before this review began,
        and every run that shows the recovery finished at or after its end. */
    ghost predicate Excusable(kind: Kind, lines: Record) {
      && lines != [] && Opens(lines[0])
      && var h, f := header(lines[0]).value, facts(lines);
      match kind
      case IdentityMetadata => f.identity && h.level == Debug
      case TaskError => ErrorOf(h, f) && f.task.Some? && f.task.value in taskRuns && forall r :: r in taskRuns[f.task.value] ==> h.at + SECOND <= r
      case AssetTaskError => ErrorOf(h, f) && f.task == Some(ASSET_TASK) && forall c :: c in assetRuns ==> h.at + SECOND <= assetRuns[c]
      case AssetNotFound => ErrorOf(h, f) && f.character.Some? && Current(f.character.value) in assetRuns && h.at + SECOND <= assetRuns[Current(f.character.value)]
      case RateLimit => ErrorBefore(h, f) && f.discord == Some(kind)
      case Unavailable => ErrorBefore(h, f) && f.discord == Some(kind)
      case SchemaModelName => h.level == Debug && h.at + SECOND <= startedAt && f.web == Some(kind)
      case CallbackMiss => h.level == Debug && h.at + SECOND <= startedAt && f.web == Some(kind)
    }

    ghost predicate ErrorBefore(h: Header, f: Facts) {
      h.level == Error && h.at + SECOND <= startedAt && !f.hard
    }

    ghost predicate ErrorOf(h: Header, f: Facts) {
      ErrorBefore(h, f) && f.trace
    }

    function Current(character: nat): nat {
      if character in aliases then aliases[character] else character
    }

    /** `classify_web_debug` */
    function ClassifyWebDebug(lines: Record): (v: Verdict)
      ensures v != Unknown
      ensures v.Accepted? ==> Excusable(v.kind, lines) && v.kind in {SchemaModelName, CallbackMiss}
    {
      if lines == [] || header(lines[0]).None? then Rejected else
        var h := header(lines[0]).value;
        if h.level != Debug || h.at + SECOND > startedAt then Rejected else
          match facts(lines).web
          case Some(SchemaModelName) => Accepted(SchemaModelName)
          case Some(CallbackMiss) => Accepted(CallbackMiss)
          case _ => Rejected
    }

    /** The account of a 404 record; the incident of another time gives way to a new one. */
    method Open(lines: Record, source: Source, at: int, character: nat)
      requires Covered(incidents, log)
      modifies this`incidents
      ensures incidents == old(incidents)[source := Opened(old(incidents), source, at, character)]
      ensures Covered(incidents, log + [Entry(AssetNotFound, source, at, lines)])
    {
      hide Covered;
      Earn(incidents, log, Entry(AssetNotFound, source, at, lines), character);
      if source !in incidents || incidents[source].at != at {
        incidents := incidents[source := Incident(at, {}, 0)];
      }
      var incident := incidents[source];
      incidents := incidents[source := incident.(characters := incident.characters + {character})];
      assert incidents[source] == Opened(old(incidents), source, at, character);
    }

    lemma Told(lines: Record)
      ensures Metadata(lines) ==> lines != [] && Opens(lines[0]) && header(lines[0]).value.level == Debug
      ensures FromCelery(lines) ==> lines != [] && Opens(lines[0]) && header(lines[0]).value.logger == "celery"
      ensures lines != [] && Opens(lines[0]) && header(lines[0]).value.level == Debug ==>
                (Metadata(lines) <==> header(lines[0]).value.logger == "esi.managers" && !facts(lines).identity && facts(lines).fatal)
    {
    }

    /** `classify` */
    method Classify(lines: Record, servicesWorker: bool, source: Source) returns (v: Verdict)
      requires Clocks() && Covered(incidents, log)
      modifies this`incidents
      ensures v.Accepted? ==> Excusable(v.kind, lines)
      ensures v.Accepted? ==> Covered(incidents, log + [Entry(v.kind, source, At(lines), lines)])
      ensures FromCelery(lines) ==>
                && (Excusable(TaskError, lines) ==> v.Accepted?)
                && (Excusable(AssetNotFound, lines) ==> v.Accepted?)
                && (Excusable(AssetTaskError, lines) && v == Rejected ==> Credit(old(incidents), source, Some(At(lines))) == 0)
      ensures !v.Accepted? ==> incidents == old(incidents)
      ensures forall s :: s != source ==> (s in incidents <==> s in old(incidents)) && (s in incidents ==> incidents[s] == old(incidents)[s])
      ensures v == Unknown <==> Metadata(lines)
    {
      hide Covered, Select, Metadata, FromCelery;
      Told(lines);
      Solvent(incidents, log, source);
      if lines == [] || header(lines[0]).None? { return Rejected; }
      var h, f := header(lines[0]).value, facts(lines);
      var end := h.at + SECOND;
      if h.level == Debug && h.logger == "esi.managers" {
        if f.identity {
          Neutral(incidents, log, Entry(IdentityMetadata, source, h.at, lines));
          return Accepted(IdentityMetadata);
        }
        return if f.fatal then Unknown else Rejected;
      }
      if end > startedAt || f.hard { return Rejected; }
      if h.level == Error && h.logger == "celery" && f.task.Some? && f.trace {
        if f.task.value in taskSuccess && taskSuccess[f.task.value] >= end {
          Neutral(incidents, log, Entry(TaskError, source, h.at, lines));
          return Accepted(TaskError);
        }
        if f.task.value == ASSET_TASK && allAssets >= end {
          if source in incidents && incidents[source].at == h.at && incidents[source].consumed < |incidents[source].characters| {
            Spend(incidents, log, Entry(AssetTaskError, source, h.at, lines));
            incidents := incidents[source := incidents[source].(consumed := incidents[source].consumed + 1)];
            return Accepted(AssetTaskError);
          }
        }
      }
      if h.level == Error && h.logger in {"celery", "memberaudit.models.characters"} && f.character.Some? && f.trace {
        var current := Current(f.character.value);
        if current in assetRuns && assetRuns[current] >= end {
          Open(lines, source, h.at, f.character.value);
          return Accepted(AssetNotFound);
        }
      }
      if servicesWorker && h.level == Error
         && h.logger in {"celery", "allianceauth.services.modules.discord.discord_client.client"}
         && f.discord.Some? && f.discord.value in {RateLimit, Unavailable} {
        Neutral(incidents, log, Entry(f.discord.value, source, h.at, lines));
        return Accepted(f.discord.value);
      }
      return Rejected;
    }

    /** `retain` */
    method Retain(kind: Kind, source: Source, lines: Record, at: int)
      requires Balanced(log) && Summarised(groups, log) && Covered(incidents, log + [Entry(kind, source, at, lines)])
      modifies this`groups, this`log
      ensures Valid() && log == old(log) + [Entry(kind, source, at, lines)]
    {
      ghost var e := Entry(kind, source, at, lines);
      ghost var mine := Select(log, kind, source, None);
      BalancedNext(incidents, log, e);
      if (kind, source) !in groups {
        FirstGroup(e);
        groups := groups[(kind, source) := Group(0, at, at, [])];
      } else {
        GroupNext(groups[(kind, source)], mine, e);
      }
      var g := groups[(kind, source)];
      groups := groups[(kind, source) := Group(g.records + 1, if at < g.first then at else g.first,
                                               if at > g.last then at else g.last, g.digest + [lines])];
      assert IsGroup(groups[(kind, source)], mine + [e]);
      Regroup(old(groups), log, e, groups[(kind, source)]);
      log := log + [e];
    }

    /** The lines the strict scan still sees: a record that was accepted or withheld leaves one marker line. */
    static function Left(lines: Record, v: Verdict): Record {
      match v
      case Rejected => lines
      case Accepted(_) => [RETAINED]
      case Unknown => [WITHHELD]
    }

    /** Entries of the log for the records at these places, in order. */
    ghost predicate Entered(parts: seq<Record>, verdicts: seq<Verdict>, source: Source, places: seq<nat>, entries: seq<Entry>)
      requires |parts| == |verdicts|
    {
      && |entries| == |places| && Rising(places)
      && (forall i :: i in places <==> 0 <= i < |parts| && verdicts[i].Accepted?)
      && (forall k :: 0 <= k < |places| && places[k] < |parts| && verdicts[places[k]].Accepted? ==>
            && parts[places[k]] != [] && Opens(parts[places[k]][0])
            && entries[k] == Entry(verdicts[places[k]].kind, source, header(parts[places[k]][0]).value.at, parts[places[k]]))
    }

    /** The verdict on a record, and what is left of it: all of its lines, or one line in their place. */
    ghost predicate Reviewed(part: Record, v: Verdict, left: Record, web: bool) {
      && (v.Rejected? ==> left == part)
      && (v.Accepted? ==> left == ["[2000-01-01 00:00:00: INFO/MainProcess] Reviewed record retained"])
      && (v.Unknown? ==> left == ["[2000-01-01 00:00:00: ERROR/MainProcess] Unrecognized ESI metadata log record; payload withheld"])
      && (v.Accepted? ==> part != [] && Opens(part[0]) && Excusable(v.kind, part))
      && (v.Unknown? <==> !web && Metadata(part))
      && (!web && FromCelery(part) && (Excusable(TaskError, part) || Excusable(AssetNotFound, part)) ==> v.Accepted?)
    }

    function At(lines: Record): int
      requires lines != [] && Opens(lines[0])
    {
      header(lines[0]).value.at
    }

    lemma NextEntry(parts: seq<Record>, verdicts: seq<Verdict>, v: Verdict, source: Source, places: seq<nat>, entries: seq<Entry>)
      requires |verdicts| < |parts| && Entered(parts[..|verdicts|], verdicts, source, places, entries)
      requires v.Accepted? ==> parts[|verdicts|] != [] && Opens(parts[|verdicts|][0])
      ensures var i := |verdicts|;
        if v.Accepted?
        then Entered(parts[..i + 1], verdicts + [v], source, places + [i], entries + [Entry(v.kind, source, At(parts[i]), parts[i])])
        else Entered(parts[..i + 1], verdicts + [v], source, places, entries)
    {
      var i, more := |verdicts|, verdicts + [v];
      assert forall k :: 0 <= k < i ==> more[k] == verdicts[k] && parts[..i + 1][k] == parts[..i][k];
      assert forall k :: 0 <= k < |places| ==> places[k] in places;
      if v.Accepted? {
        assert forall p :: p in places + [i] <==> p in places || p == i;
      }
    }

    lemma FlattenNext(parts: seq<Record>, part: Record)
      ensures Flatten(parts + [part]) == Flatten(parts) + part
    {
      assert (parts + [part])[..|parts|] == parts;
    }

    /** One record of one source, through `classify` and `retain`. */
    method ReviewRecord(lines: Record, web: bool, servicesWorker: bool, source: Source) returns (v: Verdict)
      requires Valid() && Clocks()
      modifies this
      ensures Valid()
      ensures v.Accepted? ==> Excusable(v.kind, lines) && log == old(log) + [Entry(v.kind, source, At(lines), lines)]
      ensures !v.Accepted? ==> log == old(log) && groups == old(groups) && incidents == old(incidents)
      ensures v == Unknown <==> !web && Metadata(lines)
      ensures !web && FromCelery(lines) && (Excusable(TaskError, lines) || Excusable(AssetNotFound, lines)) ==> v.Accepted?
    {
      if web {
        v := ClassifyWebDebug(lines);
        if v.Accepted? { Neutral(incidents, log, Entry(v.kind, source, At(lines), lines)); }
      } else {
        v := Classify(lines, servicesWorker, source);
      }
      if v.Accepted? { Retain(v.kind, source, lines, At(lines)); }
    }

    predicate FromCelery(lines: Record) {
      lines != [] && Opens(lines[0]) && header(lines[0]).value.logger == "celery"
    }

    /** Identity metadata that is not understood and looks fatal. */
    predicate Metadata(lines: Record) {
      && lines != [] && Opens(lines[0]) && header(lines[0]).value.level == Debug
      && header(lines[0]).value.logger == "esi.managers" && !facts(lines).identity && facts(lines).fatal
    }

    /** The reviewed part of `_classify_log_batch`, for the text of one source: every record is retained, withheld or
        handed to the strict scan, exactly one of the three and in order. */
    method ReviewText(lines: seq<string>, web: bool, servicesWorker: bool, source: Source)
      returns (remaining: seq<string>, parts: seq<Record>, verdicts: seq<Verdict>, ghost left: seq<Record>, ghost places: seq<nat>)
      requires Valid() && Clocks()
      modifies this
      ensures Valid() && IsPartition(Opens, lines, parts) && |verdicts| == |parts|
      ensures |left| == |parts| && remaining == Flatten(left)
      ensures forall i :: 0 <= i < |parts| ==> Reviewed(parts[i], verdicts[i], left[i], web)
      ensures Logged(old(log), log, parts, verdicts, source, places)
    {
      hide Valid, Clocks, Excusable, IsPartition, Reviewed, Logged, Flatten, Metadata, FromCelery, At, Left;
      parts := Records(Opens, lines);
      remaining, verdicts, left, places := [], [], [], [];
      Nothing(parts, source);
      var i := 0;
      while i < |parts|
        invariant 0 <= i <= |parts| && |verdicts| == |left| == i && Valid()
        invariant forall k :: 0 <= k < i ==> Reviewed(parts[k], verdicts[k], left[k], web)
        invariant remaining == Flatten(left)
        invariant Logged(old(log), log, parts[..i], verdicts, source, places)
      {
        ghost var before := log;
        var v := ReviewRecord(parts[i], web, servicesWorker, source);
        LoggedNext(old(log), before, parts, verdicts, v, source, places);
        FlattenNext(left, Left(parts[i], v));
        LeftMeans(parts[i], v, web);
        remaining := remaining + Left(parts[i], v);
        left := left + [Left(parts[i], v)];
        if v.Accepted? { places := places + [i]; }
        verdicts := verdicts + [v];
        i := i + 1;
      }
      assert parts[..i] == parts;
    }

    /** The log has grown by one entry for each accepted record. */
    ghost predicate Logged(start: seq<Entry>, now: seq<Entry>, parts: seq<Record>, verdicts: seq<Verdict>, source: Source, places: seq<nat>)
      requires |parts| == |verdicts|
    {
      start <= now && Entered(parts, verdicts, source, places, now[|start|..])
    }

    lemma LoggedNext(start: seq<Entry>, now: seq<Entry>, parts: seq<Record>, verdicts: seq<Verdict>, v: Verdict, source: Source, places: seq<nat>)
      requires |verdicts| < |parts| && Logged(start, now, parts[..|verdicts|], verdicts, source, places)
      requires v.Accepted? ==> parts[|verdicts|] != [] && Opens(parts[|verdicts|][0])
      ensures var i := |verdicts|;
        if v.Accepted?
        then Logged(start, now + [Entry(v.kind, source, At(parts[i]), parts[i])], parts[..i + 1], verdicts + [v], source, places + [i])
        else Logged(start, now, parts[..i + 1], verdicts + [v], source, places)
    {
      hide Entered, At;
      NextEntry(parts, verdicts, v, source, places, now[|start|..]);
      if v.Accepted? {
        var e := Entry(v.kind, source, At(parts[|verdicts|]), parts[|verdicts|]);
        assert (now + [e])[|start|..] == now[|start|..] + [e];
      }
    }

    lemma LeftMeans(part: Record, v: Verdict, web: bool)
      requires v.Accepted? ==> part != [] && Opens(part[0]) && Excusable(v.kind, part)
      requires v == Unknown <==> !web && Metadata(part)
      requires !web && FromCelery(part) && (Excusable(TaskError, part) || Excusable(AssetNotFound, part)) ==> v.Accepted?
      ensures Reviewed(part, v, Left(part, v), web)
    {
    }

    lemma Nothing(parts: seq<Record>, source: Source)
      ensures Logged(log, log, parts[..0], [], source, []) && Flatten([]) == []
    {
    }
  }

  lemma Regroup(groups: map<(Kind, Source), Group>, log: seq<Entry>, e: Entry, g: Group)
    requires Summarised(groups, log) && IsGroup(g, Select(log, e.kind, e.source, None) + [e])
    ensures Summarised(groups[(e.kind, e.source) := g], log + [e])
  {
    var next := groups[(e.kind, e.source) := g];
    forall k, s
      ensures ((k, s) in next <==> Select(log + [e], k, s, None) != [])
      ensures (k, s) in next ==> IsGroup(next[(k, s)], Select(log + [e], k, s, None))
    {
      SelectNext(log, e, k, s, None);
      if (k, s) == (e.kind, e.source) {
      } else {
        assert Select(log + [e], k, s, None) == Select(log, k, s, None);
        assert (k, s) in next <==> (k, s) in groups;
      }
    }
  }
}
