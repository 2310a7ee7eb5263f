/** `receive`, and every history of receivers and kills over one host. */
module DeploymentReceiver {
  import opened Wrappers
  import opened DeploymentWorld
  import opened DeploymentSteps
  import opened DeploymentMachine
  import opened DeploymentViews
  import opened DeploymentHost
  import opened DeploymentEngine

  datatype Mode = Preflight | Deploy

  datatype Request = Request(attempt: nat, mode: Mode)

  /** One failed attempt has its own reviewed recovery and is never retried implicitly. */
  const RETAINED_ATTEMPT: nat := 34713182347

  lemma CommittedDrops(c: Config, b: World, a: nat, w: World)
    requires Good(c, b, a, w) && Committed(w.attempts, a)
    ensures AtRest(c, b, a, w.(plan := None))
  {
    if !w.unsettled { CommittedDeployed(c, b, a, w); }
  }

  /** A plan that no other process can finish: the retained one, and any whose attempt migrated the database, for the
      restart counts its verification needs died with the process that captured them. */
  predicate Unrecoverable(w: World) {
    && w.plan.Some?
    && (w.plan.value.attempt == RETAINED_ATTEMPT || (w.plan.value.flags.migration && !Committed(w.attempts, w.plan.value.attempt)))
  }

  /** `recover_incomplete_plan`: consume one durable plan left by a receiver that died. */
  method Recover(m: Machine) returns (r: Status)
    requires m.Valid() && m.w.plan.Some?
    modifies m`w, m`trace, m`failures
    ensures old(m.failures) <= m.failures
    ensures m.Valid() && (r.Done? ==> m.w.plan.None?)
    ensures m.w.attempts == old(m.w).attempts
    ensures old(m.w).plan.value.flags.migration && !Committed(old(m.w).attempts, m.attempt) ==>
              r.Raised? && m.w.plan == old(m.w).plan && m.w.live.slots == old(m.w).live.slots
    ensures r.Done? && !Committed(m.w.attempts, m.attempt) ==> Restored(m.cfg, m.base, m.attempt, m.w)
    ensures r.Raised? ==> old(m.failures) < m.failures || Unrecoverable(old(m.w))
  {
    hide Machine.Valid, Good, Restored, Committed, PutBack, Retagged, FilesBack, DockerHost.Fresh, DockerHost.Linked, SameTag;
    :- m.Probe();
    m.Now();
    ArmedFacts(m.cfg, m.base, m.attempt, m.w);
    var p := m.w.plan.value;
    if p.attempt == RETAINED_ATTEMPT { return Raised; }
    if Committed(m.w.attempts, p.attempt) {
      CommittedDrops(m.cfg, m.base, m.attempt, m.w);
      r := m.DropPlan();
    } else {
      var host := new DockerHost.Hydrate(m, p);
      if !p.flags.migration { NothingStuck(host); }
      ghost var cleaning;
      r, cleaning := host.Rollback();
    }
  }

  lemma NothingStuck(host: DockerHost)
    requires host.Linked() && !host.flags.migration
    ensures !host.Stuck()
  {
    hide Machine.Valid, Able;
  }

  /** A world, the attempt it belongs to, and the world in which that attempt began. */
  datatype Instant = Instant(base: World, attempt: nat, world: World)

  /** What a receiver that ran on, with this many failures, makes of the world it finds. */
  ghost predicate Received(c: Config, q: Request, r: Status, failed: nat, start: Instant, end: Instant) {
    && (start.world.plan.Some? && failed == 0 ==> end.world.plan.None? || Unrecoverable(start.world))
    && (end.attempt != start.attempt && q.mode.Deploy? && r.Raised? && failed <= 1 ==> end.world.plan.None? || Blocked(c, end.world))
    && (end.attempt != start.attempt && q.mode.Preflight? && failed == 0 ==> end.world.plan.None?)
    && (start.world.plan.Some? ==> r.Raised? && end.attempt == start.attempt && end.base == start.base)
    && ((end.attempt == start.attempt && end.base == start.base) || (end.attempt == q.attempt && end.base == Begun(start.world)))
    && (r.Done? ==> end.attempt == q.attempt && q.attempt !in start.world.attempts)
    && (r.Done? && q.mode.Deploy? ==>
          && Committed(end.world.attempts, end.attempt) && !end.world.unsettled
          && Deployed(c, end.base, end.attempt, end.world))
    && (r.Done? && q.mode.Preflight? ==>
          && end.world.plan.None? && Restored(c, end.base, end.attempt, end.world)
          && Unmoved(c, end.base, end.world.live.groups))
    && (r.Raised? && end.attempt != start.attempt && end.world.plan.None? ==> Restored(c, end.base, end.attempt, end.world))
  }

  /** `receive` */
  method Receive(m: Machine, q: Request) returns (r: Status)
    requires m.Valid()
    modifies m
    ensures m.Valid()
    ensures old(m.failures) <= m.failures
    ensures Received(m.cfg, q, r, m.failures - old(m.failures), old(Instant(m.base, m.attempt, m.w)), Instant(m.base, m.attempt, m.w))
  {
    hide Machine.Valid, Good, Restored, Deployed, Committed, DockerHost.Linked, Unmoved, Blocked;
    if m.w.plan.Some? {
      var recovery := Recover(m);
      return Raised;
    }
    :- m.Probe();
    if q.attempt in m.w.attempts { return Raised; }
    r := Attempt(m, q);
  }

  method Attempt(m: Machine, q: Request) returns (r: Status)
    requires m.Valid() && m.w.plan.None? && q.attempt !in m.w.attempts
    modifies m
    ensures m.Valid() && m.attempt == q.attempt && m.base == Begun(old(m.w))
    ensures r.Done? && q.mode.Deploy? ==> Committed(m.w.attempts, m.attempt) && !m.w.unsettled && Deployed(m.cfg, m.base, m.attempt, m.w)
    ensures r.Done? && q.mode.Preflight? ==> m.w.plan.None? && Restored(m.cfg, m.base, m.attempt, m.w) && Unmoved(m.cfg, m.base, m.w.live.groups)
    ensures r.Raised? && m.w.plan.None? ==> Restored(m.cfg, m.base, m.attempt, m.w)
    ensures old(m.failures) <= m.failures
    ensures q.mode.Deploy? && r.Raised? && m.failures <= old(m.failures) + 1 ==> m.w.plan.None? || Blocked(m.cfg, m.w)
    ensures q.mode.Preflight? && m.failures == old(m.failures) ==> m.w.plan.None?
  {
    hide Machine.Valid, Good, Restored, Deployed, DockerHost.Linked, Unmoved, Blocked;
    m.Begin(q.attempt);
    var host := new DockerHost(m);
    var journal := new DeploymentJournal(m);
    r := journal.Save();
    if r.Raised? {
      m.Now();
      UncommittedRests(m.cfg, m.base, m.attempt, m.w);
      return;
    }
    match q.mode
    case Preflight =>
      var engine := new PreflightEngine(host, journal);
      ghost var validated;
      r, validated := engine.Run();
    case Deploy =>
      var engine := new DeploymentEngine(host, journal);
      r := engine.Run();
  }

  /** `b` is where the history starts from, or a world some instant of it had. */
  ghost predicate Sourced(log: seq<Instant>, first: World, b: World) {
    b == first || exists i :: 0 <= i < |log| && b == Begun(log[i].world)
  }

  /** Every instant keeps the invariant, against a baseline that was there before it. */
  ghost predicate Accounted(c: Config, first: World, log: seq<Instant>) {
    forall i :: 0 <= i < |log| ==> Good(c, log[i].base, log[i].attempt, log[i].world) && Sourced(log[..i], first, log[i].base)
  }

  function Instants(base: World, attempt: nat, trace: seq<World>): (r: seq<Instant>)
    ensures |r| == |trace| && forall i :: 0 <= i < |r| ==> r[i] == Instant(base, attempt, trace[i])
  {
    seq(|trace|, i requires 0 <= i < |trace| => Instant(base, attempt, trace[i]))
  }

  lemma SourcedMore(log: seq<Instant>, more: seq<Instant>, first: World, b: World)
    requires Sourced(log, first, b) && log <= more
    ensures Sourced(more, first, b)
  {
    if i :| 0 <= i < |log| && b == Begun(log[i].world) { assert more[i] == log[i]; }
  }

  lemma AccountedMore(c: Config, first: World, log: seq<Instant>, base: World, attempt: nat, trace: seq<World>)
    requires Accounted(c, first, log) && Sourced(log, first, base)
    requires forall i :: 0 <= i < |trace| ==> Good(c, base, attempt, trace[i])
    ensures Accounted(c, first, log + Instants(base, attempt, trace))
  {
    hide Good, Sourced;
    var all := log + Instants(base, attempt, trace);
    forall i | 0 <= i < |all| ensures Good(c, all[i].base, all[i].attempt, all[i].world) && Sourced(all[..i], first, all[i].base) {
      if i < |log| {
        assert all[..i] == log[..i];
      } else {
        SourcedMore(log, all[..i], first, base);
      }
    }
  }

  lemma Witnessed(m: Machine)
    requires m.Valid()
    ensures forall i :: 0 <= i < |m.trace| ==> Good(m.cfg, m.base, m.attempt, m.trace[i])
    ensures m.trace != [] && m.trace[|m.trace| - 1] == m.w
  {
  }

  /** One request: what its receiver found, what it answered and how many failures it met if it was left running, every
      instant of it, and the instant at which it ended or was killed. */
  datatype Visit = Visit(request: Request, start: Instant, result: Status, failed: nat, instants: seq<Instant>, stop: nat)

  predicate Stopped(v: Visit) {
    v.stop < |v.instants|
  }

  predicate AllStopped(visits: seq<Visit>) {
    forall i :: 0 <= i < |visits| ==> Stopped(visits[i])
  }

  /** What the next receiver finds. */
  function Found(first: Instant, visits: seq<Visit>): Instant
    requires AllStopped(visits)
  {
    if visits == [] then first else var v := visits[|visits| - 1]; v.instants[v.stop]
  }

  /** Each receiver starts where the one before it ended or was killed. */
  ghost predicate Visited(c: Config, first: Instant, requests: seq<Request>, visits: seq<Visit>) {
    && |visits| == |requests| && AllStopped(visits)
    && forall i :: 0 <= i < |visits| ==>
         && visits[i].request == requests[i] && visits[i].start == Found(first, visits[..i])
         && Received(c, requests[i], visits[i].result, visits[i].failed, visits[i].start, visits[i].instants[|visits[i].instants| - 1])
  }

  /** Every instant of a history, in order. */
  function Log(first: Instant, visits: seq<Visit>): (log: seq<Instant>)
    ensures log != []
  {
    if visits == [] then [first] else Log(first, visits[..|visits| - 1]) + visits[|visits| - 1].instants
  }

  lemma FoundInLog(first: Instant, visits: seq<Visit>)
    requires AllStopped(visits)
    ensures Found(first, visits) in Log(first, visits)
  {
    if visits == [] {
      assert [first][0] == first;
    } else {
      var v := visits[|visits| - 1];
      assert v.instants[v.stop] in v.instants;
    }
  }

  lemma VisitedMore(c: Config, first: Instant, requests: seq<Request>, visits: seq<Visit>, q: Request, v: Visit)
    requires Visited(c, first, requests, visits) && Stopped(v) && v.request == q && v.start == Found(first, visits)
    requires Received(c, q, v.result, v.failed, v.start, v.instants[|v.instants| - 1])
    ensures Visited(c, first, requests + [q], visits + [v])
  {
    hide Received;
    var all := visits + [v];
    forall i | 0 <= i < |all|
      ensures all[i].request == (requests + [q])[i] && all[i].start == Found(first, all[..i])
      ensures Stopped(all[i]) && Received(c, (requests + [q])[i], all[i].result, all[i].failed, all[i].start, all[i].instants[|all[i].instants| - 1])
    {
      assert all[..i] == visits[..i];
      if i == |visits| { assert visits[..i] == visits; }
    }
  }

  /** However long the history, no instant has two schedulers if the first world had not. */
  lemma {:induction false} NeverTwoBeats(c: Config, first: World, log: seq<Instant>, i: nat)
    requires Accounted(c, first, log) && i < |log| && Schedulers(c, first.live.groups) <= 1
    ensures Schedulers(c, log[i].world.live.groups) <= 1 && c.beat !in log[i].world.live.lingering
    decreases i
  {
    assert Good(c, log[i].base, log[i].attempt, log[i].world) && Sourced(log[..i], first, log[i].base);
    BeatAlone(c, log[i].base, log[i].attempt, log[i].world);
    hide Good;
    if k :| 0 <= k < i && log[i].base == Begun(log[..i][k].world) {
      NeverTwoBeats(c, first, log, k);
    }
  }

  lemma AllSingle(c: Config, first: World, log: seq<Instant>)
    requires Accounted(c, first, log) && Schedulers(c, first.live.groups) <= 1
    ensures forall x :: x in log ==> Schedulers(c, x.world.live.groups) <= 1 && c.beat !in x.world.live.lingering
  {
    hide Accounted, Schedulers;
    forall x | x in log ensures Schedulers(c, x.world.live.groups) <= 1 && c.beat !in x.world.live.lingering {
      var i :| 0 <= i < |log| && log[i] == x;
      NeverTwoBeats(c, first, log, i);
    }
  }

  lemma BeginsHere(log: seq<Instant>, first: World, x: Instant)
    requires x in log
    ensures Sourced(log, first, Begun(x.world))
  {
  }

  lemma Nothing(c: Config, first: World)
    ensures Accounted(c, first, []) && Sourced([], first, first)
  {
  }

  /** One receiver, killed at any instant or run to its end. */
  method Visiting(m: Machine, q: Request, ghost first: World, ghost log: seq<Instant>) returns (v: Visit)
    requires m.Valid() && Accounted(m.cfg, first, log) && Sourced(log, first, m.base) && Instant(m.base, m.attempt, m.w) in log
    modifies m
    ensures m.Valid() && v.request == q && v.start == old(Instant(m.base, m.attempt, m.w)) && Stopped(v)
    ensures Received(m.cfg, q, v.result, v.failed, v.start, v.instants[|v.instants| - 1])
    ensures v.instants[v.stop] == Instant(m.base, m.attempt, m.w)
    ensures Accounted(m.cfg, first, log + v.instants) && Sourced(log + v.instants, first, m.base)
  {
    hide Machine.Valid, Good, Received, Sourced, Accounted;
    var start, failures := Instant(m.base, m.attempt, m.w), m.failures;
    BeginsHere(log, first, start);
    var r := Receive(m, q);
    var failed := m.failures - failures;
    Baseline(m.cfg, q, r, failed, start, Instant(m.base, m.attempt, m.w));
    Witnessed(m);
    AccountedMore(m.cfg, first, log, m.base, m.attempt, m.trace);
    var instants := Instants(m.base, m.attempt, m.trace);
    SourcedMore(log, log + instants, first, m.base);
    var k: int := *;
    if !(0 <= k < |m.trace|) { k := |m.trace| - 1; }
    m.Kill(k);
    return Visit(q, start, r, failed, instants, k);
  }

  lemma Baseline(c: Config, q: Request, r: Status, failed: nat, start: Instant, end: Instant)
    requires Received(c, q, r, failed, start, end)
    ensures end.base == start.base || end.base == Begun(start.world)
  {
    hide Restored, Deployed, Committed, Unmoved;
  }

  lemma NoVisits(c: Config, first: Instant)
    ensures AllStopped([]) && Found(first, []) == first && Log(first, []) == [first] && Visited(c, first, [], [])
  {
  }

  lemma LogMore(first: Instant, visits: seq<Visit>, v: Visit)
    ensures Log(first, visits + [v]) == Log(first, visits) + v.instants
    ensures AllStopped(visits) && Stopped(v) ==> AllStopped(visits + [v]) && Found(first, visits + [v]) == v.instants[v.stop]
  {
    assert (visits + [v])[..|visits|] == visits;
  }

  /** Any number of requests, each receiver killed at any instant or run to its end. */
  method Lifetime(m: Machine, requests: seq<Request>) returns (visits: seq<Visit>)
    requires m.Valid()
    modifies m
    ensures m.Valid() && Visited(m.cfg, old(Instant(m.base, m.attempt, m.w)), requests, visits)
    ensures Found(old(Instant(m.base, m.attempt, m.w)), visits) == Instant(m.base, m.attempt, m.w)
    ensures Accounted(m.cfg, old(m.base), Log(old(Instant(m.base, m.attempt, m.w)), visits))
    ensures Schedulers(m.cfg, old(m.base).live.groups) <= 1 ==>
              forall x :: x in Log(old(Instant(m.base, m.attempt, m.w)), visits) ==>
                Schedulers(m.cfg, x.world.live.groups) <= 1 && m.cfg.beat !in x.world.live.lingering
  {
    hide Machine.Valid, Good, Received, Sourced, Accounted, Visited, Found, Schedulers, Stopped, AllStopped, Log;
    ghost var first := Instant(m.base, m.attempt, m.w);
    visits := [];
    Witnessed(m);
    m.Kill(|m.trace| - 1);
    Nothing(m.cfg, first.base);
    NoVisits(m.cfg, first);
    Witnessed(m);
    AccountedMore(m.cfg, first.base, [], m.base, m.attempt, m.trace);
    assert [] + Instants(m.base, m.attempt, m.trace) == [first];
    SourcedMore([], [first], first.base, m.base);
    var i := 0;
    while i < |requests|
      invariant 0 <= i <= |requests| && m.Valid() && Visited(m.cfg, first, requests[..i], visits)
      invariant AllStopped(visits) && Found(first, visits) == Instant(m.base, m.attempt, m.w)
      invariant Accounted(m.cfg, first.base, Log(first, visits)) && Sourced(Log(first, visits), first.base, m.base)
    {
      FoundInLog(first, visits);
      var v := Visiting(m, requests[i], first.base, Log(first, visits));
      LogMore(first, visits, v);
      VisitedMore(m.cfg, first, requests[..i], visits, requests[i], v);
      assert requests[..i + 1] == requests[..i] + [requests[i]];
      visits := visits + [v];
      i := i + 1;
    }
    assert requests[..i] == requests;
    if Schedulers(m.cfg, first.base.live.groups) <= 1 {
      AllSingle(m.cfg, first.base, Log(first, visits));
    }
  }

  /** What holds at every instant of every history: users are served, one beat runs, journals are in order,
      and a plan on disk is ahead of every mutation a recovery would have to undo. */
  lemma Guarantees(c: Config, b: World, a: nat, w: World)
    requires Good(c, b, a, w)
    ensures Serving(w.live.groups, w.live.slots, w.live.loaded, {})
    ensures c.beat !in w.live.lingering && SingleBeat(c, b, w.live.groups)
    ensures forall x :: x in w.attempts ==> w.attempts[x].history <= DEPLOYMENT_STATES || w.attempts[x].history == [CandidateValidated]
    ensures w.plan.Some? ==>
              var p := w.plan.value;
              && Ordered(p.flags) && (p.flags.traffic ==> p.previous != [])
              && a in w.backups && w.backups[a] == BackupOf(b)
              && (forall t :: t in w.live.slots && t !in b.live.slots ==> t in p.previous || t in p.candidate)
              && FileCover(b, p.flags, w)
              && (p.flags == w.intent ==> GroupCover(c, b, p.flags, w.live.groups) && RouteCover(b, p.flags, w.live.loaded, w.live.upstream))
    ensures w.plan.None? && !Committed(w.attempts, a) ==>
              && w.live.slots == b.live.slots && OldImages(c, b, w.live.groups) && OldReferences(c, b, w.live.tags)
              && OldFiles(b, a, w) && w.files.settings == b.files.settings
  {
    hide Serving, GroupCover, OldImages, OldReferences, NewImages;
    if w.plan.Some? {
      ArmedFacts(c, b, a, w);
      CoverByFlag(c, b, a, w);
    }
  }
}
