/** The journal, the deployment and preflight engines, and the receiver that runs them. */
module DeploymentEngine {
  import opened Wrappers
  import opened DeploymentWorld
  import opened DeploymentSteps
  import opened DeploymentMachine
  import opened DeploymentViews
  import opened DeploymentHost

  /** What a record must satisfy to be written while a plan is on disk. */
  ghost predicate Fits(plan: Option<Plan>, intent: Flags, h: seq<Phase>) {
    plan.Some? ==> Journalled(h, intent) && Reached(h, plan.value.flags)
  }

  lemma FitsMore(plan: Option<Plan>, intent: Flags, h: seq<Phase>, next: seq<Phase>)
    requires Fits(plan, intent, h) && |h| <= |next| && (plan.Some? ==> Reached(next, plan.value.flags))
    ensures Fits(plan, intent, next)
  {
  }

  /** The invariant itself says which records fit. */
  lemma FitsNow(c: Config, b: World, a: nat, w: World)
    requires Good(c, b, a, w) && a in w.attempts
    ensures Fits(w.plan, w.intent, w.attempts[a].history)
  {
    if w.plan.Some? { ArmedFacts(c, b, a, w); }
  }

  lemma UnsettledView(w: World, x: World, v: Plan, hydrated: bool)
    requires Matches(w.plan, w.attempts, w.unsettled, w.intent, v, hydrated)
    requires x.plan == w.plan && x.intent == w.intent && x.unsettled
    ensures Matches(x.plan, x.attempts, x.unsettled, x.intent, v, hydrated)
  {
  }

  /** A settled commit stays deployed, with or without its plan. */
  lemma CommittedDeployed(c: Config, b: World, a: nat, w: World)
    requires Good(c, b, a, w) && Committed(w.attempts, a) && !w.unsettled
    ensures Deployed(c, b, a, w) && AtRest(c, b, a, w.(plan := None))
  {
    hide Serving, Untouched, GroupCover, Captured, SlotCover, OwnSlots, OldImages, OldReferences, NewImages;
  }

  /** The promoted candidate is what `succeed` publishes. */
  lemma PromotedImages(c: Config, b: World, w: World, p: Plan, candidates: map<Service, Image>)
    requires Candidates(c, w.live.tags, p.images, candidates) && Runs(w, c.services, candidates, p.replicas) && Captured(c, b, p)
    ensures NewImages(c, b, w.live.groups, w.live.tags)
  {
  }

  /** Without a plan, an attempt that was not committed has been restored. */
  lemma UncommittedRests(c: Config, b: World, a: nat, w: World)
    requires Good(c, b, a, w) && !Committed(w.attempts, a)
    ensures w.plan.None? ==> Restored(c, b, a, w)
  {
    hide Serving, Untouched, GroupCover, Captured, SlotCover, OwnSlots, OldImages, OldReferences, NewImages, Restored;
  }

  /** Journal records do not enter into it. */
  lemma RestoredStill(c: Config, b: World, a: nat, w: World, x: World)
    requires Restored(c, b, a, w) && x == w.(attempts := x.attempts)
    ensures Restored(c, b, a, x)
  {
    hide Untouched, OldImages, OldReferences;
  }

  class DeploymentJournal {
    const m: Machine
    var record: Record

    constructor (m: Machine)
      ensures this.m == m && record == Record([], Running)
    {
      this.m, record := m, Record([], Running);
    }

    /** The attempt has not been committed, and its record may be rewritten. */
    ghost predicate Unfinished()
      reads this, m`w, m`base, m`attempt, m`trace
    {
      && m.Valid() && History(record.history)
      && (Committed(m.w.attempts, m.attempt) ==> m.w.unsettled && (m.w.plan.None? ==> Restored(m.cfg, m.base, m.attempt, m.w)))
      && Fits(m.w.plan, m.w.intent, record.history)
    }

    /** `_save` */
    method Save() returns (r: Status)
      requires Unfinished() && record.verdict != Success
      modifies m`w, m`trace, m`failures
      ensures old(m.failures) <= m.failures
      ensures Unfinished()
      ensures m.w == old(m.w) || m.w == old(m.w).(attempts := old(m.w).attempts[m.attempt := record])
      ensures r.Done? ==> m.w == old(m.w).(attempts := old(m.w).attempts[m.attempt := record])
    {
      hide Machine.Valid, Journalled, Reached, History;
      r := m.SaveRecord(record);
    }

    /** `advance`: only the next state of the fixed order is accepted. */
    method Advance(state: Phase) returns (r: Status)
      requires Unfinished() && record.history <= DEPLOYMENT_STATES && record.verdict.Running?
      requires m.w.plan.Some? ==> Reached(record.history + [state], m.w.plan.value.flags)
      modifies this`record, m`w, m`trace, m`failures
      ensures old(m.failures) <= m.failures
      ensures Unfinished() && record.history <= DEPLOYMENT_STATES && record.verdict.Running?
      ensures record == Record(old(record).history + [state], Running) || (r.Raised? && record == old(record) && m.w == old(m.w))
      ensures m.w == old(m.w) || m.w == old(m.w).(attempts := old(m.w).attempts[m.attempt := record])
      ensures r.Done? ==>
                && m.w == old(m.w).(attempts := old(m.w).attempts[m.attempt := record])
                && record.history == old(record).history + [state]
    {
      hide Machine.Valid, Journalled, Reached;
      var n := |record.history|;
      if n == |DEPLOYMENT_STATES| || DEPLOYMENT_STATES[n] != state { return Raised; }
      NextState(record.history, state);
      FitsMore(m.w.plan, m.w.intent, record.history, record.history + [state]);
      record := Record(record.history + [state], Running);
      r := Save();
    }

    lemma NextState(h: seq<Phase>, state: Phase)
      requires h < DEPLOYMENT_STATES && DEPLOYMENT_STATES[|h|] == state
      ensures h + [state] <= DEPLOYMENT_STATES
    {
    }

    /** `succeed`: two separate durable writes, then the attempt is committed. */
    method Succeed() returns (r: Status)
      requires Unfinished() && record.history == DEPLOYMENT_STATES && m.w.plan.Some? && m.w.plan.value.flags.marker
      requires m.attempt in m.w.attempts && m.w.attempts[m.attempt].history == DEPLOYMENT_STATES
      requires Deployed(m.cfg, m.base, m.attempt, m.w.(files := m.w.files.(pointer := Some(LineagePointer(m.attempt)))))
      modifies this`record, m`w, m`trace, m`failures
      ensures old(m.failures) <= m.failures
      ensures m.Valid() && m.w.plan == old(m.w).plan && m.w.intent == old(m.w).intent && m.w.live == old(m.w).live && m.w.lost == old(m.w).lost
      ensures m.attempt in m.w.attempts && m.w.attempts[m.attempt].history == DEPLOYMENT_STATES
      ensures record.history == DEPLOYMENT_STATES
      ensures r.Raised? ==> Unfinished() && m.w.unsettled
      ensures r.Done? ==> Committed(m.w.attempts, m.attempt) && !m.w.unsettled && record == m.w.attempts[m.attempt]
    {
      hide Machine.Valid, Journalled, Reached, NewImages, GunicornOnly;
      record := Record(record.history, Success);
      :- m.CommitRecord();
      :- m.WritePointer(Some(LineagePointer(m.attempt)));
      m.Settle();
      return Done;
    }

    /** `succeed` of a preflight journal. */
    method SucceedPreflight() returns (r: Status)
      requires Unfinished() && m.w.plan.None?
      modifies this`record, m`w, m`trace, m`failures
      ensures old(m.failures) <= m.failures
      ensures Unfinished()
      ensures m.w == old(m.w) || m.w == old(m.w).(attempts := old(m.w).attempts[m.attempt := Record([CandidateValidated], Success)])
      ensures r.Done? ==> m.w == old(m.w).(attempts := old(m.w).attempts[m.attempt := Record([CandidateValidated], Success)])
    {
      hide Machine.Valid, Journalled, Reached;
      record := Record([CandidateValidated], Success);
      r := m.SaveRecord(record);
    }

    /** `record_cleanup`: the committed record is written again. */
    method RecordCleanup() returns (r: Status)
      requires m.Valid() && Committed(m.w.attempts, m.attempt) && !m.w.unsettled && record == m.w.attempts[m.attempt]
      modifies m`w, m`trace, m`failures
      ensures old(m.failures) <= m.failures
      ensures m.Valid() && m.w == old(m.w)
    {
      hide Machine.Valid, Journalled, Reached, History, Fits;
      m.Now();
      FitsNow(m.cfg, m.base, m.attempt, m.w);
      CommittedHistory();
      r := m.SaveRecord(record);
      assert old(m.w).attempts[m.attempt := record] == old(m.w).attempts;
    }

    lemma CommittedHistory()
      requires Committed(m.w.attempts, m.attempt) && record == m.w.attempts[m.attempt]
      ensures History(record.history)
    {
    }

    /** `fail` */
    method Fail() returns (r: Status)
      requires Unfinished()
      modifies this`record, m`w, m`trace, m`failures
      ensures old(m.failures) <= m.failures
      ensures Unfinished()
      ensures m.w == old(m.w) || m.w == old(m.w).(attempts := old(m.w).attempts[m.attempt := record])
    {
      hide Machine.Valid, Journalled, Reached, History, Fits;
      record := Record(record.history, Failed);
      r := Save();
    }
  }

  class DeploymentEngine {
    const host: DockerHost
    const journal: DeploymentJournal
    const m: Machine

    constructor (host: DockerHost, journal: DeploymentJournal)
      requires host.m == journal.m
      ensures this.host == host && this.journal == journal && m == host.m
    {
      this.host, this.journal, this.m := host, journal, host.m;
    }

    /** The record on disk is the one in memory, and names the first `n` states. */
    ghost predicate At(n: nat)
      requires n <= |DEPLOYMENT_STATES|
      reads journal, m`w, m`attempt
    {
      && host.m == journal.m == m && m.attempt in m.w.attempts
      && m.w.attempts[m.attempt] == journal.record == Record(DEPLOYMENT_STATES[..n], Running)
    }

    /** The record on disk is the one in memory. */
    ghost predicate Written()
      reads journal, m`w, m`attempt
    {
      && m.attempt in m.w.attempts && m.w.attempts[m.attempt] == journal.record
      && journal.record.verdict == Running && journal.record.history <= DEPLOYMENT_STATES
    }

    /** Dockerfile, schema and static manifest are the release's. */
    predicate Renewed()
      reads m`w, m`attempt
    {
      && m.w.files.dockerfile == CandidateDockerfile(m.attempt) && m.w.files.schema == m.cfg.migrated(m.attempt)
      && m.w.files.statics == CollectedStatics(m.attempt)
    }

    /** Where a failed run leaves off. */
    ghost predicate Failing()
      reads this, host, journal, m`w, m`base, m`attempt, m`trace
    {
      && host.m == journal.m == m && (host.Fresh() || host.Linked()) && (host.flags.migration ==> host.baselines != map[])
      && (journal.Unfinished() || Written())
    }

    /** Whatever was raised, the journal may still be written. */
    lemma StillUnfinished()
      requires Failing()
      ensures journal.Unfinished()
    {
      hide Machine.Valid, Good, Matches, Journalled, Reached, Fits;
      if !journal.Unfinished() {
        HostValid();
        m.Now();
        FitsNow(m.cfg, m.base, m.attempt, m.w);
      }
    }

    lemma HostValid()
      requires host.m == m && (host.Fresh() || host.Linked())
      ensures m.Valid()
    {
    }

    /** Journals the next state between two steps of the host. */
    method Advance(n: nat) returns (r: Status)
      requires n < |DEPLOYMENT_STATES| && At(n) && (host.Fresh() || host.Staged())
      requires m.w.plan.Some? ==> Reached(DEPLOYMENT_STATES[..n + 1], m.w.plan.value.flags)
      modifies journal, m`w, m`trace, m`failures
      ensures old(m.failures) <= m.failures
      ensures Failing() && m.w == old(m.w).(attempts := m.w.attempts)
      ensures old(host.Fresh()) ==> host.Fresh()
      ensures old(host.Staged()) ==> host.Staged()
      ensures r.Done? ==> At(n + 1)
    {
      hide Machine.Valid, Good, Matches, Journalled, Reached, Fits, Committed, Candidates, Apart, DockerHost.Captures, DockerHost.Knows, Copies, Untried;
      ghost var next := Record(DEPLOYMENT_STATES[..n + 1], Running);
      assert DEPLOYMENT_STATES[..n + 1] == DEPLOYMENT_STATES[..n] + [DEPLOYMENT_STATES[n]];
      StagedLinked();
      StillUnfinished();
      if host.Fresh() {
        RecordUntried(m.base, m.w, m.attempt, next);
      } else {
        RecordView(m.w, host.View(), host.baselines == map[], next);
      }
      r := journal.Advance(DEPLOYMENT_STATES[n]);
    }

    lemma StagedLinked()
      ensures host.Staged() ==> host.Linked() && host.Synced() && host.attempt == host.m.attempt && host.baselines != map[]
    {
    }

    lemma CommitReady()
      requires At(|DEPLOYMENT_STATES|) && host.Staged() && host.flags == WEB_FLAGS.(marker := true)
      requires Runs(m.w, m.cfg.services, host.candidateImages, host.replicas) && Loads(m.w, GunicornOnly(m.cfg)) && Renewed()
      requires m.w.files.platform == Some(ReleaseMarker(m.attempt))
      ensures host.Linked() && journal.Unfinished() && m.w.plan.Some? && m.w.plan.value.flags.marker
      ensures Deployed(m.cfg, m.base, m.attempt, m.w.(files := m.w.files.(pointer := Some(LineagePointer(m.attempt)))))
      ensures Apart(m.cfg, host.pins) && host.attempt == m.attempt
      ensures forall t :: t in host.previous || t in host.candidate ==> t.Slot? && t.attempt == m.attempt
    {
      hide Machine.Valid, Good, Matches, Journalled, Reached, Fits, Candidates, DockerHost.Captures, NewImages, Runs, AllUp, Captured;
      host.SyncedOpen();
      host.LinkedReversible();
      StillUnfinished();
      m.Now();
      ArmedFacts(m.cfg, m.base, m.attempt, m.w);
      PromotedImages(m.cfg, m.base, m.w, m.w.plan.value, host.candidateImages);
    }

    /** The two commit writes, then the plan; a leftover plan is not a failure. */
    method Commit() returns (r: Status)
      requires At(|DEPLOYMENT_STATES|) && host.Staged() && host.flags == WEB_FLAGS.(marker := true)
      requires Runs(m.w, m.cfg.services, host.candidateImages, host.replicas) && Loads(m.w, GunicornOnly(m.cfg)) && Renewed()
      requires m.w.files.platform == Some(ReleaseMarker(m.attempt))
      modifies host`armed, journal, m`w, m`trace, m`failures
      ensures old(m.failures) <= m.failures
      ensures r.Raised? ==> Failing()
      ensures r.Done? ==> Succeeded()
    {
      hide Machine.Valid, Good, Matches, Journalled, Reached, Fits, Candidates, DockerHost.Staged, DockerHost.Knows, NewImages, Runs, AllUp, Deployed, Apart;
      StagedLinked();
      CommitReady();
      ghost var before := m.w;
      ghost var view := host.View();
      r := journal.Succeed();
      if r.Raised? {
        UnsettledView(before, m.w, view, host.baselines == map[]);
        return;
      }
      m.Now();
      CommittedDeployed(m.cfg, m.base, m.attempt, m.w);
      var dropped := m.DropPlan();
      if dropped.Done? { host.armed := false; }
    }

    /** The deployment is durably verified; only housekeeping is left. */
    ghost predicate Succeeded()
      reads host, journal, m`w, m`base, m`attempt, m`trace
    {
      && host.m == journal.m == m && m.Valid() && Committed(m.w.attempts, m.attempt) && !m.w.unsettled
      && journal.record == m.w.attempts[m.attempt] && Loads(m.w, GunicornOnly(m.cfg))
      && host.attempt == m.attempt && Apart(m.cfg, host.pins)
      && forall t :: t in host.previous || t in host.candidate ==> t.Slot? && t.attempt == m.attempt
    }

    /** What the next journal entry and the next flags ask for holds by the position in the order. */
    lemma Position(n: nat)
      requires n <= |DEPLOYMENT_STATES| && At(n) && (host.Fresh() || host.Staged())
      ensures host.Fresh() ==> m.w.plan.None? && Reached(m.w.attempts[m.attempt].history, NO_FLAGS) == Reached(DEPLOYMENT_STATES[..n], NO_FLAGS)
      ensures host.Staged() ==> host.Linked() && m.w.plan.Some? && m.w.plan.value.flags == host.flags
      ensures forall f :: host.Recorded(f) == Journalled(DEPLOYMENT_STATES[..n], f)
    {
      hide Machine.Valid, Good, Journalled, Reached, Untried;
      if host.Staged() { host.SyncedOpen(); } else { UntriedFiles(m.base, m.w, m.attempt); }
    }

    method PrepareAndBackup() returns (r: Status)
      requires At(1) && host.Fresh() && !host.prepared && m.w.live.upstream == GunicornOnly(m.cfg)
      modifies host, journal, m`w, m`trace, m`failures
      ensures old(m.failures) <= m.failures
      ensures r.Raised? ==> Failing()
      ensures r.Done? ==> At(3) && host.Staged() && host.flags == NO_FLAGS && host.candidate == []
      ensures r.Done? ==> m.w.files.dockerfile == CandidateDockerfile(m.attempt)
    {
      hide Machine.Valid, DockerHost.Linked, DockerHost.Synced, Candidates, Untried, DockerHost.Captures, Copies, Apart;
      Position(1);
      FreshUpstream();
      :- host.PrepareCandidate();
      Position(1);
      :- Advance(1);
      :- m.Probe();
      Position(2);
      r := Advance(2);
    }

    lemma FreshUpstream()
      requires host.Fresh() && host.m == m
      ensures m.base.live == m.w.live
    {
    }

    method MigrateAndCheck() returns (r: Status)
      requires At(3) && host.Staged() && host.flags == NO_FLAGS && host.candidate == []
      requires m.w.files.dockerfile == CandidateDockerfile(m.attempt)
      modifies host, journal, m`w, m`trace, m`failures
      ensures old(m.failures) <= m.failures
      ensures r.Raised? ==> Failing()
      ensures r.Done? ==> At(5) && host.Staged() && host.flags == STATIC_FLAGS && OnSlots(m.w.live) && Renewed()
    {
      hide Machine.Valid, DockerHost.Linked, DockerHost.Fresh, DockerHost.Synced, DockerHost.Staged, DockerHost.Recorded, Healthy, OnSlots;
      StagedLinked();
      Position(3);
      :- host.Migrate();
      Position(3);
      :- Advance(3);
      :- host.CandidateHealth();
      Position(4);
      r := Advance(4);
    }

    method Switch() returns (r: Status)
      requires At(5) && host.Staged() && host.flags == STATIC_FLAGS && OnSlots(m.w.live) && Renewed()
      modifies host, journal, m`w, m`trace, m`failures
      ensures old(m.failures) <= m.failures
      ensures r.Raised? ==> Failing()
      ensures r.Done? ==> At(6) && host.Staged() && host.flags == STATIC_FLAGS && OnSlots(m.w.live) && Renewed()
    {
      hide Machine.Valid, DockerHost.Linked, DockerHost.Fresh, DockerHost.Synced, DockerHost.Staged, DockerHost.Recorded, OnSlots;
      StagedLinked();
      Position(5);
      :- host.SwitchTraffic();
      Position(5);
      r := Advance(5);
    }

    method SwitchAndReplace() returns (r: Status)
      requires At(5) && host.Staged() && host.flags == STATIC_FLAGS && OnSlots(m.w.live) && Renewed()
      modifies host, journal, m`w, m`trace, m`failures
      ensures old(m.failures) <= m.failures
      ensures r.Raised? ==> Failing()
      ensures r.Done? ==> At(8) && host.Staged() && host.flags == WORKER_FLAGS && OnSlots(m.w.live)
      ensures r.Done? ==> Runs(m.w, Except(m.cfg.services, m.cfg.gunicorn), host.candidateImages, host.replicas) && Renewed()
    {
      hide Machine.Valid, DockerHost.Linked, DockerHost.Fresh, DockerHost.Synced, DockerHost.Staged, DockerHost.Recorded, OnSlots;
      :- Switch();
      StagedLinked();
      Position(6);
      :- host.ReplaceWorkers();
      Position(6);
      :- Advance(6);
      :- m.Probe();
      Position(7);
      r := Advance(7);
    }

    method PromoteAndFinalize() returns (r: Status)
      requires At(8) && host.Staged() && host.flags == WORKER_FLAGS && OnSlots(m.w.live)
      requires Runs(m.w, Except(m.cfg.services, m.cfg.gunicorn), host.candidateImages, host.replicas) && Renewed()
      modifies host, journal, m`w, m`trace, m`failures
      ensures old(m.failures) <= m.failures
      ensures r.Raised? ==> Failing()
      ensures r.Done? ==> At(10) && host.Staged() && host.flags == WEB_FLAGS.(marker := true)
      ensures r.Done? ==> Runs(m.w, m.cfg.services, host.candidateImages, host.replicas) && Loads(m.w, GunicornOnly(m.cfg)) && Renewed()
      ensures r.Done? ==> m.w.files.platform == Some(ReleaseMarker(m.attempt))
    {
      hide Machine.Valid, DockerHost.Linked, DockerHost.Fresh, DockerHost.Synced, DockerHost.Staged, DockerHost.Recorded, OnSlots, AllUp;
      StagedLinked();
      Position(8);
      :- host.PromoteWeb();
      Position(8);
      :- Advance(8);
      Position(9);
      :- host.Finalize();
      Position(9);
      r := Advance(9);
    }

    /** The protected body of `run`. Whatever ends it counts, be it a failed step or a check that refused to go on. */
    method Forward() returns (r: Status)
      requires At(0) && host.Fresh() && !host.prepared
      modifies host, journal, m`w, m`trace, m`failures
      ensures old(m.failures) <= m.failures
      ensures r.Raised? ==> Failing() && old(m.failures) < m.failures
      ensures r.Done? ==> Succeeded()
    {
      hide Failing, Succeeded, DockerHost.Fresh;
      var before := m.failures;
      r := Proceed();
      if r.Raised? && m.failures == before { m.Refuse(); }
    }

    method Proceed() returns (r: Status)
      requires At(0) && host.Fresh() && !host.prepared
      modifies host, journal, m`w, m`trace, m`failures
      ensures old(m.failures) <= m.failures
      ensures r.Raised? ==> Failing()
      ensures r.Done? ==> Succeeded()
    {
      hide Machine.Valid, Untried, DockerHost.Captures, DockerHost.Linked, DockerHost.Staged, Healthy, Runs, Loads, OnSlots, Candidates, Succeeded, Copies, Renewed;
      :- host.Validate();
      Position(0);
      :- Advance(0);
      :- PrepareAndBackup();
      :- MigrateAndCheck();
      :- SwitchAndReplace();
      :- PromoteAndFinalize();
      r := Commit();
    }

    lemma FailedRun()
      requires Failing()
      ensures m.Valid() && (m.w.plan.None? ==> !Committed(m.w.attempts, m.attempt))
      ensures host.Linked() ==> m.w.plan.Some?
    {
    }

    /** The failure path of `run`. */
    method RollBack() returns (r: Status)
      requires Failing()
      modifies host, journal, m`w, m`trace, m`failures
      ensures old(m.failures) <= m.failures
      ensures m.Valid() && r.Raised? && (Committed(m.w.attempts, m.attempt) ==> m.w.unsettled)
      ensures m.w.plan.None? ==> Restored(m.cfg, m.base, m.attempt, m.w)
      ensures m.w.plan.Some? ==> old(m.failures) < m.failures || Blocked(m.cfg, m.w)
    {
      hide Machine.Valid, Good, Restored, Committed, PutBack, Retagged, FilesBack, DockerHost.Fresh, DockerHost.Linked, Journalled, Reached, History, SameTag, Failing,
           DockerHost.Stuck, Unmoved;
      StillUnfinished();
      FailedRun();
      JournalOf();
      ghost var planned := m.w.plan.Some?;
      if planned { PlannedLinked(); }
      ghost var start := m.w;
      ghost var cleaning;
      r, cleaning := host.Rollback();
      if !planned {
        m.Now();
        UncommittedRests(m.cfg, m.base, m.attempt, m.w);
      }
      ghost var after := m.w;
      if planned && m.w.plan.Some? { BlockedHere(start); }
      var failed := journal.Fail();
      if after.plan.None? { RestoredStill(m.cfg, m.base, m.attempt, after, m.w); }
      return Raised;
    }

    lemma JournalOf()
      requires Failing()
      ensures host.m == journal.m == m && (host.Fresh() || host.Linked())
    {
    }

    lemma PlannedLinked()
      requires Failing() && m.w.plan.Some?
      ensures host.Linked() && host.replicas == m.w.plan.value.replicas && (host.flags.traffic ==> m.w.intent.traffic)
      ensures host.flags.migration ==> host.baselines != map[]
    {
      hide Machine.Valid, DockerHost.Linked, DockerHost.Stuck;
      host.StuckBlocked();
    }

    lemma BlockedHere(start: World)
      requires m == host.m && m.w.plan.Some? && m.w.plan == start.plan && m.w.intent == start.intent
      requires host.replicas == start.plan.value.replicas && (host.flags.traffic ==> start.intent.traffic)
      requires host.flags.migration ==> host.baselines != map[]
      ensures host.Stuck() ==> Blocked(m.cfg, m.w)
    {
    }

    /** `run`. A failure is rolled back and journalled as failed; nothing after the commit is rolled back. Unless a second
        step fails the rollback is complete, or it got stuck at its first route. */
    method Run() returns (r: Status)
      requires At(0) && host.Fresh() && !host.prepared
      modifies host, journal, m`w, m`trace, m`failures
      ensures old(m.failures) <= m.failures
      ensures m.Valid()
      ensures r.Done? ==> Committed(m.w.attempts, m.attempt) && !m.w.unsettled && Deployed(m.cfg, m.base, m.attempt, m.w)
      ensures r.Raised? ==> (Committed(m.w.attempts, m.attempt) ==> m.w.unsettled)
      ensures r.Raised? && m.w.plan.None? ==> Restored(m.cfg, m.base, m.attempt, m.w)
      ensures r.Raised? ==> old(m.failures) < m.failures
      ensures r.Raised? && m.failures == old(m.failures) + 1 ==> m.w.plan.None? || Blocked(m.cfg, m.w)
    {
      hide Machine.Valid, Good, Deployed, Restored, Committed, Loads, Apart, PutBack, Retagged, FilesBack, DockerHost.Fresh, DockerHost.Linked, Journalled, Reached, History, SameTag;
      r := Forward();
      if r.Raised? {
        r := RollBack();
        return;
      }
      r := host.CleanupSuccess();
      if r.Done? { r := journal.RecordCleanup(); }
      if r.Raised? { r := journal.RecordCleanup(); }
      m.Now();
      CommittedDeployed(m.cfg, m.base, m.attempt, m.w);
      return Done;
    }
  }

  class PreflightEngine {
    const host: DockerHost
    const journal: DeploymentJournal
    const m: Machine

    constructor (host: DockerHost, journal: DeploymentJournal)
      requires host.m == journal.m
      ensures this.host == host && this.journal == journal && m == host.m
    {
      this.host, this.journal, this.m := host, journal, host.m;
    }

    lemma StillUnfinished()
      requires host.m == journal.m == m && (host.Fresh() || host.Linked())
      requires m.attempt in m.w.attempts && m.w.attempts[m.attempt] == journal.record == Record([], Running)
      ensures journal.Unfinished()
    {
      hide Machine.Valid, Good, Matches, Journalled, Reached, Fits;
      HostValid();
      m.Now();
      FitsNow(m.cfg, m.base, m.attempt, m.w);
    }

    lemma HostValid()
      requires host.m == m && (host.Fresh() || host.Linked())
      ensures m.Valid()
    {
    }

    lemma StartsFresh()
      requires host.m == m && host.Fresh()
      ensures m.base.live == m.w.live && !m.w.unsettled && !Committed(m.w.attempts, m.attempt) && host.flags == NO_FLAGS
    {
    }

    /** No flag is ever raised in a preflight. */
    lemma NeverStuck()
      requires host.m == m && (host.Fresh() || host.Linked()) && host.flags == NO_FLAGS
      ensures !host.Stuck() && (m.w.plan.Some? ==> host.Linked())
    {
    }

    /** The candidate is built and inspected. */
    method Inspect() returns (r: Status)
      requires host.m == m && host.Fresh() && !host.prepared
      requires m.attempt in m.w.attempts && m.w.attempts[m.attempt] == Record([], Running)
      modifies host, m`w, m`trace, m`failures
      ensures old(m.failures) <= m.failures && (r.Raised? ==> old(m.failures) < m.failures)
      ensures (host.Fresh() || host.Linked()) && host.flags == NO_FLAGS && SameVerdict(old(m.w), m.w)
      ensures r.Done? ==> host.prepared && m.w.plan.Some?
    {
      hide Machine.Valid, DockerHost.Fresh, DockerHost.Linked, Candidates, Pinned, SlotsRun;
      StartsFresh();
      var failures := m.failures;
      r := host.Validate();
      if r.Done? { r := host.PrepareCandidate(); }
      if r.Done? {
        host.SyncedOpen();
        host.RollbackStart();
      }
      if r.Raised? && m.failures == failures { m.Refuse(); }
    }

    /** `run`: build and inspect a candidate, then undo everything whether or not that worked. Only a failed step can leave
        the plan behind, and two if it was a failure that ended the inspection. */
    method Run() returns (r: Status, ghost validated: Status)
      requires host.m == journal.m == m && host.Fresh() && !host.prepared
      requires m.attempt in m.w.attempts && m.w.attempts[m.attempt] == journal.record == Record([], Running)
      modifies host, journal, m`w, m`trace, m`failures
      ensures old(m.failures) <= m.failures
      ensures m.Valid() && (Committed(m.w.attempts, m.attempt) ==> m.w.unsettled)
      ensures m.w.plan.None? ==> Restored(m.cfg, m.base, m.attempt, m.w)
      ensures r.Done? ==> m.w.plan.None? && m.attempt in m.w.attempts && m.w.attempts[m.attempt] == Record([CandidateValidated], Success)
      ensures r.Done? ==> Unmoved(m.cfg, m.base, m.w.live.groups) && m.w.live.loaded == m.base.live.loaded
      ensures m.w.plan.Some? ==> old(m.failures) < m.failures
      ensures validated.Raised? ==> r.Raised? && (m.w.plan.Some? ==> old(m.failures) + 1 < m.failures)
    {
      hide Machine.Valid, Good, Restored, Committed, PutBack, Retagged, FilesBack, DockerHost.Fresh, DockerHost.Linked, Journalled, History, SameTag, Candidates;
      StartsFresh();
      var inspected := Inspect();
      StillUnfinished();
      NeverStuck();
      validated := inspected;
      ghost var cleaning;
      r, cleaning := host.Rollback();
      m.Now();
      UncommittedRests(m.cfg, m.base, m.attempt, m.w);
      ghost var after := m.w;
      if inspected.Raised? || r.Raised? {
        var failed := journal.Fail();
        if after.plan.None? { RestoredStill(m.cfg, m.base, m.attempt, after, m.w); }
        return Raised, validated;
      }
      r := journal.SucceedPreflight();
      RestoredStill(m.cfg, m.base, m.attempt, after, m.w);
    }
  }
}
