/** Concrete runs in which the three exceptions of the protocol are real. */
module DeploymentWitness {
  import opened Sequences
  import opened Wrappers
  import opened DeploymentWorld
  import opened DeploymentSteps
  import opened DeploymentMachine
  import opened DeploymentViews
  import opened DeploymentHost
  import opened DeploymentReceiver

  const WEB: Service := "web"
  const BEAT: Service := "beat"
  const WORK: Service := "work"
  const DATABASE: Service := "database"

  /** Three application services with a reference each, and one infrastructure service. */
  const CONFIG: Config :=
    Config([WEB, BEAT, WORK], [DATABASE], WEB, BEAT,
           (s: Service) => if s == WEB then 0 else if s == BEAT then 1 else 2, (a: nat, i: nat) => 3 + i, (a: nat) => a)

  const GROUPS: map<Service, Group> :=
    map[WEB := Group(0, 0, 1, 0), BEAT := Group(0, 1, 1, 0), WORK := Group(0, 2, 1, 0), DATABASE := Group(0, 3, 1, 0)]

  /** Everything runs, and no attempt was ever made. */
  const BEFORE: World :=
    World(Live(GROUPS, {}, 4, map[], map[0 := 0, 1 := 0, 2 := 0], Route([Compose(WEB)], []), Route([Compose(WEB)], [])),
          Files(Original(0), Original(1), None, None, Original(2), 0), map[], None, map[], NO_FLAGS, NO_FLAGS, false)

  const IMAGES: map<Service, Image> := map[WEB := 0, BEAT := 0, WORK := 0]
  const REPLICAS: map<Service, nat> := map[WEB := 1, BEAT := 1, WORK := 1]
  const SLOT: Target := Slot(Previous, 0, 1)

  lemma ConfigValid()
    ensures ValidConfig(CONFIG)
  {
    assert WEB in CONFIG.services && BEAT in CONFIG.services;
    assert WEB[0] != BEAT[0] && WEB != BEAT && |WORK| == |BEAT| && WORK[0] != BEAT[0] && |DATABASE| == 8;
  }

  // ---------------------------------------------------------------- a copy cut short

  /** The copy of the managed upstream into the backup directory was cut short. */
  const TORN: World :=
    BEFORE.(attempts := map[0 := Record([Validated], Running)],
            backups := map[0 := Backup(Some(Original(0)), Some(Original(1)), Some(Damaged), None, None, None)])

  lemma TornGood()
    ensures Good(CONFIG, BEFORE, 0, TORN) && Copies(BEFORE, TORN.backups[0]) && Untried(BEFORE, TORN, 0)
    ensures Good(CONFIG, BEFORE, 0, TORN.(live := TORN.live.(upstream := Damaged)))
  {
    var t := Compose(WEB);
    assert t in Names(TORN.live.loaded) && Up(TORN.live.groups, TORN.live.slots, t);
    assert History([Validated]) by { assert [Validated] == DEPLOYMENT_STATES[..1]; }
  }

  /** On this host a rollback that returns leaves the rest of the copy as the managed upstream. */
  method TornUpstream() returns (host: DockerHost, r: Status)
    ensures fresh(host) && host.m.base == BEFORE && host.m.cfg == CONFIG
    ensures r.Done? ==> host.m.w.live.upstream == Damaged != BEFORE.live.upstream && host.m.w.files == BEFORE.files
  {
    hide Machine.Valid, Good, Restored, PutBack, Retagged, Unmoved, OldImages, Untried, DockerHost.Linked, DockerHost.Fresh;
    ConfigValid();
    TornGood();
    var m := new Machine(CONFIG, TORN, BEFORE, 0);
    host := new DockerHost(m);
    host.images, host.replicas := IMAGES, REPLICAS;
    host.prepared, host.settingsMeta, host.upstreamMeta := true, true, true;
    Prepared(host);
    ghost var cleaning;
    r, cleaning := host.Rollback();
  }

  lemma Prepared(host: DockerHost)
    requires host.m.Valid() && host.m.cfg == CONFIG && host.m.base == BEFORE && host.m.w == TORN && host.m.attempt == host.attempt == 0
    requires host.images == IMAGES && host.flags == NO_FLAGS && host.previous == host.candidate == [] && host.pins == []
    ensures host.Fresh()
  {
    hide Machine.Valid, Good;
    TornGood();
    assert SetOf(CONFIG.services) == {WEB, BEAT, WORK};
  }

  // ---------------------------------------------------------------- a save that raised

  const BACKUP: Backup := BackupOf(BEFORE)
  const SWITCHED: Route := Route([SLOT], [Compose(WEB)])

  function PlanWith(flags: Flags, previous: seq<Target>): Plan {
    Plan(0, BACKUP, IMAGES, REPLICAS, [], previous, [], false, false, flags)
  }

  /** An armed attempt with a previous slot: these flags are on disk, and `intent` in memory. */
  function Host(disk: Flags, intent: Flags, states: nat, route: Route, statics: Text): World
    requires states <= |DEPLOYMENT_STATES|
  {
    World(Live(GROUPS, {}, 4, map[SLOT := 0], BEFORE.live.tags, route, route), BEFORE.files.(statics := statics), map[0 := BACKUP],
          Some(PlanWith(disk, [SLOT])), map[0 := Record(DEPLOYMENT_STATES[..states], Running)], intent, Minus(intent, disk), false)
  }

  /** What the flags of such a host must satisfy. */
  predicate Announced(disk: Flags, intent: Flags, states: nat, route: Route, statics: Text) {
    && states < |DEPLOYMENT_STATES| && Ordered(disk) && Ordered(intent) && Within(disk, intent)
    && Journalled(DEPLOYMENT_STATES[..states], intent) && Reached(DEPLOYMENT_STATES[..states], disk)
    && (intent.traffic ==> disk.migration)
    && (route == BEFORE.live.loaded || (route == SWITCHED && intent.traffic)) && (statics == BEFORE.files.statics || disk.statics)
  }

  lemma HostGood(disk: Flags, intent: Flags, states: nat, route: Route, statics: Text)
    requires Announced(disk, intent, states, route, statics)
    ensures Good(CONFIG, BEFORE, 0, Host(disk, intent, states, route, statics))
    ensures Armed(CONFIG, BEFORE, 0, PlanWith(disk, [SLOT]), Host(disk, intent, states, route, statics))
  {
    hide Sound, Captured, Untouched, GroupCover, RouteCover, FileCover, SlotCover, Serving, Housekeeping, Deployed, Announced;
    HostSound(disk, intent, states, route, statics);
    HostParts(disk, intent, states, route, statics);
  }

  lemma HostSound(disk: Flags, intent: Flags, states: nat, route: Route, statics: Text)
    requires Announced(disk, intent, states, route, statics)
    ensures states < |DEPLOYMENT_STATES|
    ensures Sound(CONFIG, BEFORE, 0, PlanWith(disk, [SLOT]), Host(disk, intent, states, route, statics))
  {
    hide Captured;
    PlanCaptured(PlanWith(disk, [SLOT]));
    assert Either(disk, Minus(intent, disk)) == intent;
  }

  lemma HostParts(disk: Flags, intent: Flags, states: nat, route: Route, statics: Text)
    requires Announced(disk, intent, states, route, statics)
    ensures states < |DEPLOYMENT_STATES|
    ensures var w := Host(disk, intent, states, route, statics);
            && Serving(w.live.groups, w.live.slots, w.live.loaded, {}) && Housekeeping(CONFIG, BEFORE, w)
            && Untouched(CONFIG, BEFORE, 0, w.live.groups, w.live.slots) && w.files.settings == BEFORE.files.settings
            && SlotCover(0, PlanWith(disk, [SLOT]), w.live.slots) && FileCover(BEFORE, disk, w)
            && GroupCover(CONFIG, BEFORE, Either(disk, w.lost), w.live.groups)
            && RouteCover(BEFORE, Either(disk, w.lost), w.live.loaded, w.live.upstream)
            && !Committed(w.attempts, 0)
  {
    var w := Host(disk, intent, states, route, statics);
    assert Compose(WEB) in Names(w.live.loaded) && Up(w.live.groups, w.live.slots, Compose(WEB));
    assert Either(disk, Minus(intent, disk)) == intent;
  }

  lemma PlanCaptured(p: Plan)
    requires p == PlanWith(p.flags, p.previous)
    ensures Captured(CONFIG, BEFORE, p)
  {
    assert Compose(WEB) in Names(BEFORE.live.loaded) && Up(BEFORE.live.groups, BEFORE.live.slots, Compose(WEB));
    assert (set s | s in CONFIG.services) == {WEB, BEAT, WORK};
  }

  ghost predicate On(m: Machine, w: World)
    reads m
  {
    m.Valid() && m.cfg == CONFIG && m.base == BEFORE && m.attempt == 0 && m.w == w
  }

  const BEGUN: World := BEFORE.(attempts := map[0 := Record([Validated], Running)])

  /** Journal and backup; `followed` tells whether every step returned. */
  method Prepare() returns (m: Machine, followed: bool)
    ensures fresh(m) && m.Valid() && m.cfg == CONFIG && m.base == BEFORE
    ensures followed ==> On(m, BEGUN.(backups := map[0 := BACKUP]))
  {
    hide Machine.Valid, Good;
    ConfigValid();
    IdleGood(0);
    m := new Machine(CONFIG, BEFORE, BEFORE, 0);
    m.Begin(0);
    var s := m.SaveRecord(Record([], Running));
    if s.Raised? { return m, false; }
    s := m.SaveRecord(Record([Validated], Running));
    if s.Raised? { return m, false; }
    s := m.CreateBackup();
    if s.Raised? { return m, false; }
    var k := EMPTY_BACKUP.(dockerfile := BACKUP.dockerfile);
    s := m.CopyToBackup(EMPTY_BACKUP.(dockerfile := Some(Truncated)), k);
    if s.Raised? { return m, false; }
    s := m.CopyToBackup(k.(settings := Some(Truncated)), k.(settings := BACKUP.settings));
    if s.Raised? { return m, false; }
    k := k.(settings := BACKUP.settings);
    s := m.CopyToBackup(k.(upstream := Some(Damaged)), k.(upstream := BACKUP.upstream));
    if s.Raised? { return m, false; }
    s := m.CopyToBackup(k.(upstream := BACKUP.upstream), BACKUP);
    return m, s.Done?;
  }

  lemma IdleGood(a: nat)
    ensures Good(CONFIG, BEFORE, a, BEFORE)
  {
    assert Compose(WEB) in Names(BEFORE.live.loaded) && Up(BEFORE.live.groups, BEFORE.live.slots, Compose(WEB));
  }

  /** The first plan, the name of a slot, and the slot. */
  method Arm() returns (m: Machine, followed: bool)
    ensures fresh(m) && m.Valid() && m.cfg == CONFIG && m.base == BEFORE
    ensures followed ==> On(m, Host(NO_FLAGS, NO_FLAGS, 1, BEFORE.live.loaded, BEFORE.files.statics))
  {
    hide Machine.Valid, Good, Armed;
    m, followed := Prepare();
    if !followed { return; }
    FirstArmed([]);
    var s := m.SavePlan(PlanWith(NO_FLAGS, []));
    if s.Raised? { return m, false; }
    FirstArmed([SLOT]);
    s := m.SavePlan(PlanWith(NO_FLAGS, [SLOT]));
    if s.Raised? { return m, false; }
    s := m.StartSlot(SLOT);
    assert s.Done? ==> m.w.live.slots == map[SLOT := 0];
    assert DEPLOYMENT_STATES[..1] == [Validated];
    NothingLost(NO_FLAGS);
    return m, s.Done?;
  }

  lemma FirstArmed(previous: seq<Target>)
    requires previous in {[], [SLOT]}
    ensures forall p: Option<Plan> ::
              Armed(CONFIG, BEFORE, 0, PlanWith(NO_FLAGS, previous), BEGUN.(backups := map[0 := BACKUP], plan := p))
  {
    hide Captured;
    PlanCaptured(PlanWith(NO_FLAGS, previous));
    assert Either(NO_FLAGS, NO_FLAGS) == NO_FLAGS;
  }

  /** New flags are raised and saved. */
  method Announce(m: Machine, disk: Flags, intent: Flags, states: nat, route: Route, statics: Text) returns (followed: bool)
    requires Announced(disk, disk, states, route, statics) && Announced(disk, intent, states, route, statics)
    requires Announced(intent, intent, states, route, statics) && On(m, Host(disk, disk, states, route, statics))
    modifies m
    ensures m.Valid() && m.cfg == CONFIG && m.base == BEFORE
    ensures followed ==> On(m, Host(intent, intent, states, route, statics))
  {
    hide Machine.Valid, Good, Armed, Ordered, Within, Journalled, Reached, Either;
    Raisable(disk, intent, states, route, statics);
    m.Intend(intent);
    ghost var w := m.w;
    SavableNow(disk, intent, states, route, statics);
    var s := m.SavePlan(PlanWith(intent, [SLOT]));
    NothingLost(intent);
    return s.Done?;
  }

  /** New flags are raised, and the save that should write them leaves the old plan. */
  method Lose(m: Machine, disk: Flags, intent: Flags, states: nat, route: Route, statics: Text) returns (followed: bool)
    requires Announced(disk, disk, states, route, statics) && Announced(disk, intent, states, route, statics)
    requires Announced(intent, intent, states, route, statics) && On(m, Host(disk, disk, states, route, statics)) && disk != intent
    modifies m
    ensures m.Valid() && m.cfg == CONFIG && m.base == BEFORE
    ensures followed ==> On(m, Host(disk, intent, states, route, statics))
  {
    hide Machine.Valid, Good, Armed, Ordered, Within, Journalled, Reached, Either;
    Raisable(disk, intent, states, route, statics);
    m.Intend(intent);
    SavableNow(disk, intent, states, route, statics);
    var s := m.SavePlan(PlanWith(intent, [SLOT]));
    return s.Raised? && m.w.plan == Some(PlanWith(disk, [SLOT]));
  }

  lemma Raisable(disk: Flags, intent: Flags, states: nat, route: Route, statics: Text)
    requires Announced(disk, disk, states, route, statics) && Announced(disk, intent, states, route, statics)
    ensures Ordered(intent) && Within(disk, intent) && Journalled(DEPLOYMENT_STATES[..states], intent)
    ensures Minus(disk, disk) == NO_FLAGS && (intent.traffic ==> disk.migration)
  {
  }

  lemma NothingLost(f: Flags)
    ensures Minus(f, f) == NO_FLAGS
  {
  }

  lemma SavableNow(disk: Flags, intent: Flags, states: nat, route: Route, statics: Text)
    requires Announced(intent, intent, states, route, statics)
    ensures states <= |DEPLOYMENT_STATES|
    ensures var w := Host(disk, disk, states, route, statics).(intent := intent);
            Armed(CONFIG, BEFORE, 0, PlanWith(intent, [SLOT]), w.(lost := NO_FLAGS))
  {
    hide Captured, Serving;
    HostGood(intent, intent, states, route, statics);
    NothingLost(intent);
    var w := Host(disk, disk, states, route, statics).(intent := intent, lost := NO_FLAGS);
    assert w == Host(intent, intent, states, route, statics).(plan := w.plan);
  }

  /** The next states are recorded. */
  method RecordStates(m: Machine, flags: Flags, states: nat, next: nat, route: Route, statics: Text) returns (followed: bool)
    requires Announced(flags, flags, states, route, statics) && Announced(flags, flags, next, route, statics) && states <= next
    requires On(m, Host(flags, flags, states, route, statics))
    modifies m
    ensures m.Valid() && m.cfg == CONFIG && m.base == BEFORE
    ensures followed ==> On(m, Host(flags, flags, next, route, statics))
  {
    hide Machine.Valid, Good, Ordered, Within, Committed;
    var n := states;
    while n < next
      invariant states <= n <= next && On(m, Host(flags, flags, n, route, statics))
    {
      Recordable(flags, n, n + 1, states, next, route, statics);
      var s := m.SaveRecord(Record(DEPLOYMENT_STATES[..n + 1], Running));
      if s.Raised? { return false; }
      n := n + 1;
    }
    return true;
  }

  lemma Recordable(flags: Flags, n: nat, n': nat, states: nat, next: nat, route: Route, statics: Text)
    requires Announced(flags, flags, states, route, statics) && Announced(flags, flags, next, route, statics) && states <= n < n' <= next
    ensures n' < |DEPLOYMENT_STATES| && History(DEPLOYMENT_STATES[..n'])
    ensures Journalled(DEPLOYMENT_STATES[..n'], flags) && Reached(DEPLOYMENT_STATES[..n'], flags)
    ensures !Committed(map[0 := Record(DEPLOYMENT_STATES[..n], Running)], 0) && Record(DEPLOYMENT_STATES[..n'], Running) != Record(DEPLOYMENT_STATES, Success)
  {
    assert DEPLOYMENT_STATES[..n'] <= DEPLOYMENT_STATES;
  }

  /** Users move to the slot. */
  method Switch(m: Machine, disk: Flags, intent: Flags, states: nat, statics: Text) returns (followed: bool)
    requires Announced(disk, intent, states, BEFORE.live.loaded, statics) && intent.traffic
    requires On(m, Host(disk, intent, states, BEFORE.live.loaded, statics))
    modifies m
    ensures m.Valid() && m.cfg == CONFIG && m.base == BEFORE
    ensures followed ==> On(m, Host(disk, intent, states, SWITCHED, statics))
  {
    hide Machine.Valid, Good, Ordered, Within, Journalled, Reached;
    Unfinished(disk, intent, states);
    var s := m.WriteUpstream(SWITCHED);
    if s.Raised? { return false; }
    s := m.NginxTest();
    if s.Raised? { return false; }
    s := m.NginxReload();
    return s.Done?;
  }

  lemma Unfinished(disk: Flags, intent: Flags, states: nat)
    requires states < |DEPLOYMENT_STATES|
    ensures !Committed(map[0 := Record(DEPLOYMENT_STATES[..states], Running)], 0)
    ensures intent.traffic ==> Either(disk, Minus(intent, disk)).traffic
    ensures intent.workers ==> Either(disk, Minus(intent, disk)).workers
    ensures intent.gunicorn ==> Either(disk, Minus(intent, disk)).gunicorn
  {
  }

  /** The traffic flag does not reach the disk, and the rollback routes users to the slot first. */
  method LoseTraffic() returns (m: Machine, followed: bool)
    ensures fresh(m) && m.Valid() && m.cfg == CONFIG && m.base == BEFORE
    ensures followed ==> m.w.plan.Some? && !RouteCover(BEFORE, m.w.plan.value.flags, m.w.live.loaded, m.w.live.upstream)
  {
    hide Machine.Valid, Good;
    m, followed := Migrating();
    if !followed { return; }
    followed := Lose(m, MIGRATION_FLAGS, MIGRATION_FLAGS.(traffic := true), 3, BEFORE.live.loaded, BEFORE.files.statics);
    if !followed { return; }
    followed := Switch(m, MIGRATION_FLAGS, MIGRATION_FLAGS.(traffic := true), 3, BEFORE.files.statics);
  }

  /** The backup is recorded and the schema migrated. */
  method Migrating() returns (m: Machine, followed: bool)
    ensures fresh(m) && m.Valid() && m.cfg == CONFIG && m.base == BEFORE
    ensures followed ==> On(m, Host(MIGRATION_FLAGS, MIGRATION_FLAGS, 3, BEFORE.live.loaded, BEFORE.files.statics))
  {
    hide Machine.Valid, Good;
    m, followed := Arm();
    if !followed { return; }
    followed := RecordStates(m, NO_FLAGS, 1, 3, BEFORE.live.loaded, BEFORE.files.statics);
    if !followed { return; }
    followed := Announce(m, NO_FLAGS, MIGRATION_FLAGS, 3, BEFORE.live.loaded, BEFORE.files.statics);
    if !followed { return; }
    Unfinished(MIGRATION_FLAGS, MIGRATION_FLAGS, 3);
    var s := m.Migrate();
    followed := s.Done?;
  }

  /** Users are on the slot, statics are collected and six states recorded. */
  method Forward() returns (m: Machine, followed: bool)
    ensures fresh(m) && m.Valid() && m.cfg == CONFIG && m.base == BEFORE
    ensures followed ==> On(m, Host(STATIC_FLAGS, STATIC_FLAGS, 6, SWITCHED, CollectedStatics(0)))
  {
    hide Machine.Valid, Good;
    var routed := MIGRATION_FLAGS.(traffic := true);
    m, followed := Migrating();
    if !followed { return; }
    followed := Announce(m, MIGRATION_FLAGS, routed, 3, BEFORE.live.loaded, BEFORE.files.statics);
    if !followed { return; }
    followed := Switch(m, routed, routed, 3, BEFORE.files.statics);
    if !followed { return; }
    followed := Announce(m, routed, STATIC_FLAGS, 3, SWITCHED, BEFORE.files.statics);
    if !followed { return; }
    Unfinished(STATIC_FLAGS, STATIC_FLAGS, 3);
    var s := m.Collect();
    if s.Raised? { return m, false; }
    followed := RecordStates(m, STATIC_FLAGS, 3, 6, SWITCHED, CollectedStatics(0));
  }

  /** The workers flag does not reach the disk, and the rollback recreates a worker. */
  method LoseWorkers() returns (m: Machine, followed: bool)
    ensures fresh(m) && m.Valid() && m.cfg == CONFIG && m.base == BEFORE
    ensures followed ==> m.w.plan.Some? && !WorkerCover(CONFIG, BEFORE, m.w.plan.value.flags, m.w.live.groups)
  {
    hide Machine.Valid, Good;
    m, followed := Forward();
    if !followed { return; }
    followed := Lose(m, STATIC_FLAGS, WORKER_FLAGS, 6, SWITCHED, CollectedStatics(0));
    if !followed { return; }
    followed := Replace(m, STATIC_FLAGS, WORKER_FLAGS, 6, WORK);
    assert WORK in CONFIG.services && WORK != CONFIG.gunicorn;
  }

  /** The Gunicorn flag does not reach the disk, and the rollback recreates Gunicorn. */
  method LoseGunicorn() returns (m: Machine, followed: bool)
    ensures fresh(m) && m.Valid() && m.cfg == CONFIG && m.base == BEFORE
    ensures followed ==> m.w.plan.Some? && !GunicornCover(CONFIG, BEFORE, m.w.plan.value.flags, m.w.live.groups)
  {
    hide Machine.Valid, Good;
    m, followed := Forward();
    if !followed { return; }
    followed := Announce(m, STATIC_FLAGS, WORKER_FLAGS, 6, SWITCHED, CollectedStatics(0));
    if !followed { return; }
    followed := RecordStates(m, WORKER_FLAGS, 6, 8, SWITCHED, CollectedStatics(0));
    if !followed { return; }
    followed := Lose(m, WORKER_FLAGS, WEB_FLAGS, 8, SWITCHED, CollectedStatics(0));
    if !followed { return; }
    followed := Replace(m, WORKER_FLAGS, WEB_FLAGS, 8, WEB);
  }

  /** One service is recreated while the slot serves. */
  method Replace(m: Machine, disk: Flags, intent: Flags, states: nat, s: Service) returns (followed: bool)
    requires Announced(disk, intent, states, SWITCHED, CollectedStatics(0)) && On(m, Host(disk, intent, states, SWITCHED, CollectedStatics(0)))
    requires s in {WORK, WEB} && if s == WEB then intent.gunicorn else intent.workers
    modifies m
    ensures m.Valid() && m.cfg == CONFIG && m.base == BEFORE
    ensures followed ==> m.w.plan == Some(PlanWith(disk, [SLOT])) && !SameGroup(GROUPS, m.w.live.groups, s)
  {
    hide Machine.Valid, Good, Ordered, Within, Journalled, Reached;
    Unfinished(disk, intent, states);
    assert WORK in CONFIG.services && WEB in CONFIG.services && WORK != WEB && WORK != BEAT && WEB != BEAT by { ConfigValid(); assert WORK[1] != WEB[1]; }
    assert SLOT in Names(m.w.live.loaded) && Up(m.w.live.groups, m.w.live.slots, SLOT);
    var r := m.Recreate(s, 1);
    return r.Done?;
  }

  /** The host in the middle of recreating a service. */
  function Without(w: World, s: Service): World {
    w.(live := w.live.(groups := w.live.groups - {s}, nextIdentity := w.live.nextIdentity + 1))
  }

  /** Each of the three flags a save may lose is a real exception: the invariant holds, exactly this flag is in memory
      and not on disk, and what it announces has changed. */
  lemma LostFlags()
    ensures var w := Host(MIGRATION_FLAGS, MIGRATION_FLAGS.(traffic := true), 3, SWITCHED, BEFORE.files.statics);
            Good(CONFIG, BEFORE, 0, w) && !RouteCover(BEFORE, w.plan.value.flags, w.live.loaded, w.live.upstream)
    ensures var w := Without(Host(STATIC_FLAGS, WORKER_FLAGS, 6, SWITCHED, CollectedStatics(0)), WORK);
            Good(CONFIG, BEFORE, 0, w) && !WorkerCover(CONFIG, BEFORE, STATIC_FLAGS, w.live.groups)
    ensures var w := Without(Host(WORKER_FLAGS, WEB_FLAGS, 8, SWITCHED, CollectedStatics(0)), WEB);
            Good(CONFIG, BEFORE, 0, w) && !GunicornCover(CONFIG, BEFORE, WORKER_FLAGS, w.live.groups)
  {
    hide Good;
    ConfigValid();
    HostGood(MIGRATION_FLAGS, MIGRATION_FLAGS.(traffic := true), 3, SWITCHED, BEFORE.files.statics);
    WithoutGood(STATIC_FLAGS, WORKER_FLAGS, 6, WORK);
    WithoutGood(WORKER_FLAGS, WEB_FLAGS, 8, WEB);
    assert WORK in CONFIG.services && WORK != WEB;
  }

  lemma WithoutGood(disk: Flags, intent: Flags, states: nat, s: Service)
    requires Announced(disk, intent, states, SWITCHED, CollectedStatics(0)) && s in {WORK, WEB}
    requires if s == WEB then intent.gunicorn else intent.workers
    ensures states < |DEPLOYMENT_STATES|
    ensures var w := Without(Host(disk, intent, states, SWITCHED, CollectedStatics(0)), s);
            Good(CONFIG, BEFORE, 0, w) && !SameGroup(GROUPS, w.live.groups, s)
  {
    hide Good, Ordered, Within, Journalled, Reached;
    var w := Host(disk, intent, states, SWITCHED, CollectedStatics(0));
    ConfigValid();
    HostGood(disk, intent, states, SWITCHED, CollectedStatics(0));
    Unfinished(disk, intent, states);
    assert WORK in CONFIG.services && WEB in CONFIG.services && WORK != WEB && WORK != BEAT && WEB != BEAT by { assert WORK[1] != WEB[1]; }
    assert SLOT in Names(w.live.loaded) && Up(w.live.groups, w.live.slots, SLOT);
    RecreateStep(CONFIG, BEFORE, 0, w, s, GROUPS - {s}, {}, 5);
  }

  // ---------------------------------------------------------------- between the two commit writes

  /** The second commit write failed and the rollback has put everything back; the receiver died before the journal
      said so. The next start counts the attempt as finished. `DeploymentEngine.CommittedDeployed` is the other case:
      once both writes have returned, a committed attempt is deployed. */
  lemma UnsettledCommit()
    ensures var w := BEFORE.(attempts := map[0 := Record(DEPLOYMENT_STATES, Success)], unsettled := true);
            && Good(CONFIG, BEFORE, 0, w) && w.plan.None? && Committed(w.attempts, 0)
            && Restored(CONFIG, BEFORE, 0, w) && !Deployed(CONFIG, BEFORE, 0, w)
  {
    assert Compose(WEB) in Names(BEFORE.live.loaded) && Up(BEFORE.live.groups, BEFORE.live.slots, Compose(WEB));
  }

  /** A host is never both as before and as deployed. */
  lemma NeverBoth(c: Config, b: World, a: nat, w: World)
    requires ValidConfig(c) && Restored(c, b, a, w)
    ensures !Deployed(c, b, a, w)
  {
    assert c.gunicorn in c.services;
  }

  /** A receiver that raises after the first commit write and leaves no plan has restored the host, and the journal on
      it says that the attempt succeeded. */
  method UnsettledRun(attempt: nat) returns (m: Machine, r: Status)
    ensures fresh(m) && m.Valid() && m.cfg == CONFIG
    ensures r.Raised? && m.attempt == attempt && m.w.plan.None? && Committed(m.w.attempts, attempt) ==>
              Restored(CONFIG, m.base, attempt, m.w) && !Deployed(CONFIG, m.base, attempt, m.w)
  {
    hide Machine.Valid, Good, Restored, Deployed, Unmoved, Committed;
    ConfigValid();
    IdleGood(attempt + 1);
    m := new Machine(CONFIG, BEFORE, BEFORE, attempt + 1);
    r := Receive(m, Request(attempt, Deploy));
    if r.Raised? && m.attempt == attempt && m.w.plan.None? { NeverBoth(CONFIG, m.base, attempt, m.w); }
  }
}
