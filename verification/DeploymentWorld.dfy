/** What outlives a receiver process: the Docker host, Nginx, the managed files and
    the receiver's own durable records, and the invariant every instant must meet. */
module DeploymentWorld {
  import opened Sequences
  import opened Wrappers

  type Service = string
  type Image = nat
  type Reference = nat

  datatype Role = Previous | Candidate

  /** A server Nginx can name: a Compose service, or a one-off web slot of one attempt. */
  datatype Target = Compose(service: Service) | Slot(role: Role, attempt: nat, index: nat)

  /** The managed upstream file. `Damaged` is the rest of an interrupted copy. */
  datatype Route = Route(primary: seq<Target>, backup: seq<Target>) | Damaged

  datatype Text =
    | Original(id: nat)
    | CandidateDockerfile(attempt: nat)
    | CollectedStatics(attempt: nat)
    | ReleaseMarker(attempt: nat)
    | LineagePointer(attempt: nat)
    | Truncated

  /** The running replicas of one Compose service. Recreation changes the identity. */
  datatype Group = Group(image: Image, identity: nat, replicas: nat, restarts: nat)

  /** `migrated` is the schema the migrations of an attempt lead to. */
  datatype Config = Config(
    services: seq<Service>, infrastructure: seq<Service>, gunicorn: Service, beat: Service,
    reference: Service -> Reference, pin: (nat, nat) -> Reference, migrated: nat -> nat)

  datatype Flags = Flags(migration: bool, traffic: bool, statics: bool, workers: bool, gunicorn: bool, marker: bool)

  const NO_FLAGS := Flags(false, false, false, false, false, false)

  datatype Backup = Backup(
    dockerfile: Option<Text>, settings: Option<Text>, upstream: Option<Route>,
    platform: Option<Text>, pointer: Option<Text>, statics: Option<Text>)

  const EMPTY_BACKUP := Backup(None, None, None, None, None, None)

  /** `active-recovery.json`. */
  datatype Plan = Plan(
    attempt: nat, digests: Backup, images: map<Service, Image>, replicas: map<Service, nat>,
    pins: seq<Reference>, previous: seq<Target>, candidate: seq<Target>,
    platformExisted: bool, pointerExisted: bool, flags: Flags)

  datatype Phase =
    | Validated | Prepared | BackedUp | Migrated | CandidateHealthy | TrafficSwitched
    | WorkersReplaced | Stabilized | WebPromoted | Verified | CandidateValidated

  const DEPLOYMENT_STATES: seq<Phase> :=
    [Validated, Prepared, BackedUp, Migrated, CandidateHealthy, TrafficSwitched,
     WorkersReplaced, Stabilized, WebPromoted, Verified]

  datatype Verdict = Running | Success | Failed

  /** An attempt journal. */
  datatype Record = Record(history: seq<Phase>, verdict: Verdict)

  /** Docker and Nginx. */
  datatype Live = Live(
    groups: map<Service, Group>,      // running replicas of each Compose service
    lingering: set<Service>,          // services whose old replicas still run beside the new ones
    nextIdentity: nat,
    slots: map<Target, Image>,        // running one-off web containers
    tags: map<Reference, Image>,
    upstream: Route,                  // the managed Nginx file
    loaded: Route)                    // what the Nginx master serves

  /** Managed files and data. */
  datatype Files = Files(
    dockerfile: Text,
    settings: Text,
    platform: Option<Text>,           // CURRENT.json
    pointer: Option<Text>,            // current.json
    statics: Text,
    schema: nat)

  /** `intent`, `lost` and `unsettled` are history variables: no step reads them. */
  datatype World = World(
    live: Live,
    files: Files,
    backups: map<nat, Backup>,
    plan: Option<Plan>,
    attempts: map<nat, Record>,
    intent: Flags,                    // flags some process of this attempt has raised in memory
    lost: Flags,                      // those of them that a raised save of the plan kept off the disk
    unsettled: bool)                  // the commit started and did not return

  /** The same host as an attempt finds it when it begins. */
  function Begun(w: World): World {
    w.(intent := NO_FLAGS, lost := NO_FLAGS, unsettled := false)
  }

  // ---------------------------------------------------------------- topology

  ghost predicate ValidConfig(c: Config) {
    && c.gunicorn in c.services && c.beat in c.services && c.gunicorn != c.beat
    && Distinct(c.services)
    && (forall s :: s in c.services ==> s !in c.infrastructure)
    && c.infrastructure != []
    && (forall a, i, s :: c.pin(a, i) != c.reference(s))
    && (forall a, i, j :: c.pin(a, i) == c.pin(a, j) ==> i == j)
  }

  function Names(r: Route): seq<Target> {
    if r.Route? then r.primary + r.backup else []
  }

  predicate Up(groups: map<Service, Group>, slots: map<Target, Image>, t: Target) {
    if t.Compose? then t.service in groups else t in slots
  }

  /** The condition under which `nginx -t` can resolve every server of a file. */
  predicate AllUp(groups: map<Service, Group>, slots: map<Target, Image>, r: Route) {
    r.Route? && r.primary != [] && forall t :: t in Names(r) ==> Up(groups, slots, t)
  }

  /** Some server of `r` outside `spared` runs. */
  ghost predicate Serving(groups: map<Service, Group>, slots: map<Target, Image>, r: Route, spared: set<Target>) {
    exists t :: t in Names(r) && t !in spared && Up(groups, slots, t)
  }

  function GunicornOnly(c: Config): Route {
    Route([Compose(c.gunicorn)], [])
  }

  predicate SameGroup(b: map<Service, Group>, g: map<Service, Group>, s: Service) {
    (s in b <==> s in g) && (s in b ==> b[s] == g[s])
  }

  ghost predicate SameOutside(b: map<Service, Group>, g: map<Service, Group>, touched: set<Service>) {
    forall s :: s !in touched ==> SameGroup(b, g, s)
  }

  // ---------------------------------------------------------------- flags

  predicate Ordered(f: Flags) {
    && (f.marker ==> f.gunicorn) && (f.gunicorn ==> f.workers) && (f.workers ==> f.statics)
    && (f.statics ==> f.traffic) && (f.traffic ==> f.migration)
  }

  predicate Within(f: Flags, g: Flags) {
    && (f.migration ==> g.migration) && (f.traffic ==> g.traffic) && (f.statics ==> g.statics)
    && (f.workers ==> g.workers) && (f.gunicorn ==> g.gunicorn) && (f.marker ==> g.marker)
  }

  function Either(f: Flags, g: Flags): Flags {
    Flags(f.migration || g.migration, f.traffic || g.traffic, f.statics || g.statics, f.workers || g.workers, f.gunicorn || g.gunicorn, f.marker || g.marker)
  }

  function Minus(f: Flags, g: Flags): Flags {
    Flags(f.migration && !g.migration, f.traffic && !g.traffic, f.statics && !g.statics, f.workers && !g.workers, f.gunicorn && !g.gunicorn, f.marker && !g.marker)
  }

  /** The journal a set of flags needs: no flag is raised before the state that guards it is recorded. */
  predicate Journalled(h: seq<Phase>, f: Flags) {
    && (f.migration ==> |h| >= 3) && (f.workers ==> |h| >= 6)
    && (f.gunicorn ==> |h| >= 8) && (f.marker ==> |h| >= 9)
  }

  /** The flags a journal implies. */
  predicate Reached(h: seq<Phase>, f: Flags) {
    h != [CandidateValidated] ==>
      && (|h| >= 4 ==> f.statics) && (|h| >= 7 ==> f.workers)
      && (|h| >= 9 ==> f.gunicorn) && (|h| >= 10 ==> f.marker)
  }

  predicate History(h: seq<Phase>) {
    h <= DEPLOYMENT_STATES || h == [CandidateValidated]
  }

  /** Startup treats exactly these attempts as finished. */
  predicate Committed(attempts: map<nat, Record>, a: nat) {
    a in attempts && attempts[a] == Record(DEPLOYMENT_STATES, Success)
  }

  // ---------------------------------------------------------------- the attempt's baseline

  /** The complete backup of the state before the attempt. */
  function BackupOf(b: World): Backup {
    Backup(Some(b.files.dockerfile), Some(b.files.settings), Some(b.live.upstream), b.files.platform, b.files.pointer, Some(b.files.statics))
  }

  /** Temporary rollback tags are no Compose references. */
  ghost predicate Apart(c: Config, pins: seq<Reference>) {
    forall r, s :: r in pins ==> r != c.reference(s)
  }

  /** The plan describes the baseline `b`. */
  ghost predicate Captured(c: Config, b: World, p: Plan) {
    && p.digests == BackupOf(b)
    && Serving(b.live.groups, b.live.slots, b.live.loaded, {})
    && b.live.upstream == GunicornOnly(c)
    && p.platformExisted == b.files.platform.Some? && p.pointerExisted == b.files.pointer.Some?
    && p.images.Keys == p.replicas.Keys == (set s | s in c.services)
    && (forall s :: s in c.services ==>
          s in b.live.groups && b.live.groups[s].image == p.images[s] && b.live.groups[s].replicas == p.replicas[s] > 0)
    && (forall s, t :: s in c.services && t in c.services && c.reference(s) == c.reference(t) ==>
          p.images[s] == p.images[t])
  }

  ghost predicate OwnSlots(names: seq<Target>, role: Role, a: nat) {
    forall t :: t in names ==> t.Slot? && t.role == role && t.attempt == a
  }

  /** What no step of an attempt ever touches. */
  ghost predicate Untouched(c: Config, b: World, a: nat, groups: map<Service, Group>, slots: map<Target, Image>) {
    && (forall s :: s !in c.services ==> SameGroup(b.live.groups, groups, s))
    && (forall t :: t in slots && t !in b.live.slots ==> t.Slot? && t.attempt == a)
    && (forall t :: t in b.live.slots ==> t in slots && slots[t] == b.live.slots[t] && t.Slot? && t.attempt != a)
  }

  /** Every mutation of containers is announced by `f`. */
  ghost predicate GroupCover(c: Config, b: World, f: Flags, groups: map<Service, Group>) {
    && (!f.workers ==> forall s :: s in c.services && s != c.gunicorn ==> SameGroup(b.live.groups, groups, s))
    && (!f.gunicorn ==> SameGroup(b.live.groups, groups, c.gunicorn))
  }

  /** Every mutation of routes is announced by `f`. */
  predicate RouteCover(b: World, f: Flags, loaded: Route, upstream: Route) {
    !f.traffic ==> loaded == b.live.loaded && upstream == b.live.upstream
  }

  /** Every mutation of data and marker files is announced by `f`. */
  predicate FileCover(b: World, f: Flags, w: World) {
    && (!f.migration ==> w.files.schema == b.files.schema)
    && (!f.statics ==> w.files.statics == b.files.statics)
    && (!f.marker ==> w.files.platform == b.files.platform && w.files.pointer == b.files.pointer)
  }

  /** Every slot the attempt may have started is listed. */
  ghost predicate SlotCover(a: nat, p: Plan, slots: map<Target, Image>) {
    forall t :: t in slots && t.Slot? && t.attempt == a ==> t in p.previous || t in p.candidate
  }

  // ---------------------------------------------------------------- states without a plan

  ghost predicate OldImages(c: Config, b: World, groups: map<Service, Group>) {
    forall s :: s in c.services && s in b.live.groups ==>
      s in groups && groups[s].image == b.live.groups[s].image && groups[s].replicas == b.live.groups[s].replicas
  }

  predicate SameTag(b: map<Reference, Image>, tags: map<Reference, Image>, r: Reference) {
    (r in tags <==> r in b) && (r in tags ==> tags[r] == b[r])
  }

  /** Every Compose reference resolves as before the attempt, or to the image that ran then. */
  ghost predicate OldReferences(c: Config, b: World, tags: map<Reference, Image>) {
    forall s :: s in c.services ==>
      || SameTag(b.live.tags, tags, c.reference(s))
      || (s in b.live.groups && c.reference(s) in tags && tags[c.reference(s)] == b.live.groups[s].image)
  }

  /** What plain copies into the backup directory, made in this order, leave when they stop at some point. */
  predicate Copies(b: World, k: Backup) {
    && k.dockerfile in {None, Some(Truncated), Some(b.files.dockerfile)}
    && k.upstream in {None, Some(Damaged), Some(b.live.upstream)}
    && (k.settings.Some? ==> k.dockerfile == Some(b.files.dockerfile))
    && (k.upstream.Some? ==> k.settings == Some(b.files.settings))
  }

  /** The managed files are as before. The exceptions come from plain copies that were cut short: the live Dockerfile
      may be the rest of one, and the upstream may be the rest of one that the backup holds. */
  predicate OldFiles(b: World, a: nat, w: World) {
    && w.files.platform == b.files.platform && w.files.pointer == b.files.pointer && w.files.statics == b.files.statics
    && (w.files.dockerfile == b.files.dockerfile || (w.files.dockerfile == Truncated && a in w.backups))
    && (w.live.upstream == b.live.upstream || (w.live.upstream == Damaged && a in w.backups && w.backups[a].upstream == Some(Damaged)))
  }

  /** The host serves what it served before the attempt. */
  ghost predicate Restored(c: Config, b: World, a: nat, w: World) {
    && OldImages(c, b, w.live.groups) && OldReferences(c, b, w.live.tags) && OldFiles(b, a, w)
    && Untouched(c, b, a, w.live.groups, w.live.slots) && w.live.slots == b.live.slots && w.files.settings == b.files.settings
    && (w.live.loaded == b.live.loaded || w.live.loaded == GunicornOnly(c))
  }

  ghost predicate NewImages(c: Config, b: World, groups: map<Service, Group>, tags: map<Reference, Image>) {
    forall s :: s in c.services ==>
      && s in groups && s in b.live.groups && c.reference(s) in tags
      && groups[s].image == tags[c.reference(s)] != b.live.groups[s].image && groups[s].replicas == b.live.groups[s].replicas
  }

  ghost predicate Deployed(c: Config, b: World, a: nat, w: World) {
    && NewImages(c, b, w.live.groups, w.live.tags)
    && w.live.upstream == w.live.loaded == GunicornOnly(c)
    && w.files.dockerfile == CandidateDockerfile(a) && w.files.schema == c.migrated(a) && w.files.statics == CollectedStatics(a)
    && w.files.platform == Some(ReleaseMarker(a)) && w.files.pointer == Some(LineagePointer(a))
  }

  ghost predicate AtRest(c: Config, b: World, a: nat, w: World) {
    if Committed(w.attempts, a) then w.unsettled || Deployed(c, b, a, w) else Restored(c, b, a, w)
  }

  // ---------------------------------------------------------------- states with a plan

  /** The plan is well formed and agrees with the baseline, the backup, the journal and the raised flags. */
  ghost predicate Sound(c: Config, b: World, a: nat, p: Plan, w: World) {
    && p.attempt == a && a in w.attempts && a !in b.attempts
    && Captured(c, b, p) && Apart(c, p.pins)
    && a in w.backups && w.backups[a] == p.digests
    && Ordered(p.flags) && Ordered(w.intent) && Within(p.flags, w.intent) && Within(w.lost, w.intent) && Ordered(Either(p.flags, w.lost))
    && (w.intent.traffic ==> p.flags.migration && p.previous != [])
    && Journalled(w.attempts[a].history, w.intent) && Reached(w.attempts[a].history, p.flags)
    && OwnSlots(p.previous, Previous, a) && OwnSlots(p.candidate, Candidate, a)
  }

  /** A plan is on disk: it covers every mutation made so far, up to flags that a raised save kept off it. */
  ghost predicate Armed(c: Config, b: World, a: nat, p: Plan, w: World) {
    && Sound(c, b, a, p, w)
    && Untouched(c, b, a, w.live.groups, w.live.slots) && w.files.settings == b.files.settings
    && SlotCover(a, p, w.live.slots)
    && FileCover(b, p.flags, w)
    && GroupCover(c, b, Either(p.flags, w.lost), w.live.groups) && RouteCover(b, Either(p.flags, w.lost), w.live.loaded, w.live.upstream)
    && (Committed(w.attempts, a) ==> w.unsettled || Deployed(c, b, a, w))
  }

  /** How many beat schedulers the current group runs. */
  function Schedulers(c: Config, groups: map<Service, Group>): nat {
    if c.beat in groups then groups[c.beat].replicas else 0
  }

  /** At most one, or no more than ran before the attempt. */
  predicate SingleBeat(c: Config, b: World, groups: map<Service, Group>) {
    Schedulers(c, groups) <= 1 || Schedulers(c, groups) <= Schedulers(c, b.live.groups)
  }

  ghost predicate Housekeeping(c: Config, b: World, w: World) {
    && c.beat !in w.live.lingering && w.live.lingering <= (set s | s in c.services) && SingleBeat(c, b, w.live.groups)
    && (forall t :: t in w.live.slots ==> t.Slot? && t.attempt in w.attempts)
    && (forall x :: x in w.attempts ==> History(w.attempts[x].history))
  }

  /** The invariant of every instant, whether or not a receiver process is alive. */
  ghost predicate Good(c: Config, b: World, a: nat, w: World) {
    && Serving(w.live.groups, w.live.slots, w.live.loaded, {})
    && Housekeeping(c, b, w)
    && (match w.plan
        case None => AtRest(c, b, a, w)
        case Some(p) => Armed(c, b, a, p, w))
  }
}
