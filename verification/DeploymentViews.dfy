/** What the memory of a process, the durable plan and the host say about each other. */
module DeploymentViews {
  import opened Limits
  import opened Sequences
  import opened Wrappers
  import opened DeploymentWorld
  import opened DeploymentSteps

  /** `q` describes the same attempt as `p`, with no flag or slot fewer. */
  ghost predicate Extends(p: Plan, q: Plan) {
    && q == p.(flags := q.flags, previous := q.previous, candidate := q.candidate)
    && Within(p.flags, q.flags) && p.previous <= q.previous && p.candidate <= q.candidate
  }

  /** What the memory `v` of a process may be, given the durable plan and the flags raised so far. */
  ghost predicate Matches(plan: Option<Plan>, attempts: map<nat, Record>, unsettled: bool, intent: Flags, v: Plan, hydrated: bool) {
    && plan.Some? && (Committed(attempts, v.attempt) ==> unsettled)
    && Extends(plan.value, v)
    && Ordered(v.flags) && Within(v.flags, intent)
    && (v.flags == intent || (hydrated && v.flags == plan.value.flags))
    && OwnSlots(v.previous, Previous, v.attempt) && OwnSlots(v.candidate, Candidate, v.attempt)
  }

  /** What a process that captured the restart counts itself knows: they are the baseline's, infrastructure runs one
      replica each, no scale exceeds the limit, the beat was single before it was replaced, and the previous slots,
      named in order, have run since traffic was switched. */
  ghost predicate Able(c: Config, b: World, a: nat, f: Flags, replicas: map<Service, nat>, baselines: map<nat, nat>,
                       previous: seq<Target>, slots: map<Target, Image>) {
    baselines != map[] ==>
      && Baselined(c.services, b.live.groups, baselines) && Baselined(c.infrastructure, b.live.groups, baselines)
      && (forall s :: s in c.infrastructure ==> s in b.live.groups && b.live.groups[s].replicas == 1)
      && (forall s :: s in replicas ==> replicas[s] <= MAX_SERVICE_REPLICAS)
      && (f.workers ==> c.beat in replicas && replicas[c.beat] == 1)
      && (previous != [] ==> c.gunicorn in replicas && previous <= SlotNames(Role.Previous, a, replicas[c.gunicorn]))
      && (f.traffic ==> forall t :: t in previous ==> t in slots)
  }

  /** Slots may come, and flags be raised, where the new flags ask for no more than is known. */
  lemma AbleStill(c: Config, b: World, a: nat, f: Flags, g: Flags, replicas: map<Service, nat>, baselines: map<nat, nat>,
                  previous: seq<Target>, slots: map<Target, Image>, more: map<Target, Image>)
    requires Able(c, b, a, f, replicas, baselines, previous, slots)
    requires forall t :: t in slots ==> t in more
    requires g.workers ==> f.workers || (c.beat in replicas && replicas[c.beat] == 1)
    requires g.traffic ==> f.traffic || forall t :: t in previous ==> t in slots
    ensures Able(c, b, a, g, replicas, baselines, previous, more)
  {
  }

  /** Compose can recreate these services at their captured scale. */
  predicate Recreatable(c: Config, tags: map<Reference, Image>, services: seq<Service>, replicas: map<Service, nat>) {
    forall s :: s in services ==> s in replicas && 0 < replicas[s] <= MAX_SERVICE_REPLICAS && c.reference(s) in tags
  }

  /** Writing the plan from memory is always allowed, and leaves memory and plan equal. */
  lemma SaveView(c: Config, b: World, a: nat, w: World, v: Plan, hydrated: bool)
    requires Good(c, b, a, w) && Matches(w.plan, w.attempts, w.unsettled, w.intent, v, hydrated) && v.flags == w.intent
    ensures Armed(c, b, a, v, w.(lost := NO_FLAGS))
    ensures Matches(Some(v), w.attempts, w.unsettled, w.intent, v, hydrated)
  {
    hide Serving, Untouched, GroupCover, RouteCover, OldImages, OldReferences, NewImages, Captured;
    CapturedAgain(c, b, w.plan.value, v);
    assert OwnSlots(v.previous, Previous, a) && OwnSlots(v.candidate, Candidate, a);
    assert Either(v.flags, NO_FLAGS) == w.intent;
    CoverMore(c, b, Either(w.plan.value.flags, w.lost), w.intent, w);
  }

  lemma CapturedAgain(c: Config, b: World, p: Plan, q: Plan)
    requires Extends(p, q)
    ensures Captured(c, b, p) == Captured(c, b, q)
  {
  }

  /** Every flag in memory is on disk or was kept off it by a raised save. */
  lemma NothingForgotten(disk: Flags, f: Flags)
    ensures Within(f, Either(disk, Minus(f, disk))) && Within(f, Either(f, NO_FLAGS))
  {
  }

  /** Two worlds differ at most in the plan and the history variables. */
  predicate SameHost(w: World, x: World) {
    x == w.(plan := x.plan, intent := x.intent, lost := x.lost)
  }

  /** Two worlds differ at most in the plan. */
  predicate Replanned(w: World, x: World) {
    x == w.(plan := x.plan, lost := x.lost)
  }

  lemma AttemptKnown(w: World, v: Plan, hydrated: bool)
    requires Matches(w.plan, w.attempts, w.unsettled, w.intent, v, hydrated)
    ensures w.plan.Some? && (Committed(w.attempts, v.attempt) ==> w.unsettled)
    ensures w.plan.value.flags == v.flags || Within(w.plan.value.flags, v.flags)
    ensures Within(v.flags, w.intent) && w.plan.value.previous <= v.previous && w.plan.value.candidate <= v.candidate
  {
  }

  /** Raising flags in memory keeps memory ahead of the plan. */
  lemma RaiseView(w: World, v: Plan, f: Flags, hydrated: bool)
    requires Matches(w.plan, w.attempts, w.unsettled, w.intent, v, hydrated) && v.flags == w.intent
    requires Ordered(f) && Within(v.flags, f)
    ensures Matches(w.plan, w.attempts, w.unsettled, f, v.(flags := f), hydrated)
  {
  }

  /** At most the managed file and the loaded route differ. */
  predicate SameButRoutes(w: World, x: World) {
    x == w.(live := w.live.(upstream := x.live.upstream, loaded := x.live.loaded))
  }

  /** `_render_upstream` accepts these targets. */
  predicate Renderable(targets: seq<Target>, backups: seq<Target>) {
    && targets != [] && |targets| + |backups| <= MAX_SERVICE_REPLICAS
    && Distinct(targets + backups)
  }

  /** A file with these targets is accepted and can be loaded. */
  predicate Routable(w: World, targets: seq<Target>, backups: seq<Target>) {
    Renderable(targets, backups) && AllUp(w.live.groups, w.live.slots, Route(targets, backups))
  }

  /** With traffic switched, the first route of a rollback names Gunicorn and every previous slot: it fails where Gunicorn
      is gone, or where its captured scale leaves no room for it. */
  predicate Blocked(c: Config, w: World) {
    && w.plan.Some? && w.intent.traffic
    && (c.gunicorn !in w.live.groups
        || (c.gunicorn in w.plan.value.replicas && w.plan.value.replicas[c.gunicorn] >= MAX_SERVICE_REPLICAS))
  }

  predicate Loads(w: World, r: Route) {
    w.live.upstream == r && w.live.loaded == r && AllUp(w.live.groups, w.live.slots, r)
  }

  /** At most the running replicas of `touched` differ. */
  ghost predicate SameButGroups(w: World, x: World, touched: set<Service>) {
    && x == w.(live := w.live.(groups := x.live.groups, lingering := x.live.lingering, nextIdentity := x.live.nextIdentity))
    && SameOutside(w.live.groups, x.live.groups, touched)
  }

  lemma SameButGroupsTrans(w: World, x: World, y: World, a: set<Service>, b: set<Service>)
    requires SameButGroups(w, x, a) && SameButGroups(x, y, b)
    ensures SameButGroups(w, y, a + b)
  {
    SameOutsideTrans(w.live.groups, x.live.groups, y.live.groups, a, b);
  }

  lemma Prefixes(w: World, x: World, services: seq<Service>, i: nat)
    requires i <= |services| && SameButGroups(w, x, SetOf(services[..i]))
    ensures SameButGroups(w, x, SetOf(services))
  {
  }

  lemma NotYet(w: World, x: World, services: seq<Service>, i: nat)
    requires i < |services| && SameButGroups(w, x, SetOf(services[..i]))
    requires Distinct(services)
    ensures SameGroup(w.live.groups, x.live.groups, services[i])
  {
    assert services[i] !in services[..i];
  }

  /** Loaded targets outside these services keep serving. */
  ghost predicate ServedWithout(w: World, services: set<Service>) {
    Serving(w.live.groups, w.live.slots, w.live.loaded, set s | s in services :: Compose(s))
  }

  lemma ServedWithoutOne(w: World, services: set<Service>, s: Service)
    requires ServedWithout(w, services) && s in services
    ensures Serving(w.live.groups, w.live.slots, w.live.loaded, {Compose(s)})
  {
    ServingLess(w.live.groups, w.live.slots, w.live.loaded, set x | x in services :: Compose(x), {Compose(s)});
  }

  lemma ServedAcross(w: World, x: World, services: set<Service>, s: Service)
    requires ServedWithout(w, services) && s in services && SameButGroups(w, x, {s})
    ensures ServedWithout(x, services)
  {
    ServingAcross(w.live.groups, x.live.groups, w.live.slots, w.live.loaded, set y | y in services :: Compose(y), s);
  }

  /** Service `s` runs what its Compose reference resolves to, freshly recreated. */
  predicate Recreated(c: Config, w: World, s: Service, replicas: nat) {
    && s in w.live.groups && c.reference(s) in w.live.tags
    && w.live.groups[s].image == w.live.tags[c.reference(s)]
    && w.live.groups[s].replicas == replicas && w.live.groups[s].restarts == 0
  }

  /** The scale at which a rollback recreates a service. */
  function Scale(c: Config, s: Service, replicas: map<Service, nat>): nat {
    if s == c.beat then 1 else if s in replicas then replicas[s] else 0
  }

  predicate RecreatedAll(c: Config, w: World, services: seq<Service>, replicas: map<Service, nat>) {
    forall s :: s in services ==> Recreated(c, w, s, Scale(c, s, replicas))
  }

  lemma RecreatedStays(c: Config, w: World, x: World, services: seq<Service>, replicas: map<Service, nat>, touched: set<Service>)
    requires RecreatedAll(c, w, services, replicas) && SameButGroups(w, x, touched) && forall s :: s in services ==> s !in touched
    ensures RecreatedAll(c, x, services, replicas)
  {
    forall s | s in services ensures Recreated(c, x, s, Scale(c, s, replicas)) {
      assert SameGroup(w.live.groups, x.live.groups, s);
    }
  }

  lemma RecreatedOne(c: Config, w: World, s: Service, replicas: map<Service, nat>)
    requires RecreatedAll(c, w, [s], replicas)
    ensures s in w.live.groups
  {
    assert s in [s];
  }

  lemma Rerouted(c: Config, w: World, x: World, services: seq<Service>, replicas: map<Service, nat>)
    requires RecreatedAll(c, w, services, replicas) && SameButRoutes(w, x)
    ensures RecreatedAll(c, x, services, replicas)
  {
    forall s | s in services ensures Recreated(c, x, s, Scale(c, s, replicas)) {
      assert Recreated(c, w, s, Scale(c, s, replicas));
    }
  }

  lemma OutsideOne(w: World, x: World, touched: set<Service>, s: Service)
    requires SameButGroups(w, x, touched) && s !in touched
    ensures SameGroup(w.live.groups, x.live.groups, s)
  {
  }

  lemma SameTags(w: World, x: World, touched: set<Service>)
    requires SameButGroups(w, x, touched)
    ensures x.live.tags == w.live.tags
  {
  }

  /** A list of services without one of them. */
  function Except(services: seq<Service>, x: Service): (r: seq<Service>)
    ensures forall s :: s in r <==> s in services && s != x
  {
    if services == [] then []
    else if services[0] == x then Except(services[1..], x)
    else [services[0]] + Except(services[1..], x)
  }

  lemma ExceptDistinct(services: seq<Service>, x: Service)
    requires Distinct(services)
    ensures Distinct(Except(services, x))
  {
    if services != [] {
      ExceptDistinct(services[1..], x);
      assert services[0] !in services[1..];
    }
  }

  function Kept(xs: seq<Target>, removed: seq<Target>): (r: seq<Target>)
    ensures forall t :: t in r <==> t in xs && t !in removed
  {
    if xs == [] then []
    else if xs[0] in removed then Kept(xs[1..], removed)
    else [xs[0]] + Kept(xs[1..], removed)
  }

  lemma KeptNone(xs: seq<Target>, removed: seq<Target>)
    requires forall t :: t in xs ==> t in removed
    ensures Kept(xs, removed) == []
  {
    if xs != [] { assert xs[0] in xs; KeptNone(xs[1..], removed); }
  }

  lemma Widen(w: World, x: World, a: set<Service>, b: set<Service>)
    requires SameButGroups(w, x, a) && a <= b
    ensures SameButGroups(w, x, b)
  {
  }

  /** At most slots among `names` are gone. */
  predicate SlotsMinus(w: World, x: World, names: seq<Target>) {
    && SameButSlots(w, x) && x.live.slots.Keys <= w.live.slots.Keys
    && (forall t :: t in x.live.slots ==> x.live.slots[t] == w.live.slots[t])
    && (forall t :: t in w.live.slots && t !in names ==> t in x.live.slots)
  }

  /** The attempt began, and nothing but its records and backups has changed since. */
  predicate Untried(b: World, w: World, a: nat) {
    && w.plan.None? && w.intent == w.lost == NO_FLAGS && !w.unsettled
    && a in w.attempts && a !in b.attempts && !Committed(w.attempts, a)
    && SameLive(b, w)
  }

  /** The attempt journals, and whether a commit is under way, are the same. */
  predicate SameVerdict(w: World, x: World) {
    x.attempts == w.attempts && x.unsettled == w.unsettled
  }

  predicate SameLive(w: World, x: World) {
    w.live == x.live && w.files == x.files
  }

  lemma UntriedFiles(b: World, w: World, a: nat)
    requires Untried(b, w, a)
    ensures w.files == b.files && w.live == b.live && w.plan.None? && w.intent == w.lost == NO_FLAGS
  {
  }

  /** Every Compose reference resolves to its captured image. */
  ghost predicate Retagged(c: Config, tags: map<Reference, Image>, images: map<Service, Image>) {
    forall s :: s in c.services ==> s in images && c.reference(s) in tags && tags[c.reference(s)] == images[s]
  }

  /** Every service has a captured image, and services that share a reference share it. */
  ghost predicate OneImage(c: Config, images: map<Service, Image>) {
    && (forall s :: s in c.services ==> s in images)
    && (forall s, t :: s in c.services && t in c.services && c.reference(s) == c.reference(t) ==> images[s] == images[t])
  }

  /** The references of the first `n` services have been moved, and `restored` says where. */
  ghost predicate Retagging(c: Config, n: nat, restored: map<Reference, Image>, tags: map<Reference, Image>, images: map<Service, Image>) {
    && n <= |c.services| && (forall k :: 0 <= k < n ==> c.reference(c.services[k]) in restored)
    && (forall s :: s in c.services && c.reference(s) in restored ==> s in images && restored[c.reference(s)] == images[s])
    && (forall x :: x in restored ==> x in tags && tags[x] == restored[x])
  }

  lemma NothingRetagged(c: Config, tags: map<Reference, Image>, images: map<Service, Image>)
    ensures Retagging(c, 0, map[], tags, images)
  {
  }

  lemma AlreadyRetagged(c: Config, n: nat, restored: map<Reference, Image>, tags: map<Reference, Image>, images: map<Service, Image>)
    requires Retagging(c, n, restored, tags, images) && n < |c.services| && c.reference(c.services[n]) in restored
    ensures c.services[n] in images && restored[c.reference(c.services[n])] == images[c.services[n]]
    ensures Retagging(c, n + 1, restored, tags, images)
  {
    assert c.services[n] in c.services;
  }

  lemma RetagNext(c: Config, n: nat, restored: map<Reference, Image>, tags: map<Reference, Image>, images: map<Service, Image>)
    requires Retagging(c, n, restored, tags, images) && OneImage(c, images) && n < |c.services|
    ensures c.services[n] in images
    ensures var r, i := c.reference(c.services[n]), images[c.services[n]]; Retagging(c, n + 1, restored[r := i], tags[r := i], images)
  {
    assert c.services[n] in c.services;
  }

  lemma AllRetagged(c: Config, restored: map<Reference, Image>, tags: map<Reference, Image>, images: map<Service, Image>)
    requires Retagging(c, |c.services|, restored, tags, images)
    ensures Retagged(c, tags, images)
  {
    forall s | s in c.services ensures s in images && c.reference(s) in tags && tags[c.reference(s)] == images[s] {
      var k :| 0 <= k < |c.services| && c.services[k] == s;
      assert c.reference(c.services[k]) in restored;
    }
  }

  /** The captured images of the first `n` services are addressable by their temporary tags. */
  predicate Pinned(c: Config, n: nat, pins: seq<Reference>, tags: map<Reference, Image>, images: map<Service, Image>) {
    && n <= |c.services| == |pins|
    && forall k :: 0 <= k < n ==> c.services[k] in images && pins[k] in tags && tags[pins[k]] == images[c.services[k]]
  }

  lemma NothingPinned(c: Config, pins: seq<Reference>, tags: map<Reference, Image>, images: map<Service, Image>)
    requires |pins| == |c.services|
    ensures Pinned(c, 0, pins, tags, images)
  {
  }

  lemma PinNext(c: Config, n: nat, pins: seq<Reference>, tags: map<Reference, Image>, images: map<Service, Image>)
    requires Pinned(c, n, pins, tags, images) && Distinct(pins) && OneImage(c, images) && n < |c.services|
    ensures c.services[n] in images && Pinned(c, n + 1, pins, tags[pins[n] := images[c.services[n]]], images)
  {
    assert c.services[n] in c.services;
  }

  /** Tags at which none of the temporary ones was moved. */
  ghost predicate PinsKept(pins: seq<Reference>, tags: map<Reference, Image>, next: map<Reference, Image>) {
    forall p :: p in pins ==> SameTag(tags, next, p)
  }

  lemma PinnedStill(c: Config, n: nat, pins: seq<Reference>, tags: map<Reference, Image>, next: map<Reference, Image>, images: map<Service, Image>)
    requires Pinned(c, n, pins, tags, images) && PinsKept(pins, tags, next)
    ensures Pinned(c, n, pins, next, images)
  {
    forall k | 0 <= k < n ensures c.services[k] in images && pins[k] in next && next[pins[k]] == images[c.services[k]] {
      assert pins[k] in pins;
    }
  }

  /** A Compose reference is none of the temporary tags. */
  lemma ReferenceMoved(c: Config, pins: seq<Reference>, tags: map<Reference, Image>, next: map<Reference, Image>, s: Service, image: Image)
    requires Apart(c, pins) && PinsKept(pins, tags, next)
    ensures PinsKept(pins, tags, next[c.reference(s) := image])
  {
  }

  predicate FilesBack(w: World, a: nat) {
    && a in w.backups
    && w.backups[a].dockerfile == Some(w.files.dockerfile)
    && w.backups[a].settings == Some(w.files.settings)
    && w.backups[a].upstream == Some(w.live.upstream)
  }

  predicate MarkersBack(b: World, w: World, f: Flags) {
    && (f.marker ==> w.files.platform == b.files.platform && w.files.pointer == b.files.pointer)
    && (f.statics ==> w.files.statics == b.files.statics)
  }

  /** What the configuration step of a rollback changes at most. */
  predicate SameButConfiguration(w: World, x: World, f: Flags) {
    && x == w.(live := w.live.(upstream := x.live.upstream, tags := x.live.tags), files := x.files)
    && x.files.settings == w.files.settings && x.files.schema == w.files.schema
    && (!f.marker ==> x.files.platform == w.files.platform && x.files.pointer == w.files.pointer)
    && (!f.statics ==> x.files.statics == w.files.statics)
  }

  /** What a finished configuration step guarantees. */
  ghost predicate ConfigurationBack(c: Config, b: World, w: World, a: nat, f: Flags, images: map<Service, Image>) {
    FilesBack(w, a) && MarkersBack(b, w, f) && Retagged(c, w.live.tags, images)
  }

  /** `_containers_healthy`: replica counts are as captured; restarts are zero where replaced and as captured elsewhere. */
  predicate Healthy(c: Config, w: World, replicas: map<Service, nat>, baselines: map<nat, nat>, replaced: set<Service>) {
    && (forall s :: s in c.services ==>
          s in replicas && s in w.live.groups && w.live.groups[s].replicas == replicas[s]
          && Unrestarted(w.live.groups[s], baselines, s in replaced))
    && (forall s :: s in c.infrastructure ==>
          s in w.live.groups && w.live.groups[s].replicas == 1 && Unrestarted(w.live.groups[s], baselines, s in replaced))
  }

  predicate Unrestarted(g: Group, baselines: map<nat, nat>, replaced: bool) {
    if replaced then g.restarts == 0 else g.identity in baselines && baselines[g.identity] == g.restarts
  }

  /** The restart count of every service's replicas is known under their identity. */
  predicate Baselined(services: seq<Service>, groups: map<Service, Group>, restarts: map<nat, nat>) {
    forall s :: s in services ==> s in groups && groups[s].identity in restarts && restarts[groups[s].identity] == groups[s].restarts
  }

  /** The facts of the first `n` services have been read. */
  ghost predicate Noted(c: Config, n: nat, groups: map<Service, Group>, found: map<Service, Image>, counts: map<Service, nat>,
                        restarts: map<nat, nat>, byReference: map<Reference, Image>)
  {
    && n <= |c.services| && found.Keys == counts.Keys == SetOf(c.services[..n]) && Baselined(c.services[..n], groups, restarts)
    && forall s :: s in found ==>
         && s in groups && groups[s].image == found[s] && groups[s].replicas == counts[s] > 0
         && c.reference(s) in byReference && byReference[c.reference(s)] == found[s]
  }

  lemma NothingNoted(c: Config, groups: map<Service, Group>)
    ensures Noted(c, 0, groups, map[], map[], map[], map[])
  {
  }

  lemma NoteNext(c: Config, n: nat, groups: map<Service, Group>, found: map<Service, Image>, counts: map<Service, nat>,
                 restarts: map<nat, nat>, byReference: map<Reference, Image>)
    requires Noted(c, n, groups, found, counts, restarts, byReference) && n < |c.services|
    requires c.services[n] in groups && groups[c.services[n]].replicas > 0 && groups[c.services[n]].identity !in restarts
    requires c.reference(c.services[n]) in byReference ==> byReference[c.reference(c.services[n])] == groups[c.services[n]].image
    ensures var s, g := c.services[n], groups[c.services[n]];
            Noted(c, n + 1, groups, found[s := g.image], counts[s := g.replicas], restarts[g.identity := g.restarts], byReference[c.reference(s) := g.image])
  {
    assert c.services[..n + 1] == c.services[..n] + [c.services[n]];
  }

  lemma AllNoted(c: Config, groups: map<Service, Group>, found: map<Service, Image>, counts: map<Service, nat>,
                 restarts: map<nat, nat>, byReference: map<Reference, Image>)
    requires Noted(c, |c.services|, groups, found, counts, restarts, byReference)
    ensures found.Keys == counts.Keys == SetOf(c.services) && Baselined(c.services, groups, restarts)
    ensures forall s :: s in c.services ==>
              s in groups && groups[s].image == found[s] && groups[s].replicas == counts[s] > 0
    ensures forall s, t :: s in c.services && t in c.services && c.reference(s) == c.reference(t) ==> found[s] == found[t]
  {
    assert c.services[..|c.services|] == c.services;
  }

  /** `_require_live_images` */
  predicate RunsImages(w: World, services: seq<Service>, images: map<Service, Image>) {
    forall s :: s in services ==> s in images && s in w.live.groups && w.live.groups[s].image == images[s]
  }

  /** `_wait_for_compose_services` and `_require_live_images` together. */
  predicate Runs(w: World, services: seq<Service>, images: map<Service, Image>, replicas: map<Service, nat>) {
    forall s :: s in services ==>
      s in images && s in replicas && s in w.live.groups && w.live.groups[s].image == images[s] && w.live.groups[s].replicas == replicas[s]
  }

  /** Restart baselines are never written to the plan, and infrastructure is never replaced:
      a process hydrated from a plan cannot pass the health check. */
  lemma HydratedNeverHealthy(c: Config, w: World, replicas: map<Service, nat>, replaced: set<Service>)
    requires ValidConfig(c) && replaced <= SetOf(c.services)
    ensures !Healthy(c, w, replicas, map[], replaced)
  {
    assert c.infrastructure[0] in c.infrastructure;
  }

  /** Putting back the copies of an interrupted preparation: if there is anything to compare the settings with, the
      Dockerfile was copied whole; the upstream is the captured one exactly if its copy was whole. */
  lemma CopiesPutBack(b: World, w: World, a: nat)
    requires FilesBack(w, a) && Copies(b, w.backups[a])
    ensures w.files.dockerfile == b.files.dockerfile && w.files.settings == b.files.settings
    ensures w.live.upstream == b.live.upstream <==> w.backups[a].upstream == Some(b.live.upstream)
  {
  }

  /** Everything a finished rollback puts back, apart from the slots and the plan. */
  ghost predicate PutBack(c: Config, b: World, w: World, images: map<Service, Image>) {
    && OldImages(c, b, w.live.groups) && Retagged(c, w.live.tags, images)
    && w.files == b.files.(schema := w.files.schema) && w.live.upstream == b.live.upstream
    && (w.live.loaded == b.live.loaded || w.live.loaded == GunicornOnly(c))
  }

  lemma RetaggedReferences(c: Config, b: World, tags: map<Reference, Image>, next: map<Reference, Image>, images: map<Service, Image>)
    requires Retagged(c, tags, images) && (forall s :: SameTag(tags, next, c.reference(s)))
    requires forall s :: s in c.services ==> s in b.live.groups && s in images && b.live.groups[s].image == images[s]
    ensures Retagged(c, next, images) && OldReferences(c, b, next)
  {
    forall s | s in c.services
      ensures c.reference(s) in next && next[c.reference(s)] == images[s]
    {
      assert SameTag(tags, next, c.reference(s));
    }
  }

  /** Cleaning slots and tags keeps everything else put back. */
  lemma PutBackStill(c: Config, b: World, w: World, x: World, images: map<Service, Image>)
    requires x == w.(live := w.live.(slots := x.live.slots, tags := x.live.tags), plan := x.plan)
    requires forall s :: SameTag(w.live.tags, x.live.tags, c.reference(s))
    ensures Retagged(c, w.live.tags, images) ==> Retagged(c, x.live.tags, images)
    ensures PutBack(c, b, w, images) ==> PutBack(c, b, x, images)
    ensures forall a :: FilesBack(w, a) ==> FilesBack(x, a)
  {
    forall s | s in c.services && Retagged(c, w.live.tags, images)
      ensures c.reference(s) in x.live.tags && s in images && x.live.tags[c.reference(s)] == images[s]
    {
      assert SameTag(w.live.tags, x.live.tags, c.reference(s));
    }
  }

  /** A finished configuration step, under a plan, leaves every managed file as captured. */
  lemma FilesPutBack(c: Config, b: World, a: nat, w: World, f: Flags, images: map<Service, Image>)
    requires Good(c, b, a, w) && w.plan.Some? && Within(w.plan.value.flags, f)
    requires ConfigurationBack(c, b, w, a, f, images)
    ensures w.files == b.files.(schema := w.files.schema) && w.live.upstream == b.live.upstream == GunicornOnly(c)
    ensures Retagged(c, w.live.tags, images)
  {
    hide Good, Captured, Retagged, Apart;
    ArmedFacts(c, b, a, w);
  }

  /** The checks of `_verify_restored` mean the captured images and replica counts run. */
  lemma VerifiedImages(c: Config, b: World, w: World, p: Plan, baselines: map<nat, nat>, replaced: set<Service>)
    requires Captured(c, b, p) && Healthy(c, w, p.replicas, baselines, replaced) && RunsImages(w, c.services, p.images)
    ensures OldImages(c, b, w.live.groups)
  {
  }

  /** No replica of an application service was replaced. */
  ghost predicate Unmoved(c: Config, b: World, groups: map<Service, Group>) {
    forall s :: s in c.services ==> SameGroup(b.live.groups, groups, s)
  }

  lemma UnmovedImages(c: Config, b: World, w: World)
    requires Unmoved(c, b, w.live.groups)
    ensures OldImages(c, b, w.live.groups)
  {
  }

  /** The first loaded server is a running one-off slot. */
  predicate OnSlots(live: Live) {
    live.loaded.Route? && live.loaded.primary != [] && live.loaded.primary[0] in live.slots && live.loaded.primary[0].Slot?
  }

  lemma OnSlotsServes(w: World, services: set<Service>)
    requires OnSlots(w.live)
    ensures ServedWithout(w, services)
  {
    assert w.live.loaded.primary[0] in Names(w.live.loaded);
    assert Up(w.live.groups, w.live.slots, w.live.loaded.primary[0]);
  }

  /** The receiver's own records and the slots are the same. */
  predicate SameRecords(w: World, x: World) {
    && w.plan == x.plan && w.attempts == x.attempts && w.backups == x.backups && w.live.slots == x.live.slots
    && w.intent == x.intent && w.unsettled == x.unsettled
  }

  /** At most the one-off slots differ. */
  predicate SameButSlots(w: World, x: World) {
    x == w.(live := w.live.(slots := x.live.slots))
  }

  lemma Untouching(w: World, touched: set<Service>)
    ensures SameButGroups(w, w, touched)
  {
  }

  /** The first plan of an attempt may be written while nothing but records and backups has changed. */
  lemma FirstPlan(c: Config, b: World, a: nat, w: World, p: Plan)
    requires Good(c, b, a, w) && Untried(b, w, a) && Reached(w.attempts[a].history, NO_FLAGS)
    requires p.attempt == a && p.flags == NO_FLAGS && p.previous == p.candidate == [] && Apart(c, p.pins)
    requires Captured(c, b, p) && a in w.backups && w.backups[a] == p.digests
    ensures Armed(c, b, a, p, w)
  {
    assert Untouched(c, b, a, w.live.groups, w.live.slots);
    hide Captured, Serving, OldImages, OldReferences, Apart;
  }

  lemma FirstCapture(c: Config, b: World, a: nat, w: World, p: Plan)
    requires Good(c, b, a, w) && Untried(b, w, a) && b.live.upstream == GunicornOnly(c)
    requires p.digests == BackupOf(w) && p.platformExisted == w.files.platform.Some? && p.pointerExisted == w.files.pointer.Some?
    requires p.images.Keys == p.replicas.Keys == SetOf(c.services)
    requires forall s :: s in c.services ==>
               s in b.live.groups && b.live.groups[s].image == p.images[s] && b.live.groups[s].replicas == p.replicas[s] > 0
    requires forall s, t :: s in c.services && t in c.services && c.reference(s) == c.reference(t) ==> p.images[s] == p.images[t]
    ensures Captured(c, b, p)
  {
    assert Serving(b.live.groups, b.live.slots, b.live.loaded, {});
    hide Serving;
  }

  lemma FirstView(b: World, w: World, v: Plan)
    requires v.flags == NO_FLAGS && v.previous == v.candidate == [] && Untried(b, w, v.attempt)
    ensures Matches(Some(v), w.attempts, w.unsettled, w.intent, v, false)
  {
  }

  /** Announcing one more own slot keeps memory ahead of the plan. */
  lemma GrowView(w: World, v: Plan, u: Plan, hydrated: bool)
    requires Matches(w.plan, w.attempts, w.unsettled, w.intent, v, hydrated)
    requires u == v.(previous := u.previous, candidate := u.candidate)
    requires v.previous <= u.previous && v.candidate <= u.candidate
    requires OwnSlots(u.previous, Previous, v.attempt) && OwnSlots(u.candidate, Candidate, v.attempt)
    ensures Matches(w.plan, w.attempts, w.unsettled, w.intent, u, hydrated)
  {
  }

  lemma OwnMore(names: seq<Target>, role: Role, a: nat, t: Target)
    requires OwnSlots(names, role, a) && t.Slot? && t.role == role && t.attempt == a
    ensures OwnSlots(names + [t], role, a)
  {
  }

  lemma ViewSlots(w: World, v: Plan, hydrated: bool)
    requires Matches(w.plan, w.attempts, w.unsettled, w.intent, v, hydrated)
    ensures OwnSlots(v.previous, Previous, v.attempt) && OwnSlots(v.candidate, Candidate, v.attempt)
  {
  }

  /** Only slots and the plan differ, and no slot is lost or changed. */
  predicate MoreSlots(w: World, x: World) {
    && x == w.(live := w.live.(slots := x.live.slots), plan := x.plan, lost := x.lost)
    && forall t :: t in w.live.slots ==> t in x.live.slots && x.live.slots[t] == w.live.slots[t]
  }

  /** Only tags differ. */
  predicate SameButTags(w: World, x: World) {
    x == w.(live := w.live.(tags := x.live.tags))
  }

  lemma MoreSlotsTrans(w: World, x: World, y: World)
    requires MoreSlots(w, x) && MoreSlots(x, y)
    ensures MoreSlots(w, y)
  {
  }

  lemma NoSlots(w: World)
    ensures MoreSlots(w, w)
  {
  }

  /** The container names of one role's slots. */
  function SlotNames(role: Role, a: nat, count: nat): (names: seq<Target>)
    ensures |names| == count && Distinct(names)
    ensures forall i :: 0 <= i < count ==> names[i] == Slot(role, a, i + 1)
  {
    seq(count, i requires 0 <= i => Slot(role, a, i + 1))
  }

  /** At the largest scale a route that names every previous slot has no room for Gunicorn. */
  lemma NoRoom(c: Config, a: nat, count: nat)
    requires count >= MAX_SERVICE_REPLICAS
    ensures !Renderable(SlotNames(Role.Previous, a, count), [Compose(c.gunicorn)])
    ensures !Renderable([Compose(c.gunicorn)], SlotNames(Role.Previous, a, count))
  {
  }

  /** Every named slot runs this image. */
  predicate SlotsRun(slots: map<Target, Image>, names: seq<Target>, image: Image) {
    forall t :: t in names ==> t in slots && slots[t] == image
  }

  /** Every Compose reference resolves to a new image of its service. */
  ghost predicate Candidates(c: Config, tags: map<Reference, Image>, images: map<Service, Image>, candidates: map<Service, Image>) {
    forall s :: s in c.services ==>
      && c.reference(s) in tags && s in candidates && s in images
      && tags[c.reference(s)] == candidates[s] != images[s]
  }

  lemma LoadsOnSlots(w: World, primary: seq<Target>, backup: seq<Target>)
    requires Loads(w, Route(primary, backup)) && primary != [] && primary[0].Slot?
    ensures OnSlots(w.live)
  {
    assert primary[0] in Names(w.live.loaded);
    assert Up(w.live.groups, w.live.slots, primary[0]);
  }

  const MIGRATION_FLAGS := NO_FLAGS.(migration := true)
  const STATIC_FLAGS := Flags(true, true, true, false, false, false)
  const WORKER_FLAGS := Flags(true, true, true, true, false, false)
  const WEB_FLAGS := Flags(true, true, true, true, true, false)

  /** The services a worker replacement recreates at once, and those it replaces in all. */
  function Ordinary(c: Config): seq<Service> {
    Except(Except(c.services, c.gunicorn), c.beat)
  }

  lemma OrdinaryOnly(c: Config)
    requires ValidConfig(c)
    ensures Distinct(Ordinary(c)) && c.beat !in Ordinary(c)
    ensures forall s :: s in Ordinary(c) ==> s in c.services && s != c.gunicorn
    ensures forall s :: s in c.services && s != c.gunicorn ==> s in Ordinary(c) || s == c.beat
  {
    ExceptDistinct(c.services, c.gunicorn);
    ExceptDistinct(Except(c.services, c.gunicorn), c.beat);
  }

  /** Replacing Gunicorn leaves the verified workers alone. */
  lemma WorkersStay(c: Config, w: World, x: World, images: map<Service, Image>, replicas: map<Service, nat>)
    requires Runs(w, Except(c.services, c.gunicorn), images, replicas) && SameButGroups(w, x, {c.gunicorn})
    requires Runs(x, [c.gunicorn], images, replicas)
    ensures Runs(x, c.services, images, replicas)
  {
    forall s | s in c.services
      ensures s in images && s in replicas && s in x.live.groups && x.live.groups[s].image == images[s] && x.live.groups[s].replicas == replicas[s]
    {
      if s == c.gunicorn {
        assert s in [c.gunicorn];
      } else {
        assert s in Except(c.services, c.gunicorn) && SameGroup(w.live.groups, x.live.groups, s);
      }
    }
  }

  lemma RoutesKeepImages(w: World, x: World, services: seq<Service>, images: map<Service, Image>, replicas: map<Service, nat>)
    requires Runs(w, services, images, replicas) && x.live.groups == w.live.groups
    ensures Runs(x, services, images, replicas)
  {
  }

  lemma LoadsKept(w: World, x: World, r: Route)
    requires Loads(w, r) && x.live == w.live
    ensures Loads(x, r)
  {
  }

  /** A plan read back is a view of itself. */
  lemma HydratedView(c: Config, b: World, a: nat, w: World)
    requires Good(c, b, a, w) && w.plan.Some? && (Committed(w.attempts, a) ==> w.unsettled)
    ensures w.plan.value.attempt == a && Matches(w.plan, w.attempts, w.unsettled, w.intent, w.plan.value, true)
  {
    hide Serving, Untouched, GroupCover, Captured, SlotCover, OldImages, OldReferences, NewImages, Apart;
  }

  /** Writing an unfinished record keeps memory ahead of the plan. */
  lemma RecordView(w: World, v: Plan, hydrated: bool, r: Record)
    requires Matches(w.plan, w.attempts, w.unsettled, w.intent, v, hydrated)
    requires r.verdict != Success
    ensures Matches(w.plan, w.attempts[v.attempt := r], w.unsettled, w.intent, v, hydrated)
  {
  }

  lemma RecordUntried(b: World, w: World, a: nat, r: Record)
    requires Untried(b, w, a) && r.verdict != Success
    ensures Untried(b, w.(attempts := w.attempts[a := r]), a)
  {
  }
}
