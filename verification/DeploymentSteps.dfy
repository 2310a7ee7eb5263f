/** Each host step keeps the invariant, as a fact about worlds. */
module DeploymentSteps {
  import opened Sequences
  import opened Wrappers
  import opened DeploymentWorld

  lemma UpstreamStep(c: Config, b: World, a: nat, w: World, r: Route)
    requires ValidConfig(c) && Good(c, b, a, w)
    requires match w.plan
             case None => !Committed(w.attempts, a)
                          && (r == b.live.upstream || (r == Damaged && a in w.backups && w.backups[a].upstream == Some(Damaged)))
             case Some(p) => (Committed(w.attempts, a) ==> w.unsettled) && (r == b.live.upstream || Either(p.flags, w.lost).traffic)
    ensures Good(c, b, a, w.(live := w.live.(upstream := r)))
  {
    hide Serving, Untouched, GroupCover, Captured, SlotCover, OwnSlots, OldImages, OldReferences, NewImages;
  }

  lemma CoverWithout(c: Config, b: World, g: map<Service, Group>, next: map<Service, Group>, s: Service, f: Flags)
    requires s in c.services && SameOutside(g, next, {s})
    requires GroupCover(c, b, f, g) && (if s == c.gunicorn then f.gunicorn else f.workers)
    requires f.gunicorn ==> f.workers
    ensures GroupCover(c, b, f, next)
  {
    assert s != c.gunicorn ==> SameGroup(g, next, c.gunicorn);
  }

  lemma UntouchedWithout(c: Config, b: World, a: nat, g: map<Service, Group>, next: map<Service, Group>, slots: map<Target, Image>, s: Service)
    requires s in c.services && SameOutside(g, next, {s})
    requires Untouched(c, b, a, g, slots)
    ensures Untouched(c, b, a, next, slots)
  {
    forall t | t !in c.services ensures SameGroup(b.live.groups, next, t) {
      assert SameGroup(g, next, t) && SameGroup(b.live.groups, g, t);
    }
  }

  lemma ServingStill(g: map<Service, Group>, next: map<Service, Group>, slots: map<Target, Image>, r: Route, s: Service)
    requires Serving(g, slots, r, {Compose(s)}) && SameOutside(g, next, {s})
    ensures Serving(next, slots, r, {Compose(s)}) && Serving(next, slots, r, {})
  {
    var t :| t in Names(r) && Up(g, slots, t) && t !in {Compose(s)};
    if t.Compose? {
      assert SameGroup(g, next, t.service);
    }
    assert Up(next, slots, t);
  }

  lemma GroupsStep(c: Config, b: World, a: nat, w: World, g: map<Service, Group>, lingering: set<Service>, n: nat)
    requires Good(c, b, a, w) && w.plan.Some? && (Committed(w.attempts, a) ==> w.unsettled)
    requires Serving(g, w.live.slots, w.live.loaded, {}) && Untouched(c, b, a, g, w.live.slots)
    requires GroupCover(c, b, Either(w.plan.value.flags, w.lost), g)
    requires c.beat !in lingering && lingering <= (set s | s in c.services) && SingleBeat(c, b, g)
    ensures Good(c, b, a, w.(live := w.live.(groups := g, lingering := lingering, nextIdentity := n)))
  {
    hide Serving, Untouched, GroupCover, Captured, SlotCover, OwnSlots, SameOutside, Deployed;
  }

  /** Changing one service adds no scheduler, unless it is the beat with more than one replica. */
  lemma BeatKept(c: Config, b: World, g: map<Service, Group>, next: map<Service, Group>, s: Service)
    requires SingleBeat(c, b, g) && SameOutside(g, next, {s}) && (s == c.beat ==> Schedulers(c, next) <= 1)
    ensures SingleBeat(c, b, next)
  {
    assert s != c.beat ==> SameGroup(g, next, c.beat);
  }

  lemma RecreateStep(c: Config, b: World, a: nat, w: World, s: Service, g: map<Service, Group>, lingering: set<Service>, n: nat)
    requires ValidConfig(c) && Good(c, b, a, w) && w.plan.Some? && (Committed(w.attempts, a) ==> w.unsettled)
    requires s in c.services
    requires var f := Either(w.plan.value.flags, w.lost); if s == c.gunicorn then f.gunicorn else f.workers
    requires Serving(w.live.groups, w.live.slots, w.live.loaded, {Compose(s)})
    requires SameOutside(w.live.groups, g, {s})
    requires lingering <= w.live.lingering + {s} && c.beat !in lingering && (s == c.beat ==> Schedulers(c, g) <= 1)
    ensures Good(c, b, a, w.(live := w.live.(groups := g, lingering := lingering, nextIdentity := n)))
  {
    hide Serving, Untouched, GroupCover, Captured, SlotCover, OwnSlots, SameOutside, Deployed, ValidConfig;
    ServingStill(w.live.groups, g, w.live.slots, w.live.loaded, s);
    UntouchedWithout(c, b, a, w.live.groups, g, w.live.slots, s);
    CoverWithout(c, b, w.live.groups, g, s, Either(w.plan.value.flags, w.lost));
    BeatKept(c, b, w.live.groups, g, s);
    GroupsStep(c, b, a, w, g, lingering, n);
  }

  /** With no plan on disk the world itself is the next attempt's baseline. */
  lemma BeginStep(c: Config, b: World, a: nat, w: World, next: nat)
    requires Good(c, b, a, w) && w.plan.None? && next !in w.attempts
    ensures Good(c, Begun(w), next, Begun(w))
  {
    assert Restored(c, Begun(w), next, Begun(w));
  }

  lemma RecordStep(c: Config, b: World, a: nat, w: World, r: Record)
    requires Good(c, b, a, w)
    requires History(r.history)
    requires w.plan.Some? ==> Journalled(r.history, w.intent) && Reached(r.history, w.plan.value.flags)
    requires Committed(w.attempts, a) && !w.unsettled ==> r == w.attempts[a]
    requires Committed(w.attempts, a) && w.plan.None? && r != w.attempts[a] ==> Restored(c, b, a, w)
    requires r == Record(DEPLOYMENT_STATES, Success) ==> Committed(w.attempts, a)
    ensures Good(c, b, a, w.(attempts := w.attempts[a := r]))
  {
    hide Serving, Untouched, GroupCover, Captured, SlotCover, OwnSlots, OldImages, OldReferences, NewImages;
  }

  lemma IntendStep(c: Config, b: World, a: nat, w: World, f: Flags)
    requires Good(c, b, a, w)
    requires w.plan.Some? && a in w.attempts
    requires Ordered(f) && Within(w.intent, f) && Journalled(w.attempts[a].history, f)
    requires f.traffic ==> w.plan.value.flags.migration && w.plan.value.previous != []
    ensures Good(c, b, a, w.(intent := f))
  {
    hide Serving, Untouched, Captured, SlotCover, OwnSlots, OldImages, OldReferences, NewImages;
  }

  /** More flags cover no less. */
  lemma CoverMore(c: Config, b: World, f: Flags, g: Flags, w: World)
    requires Within(f, g)
    ensures GroupCover(c, b, f, w.live.groups) ==> GroupCover(c, b, g, w.live.groups)
    ensures RouteCover(b, f, w.live.loaded, w.live.upstream) ==> RouteCover(b, g, w.live.loaded, w.live.upstream)
  {
  }

  /** A raised save that left the old plan in place: the flags in memory are covered, the plan's may not be. */
  lemma LoseStep(c: Config, b: World, a: nat, w: World)
    requires Good(c, b, a, w) && w.plan.Some?
    ensures Good(c, b, a, w.(lost := Minus(w.intent, w.plan.value.flags)))
  {
    hide Serving, Untouched, GroupCover, RouteCover, Captured, SlotCover, OwnSlots, OldImages, OldReferences, NewImages;
    var p := w.plan.value;
    assert Either(p.flags, Minus(w.intent, p.flags)) == w.intent;
    CoverMore(c, b, Either(p.flags, w.lost), w.intent, w);
  }

  lemma PlanStep(c: Config, b: World, a: nat, w: World, p: Plan)
    requires Good(c, b, a, w)
    requires Armed(c, b, a, p, w.(lost := NO_FLAGS))
    ensures Good(c, b, a, w.(plan := Some(p), lost := NO_FLAGS))
  {
    hide Serving, Untouched, GroupCover, Captured, SlotCover, OwnSlots, OldImages, OldReferences, NewImages;
  }

  lemma DropStep(c: Config, b: World, a: nat, w: World)
    requires Good(c, b, a, w)
    requires AtRest(c, b, a, w.(plan := None))
    ensures Good(c, b, a, w.(plan := None))
  {
    hide Serving, Untouched, GroupCover, Captured, SlotCover, OwnSlots, OldImages, OldReferences, NewImages;
  }

  lemma UnsettleStep(c: Config, b: World, a: nat, w: World)
    requires Good(c, b, a, w)
    ensures Good(c, b, a, w.(unsettled := true))
  {
    hide Serving, Untouched, GroupCover, Captured, SlotCover, OwnSlots, OldImages, OldReferences, NewImages;
  }

  lemma CommitStep(c: Config, b: World, a: nat, w: World)
    requires Good(c, b, a, w)
    requires w.plan.Some? && w.unsettled && a in w.attempts && w.attempts[a].history == DEPLOYMENT_STATES
    ensures Good(c, b, a, w.(attempts := w.attempts[a := Record(DEPLOYMENT_STATES, Success)]))
  {
    hide Serving, Untouched, GroupCover, Captured, SlotCover, OwnSlots, OldImages, OldReferences, NewImages;
  }

  lemma SettleStep(c: Config, b: World, a: nat, w: World)
    requires Good(c, b, a, w)
    requires w.plan.Some? && Committed(w.attempts, a) && Deployed(c, b, a, w)
    ensures Good(c, b, a, w.(unsettled := false))
  {
    hide Serving, Untouched, GroupCover, Captured, SlotCover, OwnSlots, OldImages, OldReferences, NewImages;
  }

  lemma BackupStep(c: Config, b: World, a: nat, w: World, copy: Backup)
    requires Good(c, b, a, w)
    requires w.plan.None? && w.live.upstream == b.live.upstream
    ensures Good(c, b, a, w.(backups := w.backups[a := copy]))
  {
    hide Serving, Untouched, GroupCover, Captured, SlotCover, OwnSlots, OldImages, OldReferences, NewImages;
  }

  lemma DockerfileStep(c: Config, b: World, a: nat, w: World, t: Text)
    requires Good(c, b, a, w)
    requires w.plan.Some? ==> (Committed(w.attempts, a) ==> w.unsettled)
    requires w.plan.None? ==> !Committed(w.attempts, a) && (t == b.files.dockerfile || (t == Truncated && a in w.backups))
    ensures Good(c, b, a, w.(files := w.files.(dockerfile := t)))
  {
    hide Serving, Untouched, GroupCover, Captured, SlotCover, OwnSlots, OldImages, OldReferences, NewImages;
  }

  lemma PlatformStep(c: Config, b: World, a: nat, w: World, o: Option<Text>)
    requires Good(c, b, a, w)
    requires w.plan.Some? && (Committed(w.attempts, a) ==> w.unsettled)
    requires o == b.files.platform || w.plan.value.flags.marker
    ensures Good(c, b, a, w.(files := w.files.(platform := o)))
  {
    hide Serving, Untouched, GroupCover, Captured, SlotCover, OwnSlots, OldImages, OldReferences, NewImages;
  }

  lemma PointerStep(c: Config, b: World, a: nat, w: World, o: Option<Text>)
    requires Good(c, b, a, w)
    requires w.plan.Some? && (Committed(w.attempts, a) ==> w.unsettled)
    requires o == b.files.pointer || w.plan.value.flags.marker
    ensures Good(c, b, a, w.(files := w.files.(pointer := o)))
  {
    hide Serving, Untouched, GroupCover, Captured, SlotCover, OwnSlots, OldImages, OldReferences, NewImages;
  }

  lemma StaticsStep(c: Config, b: World, a: nat, w: World, t: Text)
    requires Good(c, b, a, w)
    requires w.plan.Some? && (Committed(w.attempts, a) ==> w.unsettled)
    requires t == b.files.statics || w.plan.value.flags.statics
    ensures Good(c, b, a, w.(files := w.files.(statics := t)))
  {
    hide Serving, Untouched, GroupCover, Captured, SlotCover, OwnSlots, OldImages, OldReferences, NewImages;
  }

  lemma SchemaStep(c: Config, b: World, a: nat, w: World, n: nat)
    requires Good(c, b, a, w)
    requires w.plan.Some? && w.plan.value.flags.migration && (Committed(w.attempts, a) ==> w.unsettled)
    ensures Good(c, b, a, w.(files := w.files.(schema := n)))
  {
    hide Serving, Untouched, GroupCover, Captured, SlotCover, OwnSlots, OldImages, OldReferences, NewImages;
  }

  lemma TagStep(c: Config, b: World, a: nat, w: World, reference: Reference, image: Image)
    requires Good(c, b, a, w)
    requires Committed(w.attempts, a) ==> w.plan.Some? && w.unsettled
    requires w.plan.None? ==>
               forall s :: s in c.services && c.reference(s) == reference ==> s in b.live.groups && b.live.groups[s].image == image
    ensures Good(c, b, a, w.(live := w.live.(tags := w.live.tags[reference := image])))
  {
    hide Serving, Untouched, GroupCover, Captured, SlotCover, OwnSlots, OldImages, NewImages;
  }

  lemma UntagStep(c: Config, b: World, a: nat, w: World, reference: Reference)
    requires Good(c, b, a, w) && forall s :: reference != c.reference(s)
    ensures Good(c, b, a, w.(live := w.live.(tags := w.live.tags - {reference})))
  {
    hide Serving, Untouched, GroupCover, Captured, SlotCover, OwnSlots, OldImages;
  }

  lemma LoadStep(c: Config, b: World, a: nat, w: World)
    requires Good(c, b, a, w)
    requires w.plan.Some? && (Committed(w.attempts, a) ==> w.unsettled)
    requires Either(w.plan.value.flags, w.lost).traffic
    requires AllUp(w.live.groups, w.live.slots, w.live.upstream)
    ensures Good(c, b, a, w.(live := w.live.(loaded := w.live.upstream)))
  {
    hide Serving, Untouched, GroupCover, Captured, SlotCover, OwnSlots, OldImages, OldReferences, NewImages, AllUp;
    AllUpServes(w.live.groups, w.live.slots, w.live.upstream);
  }

  lemma AllUpServes(g: map<Service, Group>, slots: map<Target, Image>, r: Route)
    requires AllUp(g, slots, r)
    ensures Serving(g, slots, r, {})
  {
    assert r.primary[0] in Names(r) && Up(g, slots, r.primary[0]);
  }

  lemma SlotsStep(c: Config, b: World, a: nat, w: World, slots: map<Target, Image>)
    requires Good(c, b, a, w)
    requires Serving(w.live.groups, slots, w.live.loaded, {}) && Untouched(c, b, a, w.live.groups, slots)
    requires forall t :: t in slots ==> t.Slot? && t.attempt in w.attempts
    requires w.plan.Some? && SlotCover(a, w.plan.value, slots)
    ensures Good(c, b, a, w.(live := w.live.(slots := slots)))
  {
    hide Serving, Untouched, GroupCover, Captured, SlotCover, OwnSlots, OldImages, OldReferences, NewImages;
  }

  lemma StartStep(c: Config, b: World, a: nat, w: World, t: Target, image: Image)
    requires Good(c, b, a, w) && w.plan.Some? && t !in w.live.slots
    requires t in w.plan.value.previous || t in w.plan.value.candidate
    ensures Good(c, b, a, w.(live := w.live.(slots := w.live.slots[t := image])))
  {
    var next := w.live.slots[t := image];
    assert t.Slot? && t.attempt == a;
    ServingMore(w.live.groups, w.live.slots, next, w.live.loaded);
    SlotsStep(c, b, a, w, next);
  }

  lemma ServingMore(g: map<Service, Group>, slots: map<Target, Image>, next: map<Target, Image>, r: Route)
    requires Serving(g, slots, r, {}) && slots.Keys <= next.Keys
    ensures Serving(g, next, r, {})
  {
    var t :| t in Names(r) && Up(g, slots, t);
    assert Up(g, next, t);
  }

  lemma RemoveStep(c: Config, b: World, a: nat, w: World, t: Target)
    requires Good(c, b, a, w) && t.Slot? && t.attempt == a && t in w.live.slots
    requires w.plan.Some? || (Committed(w.attempts, a) && !w.unsettled)
    requires Serving(w.live.groups, w.live.slots, w.live.loaded, {t})
    ensures Good(c, b, a, w.(live := w.live.(slots := w.live.slots - {t})))
  {
    hide GroupCover, RouteCover, FileCover, Captured, OwnSlots, OldImages, OldReferences, NewImages, Deployed, SingleBeat, SameGroup;
    var next := w.live.slots - {t};
    var x :| x in Names(w.live.loaded) && x !in {t} && Up(w.live.groups, w.live.slots, x);
    assert Up(w.live.groups, next, x);
    if w.plan.None? {
      CommittedSlots(c, b, a, w, next);
    } else {
      SlotsStep(c, b, a, w, next);
    }
  }

  lemma CommittedSlots(c: Config, b: World, a: nat, w: World, slots: map<Target, Image>)
    requires Good(c, b, a, w) && w.plan.None? && Committed(w.attempts, a) && !w.unsettled
    requires Serving(w.live.groups, slots, w.live.loaded, {}) && slots.Keys <= w.live.slots.Keys
    ensures Good(c, b, a, w.(live := w.live.(slots := slots)))
  {
  }

  lemma BeatAlone(c: Config, b: World, a: nat, w: World)
    requires Good(c, b, a, w)
    ensures c.beat !in w.live.lingering && w.live.lingering <= (set s | s in c.services)
  {
  }

  /** Every way one service's replicas can change leaves the other services alone. */
  lemma GroupChanges(g: map<Service, Group>, s: Service, x: Group)
    ensures SameOutside(g, g, {s}) && SameOutside(g, g - {s}, {s}) && SameOutside(g, g[s := x], {s})
    ensures SameOutside(g - {s}, g[s := x], {s}) && SameOutside(g[s := x], g[s := x], {s})
  {
  }

  lemma ServingAcross(g: map<Service, Group>, next: map<Service, Group>, slots: map<Target, Image>, r: Route, spared: set<Target>, s: Service)
    requires Serving(g, slots, r, spared) && SameOutside(g, next, {s}) && Compose(s) in spared
    ensures Serving(next, slots, r, spared)
  {
    var t :| t in Names(r) && t !in spared && Up(g, slots, t);
    if t.Compose? {
      assert SameGroup(g, next, t.service);
    }
    assert Up(next, slots, t);
  }

  lemma ServingLess(g: map<Service, Group>, slots: map<Target, Image>, r: Route, spared: set<Target>, fewer: set<Target>)
    requires Serving(g, slots, r, spared) && fewer <= spared
    ensures Serving(g, slots, r, fewer)
  {
  }

  lemma ServingWithoutSlot(g: map<Service, Group>, slots: map<Target, Image>, r: Route, spared: set<Target>, t: Target)
    requires Serving(g, slots, r, spared) && t in spared
    ensures Serving(g, slots - {t}, r, spared)
  {
    var x :| x in Names(r) && x !in spared && Up(g, slots, x);
    assert Up(g, slots - {t}, x);
  }

  lemma ServingAllUp(g: map<Service, Group>, slots: map<Target, Image>, r: Route, spared: set<Target>)
    requires AllUp(g, slots, r) && r.primary[0] !in spared
    ensures Serving(g, slots, r, spared)
  {
    assert r.primary[0] in Names(r) && Up(g, slots, r.primary[0]);
  }

  lemma SameOutsideTrans(g: map<Service, Group>, h: map<Service, Group>, k: map<Service, Group>, x: set<Service>, y: set<Service>)
    requires SameOutside(g, h, x) && SameOutside(h, k, y)
    ensures SameOutside(g, k, x + y)
  {
    forall s | s !in x + y ensures SameGroup(g, k, s) {
      assert SameGroup(g, h, s) && SameGroup(h, k, s);
    }
  }

  lemma CapturedServes(c: Config, b: World, p: Plan)
    requires Captured(c, b, p)
    ensures Serving(b.live.groups, b.live.slots, b.live.loaded, {})
    ensures p.digests == BackupOf(b) && b.live.upstream == GunicornOnly(c)
  {
  }

  /** What a plan on disk guarantees about the attempt. */
  lemma ArmedFacts(c: Config, b: World, a: nat, w: World)
    requires Good(c, b, a, w) && w.plan.Some?
    ensures w.plan.value.attempt == a && a in w.attempts && a !in b.attempts
    ensures a in w.backups && w.backups[a] == w.plan.value.digests == BackupOf(b)
    ensures Captured(c, b, w.plan.value) && Apart(c, w.plan.value.pins) && b.live.upstream == GunicornOnly(c)
    ensures Ordered(w.intent) && Ordered(w.plan.value.flags) && Within(w.plan.value.flags, w.intent) && Within(w.lost, w.intent)
    ensures w.intent.traffic ==> w.plan.value.flags.migration && w.plan.value.previous != []
    ensures Journalled(w.attempts[a].history, w.intent) && Reached(w.attempts[a].history, w.plan.value.flags)
    ensures FileCover(b, w.plan.value.flags, w) && w.files.settings == b.files.settings
  {
    hide Serving, Untouched, GroupCover, Captured, SlotCover, OwnSlots, OldImages, OldReferences, NewImages, Apart;
    CapturedServes(c, b, w.plan.value);
  }

  /** Services other than Gunicorn are as before, or the flag that announces their replacement is raised. */
  ghost predicate WorkerCover(c: Config, b: World, f: Flags, groups: map<Service, Group>) {
    !f.workers ==> forall s :: s in c.services && s != c.gunicorn ==> SameGroup(b.live.groups, groups, s)
  }

  predicate GunicornCover(c: Config, b: World, f: Flags, groups: map<Service, Group>) {
    !f.gunicorn ==> SameGroup(b.live.groups, groups, c.gunicorn)
  }

  /** Flag by flag, the plan on disk covers every mutation unless a raised save kept just that flag off the disk;
      so it does whenever the flags on disk are those in memory. Where it does not, the migration flag is on disk. */
  lemma CoverByFlag(c: Config, b: World, a: nat, w: World)
    requires Good(c, b, a, w) && w.plan.Some?
    ensures var f := w.plan.value.flags;
            && (w.lost.workers ==> w.intent.workers) && (w.lost.gunicorn ==> w.intent.gunicorn) && (w.lost.traffic ==> w.intent.traffic)
            && (!(w.lost.workers && !f.workers) ==> WorkerCover(c, b, f, w.live.groups))
            && (!(w.lost.gunicorn && !f.gunicorn) ==> GunicornCover(c, b, f, w.live.groups))
            && (!(w.lost.traffic && !f.traffic) ==> RouteCover(b, f, w.live.loaded, w.live.upstream))
            && (f == w.intent ==> GroupCover(c, b, f, w.live.groups) && RouteCover(b, f, w.live.loaded, w.live.upstream))
            && (!(GroupCover(c, b, f, w.live.groups) && RouteCover(b, f, w.live.loaded, w.live.upstream)) ==> f.migration)
  {
    hide Serving, Untouched, Captured, SlotCover, OwnSlots, OldImages, OldReferences, NewImages, Apart;
  }

  /** While no route was touched, the baseline's servers still serve. */
  lemma ServesAsBefore(c: Config, b: World, a: nat, w: World, names: seq<Target>)
    requires ValidConfig(c) && Good(c, b, a, w) && w.plan.Some? && !w.intent.traffic
    requires forall t :: t in names ==> t.Slot? && t.attempt == a
    ensures Serving(w.live.groups, w.live.slots, w.live.loaded, SetOf(names))
    ensures w.live.loaded == b.live.loaded
    ensures forall s :: s in c.services ==> SameGroup(b.live.groups, w.live.groups, s)
  {
    hide Captured;
    CapturedServes(c, b, w.plan.value);
    var t :| t in Names(b.live.loaded) && Up(b.live.groups, b.live.slots, t);
    assert RouteCover(b, w.intent, w.live.loaded, w.live.upstream);
    assert GroupCover(c, b, w.intent, w.live.groups);
    assert Untouched(c, b, a, w.live.groups, w.live.slots);
    forall s | s in c.services ensures SameGroup(b.live.groups, w.live.groups, s) {
      assert s == c.gunicorn || s != c.gunicorn;
    }
    if t.Compose? {
      assert SameGroup(b.live.groups, w.live.groups, t.service);
    }
    assert Up(w.live.groups, w.live.slots, t);
  }

  /** With the own slots gone, the slots are the baseline's. */
  lemma SlotsAsBefore(c: Config, b: World, a: nat, w: World)
    requires Good(c, b, a, w) && w.plan.Some?
    requires forall t :: t in w.plan.value.previous || t in w.plan.value.candidate ==> t !in w.live.slots
    ensures w.live.slots == b.live.slots
  {
    assert Untouched(c, b, a, w.live.groups, w.live.slots) && SlotCover(a, w.plan.value, w.live.slots);
    assert w.live.slots.Keys == b.live.slots.Keys;
  }

  /** The plan may be dropped once everything is back. */
  lemma RestStep(c: Config, b: World, a: nat, w: World)
    requires Good(c, b, a, w) && w.plan.Some? && (Committed(w.attempts, a) ==> w.unsettled)
    requires OldImages(c, b, w.live.groups) && OldReferences(c, b, w.live.tags)
    requires w.files == b.files.(schema := w.files.schema) && w.live.upstream == b.live.upstream
    requires w.live.loaded == b.live.loaded || w.live.loaded == GunicornOnly(c)
    requires w.live.slots == b.live.slots
    ensures Restored(c, b, a, w.(plan := None)) && AtRest(c, b, a, w.(plan := None))
  {
    hide Serving, Untouched, GroupCover, Captured, SlotCover, OwnSlots, OldImages, OldReferences, NewImages, Apart;
  }
}
