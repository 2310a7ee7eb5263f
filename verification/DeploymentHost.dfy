/** `DockerHost`: the in-memory state of one receiver process and the deployment steps it takes. */
module DeploymentHost {
  import opened Limits
  import opened Sequences
  import opened Wrappers
  import opened DeploymentWorld
  import opened DeploymentSteps
  import opened DeploymentMachine
  import opened DeploymentViews

  class DockerHost {
    const m: Machine
    var prepared: bool               // the backup paths are set
    var settingsMeta: bool
    var upstreamMeta: bool
    var platformExisted: Option<bool>
    var pointerExisted: Option<bool>
    var staticsCaptured: bool
    var images: map<Service, Image>  // previous images
    var replicas: map<Service, nat>
    var baselines: map<nat, nat>     // container identity to restart count; never written to the plan
    var candidateImages: map<Service, Image>
    var pins: seq<Reference>
    var previous: seq<Target>
    var candidate: seq<Target>
    var flags: Flags
    var armed: bool
    var attempt: nat
    var digests: Backup              // what the backup files of this attempt hash to

    constructor (m: Machine)
      ensures this.m == m && attempt == m.attempt && Blank()
    {
      this.m, attempt, digests := m, m.attempt, EMPTY_BACKUP;
      prepared, settingsMeta, upstreamMeta, staticsCaptured, armed := false, false, false, false, false;
      platformExisted, pointerExisted := None, None;
      images, replicas, baselines, candidateImages := map[], map[], map[], map[];
      pins, previous, candidate, flags := [], [], [], NO_FLAGS;
    }

    ghost predicate Blank()
      reads this
    {
      && !prepared && !settingsMeta && !upstreamMeta && !staticsCaptured && !armed
      && platformExisted == pointerExisted == None && digests == EMPTY_BACKUP && images == map[] && replicas == map[] && baselines == map[]
      && pins == [] && previous == [] && candidate == [] && flags == NO_FLAGS
    }

    /** The plan this process would write now. */
    function View(): (r: Plan)
      reads this
    {
      Plan(attempt, digests, images, replicas, pins, previous, candidate,
           platformExisted.Some? && platformExisted.value, pointerExisted.Some? && pointerExisted.value, flags)
    }

    /** Every captured fact is the baseline's. */
    ghost predicate Knows()
      reads this`attempt, this`prepared, this`settingsMeta, this`upstreamMeta, this`staticsCaptured
      reads this`platformExisted, this`pointerExisted, m`attempt
    {
      attempt == m.attempt && prepared && settingsMeta && upstreamMeta && staticsCaptured && platformExisted.Some? && pointerExisted.Some?
    }

    /** Memory is ahead of the durable plan; the plan may still have to be written. */
    ghost predicate Pending()
      reads this, m`w, m`base, m`attempt, m`trace
    {
      m.Valid() && Knows() && Matches(m.w.plan, m.w.attempts, m.w.unsettled, m.w.intent, View(), baselines == map[])
      && Able(m.cfg, m.base, m.attempt, flags, replicas, baselines, previous, m.w.live.slots)
    }

    /** The memory of this process against the durable plan, at any point where a step may have failed. */
    ghost predicate Linked()
      reads this, m`w, m`base, m`attempt, m`trace
    {
      Pending() && Within(flags, Either(m.w.plan.value.flags, m.w.lost))
    }

    /** The same, between two forward steps: nothing is pending. */
    ghost predicate Synced()
      reads this, m`w, m`base, m`attempt, m`trace
    {
      Linked() && armed && m.w.plan == Some(View()) && flags == m.w.intent && m.w.lost == NO_FLAGS
    }

    /** `_update_recovery_plan` */
    method UpdatePlan() returns (r: Status)
      requires Pending() && armed && flags == m.w.intent
      modifies m`w, m`trace, m`failures
      ensures old(m.failures) <= m.failures
      ensures Linked() && flags == m.w.intent && Replanned(old(m.w), m.w)
      ensures r.Done? ==> Synced()
    {
      hide Good, Armed, Matches, Able, ValidConfig, Machine.Valid, Knows, Within, Either, Minus;
      m.Now();
      NothingForgotten(if m.w.plan.Some? then m.w.plan.value.flags else NO_FLAGS, flags);
      AttemptKnown(m.w, View(), baselines == map[]);
      SaveView(m.cfg, m.base, m.attempt, m.w, View(), baselines == map[]);
      r := m.SavePlan(View());
    }

    /** Sets flags in memory, then writes the plan, before the mutation they announce. */
    method Announce(f: Flags) returns (r: Status)
      requires Synced() && Ordered(f) && Within(flags, f)
      requires m.attempt in m.w.attempts && Journalled(m.w.attempts[m.attempt].history, f)
      requires f.traffic ==> flags.migration && previous != []
      requires f.workers ==> flags.workers || (m.cfg.beat in replicas && replicas[m.cfg.beat] == 1)
      requires f.traffic ==> flags.traffic || forall t :: t in previous ==> t in m.w.live.slots
      modifies this`flags, m`w, m`trace, m`failures
      ensures old(m.failures) <= m.failures
      ensures Linked() && armed && flags == f == m.w.intent && SameHost(old(m.w), m.w)
      ensures r.Done? ==> Synced()
    {
      hide Good, Matches, Able, ValidConfig, Ordered, Journalled, Machine.Valid, Knows;
      RaiseView(m.w, View(), f, baselines == map[]);
      AbleStill(m.cfg, m.base, m.attempt, flags, f, replicas, baselines, previous, m.w.live.slots, m.w.live.slots);
      AttemptKnown(m.w, View(), baselines == map[]);
      flags := f;
      m.Intend(f);
      r := UpdatePlan();
    }

    // -------------------------------------------------------------- routes

    method TestAndReload() returns (s: Status)
      requires m.Valid() && m.MayRoute()
      modifies m`w, m`trace, m`failures
      ensures old(m.failures) <= m.failures
      ensures m.Valid() && m.MayRoute()
      ensures m.w == old(m.w).(live := old(m.w).live.(loaded := m.w.live.loaded))
      ensures m.w.live.loaded == old(m.w).live.loaded || Loads(m.w, m.w.live.upstream)
      ensures s.Done? ==> Loads(m.w, m.w.live.upstream)
      ensures s.Raised? ==> old(m.failures) < m.failures || !AllUp(m.w.live.groups, m.w.live.slots, m.w.live.upstream)
    {
      hide Machine.Valid;
      :- m.Probe();
      :- m.NginxTest();
      s := m.NginxReload();
    }

    /** `_activate_upstream`: validate and load one target set, putting the old file back on any doubt. */
    method ActivateUpstream(targets: seq<Target>, backups: seq<Target>) returns (s: Status)
      requires m.Valid() && m.MayRoute()
      modifies m`w, m`trace, m`failures
      ensures old(m.failures) <= m.failures
      ensures m.Valid() && m.MayRoute() && SameButRoutes(old(m.w), m.w)
      ensures s.Done? ==> Renderable(targets, backups) && Loads(m.w, Route(targets, backups))
      ensures s.Raised? ==> old(m.failures) < m.failures || !Routable(m.w, targets, backups)
      ensures m.w.live.upstream in {old(m.w).live.upstream, Route(targets, backups)}
      ensures m.w.live.loaded == old(m.w).live.loaded
              || (m.w.live.loaded in {Route(targets, backups), old(m.w).live.upstream}
                  && AllUp(m.w.live.groups, m.w.live.slots, m.w.live.loaded))
    {
      hide Machine.Valid, AllUp;
      if !Renderable(targets, backups) { return Raised; }
      var before := m.w.live.upstream;
      var updated := Route(targets, backups);
      if before == updated {
        s := TestAndReload();
        return;
      }
      :- m.WriteUpstream(updated);
      s := TestAndReload();
      if s.Raised? {
        :- m.WriteUpstream(before);
        var restored := TestAndReload();
      }
    }

    // -------------------------------------------------------------- services

    /** `compose up --force-recreate` of some services, none of them the beat. */
    method ComposeUp(services: seq<Service>, ghost spared: set<Service>) returns (r: Status)
      requires m.Valid() && (forall s :: s in services ==> m.MayRecreate(s) && s in spared)
      requires ServedWithout(m.w, spared)
      requires Distinct(services) && m.cfg.beat !in services
      modifies m`w, m`trace, m`failures
      ensures old(m.failures) <= m.failures
      ensures m.Valid() && ServedWithout(m.w, spared)
      ensures SameButGroups(old(m.w), m.w, SetOf(services))
      ensures r.Done? ==> forall s :: s in services ==> s in replicas && Recreated(m.cfg, m.w, s, replicas[s])
      ensures r.Raised? && Recreatable(m.cfg, old(m.w).live.tags, services, replicas) ==> old(m.failures) < m.failures
    {
      hide Machine.Valid, Serving, ServedWithout;
      if exists s :: s in services && (s !in replicas || replicas[s] == 0 || replicas[s] > MAX_SERVICE_REPLICAS) {
        return Raised;
      }
      var i := 0;
      assert SameButGroups(old(m.w), m.w, SetOf(services[..0]));
      while i < |services|
        invariant 0 <= i <= |services| && m.Valid() && ServedWithout(m.w, spared) && old(m.failures) <= m.failures
        invariant forall s :: s in services ==> m.MayRecreate(s)
        invariant SameButGroups(old(m.w), m.w, SetOf(services[..i]))
        invariant forall k :: 0 <= k < i ==> services[k] in replicas && Recreated(m.cfg, m.w, services[k], replicas[services[k]])
      {
        var s := services[i];
        ghost var before := m.w;
        ServedWithoutOne(m.w, spared, s);
        NotYet(old(m.w), m.w, services, i);
        r := m.Recreate(s, replicas[s]);
        ServedAcross(before, m.w, spared, s);
        SameButGroupsTrans(old(m.w), before, m.w, SetOf(services[..i]), {s});
        assert SetOf(services[..i + 1]) == SetOf(services[..i]) + {s};
        forall k | 0 <= k < i ensures Recreated(m.cfg, m.w, services[k], replicas[services[k]]) {
          assert SameGroup(before.live.groups, m.w.live.groups, services[k]);
        }
        if r.Raised? {
          Prefixes(old(m.w), m.w, services, i + 1);
          return;
        }
        i := i + 1;
      }
      Prefixes(old(m.w), m.w, services, |services|);
      return Done;
    }

    /** `_restore_service_set`: ordinary services first; the beat is stopped before it is started. */
    method RestoreServiceSet(services: seq<Service>) returns (r: Status)
      requires m.Valid() && OnSlots(m.w.live)
      requires forall s :: s in services ==> m.MayRecreate(s)
      requires Distinct(services)
      modifies m`w, m`trace, m`failures
      ensures old(m.failures) <= m.failures
      ensures m.Valid() && OnSlots(m.w.live) && SameButGroups(old(m.w), m.w, SetOf(services))
      ensures r.Done? ==> RecreatedAll(m.cfg, m.w, services, replicas)
      ensures r.Raised? && Recreatable(m.cfg, old(m.w).live.tags, services, replicas) ==> old(m.failures) < m.failures
    {
      hide Machine.Valid, Serving, ServedWithout, ValidConfig, Committed, Distinct, Except;
      if services == [] { return Done; }
      var beat := m.cfg.beat;
      var ordinary := Except(services, beat);
      OnSlotsServes(m.w, SetOf(services));
      ExceptDistinct(services, beat);
      if ordinary != [] {
        r := ComposeUp(ordinary, SetOf(services));
        Widen(old(m.w), m.w, SetOf(ordinary), SetOf(services));
        if r.Raised? { return; }
      }
      if beat in services {
        ghost var before := m.w;
        r := RestartBeat(SetOf(services));
        SameButGroupsTrans(old(m.w), before, m.w, SetOf(services), {beat});
        assert SetOf(services) + {beat} == SetOf(services);
        forall s | s in ordinary ensures r.Done? ==> SameGroup(before.live.groups, m.w.live.groups, s) { }
      } else {
        r := Done;
      }
    }

    /** Stop before start: two beat schedulers never run at once. */
    method RestartBeat(ghost spared: set<Service>) returns (r: Status)
      requires m.Valid() && m.MayRecreate(m.cfg.beat) && m.cfg.beat in spared && ServedWithout(m.w, spared)
      modifies m`w, m`trace, m`failures
      ensures old(m.failures) <= m.failures
      ensures m.Valid() && ServedWithout(m.w, spared) && SameButGroups(old(m.w), m.w, {m.cfg.beat})
      ensures r.Done? ==> Recreated(m.cfg, m.w, m.cfg.beat, 1)
      ensures r.Raised? && m.cfg.reference(m.cfg.beat) in old(m.w).live.tags ==> old(m.failures) < m.failures
    {
      hide Machine.Valid, Serving, ServedWithout;
      var beat := m.cfg.beat;
      ServedWithoutOne(m.w, spared, beat);
      r := m.Stop(beat);
      ServedAcross(old(m.w), m.w, spared, beat);
      if r.Raised? { return; }
      ghost var before := m.w;
      ServedWithoutOne(m.w, spared, beat);
      r := m.Recreate(beat, 1);
      ServedAcross(before, m.w, spared, beat);
      SameButGroupsTrans(old(m.w), before, m.w, {beat}, {beat});
      assert {beat} + {beat} == {beat};
    }

    // -------------------------------------------------------------- slots

    method RemoveEach(names: seq<Target>) returns (r: Status)
      requires m.Valid() && (forall t :: t in names ==> t.Slot? && t.attempt == m.attempt)
      requires m.w.plan.Some? || names == [] || (Committed(m.w.attempts, m.attempt) && !m.w.unsettled)
      requires Serving(m.w.live.groups, m.w.live.slots, m.w.live.loaded, SetOf(names))
      modifies m`w, m`trace, m`failures
      ensures old(m.failures) <= m.failures
      ensures m.Valid() && SlotsMinus(old(m.w), m.w, names)
      ensures r.Raised? ==> old(m.failures) < m.failures
      ensures r.Done? ==> forall t :: t in names ==> t !in m.w.live.slots
    {
      hide Machine.Valid, Serving;
      var i := 0;
      while i < |names|
        invariant 0 <= i <= |names| && m.Valid() && SlotsMinus(old(m.w), m.w, names) && old(m.failures) <= m.failures
        invariant Serving(m.w.live.groups, m.w.live.slots, m.w.live.loaded, SetOf(names))
        invariant forall k :: 0 <= k < i ==> names[k] !in m.w.live.slots
      {
        ServingLess(m.w.live.groups, m.w.live.slots, m.w.live.loaded, SetOf(names), {names[i]});
        ServingWithoutSlot(m.w.live.groups, m.w.live.slots, m.w.live.loaded, SetOf(names), names[i]);
        r := m.RemoveSlot(names[i]);
        if r.Raised? { return; }
        i := i + 1;
      }
      return Done;
    }

    /** `_remove_web_slots` */
    method RemoveWebSlots(names: seq<Target>) returns (r: Status)
      requires m.Valid() && (forall t :: t in names ==> t.Slot? && t.attempt == m.attempt)
      requires m.w.plan.Some? || names == [] || (Committed(m.w.attempts, m.attempt) && !m.w.unsettled)
      requires Serving(m.w.live.groups, m.w.live.slots, m.w.live.loaded, SetOf(names))
      modifies this`previous, this`candidate, m`w, m`trace, m`failures
      ensures old(m.failures) <= m.failures
      ensures m.Valid() && SlotsMinus(old(m.w), m.w, names)
      ensures r.Raised? ==> old(m.failures) < m.failures
      ensures r.Done? ==> forall t :: t in names ==> t !in m.w.live.slots
      ensures r.Done? ==> previous == Kept(old(previous), names) && candidate == Kept(old(candidate), names)
      ensures r.Raised? ==> previous == old(previous) && candidate == old(candidate)
    {
      hide Machine.Valid, Serving;
      r := RemoveEach(names);
      if r.Done? {
        previous := Kept(previous, names);
        candidate := Kept(candidate, names);
      }
    }

    // -------------------------------------------------------------- configuration

    /** The captured images are the baseline's, and a shared reference has one image. */
    ghost predicate Captures()
      reads this`images, m`base
    {
      && images.Keys == SetOf(m.cfg.services)
      && (forall s :: s in m.cfg.services ==> s in m.base.live.groups && m.base.live.groups[s].image == images[s])
      && (forall s, t :: s in m.cfg.services && t in m.cfg.services && m.cfg.reference(s) == m.cfg.reference(t) ==>
            images[s] == images[t])
    }

    /** Everything the configuration step of a rollback relies on, with or without a plan on disk. */
    ghost predicate Reversible()
      reads this, m`w, m`base, m`attempt, m`trace
    {
      && m.Valid() && attempt == m.attempt && Ordered(flags) && Captures()
      && (Committed(m.w.attempts, m.attempt) ==> m.w.plan.Some? && m.w.unsettled)
      && m.attempt in m.w.backups
      && (if m.w.plan.Some?
          then m.w.backups[m.attempt] == BackupOf(m.base) && platformExisted == Some(m.base.files.platform.Some?)
               && pointerExisted == Some(m.base.files.pointer.Some?)
          else flags == NO_FLAGS
               && Copies(m.base, m.w.backups[m.attempt]))
    }

    /** The retag loop of `_restore_candidate_configuration`; the shared-reference conflict cannot occur. */
    method Retag() returns (r: Status)
      requires m.Valid() && Captures() && (Committed(m.w.attempts, m.attempt) ==> m.w.plan.Some? && m.w.unsettled)
      modifies m`w, m`trace, m`failures
      ensures old(m.failures) <= m.failures
      ensures m.Valid()
      ensures m.w == old(m.w).(live := old(m.w).live.(tags := m.w.live.tags))
      ensures r.Done? ==> Retagged(m.cfg, m.w.live.tags, images)
      ensures r.Raised? ==> old(m.failures) < m.failures
    {
      hide Machine.Valid, Retagging, OneImage, Retagged;
      CapturesOneImage();
      var restored: map<Reference, Image> := map[];
      var i := 0;
      NothingRetagged(m.cfg, m.w.live.tags, images);
      while i < |m.cfg.services|
        invariant 0 <= i <= |m.cfg.services| && m.Valid() && old(m.failures) <= m.failures
        invariant m.w == old(m.w).(live := old(m.w).live.(tags := m.w.live.tags))
        invariant Retagging(m.cfg, i, restored, m.w.live.tags, images)
      {
        var s := m.cfg.services[i];
        var reference := m.cfg.reference(s);
        if reference in restored {
          AlreadyRetagged(m.cfg, i, restored, m.w.live.tags, images);
          if restored[reference] != images[s] {
            assert false;
            return Raised;
          }
        } else {
          RetagNext(m.cfg, i, restored, m.w.live.tags, images);
          restored := restored[reference := images[s]];
          :- m.Tag(images[s], reference);
          :- m.Probe();
        }
        i := i + 1;
      }
      AllRetagged(m.cfg, restored, m.w.live.tags, images);
      return Done;
    }

    lemma CapturesOneImage()
      requires Captures()
      ensures OneImage(m.cfg, images)
    {
    }

    lemma SettingsKept()
      requires m.Valid()
      ensures m.w.plan.Some? ==> m.w.files.settings == m.base.files.settings
    {
      m.Now();
    }

    /** The Dockerfile, the settings check and the managed upstream file. */
    method RestoreFiles() returns (r: Status)
      requires Reversible()
      modifies m`w, m`trace, m`failures
      ensures old(m.failures) <= m.failures
      ensures Reversible()
      ensures m.w == old(m.w).(live := old(m.w).live.(upstream := m.w.live.upstream),
                               files := old(m.w).files.(dockerfile := m.w.files.dockerfile))
      ensures r.Done? ==> FilesBack(m.w, m.attempt)
      ensures r.Raised? ==> old(m.failures) < m.failures || m.w.plan.None?
    {
      hide Machine.Valid, Captures;
      SettingsKept();
      var copies := m.w.backups[m.attempt];
      :- m.CopyDockerfile(copies.dockerfile);
      if copies.settings != Some(m.w.files.settings) { return Raised; }
      :- m.Probe();
      if copies.upstream.None? { return Raised; }
      if m.w.live.upstream != copies.upstream.value {
        :- m.WriteUpstream(copies.upstream.value);
      }
      return Done;
    }

    /** CURRENT.json, current.json and the shared static manifest, each only if its flag is raised. */
    method RestoreMarkers() returns (r: Status)
      requires Reversible() && (flags != NO_FLAGS ==> m.Open())
      modifies m`w, m`trace, m`failures
      ensures old(m.failures) <= m.failures
      ensures m.Valid()
      ensures m.w == old(m.w).(files := old(m.w).files.(platform := m.w.files.platform, pointer := m.w.files.pointer, statics := m.w.files.statics))
      ensures !flags.marker ==> m.w.files.platform == old(m.w).files.platform && m.w.files.pointer == old(m.w).files.pointer
      ensures !flags.statics ==> m.w.files.statics == old(m.w).files.statics
      ensures r.Done? ==> MarkersBack(m.base, m.w, flags)
      ensures r.Raised? ==>
                old(m.failures) < m.failures || m.w.plan.None? || (flags.statics && m.cfg.gunicorn !in m.w.live.groups)
    {
      hide Machine.Valid, Captures;
      var copies := m.w.backups[m.attempt];
      if flags.marker && platformExisted.Some? {
        :- m.WritePlatform(copies.platform);
      }
      if flags.marker && pointerExisted.Some? && m.w.files.pointer != copies.pointer {
        :- m.WritePointer(copies.pointer);
      }
      if flags.statics {
        var through := candidate;
        var found := m.Probe();
        if found.Done? && m.cfg.gunicorn in m.w.live.groups {
          through := through + [Compose(m.cfg.gunicorn)];
          assert through[|candidate|] == Compose(m.cfg.gunicorn);
          assert Up(m.w.live.groups, m.w.live.slots, Compose(m.cfg.gunicorn));
        }
        if through == [] || copies.statics.None? { return Raised; }
        :- m.RestoreStatics(copies.statics.value, through);
      }
      return Done;
    }

    /** `_restore_candidate_configuration` */
    method RestoreConfiguration() returns (r: Status)
      requires Reversible() && (flags != NO_FLAGS ==> m.Open())
      modifies m`w, m`trace, m`failures
      ensures old(m.failures) <= m.failures
      ensures m.Valid() && (old(Linked()) ==> Linked()) && SameButConfiguration(old(m.w), m.w, flags)
      ensures r.Done? ==> ConfigurationBack(m.cfg, m.base, m.w, m.attempt, flags, images)
      ensures r.Raised? && old(Linked()) ==> old(m.failures) < m.failures || (flags.statics && m.cfg.gunicorn !in m.w.live.groups)
    {
      hide Machine.Valid, Captures, Retagged, Copies, Matches, Able;
      if Linked() { LinkedPlan(); }
      if !prepared || !settingsMeta { return Raised; }
      r := RestoreFiles();
      if r.Raised? || !upstreamMeta { return Raised; }
      r := RestoreMarkers();
      if r.Raised? { return; }
      r := Retag();
    }

    // -------------------------------------------------------------- rollback

    /** No plan is on disk and nothing live has changed. */
    ghost predicate Fresh()
      reads this, m`w, m`base, m`attempt, m`trace
    {
      && m.Valid() && attempt == m.attempt && Untried(m.base, m.w, m.attempt)
      && flags == NO_FLAGS && previous == [] && candidate == [] && Apart(m.cfg, pins)
      && (prepared ==>
            && Captures() && m.attempt in m.w.backups
            && Copies(m.base, m.w.backups[m.attempt]))
    }

    lemma LinkedReversible()
      requires Linked()
      ensures Reversible() && m.Open() && Apart(m.cfg, pins) && replicas == m.w.plan.value.replicas && images == m.w.plan.value.images
      ensures flags.traffic ==> previous != [] && m.MayRoute()
      ensures forall s :: s in m.cfg.services && (if s == m.cfg.gunicorn then flags.gunicorn else flags.workers) ==> m.MayRecreate(s)
      ensures forall t :: t in previous || t in candidate ==> t.Slot? && t.attempt == m.attempt
    {
      hide Machine.Valid, Good;
      m.Now();
      ArmedFacts(m.cfg, m.base, m.attempt, m.w);
      assert images == m.w.plan.value.images;
    }

    /** `_verify_restored` */
    method VerifyRestored(replaced: set<Service>) returns (r: Status)
      modifies m`failures
      ensures old(m.failures) <= m.failures
      ensures r.Raised? ==>
                || old(m.failures) < m.failures
                || !Healthy(m.cfg, m.w, replicas, baselines, replaced) || !RunsImages(m.w, m.cfg.services, images)
      ensures r.Done? ==> Healthy(m.cfg, m.w, replicas, baselines, replaced) && RunsImages(m.w, m.cfg.services, images)
    {
      r := m.Probe();
      if r.Raised? { return; }
      if !Healthy(m.cfg, m.w, replicas, baselines, replaced) { return Raised; }
      if !RunsImages(m.w, m.cfg.services, images) { return Raised; }
      :- m.Probe();
      return Done;
    }

    /** `_discard_previous_image_pins`: failures are ignored. */
    method DiscardPins()
      requires m.Valid() && Apart(m.cfg, pins)
      modifies this`pins, m`w, m`trace
      ensures m.Valid() && pins == []
      ensures m.w == old(m.w).(live := old(m.w).live.(tags := m.w.live.tags))
      ensures forall s :: SameTag(old(m.w).live.tags, m.w.live.tags, m.cfg.reference(s))
    {
      hide Machine.Valid;
      var i := 0;
      while i < |pins|
        invariant 0 <= i <= |pins| && m.Valid() && pins == old(pins) && Apart(m.cfg, pins)
        invariant m.w == old(m.w).(live := old(m.w).live.(tags := m.w.live.tags))
        invariant forall s :: SameTag(old(m.w).live.tags, m.w.live.tags, m.cfg.reference(s))
      {
        assert pins[i] in pins;
        m.Untag(pins[i]);
        i := i + 1;
      }
      pins := [];
    }

    /** `complete_recovery_plan`, once the slots and tags of the put-back world `before` are gone. */
    method CompletePlan(ghost before: World) returns (r: Status)
      requires m.Valid()
      requires m.w == before.(live := before.live.(slots := m.w.live.slots, tags := m.w.live.tags))
      requires m.w.plan.Some? ==>
                 && m.Open() && Captures() && PutBack(m.cfg, m.base, before, images)
                 && (forall s :: SameTag(before.live.tags, m.w.live.tags, m.cfg.reference(s)))
                 && forall t :: t in m.w.plan.value.previous || t in m.w.plan.value.candidate ==> t !in m.w.live.slots
      modifies this`armed, m`w, m`trace, m`failures
      ensures old(m.failures) <= m.failures
      ensures m.Valid() && (m.w == old(m.w) || m.w == old(m.w).(plan := None))
      ensures r.Done? ==> m.w.plan.None?
      ensures r.Raised? ==> old(m.failures) < m.failures
      ensures old(m.w).plan.Some? ==> m.w.live.slots == m.base.live.slots
      ensures old(m.w).plan.Some? && m.w.plan.None? ==> Restored(m.cfg, m.base, m.attempt, m.w)
    {
      hide Machine.Valid, Serving, Good, Captured, OldImages, Retagged, Captures, Restored, AtRest;
      if m.w.plan.None? {
        armed := false;
        return Done;
      }
      m.Now();
      SlotsAsBefore(m.cfg, m.base, m.attempt, m.w);
      CapturesGroups();
      RetaggedReferences(m.cfg, m.base, before.live.tags, m.w.live.tags, images);
      RestStep(m.cfg, m.base, m.attempt, m.w);
      r := m.DropPlan();
      if r.Done? { armed := false; }
    }

    method RemoveOwnSlots() returns (r: Status)
      requires m.Valid() && (forall t :: t in candidate + previous ==> t.Slot? && t.attempt == m.attempt)
      requires m.w.plan.Some? || candidate + previous == []
      requires Serving(m.w.live.groups, m.w.live.slots, m.w.live.loaded, SetOf(candidate + previous))
      modifies this`previous, this`candidate, m`w, m`trace, m`failures
      ensures old(m.failures) <= m.failures
      ensures m.Valid() && SameButSlots(old(m.w), m.w)
      ensures r.Raised? ==> old(m.failures) < m.failures
      ensures r.Done? ==> previous == [] && candidate == []
      ensures r.Done? ==> forall t :: t in old(previous) || t in old(candidate) ==> t !in m.w.live.slots
    {
      hide Machine.Valid, Serving, Kept, SetOf;
      var names := candidate + previous;
      KeptNone(previous, names);
      KeptNone(candidate, names);
      r := RemoveWebSlots(names);
      if r.Done? {
        forall t | t in old(previous) || t in old(candidate) ensures t !in m.w.live.slots { assert t in names; }
      }
    }

    /** Slots, temporary tags and at last the plan are removed. */
    method CleanUp() returns (r: Status)
      requires m.Valid() && attempt == m.attempt && Apart(m.cfg, pins)
      requires forall t :: t in candidate + previous ==> t.Slot? && t.attempt == m.attempt
      requires Serving(m.w.live.groups, m.w.live.slots, m.w.live.loaded, SetOf(candidate + previous))
      requires m.w.plan.None? ==> previous == [] && candidate == []
      requires m.w.plan.Some? ==>
                 && m.Open() && Captures() && PutBack(m.cfg, m.base, m.w, images)
                 && m.w.plan.value.previous <= previous && m.w.plan.value.candidate <= candidate
      modifies this`previous, this`candidate, this`pins, this`armed, m`w, m`trace, m`failures
      ensures old(m.failures) <= m.failures
      ensures m.Valid()
      ensures m.w == old(m.w).(live := old(m.w).live.(slots := m.w.live.slots, tags := m.w.live.tags), plan := m.w.plan)
      ensures forall s :: SameTag(old(m.w).live.tags, m.w.live.tags, m.cfg.reference(s))
      ensures m.w.plan == old(m.w).plan || m.w.plan.None?
      ensures r.Raised? ==> old(m.failures) < m.failures
      ensures r.Done? ==> m.w.plan.None? && previous == [] && candidate == []
      ensures r.Done? && old(m.w).plan.Some? ==> m.w.live.slots == m.base.live.slots
      ensures old(m.w).plan.Some? && m.w.plan.None? ==> Restored(m.cfg, m.base, m.attempt, m.w)
    {
      hide Machine.Valid, Serving, Good, Captured, PutBack, Captures, Apart, SetOf, Committed, Restored;
      r := RemoveOwnSlots();
      if r.Raised? { return; }
      DiscardPins();
      r := CompletePlan(old(m.w));
    }

    lemma CapturesGroups()
      requires Captures()
      ensures forall s :: s in m.cfg.services ==>
                s in m.base.live.groups && s in images && m.base.live.groups[s].image == images[s]
    {
    }

    /** What no rollback of this process can get past: with traffic switched, its first route names Gunicorn and all
        previous slots, and fails where Gunicorn is gone or the route exceeds the limit; and after a migration nothing
        is verified without restart counts. */
    predicate Stuck()
      reads this`flags, this`replicas, this`baselines, m`w
    {
      || (flags.traffic && m.cfg.gunicorn !in m.w.live.groups)
      || (flags.traffic && m.cfg.gunicorn in replicas && replicas[m.cfg.gunicorn] >= MAX_SERVICE_REPLICAS)
      || (flags.migration && baselines == map[])
    }

    /** Otherwise the first route can be taken. */
    lemma FirstRoute()
      requires Linked() && flags.traffic && !Stuck()
      ensures Routable(m.w, previous, [Compose(m.cfg.gunicorn)]) && Routable(m.w, [Compose(m.cfg.gunicorn)], previous)
    {
      hide Machine.Valid, Matches, Captures, Apart, Good;
      LinkedReversible();
      var names := SlotNames(Role.Previous, attempt, replicas[m.cfg.gunicorn]);
      assert names[..|previous|] == previous;
      assert baselines != map[];
    }

    /** And the services can be recreated. */
    lemma Scalable()
      requires Linked() && (flags.workers || flags.gunicorn) && !Stuck() && Retagged(m.cfg, m.w.live.tags, images)
      ensures Recreatable(m.cfg, m.w.live.tags, m.cfg.services, replicas)
    {
      hide Machine.Valid, Matches, Captures, Apart, Good;
      LinkedReversible();
      m.Now();
      ArmedFacts(m.cfg, m.base, m.attempt, m.w);
    }

    /** Users are routed to the previous slots before anything else is restored. */
    method RouteFirst() returns (r: Status)
      requires Linked() && flags.traffic
      modifies m`w, m`trace, m`failures
      ensures old(m.failures) <= m.failures
      ensures Linked() && SameButRoutes(old(m.w), m.w)
      ensures r.Done? ==> OnSlots(m.w.live) && AllUp(m.w.live.groups, m.w.live.slots, Route(previous, [Compose(m.cfg.gunicorn)]))
      ensures r.Raised? ==> old(m.failures) < m.failures || Stuck()
    {
      hide Machine.Valid, Matches, Able, Captures, Apart, Good;
      LinkedReversible();
      if !Stuck() { FirstRoute(); }
      var targets := previous;
      if targets == [] && !flags.gunicorn {
        assert false;
        return Raised;
      }
      r := ActivateUpstream(targets, [Compose(m.cfg.gunicorn)]);
      if r.Done? {
        assert previous[0] in Names(m.w.live.loaded) && previous[0] in previous + candidate;
      }
    }

    method RestoreWorkers() returns (r: Status)
      requires Linked() && flags.workers && OnSlots(m.w.live)
      modifies m`w, m`trace, m`failures
      ensures old(m.failures) <= m.failures
      ensures Linked() && SameButGroups(old(m.w), m.w, SetOf(m.cfg.services)) && OnSlots(m.w.live)
      ensures r.Done? ==> RecreatedAll(m.cfg, m.w, Except(m.cfg.services, m.cfg.gunicorn), replicas)
      ensures SameGroup(old(m.w).live.groups, m.w.live.groups, m.cfg.gunicorn)
      ensures r.Raised? && Recreatable(m.cfg, old(m.w).live.tags, m.cfg.services, replicas) ==> old(m.failures) < m.failures
    {
      hide Machine.Valid, Matches, Able, Captures, Apart, Good, ServedWithout, SameOutside, RecreatedAll;
      LinkedReversible();
      m.Now();
      var others := Except(m.cfg.services, m.cfg.gunicorn);
      ExceptDistinct(m.cfg.services, m.cfg.gunicorn);
      r := RestoreServiceSet(others);
      OutsideOne(old(m.w), m.w, SetOf(others), m.cfg.gunicorn);
      Widen(old(m.w), m.w, SetOf(others), SetOf(m.cfg.services));
    }

    method RestoreGunicorn() returns (r: Status)
      requires Linked() && flags.gunicorn && OnSlots(m.w.live)
      modifies m`w, m`trace, m`failures
      ensures old(m.failures) <= m.failures
      ensures Linked() && SameButGroups(old(m.w), m.w, {m.cfg.gunicorn}) && OnSlots(m.w.live)
      ensures r.Done? ==> RecreatedAll(m.cfg, m.w, [m.cfg.gunicorn], replicas)
      ensures r.Raised? && Recreatable(m.cfg, old(m.w).live.tags, m.cfg.services, replicas) ==> old(m.failures) < m.failures
    {
      hide Machine.Valid, Matches, Able, Captures, Apart, Good, ServedWithout, SameOutside, RecreatedAll;
      LinkedReversible();
      m.Now();
      r := RestoreServiceSet([m.cfg.gunicorn]);
      Widen(old(m.w), m.w, SetOf([m.cfg.gunicorn]), {m.cfg.gunicorn});
    }

    /** A rollback of a prepared attempt can start here, with or without a plan on disk. */
    ghost predicate Recoverable()
      reads this, m`w, m`base, m`attempt, m`trace
    {
      Linked() || (Fresh() && prepared)
    }

    lemma RecoverableFacts()
      requires Recoverable()
      ensures Reversible() && Ordered(flags) && (flags != NO_FLAGS ==> Linked() && m.Open())
      ensures if m.w.plan.Some? then Linked() else Fresh() && flags == NO_FLAGS
    {
      hide Machine.Valid, Captures, Reversible;
      if Linked() {
        LinkedReversible();
      } else {
        FreshReversible();
      }
    }

    lemma FreshReversible()
      requires Fresh() && prepared
      ensures Reversible()
    {
      hide Machine.Valid, Captures;
    }

    /** While traffic was never switched, what is loaded and what runs is as before the attempt. */
    lemma Quiet()
      requires Linked() && !flags.traffic && (flags.migration ==> baselines != map[])
      ensures m.w.live.loaded == m.base.live.loaded
      ensures Serving(m.w.live.groups, m.w.live.slots, m.w.live.loaded, SetOf(candidate + previous))
      ensures OldImages(m.cfg, m.base, m.w.live.groups) && Unmoved(m.cfg, m.base, m.w.live.groups)
    {
      hide Machine.Valid, Good, Serving, SameGroup, OldImages, Captures, Captured, Apart;
      LinkedReversible();
      m.Now();
      ArmedFacts(m.cfg, m.base, m.attempt, m.w);
      ServesAsBefore(m.cfg, m.base, m.attempt, m.w, candidate + previous);
      UnmovedImages(m.cfg, m.base, m.w);
    }

    /** Worker and web services go back to their captured images; both are tried. */
    method RestoreServices() returns (workers: Status, web: Status)
      requires m.Valid() && (flags.workers || flags.gunicorn ==> Linked() && OnSlots(m.w.live))
      modifies m`w, m`trace, m`failures
      ensures old(m.failures) <= m.failures
      ensures m.Valid() && (old(Linked()) ==> Linked()) && SameButGroups(old(m.w), m.w, SetOf(m.cfg.services))
      ensures !flags.workers && !flags.gunicorn ==> m.w == old(m.w) && workers.Done? && web.Done?
      ensures workers.Done? && flags.workers ==> RecreatedAll(m.cfg, m.w, Except(m.cfg.services, m.cfg.gunicorn), replicas)
      ensures web.Done? && flags.gunicorn ==> RecreatedAll(m.cfg, m.w, [m.cfg.gunicorn], replicas)
      ensures web.Done? && m.cfg.gunicorn in old(m.w).live.groups ==> m.cfg.gunicorn in m.w.live.groups
      ensures workers.Raised? || web.Raised? ==>
                old(m.failures) < m.failures || !Recreatable(m.cfg, old(m.w).live.tags, m.cfg.services, replicas)
    {
      hide Machine.Valid, Matches, Able, ServedWithout, SameOutside, RecreatedAll, SameButGroups, Linked, Except;
      workers, web := Done, Done;
      Untouching(m.w, SetOf(m.cfg.services));
      if flags.workers { workers := RestoreWorkers(); }
      ghost var before := m.w;
      SameTags(old(m.w), before, SetOf(m.cfg.services));
      if flags.gunicorn {
        web := RestoreGunicorn();
        if web.Done? { RecreatedOne(m.cfg, m.w, m.cfg.gunicorn, replicas); }
        if flags.workers && workers.Done? {
          RecreatedStays(m.cfg, before, m.w, Except(m.cfg.services, m.cfg.gunicorn), replicas, {m.cfg.gunicorn});
        }
        SameButGroupsTrans(old(m.w), before, m.w, SetOf(m.cfg.services), {m.cfg.gunicorn});
        GunicornIsService();
      }
      if flags.workers || flags.gunicorn { LinkedPlan(); }
    }

    lemma GunicornIsService()
      requires Linked()
      ensures SetOf(m.cfg.services) + {m.cfg.gunicorn} == SetOf(m.cfg.services)
    {
      m.Now();
    }

    /** What the configuration step leaves, seen from the baseline. */
    lemma Configured()
      requires Linked() && ConfigurationBack(m.cfg, m.base, m.w, m.attempt, flags, images)
      ensures m.w.files == m.base.files.(schema := m.w.files.schema) && m.w.live.upstream == m.base.live.upstream
    {
      hide Machine.Valid, Matches, Able, Good, Captures, Captured, Retagged, FilesBack, MarkersBack, Reversible, Apart, ValidConfig;
      LinkedReversible();
      m.Now();
      AttemptKnown(m.w, View(), baselines == map[]);
      FilesPutBack(m.cfg, m.base, m.attempt, m.w, flags, images);
    }

    /** The restored Gunicorn becomes primary, the previous slots its backups. */
    method RouteBack() returns (r: Status)
      requires Linked() && flags.traffic
      modifies m`w, m`trace, m`failures
      ensures old(m.failures) <= m.failures
      ensures m.Valid() && Linked() && SameButRoutes(old(m.w), m.w)
      ensures r.Done? ==> Loads(m.w, Route([Compose(m.cfg.gunicorn)], previous))
      ensures r.Raised? ==> old(m.failures) < m.failures || Stuck()
    {
      hide Machine.Valid, Matches, Able, Captures, Apart, Good;
      LinkedReversible();
      if !Stuck() { FirstRoute(); }
      r := ActivateUpstream([Compose(m.cfg.gunicorn)], previous);
    }

    /** Files, references and route are as a rollback leaves them before the slots go. */
    ghost predicate InPlace()
      reads this, m`w, m`base, m`attempt, m`trace
    {
      && Retagged(m.cfg, m.w.live.tags, images)
      && (m.w.plan.None? ==> FilesBack(m.w, m.attempt))
      && (m.w.plan.Some? ==>
            && m.w.files == m.base.files.(schema := m.w.files.schema)
            && (if flags.traffic then Loads(m.w, Route([Compose(m.cfg.gunicorn)], previous))
                else m.w.live.upstream == m.base.live.upstream))
    }

    /** What this process may have replaced has been recreated at its captured scale. */
    ghost predicate Replenished()
      reads this`flags, this`replicas, m`w
    {
      && (flags.workers ==> RecreatedAll(m.cfg, m.w, Except(m.cfg.services, m.cfg.gunicorn), replicas))
      && (flags.gunicorn ==> RecreatedAll(m.cfg, m.w, [m.cfg.gunicorn], replicas))
    }

    lemma ReplenishedStill(before: World)
      requires SameButRoutes(before, m.w)
      requires flags.workers ==> RecreatedAll(m.cfg, before, Except(m.cfg.services, m.cfg.gunicorn), replicas)
      requires flags.gunicorn ==> RecreatedAll(m.cfg, before, [m.cfg.gunicorn], replicas)
      ensures Replenished()
    {
      if flags.workers { Rerouted(m.cfg, before, m.w, Except(m.cfg.services, m.cfg.gunicorn), replicas); }
      if flags.gunicorn { Rerouted(m.cfg, before, m.w, [m.cfg.gunicorn], replicas); }
    }

    /** Then the host is healthy again, whatever was replaced. */
    lemma HealthyAgain()
      requires Linked() && flags.migration && !Stuck() && Replenished() && Retagged(m.cfg, m.w.live.tags, images)
      ensures Healthy(m.cfg, m.w, replicas, baselines, Replaced()) && RunsImages(m.w, m.cfg.services, images)
    {
      hide Machine.Valid, Good, Apart, Reversible, Captures;
      LinkedReversible();
      m.Now();
      ArmedFacts(m.cfg, m.base, m.attempt, m.w);
      Announced();
      forall s | s in m.cfg.services
        ensures s in replicas && s in m.w.live.groups && m.w.live.groups[s].replicas == replicas[s]
        ensures Unrestarted(m.w.live.groups[s], baselines, s in Replaced()) && s in images && m.w.live.groups[s].image == images[s]
      {
        if s == m.cfg.gunicorn {
          assert s in [m.cfg.gunicorn];
        } else {
          assert s in Except(m.cfg.services, m.cfg.gunicorn);
        }
      }
      forall s | s in m.cfg.infrastructure
        ensures s in m.w.live.groups && m.w.live.groups[s].replicas == 1 && Unrestarted(m.w.live.groups[s], baselines, s in Replaced())
      {
        InfrastructureKept(s);
      }
    }

    lemma InfrastructureKept(s: Service)
      requires Linked() && s in m.cfg.infrastructure
      ensures SameGroup(m.base.live.groups, m.w.live.groups, s) && s !in m.cfg.services
    {
      hide Machine.Valid, Able, GroupCover, Captured, Serving, Apart;
      m.Now();
    }

    /** Every container this process has not announced to replace is as before the attempt. */
    lemma Announced()
      requires Linked() && baselines != map[]
      ensures GroupCover(m.cfg, m.base, flags, m.w.live.groups)
    {
      hide Machine.Valid, Captured, Serving, Apart;
      m.Now();
    }

    /** Configuration, services and route; a failure of one does not stop the next. */
    method RestoreActive() returns (r: Status)
      requires Recoverable() && (flags.traffic ==> OnSlots(m.w.live))
      modifies m`w, m`trace, m`failures
      ensures old(m.failures) <= m.failures
      ensures m.Valid() && (old(Linked()) ==> Linked()) && SameRecords(old(m.w), m.w)
      ensures r.Done? ==> InPlace() && Replenished()
      ensures old(Linked()) && old(!Stuck()) && r.Raised? ==> old(m.failures) < m.failures
      ensures r.Done? && old(m.w).plan.None? ==> m.w.live.groups == old(m.w).live.groups && m.w.live.loaded == old(m.w).live.loaded
      ensures old(m.w).plan.None? ==> m.w.files == old(m.w).files.(dockerfile := m.w.files.dockerfile)
    {
      hide Machine.Valid, Matches, Able, Captures, Apart, Good, Retagged, OldImages, Serving, Linked, Fresh, Recoverable, Loads,
           Copies, FilesBack, MarkersBack, SameOutside, ValidConfig, AllUp, Reversible, RecreatedAll, Recreatable, Except, Replenished;
      RecoverableFacts();
      var configuration := RestoreConfiguration();
      if configuration.Done? && m.w.plan.Some? { Configured(); }
      if old(Linked()) && configuration.Done? && (flags.workers || flags.gunicorn) && !Stuck() { Scalable(); }
      ghost var configured := m.w;
      var workers, web := RestoreServices();
      SameTags(configured, m.w, SetOf(m.cfg.services));
      ghost var served := m.w;
      var route := Done;
      if flags.traffic && configuration.Done? && web.Done? {
        route := RouteBack();
      }
      if configuration.Raised? || workers.Raised? || web.Raised? || route.Raised? { return Raised; }
      ReplenishedStill(served);
      return Done;
    }

    /** The services this process may have replaced. */
    function Replaced(): (r: set<Service>)
      reads this`flags
    {
      (if flags.workers then SetOf(Except(m.cfg.services, m.cfg.gunicorn)) else {})
      + (if flags.gunicorn then {m.cfg.gunicorn} else {})
    }

    /** A passed verification means the captured images run, and that this process captured the baselines itself. */
    lemma Verified()
      requires Linked() && Healthy(m.cfg, m.w, replicas, baselines, Replaced()) && RunsImages(m.w, m.cfg.services, images)
      ensures OldImages(m.cfg, m.base, m.w.live.groups) && baselines != map[]
    {
      hide Machine.Valid, Matches, Able, Good, Captures, Captured, Reversible, Apart, Healthy, RunsImages, OldImages;
      LinkedReversible();
      m.Now();
      if baselines == map[] { HydratedNeverHealthy(m.cfg, m.w, replicas, Replaced()); }
      ArmedFacts(m.cfg, m.base, m.attempt, m.w);
      assert images == m.w.plan.value.images;
      VerifiedImages(m.cfg, m.base, m.w, m.w.plan.value, baselines, Replaced());
    }

    /** Verification, if anything beyond the configuration was touched. */
    method VerifyIfTouched() returns (r: Status)
      requires flags != NO_FLAGS ==> Linked()
      modifies m`failures
      ensures old(m.failures) <= m.failures
      ensures r.Done? && (flags.migration || flags.traffic) ==> OldImages(m.cfg, m.base, m.w.live.groups) && baselines != map[]
      ensures Linked() && !Stuck() && Replenished() && Retagged(m.cfg, m.w.live.tags, images) && r.Raised? ==> old(m.failures) < m.failures
    {
      hide Machine.Valid, Linked, OldImages, Healthy, RunsImages, Stuck, Replenished, Retagged, Replaced;
      if Linked() { Migrating(); }
      NothingReplaced();
      if flags.migration && Linked() && !Stuck() && Replenished() && Retagged(m.cfg, m.w.live.tags, images) { HealthyAgain(); }
      if flags.migration || Replaced() != {} || flags.traffic {
        r := VerifyRestored(Replaced());
        if r.Done? { Verified(); }
        return;
      }
      return Done;
    }

    lemma NothingReplaced()
      ensures flags == NO_FLAGS ==> Replaced() == {}
    {
    }

    lemma Migrating()
      requires Linked()
      ensures flags.traffic || Replaced() != {} ==> flags.migration
    {
      hide Machine.Valid, Able;
    }

    lemma RecoverableLinked()
      requires Recoverable()
      ensures m.Valid() && (flags != NO_FLAGS || m.w.plan.Some? ==> Linked())
    {
      hide Linked, Fresh;
      RecoverableFacts();
    }

    lemma Free()
      requires !Stuck()
      ensures flags.migration ==> baselines != map[]
      ensures flags.traffic && m.cfg.gunicorn in replicas ==> replicas[m.cfg.gunicorn] < MAX_SERVICE_REPLICAS
    {
    }

    lemma StillFree()
      requires Linked() && InPlace() && (flags.migration ==> baselines != map[])
      requires flags.traffic && m.cfg.gunicorn in replicas ==> replicas[m.cfg.gunicorn] < MAX_SERVICE_REPLICAS
      ensures !Stuck() && Retagged(m.cfg, m.w.live.tags, images)
    {
      hide Machine.Valid, Matches, Able, Retagged;
      LinkedPlan();
      if flags.traffic {
        assert Compose(m.cfg.gunicorn) in Names(m.w.live.loaded);
        assert Up(m.w.live.groups, m.w.live.slots, Compose(m.cfg.gunicorn));
      }
    }

    /** Restoration, then verification if anything beyond the configuration was touched. */
    method RestoreAll() returns (r: Status)
      requires Recoverable() && (flags.traffic ==> OnSlots(m.w.live))
      modifies m`w, m`trace, m`failures
      ensures old(m.failures) <= m.failures
      ensures m.Valid() && (old(Linked()) ==> Linked()) && SameRecords(old(m.w), m.w)
      ensures r.Done? ==> InPlace()
      ensures r.Done? && old(m.w).plan.None? ==> m.w.live.groups == old(m.w).live.groups && m.w.live.loaded == old(m.w).live.loaded
      ensures old(m.w).plan.None? ==> m.w.files == old(m.w).files.(dockerfile := m.w.files.dockerfile)
      ensures r.Done? && old(m.w).plan.Some? ==>
                && OldImages(m.cfg, m.base, m.w.live.groups)
                && (!flags.traffic ==>
                      && m.w.live.loaded == m.base.live.loaded && Unmoved(m.cfg, m.base, m.w.live.groups)
                      && Serving(m.w.live.groups, m.w.live.slots, m.w.live.loaded, SetOf(candidate + previous)))
      ensures baselines == map[] && flags.migration ==> r.Raised?
      ensures old(Linked()) && old(!Stuck()) && r.Raised? ==> old(m.failures) < m.failures
    {
      hide Machine.Valid, Matches, Able, Captures, Apart, Good, Retagged, OldImages, Unmoved, Serving, Healthy, RunsImages,
           Copies, FilesBack, MarkersBack, SameOutside, ValidConfig, AllUp, Reversible, Linked, Fresh, Recoverable, Loads, InPlace, Replaced, SetOf, Except, OnSlots, Stuck, Replenished;
      RecoverableLinked();
      ghost var free := Linked() && !Stuck();
      if free { Free(); }
      r := RestoreActive();
      if r.Raised? { return; }
      if free { StillFree(); }
      r := VerifyIfTouched();
      if r.Raised? { return; }
      if m.w.plan.Some? && !flags.traffic { Quiet(); }
      return Done;
    }

    /** The last route change: Gunicorn alone; on any doubt the previous slots take over again. */
    method FinalRoute(targets: seq<Target>) returns (r: Status)
      requires Linked() && flags.traffic
      modifies m`w, m`trace, m`failures
      ensures old(m.failures) <= m.failures
      ensures Linked() && SameButRoutes(old(m.w), m.w)
      ensures r.Done? ==> Loads(m.w, GunicornOnly(m.cfg))
      ensures r.Raised? ==> old(m.failures) < m.failures || m.cfg.gunicorn !in m.w.live.groups
    {
      hide Machine.Valid, Matches, Able, Captures, Apart, Good;
      LinkedReversible();
      r := ActivateUpstream([Compose(m.cfg.gunicorn)], []);
      if r.Done? { r := m.Probe(); }
      if r.Raised? && targets != [] {
        var failSafe := ActivateUpstream(targets, [Compose(m.cfg.gunicorn)]);
      }
    }

    /** Everything is back: only slots, tags and the plan are left to remove. */
    ghost predicate Ready()
      reads this, m`w, m`base, m`attempt, m`trace
    {
      && PutBack(m.cfg, m.base, m.w, images)
      && m.w.live.loaded == (if flags.traffic then GunicornOnly(m.cfg) else m.base.live.loaded)
      && (!flags.traffic ==> Unmoved(m.cfg, m.base, m.w.live.groups))
      && Serving(m.w.live.groups, m.w.live.slots, m.w.live.loaded, SetOf(candidate + previous))
    }

    lemma ReadyWithTraffic(before: World)
      requires Linked() && flags.traffic && SameButRoutes(before, m.w) && Loads(m.w, GunicornOnly(m.cfg))
      requires before.files == m.base.files.(schema := before.files.schema)
      requires OldImages(m.cfg, m.base, before.live.groups) && Retagged(m.cfg, before.live.tags, images)
      ensures Ready()
    {
      hide Machine.Valid, Matches, Able, Good, Captures, Captured, Reversible, Apart, OldImages, Retagged, Serving;
      LinkedReversible();
      m.Now();
      ArmedFacts(m.cfg, m.base, m.attempt, m.w);
      ServingAllUp(m.w.live.groups, m.w.live.slots, m.w.live.loaded, SetOf(candidate + previous));
    }

    lemma LinkedPlan()
      requires Linked()
      ensures m.Valid() && m.w.plan.Some? && attempt == m.attempt
    {
    }

    lemma ReadyWithoutTraffic()
      requires Linked() && InPlace() && OldImages(m.cfg, m.base, m.w.live.groups) && !flags.traffic
      requires m.w.live.loaded == m.base.live.loaded && Unmoved(m.cfg, m.base, m.w.live.groups)
      requires Serving(m.w.live.groups, m.w.live.slots, m.w.live.loaded, SetOf(candidate + previous))
      ensures Ready()
    {
    }

    lemma PrimaryRuns()
      requires Linked() && InPlace() && flags.traffic
      ensures m.cfg.gunicorn in m.w.live.groups
    {
      hide Machine.Valid, Matches, Able, Retagged;
      LinkedPlan();
      assert Compose(m.cfg.gunicorn) in Names(m.w.live.loaded);
      assert Up(m.w.live.groups, m.w.live.slots, Compose(m.cfg.gunicorn));
    }

    /** The last route change precedes the removal of the slots. */
    method FinishRoute(targets: seq<Target>) returns (r: Status)
      requires Linked() && InPlace() && OldImages(m.cfg, m.base, m.w.live.groups) && flags.traffic
      modifies m`w, m`trace, m`failures
      ensures old(m.failures) <= m.failures
      ensures Linked() && SameButRoutes(old(m.w), m.w)
      ensures r.Done? ==> Ready()
      ensures r.Raised? ==> old(m.failures) < m.failures
    {
      hide Machine.Valid, Matches, Able, Good, Retagged, OldImages, Serving, Linked, Loads;
      LinkedPlan();
      PrimaryRuns();
      r := FinalRoute(targets);
      if r.Done? { ReadyWithTraffic(old(m.w)); }
    }

    /** The point of no return of a rollback: slots, temporary tags and the plan. */
    method Clean() returns (r: Status)
      requires m.Valid() && (if m.w.plan.Some? then Linked() && Ready() else Linkless())
      modifies this`previous, this`candidate, this`pins, this`armed, m`w, m`trace, m`failures
      ensures old(m.failures) <= m.failures
      ensures m.Valid()
      ensures m.w == old(m.w).(live := old(m.w).live.(slots := m.w.live.slots, tags := m.w.live.tags), plan := m.w.plan)
      ensures forall s :: SameTag(old(m.w).live.tags, m.w.live.tags, m.cfg.reference(s))
      ensures m.w.plan == old(m.w).plan || m.w.plan.None?
      ensures r.Done? ==> m.w.plan.None?
      ensures r.Raised? ==> old(m.failures) < m.failures
      ensures r.Done? && old(m.w).plan.Some? ==> m.w.live.slots == m.base.live.slots
      ensures old(m.w).plan.Some? && m.w.plan.None? ==> Restored(m.cfg, m.base, m.attempt, m.w)
    {
      m.Now();
      if m.w.plan.Some? {
        LinkedReversible();
        AttemptKnown(m.w, View(), baselines == map[]);
      }
      ServingNow();
      hide Machine.Valid, Matches, Able, Good, Captures, Captured, Reversible, Apart, OldImages, Retagged, Serving, PutBack, Restored;
      assert candidate + previous == [] ==> SetOf(candidate + previous) == {};
      r := CleanUp();
    }

    /** Without a plan there are no slots to remove. */
    ghost predicate Linkless()
      reads this, m`w, m`base, m`attempt, m`trace
    {
      attempt == m.attempt && m.w.plan.None? && previous == [] && candidate == [] && Apart(m.cfg, pins)
    }

    lemma ServingNow()
      requires m.Valid()
      ensures Serving(m.w.live.groups, m.w.live.slots, m.w.live.loaded, {})
    {
      m.Now();
    }

    /** `rollback`. `cleaning` tells whether the point was reached from which only slots, tags and the plan go. */
    method Rollback() returns (r: Status, ghost cleaning: bool)
      requires Fresh() || Linked()
      modifies this`previous, this`candidate, this`pins, this`armed, m`w, m`trace, m`failures
      ensures old(m.failures) <= m.failures
      ensures m.Valid() && (r.Done? ==> m.w.plan.None? && (prepared ==> cleaning))
      ensures SameVerdict(old(m.w), m.w) && (m.w.plan == old(m.w).plan || m.w.plan.None?)
      ensures m.w.intent == old(m.w).intent && m.w.backups == old(m.w).backups
      ensures old(m.w).plan.Some? && m.w.plan.None? ==> Restored(m.cfg, m.base, m.attempt, m.w)
      ensures !prepared ==> r.Done? && m.w == old(m.w)
      ensures prepared && !cleaning ==>
                && r.Raised? && m.w.plan == old(m.w).plan && m.w.live.slots == old(m.w).live.slots
                && previous == old(previous) && candidate == old(candidate)
      ensures cleaning && old(m.w).plan.Some? ==>
                && PutBack(m.cfg, m.base, m.w, images)
                && m.w.live.loaded == (if flags.traffic then GunicornOnly(m.cfg) else m.base.live.loaded)
                && (!flags.traffic ==> Unmoved(m.cfg, m.base, m.w.live.groups))
                && (r.Done? ==> m.w.live.slots == m.base.live.slots)
      ensures cleaning && old(m.w).plan.None? ==>
                && FilesBack(m.w, m.attempt) && Retagged(m.cfg, m.w.live.tags, images)
                && m.w.live.groups == m.base.live.groups && m.w.live.loaded == m.base.live.loaded
                && m.attempt in old(m.w).backups && m.w.files == m.base.files
                && (m.w.live.upstream == m.base.live.upstream <==> old(m.w).backups[m.attempt].upstream == Some(m.base.live.upstream))
      ensures baselines == map[] && flags.migration ==> !cleaning
      ensures old(Linked()) && flags.traffic && m.cfg.gunicorn !in old(m.w).live.groups ==>
                !cleaning && SameButRoutes(old(m.w), m.w)
      ensures old(Linked()) && r.Raised? ==> old(m.failures) < m.failures || Stuck()
    {
      hide Machine.Valid, Matches, Able, Captures, Apart, Good, Retagged, OldImages, Unmoved, Serving, Loads, PutBack, FilesBack, Linked, AllUp, OnSlots, SameTag, InPlace, Restored;
      cleaning := false;
      if !prepared {
        RollbackStart();
        return Done, false;
      }
      RecoverableLinked();
      RollbackStart();
      var targets: seq<Target> := [];
      var smoke := Done;
      if flags.traffic {
        r := RouteFirst();
        LinkedPlan();
        if r.Raised? { return; }
        GunicornRuns(old(m.w), m.w, previous);
        targets := previous;
        smoke := m.Probe();
      }
      r := RestoreAll();
      if smoke.Raised? { r := Raised; }
      if r.Raised? { return; }
      if flags.traffic {
        r := FinishRoute(targets);
        LinkedPlan();
        if r.Raised? { return; }
      } else if m.w.plan.Some? {
        ReadyWithoutTraffic();
      }
      cleaning := true;
      InPlaceAlone();
      if m.w.plan.None? { CopiesPutBack(m.base, m.w, m.attempt); }
      ghost var before := m.w;
      r := Clean();
      PutBackStill(m.cfg, m.base, before, m.w, images);
    }

    /** What is on disk tells where a rollback of this process would get stuck. */
    lemma StuckBlocked()
      requires Linked() && (flags.migration ==> baselines != map[])
      ensures m.w.plan.Some? && m.w.plan.value.replicas == replicas && (flags.traffic ==> m.w.intent.traffic)
      ensures Stuck() ==> Blocked(m.cfg, m.w)
    {
      hide Machine.Valid, Able;
    }

    lemma RollbackStart()
      requires Fresh() || Linked()
      ensures m.Valid() && (Linked() ==> prepared && m.w.plan.Some?) && (Fresh() ==> Linkless())
      ensures Fresh() ==> m.w.files == m.base.files && (prepared ==> m.attempt in m.w.backups && Copies(m.base, m.w.backups[m.attempt]))
    {
    }

    lemma InPlaceAlone()
      ensures InPlace() && m.w.plan.None? ==> FilesBack(m.w, m.attempt) && Retagged(m.cfg, m.w.live.tags, images)
    {
    }

    lemma GunicornRuns(before: World, w: World, targets: seq<Target>)
      requires SameButRoutes(before, w) && AllUp(w.live.groups, w.live.slots, Route(targets, [Compose(m.cfg.gunicorn)]))
      ensures m.cfg.gunicorn in before.live.groups
    {
      assert Compose(m.cfg.gunicorn) in Names(Route(targets, [Compose(m.cfg.gunicorn)]));
      assert Up(w.live.groups, w.live.slots, Compose(m.cfg.gunicorn));
    }

    // -------------------------------------------------------------- preparation

    /** `validate`: read-only; the managed upstream must select Gunicorn alone. */
    method Validate() returns (r: Status)
      modifies m`failures
      ensures old(m.failures) <= m.failures
      ensures r.Done? ==> m.w.live.upstream == GunicornOnly(m.cfg)
    {
      r := m.Probe();
      if r.Raised? { return; }
      if m.w.live.upstream != GunicornOnly(m.cfg) { return Raised; }
      return Done;
    }

    /** Replica counts are the baseline's. */
    ghost predicate Counts()
      reads this`replicas, m`base
    {
      && replicas.Keys == SetOf(m.cfg.services)
      && forall s :: s in m.cfg.services ==> s in m.base.live.groups && m.base.live.groups[s].replicas == replicas[s] > 0
    }

    /** `_capture_live_images`: images, replica counts and restart counts of the application services. */
    method CaptureLiveImages() returns (r: Status)
      requires Fresh() && !prepared
      modifies this`images, this`replicas, this`baselines, m`failures
      ensures old(m.failures) <= m.failures
      ensures Fresh() && (r.Done? ==> Captures() && Counts() && Baselined(m.cfg.services, m.w.live.groups, baselines))
      ensures r.Done? ==> forall s :: s in replicas ==> replicas[s] <= MAX_SERVICE_REPLICAS
    {
      hide Machine.Valid, Committed, Apart, Noted, Baselined;
      var found: map<Service, Image> := map[];
      var counts: map<Service, nat> := map[];
      var restarts: map<nat, nat> := map[];
      var byReference: map<Reference, Image> := map[];
      NothingNoted(m.cfg, m.w.live.groups);
      var i := 0;
      while i < |m.cfg.services|
        invariant 0 <= i <= |m.cfg.services| && Noted(m.cfg, i, m.w.live.groups, found, counts, restarts, byReference)
        invariant old(m.failures) <= m.failures && forall s :: s in counts ==> counts[s] <= MAX_SERVICE_REPLICAS
      {
        var s := m.cfg.services[i];
        :- m.Probe();
        if s !in m.w.live.groups { return Raised; }
        var group := m.w.live.groups[s];
        if group.replicas == 0 || group.replicas > MAX_SERVICE_REPLICAS || group.identity in restarts { return Raised; }
        var reference := m.cfg.reference(s);
        if reference in byReference && byReference[reference] != group.image { return Raised; }
        NoteNext(m.cfg, i, m.w.live.groups, found, counts, restarts, byReference);
        byReference := byReference[reference := group.image];
        found, counts, restarts := found[s := group.image], counts[s := group.replicas], restarts[group.identity := group.restarts];
        i := i + 1;
      }
      AllNoted(m.cfg, m.w.live.groups, found, counts, restarts, byReference);
      images, replicas, baselines := found, counts, restarts;
      return Done;
    }

    /** `_capture_infrastructure_restart_baselines` */
    method CaptureInfrastructure() returns (r: Status)
      modifies this`baselines, m`failures
      ensures old(m.failures) <= m.failures
      ensures r.Done? ==> Baselined(m.cfg.infrastructure, m.w.live.groups, baselines)
      ensures r.Done? ==> forall s :: s in m.cfg.infrastructure ==> s in m.w.live.groups && m.w.live.groups[s].replicas == 1
      ensures r.Done? ==> forall k :: k in old(baselines) ==> k in baselines && baselines[k] == old(baselines)[k]
      ensures r.Done? && ValidConfig(m.cfg) ==> baselines != map[]
    {
      var restarts: map<nat, nat> := baselines;
      var i := 0;
      while i < |m.cfg.infrastructure|
        invariant 0 <= i <= |m.cfg.infrastructure| && (i > 0 ==> restarts != map[]) && old(m.failures) <= m.failures
        invariant forall s :: s in m.cfg.infrastructure[..i] ==> s in m.w.live.groups && m.w.live.groups[s].replicas == 1
        invariant Baselined(m.cfg.infrastructure[..i], m.w.live.groups, restarts)
        invariant forall k :: k in old(baselines) ==> k in restarts && restarts[k] == old(baselines)[k]
      {
        var s := m.cfg.infrastructure[i];
        :- m.Probe();
        if s !in m.w.live.groups { return Raised; }
        var group := m.w.live.groups[s];
        if group.replicas != 1 || group.identity in restarts { return Raised; }
        assert m.cfg.infrastructure[..i + 1] == m.cfg.infrastructure[..i] + [s];
        restarts := restarts[group.identity := group.restarts];
        assert group.identity in restarts;
        i := i + 1;
      }
      assert m.cfg.infrastructure[..i] == m.cfg.infrastructure;
      baselines := restarts;
      return Done;
    }

    /** One plain copy into the backup directory. */
    method Copy(partial: Backup, whole: Backup) returns (r: Status)
      requires Fresh() && prepared && Copies(m.base, whole) && Copies(m.base, partial)
      modifies m`w, m`trace, m`failures
      ensures old(m.failures) <= m.failures
      ensures Fresh() && (r.Done? ==> m.w.backups == old(m.w).backups[m.attempt := whole])
      ensures SameLive(old(m.w), m.w) && SameVerdict(old(m.w), m.w)
    {
      hide Machine.Valid, Committed, Apart, Captures, Copies;
      r := m.CopyToBackup(partial, whole);
    }

    /** The backup directory and the copies that a rollback would put back. From here on a rollback is not a no-op. */
    method CopyConfiguration() returns (r: Status)
      requires Fresh() && !prepared && Captures()
      modifies this`prepared, this`settingsMeta, this`upstreamMeta, m`w, m`trace, m`failures
      ensures old(m.failures) <= m.failures
      ensures Fresh() && Captures() && SameVerdict(old(m.w), m.w) && (r.Done? ==> CopiedConfiguration())
    {
      hide Machine.Valid, Committed, Apart, Captures, Untried;
      UntriedFiles(m.base, m.w, m.attempt);
      var files, upstream := m.w.files, m.w.live.upstream;
      :- MakeBackup();
      :- m.Probe();
      settingsMeta := true;
      var dockerfile := EMPTY_BACKUP.(dockerfile := Some(files.dockerfile));
      :- Copy(EMPTY_BACKUP.(dockerfile := Some(Truncated)), dockerfile);
      var settings := dockerfile.(settings := Some(files.settings));
      :- Copy(dockerfile.(settings := Some(Truncated)), settings);
      :- m.Probe();
      upstreamMeta := true;
      r := Copy(settings.(upstream := Some(Damaged)), settings.(upstream := Some(upstream)));
    }

    method MakeBackup() returns (r: Status)
      requires Fresh() && !prepared && Captures()
      modifies this`prepared, m`w, m`trace, m`failures
      ensures old(m.failures) <= m.failures
      ensures Fresh() && Captures() && SameLive(old(m.w), m.w) && SameVerdict(old(m.w), m.w)
      ensures r.Done? ==> prepared
    {
      hide Machine.Valid, Committed, Apart, Captures;
      :- m.CreateBackup();
      prepared := true;
      return Done;
    }

    predicate CopiedConfiguration()
      reads this, m`w, m`base, m`attempt, m`trace
    {
      && prepared && settingsMeta && upstreamMeta && m.attempt in m.w.backups
      && m.w.backups[m.attempt] == Backup(Some(m.w.files.dockerfile), Some(m.w.files.settings), Some(m.w.live.upstream), None, None, None)
    }

    /** `_capture_platform_current` */
    method CapturePlatform() returns (r: Status)
      requires Fresh() && prepared && m.attempt in m.w.backups && Copies(m.base, m.w.backups[m.attempt])
      requires m.w.backups[m.attempt].platform.None?
      modifies this`platformExisted, m`w, m`trace, m`failures
      ensures old(m.failures) <= m.failures
      ensures Fresh() && SameLive(old(m.w), m.w) && SameVerdict(old(m.w), m.w)
      ensures r.Done? ==>
                && platformExisted == Some(m.w.files.platform.Some?)
                && m.attempt in m.w.backups && m.w.backups[m.attempt] == old(m.w).backups[m.attempt].(platform := m.w.files.platform)
    {
      hide Machine.Valid, Committed, Apart, Captures, Untried, ValidConfig;
      if m.w.files.platform.Some? {
        var copies := m.w.backups[m.attempt];
        :- Copy(copies.(platform := Some(Truncated)), copies.(platform := m.w.files.platform));
      }
      platformExisted := Some(m.w.files.platform.Some?);
      return Done;
    }

    /** `_capture_deployment_current` */
    method CapturePointer() returns (r: Status)
      requires Fresh() && prepared && m.attempt in m.w.backups && Copies(m.base, m.w.backups[m.attempt])
      requires m.w.backups[m.attempt].pointer.None?
      modifies this`pointerExisted, m`w, m`trace, m`failures
      ensures old(m.failures) <= m.failures
      ensures Fresh() && SameLive(old(m.w), m.w) && SameVerdict(old(m.w), m.w)
      ensures r.Done? ==>
                && pointerExisted == Some(m.w.files.pointer.Some?)
                && m.attempt in m.w.backups && m.w.backups[m.attempt] == old(m.w).backups[m.attempt].(pointer := m.w.files.pointer)
    {
      hide Machine.Valid, Committed, Apart, Captures, Untried, ValidConfig;
      if m.w.files.pointer.Some? {
        var copies := m.w.backups[m.attempt];
        :- Copy(copies.(pointer := Some(Truncated)), copies.(pointer := m.w.files.pointer));
      }
      pointerExisted := Some(m.w.files.pointer.Some?);
      return Done;
    }

    /** `_capture_static_manifest` */
    method CaptureStatics() returns (r: Status)
      requires Fresh() && prepared && m.attempt in m.w.backups && Copies(m.base, m.w.backups[m.attempt])
      modifies this`staticsCaptured, m`w, m`trace, m`failures
      ensures old(m.failures) <= m.failures
      ensures Fresh() && SameLive(old(m.w), m.w) && SameVerdict(old(m.w), m.w)
      ensures r.Done? ==>
                && staticsCaptured
                && m.attempt in m.w.backups
                && m.w.backups[m.attempt] == old(m.w).backups[m.attempt].(statics := Some(m.w.files.statics))
    {
      hide Machine.Valid, Committed, Apart, Captures, Untried, ValidConfig;
      var copies := m.w.backups[m.attempt];
      :- Copy(copies.(statics := Some(Truncated)), copies.(statics := Some(m.w.files.statics)));
      staticsCaptured := true;
      r := m.Probe();
    }

    /** CURRENT.json and current.json */
    method CaptureJson() returns (r: Status)
      requires Fresh() && CopiedConfiguration()
      modifies this`platformExisted, this`pointerExisted, m`w, m`trace, m`failures
      ensures old(m.failures) <= m.failures
      ensures Fresh() && SameVerdict(old(m.w), m.w) && SameLive(old(m.w), m.w)
      ensures r.Done? ==>
                && m.attempt in m.w.backups
                && m.w.backups[m.attempt] == old(m.w).backups[m.attempt].(platform := m.w.files.platform, pointer := m.w.files.pointer)
      ensures r.Done? ==> Copies(m.base, m.w.backups[m.attempt])
      ensures r.Done? ==> platformExisted == Some(m.w.files.platform.Some?) && pointerExisted == Some(m.w.files.pointer.Some?)
    {
      hide Machine.Valid, Committed, Apart, Captures, Untried;
      UntriedFiles(m.base, m.w, m.attempt);
      :- CapturePlatform();
      r := CapturePointer();
    }

    /** The markers, the restart counts and the static manifest complete the backup. */
    method CaptureMarkers() returns (r: Status)
      requires Fresh() && CopiedConfiguration()
      requires Baselined(m.cfg.services, m.base.live.groups, baselines) && forall s :: s in replicas ==> replicas[s] <= MAX_SERVICE_REPLICAS
      ensures r.Done? ==> Able(m.cfg, m.base, m.attempt, flags, replicas, baselines, previous, m.w.live.slots)
      modifies this`platformExisted, this`pointerExisted, this`staticsCaptured, this`baselines, m`w, m`trace, m`failures
      ensures old(m.failures) <= m.failures
      ensures Fresh() && SameVerdict(old(m.w), m.w) && SameLive(old(m.w), m.w)
      ensures r.Done? ==> Knows() && baselines != map[] && m.attempt in m.w.backups && m.w.backups[m.attempt] == BackupOf(m.w)
      ensures r.Done? ==> platformExisted == Some(m.w.files.platform.Some?) && pointerExisted == Some(m.w.files.pointer.Some?)
    {
      hide Machine.Valid, Committed, Apart, Captures, Untried;
      UntriedFiles(m.base, m.w, m.attempt);
      m.Now();
      :- CaptureJson();
      :- m.Probe();
      ghost var known := baselines;
      :- CaptureInfrastructure();
      FirstAble(known);
      r := CaptureStatics();
    }

    lemma FirstAble(known: map<nat, nat>)
      requires Fresh() && Baselined(m.cfg.services, m.base.live.groups, known)
      requires forall k :: k in known ==> k in baselines && baselines[k] == known[k]
      requires Baselined(m.cfg.infrastructure, m.w.live.groups, baselines)
      requires forall s :: s in m.cfg.infrastructure ==> s in m.w.live.groups && m.w.live.groups[s].replicas == 1
      requires forall s :: s in replicas ==> replicas[s] <= MAX_SERVICE_REPLICAS
      ensures Able(m.cfg, m.base, m.attempt, flags, replicas, baselines, previous, m.w.live.slots)
    {
      hide Machine.Valid, Captures, Copies, Apart;
    }

    /** The backup is complete and every fact a plan records has been captured. */
    ghost predicate Collected()
      reads this, m`w, m`base, m`attempt, m`trace
    {
      && Fresh() && Knows() && Captures() && Counts() && baselines != map[]
      && Able(m.cfg, m.base, m.attempt, flags, replicas, baselines, previous, m.w.live.slots)
      && m.base.live.upstream == GunicornOnly(m.cfg)
      && m.attempt in m.w.backups && m.w.backups[m.attempt] == BackupOf(m.w)
      && platformExisted == Some(m.w.files.platform.Some?) && pointerExisted == Some(m.w.files.pointer.Some?)
    }

    lemma CollectedArmed()
      requires Collected() && Reached(m.w.attempts[m.attempt].history, NO_FLAGS)
      requires Apart(m.cfg, pins) && digests == m.w.backups[m.attempt]
      ensures Armed(m.cfg, m.base, m.attempt, View(), m.w)
      ensures Matches(Some(View()), m.w.attempts, m.w.unsettled, m.w.intent, View(), false)
    {
      hide Good, Armed, Apart, Captured, Copies, ValidConfig, Machine.Valid, Untried;
      m.Now();
      FirstCapture(m.cfg, m.base, m.attempt, m.w, View());
      FirstPlan(m.cfg, m.base, m.attempt, m.w, View());
      FirstView(m.base, m.w, View());
    }

    /** Temporary tags keep the previous images addressable; none is a Compose reference. */
    method NamePins()
      requires Collected()
      modifies this`pins, this`digests
      ensures Collected() && Apart(m.cfg, pins) && Distinct(pins) && |pins| == |m.cfg.services| && digests == m.w.backups[m.attempt]
    {
      hide Machine.Valid, Captures, Good, Captured, Counts, Copies, Untried;
      m.Now();
      var a, pin := attempt, m.cfg.pin;
      digests := m.w.backups[m.attempt];
      pins := seq(|m.cfg.services|, i requires 0 <= i => pin(a, i));
    }

    /** The first save of the plan: from here on a kill is recovered. */
    method Arm() returns (r: Status)
      requires Collected() && Apart(m.cfg, pins) && digests == m.w.backups[m.attempt]
      requires Reached(m.w.attempts[m.attempt].history, NO_FLAGS)
      modifies this`armed, m`w, m`trace, m`failures
      ensures old(m.failures) <= m.failures
      ensures Fresh() || Linked()
      ensures SameLive(old(m.w), m.w) && SameVerdict(old(m.w), m.w)
      ensures r.Done? ==> Synced()
    {
      hide Machine.Valid, Captures, Good, Armed, Captured, Apart, Counts, Matches, Able, Copies, ValidConfig, Untried, Reached;
      UntriedFiles(m.base, m.w, m.attempt);
      CollectedArmed();
      r := m.SavePlan(View());
      if r.Done? { armed := true; }
    }

    lemma SyncedOpen()
      requires Synced()
      ensures m.Valid() && m.Open() && m.w.plan == Some(View()) && attempt == m.attempt && flags == m.w.intent && Linked()
      ensures flags.traffic ==> m.MayRoute()
      ensures forall t :: t in previous + candidate ==> t.Slot? && t.attempt == m.attempt
      ensures forall s :: s in m.cfg.services && (if s == m.cfg.gunicorn then flags.gunicorn else flags.workers) ==> m.MayRecreate(s)
    {
      LinkedReversible();
    }

    /** `_pin_previous_images` */
    method PinImages() returns (r: Status)
      requires Synced() && Captures() && Distinct(pins) && |pins| == |m.cfg.services|
      modifies m`w, m`trace, m`failures
      ensures old(m.failures) <= m.failures
      ensures Synced() && SameButTags(old(m.w), m.w)
      ensures r.Done? ==> Pinned(m.cfg, |m.cfg.services|, pins, m.w.live.tags, images)
    {
      hide Machine.Valid, Matches, Able, Knows, Pinned, Distinct, OneImage, Within, Either;
      SyncedOpen();
      CapturesOneImage();
      NothingPinned(m.cfg, pins, m.w.live.tags, images);
      var i := 0;
      while i < |m.cfg.services|
        invariant 0 <= i <= |m.cfg.services| && Synced() && m.Open() && SameButTags(old(m.w), m.w) && old(m.failures) <= m.failures
        invariant Pinned(m.cfg, i, pins, m.w.live.tags, images)
      {
        PinNext(m.cfg, i, pins, m.w.live.tags, images);
        :- m.Tag(images[m.cfg.services[i]], pins[i]);
        :- m.Probe();
        i := i + 1;
      }
      return Done;
    }

    /** The next name of a previous slot; none is needed once traffic was switched. */
    ghost predicate NextName(t: Target)
      reads this`attempt, this`replicas, this`previous, this`flags
    {
      && !flags.traffic && m.cfg.gunicorn in replicas
      && previous + [t] <= SlotNames(Role.Previous, attempt, replicas[m.cfg.gunicorn])
    }

    lemma AbleMore(t: Target)
      requires previous != [] && previous[|previous| - 1] == t && !flags.traffic && attempt == m.attempt
      requires m.cfg.gunicorn in replicas && previous <= SlotNames(Role.Previous, attempt, replicas[m.cfg.gunicorn])
      requires Able(m.cfg, m.base, m.attempt, flags, replicas, baselines, previous[..|previous| - 1], m.w.live.slots)
      ensures Able(m.cfg, m.base, m.attempt, flags, replicas, baselines, previous, m.w.live.slots)
    {
    }

    /** A slot's name reaches the plan before its container starts. */
    method NameSlot(t: Target) returns (r: Status)
      requires Synced() && t.Slot? && t.attempt == attempt && (t.role.Previous? ==> NextName(t))
      modifies this`previous, this`candidate, m`w, m`trace, m`failures
      ensures old(m.failures) <= m.failures
      ensures Linked() && Replanned(old(m.w), m.w)
      ensures previous == (if t.role.Previous? then old(previous) + [t] else old(previous))
      ensures candidate == (if t.role.Candidate? then old(candidate) + [t] else old(candidate))
      ensures r.Done? ==> Synced()
    {
      hide Machine.Valid, Matches, Able, Knows, OwnSlots, Replanned;
      ghost var before := View();
      SyncedOpen();
      ViewSlots(m.w, before, baselines == map[]);
      if t.role.Candidate? {
        OwnMore(candidate, Candidate, attempt, t);
        candidate := candidate + [t];
      } else {
        OwnMore(previous, Previous, attempt, t);
        previous := previous + [t];
      }
      GrowView(m.w, before, View(), baselines == map[]);
      if t.role.Previous? { AbleMore(t); }
      r := UpdatePlan();
    }

    method StartOne(t: Target) returns (r: Status)
      requires Synced() && t.Slot? && t.attempt == attempt && (t.role.Previous? ==> NextName(t))
      modifies this`previous, this`candidate, m`w, m`trace, m`failures
      ensures old(m.failures) <= m.failures
      ensures Linked() && MoreSlots(old(m.w), m.w)
      ensures previous == (if t.role.Previous? then old(previous) + [t] else old(previous))
      ensures candidate == (if t.role.Candidate? then old(candidate) + [t] else old(candidate))
      ensures r.Done? ==> Synced()
    {
      hide Machine.Valid, Matches, Able, Knows, OwnSlots;
      :- NameSlot(t);
      :- m.Probe();
      ghost var slots := m.w.live.slots;
      r := m.StartSlot(t);
      AbleStill(m.cfg, m.base, m.attempt, flags, flags, replicas, baselines, previous, slots, m.w.live.slots);
    }

    /** `_start_web_slots` */
    method StartWebSlots(role: Role, expected: Image) returns (r: Status)
      requires Synced() && (role.Previous? ==> previous == [] && !flags.traffic) && (role.Candidate? ==> candidate == [])
      modifies this`previous, this`candidate, m`w, m`trace, m`failures
      ensures old(m.failures) <= m.failures
      ensures Linked() && MoreSlots(old(m.w), m.w)
      ensures role.Previous? ==> candidate == old(candidate)
      ensures role.Candidate? ==> previous == old(previous)
      ensures r.Done? ==>
                && Synced() && m.cfg.gunicorn in replicas && replicas[m.cfg.gunicorn] > 0
                && (if role.Previous? then previous else candidate) == SlotNames(role, attempt, replicas[m.cfg.gunicorn])
                && SlotsRun(m.w.live.slots, if role.Previous? then previous else candidate, expected)
    {
      hide Machine.Valid, Matches, Able, Knows, MoreSlots, SlotsRun, Linked, Synced, Distinct;
      SyncedLinked();
      NoSlots(m.w);
      if m.cfg.gunicorn !in replicas { return Raised; }
      var count := replicas[m.cfg.gunicorn];
      if count == 0 || count > MAX_SERVICE_REPLICAS { return Raised; }
      var names := SlotNames(role, attempt, count);
      var i := 0;
      while i < |names|
        invariant 0 <= i <= |names| && Synced() && Linked() && MoreSlots(old(m.w), m.w) && old(m.failures) <= m.failures
        invariant (if role.Previous? then previous else candidate) == names[..i]
        invariant (if role.Previous? then candidate else previous) == old(if role.Previous? then candidate else previous)
      {
        ghost var before := m.w;
        assert names[..i + 1] == names[..i] + [names[i]];
        r := StartOne(names[i]);
        MoreSlotsTrans(old(m.w), before, m.w);
        if r.Raised? { return; }
        SyncedLinked();
        i := i + 1;
      }
      assert names[..i] == names;
      r := WaitForSlots(names, expected);
    }

    /** `_wait_for_slots` */
    method WaitForSlots(names: seq<Target>, expected: Image) returns (r: Status)
      modifies m`failures
      ensures old(m.failures) <= m.failures
      ensures r.Done? ==> SlotsRun(m.w.live.slots, names, expected)
    {
      r := m.Probe();
      if r.Raised? || !SlotsRun(m.w.live.slots, names, expected) { return Raised; }
      return Done;
    }

    lemma SyncedLinked()
      requires Synced()
      ensures Linked()
    {
    }

    /** `_verify_previous_static_fallback` */
    method VerifyPreviousFallback() returns (r: Status)
      modifies m`failures
      ensures old(m.failures) <= m.failures
      ensures r.Done? ==> previous != [] && m.cfg.gunicorn in images && SlotsRun(m.w.live.slots, previous, images[m.cfg.gunicorn])
    {
      if previous == [] || m.cfg.gunicorn !in images { return Raised; }
      :- WaitForSlots(previous, images[m.cfg.gunicorn]);
      r := m.Probe();
    }

    lemma NoTraffic()
      requires Synced() && previous == []
      ensures !flags.traffic
    {
      hide Machine.Valid, Good, Matches, Able;
      LinkedReversible();
    }

    /** `_start_previous_web_slots` */
    method StartPreviousWebSlots() returns (r: Status)
      requires Synced()
      modifies this`previous, this`candidate, m`w, m`trace, m`failures
      ensures old(m.failures) <= m.failures
      ensures Linked() && MoreSlots(old(m.w), m.w) && candidate == old(candidate)
      ensures old(previous) != [] ==> m.w == old(m.w) && Synced() && previous == old(previous)
      ensures r.Done? ==> Synced() && previous != [] && m.cfg.gunicorn in images && SlotsRun(m.w.live.slots, previous, images[m.cfg.gunicorn])
    {
      hide Machine.Valid, Matches, Able, Knows, MoreSlots, SlotsRun, Linked, Synced;
      SyncedLinked();
      NoSlots(m.w);
      if previous == [] {
        NoTraffic();
        if m.cfg.gunicorn !in images { return Raised; }
        :- StartWebSlots(Previous, images[m.cfg.gunicorn]);
      }
      r := VerifyPreviousFallback();
    }

    /** Compose builds tag new images under the references the live services use. */
    method Build() returns (r: Status)
      requires Synced()
      modifies m`w, m`trace, m`failures
      ensures old(m.failures) <= m.failures
      ensures Synced() && SameButTags(old(m.w), m.w) && PinsKept(pins, old(m.w).live.tags, m.w.live.tags)
      ensures r.Done? ==> forall s :: s in m.cfg.services ==> m.cfg.reference(s) in m.w.live.tags
    {
      hide Machine.Valid, Matches, Able, Knows, Within, Either, PinsKept, Apart;
      SyncedOpen();
      NoPinMoved();
      var i := 0;
      while i < |m.cfg.services|
        invariant 0 <= i <= |m.cfg.services| && Synced() && m.Open() && SameButTags(old(m.w), m.w) && old(m.failures) <= m.failures
        invariant forall k :: 0 <= k < i ==> m.cfg.reference(m.cfg.services[k]) in m.w.live.tags
        invariant PinsKept(pins, old(m.w).live.tags, m.w.live.tags)
      {
        var built: Image := *;
        ReferenceMoved(m.cfg, pins, old(m.w).live.tags, m.w.live.tags, m.cfg.services[i], built);
        :- m.Tag(built, m.cfg.reference(m.cfg.services[i]));
        i := i + 1;
      }
      return Done;
    }

    lemma NoPinMoved()
      requires Synced()
      ensures Apart(m.cfg, pins) && PinsKept(pins, m.w.live.tags, m.w.live.tags)
    {
      hide Machine.Valid, Good, Matches, Able, Apart;
      LinkedReversible();
    }

    /** `_capture_candidate_images` */
    method CaptureCandidateImages() returns (r: Status)
      modifies this`candidateImages, m`failures
      ensures old(m.failures) <= m.failures
      ensures r.Done? ==> Candidates(m.cfg, m.w.live.tags, images, candidateImages)
    {
      if images.Keys != SetOf(m.cfg.services) { return Raised; }
      var found: map<Service, Image> := map[];
      var i := 0;
      while i < |m.cfg.services|
        invariant 0 <= i <= |m.cfg.services| && old(m.failures) <= m.failures
        invariant forall k :: 0 <= k < i ==>
                    && m.cfg.reference(m.cfg.services[k]) in m.w.live.tags && m.cfg.services[k] in found && m.cfg.services[k] in images
                    && m.w.live.tags[m.cfg.reference(m.cfg.services[k])] == found[m.cfg.services[k]] != images[m.cfg.services[k]]
      {
        var s := m.cfg.services[i];
        :- m.Probe();
        if m.cfg.reference(s) !in m.w.live.tags { return Raised; }
        var image := m.w.live.tags[m.cfg.reference(s)];
        if image == images[s] { return Raised; }
        found := found[s := image];
        i := i + 1;
      }
      candidateImages := found;
      return Done;
    }

    method WriteCandidate() returns (r: Status)
      requires Synced()
      modifies m`w, m`trace, m`failures
      ensures old(m.failures) <= m.failures
      ensures Synced() && m.w == old(m.w).(files := old(m.w).files.(dockerfile := m.w.files.dockerfile))
      ensures r.Done? ==> m.w.files.dockerfile == CandidateDockerfile(m.attempt)
    {
      hide Machine.Valid, Matches, Able, Knows, Within, Either;
      SyncedOpen();
      r := m.WriteDockerfile(CandidateDockerfile(m.attempt));
    }

    method WriteAndBuild() returns (r: Status)
      requires Synced()
      modifies m`w, m`trace, m`failures
      ensures old(m.failures) <= m.failures
      ensures Synced() && SameVerdict(old(m.w), m.w) && m.w.live == old(m.w).live.(tags := m.w.live.tags)
      ensures PinsKept(pins, old(m.w).live.tags, m.w.live.tags)
      ensures r.Done? ==> m.w.files.dockerfile == CandidateDockerfile(m.attempt)
    {
      hide Machine.Valid, Synced, PinsKept, Apart;
      NoPinMoved();
      :- m.Probe();
      :- WriteCandidate();
      :- m.Probe();
      r := Build();
    }

    /** A new Dockerfile, new images, and the checks on them. */
    method BuildCandidate() returns (r: Status)
      requires Synced()
      modifies this`candidateImages, m`w, m`trace, m`failures
      ensures old(m.failures) <= m.failures
      ensures Synced() && SameVerdict(old(m.w), m.w) && m.w.live == old(m.w).live.(tags := m.w.live.tags)
      ensures PinsKept(pins, old(m.w).live.tags, m.w.live.tags)
      ensures r.Done? ==> m.w.files.dockerfile == CandidateDockerfile(m.attempt)
      ensures r.Done? ==> Candidates(m.cfg, m.w.live.tags, images, candidateImages)
    {
      hide Machine.Valid, Matches, Able, Knows, Candidates, PinsKept, Apart;
      :- WriteAndBuild();
      :- CaptureCandidateImages();
      r := m.Probe();
    }

    /** The read-only gate, the backup and every captured fact: nothing live changes. */
    method Collect() returns (r: Status)
      requires Fresh() && !prepared && m.base.live.upstream == GunicornOnly(m.cfg)
      modifies this, m`w, m`trace, m`failures
      ensures old(m.failures) <= m.failures
      ensures Fresh() && SameVerdict(old(m.w), m.w)
      ensures r.Done? ==> Collected() && Apart(m.cfg, pins) && Distinct(pins) && |pins| == |m.cfg.services| && digests == m.w.backups[m.attempt]
      ensures candidateImages == old(candidateImages)
    {
      hide Machine.Valid, Captures, Good, Captured, Counts, Copies, Untried, Apart, Able, Baselined, Knows;
      :- CaptureLiveImages();
      FreshGroups();
      :- m.Probe();
      :- CopyConfiguration();
      :- CaptureMarkers();
      :- m.Probe();
      NamePins();
      return Done;
    }

    lemma FreshGroups()
      requires Fresh()
      ensures m.w.live.groups == m.base.live.groups
    {
    }

    /** `prepare_candidate` */
    method PrepareCandidate() returns (r: Status)
      requires Fresh() && !prepared && m.base.live.upstream == GunicornOnly(m.cfg) && Reached(m.w.attempts[m.attempt].history, NO_FLAGS)
      modifies this, m`w, m`trace, m`failures
      ensures old(m.failures) <= m.failures
      ensures (Fresh() || Linked()) && flags == NO_FLAGS
      ensures SameVerdict(old(m.w), m.w)
      ensures r.Done? ==>
                && Synced() && candidate == [] && PreviousSlots() && baselines != map[]
                && Pinned(m.cfg, |m.cfg.services|, pins, m.w.live.tags, images)
                && m.w.files.dockerfile == CandidateDockerfile(m.attempt)
                && Candidates(m.cfg, m.w.live.tags, images, candidateImages)
    {
      hide Machine.Valid, Captures, Good, Captured, Counts, Copies, Untried, Apart, Reached, Linked, Matches, Able, Candidates, SlotsRun, Pinned;
      :- Collect();
      :- Arm();
      r := PrepareArmed();
    }

    /** There are previous slots, and they run the captured Gunicorn image. */
    predicate PreviousSlots()
      reads this`previous, this`images, m`w
    {
      previous != [] && m.cfg.gunicorn in images && SlotsRun(m.w.live.slots, previous, images[m.cfg.gunicorn])
    }

    /** What follows the first save of the plan. */
    method PrepareArmed() returns (r: Status)
      requires Synced() && Captures() && Distinct(pins) && |pins| == |m.cfg.services|
      modifies this`previous, this`candidate, this`candidateImages, m`w, m`trace, m`failures
      ensures old(m.failures) <= m.failures
      ensures Linked() && SameVerdict(old(m.w), m.w)
      ensures r.Done? ==>
                && Synced() && candidate == old(candidate) && PreviousSlots()
                && Pinned(m.cfg, |m.cfg.services|, pins, m.w.live.tags, images)
                && m.w.files.dockerfile == CandidateDockerfile(m.attempt)
                && Candidates(m.cfg, m.w.live.tags, images, candidateImages)
    {
      hide Machine.Valid, Captures, Matches, Able, Candidates, SlotsRun, Linked, Knows, Distinct, Pinned, PinsKept;
      SyncedLinked();
      :- PinImages();
      SyncedLinked();
      :- StartPreviousWebSlots();
      SyncedLinked();
      ghost var tags := m.w.live.tags;
      r := BuildCandidate();
      SyncedLinked();
      if r.Done? { PinnedStill(m.cfg, |m.cfg.services|, pins, tags, m.w.live.tags, images); }
    }

    // -------------------------------------------------------------- forward steps

    /** Between two forward steps of a deployment. */
    ghost predicate Staged()
      reads this, m`w, m`base, m`attempt, m`trace
    {
      Synced() && previous != [] && baselines != map[] && Candidates(m.cfg, m.w.live.tags, images, candidateImages)
    }

    /** A route change between two forward steps. */
    method SwitchRoute(targets: seq<Target>, backups: seq<Target>) returns (r: Status)
      requires Staged() && flags.traffic
      modifies m`w, m`trace, m`failures
      ensures old(m.failures) <= m.failures
      ensures Staged() && SameButRoutes(old(m.w), m.w)
      ensures r.Done? ==> Renderable(targets, backups) && Loads(m.w, Route(targets, backups))
    {
      hide Machine.Valid, Matches, Able, Knows, Candidates, Renderable;
      SyncedOpen();
      r := ActivateUpstream(targets, backups);
    }

    /** `_protect_static_collection_traffic`: users move to slots whose manifest cannot change. */
    method ProtectTraffic() returns (r: Status)
      requires Staged() && flags.migration && m.attempt in m.w.attempts && Journalled(m.w.attempts[m.attempt].history, flags)
      requires flags == NO_FLAGS.(migration := true)
      modifies this`flags, m`w, m`trace, m`failures
      ensures old(m.failures) <= m.failures
      ensures Linked() && SameVerdict(old(m.w), m.w) && m.w.files == old(m.w).files
      ensures r.Done? ==> Staged() && OnSlots(m.w.live) && flags == NO_FLAGS.(migration := true, traffic := true)
      ensures r.Done? ==> Loads(m.w, Route(previous, [Compose(m.cfg.gunicorn)])) && previous == old(previous)
    {
      hide Machine.Valid, Matches, Able, Knows, Candidates, SlotsRun, Loads, Renderable, Linked, OnSlots;
      SyncedLinked();
      :- VerifyPreviousFallback();
      :- Announce(flags.(traffic := true));
      r := SwitchRoute(previous, [Compose(m.cfg.gunicorn)]);
      SyncedLinked();
      if r.Done? {
        SyncedOpen();
        LoadsOnSlots(m.w, previous, [Compose(m.cfg.gunicorn)]);
        r := m.Probe();
      }
    }

    /** The journal has reached the state in which these flags may be raised. */
    ghost predicate Recorded(f: Flags)
      reads m`w, m`attempt
    {
      m.attempt in m.w.attempts && Journalled(m.w.attempts[m.attempt].history, f)
    }

    lemma StagedSynced()
      requires Staged()
      ensures Synced() && Linked()
    {
    }

    /** `migrate` */
    method Migrate() returns (r: Status)
      requires Staged() && flags == NO_FLAGS && Recorded(MIGRATION_FLAGS)
      modifies this`flags, m`w, m`trace, m`failures
      ensures old(m.failures) <= m.failures
      ensures Linked() && SameVerdict(old(m.w), m.w)
      ensures r.Done? ==> Staged() && OnSlots(m.w.live) && flags == STATIC_FLAGS
      ensures r.Done? ==> m.w.files == old(m.w).files.(schema := m.cfg.migrated(m.attempt), statics := CollectedStatics(m.attempt))
      ensures r.Done? ==> Loads(m.w, Route(previous, [Compose(m.cfg.gunicorn)]))
    {
      hide Machine.Valid, Matches, Able, Knows, Candidates, SlotsRun, Loads, Renderable, Linked, OnSlots;
      StagedSynced();
      :- m.Probe();
      :- MigrateAnnounced();
      :- ProtectTraffic();
      SyncedLinked();
      ghost var before := m.w;
      :- Announce(STATIC_FLAGS);
      :- Collects();
      SyncedLinked();
      LoadsKept(before, m.w, Route(previous, [Compose(m.cfg.gunicorn)]));
      :- VerifyPreviousFallback();
      r := m.Probe();
    }

    /** The migration, announced first. */
    method MigrateAnnounced() returns (r: Status)
      requires Staged() && flags == NO_FLAGS && Recorded(MIGRATION_FLAGS)
      modifies this`flags, m`w, m`trace, m`failures
      ensures old(m.failures) <= m.failures
      ensures Linked() && SameVerdict(old(m.w), m.w) && m.w.files == old(m.w).files.(schema := m.w.files.schema)
      ensures r.Done? ==> Staged() && flags == MIGRATION_FLAGS && m.w.files.schema == m.cfg.migrated(m.attempt)
    {
      hide Machine.Valid, Matches, Able, Knows, Candidates, Linked;
      StagedSynced();
      :- Announce(MIGRATION_FLAGS);
      SyncedOpen();
      r := MigrateTwice();
    }

    method MigrateTwice() returns (r: Status)
      requires Staged() && flags.migration
      modifies m`w, m`trace, m`failures
      ensures old(m.failures) <= m.failures
      ensures Staged() && Linked() && SameVerdict(old(m.w), m.w) && flags == old(flags)
      ensures m.w.files == old(m.w).files.(schema := m.w.files.schema)
      ensures r.Done? ==> m.w.files.schema == m.cfg.migrated(m.attempt)
    {
      hide Machine.Valid, Matches, Able, Knows, Candidates, Within, Either;
      SyncedOpen();
      :- m.Migrate();
      SyncedOpen();
      r := m.Migrate();
    }

    /** `collectstatic` */
    method Collects() returns (r: Status)
      requires Staged() && flags.statics && OnSlots(m.w.live)
      modifies m`w, m`trace, m`failures
      ensures old(m.failures) <= m.failures
      ensures Staged() && Linked() && SameVerdict(old(m.w), m.w) && OnSlots(m.w.live)
      ensures m.w.files == old(m.w).files.(statics := m.w.files.statics) && m.w.live == old(m.w).live
      ensures r.Done? ==> m.w.files.statics == CollectedStatics(m.attempt)
    {
      hide Machine.Valid, Matches, Able, Knows, Candidates;
      SyncedOpen();
      r := m.Collect();
    }

    /** `candidate_health` */
    method CandidateHealth() returns (r: Status)
      requires Staged() && candidate == [] && OnSlots(m.w.live)
      modifies this`previous, this`candidate, m`w, m`trace, m`failures
      ensures old(m.failures) <= m.failures
      ensures Linked() && SameVerdict(old(m.w), m.w) && m.w.files == old(m.w).files
      ensures r.Done? ==> Staged() && OnSlots(m.w.live) && candidate != []
      ensures r.Done? ==> m.cfg.gunicorn in candidateImages && SlotsRun(m.w.live.slots, candidate, candidateImages[m.cfg.gunicorn])
      ensures r.Done? ==> Healthy(m.cfg, m.w, replicas, baselines, {})
    {
      hide Machine.Valid, Matches, Able, Knows, Candidates, SlotsRun, Linked;
      StagedSynced();
      if m.cfg.gunicorn !in candidateImages { return Raised; }
      :- StartWebSlots(Role.Candidate, candidateImages[m.cfg.gunicorn]);
      if !Healthy(m.cfg, m.w, replicas, baselines, {}) { return Raised; }
      :- VerifyPreviousFallback();
      r := m.Probe();
    }

    /** `switch_traffic` */
    method SwitchTraffic() returns (r: Status)
      requires Staged() && OnSlots(m.w.live) && flags == STATIC_FLAGS && Recorded(STATIC_FLAGS)
      modifies this`flags, m`w, m`trace, m`failures
      ensures old(m.failures) <= m.failures
      ensures Linked() && SameVerdict(old(m.w), m.w) && m.w.files == old(m.w).files && flags == old(flags)
      ensures r.Done? ==> Staged() && OnSlots(m.w.live)
      ensures r.Done? ==> Loads(m.w, Route(candidate, previous + [Compose(m.cfg.gunicorn)]))
    {
      hide Machine.Valid, Matches, Able, Knows, Candidates, Loads, Renderable, Linked, OnSlots;
      StagedSynced();
      if candidate == [] || previous == [] { return Raised; }
      :- Announce(flags.(traffic := true));
      r := SwitchRoute(candidate, previous + [Compose(m.cfg.gunicorn)]);
      StagedSynced();
      if r.Done? {
        SyncedOpen();
        LoadsOnSlots(m.w, candidate, previous + [Compose(m.cfg.gunicorn)]);
        r := m.Probe();
      }
    }

    /** Every worker except the beat is recreated by one command. */
    method RecreateOrdinary() returns (r: Status)
      requires Staged() && OnSlots(m.w.live) && flags.workers
      modifies m`w, m`trace, m`failures
      ensures old(m.failures) <= m.failures
      ensures Staged() && OnSlots(m.w.live) && SameButGroups(old(m.w), m.w, SetOf(m.cfg.services))
    {
      hide Machine.Valid, Good, Matches, Able, Knows, Candidates, ServedWithout, SameOutside, Ordinary;
      SyncedOpen();
      m.Now();
      OrdinaryOnly(m.cfg);
      OnSlotsServes(m.w, SetOf(m.cfg.services));
      Untouching(m.w, SetOf(m.cfg.services));
      if Ordinary(m.cfg) == [] { return Done; }
      r := ComposeUp(Ordinary(m.cfg), SetOf(m.cfg.services));
      Widen(old(m.w), m.w, SetOf(Ordinary(m.cfg)), SetOf(m.cfg.services));
    }

    method RecreateBeat() returns (r: Status)
      requires Staged() && OnSlots(m.w.live) && flags.workers
      modifies m`w, m`trace, m`failures
      ensures old(m.failures) <= m.failures
      ensures Staged() && OnSlots(m.w.live) && SameButGroups(old(m.w), m.w, {m.cfg.beat})
    {
      hide Machine.Valid, Good, Matches, Able, Knows, Candidates, ServedWithout, SameOutside;
      SyncedOpen();
      m.Now();
      OnSlotsServes(m.w, {m.cfg.beat});
      r := RestartBeat({m.cfg.beat});
    }

    /** Ordinary workers at once, then the beat, stopped before it is started. */
    method RecreateWorkers() returns (r: Status)
      requires Staged() && OnSlots(m.w.live) && flags.workers
      modifies m`w, m`trace, m`failures
      ensures old(m.failures) <= m.failures
      ensures Staged() && OnSlots(m.w.live) && SameButGroups(old(m.w), m.w, SetOf(m.cfg.services))
    {
      hide Machine.Valid, Matches, Able, Knows, Candidates, Staged, SameButGroups, SetOf;
      BeatIsService();
      :- RecreateOrdinary();
      ghost var before := m.w;
      r := RecreateBeat();
      SameButGroupsTrans(old(m.w), before, m.w, SetOf(m.cfg.services), {m.cfg.beat});
    }

    lemma BeatIsService()
      requires Staged()
      ensures m.cfg.beat in m.cfg.services && SetOf(m.cfg.services) + {m.cfg.beat} == SetOf(m.cfg.services)
    {
      m.Now();
    }

    /** `_wait_for_compose_services` and `_require_live_images` for the candidate, with the probes that follow. */
    method RequireLiveImages(services: seq<Service>) returns (r: Status)
      modifies m`failures
      ensures old(m.failures) <= m.failures
      ensures r.Done? ==> Runs(m.w, services, candidateImages, replicas)
    {
      if !Runs(m.w, services, candidateImages, replicas) { return Raised; }
      r := m.Probe();
    }

    /** `replace_workers` */
    method ReplaceWorkers() returns (r: Status)
      requires Staged() && OnSlots(m.w.live) && flags == STATIC_FLAGS && Recorded(WORKER_FLAGS)
      modifies this`flags, m`w, m`trace, m`failures
      ensures old(m.failures) <= m.failures
      ensures Linked() && SameVerdict(old(m.w), m.w) && m.w.files == old(m.w).files
      ensures r.Done? ==> Staged() && OnSlots(m.w.live) && flags == WORKER_FLAGS
      ensures r.Done? ==> Runs(m.w, Except(m.cfg.services, m.cfg.gunicorn), candidateImages, replicas)
    {
      hide Machine.Valid, Matches, Able, Knows, Candidates, Linked, OnSlots, Runs, SameOutside;
      StagedSynced();
      if m.cfg.beat !in replicas || replicas[m.cfg.beat] != 1 { return Raised; }
      :- m.Probe();
      :- Announce(WORKER_FLAGS);
      r := RecreateWorkers();
      StagedSynced();
      if r.Raised? { return; }
      r := RequireLiveImages(Except(m.cfg.services, m.cfg.gunicorn));
    }

    /** Gunicorn is recreated while the loaded slots serve. */
    method RecreateGunicorn() returns (r: Status)
      requires Staged() && OnSlots(m.w.live) && flags.gunicorn
      modifies m`w, m`trace, m`failures
      ensures old(m.failures) <= m.failures
      ensures Staged() && OnSlots(m.w.live) && SameButGroups(old(m.w), m.w, {m.cfg.gunicorn})
    {
      hide Machine.Valid, Good, Matches, Able, Knows, Candidates, ServedWithout, SameOutside;
      SyncedOpen();
      m.Now();
      OnSlotsServes(m.w, {m.cfg.gunicorn});
      r := ComposeUp([m.cfg.gunicorn], {m.cfg.gunicorn});
      Widen(old(m.w), m.w, SetOf([m.cfg.gunicorn]), {m.cfg.gunicorn});
    }

    /** Candidate slots serve, with previous slots behind them, before Gunicorn is touched. */
    method RouteAhead() returns (r: Status)
      requires Staged() && flags.traffic
      modifies this`previous, this`candidate, m`w, m`trace, m`failures
      ensures old(m.failures) <= m.failures
      ensures Staged() && Linked() && SameVerdict(old(m.w), m.w) && m.w.files == old(m.w).files && m.w.live.groups == old(m.w).live.groups
      ensures m.w.intent == old(m.w).intent
      ensures r.Done? ==> OnSlots(m.w.live) && Loads(m.w, Route(candidate, previous))
    {
      hide Machine.Valid, Matches, Able, Knows, Candidates, Linked, OnSlots, Loads, SlotsRun;
      StagedSynced();
      :- StartPreviousWebSlots();
      r := SwitchRoute(candidate, previous);
      StagedSynced();
      if r.Raised? { return; }
      FirstSlot();
      LoadsOnSlots(m.w, candidate, previous);
      r := m.Probe();
    }

    /** `promote_web` */
    method PromoteWeb() returns (r: Status)
      requires Staged() && OnSlots(m.w.live) && flags == WORKER_FLAGS && Recorded(WEB_FLAGS)
      requires Runs(m.w, Except(m.cfg.services, m.cfg.gunicorn), candidateImages, replicas)
      modifies this`previous, this`candidate, this`flags, m`w, m`trace, m`failures
      ensures old(m.failures) <= m.failures
      ensures Linked() && SameVerdict(old(m.w), m.w) && m.w.files == old(m.w).files
      ensures r.Done? ==> Staged() && flags == WEB_FLAGS && Runs(m.w, m.cfg.services, candidateImages, replicas)
      ensures r.Done? ==> Loads(m.w, Route([Compose(m.cfg.gunicorn)], candidate))
    {
      hide Machine.Valid, Matches, Able, Knows, Candidates, Linked, OnSlots, Runs, SameOutside, Loads, SlotsRun;
      StagedSynced();
      :- RouteAhead();
      :- Announce(WEB_FLAGS);
      ghost var before := m.w;
      RoutesKeepImages(old(m.w), before, Except(m.cfg.services, m.cfg.gunicorn), candidateImages, replicas);
      r := RecreateGunicorn();
      StagedSynced();
      if r.Raised? { return; }
      :- RequireLiveImages([m.cfg.gunicorn]);
      WorkersStay(m.cfg, before, m.w, candidateImages, replicas);
      ghost var promoted := m.w;
      r := SwitchRoute([Compose(m.cfg.gunicorn)], candidate);
      StagedSynced();
      if r.Raised? { return; }
      RoutesKeepImages(promoted, m.w, m.cfg.services, candidateImages, replicas);
      r := m.Probe();
    }

    lemma FirstSlot()
      requires Staged()
      ensures candidate != [] ==> candidate[0].Slot?
    {
      SyncedOpen();
    }

    /** `finalize` */
    method Finalize() returns (r: Status)
      requires Staged() && flags == WEB_FLAGS && Recorded(WEB_FLAGS.(marker := true))
      requires Runs(m.w, m.cfg.services, candidateImages, replicas)
      modifies this`flags, m`w, m`trace, m`failures
      ensures old(m.failures) <= m.failures
      ensures Linked() && SameVerdict(old(m.w), m.w) && m.w.files == old(m.w).files.(platform := m.w.files.platform)
      ensures r.Done? ==>
                && Staged() && flags == WEB_FLAGS.(marker := true) && Runs(m.w, m.cfg.services, candidateImages, replicas)
                && Loads(m.w, GunicornOnly(m.cfg)) && m.w.files.platform == Some(ReleaseMarker(m.attempt))
    {
      hide Machine.Valid, Matches, Able, Knows, Candidates, Linked, Runs, Loads, Renderable;
      StagedSynced();
      :- m.Probe();
      r := SwitchRoute([Compose(m.cfg.gunicorn)], []);
      StagedSynced();
      if r.Raised? { return; }
      ghost var before := m.w;
      :- m.Probe();
      :- Announce(WEB_FLAGS.(marker := true));
      :- WriteMarker();
      RoutesKeepImages(old(m.w), m.w, m.cfg.services, candidateImages, replicas);
      LoadsKept(before, m.w, GunicornOnly(m.cfg));
      return Done;
    }

    method WriteMarker() returns (r: Status)
      requires Staged() && flags.marker
      modifies m`w, m`trace, m`failures
      ensures old(m.failures) <= m.failures
      ensures Staged() && Linked() && m.w == old(m.w).(files := old(m.w).files.(platform := m.w.files.platform))
      ensures r.Done? ==> m.w.files.platform == Some(ReleaseMarker(m.attempt))
    {
      hide Machine.Valid, Matches, Able, Knows, Candidates;
      SyncedOpen();
      r := m.WritePlatform(Some(ReleaseMarker(m.attempt)));
    }

    /** `cleanup_success`: the deployment is committed; only slots and temporary tags go. */
    method CleanupSuccess() returns (r: Status)
      requires m.Valid() && attempt == m.attempt && Apart(m.cfg, pins) && Committed(m.w.attempts, m.attempt) && !m.w.unsettled
      requires forall t :: t in previous || t in candidate ==> t.Slot? && t.attempt == m.attempt
      requires Loads(m.w, GunicornOnly(m.cfg))
      modifies this`previous, this`candidate, this`pins, m`w, m`trace, m`failures
      ensures old(m.failures) <= m.failures
      ensures m.Valid() && m.w == old(m.w).(live := old(m.w).live.(slots := m.w.live.slots, tags := m.w.live.tags))
      ensures r.Done? ==> forall t :: t in old(previous) || t in old(candidate) ==> t !in m.w.live.slots
    {
      hide Machine.Valid, Serving, Apart, AllUp;
      var names := candidate + previous;
      ServingAllUp(m.w.live.groups, m.w.live.slots, m.w.live.loaded, SetOf(names));
      r := RemoveWebSlots(names);
      if r.Raised? { return; }
      forall t | t in old(previous) || t in old(candidate) ensures t !in m.w.live.slots { assert t in names; }
      DiscardPins();
    }

    /** `load_incomplete_plan`: everything the plan records, and no restart baseline. */
    constructor Hydrate(m: Machine, p: Plan)
      requires m.Valid() && m.w.plan == Some(p) && m.Open()
      ensures this.m == m && Linked() && flags == p.flags && baselines == map[]
    {
      hide Machine.Valid, Good, Matches, Committed;
      this.m, attempt, digests := m, p.attempt, p.digests;
      prepared, settingsMeta, upstreamMeta, staticsCaptured, armed := true, true, true, true, true;
      platformExisted, pointerExisted := Some(p.platformExisted), Some(p.pointerExisted);
      images, replicas, baselines, candidateImages := p.images, p.replicas, map[], map[];
      pins, previous, candidate, flags := p.pins, p.previous, p.candidate, p.flags;
      new;
      m.Now();
      HydratedView(m.cfg, m.base, m.attempt, m.w);
    }
  }
}
