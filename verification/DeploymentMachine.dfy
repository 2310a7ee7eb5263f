/** The steps a receiver takes on the host. Every step may raise; every intermediate
    world is appended to `trace`, so a kill leaves some world of the trace behind. */
module DeploymentMachine {
  import opened Wrappers
  import opened DeploymentWorld
  import opened DeploymentSteps

  class Machine {
    const cfg: Config
    var w: World
    var base: World          // the world when the current attempt began
    var attempt: nat
    var trace: seq<World>    // every world since then, or since the last kill
    var failures: nat        // the steps that have failed, and the attempts that a check of their own ended

    ghost predicate Valid()
      reads this`w, this`base, this`attempt, this`trace
    {
      && ValidConfig(cfg)
      && |trace| > 0 && trace[|trace| - 1] == w
      && forall i :: 0 <= i < |trace| ==> Good(cfg, base, attempt, trace[i])
    }

    lemma Now()
      requires Valid()
      ensures Good(cfg, base, attempt, w) && ValidConfig(cfg)
    {
      assert Good(cfg, base, attempt, trace[|trace| - 1]);
    }

    /** A plan is on disk and the attempt has not been committed. */
    ghost predicate Open()
      reads this`w, this`attempt
    {
      w.plan.Some? && (Committed(w.attempts, attempt) ==> w.unsettled)
    }

    ghost predicate MayRoute()
      reads this`w, this`attempt
    {
      Open() && Either(w.plan.value.flags, w.lost).traffic
    }

    ghost predicate MayRecreate(s: Service)
      reads this`w, this`attempt
    {
      && Open() && s in cfg.services
      && var f := Either(w.plan.value.flags, w.lost); if s == cfg.gunicorn then f.gunicorn else f.workers
    }

    constructor (cfg: Config, w: World, base: World, attempt: nat)
      requires ValidConfig(cfg) && Good(cfg, base, attempt, w)
      ensures Valid() && this.cfg == cfg && this.w == w && this.base == base && this.attempt == attempt
    {
      hide Good;
      this.cfg, this.w := cfg, w;
      this.base, this.attempt, this.trace, failures := base, attempt, [w], 0;
    }

    /** Every change of the host goes through here and is recorded. */
    method Become(next: World)
      requires Valid() && Good(cfg, base, attempt, next)
      modifies this`w, this`trace
      ensures Valid() && w == next && trace == old(trace) + [next]
    {
      hide Good;
      w := next;
      trace := trace + [next];
    }

    /** The process dies: the host is left as it was at some recorded instant. */
    method Kill(k: nat)
      requires Valid() && k < |trace|
      modifies this`w, this`trace
      ensures Valid() && w == old(trace[k]) && trace == [w]
    {
      hide Good;
      w := trace[k];
      trace := [w];
    }

    /** A command that changes nothing the protocol depends on. */
    method Probe() returns (s: Status)
      modifies this`failures
      ensures old(failures) <= failures && (s.Raised? ==> old(failures) < failures)
    {
      if * { failures := failures + 1; return Raised; }
      return Done;
    }

    /** A check of the attempt itself ends it: that counts like a failed step. */
    method Refuse()
      modifies this`failures
      ensures failures == old(failures) + 1
    {
      failures := failures + 1;
    }

    // -------------------------------------------------------------- attempts and plans

    /** A new attempt starts from the world as it is; the history variables start afresh. */
    method Begin(a: nat)
      requires Valid() && w.plan.None? && a !in w.attempts
      modifies this
      ensures Valid() && attempt == a
      ensures base == w == Begun(old(w)) && trace == [w] && failures == old(failures)
    {
      hide Good;
      BeginStep(cfg, base, attempt, w, a);
      w := Begun(w);
      base, attempt, trace := w, a, [w];
    }

    method SaveRecord(r: Record) returns (s: Status)
      requires Valid() && History(r.history)
      requires w.plan.Some? ==>
                 Journalled(r.history, w.intent) && Reached(r.history, w.plan.value.flags)
      requires Committed(w.attempts, attempt) && !w.unsettled ==> r == w.attempts[attempt]
      requires Committed(w.attempts, attempt) && w.plan.None? && r != w.attempts[attempt] ==> Restored(cfg, base, attempt, w)
      requires r == Record(DEPLOYMENT_STATES, Success) ==> Committed(w.attempts, attempt)
      modifies this`w, this`trace, this`failures
      ensures old(failures) <= failures && (s.Raised? ==> old(failures) < failures)
      ensures Valid()
      ensures w == old(w) || w == old(w).(attempts := old(w).attempts[attempt := r])
      ensures s.Done? ==> w == old(w).(attempts := old(w).attempts[attempt := r])
    {
      hide Good;
      if * { failures := failures + 1; return Raised; }
      RecordStep(cfg, base, attempt, w, r);
      Become(w.(attempts := w.attempts[attempt := r]));
      if * { failures := failures + 1; return Raised; }
      return Done;
    }

    /** The attempt raises flags in memory; nothing on disk changes. */
    method Intend(f: Flags)
      requires Valid() && w.plan.Some? && attempt in w.attempts
      requires Ordered(f) && Within(w.intent, f) && Journalled(w.attempts[attempt].history, f)
      requires f.traffic ==> w.plan.value.flags.migration && w.plan.value.previous != []
      modifies this`w, this`trace
      ensures Valid() && w == old(w).(intent := f)
    {
      hide Good;
      IntendStep(cfg, base, attempt, w, f);
      Become(w.(intent := f));
    }

    /** Replaces the active plan, then the copy kept beside the backup. */
    method SavePlan(p: Plan) returns (s: Status)
      requires Valid() && Armed(cfg, base, attempt, p, w.(lost := NO_FLAGS))
      modifies this`w, this`trace, this`failures
      ensures old(failures) <= failures && (s.Raised? ==> old(failures) < failures)
      ensures Valid()
      ensures s.Done? ==> w == old(w).(plan := Some(p), lost := NO_FLAGS)
      ensures s.Raised? ==>
                || (old(w).plan.None? && w == old(w))
                || (old(w).plan.Some? && w == old(w).(lost := Minus(old(w).intent, old(w).plan.value.flags)))
                || w == old(w).(plan := Some(p), lost := NO_FLAGS)
    {
      hide Good;
      if * {
        failures := failures + 1;
        if w.plan.None? { return Raised; }
        LoseStep(cfg, base, attempt, w);
        Become(w.(lost := Minus(w.intent, w.plan.value.flags)));
        return Raised;
      }
      PlanStep(cfg, base, attempt, w, p);
      Become(w.(plan := Some(p), lost := NO_FLAGS));
      if * { failures := failures + 1; return Raised; }
      return Done;
    }

    method DropPlan() returns (s: Status)
      requires Valid() && AtRest(cfg, base, attempt, w.(plan := None))
      modifies this`w, this`trace, this`failures
      ensures old(failures) <= failures && (s.Raised? ==> old(failures) < failures)
      ensures Valid()
      ensures w == old(w) || w == old(w).(plan := None)
      ensures s.Done? ==> w == old(w).(plan := None)
    {
      hide Good;
      if * { failures := failures + 1; return Raised; }
      DropStep(cfg, base, attempt, w);
      Become(w.(plan := None));
      if * { failures := failures + 1; return Raised; }
      return Done;
    }

    /** The first of the two commit writes. */
    method CommitRecord() returns (s: Status)
      requires Valid() && w.plan.Some? && attempt in w.attempts
      requires w.attempts[attempt].history == DEPLOYMENT_STATES
      modifies this`w, this`trace, this`failures
      ensures old(failures) <= failures && (s.Raised? ==> old(failures) < failures)
      ensures Valid()
      ensures s.Done? ==>
                w == old(w).(attempts := old(w).attempts[attempt := Record(DEPLOYMENT_STATES, Success)], unsettled := true)
      ensures s.Raised? ==>
                w == old(w).(unsettled := true)
                || w == old(w).(attempts := old(w).attempts[attempt := Record(DEPLOYMENT_STATES, Success)], unsettled := true)
    {
      hide Good;
      UnsettleStep(cfg, base, attempt, w);
      Become(w.(unsettled := true));
      if * { failures := failures + 1; return Raised; }
      CommitStep(cfg, base, attempt, w);
      Become(w.(attempts := w.attempts[attempt := Record(DEPLOYMENT_STATES, Success)]));
      if * { failures := failures + 1; return Raised; }
      return Done;
    }

    /** Both commit writes have returned. */
    method Settle()
      requires Valid() && w.plan.Some? && Committed(w.attempts, attempt) && Deployed(cfg, base, attempt, w)
      modifies this`w, this`trace
      ensures Valid() && w == old(w).(unsettled := false)
    {
      hide Good;
      SettleStep(cfg, base, attempt, w);
      Become(w.(unsettled := false));
    }

    // -------------------------------------------------------------- backups

    method CreateBackup() returns (s: Status)
      requires Valid() && w.plan.None? && w.live.upstream == base.live.upstream
      modifies this`w, this`trace, this`failures
      ensures old(failures) <= failures
      ensures Valid()
      ensures s.Raised? ==> w == old(w)
      ensures s.Done? ==> w == old(w).(backups := old(w).backups[attempt := EMPTY_BACKUP])
    {
      hide Good;
      if * { failures := failures + 1; return Raised; }
      if attempt in w.backups { return Raised; }
      BackupStep(cfg, base, attempt, w, EMPTY_BACKUP);
      Become(w.(backups := w.backups[attempt := EMPTY_BACKUP]));
      return Done;
    }

    /** A plain copy into the backup directory: `partial` is what an interruption leaves. */
    method CopyToBackup(partial: Backup, whole: Backup) returns (s: Status)
      requires Valid() && w.plan.None? && w.live.upstream == base.live.upstream
      modifies this`w, this`trace, this`failures
      ensures old(failures) <= failures && (s.Raised? ==> old(failures) < failures)
      ensures Valid()
      ensures s.Done? ==> w == old(w).(backups := old(w).backups[attempt := whole])
      ensures s.Raised? ==> w == old(w) || w == old(w).(backups := old(w).backups[attempt := partial])
    {
      hide Good;
      if * { failures := failures + 1; return Raised; }
      BackupStep(cfg, base, attempt, w, partial);
      BackupStep(cfg, base, attempt, w, whole);
      Become(w.(backups := w.backups[attempt := partial]));
      if * { failures := failures + 1; return Raised; }
      assert w.(backups := w.backups[attempt := whole]) == old(w).(backups := old(w).backups[attempt := whole]);
      Become(w.(backups := w.backups[attempt := whole]));
      return Done;
    }

    // -------------------------------------------------------------- managed files

    /** A plain copy over the live Dockerfile: truncated first, filled afterwards. */
    method CopyDockerfile(source: Option<Text>) returns (s: Status)
      requires Valid() && (w.plan.Some? ==> Open())
      requires w.plan.None? ==>
                 !Committed(w.attempts, attempt) && attempt in w.backups && source in {None, Some(Truncated), Some(base.files.dockerfile)}
      modifies this`w, this`trace, this`failures
      ensures old(failures) <= failures && (s.Raised? ==> old(failures) < failures || source.None?)
      ensures Valid()
      ensures s.Done? ==> source.Some? && w == old(w).(files := old(w).files.(dockerfile := source.value))
      ensures s.Raised? ==> w == old(w) || w == old(w).(files := old(w).files.(dockerfile := Truncated))
    {
      hide Good;
      if * { failures := failures + 1; return Raised; }
      if source.None? { return Raised; }
      DockerfileStep(cfg, base, attempt, w, Truncated);
      Become(w.(files := w.files.(dockerfile := Truncated)));
      if * { failures := failures + 1; return Raised; }
      DockerfileStep(cfg, base, attempt, w, source.value);
      Become(w.(files := w.files.(dockerfile := source.value)));
      return Done;
    }

    method WriteDockerfile(t: Text) returns (s: Status)
      requires Valid() && Open()
      modifies this`w, this`trace, this`failures
      ensures old(failures) <= failures && (s.Raised? ==> old(failures) < failures)
      ensures Valid()
      ensures w == old(w) || w == old(w).(files := old(w).files.(dockerfile := t))
      ensures s.Done? ==> w == old(w).(files := old(w).files.(dockerfile := t))
    {
      hide Good;
      if * { failures := failures + 1; return Raised; }
      DockerfileStep(cfg, base, attempt, w, t);
      Become(w.(files := w.files.(dockerfile := t)));
      if * { failures := failures + 1; return Raised; }
      return Done;
    }

    method WriteUpstream(r: Route) returns (s: Status)
      requires Valid()
      requires r == base.live.upstream || MayRoute()
               || (w.plan.None? && r == Damaged && attempt in w.backups && w.backups[attempt].upstream == Some(Damaged))
      requires if w.plan.Some? then Open() else !Committed(w.attempts, attempt)
      modifies this`w, this`trace, this`failures
      ensures old(failures) <= failures && (s.Raised? ==> old(failures) < failures)
      ensures Valid()
      ensures w == old(w) || w == old(w).(live := old(w).live.(upstream := r))
      ensures s.Done? ==> w == old(w).(live := old(w).live.(upstream := r))
    {
      hide Good;
      if * { failures := failures + 1; return Raised; }
      UpstreamStep(cfg, base, attempt, w, r);
      Become(w.(live := w.live.(upstream := r)));
      if * { failures := failures + 1; return Raised; }
      return Done;
    }

    method WritePlatform(o: Option<Text>) returns (s: Status)
      requires Valid() && Open() && (o == base.files.platform || w.plan.value.flags.marker)
      modifies this`w, this`trace, this`failures
      ensures old(failures) <= failures && (s.Raised? ==> old(failures) < failures)
      ensures Valid()
      ensures w == old(w) || w == old(w).(files := old(w).files.(platform := o))
      ensures s.Done? ==> w == old(w).(files := old(w).files.(platform := o))
    {
      hide Good;
      if * { failures := failures + 1; return Raised; }
      PlatformStep(cfg, base, attempt, w, o);
      Become(w.(files := w.files.(platform := o)));
      if * { failures := failures + 1; return Raised; }
      return Done;
    }

    method WritePointer(o: Option<Text>) returns (s: Status)
      requires Valid() && Open() && (o == base.files.pointer || w.plan.value.flags.marker)
      modifies this`w, this`trace, this`failures
      ensures old(failures) <= failures && (s.Raised? ==> old(failures) < failures)
      ensures Valid()
      ensures w == old(w) || w == old(w).(files := old(w).files.(pointer := o))
      ensures s.Done? ==> w == old(w).(files := old(w).files.(pointer := o))
    {
      hide Good;
      if * { failures := failures + 1; return Raised; }
      PointerStep(cfg, base, attempt, w, o);
      Become(w.(files := w.files.(pointer := o)));
      if * { failures := failures + 1; return Raised; }
      return Done;
    }

    /** Restores the shared static manifest through some running container. */
    method RestoreStatics(t: Text, through: seq<Target>) returns (s: Status)
      requires Valid() && Open() && t == base.files.statics
      modifies this`w, this`trace, this`failures
      ensures old(failures) <= failures && (s.Raised? ==> old(failures) < failures || !(exists x :: x in through && Up(old(w).live.groups, old(w).live.slots, x)))
      ensures Valid()
      ensures w == old(w) || w == old(w).(files := old(w).files.(statics := t))
      ensures s.Done? ==> w == old(w).(files := old(w).files.(statics := t)) && exists x :: x in through && Up(w.live.groups, w.live.slots, x)
    {
      hide Good;
      if * { failures := failures + 1; return Raised; }
      if !(exists x :: x in through && Up(w.live.groups, w.live.slots, x)) { return Raised; }
      StaticsStep(cfg, base, attempt, w, t);
      Become(w.(files := w.files.(statics := t)));
      if * { failures := failures + 1; return Raised; }
      return Done;
    }

    // -------------------------------------------------------------- database and statics

    /** The migrations may stop half-way. */
    method Migrate() returns (s: Status)
      requires Valid() && Open() && w.plan.value.flags.migration
      modifies this`w, this`trace, this`failures
      ensures old(failures) <= failures && (s.Raised? ==> old(failures) < failures)
      ensures Valid()
      ensures w == old(w).(files := old(w).files.(schema := w.files.schema))
      ensures s.Done? ==> w.files.schema == cfg.migrated(attempt)
    {
      hide Good;
      var applied: nat := *;
      if * { failures := failures + 1; return Raised; }
      SchemaStep(cfg, base, attempt, w, applied);
      Become(w.(files := w.files.(schema := applied)));
      if * { failures := failures + 1; return Raised; }
      SchemaStep(cfg, base, attempt, w, cfg.migrated(attempt));
      Become(w.(files := w.files.(schema := cfg.migrated(attempt))));
      return Done;
    }

    method Collect() returns (s: Status)
      requires Valid() && Open() && w.plan.value.flags.statics
      modifies this`w, this`trace, this`failures
      ensures old(failures) <= failures && (s.Raised? ==> old(failures) < failures)
      ensures Valid()
      ensures w == old(w).(files := old(w).files.(statics := w.files.statics))
      ensures s.Done? ==> w.files.statics == CollectedStatics(attempt)
    {
      hide Good;
      if * { failures := failures + 1; return Raised; }
      StaticsStep(cfg, base, attempt, w, Truncated);
      Become(w.(files := w.files.(statics := Truncated)));
      if * { failures := failures + 1; return Raised; }
      StaticsStep(cfg, base, attempt, w, CollectedStatics(attempt));
      Become(w.(files := w.files.(statics := CollectedStatics(attempt))));
      return Done;
    }

    // -------------------------------------------------------------- images

    method Tag(image: Image, reference: Reference) returns (s: Status)
      requires Valid()
      requires Open() || (w.plan.None? && !Committed(w.attempts, attempt)
                 && forall s :: s in cfg.services && cfg.reference(s) == reference ==> s in base.live.groups && base.live.groups[s].image == image)
      modifies this`w, this`trace, this`failures
      ensures old(failures) <= failures && (s.Raised? ==> old(failures) < failures)
      ensures Valid()
      ensures w == old(w) || w == old(w).(live := old(w).live.(tags := old(w).live.tags[reference := image]))
      ensures s.Done? ==> w == old(w).(live := old(w).live.(tags := old(w).live.tags[reference := image]))
    {
      hide Good;
      if * { failures := failures + 1; return Raised; }
      TagStep(cfg, base, attempt, w, reference, image);
      Become(w.(live := w.live.(tags := w.live.tags[reference := image])));
      if * { failures := failures + 1; return Raised; }
      return Done;
    }

    method Untag(reference: Reference)
      requires Valid() && forall s :: reference != cfg.reference(s)
      modifies this`w, this`trace
      ensures Valid()
      ensures w == old(w) || w == old(w).(live := old(w).live.(tags := old(w).live.tags - {reference}))
    {
      hide Good;
      if * { return; }
      UntagStep(cfg, base, attempt, w, reference);
      Become(w.(live := w.live.(tags := w.live.tags - {reference})));
    }

    // -------------------------------------------------------------- Nginx

    method NginxTest() returns (s: Status)
      requires Valid()
      ensures s.Done? ==> AllUp(w.live.groups, w.live.slots, w.live.upstream)
      modifies this`failures
      ensures old(failures) <= failures && (s.Raised? ==> old(failures) < failures || !AllUp(w.live.groups, w.live.slots, w.live.upstream))
    {
      hide Good;
      if * { failures := failures + 1; return Raised; }
      if !AllUp(w.live.groups, w.live.slots, w.live.upstream) { return Raised; }
      return Done;
    }

    /** A reload installs the file as it is, or keeps what was loaded; an unresolvable file is never installed. */
    method NginxReload() returns (s: Status)
      requires Valid() && MayRoute()
      modifies this`w, this`trace, this`failures
      ensures old(failures) <= failures && (s.Raised? ==> old(failures) < failures)
      ensures Valid()
      ensures w == old(w) || (AllUp(old(w).live.groups, old(w).live.slots, old(w).live.upstream) && w == old(w).(live := old(w).live.(loaded := old(w).live.upstream)))
      ensures s.Done? && AllUp(old(w).live.groups, old(w).live.slots, old(w).live.upstream) ==> w == old(w).(live := old(w).live.(loaded := old(w).live.upstream))
    {
      hide Good;
      if !AllUp(w.live.groups, w.live.slots, w.live.upstream) {
        if * { failures := failures + 1; return Raised; }
        return Done;
      }
      if * { failures := failures + 1; return Raised; }
      LoadStep(cfg, base, attempt, w);
      Become(w.(live := w.live.(loaded := w.live.upstream)));
      if * { failures := failures + 1; return Raised; }
      return Done;
    }

    // -------------------------------------------------------------- containers

    method StartSlot(t: Target) returns (s: Status)
      requires Valid() && w.plan.Some?
      requires t in w.plan.value.previous || t in w.plan.value.candidate
      modifies this`w, this`trace, this`failures
      ensures old(failures) <= failures
      ensures Valid()
      ensures w == old(w) || (t !in old(w).live.slots && w == old(w).(live := old(w).live.(slots := w.live.slots)) && w.live.slots.Keys == old(w).live.slots.Keys + {t} && w.live.slots - {t} == old(w).live.slots)
      ensures s.Done? ==> t in w.live.slots
      ensures w != old(w) ==>
                var r := cfg.reference(cfg.gunicorn); r in old(w).live.tags && t in w.live.slots && w.live.slots[t] == old(w).live.tags[r]
      ensures s.Done? ==> w != old(w)
    {
      hide Good;
      if * { failures := failures + 1; return Raised; }
      if t in w.live.slots || cfg.reference(cfg.gunicorn) !in w.live.tags { return Raised; }
      StartStep(cfg, base, attempt, w, t, w.live.tags[cfg.reference(cfg.gunicorn)]);
      Become(w.(live := w.live.(slots := w.live.slots[t := w.live.tags[cfg.reference(cfg.gunicorn)]])));
      if * { failures := failures + 1; return Raised; }
      return Done;
    }

    method RemoveSlot(t: Target) returns (s: Status)
      requires Valid() && t.Slot? && t.attempt == attempt
      requires t in w.live.slots ==> w.plan.Some? || (Committed(w.attempts, attempt) && !w.unsettled)
      requires Serving(w.live.groups, w.live.slots, w.live.loaded, {t})
      modifies this`w, this`trace, this`failures
      ensures old(failures) <= failures && (s.Raised? ==> old(failures) < failures)
      ensures Valid()
      ensures w == old(w) || w == old(w).(live := old(w).live.(slots := old(w).live.slots - {t}))
      ensures s.Done? ==> w == old(w).(live := old(w).live.(slots := old(w).live.slots - {t}))
    {
      hide Good;
      if * { failures := failures + 1; return Raised; }
      if t !in w.live.slots { assert w.live.slots - {t} == w.live.slots; return Done; }
      RemoveStep(cfg, base, attempt, w, t);
      Become(w.(live := w.live.(slots := w.live.slots - {t})));
      if * { failures := failures + 1; return Raised; }
      return Done;
    }

    /** One intermediate state of a recreation. */
    method Regroup(s: Service, groups: map<Service, Group>, lingering: set<Service>)
      requires Valid() && MayRecreate(s) && Serving(w.live.groups, w.live.slots, w.live.loaded, {Compose(s)})
      requires SameOutside(w.live.groups, groups, {s})
      requires lingering <= w.live.lingering + {s} && cfg.beat !in lingering && (s == cfg.beat ==> Schedulers(cfg, groups) <= 1)
      modifies this`w, this`trace
      ensures Valid()
      ensures w == old(w).(live := old(w).live.(groups := groups, lingering := lingering, nextIdentity := old(w).live.nextIdentity + 1))
      ensures Serving(w.live.groups, w.live.slots, w.live.loaded, {Compose(s)})
    {
      hide Good, Serving, SameOutside, ValidConfig;
      RecreateStep(cfg, base, attempt, w, s, groups, lingering, w.live.nextIdentity + 1);
      ServingStill(w.live.groups, groups, w.live.slots, w.live.loaded, s);
      Become(w.(live := w.live.(groups := groups, lingering := lingering, nextIdentity := w.live.nextIdentity + 1)));
    }

    /** `up --force-recreate` of one service: the old replicas may go first or linger beside the new ones. */
    method Recreate(s: Service, replicas: nat) returns (r: Status)
      requires Valid() && MayRecreate(s) && Serving(w.live.groups, w.live.slots, w.live.loaded, {Compose(s)})
      requires s == cfg.beat ==> s !in w.live.groups && replicas <= 1
      modifies this`w, this`trace, this`failures
      ensures old(failures) <= failures && (r.Raised? ==> old(failures) < failures || cfg.reference(s) !in old(w).live.tags)
      ensures Valid()
      ensures w == old(w).(live := old(w).live.(groups := w.live.groups, lingering := w.live.lingering, nextIdentity := w.live.nextIdentity))
      ensures SameOutside(old(w).live.groups, w.live.groups, {s})
      ensures Serving(w.live.groups, w.live.slots, w.live.loaded, {Compose(s)})
      ensures r.Done? ==>
                && s in w.live.groups && cfg.reference(s) in w.live.tags
                && w.live.groups[s].image == w.live.tags[cfg.reference(s)]
                && w.live.groups[s].replicas == replicas && w.live.groups[s].restarts == 0
                && w.live.groups[s].identity == old(w).live.nextIdentity
    {
      hide Good, Serving, SameOutside, ValidConfig;
      var replaced := w.live.groups[s := Group(if cfg.reference(s) in w.live.tags then w.live.tags[cfg.reference(s)] else 0, w.live.nextIdentity, replicas, 0)];
      GroupChanges(w.live.groups, s, replaced[s]);
      BeatAlone(cfg, base, attempt, w);
      if * { failures := failures + 1; return Raised; }
      if cfg.reference(s) !in w.live.tags { return Raised; }
      if s in w.live.groups {
        if * {
          Regroup(s, replaced, w.live.lingering + {s});
          if * { failures := failures + 1; return Raised; }
          Regroup(s, replaced, w.live.lingering - {s});
          return Done;
        }
        Regroup(s, w.live.groups - {s}, w.live.lingering);
        if * { failures := failures + 1; return Raised; }
      }
      Regroup(s, replaced, w.live.lingering);
      if * { failures := failures + 1; return Raised; }
      return Done;
    }

    method Stop(s: Service) returns (r: Status)
      requires Valid() && MayRecreate(s) && Serving(w.live.groups, w.live.slots, w.live.loaded, {Compose(s)})
      modifies this`w, this`trace, this`failures
      ensures old(failures) <= failures && (r.Raised? ==> old(failures) < failures)
      ensures Valid()
      ensures w == old(w).(live := old(w).live.(groups := w.live.groups, lingering := w.live.lingering, nextIdentity := w.live.nextIdentity))
      ensures SameOutside(old(w).live.groups, w.live.groups, {s})
      ensures Serving(w.live.groups, w.live.slots, w.live.loaded, {Compose(s)})
      ensures r.Done? ==> s !in w.live.groups
    {
      hide Good, Serving, SameOutside, ValidConfig;
      GroupChanges(w.live.groups, s, Group(0, 0, 0, 0));
      if * { failures := failures + 1; return Raised; }
      BeatAlone(cfg, base, attempt, w);
      Regroup(s, w.live.groups - {s}, w.live.lingering - {s});
      if * { failures := failures + 1; return Raised; }
      return Done;
    }
  }
}
