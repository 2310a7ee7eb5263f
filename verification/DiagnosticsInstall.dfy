/** The diagnostics installer: a marker file makes the switch of release, units, timers and receipt all-or-nothing. */
module DiagnosticsInstall {
  import opened Wrappers

  datatype Timer = CollectTimer | PublishTimer
  datatype Service = CollectService | PublishService
  datatype Unit = TimerUnit(timer: Timer) | ServiceUnit(service: Service)

  const TIMERS: seq<Timer> := [CollectTimer, PublishTimer]
  const UNITS: seq<Unit> :=
    [ServiceUnit(CollectService), ServiceUnit(PublishService), TimerUnit(CollectTimer), TimerUnit(PublishTimer)]

  /** Where `current` points: a release by its manifest digest, or something this installer never made. */
  datatype Link = Release(digest: nat) | Elsewhere(text: string)

  /** A unit file holds the reviewed text, or something else. */
  datatype Content = Reviewed | Foreign(text: string)

  datatype Receipt = Receipt(digest: nat, installedAt: nat)

  /** `transaction.json` */
  datatype Transaction = Transaction(
    digest: nat, current: Option<Link>, receipt: Option<Receipt>, newUnits: seq<Unit>, enabled: set<Timer>)

  datatype Disk = Disk(
    releases: set<nat>, current: Option<Link>, receipt: Option<Receipt>,
    units: map<Unit, Content>, enabled: set<Timer>, marker: Option<Transaction>)

  /** A timer can only be enabled while its unit exists, and `current` names a staged release. */
  ghost predicate Coherent(d: Disk) {
    && (forall t :: t in d.enabled ==> TimerUnit(t) in d.units)
    && (d.current.Some? && d.current.value.Release? ==> d.current.value.digest in d.releases)
  }

  /** Nothing an operator can see differs. */
  predicate Same(b: Disk, d: Disk) {
    d.current == b.current && d.receipt == b.receipt && d.units == b.units && d.enabled == b.enabled
  }

  /** Exactly the new installation. */
  ghost predicate Installed(b: Disk, digest: nat, d: Disk) {
    && d.current == Some(Release(digest)) && d.receipt.Some? && d.receipt.value.digest == digest
    && (forall u :: u in UNITS ==> u in d.units && d.units[u] == Reviewed) && d.enabled == set t | t in TIMERS
    && forall u :: u in d.units ==> u in UNITS || (u in b.units && d.units[u] == b.units[u])
  }

  /** The marker records the state before, and all that changed since is what the marker names. */
  ghost predicate Covered(b: Disk, t: Transaction, d: Disk) {
    && t.current == b.current && t.receipt == b.receipt && t.enabled == b.enabled && t.digest in d.releases
    && (forall u :: u in t.newUnits <==> u in UNITS && u !in b.units)
    && (forall u :: u in b.units ==> u in d.units && d.units[u] == b.units[u])
    && (forall u :: u in d.units && u !in b.units ==> u in t.newUnits)
    && (forall u :: u in UNITS && u in b.units ==> b.units[u] == Reviewed)
    && (d.current == b.current || d.current == Some(Release(t.digest)))
  }

  /** The invariant of every instant. */
  ghost predicate Safe(b: Disk, digest: nat, d: Disk) {
    && Coherent(d) && Coherent(b) && b.releases <= d.releases
    && match d.marker
       case None => Same(b, d) || Installed(b, digest, d)
       case Some(t) => t.digest == digest && Covered(b, t, d)
  }

  /** A state of the disk, and the transaction it belongs to. */
  datatype Instant = Instant(before: Disk, digest: nat, disk: Disk)

  /** What a transaction compares itself with is the disk as some earlier instant had it. */
  ghost predicate Sourced(trace: seq<Instant>, i: nat)
    requires i < |trace|
  {
    trace[i].before == trace[0].before || exists j :: 0 <= j < i && trace[j].disk == trace[i].before
  }

  /** A history in which every instant is safe. */
  ghost predicate History(trace: seq<Instant>) {
    trace != [] && forall i :: 0 <= i < |trace| ==> Safe(trace[i].before, trace[i].digest, trace[i].disk) && Sourced(trace, i)
  }

  /** One more instant, of a transaction already seen or of one that begins with the present disk. */
  lemma HistoryGoesOn(trace: seq<Instant>, k: nat, next: Instant)
    requires History(trace) && k < |trace| && (next.before == trace[k].before || next.before == trace[|trace| - 1].disk)
    requires Safe(next.before, next.digest, next.disk)
    ensures History(trace + [next])
  {
    hide Safe;
    var all := trace + [next];
    forall i | 0 <= i < |all| ensures Safe(all[i].before, all[i].digest, all[i].disk) && Sourced(all, i) {
      if i < |trace| {
        assert Sourced(trace, i) && all[i] == trace[i];
        if j :| 0 <= j < i && trace[j].disk == trace[i].before { assert all[j] == trace[j]; }
      } else if next.before == trace[k].before {
        assert Sourced(trace, k);
        if j :| 0 <= j < k && trace[j].disk == trace[k].before { assert all[j] == trace[j]; }
      } else {
        assert all[|trace| - 1].disk == next.before;
      }
    }
  }

  class Installer {
    var d: Disk
    var before: Disk           // as it was when the current transaction's marker was written
    var digest: nat            // the payload of that transaction
    var trace: seq<Instant>    // every instant of the host, kills included
    var faults: nat            // the steps that have failed

    ghost predicate Valid()
      reads this`d, this`before, this`digest, this`trace
    {
      History(trace) && trace[|trace| - 1] == Instant(before, digest, d)
    }

    constructor (d: Disk)
      requires Coherent(d) && d.marker.None?
      ensures Valid() && this.d == d && before == d && trace == [Instant(d, 0, d)]
    {
      this.d, before, digest, faults := d, d, 0, 0;
      trace := [Instant(d, 0, d)];
    }

    lemma Ends()
      requires Valid()
      ensures trace != [] && trace[|trace| - 1] == Instant(before, digest, d)
    {
    }

    lemma Now()
      requires Valid()
      ensures Safe(before, digest, d)
    {
      assert Safe(trace[|trace| - 1].before, trace[|trace| - 1].digest, trace[|trace| - 1].disk);
    }

    method Become(next: Disk)
      requires Valid() && Safe(before, digest, next)
      modifies this`d, this`trace
      ensures Valid() && d == next && trace == old(trace) + [Instant(before, digest, next)]
    {
      hide Safe;
      HistoryGoesOn(trace, |trace| - 1, Instant(before, digest, next));
      d := next;
      trace := trace + [Instant(before, digest, next)];
    }

    /** The process dies: the disk is left as it was at instant `k`. */
    method Kill(k: nat)
      requires Valid() && k < |trace|
      modifies this`d, this`before, this`digest, this`trace
      ensures Valid() && Instant(before, digest, d) == old(trace[k]) && trace == old(trace) + [old(trace[k])]
    {
      hide Safe;
      HistoryGoesOn(trace, k, trace[k]);
      d, before, digest := trace[k].disk, trace[k].before, trace[k].digest;
      trace := trace + [trace[k]];
    }

    // -------------------------------------------------------------- steps under a marker

    /** `systemctl disable --now`, whose exit status is ignored: it works on a unit that exists. */
    method Disable(timer: Timer)
      requires Valid() && d.marker.Some?
      modifies this`d, this`trace, this`faults
      ensures old(trace) <= trace && old(faults) <= faults
      ensures Valid() && d == old(d).(enabled := old(d).enabled - {timer})
    {
      Now();
      Become(d.(enabled := d.enabled - {timer}));
    }

    method Enable(timer: Timer) returns (r: Status)
      requires Valid() && d.marker.Some?
      modifies this`d, this`trace, this`faults
      ensures old(trace) <= trace && old(faults) <= faults
      ensures Valid() && (d == old(d) || d == old(d).(enabled := old(d).enabled + {timer}))
      ensures r.Done? ==> d == old(d).(enabled := old(d).enabled + {timer})
      ensures r.Raised? ==> old(faults) < faults || TimerUnit(timer) !in d.units
    {
      Now();
      if * { faults := faults + 1; return Raised; }
      if TimerUnit(timer) !in d.units { return Raised; }
      Become(d.(enabled := d.enabled + {timer}));
      if * { faults := faults + 1; return Raised; }
      return Done;
    }

    /** `switch_current` */
    method SwitchCurrent(target: Option<Link>) returns (r: Status)
      requires Valid() && d.marker.Some?
      requires target == d.marker.value.current || target == Some(Release(d.marker.value.digest))
      modifies this`d, this`trace, this`faults
      ensures old(trace) <= trace && old(faults) <= faults
      ensures Valid() && (d == old(d) || d == old(d).(current := target))
      ensures r.Done? ==> d == old(d).(current := target)
      ensures r.Raised? ==> old(faults) < faults
    {
      Now();
      if * { faults := faults + 1; return Raised; }
      Become(d.(current := target));
      if * { faults := faults + 1; return Raised; }
      return Done;
    }

    method WriteUnit(u: Unit) returns (r: Status)
      requires Valid() && d.marker.Some? && u in d.marker.value.newUnits
      modifies this`d, this`trace, this`faults
      ensures old(trace) <= trace && old(faults) <= faults
      ensures Valid() && (d == old(d) || d == old(d).(units := old(d).units[u := Reviewed]))
      ensures r.Done? ==> d == old(d).(units := old(d).units[u := Reviewed])
      ensures r.Raised? ==> old(faults) < faults
    {
      Now();
      if * { faults := faults + 1; return Raised; }
      Become(d.(units := d.units[u := Reviewed]));
      if * { faults := faults + 1; return Raised; }
      return Done;
    }

    method UnlinkUnit(u: Unit) returns (r: Status)
      requires Valid() && d.marker.Some? && u in d.marker.value.newUnits && d.enabled == {}
      modifies this`d, this`trace, this`faults
      ensures old(trace) <= trace && old(faults) <= faults
      ensures Valid() && (d == old(d) || d == old(d).(units := old(d).units - {u}))
      ensures r.Done? ==> d == old(d).(units := old(d).units - {u})
      ensures r.Raised? ==> old(faults) < faults
    {
      Now();
      if * { faults := faults + 1; return Raised; }
      Become(d.(units := d.units - {u}));
      if * { faults := faults + 1; return Raised; }
      return Done;
    }

    method WriteReceipt(receipt: Option<Receipt>) returns (r: Status)
      requires Valid() && d.marker.Some?
      modifies this`d, this`trace, this`faults
      ensures old(trace) <= trace && old(faults) <= faults
      ensures Valid() && (d == old(d) || d == old(d).(receipt := receipt))
      ensures r.Done? ==> d == old(d).(receipt := receipt)
      ensures r.Raised? ==> old(faults) < faults
    {
      Now();
      if * { faults := faults + 1; return Raised; }
      Become(d.(receipt := receipt));
      if * { faults := faults + 1; return Raised; }
      return Done;
    }

    /** The commit point of a recovery as of an installation. */
    method UnlinkMarker() returns (r: Status)
      requires Valid() && d.marker.Some? && (Same(before, d) || Installed(before, digest, d))
      modifies this`d, this`trace, this`faults
      ensures old(trace) <= trace && old(faults) <= faults
      ensures Valid() && (d == old(d) || d == old(d).(marker := None))
      ensures r.Done? ==> d == old(d).(marker := None)
      ensures r.Raised? ==> old(faults) < faults
    {
      Now();
      if * { faults := faults + 1; return Raised; }
      Become(d.(marker := None));
      if * { faults := faults + 1; return Raised; }
      return Done;
    }

    // -------------------------------------------------------------- recovery

    /** Both timers are disabled; then no unit is needed by an enabled timer. */
    method DisableAll()
      requires Valid() && d.marker.Some?
      modifies this`d, this`trace, this`faults
      ensures old(trace) <= trace && old(faults) <= faults
      ensures Valid() && d == old(d).(enabled := {})
    {
      hide Safe;
      Disable(CollectTimer);
      Disable(PublishTimer);
      assert d.enabled == {} by {
        forall t: Timer ensures t !in d.enabled { assert t == CollectTimer || t == PublishTimer; }
      }
    }

    /** Every unit the installation added is removed. */
    method UnlinkNew() returns (r: Status)
      requires Valid() && d.marker.Some? && d.enabled == {}
      modifies this`d, this`trace, this`faults
      ensures old(trace) <= trace && old(faults) <= faults
      ensures Valid() && d == old(d).(units := d.units)
      ensures r.Done? ==> d.units == before.units
      ensures r.Raised? ==> old(faults) < faults
    {
      hide Valid;
      var names := d.marker.value.newUnits;
      var i := 0;
      while i < |names|
        invariant 0 <= i <= |names| && old(trace) <= trace && old(faults) <= faults && Valid() && d == old(d).(units := d.units)
        invariant forall k :: 0 <= k < i ==> names[k] !in d.units
      {
        :- UnlinkUnit(names[i]);
        i := i + 1;
      }
      UnitsBack();
      return Done;
    }

    lemma UnitsBack()
      requires Valid() && d.marker.Some? && forall u :: u in d.marker.value.newUnits ==> u !in d.units
      ensures d.units == before.units
    {
      Now();
      assert forall u :: u in d.units <==> u in before.units;
    }

    method EnableSet(timers: set<Timer>) returns (r: Status)
      requires Valid() && d.marker.Some? && d.enabled == {}
      modifies this`d, this`trace, this`faults
      ensures old(trace) <= trace && old(faults) <= faults
      ensures Valid() && d == old(d).(enabled := d.enabled)
      ensures r.Done? ==> d.enabled == timers
      ensures r.Raised? ==> old(faults) < faults || exists t :: t in timers && TimerUnit(t) !in d.units
    {
      hide Safe;
      if CollectTimer in timers { :- Enable(CollectTimer); }
      if PublishTimer in timers { :- Enable(PublishTimer); }
      assert d.enabled == timers by {
        forall t: Timer ensures t in d.enabled <==> t in timers { assert t == CollectTimer || t == PublishTimer; }
      }
      return Done;
    }

    /** `recover` */
    method Recover() returns (r: Status)
      requires Valid()
      modifies this`d, this`trace, this`faults
      ensures old(trace) <= trace && old(faults) <= faults
      ensures Valid()
      ensures old(d).marker.None? ==> r.Done? && d == old(d)
      ensures old(d).marker.Some? && old(d).marker.value.current.Some? && old(d).marker.value.current.value.Elsewhere? ==> r.Raised? && d == old(d)
      ensures r.Done? ==> d.marker.None?
      ensures r.Done? && old(d).marker.Some? ==> Same(before, d)
      ensures r.Raised? && !Unlinkable(old(d).marker) ==> old(faults) < faults
      ensures d.releases == old(d).releases
    {
      hide Safe;
      if d.marker.None? { return Done; }
      var t := d.marker.value;
      if * { faults := faults + 1; return Raised; }
      if t.current.Some? && t.current.value.Elsewhere? { return Raised; }
      MarkerTells();
      DisableAll();
      :- SwitchCurrent(t.current);
      :- UnlinkNew();
      TimersBack();
      if * { faults := faults + 1; return Raised; }
      :- EnableSet(t.enabled);
      :- WriteReceipt(t.receipt);
      r := UnlinkMarker();
    }

    /** With the units from before, every timer that was enabled before can be enabled. */
    lemma TimersBack()
      requires Valid() && d.marker.Some? && d.units == before.units
      ensures forall t :: t in d.marker.value.enabled ==> TimerUnit(t) in d.units
    {
      Now();
    }

    /** With the new units written, every timer can be enabled. */
    lemma TimersThere(names: seq<Unit>)
      requires Valid() && d.marker.Some? && names == d.marker.value.newUnits
      requires forall k :: 0 <= k < |names| ==> names[k] in d.units
      ensures forall t: Timer :: TimerUnit(t) in d.units
    {
      Now();
      forall t: Timer ensures TimerUnit(t) in d.units {
        assert t == CollectTimer || t == PublishTimer;
        assert UNITS[2] == TimerUnit(CollectTimer) && UNITS[3] == TimerUnit(PublishTimer);
        assert TimerUnit(t) in UNITS;
        if TimerUnit(t) !in before.units { var k :| 0 <= k < |names| && names[k] == TimerUnit(t); }
      }
    }

    lemma MarkerTells()
      requires Valid() && d.marker.Some?
      ensures var t := d.marker.value; t.current == before.current && t.receipt == before.receipt && t.enabled == before.enabled && t.digest == digest
    {
      Now();
    }

    // -------------------------------------------------------------- installation

    /** `stage`: the release appears in one rename. */
    method Stage(h: nat) returns (r: Status)
      requires Valid() && d.marker.None?
      modifies this`d, this`trace, this`faults
      ensures old(trace) <= trace && old(faults) <= faults
      ensures Valid() && (d == old(d) || d == old(d).(releases := old(d).releases + {h}))
      ensures r.Done? ==> d == old(d).(releases := old(d).releases + {h})
    {
      Now();
      if * { faults := faults + 1; return Raised; }
      if h in d.releases {
        assert d.releases + {h} == d.releases;
        return Done;
      }
      Become(d.(releases := d.releases + {h}));
      if * { faults := faults + 1; return Raised; }
      return Done;
    }

    method MissingUnits() returns (names: seq<Unit>)
      ensures forall u :: u in names <==> u in UNITS && u !in d.units
    {
      names := [];
      var i := 0;
      while i < |UNITS|
        invariant 0 <= i <= |UNITS|
        invariant forall u :: u in names <==> u in UNITS[..i] && u !in d.units
      {
        assert UNITS[..i + 1] == UNITS[..i] + [UNITS[i]];
        if UNITS[i] !in d.units { names := names + [UNITS[i]]; }
        i := i + 1;
      }
      assert UNITS[..i] == UNITS;
    }

    /** The marker is written before anything is switched; from here the state as it is now is what recovery restores. */
    method Mark(h: nat, names: seq<Unit>) returns (r: Status)
      requires Valid() && d.marker.None? && h in d.releases
      requires forall u :: u in names <==> u in UNITS && u !in d.units
      requires forall u :: u in UNITS && u in d.units ==> d.units[u] == Reviewed
      modifies this
      ensures old(trace) <= trace && old(faults) <= faults
      ensures Valid() && before == old(d) && digest == h
      ensures d == old(d) || d == old(d).(marker := Some(Transaction(h, old(d).current, old(d).receipt, names, old(d).enabled)))
      ensures r.Done? ==> d.marker.Some?
      ensures r.Raised? ==> old(faults) < faults
    {
      Now();
      HistoryGoesOn(trace, |trace| - 1, Instant(d, h, d));
      before, digest, trace := d, h, trace + [Instant(d, h, d)];
      if * { faults := faults + 1; return Raised; }
      Become(d.(marker := Some(Transaction(h, d.current, d.receipt, names, d.enabled))));
      if * { faults := faults + 1; return Raised; }
      return Done;
    }

    /** The protected body of `install`. */
    method Switch() returns (r: Status)
      requires Valid() && d.marker.Some?
      modifies this`d, this`trace, this`faults
      ensures old(trace) <= trace && old(faults) <= faults
      ensures Valid() && d.releases == old(d).releases
      ensures r.Done? ==> d.marker.None? && Installed(before, digest, d)
      ensures r.Raised? ==> old(faults) < faults && (if d.marker.None? then Installed(before, digest, d) else d.marker == old(d).marker)
    {
      hide Safe, Installed;
      MarkerTells();
      DisableAll();
      var names := d.marker.value.newUnits;
      var i := 0;
      while i < |names|
        invariant 0 <= i <= |names| && old(trace) <= trace && old(faults) <= faults && Valid() && d == old(d).(units := d.units, enabled := {})
        invariant forall k :: 0 <= k < i ==> names[k] in d.units && d.units[names[k]] == Reviewed
      {
        :- WriteUnit(names[i]);
        i := i + 1;
      }
      if * { faults := faults + 1; return Raised; }
      :- SwitchCurrent(Some(Release(d.marker.value.digest)));
      if * { faults := faults + 1; return Raised; }
      TimersThere(names);
      :- EnableSet(set t | t in TIMERS);
      var at: nat :| true;
      :- WriteReceipt(Some(Receipt(d.marker.value.digest, at)));
      ghost var switched := d;
      AllSwitched(names);
      r := UnlinkMarker();
      if d.marker.None? { StillInstalled(before, digest, switched, d); }
    }

    lemma AllSwitched(names: seq<Unit>)
      requires Valid() && d.marker.Some? && names == d.marker.value.newUnits
      requires forall k :: 0 <= k < |names| ==> names[k] in d.units && d.units[names[k]] == Reviewed
      requires d.current == Some(Release(digest)) && d.receipt.Some? && d.receipt.value.digest == digest
      requires d.enabled == set t | t in TIMERS
      ensures Installed(before, digest, d)
    {
      Now();
      forall u | u in UNITS ensures u in d.units && d.units[u] == Reviewed {
        if u !in before.units {
          var k :| 0 <= k < |names| && names[k] == u;
        }
      }
    }

    lemma StillInstalled(b: Disk, h: nat, w: Disk, x: Disk)
      requires Installed(b, h, w) && x == w.(marker := None)
      ensures Installed(b, h, x)
    {
    }

    /** `install`: a failure after the marker is recovered at once, a kill by the next run. If at most one step fails,
        a raise leaves the host as it was, unless the step that failed was the very last one, after which the
        installation is complete; the one exception is a host whose `current` link no release owns. */
    method Install(h: nat) returns (r: Status)
      requires Valid()
      modifies this
      ensures old(trace) <= trace && old(faults) <= faults
      ensures Valid()
      ensures r.Done? ==> d.marker.None? && digest == h && Installed(before, h, d)
      ensures old(d).marker.None? && old(d).receipt.Some? && old(d).receipt.value.digest == h ==> r.Raised? && d == old(d)
      ensures old(d).marker.None? && r.Raised? && faults <= old(faults) + 1 && !(old(d).current.Some? && old(d).current.value.Elsewhere?) ==>
                Same(old(d), d) || (d.marker.None? && digest == h && Installed(before, h, d))
    {
      hide Safe, Installed;
      if * { faults := faults + 1; return Raised; }
      if d.marker.Some? { :- Recover(); }
      if d.receipt.Some? && d.receipt.value.digest == h { return Raised; }
      :- Stage(h);
      if * { faults := faults + 1; return Raised; }
      var names := MissingUnits();
      if exists u :: u in UNITS && u in d.units && d.units[u] != Reviewed { return Raised; }
      :- Mark(h, names);
      r := Switch();
      if r.Raised? {
        var recovered := Recover();
      }
    }
  }

  /** A marker whose previous link no release owns; recovery refuses it. */
  predicate Unlinkable(marker: Option<Transaction>) {
    marker.Some? && marker.value.current.Some? && marker.value.current.value.Elsewhere?
  }

  datatype Command = InstallPayload(digest: nat) | RecoverNow

  /** What a command that ran on, with this many failed steps, makes of the instant it finds. */
  ghost predicate Ran(c: Command, r: Status, failed: nat, start: Instant, end: Instant) {
    match c
    case InstallPayload(h) =>
      && (r.Done? ==> end.disk.marker.None? && end.digest == h && Installed(end.before, h, end.disk))
      && (start.disk.marker.None? && start.disk.receipt.Some? && start.disk.receipt.value.digest == h ==> r.Raised? && end.disk == start.disk)
      && (start.disk.marker.None? && r.Raised? && failed <= 1 && !(start.disk.current.Some? && start.disk.current.value.Elsewhere?) ==>
            Same(start.disk, end.disk) || (end.disk.marker.None? && end.digest == h && Installed(end.before, h, end.disk)))
    case RecoverNow =>
      && end.before == start.before && end.disk.releases == start.disk.releases
      && (start.disk.marker.None? ==> r.Done? && end.disk == start.disk)
      && (r.Done? ==> end.disk.marker.None? && (start.disk.marker.Some? ==> Same(start.before, end.disk)))
      && (r.Raised? && !Unlinkable(start.disk.marker) ==> failed > 0)
  }

  /** One command: the instants it found and ended with, its result and the number of its failed steps if it was left
      running, and the instant at which it ended or was killed. */
  datatype Visit = Visit(command: Command, from: nat, to: nat, result: Status, failed: nat, stop: nat)

  /** The instant from which the next command starts. */
  function Next(start: nat, visits: seq<Visit>): nat {
    if visits == [] then start else visits[|visits| - 1].to + 1
  }

  ghost predicate Fits(trace: seq<Instant>, v: Visit) {
    v.from <= v.stop <= v.to && v.to + 1 < |trace| && trace[v.to + 1] == trace[v.stop] && Ran(v.command, v.result, v.failed, trace[v.from], trace[v.to])
  }

  /** Each command starts where the one before it ended or was killed. */
  ghost predicate Visited(trace: seq<Instant>, start: nat, commands: seq<Command>, visits: seq<Visit>) {
    && |visits| == |commands|
    && forall i :: 0 <= i < |visits| ==>
         visits[i].command == commands[i] && visits[i].from == Next(start, visits[..i]) && Fits(trace, visits[i])
  }

  lemma FitsStill(trace: seq<Instant>, more: seq<Instant>, v: Visit)
    requires Fits(trace, v) && trace <= more
    ensures Fits(more, v)
  {
    hide Ran;
    assert more[v.from] == trace[v.from] && more[v.to] == trace[v.to] && more[v.to + 1] == trace[v.to + 1] && more[v.stop] == trace[v.stop];
  }

  lemma VisitedMore(trace: seq<Instant>, more: seq<Instant>, start: nat, commands: seq<Command>, visits: seq<Visit>, c: Command, v: Visit)
    requires Visited(trace, start, commands, visits) && trace <= more
    requires v.command == c && v.from == Next(start, visits) && Fits(more, v)
    ensures Visited(more, start, commands + [c], visits + [v])
  {
    hide Ran, Fits;
    var all := visits + [v];
    forall i | 0 <= i < |all|
      ensures all[i].command == (commands + [c])[i] && all[i].from == Next(start, all[..i]) && Fits(more, all[i])
    {
      if i < |visits| {
        assert all[..i] == visits[..i] && all[i] == visits[i];
        FitsStill(trace, more, visits[i]);
      } else {
        assert all[..i] == visits;
      }
    }
  }

  /** Any history of installations and recoveries, each killed at any instant or run to its end. */
  method Lifetime(x: Installer, commands: seq<Command>) returns (visits: seq<Visit>)
    requires x.Valid()
    modifies x
    ensures x.Valid() && old(x.trace) <= x.trace && History(x.trace)
    ensures Visited(x.trace, |old(x.trace)| - 1, commands, visits) && Next(|old(x.trace)| - 1, visits) == |x.trace| - 1
  {
    hide Safe, History, Sourced, Ran, Visited, Next, Fits;
    x.Ends();
    ghost var first := |x.trace| - 1;
    visits := [];
    NoVisits(x.trace, first);
    var i := 0;
    while i < |commands|
      invariant 0 <= i <= |commands| && x.Valid() && old(x.trace) <= x.trace && Visited(x.trace, first, commands[..i], visits)
      invariant Next(first, visits) == |x.trace| - 1
    {
      ghost var before := x.trace;
      var v := Run(x, commands[i]);
      VisitedMore(before, x.trace, first, commands[..i], visits, commands[i], v);
      assert commands[..i + 1] == commands[..i] + [commands[i]];
      Following(first, visits, v);
      visits := visits + [v];
      i := i + 1;
    }
    assert commands[..i] == commands;
  }

  lemma NoVisits(trace: seq<Instant>, start: nat)
    ensures Visited(trace, start, [], []) && Next(start, []) == start
  {
  }

  lemma Following(start: nat, visits: seq<Visit>, v: Visit)
    ensures Next(start, visits + [v]) == v.to + 1
  {
  }

  /** One command, killed at any instant or run to its end. */
  method Run(x: Installer, c: Command) returns (v: Visit)
    requires x.Valid()
    modifies x
    ensures x.Valid() && old(x.trace) <= x.trace
    ensures v.command == c && v.from == |old(x.trace)| - 1 && v.to + 1 == |x.trace| - 1 && Fits(x.trace, v)
  {
    hide Safe, History, Sourced, Installed, Same;
    x.Ends();
    var from, r, faults := |x.trace| - 1, Done, x.faults;
    match c {
      case InstallPayload(h) => r := x.Install(h);
      case RecoverNow => r := x.Recover();
    }
    x.Ends();
    var to := |x.trace| - 1;
    var k: int := *;
    if !(from <= k <= to) { k := to; }
    ghost var ran := x.trace;
    x.Kill(k);
    assert x.trace[from] == ran[from] && x.trace[to] == ran[to] && x.trace[k] == ran[k];
    return Visit(c, from, to, r, x.faults - faults, k);
  }

  /** All-or-nothing: without a marker the host is as before or exactly the new installation, and `current`
      names a staged release throughout. */
  lemma AllOrNothing(b: Disk, h: nat, d: Disk)
    requires Safe(b, h, d)
    ensures d.marker.None? ==> Same(b, d) || Installed(b, h, d)
    ensures d.current.Some? && d.current.value.Release? ==> d.current.value.digest in d.releases
    ensures d.marker.Some? ==> d.marker.value.digest in d.releases && (d.current == b.current || d.current == Some(Release(h)))
  {
  }
}
