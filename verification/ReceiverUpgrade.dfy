/** The transactional receiver upgrade: snapshot, staged activation, restoration and recovery. */
module ReceiverUpgrade {
  import opened Wrappers
  import opened FileTree

  /** The fixed target list; the dispatcher, through which the forced command arrives, comes last. */
  const TARGETS: seq<Path> := [
    ["usr", "local", "lib", "buh-platform-v2"],
    ["etc", "buh-platform-v2"],
    ["usr", "local", "bin", "buh-github-observe-entry"],
    ["usr", "local", "sbin", "buh-github-observe-root"],
    ["usr", "local", "libexec", "buh-redact-diagnostics"],
    ["usr", "local", "sbin", "buh-platform-v2-receiver"],
    ["etc", "sudoers.d", "buh-platform-v2"],
    ["usr", "local", "sbin", "buh-deploy-dispatch"]]

  /** A temporary sibling of a target: the parent directory, and a dotted name. */
  function Sibling(i: nat, suffix: string): (p: Path)
    requires i < |TARGETS|
    ensures |p| == |TARGETS[i]|
  {
    TARGETS[i][..|TARGETS[i]| - 1] + ["." + TARGETS[i][|TARGETS[i]| - 1] + suffix]
  }

  lemma TargetsShape(i: nat)
    requires i < |TARGETS|
    ensures |TARGETS[i]| >= 2 && forall k :: 0 <= k < |TARGETS[i]| ==> TARGETS[i][k] != [] && TARGETS[i][k][0] != '.'
  {
    assert i in {0, 1, 2, 3, 4, 5, 6, 7};
  }

  lemma TargetsDisjoint(i: nat, j: nat)
    requires i < |TARGETS| && j < |TARGETS| && i != j
    ensures !(TARGETS[i] <= TARGETS[j])
  {
    assert i in {0, 1, 2, 3, 4, 5, 6, 7} && j in {0, 1, 2, 3, 4, 5, 6, 7};
    var k := |TARGETS[i]| - 1;
    assert |TARGETS[i]| <= |TARGETS[j]| ==> TARGETS[i][1] != TARGETS[j][1] || TARGETS[i][k - 1] != TARGETS[j][k - 1] || TARGETS[i][k] != TARGETS[j][k];
  }

  /** No temporary sibling lies in, or above, any target. */
  lemma SiblingsApart(i: nat, suffix: string, j: nat)
    requires i < |TARGETS| && j < |TARGETS|
    ensures !(Sibling(i, suffix) <= TARGETS[j]) && !(TARGETS[j] <= Sibling(i, suffix))
  {
    TargetsShape(i);
    TargetsShape(j);
    var p := Sibling(i, suffix);
    var n := |TARGETS[i]| - 1;
    assert |p| == n + 1 && p[n][0] == '.' && p[..n] == TARGETS[i][..n];
    if TARGETS[j] <= p && |TARGETS[j]| <= n {
      assert TARGETS[j] == p[..|TARGETS[j]|] == TARGETS[i][..|TARGETS[j]|];
      assert TARGETS[j] <= TARGETS[i];
      if i != j { TargetsDisjoint(j, i); }
    }
  }

  // ---------------------------------------------------------------- the targets in the file system

  /** What the eight targets hold. */
  function Live(root: Tree): (s: seq<Option<Tree>>)
    ensures |s| == |TARGETS| && forall i :: 0 <= i < |TARGETS| ==> s[i] == At(root, TARGETS[i])
  {
    seq(|TARGETS|, i requires 0 <= i < |TARGETS| => At(root, TARGETS[i]))
  }

  /** `_verify_target_parents`: every directory in which a target is renamed exists. */
  predicate Parents(root: Tree) {
    forall i :: 0 <= i < |TARGETS| ==> HasParent(root, TARGETS[i])
  }

  /** A file system in which targets may be replaced. */
  predicate Ready(root: Tree) {
    WellFormed(root) && Parents(root)
  }

  predicate Clear(q: Path) {
    forall i :: 0 <= i < |TARGETS| ==> !(TARGETS[i] <= q) && !(q <= TARGETS[i])
  }

  /** Outside the targets the two file systems differ at most below the paths of `scratch`. */
  ghost predicate SameBut(a: Tree, b: Tree, scratch: seq<Path>) {
    forall q: Path :: Clear(q) && (forall s :: s in scratch ==> !(s <= q)) ==> At(a, q) == At(b, q)
  }

  ghost predicate Temporary(q: Path) {
    exists i: nat, suffix: string :: i < |TARGETS| && Sibling(i, suffix) <= q
  }

  /** Outside the targets and their temporary siblings nothing differs. */
  ghost predicate Untouched(a: Tree, b: Tree) {
    forall q: Path :: Clear(q) && !Temporary(q) ==> At(a, q) == At(b, q)
  }

  ghost predicate Siblings(scratch: seq<Path>) {
    forall s :: s in scratch ==> exists i: nat, suffix: string :: i < |TARGETS| && s == Sibling(i, suffix)
  }

  lemma StillUntouched(origin: Tree, a: Tree, b: Tree, scratch: seq<Path>)
    requires Untouched(origin, a) && SameBut(a, b, scratch) && Siblings(scratch)
    ensures Untouched(origin, b)
  {
    forall q: Path | Clear(q) && !Temporary(q) ensures At(origin, q) == At(b, q) {
      forall s | s in scratch ensures !(s <= q) {
        var i: nat, suffix: string :| i < |TARGETS| && s == Sibling(i, suffix);
      }
      assert At(a, q) == At(b, q);
    }
  }

  lemma SiblingParent(root: Tree, i: nat, suffix: string)
    requires Parents(root) && i < |TARGETS|
    ensures HasParent(root, Sibling(i, suffix))
  {
    TargetsShape(i);
    var n := |TARGETS[i]| - 1;
    assert Sibling(i, suffix)[..n] == TARGETS[i][..n];
    SameParent(root, TARGETS[i], Sibling(i, suffix));
  }

  /** A path of which nothing lies below a target is apart from a temporary sibling, or below it. */
  lemma ClearOfSibling(q: Path, i: nat, suffix: string)
    requires Clear(q) && i < |TARGETS| && !(Sibling(i, suffix) <= q)
    ensures !(q <= Sibling(i, suffix))
  {
    TargetsShape(i);
  }

  /** Writing at a temporary sibling leaves every target, and everything else, as it was. */
  lemma WriteSibling(root: Tree, i: nat, suffix: string, node: Option<Tree>)
    requires Ready(root) && i < |TARGETS| && HasParent(root, Sibling(i, suffix)) && (node.Some? ==> WellFormed(node.value))
    ensures var next := Put(root, Sibling(i, suffix), node);
      && Ready(next) && Live(next) == Live(root) && At(next, Sibling(i, suffix)) == node
      && SameBut(root, next, [Sibling(i, suffix)])
  {
    hide At, HasParent, WellFormed, Put, Sibling;
    var p := Sibling(i, suffix);
    var next := Put(root, p, node);
    PutWellFormed(root, p, node);
    PutAt(root, p, node);
    forall j | 0 <= j < |TARGETS| ensures HasParent(next, TARGETS[j]) && At(next, TARGETS[j]) == At(root, TARGETS[j]) {
      SiblingsApart(i, suffix, j);
      PutParent(root, p, node, TARGETS[j]);
      PutApart(root, p, node, TARGETS[j]);
    }
    forall q: Path | Clear(q) && (forall s :: s in [p] ==> !(s <= q)) ensures At(next, q) == At(root, q) {
      assert p in [p];
      ClearOfSibling(q, i, suffix);
      PutApart(root, p, node, q);
    }
  }

  /** Writing at a target leaves every other target, every sibling, and everything else, as it was. */
  lemma WriteTarget(root: Tree, i: nat, node: Option<Tree>, suffix: string)
    requires Ready(root) && i < |TARGETS| && (node.Some? ==> WellFormed(node.value))
    ensures var next := Put(root, TARGETS[i], node);
      && Ready(next) && Live(next) == Live(root)[i := node] && SameBut(root, next, [])
      && HasParent(next, Sibling(i, suffix)) && At(next, Sibling(i, suffix)) == At(root, Sibling(i, suffix))
  {
    var next := Put(root, TARGETS[i], node);
    PutWellFormed(root, TARGETS[i], node);
    PutAt(root, TARGETS[i], node);
    forall j | 0 <= j < |TARGETS|
      ensures HasParent(next, TARGETS[j]) && (j != i ==> At(next, TARGETS[j]) == At(root, TARGETS[j]))
    {
      if j != i {
        TargetsDisjoint(i, j);
        TargetsDisjoint(j, i);
        PutApart(root, TARGETS[i], node, TARGETS[j]);
      }
      PutParent(root, TARGETS[i], node, TARGETS[j]);
    }
    forall q: Path | Clear(q) ensures At(next, q) == At(root, q) {
      PutApart(root, TARGETS[i], node, q);
    }
    SiblingsApart(i, suffix, i);
    PutApart(root, TARGETS[i], node, Sibling(i, suffix));
    SiblingParent(next, i, suffix);
  }

  /** What stands at the target and what stands at its sibling change places in one atomic step:
      an exchange, or a rename if one of them is absent. */
  function Exchange(root: Tree, i: nat, suffix: string): Tree
    requires Ready(root) && i < |TARGETS|
  {
    var sibling := Sibling(i, suffix);
    var incoming := At(root, sibling);
    assert incoming.Some? ==> WellFormed(incoming.value) by {
      if incoming.Some? { AtWellFormed(root, sibling); }
    }
    WriteTarget(root, i, incoming, suffix);
    Put(Put(root, TARGETS[i], incoming), sibling, At(root, TARGETS[i]))
  }

  lemma Exchanged(root: Tree, i: nat, suffix: string)
    requires Ready(root) && i < |TARGETS|
    ensures var next := Exchange(root, i, suffix);
      && Ready(next) && Live(next) == Live(root)[i := At(root, Sibling(i, suffix))]
      && At(next, Sibling(i, suffix)) == Live(root)[i] && SameBut(root, next, [Sibling(i, suffix)])
  {
    var sibling := Sibling(i, suffix);
    var incoming, outgoing := At(root, sibling), At(root, TARGETS[i]);
    if incoming.Some? { AtWellFormed(root, sibling); }
    if outgoing.Some? { AtWellFormed(root, TARGETS[i]); }
    WriteTarget(root, i, incoming, suffix);
    WriteSibling(Put(root, TARGETS[i], incoming), i, suffix, outgoing);
  }

  lemma Combine(a: Tree, b: Tree, c: Tree, s: seq<Path>, t: seq<Path>)
    requires SameBut(a, b, s) && SameBut(b, c, t)
    ensures SameBut(a, c, s + t)
  {
    forall q: Path | Clear(q) && (forall p :: p in s + t ==> !(p <= q)) ensures At(a, q) == At(c, q) {
      assert forall p :: p in s ==> p in s + t;
      assert forall p :: p in t ==> p in s + t;
      assert At(a, q) == At(b, q);
    }
  }

  ghost predicate AllAbsent(root: Tree, scratch: seq<Path>) {
    forall s :: s in scratch ==> At(root, s).None?
  }

  /** Scratch that was not there before and is not there any more leaves no trace. */
  lemma NoTrace(a: Tree, b: Tree, scratch: seq<Path>)
    requires SameBut(a, b, scratch) && AllAbsent(a, scratch) && AllAbsent(b, scratch)
    ensures SameBut(a, b, [])
  {
    forall q: Path | Clear(q) ensures At(a, q) == At(b, q) {
      if s :| s in scratch && s <= q {
        AbsentBelow(a, s, q);
        AbsentBelow(b, s, q);
      }
    }
  }

  lemma AbsentBefore(a: Tree, b: Tree, scratch: seq<Path>, q: Path)
    requires SameBut(a, b, scratch) && AllAbsent(a, scratch) && Clear(q) && At(b, q).None?
    ensures At(a, q).None?
  {
    if s :| s in scratch && s <= q {
      AbsentBelow(a, s, q);
    }
  }

  lemma StaysAbsent(a: Tree, b: Tree, p: Path, q: Path)
    requires SameBut(a, b, [p]) && At(b, p).None? && Clear(q) && At(a, q).None?
    ensures At(b, q).None?
  {
    if p <= q {
      AbsentBelow(b, p, q);
    }
  }

  lemma SiblingClear(i: nat, suffix: string)
    requires i < |TARGETS|
    ensures Clear(Sibling(i, suffix))
  {
    forall j | 0 <= j < |TARGETS| ensures !(TARGETS[j] <= Sibling(i, suffix)) && !(Sibling(i, suffix) <= TARGETS[j]) {
      SiblingsApart(i, suffix, j);
    }
  }

  /** The candidates of the first targets, in order. */
  function Candidates(suffixes: seq<string>): (r: seq<Path>)
    requires |suffixes| <= |TARGETS|
    ensures |r| == |suffixes| && forall k :: 0 <= k < |r| ==> r[k] == Sibling(k, suffixes[k])
  {
    seq(|suffixes|, k requires 0 <= k < |suffixes| => Sibling(k, suffixes[k]))
  }

  // ---------------------------------------------------------------- the disk

  /** Where the world lets an atomic write fail. */
  datatype Fault = Never | Before | After

  datatype Phase = BackupVerified | ActivationInProgress | Completed | NotActivated | RolledBack | RollbackFailed

  /** What survives the process: the file system, and the backup with one slot per target. */
  datatype Disk = Disk(
    root: Tree, payload: seq<Option<Tree>>, listings: seq<Option<seq<Entry>>>, transaction: Option<Phase>,
    misled: bool)   // history: recording completion raised and yet left `Completed` behind

  predicate RecoveryRequired(p: Option<Phase>) {
    p == Some(ActivationInProgress) || p == Some(RollbackFailed)
  }

  ghost predicate Slots(s: seq<Option<Tree>>) {
    |s| == |TARGETS| && forall i :: 0 <= i < |s| && s[i].Some? ==> WellFormed(s[i].value)
  }

  lemma LiveSlots(root: Tree)
    requires WellFormed(root)
    ensures Slots(Live(root))
  {
    forall i | 0 <= i < |TARGETS| && At(root, TARGETS[i]).Some? ensures WellFormed(At(root, TARGETS[i]).value) {
      AtWellFormed(root, TARGETS[i]);
    }
  }

  function ListingOf(t: Option<Tree>): Option<seq<Entry>> {
    if t.None? then None else Some(Listing(t.value))
  }

  /** The backup holds the snapshot, and its manifest the snapshot's listings. */
  ghost predicate Backed(snapshot: seq<Option<Tree>>, payload: seq<Option<Tree>>, listings: seq<Option<seq<Entry>>>) {
    && payload == snapshot && |snapshot| == |listings| == |TARGETS|
    && forall i :: 0 <= i < |TARGETS| ==> listings[i] == ListingOf(snapshot[i])
  }

  /** The transaction tells the truth about the live targets: they are the snapshot, or recovery is
      required, or completion is recorded and they are the committed staging, if nobody was misled. */
  ghost predicate Honest(snapshot: seq<Option<Tree>>, goal: seq<Option<Tree>>, d: Disk) {
    || RecoveryRequired(d.transaction)
    || Live(d.root) == snapshot
    || (d.transaction == Some(Completed) && (d.misled || Live(d.root) == goal))
  }

  /** The invariant of every instant. */
  ghost predicate Safe(origin: Tree, goal: seq<Option<Tree>>, d: Disk) {
    && WellFormed(d.root) && Untouched(origin, d.root)
    && (d.transaction.Some? ==> Backed(Live(origin), d.payload, d.listings))
    && Honest(Live(origin), goal, d)
  }

  /** Equal listings are equal targets. */
  lemma SameTargets(a: seq<Option<Tree>>, b: seq<Option<Tree>>)
    requires Slots(a) && Slots(b) && forall i :: 0 <= i < |TARGETS| ==> ListingOf(a[i]) == ListingOf(b[i])
    ensures a == b
  {
    forall i | 0 <= i < |TARGETS| ensures a[i] == b[i] {
      assert ListingOf(a[i]) == ListingOf(b[i]);
      if a[i].Some? { FaithfulListing(a[i].value, b[i].value); }
    }
  }

  class Upgrade {
    var d: Disk
    ghost var origin: Tree         // the file system when the upgrade began
    var goal: seq<Option<Tree>>    // what the installer staged
    var trace: seq<Disk>
    var faults: nat                // the steps that have failed, refused checks included

    ghost predicate Valid()
      reads this`d, this`origin, this`goal, this`trace
    {
      && WellFormed(origin) && Slots(goal) && |trace| > 0 && trace[|trace| - 1] == d
      && forall i :: 0 <= i < |trace| ==> Safe(origin, goal, trace[i])
    }

    ghost function Snapshot(): seq<Option<Tree>>
      reads this`origin
    {
      Live(origin)
    }

    constructor (root: Tree, staged: seq<Option<Tree>>)
      requires WellFormed(root) && Slots(staged)
      ensures Valid() && d == Disk(root, [], [], None, false) && origin == root && goal == staged && trace == [d]
    {
      d, origin, goal, faults := Disk(root, [], [], None, false), root, staged, 0;
      trace := [Disk(root, [], [], None, false)];
    }

    lemma Now()
      requires Valid()
      ensures Safe(origin, goal, d)
    {
      assert Safe(origin, goal, trace[|trace| - 1]);
    }

    method Become(next: Disk)
      requires Valid() && Safe(origin, goal, next)
      modifies this`d, this`trace
      ensures Valid() && d == next && trace == old(trace) + [next]
    {
      hide Safe, Slots, WellFormed;
      d := next;
      trace := trace + [next];
    }

    /** The process dies: some recorded instant is what the disk holds. */
    method Kill(k: nat)
      requires Valid() && k < |trace|
      modifies this`d, this`trace
      ensures Valid() && d == old(trace[k]) && trace == [d]
    {
      hide Safe, Slots, WellFormed;
      d := trace[k];
      trace := [d];
    }

    // -------------------------------------------------------------- the transaction record

    /** An atomic write: it may fail before the rename, or after it. */
    method Write(p: Phase, fault: Fault) returns (r: Status)
      requires Valid() && Safe(origin, goal, d.(transaction := Some(p)))
      modifies this`d, this`trace, this`faults
      ensures old(faults) <= faults
      ensures Valid() && d == if fault == Before then old(d) else old(d).(transaction := Some(p))
      ensures r == if fault == Never then Done else Raised
      ensures old(trace) <= trace && (r.Raised? ==> old(faults) < faults)
    {
      hide Safe, Slots, WellFormed;
      if fault != Never { faults := faults + 1; }
      if fault == Before { return Raised; }
      Become(d.(transaction := Some(p)));
      return if fault == After then Raised else Done;
    }

    /** `record`: a failed final record is replaced by a recovery requirement, if that can be written. */
    method Record(p: Phase, fault: Fault, correction: Fault) returns (r: Status)
      requires Valid() && Backed(Snapshot(), d.payload, d.listings)
      requires RecoveryRequired(Some(p)) || Live(d.root) == Snapshot() || (p == Completed && Live(d.root) == goal)
      modifies this`d, this`trace, this`faults
      ensures old(faults) <= faults
      ensures Valid() && old(trace) <= trace && r == if fault == Never then Done else Raised
      ensures r.Raised? ==> old(faults) < faults
      ensures var final := p == Completed || p == RolledBack;
        && d.transaction == (
          if fault != Never && final && correction != Before then Some(RollbackFailed)
          else if fault == Before then old(d).transaction
          else Some(p))
      ensures d == old(d).(transaction := d.transaction, misled := d.misled)
      ensures d.misled == (old(d).misled || (r.Raised? && p == Completed && d.transaction == Some(Completed)))
    {
      hide WellFormed, Untouched;
      Now();
      r := Write(p, fault);
      if r.Raised? {
        if p == Completed || p == RolledBack {
          Now();
          var corrected := Write(RollbackFailed, correction);
        }
        if p == Completed && d.transaction == Some(Completed) {
          Now();
          Become(d.(misled := true));
        }
      }
    }

    // -------------------------------------------------------------- the snapshot

    /** `_copy_tree` of one tree, refused unless the copy lists like its source. */
    method CopyTree(source: Tree) returns (r: Result<Tree>)
      requires WellFormed(source)
      modifies this`faults
      ensures old(faults) <= faults && (r.Err? ==> old(faults) < faults)
      ensures r.Ok? ==> r.value == source
    {
      if * { faults := faults + 1; return Err; }
      var copy: Tree :| WellFormed(copy);
      var wanted := Scan(source);
      var got := Scan(copy);
      if got != wanted { faults := faults + 1; return Err; }
      FaithfulListing(copy, source);
      return Ok(copy);
    }

    method Append(copy: Option<Tree>, listing: Option<seq<Entry>>)
      requires Valid() && d.transaction.None?
      modifies this`d, this`trace, this`faults
      ensures Valid() && old(trace) <= trace && old(faults) <= faults
      ensures d == old(d).(payload := old(d).payload + [copy], listings := old(d).listings + [listing])
    {
      hide WellFormed, Untouched;
      Now();
      Become(d.(payload := d.payload + [copy], listings := d.listings + [listing]));
    }

    /** One target of `create`: its copy and its listing. */
    method CopyTarget(i: nat) returns (r: Status)
      requires Valid() && d.transaction.None? && i < |TARGETS|
      modifies this`d, this`trace, this`faults
      ensures old(faults) <= faults
      ensures Valid() && old(trace) <= trace
      ensures r.Raised? ==> d == old(d) && old(faults) < faults
      ensures r.Done? ==> d == old(d).(
        payload := old(d).payload + [Live(d.root)[i]], listings := old(d).listings + [ListingOf(Live(d.root)[i])])
    {
      hide Valid, Safe, Slots, At;
      Shapes();
      var source := At(d.root, TARGETS[i]);
      if source.None? {
        Append(None, None);
      } else {
        var copied := CopyTree(source.value);
        if copied.Err? { return Raised; }
        var listing := Scan(source.value);
        Append(Some(copied.value), Some(listing));
      }
      return Done;
    }

    /** `create`: the live targets are copied and listed before anything else may happen. */
    method Create() returns (r: Status)
      requires Valid() && d.transaction.None? && Live(d.root) == Snapshot() && d.payload == [] && d.listings == []
      modifies this`d, this`trace, this`faults
      ensures old(faults) <= faults
      ensures Valid() && d == old(d).(payload := d.payload, listings := d.listings) && old(trace) <= trace
      ensures r.Done? ==> Backed(Snapshot(), d.payload, d.listings)
      ensures r.Raised? ==> old(faults) < faults
    {
      hide Valid, At, ListingOf;
      ghost var snapshot := Snapshot();
      var i := 0;
      while i < |TARGETS|
        invariant 0 <= i <= |TARGETS| && Valid() && d == old(d).(payload := d.payload, listings := d.listings)
        invariant old(trace) <= trace && old(faults) <= faults && d.payload == snapshot[..i] && |d.listings| == i
        invariant forall k :: 0 <= k < i ==> d.listings[k] == ListingOf(snapshot[k])
      {
        :- CopyTarget(i);
        i := i + 1;
      }
      return Done;
    }

    lemma Shapes()
      requires Valid()
      ensures WellFormed(d.root) && Slots(Live(d.root)) && Slots(Snapshot())
      ensures forall i :: 0 <= i < |TARGETS| && At(d.root, TARGETS[i]).Some? ==> WellFormed(At(d.root, TARGETS[i]).value)
    {
      Now();
      LiveSlots(d.root);
      LiveSlots(origin);
      assert forall i :: 0 <= i < |TARGETS| ==> Live(d.root)[i] == At(d.root, TARGETS[i]);
    }

    /** `verify` and `verify_live`: listings against listings, presence against presence. */
    method Matches(targets: seq<Option<Tree>>) returns (ok: bool)
      requires Valid() && Backed(Snapshot(), d.payload, d.listings) && Slots(targets)
      ensures ok <==> targets == Snapshot()
    {
      hide Safe, At;
      Shapes();
      var i := 0;
      while i < |TARGETS|
        invariant 0 <= i <= |TARGETS|
        invariant forall k :: 0 <= k < i ==> ListingOf(targets[k]) == ListingOf(Snapshot()[k])
      {
        if targets[i].Some? != d.listings[i].Some? { return false; }
        if targets[i].Some? {
          var listing := Scan(targets[i].value);
          if listing != d.listings[i].value { return false; }
        }
        i := i + 1;
      }
      SameTargets(targets, Snapshot());
      return true;
    }

    // -------------------------------------------------------------- live targets

    /** While this holds any target may differ from the snapshot. */
    ghost predicate MayReplace()
      reads this`d, this`origin, this`goal, this`trace
    {
      && Valid() && Ready(d.root) && Backed(Snapshot(), d.payload, d.listings)
      && (RecoveryRequired(d.transaction) || (d.misled && d.transaction == Some(Completed)))
    }

    /** The file system changes at the targets and below some of their siblings. */
    method Edit(root: Tree, ghost scratch: seq<Path>)
      requires MayReplace() && Ready(root) && SameBut(d.root, root, scratch) && Siblings(scratch)
      modifies this`d, this`trace, this`faults
      ensures old(faults) <= faults
      ensures MayReplace() && d == old(d).(root := root) && old(trace) <= trace
    {
      hide SameBut, Siblings, Parents, Untouched, WellFormed;
      Now();
      StillUntouched(origin, d.root, root, scratch);
      Become(d.(root := root));
    }

    method WriteBeside(i: nat, suffix: string, node: Option<Tree>)
      requires MayReplace() && i < |TARGETS| && (node.Some? ==> WellFormed(node.value))
      modifies this`d, this`trace, this`faults
      ensures old(faults) <= faults
      ensures MayReplace() && d == old(d).(root := d.root) && old(trace) <= trace
      ensures Live(d.root) == old(Live(d.root)) && At(d.root, Sibling(i, suffix)) == node
      ensures SameBut(old(d).root, d.root, [Sibling(i, suffix)])
    {
      hide Valid, WellFormed, At, Sibling, Put, Backed, SameBut, HasParent;
      SiblingParent(d.root, i, suffix);
      WriteSibling(d.root, i, suffix, node);
      Edit(Put(d.root, Sibling(i, suffix), node), [Sibling(i, suffix)]);
    }

    /** `_copy_tree` to a temporary sibling, and the comparison of the copy with its source. */
    method CopyBeside(i: nat, suffix: string, source: Tree) returns (r: Status)
      requires MayReplace() && i < |TARGETS| && WellFormed(source)
      modifies this`d, this`trace, this`faults
      ensures old(faults) <= faults
      ensures MayReplace() && d == old(d).(root := d.root) && old(trace) <= trace
      ensures Live(d.root) == old(Live(d.root)) && SameBut(old(d).root, d.root, [Sibling(i, suffix)])
      ensures r.Done? ==> At(d.root, Sibling(i, suffix)) == Some(source) && At(old(d).root, Sibling(i, suffix)).None?
      ensures r.Raised? ==> old(faults) < faults
    {
      hide Valid, WellFormed, Sibling, Backed, HasParent, Put, Live;
      if At(d.root, Sibling(i, suffix)).Some? { faults := faults + 1; return Raised; }
      var partial: Tree :| WellFormed(partial);
      WriteBeside(i, suffix, Some(partial));
      if * { faults := faults + 1; return Raised; }
      var copy: Tree :| WellFormed(copy);
      WriteBeside(i, suffix, Some(copy));
      var wanted := Scan(source);
      var got := Scan(copy);
      if got != wanted { faults := faults + 1; return Raised; }
      FaithfulListing(copy, source);
      return Done;
    }

    /** `_promote_candidate`, and the rename of a target that is to be retired: one atomic step. */
    method Promote(i: nat, suffix: string, fault: Fault) returns (r: Status)
      requires MayReplace() && i < |TARGETS|
      modifies this`d, this`trace, this`faults
      ensures old(faults) <= faults
      ensures MayReplace() && d == old(d).(root := d.root) && old(trace) <= trace
      ensures r == (if fault == Never then Done else Raised) && (fault == Before ==> d == old(d))
      ensures r.Raised? ==> old(faults) < faults
      ensures fault != Before ==>
        && Live(d.root) == old(Live(d.root))[i := At(old(d).root, Sibling(i, suffix))]
        && At(d.root, Sibling(i, suffix)) == Live(old(d).root)[i]
      ensures SameBut(old(d).root, d.root, [Sibling(i, suffix)])
    {
      hide Valid, WellFormed, At, Sibling, Put, Backed, HasParent, Exchange;
      if fault != Never { faults := faults + 1; }
      if fault == Before {
        Unchanged(d.root, [Sibling(i, suffix)]);
        return Raised;
      }
      Exchanged(d.root, i, suffix);
      Edit(Exchange(d.root, i, suffix), [Sibling(i, suffix)]);
      return if fault == After then Raised else Done;
    }

    /** `_remove`: a tree goes piece by piece. */
    method Discard(i: nat, suffix: string) returns (r: Status)
      requires MayReplace() && i < |TARGETS|
      modifies this`d, this`trace, this`faults
      ensures old(faults) <= faults
      ensures MayReplace() && d == old(d).(root := d.root) && old(trace) <= trace
      ensures Live(d.root) == old(Live(d.root)) && SameBut(old(d).root, d.root, [Sibling(i, suffix)])
      ensures r.Done? ==> At(d.root, Sibling(i, suffix)).None?
      ensures r.Raised? ==> old(faults) < faults
    {
      hide Valid, WellFormed, Sibling, Backed, HasParent, Put, Live;
      if At(d.root, Sibling(i, suffix)).None? { return Done; }
      if * { faults := faults + 1; return Raised; }
      var partial: Tree :| WellFormed(partial);
      WriteBeside(i, suffix, Some(partial));
      if * { faults := faults + 1; return Raised; }
      WriteBeside(i, suffix, None);
      return Done;
    }

    /** One present target of `restore`: candidate, comparison, exchange, comparison, removal. */
    method Replace(i: nat, source: Tree) returns (r: Status)
      requires MayReplace() && i < |TARGETS| && WellFormed(source)
      modifies this`d, this`trace, this`faults
      ensures old(faults) <= faults
      ensures MayReplace() && d == old(d).(root := d.root) && old(trace) <= trace
      ensures r.Done? ==> Live(d.root) == old(Live(d.root))[i := Some(source)] && SameBut(old(d).root, d.root, [])
      ensures r.Raised? ==> old(faults) < faults
    {
      hide Valid, WellFormed, Sibling, Backed, HasParent, SameBut, At;
      ghost var before := d.root;
      var suffix: string := *;
      :- CopyBeside(i, suffix, source);
      ghost var staged := d.root;
      var fault: Fault := *;
      :- Promote(i, suffix, fault);
      ghost var promoted := d.root;
      assert Live(promoted)[i] == Some(source) == At(promoted, TARGETS[i]);
      var wanted := Scan(source);
      var got := Scan(At(d.root, TARGETS[i]).value);
      if got != wanted { return Raised; }
      :- Discard(i, suffix);
      var p := Sibling(i, suffix);
      Combine(before, staged, promoted, [p], [p]);
      Combine(before, promoted, d.root, [p] + [p], [p]);
      NoTrace(before, d.root, [p] + [p] + [p]);
      return Done;
    }

    /** One absent target of `restore`: whatever stands there is renamed and removed. */
    method Retire(i: nat) returns (r: Status)
      requires MayReplace() && i < |TARGETS|
      modifies this`d, this`trace, this`faults
      ensures old(faults) <= faults
      ensures MayReplace() && d == old(d).(root := d.root) && old(trace) <= trace
      ensures r.Done? ==> Live(d.root) == old(Live(d.root))[i := None] && SameBut(old(d).root, d.root, [])
      ensures r.Raised? ==> old(faults) < faults
    {
      hide Valid, WellFormed, Sibling, Backed, HasParent, SameBut, At;
      ghost var before := d.root;
      var suffix: string := *;
      if At(d.root, TARGETS[i]).None? {
        assert Live(before)[i := None] == Live(before);
        Unchanged(before, []);
        return Done;
      }
      if At(d.root, Sibling(i, suffix)).Some? { faults := faults + 1; return Raised; }
      var fault: Fault := *;
      :- Promote(i, suffix, fault);
      ghost var promoted := d.root;
      :- Discard(i, suffix);
      var p := Sibling(i, suffix);
      Combine(before, promoted, d.root, [p], [p]);
      NoTrace(before, d.root, [p] + [p]);
      return Done;
    }

    lemma Unchanged(root: Tree, scratch: seq<Path>)
      ensures SameBut(root, root, scratch)
    {
    }

    /** `restore`: every target in turn, then a comparison of all of them. Where the parents of the targets exist it
        returns unless a step of its own fails. */
    method Restore() returns (r: Status)
      requires Valid() && Backed(Snapshot(), d.payload, d.listings)
      requires RecoveryRequired(d.transaction) || (d.misled && d.transaction == Some(Completed))
      modifies this`d, this`trace, this`faults
      ensures old(faults) <= faults
      ensures Valid() && d == old(d).(root := d.root) && old(trace) <= trace
      ensures r.Done? ==> Live(d.root) == Snapshot() && SameBut(old(d).root, d.root, [])
      ensures r.Raised? ==> old(faults) < faults || !Parents(old(d).root)
    {
      hide Safe, Sibling, HasParent, SameBut, At, WellFormed, Parents;
      Shapes();
      var backed := Matches(d.payload);
      if !backed || !Parents(d.root) { return Raised; }
      if * { faults := faults + 1; return Raised; }
      ghost var none: seq<Path> := [];
      var i := 0;
      Unchanged(d.root, []);
      while i < |TARGETS|
        invariant 0 <= i <= |TARGETS| && MayReplace() && d == old(d).(root := d.root)
        invariant old(trace) <= trace && old(faults) <= faults && SameBut(old(d).root, d.root, [])
        invariant forall k :: 0 <= k < i ==> Live(d.root)[k] == Snapshot()[k]
      {
        ghost var before := d.root;
        if d.listings[i].None? {
          :- Retire(i);
        } else {
          :- Replace(i, d.payload[i].value);
        }
        Combine(old(d).root, before, d.root, none, none);
        assert none + none == none;
        i := i + 1;
      }
      Shapes();
      var back := Matches(Live(d.root));
      if !back { return Raised; }
      if * { faults := faults + 1; return Raised; }
      return Done;
    }

    /** One target of `activate_staged`; its candidate is removed later. */
    method ActivateOne(i: nat, suffix: string, source: Tree) returns (r: Status, started: bool)
      requires MayReplace() && i < |TARGETS| && WellFormed(source)
      modifies this`d, this`trace, this`faults
      ensures old(faults) <= faults
      ensures MayReplace() && d == old(d).(root := d.root) && old(trace) <= trace
      ensures !started ==> r.Raised? && Live(d.root) == old(Live(d.root))
      ensures r.Raised? ==> old(faults) < faults
      ensures r.Done? ==> Live(d.root) == old(Live(d.root))[i := Some(source)] && At(old(d).root, Sibling(i, suffix)).None?
      ensures SameBut(old(d).root, d.root, [Sibling(i, suffix)])
    {
      hide Valid, WellFormed, Sibling, Backed, HasParent, At;
      started := false;
      r := CopyBeside(i, suffix, source);
      if r.Raised? { return; }
      started := true;
      var fault: Fault := *;
      r := Promote(i, suffix, fault);
      if r.Raised? { return; }
      if * { faults := faults + 1; return Raised, started; }
    }

    /** The `finally` of `activate_staged`. */
    method DiscardAll(suffixes: seq<string>) returns (r: Status)
      requires MayReplace() && |suffixes| <= |TARGETS|
      modifies this`d, this`trace, this`faults
      ensures old(faults) <= faults
      ensures MayReplace() && d == old(d).(root := d.root) && old(trace) <= trace
      ensures Live(d.root) == old(Live(d.root)) && SameBut(old(d).root, d.root, Candidates(suffixes))
      ensures r.Done? ==> AllAbsent(d.root, Candidates(suffixes))
      ensures r.Raised? ==> old(faults) < faults
    {
      hide Valid, WellFormed, Sibling, Backed, HasParent, At, Clear, Ready;
      var k := 0;
      while k < |suffixes|
        invariant 0 <= k <= |suffixes| && MayReplace() && d == old(d).(root := d.root) && old(trace) <= trace && old(faults) <= faults
        invariant Live(d.root) == old(Live(d.root)) && SameBut(old(d).root, d.root, Candidates(suffixes))
        invariant forall j :: 0 <= j < k ==> At(d.root, Sibling(j, suffixes[j])).None?
      {
        ghost var before := d.root;
        r := Discard(k, suffixes[k]);
        assert Sibling(k, suffixes[k]) in Candidates(suffixes);
        if r.Raised? { return; }
        forall j | 0 <= j < k ensures At(d.root, Sibling(j, suffixes[j])).None? {
          SiblingClear(j, suffixes[j]);
          StaysAbsent(before, d.root, Sibling(k, suffixes[k]), Sibling(j, suffixes[j]));
        }
        k := k + 1;
      }
      return Done;
    }

    /** `activate_staged`; `started` tells whether any live target was about to be replaced. */
    method Activate() returns (r: Status, started: bool)
      requires Valid() && Backed(Snapshot(), d.payload, d.listings) && d.transaction == Some(ActivationInProgress)
      modifies this`d, this`trace, this`faults
      ensures old(faults) <= faults
      ensures Valid() && d == old(d).(root := d.root) && old(trace) <= trace
      ensures !started ==> r.Raised? && Live(d.root) == old(Live(d.root))
      ensures r.Done? ==> Live(d.root) == goal && SameBut(old(d).root, d.root, [])
      ensures r.Raised? ==> old(faults) < faults || !Parents(old(d).root)
      ensures Parents(old(d).root) ==> Parents(d.root)
    {
      hide Safe, Slots, WellFormed, Sibling, HasParent, At, Clear, Parents, Backed, SameBut, AllAbsent;
      started := false;
      Shapes();
      if !Parents(d.root) { return Raised, started; }
      ghost var before := d.root;
      var suffixes;
      r, started, suffixes := PromoteAll();
      ghost var placed := d.root;
      var removed := DiscardAll(suffixes);
      if removed.Raised? || r.Raised? { return Raised, started; }
      Combine(before, placed, d.root, Candidates(suffixes), Candidates(suffixes));
      BothAbsent(before, Candidates(suffixes));
      BothAbsent(d.root, Candidates(suffixes));
      NoTrace(before, d.root, Candidates(suffixes) + Candidates(suffixes));
    }

    lemma BothAbsent(root: Tree, scratch: seq<Path>)
      requires AllAbsent(root, scratch)
      ensures AllAbsent(root, scratch + scratch)
    {
    }

    /** The loop of `activate_staged`, with the suffixes of the candidates to remove. */
    method PromoteAll() returns (r: Status, started: bool, suffixes: seq<string>)
      requires MayReplace()
      modifies this`d, this`trace, this`faults
      ensures old(faults) <= faults
      ensures MayReplace() && d == old(d).(root := d.root) && old(trace) <= trace && |suffixes| <= |TARGETS|
      ensures !started ==> r.Raised? && Live(d.root) == old(Live(d.root))
      ensures r.Raised? ==> old(faults) < faults
      ensures r.Done? ==> Live(d.root) == goal
      ensures r.Done? ==> SameBut(old(d).root, d.root, Candidates(suffixes)) && AllAbsent(old(d).root, Candidates(suffixes))
    {
      hide Valid, Slots, WellFormed, Sibling, HasParent, At, Clear, Ready, Backed, SameBut, AllAbsent, RecoveryRequired, Live;
      Staged();
      ghost var origin := d.root;
      started, suffixes, r := false, [], Done;
      Unchanged(origin, []);
      NoneAbsent(origin);
      while r.Done? && |suffixes| < |TARGETS|
        invariant |suffixes| <= |TARGETS| && MayReplace() && d == old(d).(root := d.root) && old(trace) <= trace
        invariant old(faults) <= faults && (r.Raised? ==> old(faults) < faults)
        invariant !started ==> Live(d.root) == Live(origin) && (r.Done? ==> suffixes == [])
        invariant r.Done? ==> forall k :: 0 <= k < |suffixes| ==> Live(d.root)[k] == goal[k]
        invariant r.Done? ==> SameBut(origin, d.root, Candidates(suffixes)) && AllAbsent(origin, Candidates(suffixes))
        decreases |TARGETS| - |suffixes|, r.Done?
      {
        var i := |suffixes|;
        if goal[i].None? {
          faults := faults + 1;
          r := Raised;
        } else {
          ghost var before := d.root;
          var suffix: string := *;
          ghost var prior := suffixes;
          suffixes := suffixes + [suffix];
          var begun;
          r, begun := ActivateOne(i, suffix, goal[i].value);
          started := started || begun;
          if r.Done? {
            assert suffixes[..i] == prior;
            NextCandidate(origin, before, d.root, suffixes);
          }
        }
      }
      assert r.Done? ==> Live(d.root) == goal;
    }

    lemma Staged()
      requires Valid()
      ensures |goal| == |TARGETS| && forall i :: 0 <= i < |goal| && goal[i].Some? ==> WellFormed(goal[i].value)
    {
    }

    lemma NoneAbsent(root: Tree)
      ensures AllAbsent(root, [])
    {
    }

    lemma NextCandidate(origin: Tree, before: Tree, after: Tree, suffixes: seq<string>)
      requires 0 < |suffixes| <= |TARGETS|
      requires var k := |suffixes| - 1;
        && SameBut(origin, before, Candidates(suffixes[..k])) && AllAbsent(origin, Candidates(suffixes[..k]))
        && SameBut(before, after, [Sibling(k, suffixes[k])]) && At(before, Sibling(k, suffixes[k])).None?
      ensures SameBut(origin, after, Candidates(suffixes)) && AllAbsent(origin, Candidates(suffixes))
    {
      hide SameBut, At, Sibling, Clear;
      var k := |suffixes| - 1;
      var p := Sibling(k, suffixes[k]);
      SiblingClear(k, suffixes[k]);
      AbsentBefore(origin, before, Candidates(suffixes[..k]), p);
      Combine(origin, before, after, Candidates(suffixes[..k]), [p]);
      assert Candidates(suffixes[..k]) + [p] == Candidates(suffixes);
    }

    /** The preflight of the new receiver: it may fail, and leave behind an application plan that cannot be resolved. */
    method Preflight() returns (r: Status, unresolved: bool)
      modifies this`faults
      ensures old(faults) <= faults && (r.Raised? ==> old(faults) < faults) && (r.Done? ==> !unresolved)
    {
      if * { return Done, false; }
      faults := faults + 1;
      unresolved := *;
      return Raised, unresolved;
    }

    /** The protected body of `execute_upgrade`. */
    method Install() returns (r: Status, started: bool, unresolved: bool)
      requires Valid() && Backed(Snapshot(), d.payload, d.listings) && Parents(d.root)
      requires d.transaction == Some(BackupVerified) && Live(d.root) == Snapshot() && !d.misled
      modifies this`d, this`trace, this`faults
      ensures old(faults) <= faults && (r.Raised? ==> old(faults) < faults) && Parents(d.root)
      ensures Valid() && d == old(d).(root := d.root, transaction := d.transaction, misled := d.misled) && old(trace) <= trace
      ensures !started ==> r.Raised? && Live(d.root) == Snapshot() && !d.misled && !unresolved
      ensures started && r.Raised? ==> RecoveryRequired(d.transaction) || (d.misled && d.transaction == Some(Completed))
      ensures r.Done? ==>
                Live(d.root) == goal && d.transaction == Some(Completed) && !d.misled && SameBut(old(d).root, d.root, [])
    {
      hide Safe, Slots, Backed, At, WellFormed, SameBut, HasParent, Parents;
      started, unresolved := false, false;
      if * { faults := faults + 1; return Raised, false, false; }
      Shapes();
      var same := Matches(Live(d.root));
      if !same { return Raised, false, false; }
      var fault: Fault, correction: Fault := *, *;
      r := Record(ActivationInProgress, fault, correction);
      if r.Raised? { return; }
      r, started := Activate();
      if r.Raised? { return; }
      if * { faults := faults + 1; return Raised, started, unresolved; }
      r, unresolved := Preflight();
      if r.Raised? { return; }
      if * { faults := faults + 1; return Raised, started, unresolved; }
      fault, correction := *, *;
      r := Record(Completed, fault, correction);
    }

    /** `execute_upgrade`: any failure after the first replaced target restores the snapshot. If no second step fails
        the snapshot is back, and that is on record unless the nested preflight left something unresolved. */
    method Execute() returns (r: Status, ghost started: bool, ghost unresolved: bool)
      requires Valid() && d.transaction.None? && Live(d.root) == Snapshot() && !d.misled && d.payload == [] && d.listings == []
      modifies this`d, this`trace, this`faults
      ensures Valid() && old(trace) <= trace && old(faults) <= faults
      ensures r.Done? ==>
                Live(d.root) == goal && d.transaction == Some(Completed) && !d.misled && SameBut(old(d).root, d.root, [])
      ensures r.Raised? ==> Live(d.root) == Snapshot() || RecoveryRequired(d.transaction) || (d.misled && d.transaction == Some(Completed))
      ensures r.Raised? ==> old(faults) < faults
      ensures r.Raised? && faults == old(faults) + 1 ==>
                && Live(d.root) == Snapshot()
                && (started ==> d.transaction == Some(if unresolved then RollbackFailed else RolledBack))
                && (!started ==> d.transaction.None? || d.transaction == Some(BackupVerified) || d.transaction == Some(NotActivated))
    {
      hide Safe, Slots, Backed, At, WellFormed, SameBut, HasParent, Parents;
      started, unresolved := false, false;
      if !Parents(d.root) {
        faults := faults + 1;
        return Raised, started, unresolved;
      }
      r := Create();
      if r.Raised? { return; }
      var fault: Fault, correction: Fault := *, *;
      r := Record(BackupVerified, fault, correction);
      if r.Raised? { return; }
      var promoted, open;
      r, promoted, open := Install();
      started, unresolved := promoted, open;
      if r.Done? { return; }
      fault, correction := *, *;
      if promoted {
        r := Restore();
        if r.Raised? {
          var noted := Record(RollbackFailed, fault, correction);
          return Raised, started, unresolved;
        }
        var recorded := Record(if open then RollbackFailed else RolledBack, fault, correction);
      } else {
        var recorded := Record(NotActivated, fault, correction);
      }
      return Raised, started, unresolved;
    }

    /** `recover_backup`: possible exactly while the transaction asks for it. */
    method Recover() returns (r: Status)
      requires Valid()
      modifies this`d, this`trace, this`faults
      ensures Valid() && d == old(d).(root := d.root, transaction := d.transaction) && old(trace) <= trace && old(faults) <= faults
      ensures !RecoveryRequired(old(d).transaction) ==> r.Raised? && d == old(d)
      ensures r.Done? ==> Live(d.root) == Snapshot() && d.transaction == Some(RolledBack) && SameBut(old(d).root, d.root, [])
      ensures r.Raised? ==> Live(d.root) == Snapshot() || RecoveryRequired(d.transaction) || d == old(d)
      ensures r.Raised? ==> old(faults) < faults || !RecoveryRequired(old(d).transaction) || !Parents(old(d).root)
    {
      hide Safe, Slots, Backed, At, WellFormed, SameBut, HasParent, Parents;
      if !RecoveryRequired(d.transaction) { return Raised; }
      Retained();
      if * { faults := faults + 1; return Raised; }
      var fault: Fault, correction: Fault := *, *;
      r := Restore();
      if r.Done? {
        if * { faults := faults + 1; r := Raised; } else { r := Record(RolledBack, fault, correction); }
      }
      if r.Raised? {
        fault, correction := *, *;
        var noted := Record(RollbackFailed, fault, correction);
      }
    }

    lemma Retained()
      requires Valid() && RecoveryRequired(d.transaction)
      ensures Backed(Snapshot(), d.payload, d.listings)
    {
      hide Untouched, WellFormed, At, Backed;
      Now();
    }
  }

  /** One upgrade, killed anywhere, and any number of recoveries, each killed anywhere or run to its end. */
  method Lifetime(u: Upgrade, recoveries: nat) returns (log: seq<Disk>)
    requires u.Valid() && u.d == Disk(u.origin, [], [], None, false) && u.trace == [u.d]
    modifies u
    ensures u.Valid() && u.origin == old(u.origin) && u.goal == old(u.goal)
    ensures log != [] && log[0] == old(u.d) && log[|log| - 1] == u.d
    ensures forall d :: d in log ==> Safe(u.origin, u.goal, d)
  {
    hide Safe, Slots, RecoveryRequired, WellFormed, At, SameBut;
    ghost var origin, goal := u.origin, u.goal;
    var r;
    ghost var started, unresolved;
    r, started, unresolved := u.Execute();
    Instants(u);
    log := u.trace;
    for i := 0 to recoveries
      invariant u.Valid() && u.origin == origin && u.goal == goal
      invariant log != [] && log[0] == old(u.d) && log[|log| - 1] == u.d
      invariant forall d :: d in log ==> Safe(origin, goal, d)
    {
      var k: nat := *;
      if k < |u.trace| { u.Kill(k); }
      r := u.Recover();
      Instants(u);
      log := log + u.trace;
    }
  }

  lemma Instants(u: Upgrade)
    requires u.Valid()
    ensures forall d :: d in u.trace ==> Safe(u.origin, u.goal, d)
  {
    hide Safe;
  }

  /** Any upgrade that changes the first target and another one can end with a false record: completion
      is recorded by a write that raises, the correction fails, the restoration stops after the first
      target, and its record fails as well. The disk holds neither version and recovery is refused. */
  method Misled(root: Tree, goal: seq<Option<Tree>>, ghost j: nat) returns (d: Disk, r: Status)
    requires Ready(root) && Slots(goal) && forall i :: 0 <= i < |TARGETS| ==> goal[i].Some?
    requires 0 < j < |TARGETS| && goal[0] != Live(root)[0] && goal[j] != Live(root)[j]
    ensures Safe(root, goal, d) && d.transaction == Some(Completed) && d.misled && r.Raised?
    ensures Live(d.root) != Live(root) && Live(d.root) != goal
  {
    hide Safe, At, WellFormed, Sibling, SameBut, Parents;
    ghost var snapshot := Live(root);
    LiveSlots(root);
    var u := Armed(root, goal);
    var i := 0;
    while i < |TARGETS|
      invariant 0 <= i <= |TARGETS| && u.MayReplace() && u.origin == root && u.goal == goal && !u.d.misled
      invariant u.d.transaction == Some(ActivationInProgress)
      invariant forall k :: 0 <= k < i ==> Live(u.d.root)[k] == goal[k]
      invariant fresh(u)
    {
      u.WriteBeside(i, ".buh-candidate-0", goal[i]);
      r := u.Promote(i, ".buh-candidate-0", Never);
      i := i + 1;
    }
    assert Live(u.d.root) == goal;
    for k := 0 to |TARGETS|
      invariant u.MayReplace() && u.origin == root && u.goal == goal && !u.d.misled
      invariant u.d.transaction == Some(ActivationInProgress) && Live(u.d.root) == goal && fresh(u)
    {
      u.WriteBeside(k, ".buh-candidate-0", None);
    }
    r := u.Record(Completed, After, Before);
    u.WriteBeside(0, ".buh-restore-0", Live(root)[0]);
    r := u.Promote(0, ".buh-restore-0", After);
    r := u.Record(RollbackFailed, Before, Before);
    assert Live(u.d.root)[0] == snapshot[0] && Live(u.d.root)[j] == goal[j];
    u.Now();
    r := u.Recover();
    d := u.d;
  }

  /** An upgrade whose backup is complete and whose activation is announced. */
  method Armed(root: Tree, goal: seq<Option<Tree>>) returns (u: Upgrade)
    requires Ready(root) && Slots(goal)
    ensures fresh(u) && u.MayReplace() && u.origin == root && u.goal == goal && !u.d.misled
    ensures u.d.transaction == Some(ActivationInProgress) && u.d.root == root
  {
    hide At, WellFormed, Untouched, Parents;
    var live := Live(root);
    u := new Upgrade(root, goal);
    u.Now();
    u.Become(u.d.(payload := live, listings := seq(|TARGETS|, i requires 0 <= i < |TARGETS| => ListingOf(live[i]))));
    u.Now();
    var r := u.Write(BackupVerified, Never);
    u.Now();
    r := u.Write(ActivationInProgress, Never);
  }

  /** Nobody is misled unless the record of completion failed after it was written. */
  lemma HonestTransaction(origin: Tree, goal: seq<Option<Tree>>, d: Disk)
    requires Safe(origin, goal, d) && Live(d.root) != Live(origin) && Live(d.root) != goal
    ensures RecoveryRequired(d.transaction) || (d.misled && d.transaction == Some(Completed))
    ensures d.transaction.Some? && Backed(Live(origin), d.payload, d.listings)
  {
  }
}
