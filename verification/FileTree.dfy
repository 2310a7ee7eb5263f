/** File trees without symbolic links, and the listing by which two of them are compared. */
module FileTree {
  import opened Sequences
  import opened Wrappers

  datatype Meta = Meta(mode: nat, uid: nat, gid: nat)

  /** Content stands for its digest: digests are taken to be injective. */
  datatype Tree = File(meta: Meta, content: string) | Directory(meta: Meta, children: seq<Child>)
  datatype Child = Child(name: string, node: Tree)

  /** Components below the scanned root. */
  type Path = seq<string>

  datatype Entry = Entry(path: Path, meta: Meta, content: Option<string>)

  // ---------------------------------------------------------------- name order

  /** The order of Python strings. */
  predicate Less(a: string, b: string) {
    b != [] && (a == [] || a[0] < b[0] || (a[0] == b[0] && Less(a[1..], b[1..])))
  }

  lemma {:induction false} LessIsOrder(a: string, b: string, c: string)
    ensures !Less(a, a) && (Less(a, b) ==> !Less(b, a)) && (Less(a, b) && Less(b, c) ==> Less(a, c))
  {
    if a != [] && b != [] && c != [] {
      LessIsOrder(a[1..], b[1..], c[1..]);
    } else if a != [] && b != [] {
      LessIsOrder(a[1..], b[1..], []);
    } else if a != [] {
      LessIsOrder(a[1..], [], []);
    }
  }

  predicate Sorted(children: seq<Child>) {
    forall i, j :: 0 <= i < j < |children| ==> Less(children[i].name, children[j].name)
  }

  /** Every directory lists each name once, in order: the form in which equal trees are equal values. */
  predicate WellFormed(t: Tree) {
    t.Directory? ==> Sorted(t.children) && forall c :: c in t.children ==> WellFormed(c.node)
  }

  // ---------------------------------------------------------------- lookup

  function Find(children: seq<Child>, name: string): (r: Option<Tree>)
    ensures r.Some? ==> Child(name, r.value) in children
    ensures r.None? ==> forall c :: c in children ==> c.name != name
  {
    if children == [] then None
    else if children[0].name == name then Some(children[0].node)
    else Find(children[1..], name)
  }

  function At(t: Tree, p: Path): Option<Tree>
    decreases p
  {
    if p == [] then Some(t)
    else if t.File? then None
    else match Find(t.children, p[0])
      case None => None
      case Some(c) => At(c, p[1..])
  }

  // ---------------------------------------------------------------- change

  /** The children with `node` under `name`, or with nothing there. */
  function SetChild(children: seq<Child>, name: string, node: Option<Tree>): seq<Child> {
    var here := if node.Some? then [Child(name, node.value)] else [];
    if children == [] then here
    else if children[0].name == name then here + children[1..]
    else if Less(name, children[0].name) then here + children
    else [children[0]] + SetChild(children[1..], name, node)
  }

  /** The directory in which `p` would be an entry exists. */
  predicate HasParent(t: Tree, p: Path)
    decreases p
  {
    p != [] && t.Directory? && (|p| == 1 || (Find(t.children, p[0]).Some? && HasParent(Find(t.children, p[0]).value, p[1..])))
  }

  /** The tree with `node` at `p`, or with nothing there. */
  function Put(t: Tree, p: Path, node: Option<Tree>): Tree
    requires HasParent(t, p)
    decreases p
  {
    var child := if |p| == 1 then node else Some(Put(Find(t.children, p[0]).value, p[1..], node));
    t.(children := SetChild(t.children, p[0], child))
  }

  lemma {:induction false} LessTotal(a: string, b: string)
    ensures a == b || Less(a, b) || Less(b, a)
  {
    if a != [] && b != [] && a[0] == b[0] {
      LessTotal(a[1..], b[1..]);
      assert a == [a[0]] + a[1..] && b == [b[0]] + b[1..];
    }
  }

  lemma {:induction false} SetChildSorted(children: seq<Child>, name: string, node: Option<Tree>)
    requires Sorted(children)
    ensures Sorted(SetChild(children, name, node))
    ensures forall c :: c in SetChild(children, name, node) ==> c in children || (node.Some? && c == Child(name, node.value))
  {
    if children != [] {
      var first := children[0];
      LessTotal(name, first.name);
      if Less(name, first.name) {
        forall c | c in children ensures Less(name, c.name) {
          LessIsOrder(name, first.name, c.name);
        }
      } else if name != first.name {
        SetChildSorted(children[1..], name, node);
        var rest := SetChild(children[1..], name, node);
        forall c | c in rest ensures Less(first.name, c.name) {
        }
      }
    }
  }

  lemma FindCons(first: Child, rest: seq<Child>, other: string)
    ensures Find([first] + rest, other) == if first.name == other then Some(first.node) else Find(rest, other)
    ensures Find([], other).None?
  {
    assert ([first] + rest)[1..] == rest;
  }

  /** No later child has a name up to that of the first. */
  lemma AbsentAfter(children: seq<Child>, name: string)
    requires Sorted(children) && children != [] && (name == children[0].name || Less(name, children[0].name))
    ensures Find(children[1..], name).None? && (name != children[0].name ==> Find(children, name).None?)
  {
    hide Less;
    var first := children[0];
    forall c | c in children[1..] ensures c.name != name {
      var i :| 0 < i < |children| && children[i] == c;
      LessIsOrder(first.name, c.name, first.name);
      LessIsOrder(name, first.name, c.name);
      LessIsOrder(name, name, name);
    }
  }

  lemma {:induction false} SetChildFind(children: seq<Child>, name: string, node: Option<Tree>, other: string)
    requires Sorted(children)
    ensures Find(SetChild(children, name, node), other) == if other == name then node else Find(children, other)
  {
    hide Find, Less;
    var here := if node.Some? then [Child(name, node.value)] else [];
    if children == [] {
      SetHere(here, [], name, node, other);
      assert here + [] == here;
    } else {
      var first, rest := children[0], children[1..];
      assert children == [first] + rest;
      FindCons(first, rest, other);
      if name == first.name {
        AbsentAfter(children, name);
        SetHere(here, rest, name, node, other);
      } else if Less(name, first.name) {
        AbsentAfter(children, name);
        SetHere(here, children, name, node, other);
      } else {
        SetChildFind(rest, name, node, other);
        FindCons(first, SetChild(rest, name, node), other);
      }
    }
  }

  lemma SetHere(here: seq<Child>, kept: seq<Child>, name: string, node: Option<Tree>, other: string)
    requires here == if node.Some? then [Child(name, node.value)] else []
    requires kept == [] || Find(kept, name).None?
    ensures Find(here + kept, other) == if other == name then node else Find(kept, other)
    ensures Find([], other).None?
  {
    if node.Some? {
      FindCons(Child(name, node.value), kept, other);
    } else {
      assert here + kept == kept;
    }
  }

  lemma {:induction false} PutWellFormed(t: Tree, p: Path, node: Option<Tree>)
    requires WellFormed(t) && HasParent(t, p) && (node.Some? ==> WellFormed(node.value))
    ensures WellFormed(Put(t, p, node))
    decreases p
  {
    if |p| > 1 {
      PutWellFormed(Find(t.children, p[0]).value, p[1..], node);
    }
    var child := if |p| == 1 then node else Some(Put(Find(t.children, p[0]).value, p[1..], node));
    SetChildSorted(t.children, p[0], child);
  }

  /** What was put is there. */
  lemma {:induction false} PutAt(t: Tree, p: Path, node: Option<Tree>)
    requires WellFormed(t) && HasParent(t, p)
    ensures At(Put(t, p, node), p) == node
    decreases p
  {
    var child := if |p| == 1 then node else Some(Put(Find(t.children, p[0]).value, p[1..], node));
    SetChildFind(t.children, p[0], child, p[0]);
    if |p| > 1 {
      PutAt(Find(t.children, p[0]).value, p[1..], node);
    }
  }

  /** Nothing changes at a path that neither lies in the other nor contains it. */
  lemma {:induction false} PutApart(t: Tree, p: Path, node: Option<Tree>, q: Path)
    requires WellFormed(t) && HasParent(t, p) && !(p <= q) && !(q <= p)
    ensures At(Put(t, p, node), q) == At(t, q)
    decreases p
  {
    var child := if |p| == 1 then node else Some(Put(Find(t.children, p[0]).value, p[1..], node));
    SetChildFind(t.children, p[0], child, q[0]);
    if p[0] == q[0] {
      assert p == [p[0]] + p[1..] && q == [q[0]] + q[1..];
      PutApart(Find(t.children, p[0]).value, p[1..], node, q[1..]);
    }
  }

  /** A directory stays one unless it lies in what was replaced. */
  lemma {:induction false} PutParent(t: Tree, p: Path, node: Option<Tree>, q: Path)
    requires WellFormed(t) && HasParent(t, p) && HasParent(t, q) && (p == q || !(p <= q))
    ensures HasParent(Put(t, p, node), q)
    decreases p
  {
    var child := if |p| == 1 then node else Some(Put(Find(t.children, p[0]).value, p[1..], node));
    SetChildFind(t.children, p[0], child, q[0]);
    if |q| > 1 && p[0] == q[0] {
      assert p == [p[0]] + p[1..] && q == [q[0]] + q[1..];
      if |p| > 1 {
        PutParent(Find(t.children, p[0]).value, p[1..], node, q[1..]);
      }
    }
  }

  /** Two entries of one directory have the same parent. */
  lemma {:induction false} SameParent(t: Tree, p: Path, q: Path)
    requires HasParent(t, p) && |p| == |q| && p[..|p| - 1] == q[..|p| - 1]
    ensures HasParent(t, q)
    decreases p
  {
    if |p| > 1 {
      assert p[0] == p[..|p| - 1][0] == q[0];
      assert p[1..][..|p| - 2] == p[..|p| - 1][1..] == q[1..][..|p| - 2];
      SameParent(Find(t.children, p[0]).value, p[1..], q[1..]);
    }
  }

  /** Nothing is found below an absent node. */
  lemma {:induction false} AbsentBelow(t: Tree, p: Path, q: Path)
    requires At(t, p).None? && p <= q
    ensures At(t, q).None?
    decreases p
  {
    if p != [] && t.Directory? {
      assert p[0] == q[0] && p[1..] <= q[1..];
      if Find(t.children, p[0]).Some? {
        AbsentBelow(Find(t.children, p[0]).value, p[1..], q[1..]);
      }
    }
  }

  lemma {:induction false} AtWellFormed(t: Tree, p: Path)
    requires WellFormed(t) && At(t, p).Some?
    ensures WellFormed(At(t, p).value)
    decreases p
  {
    if p != [] {
      AtWellFormed(Find(t.children, p[0]).value, p[1..]);
    }
  }

  // ---------------------------------------------------------------- the entries of a tree

  /** What a listing says of one node. */
  function EntryOf(p: Path, t: Tree): Entry {
    Entry(p, t.meta, if t.File? then Some(t.content) else None)
  }

  // ---------------------------------------------------------------- the listing

  function Select(children: seq<Child>, directories: bool): (r: seq<Child>)
    ensures forall c :: c in r <==> c in children && c.node.Directory? == directories
    ensures |r| <= |children|
  {
    if children == [] then []
    else (if children[0].node.Directory? == directories then [children[0]] else []) + Select(children[1..], directories)
  }

  function Heads(children: seq<Child>, base: Path): (r: seq<Entry>)
    ensures forall e :: e in r <==> exists c :: c in children && e == EntryOf(base + [c.name], c.node)
  {
    if children == [] then [] else [EntryOf(base + [children[0].name], children[0].node)] + Heads(children[1..], base)
  }

  /** `os.walk`, top down: the directories of a directory, its files, then each of its directories in turn. */
  function Walk(t: Tree, base: Path): seq<Entry>
    decreases t, 1
  {
    if t.File? then []
    else Heads(Select(t.children, true), base) + Heads(Select(t.children, false), base) + WalkAll(t, t.children, base)
  }

  function WalkAll(t: Tree, children: seq<Child>, base: Path): seq<Entry>
    requires t.Directory? && forall c :: c in children ==> c in t.children
    decreases t, 0, |children|
  {
    if children == [] then []
    else
      assert children[0] in t.children;
      Walk(children[0].node, base + [children[0].name]) + WalkAll(t, children[1..], base)
  }

  function Listing(t: Tree): seq<Entry> {
    [EntryOf([], t)] + Walk(t, [])
  }

  // ---------------------------------------------------------------- a listing determines its tree

  /** The listing of a subtree, entry by entry. */
  ghost predicate Lists(t: Tree, base: Path, e: Entry) {
    exists p: Path :: p != [] && At(t, p).Some? && e == EntryOf(base + p, At(t, p).value)
  }

  lemma FindMember(children: seq<Child>, c: Child)
    requires Sorted(children) && c in children
    ensures Find(children, c.name) == Some(c.node)
  {
    if children[0] != c {
      var i :| 0 < i < |children| && children[i] == c;
      LessIsOrder(children[0].name, c.name, c.name);
      assert Sorted(children[1..]) && c in children[1..];
      FindMember(children[1..], c);
    }
  }

  lemma AtChild(t: Tree, c: Child, p: Path)
    requires WellFormed(t) && t.Directory? && c in t.children
    ensures At(t, [c.name] + p) == At(c.node, p)
  {
    FindMember(t.children, c);
    assert ([c.name] + p)[1..] == p;
  }

  function Direct(t: Tree, base: Path): (r: seq<Entry>)
    requires t.Directory?
    ensures forall e :: e in r <==> exists c :: c in t.children && e == EntryOf(base + [c.name], c.node)
  {
    var r := Heads(Select(t.children, true), base) + Heads(Select(t.children, false), base);
    assert forall c :: c in t.children ==> c in Select(t.children, c.node.Directory?);
    r
  }

  lemma DirectLists(t: Tree, c: Child, base: Path)
    requires WellFormed(t) && t.Directory? && c in t.children
    ensures Lists(t, base, EntryOf(base + [c.name], c.node))
  {
    AtChild(t, c, []);
    assert [c.name] + [] == [c.name];
    assert At(t, [c.name]) == Some(c.node);
  }

  lemma DeepLists(t: Tree, c: Child, base: Path, e: Entry)
    requires WellFormed(t) && t.Directory? && c in t.children && Lists(c.node, base + [c.name], e)
    ensures Lists(t, base, e)
  {
    var p: Path :| p != [] && At(c.node, p).Some? && e == EntryOf(base + [c.name] + p, At(c.node, p).value);
    AtChild(t, c, p);
    assert base + [c.name] + p == base + ([c.name] + p);
  }

  lemma ListsBelow(t: Tree, base: Path, e: Entry) returns (c: Child)
    requires WellFormed(t) && t.Directory? && Lists(t, base, e)
    ensures c in t.children && (e == EntryOf(base + [c.name], c.node) || Lists(c.node, base + [c.name], e))
  {
    var p: Path :| p != [] && At(t, p).Some? && e == EntryOf(base + p, At(t, p).value);
    c := Child(p[0], Find(t.children, p[0]).value);
    var rest := p[1..];
    assert p == [c.name] + rest && At(t, p) == At(c.node, rest);
    assert base + p == (base + [c.name]) + rest;
    if rest == [] {
      assert base + p == base + [c.name];
    } else {
      assert e == EntryOf((base + [c.name]) + rest, At(c.node, rest).value);
    }
  }

  lemma {:induction false} WalkLists(t: Tree, base: Path, e: Entry)
    requires WellFormed(t)
    ensures e in Walk(t, base) <==> Lists(t, base, e)
    decreases t, 1
  {
    hide Lists;
    if t.File? {
      FileLists(t, base, e);
    } else {
      WalkAllLists(t, t.children, base, e);
      assert Walk(t, base) == Direct(t, base) + WalkAll(t, t.children, base);
      if e in Direct(t, base) {
        var c :| c in t.children && e == EntryOf(base + [c.name], c.node);
        DirectLists(t, c, base);
      }
      if e in WalkAll(t, t.children, base) {
        var c :| c in t.children && Lists(c.node, base + [c.name], e);
        DeepLists(t, c, base, e);
      }
      if Lists(t, base, e) {
        var c := ListsBelow(t, base, e);
      }
    }
  }

  lemma FileLists(t: Tree, base: Path, e: Entry)
    requires t.File?
    ensures !Lists(t, base, e)
  {
  }

  lemma {:induction false} WalkAllLists(t: Tree, children: seq<Child>, base: Path, e: Entry)
    requires WellFormed(t) && t.Directory? && forall c :: c in children ==> c in t.children
    ensures e in WalkAll(t, children, base) <==> exists c :: c in children && Lists(c.node, base + [c.name], e)
    decreases t, 0, |children|
  {
    if children != [] {
      assert children[0] in t.children;
      WalkLists(children[0].node, base + [children[0].name], e);
      WalkAllLists(t, children[1..], base, e);
      assert forall c :: c in children <==> c == children[0] || c in children[1..];
    }
  }

  ghost predicate SameAt(t: Tree, u: Tree, p: Path) {
    At(t, p).Some? == At(u, p).Some? && (At(t, p).Some? ==> EntryOf([], At(t, p).value) == EntryOf([], At(u, p).value))
  }

  /** Two trees answer every lookup alike. */
  ghost predicate Alike(t: Tree, u: Tree) {
    forall p: Path :: SameAt(t, u, p)
  }

  lemma ListingAlike(t: Tree, u: Tree)
    requires WellFormed(t) && WellFormed(u) && Listing(t) == Listing(u)
    ensures Alike(t, u)
  {
    assert Listing(t)[0] == Listing(u)[0];
    assert Walk(t, []) == Listing(t)[1..] == Listing(u)[1..] == Walk(u, []);
    forall p: Path ensures SameAt(t, u, p) {
      assert [] + p == p;
      if p != [] && At(t, p).Some? { Transfer(t, u, p); }
      if p != [] && At(u, p).Some? { Transfer(u, t, p); }
    }
  }

  lemma Transfer(t: Tree, u: Tree, p: Path)
    requires WellFormed(t) && WellFormed(u) && Walk(t, []) == Walk(u, []) && p != [] && At(t, p).Some?
    ensures At(u, p).Some? && EntryOf(p, At(t, p).value) == EntryOf(p, At(u, p).value)
  {
    var e := EntryOf(p, At(t, p).value);
    assert [] + p == p;
    assert Lists(t, [], e);
    WalkLists(t, [], e);
    WalkLists(u, [], e);
    var q: Path :| q != [] && At(u, q).Some? && e == EntryOf([] + q, At(u, q).value);
    assert [] + q == q;
  }

  lemma ChildKnown(t: Tree, name: string)
    requires t.Directory?
    ensures At(t, [name]).Some? == Find(t.children, name).Some?
  {
    assert [name][0] == name && [name][1..] == [];
    if Find(t.children, name).Some? {
      assert At(Find(t.children, name).value, []).Some?;
    }
  }

  lemma AlikeNames(t: Tree, u: Tree)
    requires t.Directory? && u.Directory? && Alike(t, u)
    ensures forall name :: Find(t.children, name).Some? == Find(u.children, name).Some?
  {
    forall name: string ensures Find(t.children, name).Some? == Find(u.children, name).Some? {
      ChildKnown(t, name);
      ChildKnown(u, name);
      assert SameAt(t, u, [name]);
    }
  }

  lemma AlikeBelow(t: Tree, u: Tree, c: Child, d: Child)
    requires WellFormed(t) && WellFormed(u) && t.Directory? && u.Directory? && Alike(t, u)
    requires c in t.children && d in u.children && c.name == d.name
    ensures Alike(c.node, d.node)
  {
    forall p: Path ensures SameAt(c.node, d.node, p) {
      AtChild(t, c, p);
      AtChild(u, d, p);
      assert SameAt(t, u, [c.name] + p);
    }
  }

  lemma {:induction false} AlikeEqual(t: Tree, u: Tree)
    requires WellFormed(t) && WellFormed(u) && Alike(t, u)
    ensures t == u
    decreases t
  {
    assert SameAt(t, u, []);
    if t.Directory? {
      AlikeNames(t, u);
      SameNames(t.children, u.children);
      forall i | 0 <= i < |t.children| ensures t.children[i] == u.children[i] {
        AlikeBelow(t, u, t.children[i], u.children[i]);
        AlikeEqual(t.children[i].node, u.children[i].node);
      }
      assert t.children == u.children;
    }
  }

  /** Sorted children with the same set of names have the same names in the same places. */
  lemma {:induction false} SameNames(a: seq<Child>, b: seq<Child>)
    requires Sorted(a) && Sorted(b) && forall name :: Find(a, name).Some? == Find(b, name).Some?
    ensures |a| == |b| && forall i :: 0 <= i < |a| ==> a[i].name == b[i].name
  {
    assert b != [] ==> Find(a, b[0].name).Some? == Find(b, b[0].name).Some?;
    if a != [] {
      assert Find(b, a[0].name).Some?;
      assert Find(a, b[0].name).Some?;
      FirstNames(a, b);
      forall name ensures Find(a[1..], name).Some? == Find(b[1..], name).Some? {
        Later(a, name);
        Later(b, name);
      }
      SameNames(a[1..], b[1..]);
    }
  }

  lemma FirstNames(a: seq<Child>, b: seq<Child>)
    requires Sorted(a) && Sorted(b) && a != [] && b != [] && Find(a, b[0].name).Some? && Find(b, a[0].name).Some?
    ensures a[0].name == b[0].name
  {
    var i :| 0 <= i < |a| && a[i].name == b[0].name;
    var j :| 0 <= j < |b| && b[j].name == a[0].name;
    LessIsOrder(a[0].name, b[0].name, a[0].name);
  }

  lemma Later(a: seq<Child>, name: string)
    requires Sorted(a) && a != []
    ensures Find(a[1..], name).Some? == (Find(a, name).Some? && name != a[0].name)
  {
    forall c | c in a[1..] ensures c.name != a[0].name {
      var i :| 0 < i < |a| && a[i] == c;
      LessIsOrder(a[0].name, c.name, c.name);
    }
  }

  /** Comparing listings is comparing trees: kinds, modes, owners and contents. */
  lemma FaithfulListing(t: Tree, u: Tree)
    requires WellFormed(t) && WellFormed(u)
    ensures Listing(t) == Listing(u) <==> t == u
  {
    if Listing(t) == Listing(u) {
      ListingAlike(t, u);
      AlikeEqual(t, u);
    }
  }

  // ---------------------------------------------------------------- the scan loop

  /** Directories of a tree, which bounds the rounds of the walk. */
  function Directories(t: Tree): nat
    decreases t, 1
  {
    if t.File? then 0 else 1 + DirectoriesIn(t, t.children)
  }

  function DirectoriesIn(t: Tree, children: seq<Child>): nat
    requires t.Directory? && forall c :: c in children ==> c in t.children
    decreases t, 0, |children|
  {
    if children == [] then 0
    else
      assert children[0] in t.children;
      Directories(children[0].node) + DirectoriesIn(t, children[1..])
  }

  datatype Task = Task(base: Path, node: Tree)

  /** What the tasks still contribute, in order. */
  function Pending(tasks: seq<Task>): seq<Entry> {
    if tasks == [] then [] else Walk(tasks[0].node, tasks[0].base) + Pending(tasks[1..])
  }

  function Rounds(tasks: seq<Task>): nat {
    if tasks == [] then 0 else Directories(tasks[0].node) + Rounds(tasks[1..])
  }

  function Below(children: seq<Child>, base: Path): seq<Task> {
    if children == [] then [] else [Task(base + [children[0].name], children[0].node)] + Below(children[1..], base)
  }

  lemma PendingAppend(a: seq<Task>, b: seq<Task>)
    ensures Pending(a + b) == Pending(a) + Pending(b) && Rounds(a + b) == Rounds(a) + Rounds(b)
  {
    if a == [] {
      assert a + b == b;
    } else {
      assert (a + b)[1..] == a[1..] + b;
      PendingAppend(a[1..], b);
    }
  }

  /** Walking the directories one by one is walking the children: files have nothing below them. */
  lemma PendingBelow(t: Tree, children: seq<Child>, base: Path)
    requires t.Directory? && forall c :: c in children ==> c in t.children
    ensures Pending(Below(Select(children, true), base)) == WalkAll(t, children, base)
    ensures Rounds(Below(Select(children, true), base)) == DirectoriesIn(t, children)
    ensures forall k :: k in Below(Select(children, true), base) ==> k.node.Directory?
  {
    if children != [] {
      PendingBelow(t, children[1..], base);
      var rest := Select(children[1..], true);
      if children[0].node.Directory? {
        assert Select(children, true) == [children[0]] + rest;
        assert Select(children, true)[1..] == rest;
        assert Below(Select(children, true), base)[1..] == Below(rest, base);
      } else {
        assert Select(children, true) == rest;
      }
    }
  }

  lemma HeadsAppend(a: seq<Child>, b: seq<Child>, base: Path)
    ensures Heads(a + b, base) == Heads(a, base) + Heads(b, base)
  {
    if a == [] {
      assert a + b == b;
    } else {
      assert (a + b)[1..] == a[1..] + b;
      HeadsAppend(a[1..], b, base);
    }
  }

  /** One round: the directories of a directory, then its files. */
  method ListDirectory(node: Tree, base: Path) returns (entries: seq<Entry>)
    requires node.Directory?
    ensures entries == Heads(Select(node.children, true), base) + Heads(Select(node.children, false), base)
  {
    entries := [];
    var listed := Select(node.children, true) + Select(node.children, false);
    var i := 0;
    while i < |listed|
      invariant 0 <= i <= |listed|
      invariant entries == Heads(listed[..i], base)
    {
      entries := entries + [EntryOf(base + [listed[i].name], listed[i].node)];
      assert listed[..i + 1] == listed[..i] + [listed[i]];
      HeadsAppend(listed[..i], [listed[i]], base);
      i := i + 1;
    }
    assert listed[..i] == listed;
    HeadsAppend(Select(node.children, true), Select(node.children, false), base);
  }

  lemma NextRound(tasks: seq<Task>, next: seq<Task>, round: seq<Entry>)
    requires tasks != [] && tasks[0].node.Directory?
    requires next == Below(Select(tasks[0].node.children, true), tasks[0].base) + tasks[1..]
    requires round == Heads(Select(tasks[0].node.children, true), tasks[0].base) + Heads(Select(tasks[0].node.children, false), tasks[0].base)
    requires forall k :: k in tasks ==> k.node.Directory?
    ensures Pending(tasks) == round + Pending(next) && Rounds(next) < Rounds(tasks)
    ensures forall k :: k in next ==> k.node.Directory?
  {
    hide Heads, Below, Select, WalkAll, DirectoriesIn;
    var node, base := tasks[0].node, tasks[0].base;
    var below := Below(Select(node.children, true), base);
    PendingBelow(node, node.children, base);
    PendingAppend(below, tasks[1..]);
    assert Walk(node, base) == round + Pending(below);
    Associate(round, Pending(below), Pending(tasks[1..]));
    assert Pending(tasks) == Walk(node, base) + Pending(tasks[1..]);
  }

  /** `_scan`: one round per directory, until no directory is left. */
  method Scan(t: Tree) returns (entries: seq<Entry>)
    ensures entries == Listing(t)
  {
    hide Heads, Walk, Directories, Below, Select;
    entries := [EntryOf([], t)];
    var tasks := if t.Directory? then [Task([], t)] else [];
    FirstRound(t, tasks);
    while tasks != []
      invariant entries + Pending(tasks) == Listing(t)
      invariant forall k :: k in tasks ==> k.node.Directory?
      decreases Rounds(tasks)
    {
      var task := tasks[0];
      var round := ListDirectory(task.node, task.base);
      var next := Below(Select(task.node.children, true), task.base) + tasks[1..];
      NextRound(tasks, next, round);
      assert entries + Pending(tasks) == (entries + round) + Pending(next);
      entries, tasks := entries + round, next;
    }
  }

  lemma FirstRound(t: Tree, tasks: seq<Task>)
    requires tasks == if t.Directory? then [Task([], t)] else []
    ensures Pending(tasks) == Walk(t, [])
  {
    assert t.Directory? ==> tasks[1..] == [];
  }
}
