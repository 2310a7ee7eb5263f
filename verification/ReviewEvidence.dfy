/** Review evidence per author: the folds over reviews, their order-free meaning, and the validator of the snapshot. */
module ReviewEvidence {
  import opened Sequences
  import opened Sorting
  import opened Wrappers

  datatype State = Approved | ChangesRequested | Commented | Dismissed | Pending

  /** `who` is the case-folded login, by which reviews belong to one author and snapshots are sorted. */
  datatype Review = Review(id: nat, who: nat, author: string, state: State, serious: bool)

  predicate Closing(r: Review) {
    r.state == Approved || r.state == Dismissed
  }

  predicate Actionable(r: Review) {
    r.state == Approved || r.state == ChangesRequested || r.state == Dismissed
  }

  predicate Anything(r: Review) {
    true
  }

  /** A serious open review that no later approval or dismissal of its author closes. */
  ghost predicate Unresolved(reviews: set<Review>, r: Review) {
    && r in reviews && r.serious && !Closing(r)
    && forall c :: c in reviews && c.who == r.who && Closing(c) ==> c.id < r.id
  }

  /** Review ids are unique. */
  ghost predicate Identified(reviews: set<Review>) {
    forall a, b :: a in reviews && b in reviews && a.id == b.id ==> a == b
  }

  /** For every author with such a review, the one with the largest id, and nothing else. */
  ghost predicate Largest(reviews: set<Review>, p: Review -> bool, m: map<nat, Review>) {
    && (forall w :: w in m ==> m[w] in reviews && m[w].who == w && p(m[w]))
    && (forall r :: r in reviews && p(r) ==> r.who in m && r.id <= m[r.who].id)
  }

  /** The same of the unresolved serious reviews. */
  ghost predicate LargestUnresolved(reviews: set<Review>, m: map<nat, Review>) {
    && (forall w :: w in m ==> m[w].who == w && Unresolved(reviews, m[w]))
    && (forall r :: Unresolved(reviews, r) ==> r.who in m && r.id <= m[r.who].id)
  }

  lemma LargestUnique(reviews: set<Review>, p: Review -> bool, m: map<nat, Review>, n: map<nat, Review>)
    requires Identified(reviews) && Largest(reviews, p, m) && Largest(reviews, p, n)
    ensures m == n
  {
    forall w ensures (w in m <==> w in n) && (w in m ==> m[w] == n[w]) {
      if w in m { assert m[w] in reviews; }
      if w in n { assert n[w] in reviews; }
    }
  }

  lemma UnresolvedUnique(reviews: set<Review>, m: map<nat, Review>, n: map<nat, Review>)
    requires Identified(reviews) && LargestUnresolved(reviews, m) && LargestUnresolved(reviews, n)
    ensures m == n
  {
    forall w ensures (w in m <==> w in n) && (w in m ==> m[w] == n[w]) {
      if w in m { assert Unresolved(reviews, m[w]); }
      if w in n { assert Unresolved(reviews, n[w]); }
    }
  }

  // ---------------------------------------------------------------- canonical lists

  predicate Canonical(list: seq<Review>) {
    forall i, j :: 0 <= i < j < |list| ==> list[i].who < list[j].who
  }

  /** The reviews of a table, one per author. */
  ghost predicate Lists(list: seq<Review>, m: map<nat, Review>) {
    && Canonical(list) && (forall r :: r in list ==> r.who in m && m[r.who] == r)
    && (forall w :: w in m ==> m[w] in list)
  }

  lemma ListUnique(a: seq<Review>, b: seq<Review>, m: map<nat, Review>)
    requires Lists(a, m) && Lists(b, m)
    ensures a == b
  {
    forall r ensures r in a <==> r in b {
      if r in a { assert m[r.who] in b; }
      if r in b { assert m[r.who] in a; }
    }
    CanonicalUnique(a, b);
  }

  /** Strictly sorted lists of the same reviews are equal. */
  lemma {:induction false} CanonicalUnique(a: seq<Review>, b: seq<Review>)
    requires Canonical(a) && Canonical(b) && forall r :: r in a <==> r in b
    ensures a == b
    decreases |a|
  {
    assert b == [] || b[0] in b;
    if a != [] {
      assert a[0] in a && a[0] in b;
      assert b[0] in b && b[0] in a;
      var i :| 0 <= i < |b| && b[i] == a[0];
      var j :| 0 <= j < |a| && a[j] == b[0];
      assert i == 0;
      forall r ensures r in a[1..] <==> r in b[1..] {
        After(a, r);
        After(b, r);
      }
      CanonicalUnique(a[1..], b[1..]);
      assert a == [a[0]] + a[1..] && b == [b[0]] + b[1..];
    }
  }

  lemma After(a: seq<Review>, r: Review)
    requires Canonical(a) && a != []
    ensures r in a[1..] <==> r in a && r != a[0]
  {
    if r in a[1..] {
      var i :| 0 <= i < |a[1..]| && a[1..][i] == r;
      assert a[i + 1] == r;
    }
  }

  /** Author keys stay sorted and without repetition. */
  function Insert(keys: seq<nat>, k: nat): (r: seq<nat>)
    requires Rising(keys)
    ensures Rising(r) && forall x :: x in r <==> x in keys || x == k
  {
    if keys == [] then [k]
    else if k == keys[0] then keys
    else if k < keys[0] then [k] + keys
    else
      assert keys == [keys[0]] + keys[1..];
      var rest := Insert(keys[1..], k);
      assert forall x :: x in rest ==> keys[0] < x;
      assert forall i :: 0 <= i < |rest| ==> rest[i] in rest;
      [keys[0]] + rest
  }

  /** `sorted(table.values(), key=…)` */
  method Sorted(keys: seq<nat>, m: map<nat, Review>) returns (list: seq<Review>)
    requires Rising(keys) && (forall w :: w in m ==> w in keys && m[w].who == w)
    ensures Lists(list, m)
  {
    list := [];
    var i := 0;
    while i < |keys|
      invariant 0 <= i <= |keys| && Canonical(list)
      invariant forall r :: r in list ==> r.who in m && m[r.who] == r && r.who in keys[..i]
      invariant forall w :: w in m && w in keys[..i] ==> m[w] in list
    {
      assert keys[..i + 1] == keys[..i] + [keys[i]];
      if keys[i] in m {
        forall k | 0 <= k < |list| ensures list[k].who < keys[i] {
          assert list[k] in list;
        }
        list := list + [m[keys[i]]];
      }
      i := i + 1;
    }
    assert keys[..i] == keys;
  }

  // ---------------------------------------------------------------- the folds

  datatype Snapshot = Snapshot(latest: seq<Review>, actionable: seq<Review>, unresolved: seq<Review>)

  /** The order-free meaning of a snapshot. */
  ghost predicate Describes(reviews: set<Review>, s: Snapshot) {
    exists latest, actionable, unresolved :: Tables(reviews, s, latest, actionable, unresolved)
  }

  ghost predicate Tables(reviews: set<Review>, s: Snapshot, latest: map<nat, Review>, actionable: map<nat, Review>, unresolved: map<nat, Review>) {
    && Largest(reviews, Anything, latest) && Lists(s.latest, latest)
    && Largest(reviews, Actionable, actionable) && Lists(s.actionable, actionable)
    && LargestUnresolved(reviews, unresolved) && Lists(s.unresolved, unresolved)
  }

  /** Any two snapshots of the same reviews, in whatever order they were read, are equal. */
  lemma SnapshotUnique(reviews: set<Review>, s: Snapshot, t: Snapshot)
    requires Identified(reviews) && Describes(reviews, s) && Describes(reviews, t)
    ensures s == t
  {
    var l1, a1, u1 :| Tables(reviews, s, l1, a1, u1);
    var l2, a2, u2 :| Tables(reviews, t, l2, a2, u2);
    LargestUnique(reviews, Anything, l1, l2);
    LargestUnique(reviews, Actionable, a1, a2);
    UnresolvedUnique(reviews, u1, u2);
    ListUnique(s.latest, t.latest, l1);
    ListUnique(s.actionable, t.actionable, a1);
    ListUnique(s.unresolved, t.unresolved, u1);
  }

  /** The table of largest ids, with one review more. */
  function Raise(m: map<nat, Review>, r: Review, counts: bool): map<nat, Review> {
    if counts && (r.who !in m || r.id > m[r.who].id) then m[r.who := r] else m
  }

  lemma RaiseLargest(reviews: set<Review>, p: Review -> bool, m: map<nat, Review>, r: Review)
    requires Largest(reviews, p, m)
    ensures Largest(reviews + {r}, p, Raise(m, r, p(r)))
  {
  }

  /** The reviews of each author, in the order they were read. */
  ghost predicate Grouped(reviews: set<Review>, byAuthor: map<nat, seq<Review>>, keys: seq<nat>) {
    && Rising(keys) && (forall w :: w in keys <==> w in byAuthor)
    && (forall w, r :: w in byAuthor && r in byAuthor[w] ==> r.who == w && r in reviews)
    && (forall r :: r in reviews ==> r.who in byAuthor && r in byAuthor[r.who])
    && (forall w :: w in byAuthor ==> NoRepeats(byAuthor[w]))
  }

  predicate NoRepeats(list: seq<Review>) {
    forall i, j :: 0 <= i < j < |list| ==> list[i].id != list[j].id
  }

  function Append(byAuthor: map<nat, seq<Review>>, r: Review): map<nat, seq<Review>> {
    byAuthor[r.who := (if r.who in byAuthor then byAuthor[r.who] else []) + [r]]
  }

  lemma GroupMore(reviews: set<Review>, byAuthor: map<nat, seq<Review>>, keys: seq<nat>, r: Review)
    requires Grouped(reviews, byAuthor, keys) && forall x :: x in reviews ==> x.id != r.id
    ensures Rising(keys) && Grouped(reviews + {r}, Append(byAuthor, r), Insert(keys, r.who))
  {
    var before := if r.who in byAuthor then byAuthor[r.who] else [];
    assert forall x :: x in before + [r] <==> x in before || x == r;
    forall k | 0 <= k < |before| ensures before[k].id != r.id { assert before[k] in before; }
    assert NoRepeats(before + [r]);
  }

  /** The first loop of `_review_evidence`. */
  method Read(raw: seq<Review>)
    returns (ok: bool, latest: map<nat, Review>, actionable: map<nat, Review>, byAuthor: map<nat, seq<Review>>, keys: seq<nat>)
    ensures ok <==> NoRepeats(raw)
    ensures ok ==>
              && Identified(SetOf(raw)) && Largest(SetOf(raw), Anything, latest) && Largest(SetOf(raw), Actionable, actionable)
              && Grouped(SetOf(raw), byAuthor, keys)
  {
    hide Largest, Grouped, Raise, Append, Actionable, Rising, SetOf, Identified, Ids;
    ok, latest, actionable, byAuthor, keys := true, map[], map[], map[], [];
    var ids: set<nat> := {};
    var i := 0;
    NothingRead();
    SetOfNone(raw);
    while i < |raw|
      invariant 0 <= i <= |raw|
      invariant Ids(raw, i, ids)
      invariant Largest(SetOf(raw[..i]), Anything, latest) && Largest(SetOf(raw[..i]), Actionable, actionable)
      invariant Grouped(SetOf(raw[..i]), byAuthor, keys)
    {
      var review := raw[i];
      NextId(raw, i, ids);
      if review.id in ids { return false, latest, actionable, byAuthor, keys; }
      ids := ids + {review.id};
      SetOfNext(raw, i);
      RaiseLargest(SetOf(raw[..i]), Anything, latest, review);
      RaiseLargest(SetOf(raw[..i]), Actionable, actionable, review);
      GroupMore(SetOf(raw[..i]), byAuthor, keys, review);
      byAuthor, keys := Append(byAuthor, review), Insert(keys, review.who);
      latest, actionable := Raise(latest, review, true), Raise(actionable, review, Actionable(review));
      i := i + 1;
    }
    assert raw[..i] == raw;
    AllIds(raw, ids);
    DistinctIdentified(raw);
  }

  /** The identities read so far, none of them twice. */
  ghost predicate Ids(raw: seq<Review>, i: nat, ids: set<nat>)
    requires i <= |raw|
  {
    && (forall j, k :: 0 <= j < k < i ==> raw[j].id != raw[k].id)
    && (forall n :: n in ids <==> exists j :: 0 <= j < i && raw[j].id == n)
  }

  lemma NextId(raw: seq<Review>, i: nat, ids: set<nat>)
    requires i < |raw| && Ids(raw, i, ids)
    ensures if raw[i].id in ids then exists j :: 0 <= j < i && raw[j].id == raw[i].id else Ids(raw, i + 1, ids + {raw[i].id})
    ensures raw[i].id !in ids ==> forall x :: x in SetOf(raw[..i]) ==> x.id != raw[i].id
  {
  }

  lemma AllIds(raw: seq<Review>, ids: set<nat>)
    requires Ids(raw, |raw|, ids)
    ensures forall i, j :: 0 <= i < j < |raw| ==> raw[i].id != raw[j].id
  {
  }

  lemma SetOfNone<T>(s: seq<T>)
    ensures SetOf(s[..0]) == {}
  {
  }

  lemma SetOfNext<T>(s: seq<T>, i: nat)
    requires i < |s|
    ensures SetOf(s[..i + 1]) == SetOf(s[..i]) + {s[i]}
  {
    assert s[..i + 1] == s[..i] + [s[i]];
  }

  lemma DistinctIdentified(raw: seq<Review>)
    requires forall i, j :: 0 <= i < j < |raw| ==> raw[i].id != raw[j].id
    ensures Identified(SetOf(raw))
  {
    forall a, b | a in SetOf(raw) && b in SetOf(raw) && a.id == b.id ensures a == b {
      var i :| 0 <= i < |raw| && raw[i] == a;
      var j :| 0 <= j < |raw| && raw[j] == b;
    }
  }

  lemma NothingRead()
    ensures Largest({}, Anything, map[]) && Largest({}, Actionable, map[]) && Grouped({}, map[], [])
    ensures forall raw :: Ids(raw, 0, {})
  {
  }

  // ---------------------------------------------------------------- unresolved findings

  predicate Older(list: seq<Review>) {
    forall i, j :: 0 <= i < j < |list| ==> list[i].id < list[j].id
  }

  function Age(): Review -> nat {
    (r: Review) => r.id
  }

  /** `sorted(author_reviews, key=id)` */
  function ByAge(list: seq<Review>): seq<Review> {
    SortedBy(list, Age())
  }

  lemma ByAgeKeeps(list: seq<Review>)
    requires forall i, j :: 0 <= i < j < |list| ==> list[i].id != list[j].id
    ensures Older(ByAge(list)) && forall x :: x in ByAge(list) <==> x in list
  {
    SortedKeeps(list, Age());
    SortedMembers(list, Age());
    var s := ByAge(list);
    forall i, j | 0 <= i < j < |s| ensures s[i].id < s[j].id {
      assert Age()(s[i]) <= Age()(s[j]) && Age()(s[i]) != Age()(s[j]);
    }
  }

  /** What the fold over one author's reviews holds so far: the newest unresolved serious one. */
  ghost predicate Newest(seen: set<Review>, open: Option<Review>) {
    && (open.Some? ==> Unresolved(seen, open.value))
    && (forall r :: Unresolved(seen, r) ==> open.Some? && r.id <= open.value.id)
  }

  lemma NextReview(seen: set<Review>, open: Option<Review>, r: Review)
    requires Newest(seen, open) && forall x :: x in seen ==> x.id < r.id && x.who == r.who
    ensures Newest(seen + {r}, if Closing(r) then None else if r.serious then Some(r) else open)
  {
    forall x | x in seen ensures Unresolved(seen + {r}, x) <==> Unresolved(seen, x) && !Closing(r) {
      assert x in seen + {r};
      assert r in seen + {r};
    }
  }

  /** The second loop of `_review_evidence`, for one author. */
  method Fold(reviews: seq<Review>, who: nat) returns (open: Option<Review>)
    requires (forall r :: r in reviews ==> r.who == who) && NoRepeats(reviews)
    ensures Newest(SetOf(reviews), open)
  {
    var sorted := ByAge(reviews);
    ByAgeKeeps(reviews);
    open := None;
    var i := 0;
    assert SetOf(sorted[..0]) == {};
    while i < |sorted|
      invariant 0 <= i <= |sorted| && Newest(SetOf(sorted[..i]), open)
    {
      var r := sorted[i];
      assert sorted[..i + 1] == sorted[..i] + [r];
      assert SetOf(sorted[..i + 1]) == SetOf(sorted[..i]) + {r};
      forall x | x in SetOf(sorted[..i]) ensures x.id < r.id && x.who == r.who {
        assert x in sorted && r in sorted;
      }
      NextReview(SetOf(sorted[..i]), open, r);
      if Closing(r) {
        open := None;
      } else if r.serious {
        open := Some(r);
      }
      i := i + 1;
    }
    assert sorted[..i] == sorted && SetOf(sorted) == SetOf(reviews);
  }

  /** One author's reviews decide alone what of that author is unresolved. */
  lemma OneAuthor(reviews: set<Review>, own: set<Review>, w: nat)
    requires forall r :: r in own <==> r in reviews && r.who == w
    ensures forall r: Review :: r.who == w ==> (Unresolved(own, r) <==> Unresolved(reviews, r))
  {
  }

  ghost predicate UnresolvedUpTo(reviews: set<Review>, keys: seq<nat>, i: nat, m: map<nat, Review>)
    requires i <= |keys|
  {
    && (forall w :: w in m ==> w in keys[..i] && m[w].who == w && Unresolved(reviews, m[w]))
    && (forall r :: Unresolved(reviews, r) && r.who in keys[..i] ==> r.who in m && r.id <= m[r.who].id)
  }

  lemma NextAuthor(reviews: set<Review>, keys: seq<nat>, i: nat, m: map<nat, Review>, own: set<Review>, open: Option<Review>)
    requires i < |keys| && Rising(keys) && UnresolvedUpTo(reviews, keys, i, m) && Newest(own, open)
    requires forall r :: r in own <==> r in reviews && r.who == keys[i]
    ensures UnresolvedUpTo(reviews, keys, i + 1, if open.Some? then m[keys[i] := open.value] else m)
  {
    OneAuthor(reviews, own, keys[i]);
    assert keys[..i + 1] == keys[..i] + [keys[i]];
    assert keys[i] !in keys[..i];
  }

  lemma AllAuthors(reviews: set<Review>, byAuthor: map<nat, seq<Review>>, keys: seq<nat>, m: map<nat, Review>)
    requires Grouped(reviews, byAuthor, keys) && UnresolvedUpTo(reviews, keys, |keys|, m)
    ensures LargestUnresolved(reviews, m)
  {
    assert keys[..|keys|] == keys;
  }

  /** `_review_evidence`: refused only for repeated identities; otherwise the snapshot means what the reviews say. */
  method Evidence(raw: seq<Review>) returns (r: Result<Snapshot>)
    ensures r.Ok? <==> NoRepeats(raw)
    ensures r.Ok? ==> Identified(SetOf(raw)) && Describes(SetOf(raw), r.value)
  {
    hide Largest, Grouped, LargestUnresolved, UnresolvedUpTo, Newest, Lists, Identified, Rising;
    var ok, latest, actionable, byAuthor, keys := Read(raw);
    if !ok { return Err; }
    var unresolved: map<nat, Review> := map[];
    var i := 0;
    NoAuthors(SetOf(raw), keys);
    while i < |keys|
      invariant 0 <= i <= |keys| && UnresolvedUpTo(SetOf(raw), keys, i, unresolved)
    {
      OwnReviews(raw, byAuthor, keys, i);
      var open := Fold(byAuthor[keys[i]], keys[i]);
      NextAuthor(SetOf(raw), keys, i, unresolved, SetOf(byAuthor[keys[i]]), open);
      if open.Some? { unresolved := unresolved[keys[i] := open.value]; }
      i := i + 1;
    }
    AllAuthors(SetOf(raw), byAuthor, keys, unresolved);
    KnownAuthors(SetOf(raw), byAuthor, keys, latest, actionable, unresolved);
    var l := Sorted(keys, latest);
    var a := Sorted(keys, actionable);
    var u := Sorted(keys, unresolved);
    assert Tables(SetOf(raw), Snapshot(l, a, u), latest, actionable, unresolved);
    return Ok(Snapshot(l, a, u));
  }

  lemma NoAuthors(reviews: set<Review>, keys: seq<nat>)
    ensures UnresolvedUpTo(reviews, keys, 0, map[])
  {
  }

  lemma KnownAuthors(reviews: set<Review>, byAuthor: map<nat, seq<Review>>, keys: seq<nat>,
                     latest: map<nat, Review>, actionable: map<nat, Review>, unresolved: map<nat, Review>)
    requires Grouped(reviews, byAuthor, keys) && Largest(reviews, Anything, latest)
    requires Largest(reviews, Actionable, actionable) && LargestUnresolved(reviews, unresolved)
    ensures Rising(keys)
    ensures forall w :: w in latest ==> w in keys && latest[w].who == w
    ensures forall w :: w in actionable ==> w in keys && actionable[w].who == w
    ensures forall w :: w in unresolved ==> w in keys && unresolved[w].who == w
  {
  }

  lemma OwnReviews(raw: seq<Review>, byAuthor: map<nat, seq<Review>>, keys: seq<nat>, i: nat)
    requires i < |keys| && Grouped(SetOf(raw), byAuthor, keys)
    ensures Rising(keys) && keys[i] in byAuthor && NoRepeats(byAuthor[keys[i]]) && forall r :: r in byAuthor[keys[i]] ==> r.who == keys[i]
    ensures forall r :: r in SetOf(byAuthor[keys[i]]) <==> r in SetOf(raw) && r.who == keys[i]
  {
    assert keys[i] in keys;
  }

  /** Reading the reviews in another order gives the same snapshot. */
  lemma OrderIndependent(raw: seq<Review>, other: seq<Review>, s: Snapshot, t: Snapshot)
    requires multiset(raw) == multiset(other) && NoRepeats(raw)
    requires Describes(SetOf(raw), s) && Describes(SetOf(other), t)
    ensures s == t
  {
    DistinctIdentified(raw);
    assert SetOf(raw) == SetOf(other) by {
      forall r ensures r in raw <==> r in other {
        assert r in multiset(raw) <==> r in multiset(other);
      }
    }
    SnapshotUnique(SetOf(raw), s, t);
  }

  // ---------------------------------------------------------------- the validator

  datatype Verdict = Malformed | RequestedChanges | SeriousFinding | Accepted

  /** One list of a snapshot is well formed: allowed states, unique authors and identities, sorted. */
  predicate Shape(list: seq<Review>, allowed: Review -> bool) {
    (forall r :: r in list ==> allowed(r)) && NoRepeats(list) && Canonical(list)
  }

  predicate Open(r: Review) {
    !Closing(r)
  }

  /** `normalize_reviews` */
  method NormalizeReviews(list: seq<Review>, allowed: Review -> bool) returns (ok: bool)
    ensures ok <==> Shape(list, allowed)
  {
    var authors: set<nat>, ids: set<nat> := {}, {};
    var i := 0;
    while i < |list|
      invariant 0 <= i <= |list| && Ids(list, i, ids)
      invariant forall j :: 0 <= j < i ==> allowed(list[j])
      invariant forall w :: w in authors <==> exists j :: 0 <= j < i && list[j].who == w
      invariant forall j, k :: 0 <= j < k < i ==> list[j].who != list[k].who
    {
      var r := list[i];
      NextId(list, i, ids);
      if !allowed(r) {
        assert r in list;
        return false;
      }
      if r.who in authors || r.id in ids { return false; }
      authors, ids := authors + {r.who}, ids + {r.id};
      i := i + 1;
    }
    AllIds(list, ids);
    assert forall r :: r in list ==> allowed(r);
    return Canonical(list);
  }

  /** What a well-formed snapshot is refused for. */
  predicate Clean(s: Snapshot) {
    && (forall r :: r in s.actionable ==> r.state != ChangesRequested)
    && s.unresolved == [] && (forall r :: r in s.latest ==> !(r.serious && !Closing(r)))
  }

  predicate WellFormed(s: Snapshot) {
    && Shape(s.latest, Anything) && Shape(s.actionable, Actionable) && Shape(s.unresolved, Open)
    && (forall r :: r in s.unresolved ==> r.serious)
  }

  /** `_validate_review_evidence`, of the reviews */
  method Validate(s: Snapshot) returns (v: Verdict)
    ensures v.Malformed? <==> !WellFormed(s)
    ensures v.Accepted? <==> WellFormed(s) && Clean(s)
    ensures v.RequestedChanges? <==> WellFormed(s) && exists r :: r in s.actionable && r.state == ChangesRequested
  {
    hide Shape;
    var latest := NormalizeReviews(s.latest, Anything);
    if !latest { return Malformed; }
    var actionable := NormalizeReviews(s.actionable, Actionable);
    if !actionable { return Malformed; }
    var unresolved := NormalizeReviews(s.unresolved, Open);
    if !unresolved { return Malformed; }
    if exists r :: r in s.unresolved && !r.serious { return Malformed; }
    if exists r :: r in s.actionable && r.state == ChangesRequested { return RequestedChanges; }
    if s.unresolved != [] { return SeriousFinding; }
    if exists r :: r in s.latest && r.serious && !Closing(r) { return SeriousFinding; }
    return Accepted;
  }

  /** An author's last actionable review. */
  ghost predicate LastActionable(reviews: set<Review>, r: Review) {
    r in reviews && Actionable(r) && forall x :: x in reviews && x.who == r.who && Actionable(x) ==> x.id <= r.id
  }

  lemma ListShape(reviews: set<Review>, list: seq<Review>, m: map<nat, Review>, p: Review -> bool)
    requires Identified(reviews) && Lists(list, m) && forall w :: w in m ==> m[w] in reviews && p(m[w])
    ensures Shape(list, p)
  {
    forall r | r in list ensures r in reviews && p(r) { assert m[r.who] == r; }
    forall i, j | 0 <= i < j < |list| ensures list[i].id != list[j].id {
      assert list[i] in list && list[j] in list && list[i].who < list[j].who;
    }
  }

  /** The validator never refuses a snapshot for its shape or order, only for a finding: some author's last
      actionable review requests changes, or some serious open review was never closed. */
  lemma OnlyFindings(reviews: set<Review>, s: Snapshot)
    requires Identified(reviews) && Describes(reviews, s)
    ensures WellFormed(s)
    ensures Clean(s) <==>
              && (forall r :: LastActionable(reviews, r) ==> r.state != ChangesRequested)
              && (forall r :: !Unresolved(reviews, r))
  {
    hide Largest, Lists, LargestUnresolved, Unresolved, Closing, WellFormed, LastActionable, Identified;
    var latest, actionable, unresolved :| Tables(reviews, s, latest, actionable, unresolved);
    TablesShape(reviews, s, latest, actionable, unresolved);
    LastIsListed(reviews, s.actionable, actionable);
    NoneUnresolved(reviews, s.unresolved, unresolved);
    LatestSerious(reviews, s.latest, latest);
  }

  lemma TablesShape(reviews: set<Review>, s: Snapshot, latest: map<nat, Review>, actionable: map<nat, Review>, unresolved: map<nat, Review>)
    requires Identified(reviews) && Tables(reviews, s, latest, actionable, unresolved)
    ensures WellFormed(s)
  {
    hide Shape;
    ListShape(reviews, s.latest, latest, Anything);
    ListShape(reviews, s.actionable, actionable, Actionable);
    ListShape(reviews, s.unresolved, unresolved, Open);
    forall r | r in s.unresolved ensures r.serious { assert unresolved[r.who] == r; }
  }

  lemma NoneUnresolved(reviews: set<Review>, list: seq<Review>, m: map<nat, Review>)
    requires LargestUnresolved(reviews, m) && Lists(list, m)
    ensures list == [] <==> forall r :: !Unresolved(reviews, r)
  {
    if r :| Unresolved(reviews, r) {
      assert m[r.who] in list;
    } else {
      assert list == [] || list[0] in list;
    }
  }

  /** A serious open review that is its author's last is unresolved. */
  lemma LatestSerious(reviews: set<Review>, list: seq<Review>, m: map<nat, Review>)
    requires Identified(reviews) && Largest(reviews, Anything, m) && Lists(list, m)
    ensures forall r :: r in list && r.serious && !Closing(r) ==> Unresolved(reviews, r)
  {
    forall r | r in list && r.serious && !Closing(r) ensures Unresolved(reviews, r) {
      assert m[r.who] == r;
      forall c | c in reviews && c.who == r.who && Closing(c) ensures c.id < r.id {
        assert Anything(c) && c.id <= r.id && c != r;
      }
    }
  }

  lemma LastIsListed(reviews: set<Review>, list: seq<Review>, m: map<nat, Review>)
    requires Identified(reviews) && Largest(reviews, Actionable, m) && Lists(list, m)
    ensures forall r :: r in list <==> LastActionable(reviews, r)
  {
    forall r ensures r in list <==> LastActionable(reviews, r) {
      if r in list { assert m[r.who] == r; }
      if LastActionable(reviews, r) { assert m[r.who] in list; }
    }
  }
}
