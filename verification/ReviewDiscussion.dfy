/** Review threads and issue comments: their canonical order, and the validator of the whole evidence. */
module ReviewDiscussion {
  import opened Wrappers
  import opened ReviewEvidence
  import opened Sequences
  import opened Sorting

  /** Identities stand for their place in the order of identities. */
  datatype Comment = Comment(id: nat, updatedAt: string, serious: bool)

  datatype Thread = Thread(id: nat, resolved: bool, comments: seq<Comment>)

  datatype IssueComment = IssueComment(id: nat, author: string, serious: bool)

  /** A thread as one page delivers it; `more` tells of comments beyond the page. */
  datatype Node = Node(thread: Thread, more: bool)

  /** An issue comment as delivered; `pointer` marks the bot's own readiness pointer. */
  datatype Post = Post(comment: IssueComment, pointer: bool)

  // ---------------------------------------------------------------- threads

  function CommentKey(): Comment -> nat {
    (c: Comment) => c.id
  }

  function ThreadKey(): Thread -> nat {
    (t: Thread) => t.id
  }

  function IssueKey(): IssueComment -> nat {
    (c: IssueComment) => c.id
  }

  function CanonicalThread(t: Thread): Thread {
    t.(comments := SortedBy(t.comments, CommentKey()))
  }

  function CanonicalThreads(nodes: seq<Node>): (r: seq<Thread>)
    ensures |r| == |nodes| && forall i :: 0 <= i < |r| ==> r[i] == CanonicalThread(nodes[i].thread)
  {
    seq(|nodes|, i requires 0 <= i < |nodes| => CanonicalThread(nodes[i].thread))
  }

  predicate Complete(n: Node) {
    !n.more && n.thread.comments != []
  }

  /** The loop over thread nodes of `_review_evidence`. */
  method ReadThreads(nodes: seq<Node>) returns (r: Result<seq<Thread>>)
    ensures r.Ok? <==> forall n :: n in nodes ==> Complete(n)
    ensures r.Ok? ==> r.value == SortedBy(CanonicalThreads(nodes), ThreadKey())
  {
    var threads: seq<Thread> := [];
    var i := 0;
    while i < |nodes|
      invariant 0 <= i <= |nodes| && threads == CanonicalThreads(nodes)[..i]
      invariant forall k :: 0 <= k < i ==> Complete(nodes[k])
    {
      var n := nodes[i];
      if n.more || n.thread.comments == [] {
        assert n in nodes && !Complete(n);
        return Err;
      }
      threads := threads + [CanonicalThread(n.thread)];
      i := i + 1;
    }
    assert threads == CanonicalThreads(nodes);
    return Ok(SortedBy(threads, ThreadKey()));
  }

  // ---------------------------------------------------------------- pages of threads

  const MAX_PAGES: nat := 100

  /** One answer: its threads, and the cursor of the next page if there is to be one; a page may announce
      another and name no cursor. */
  datatype Page = Page(nodes: seq<Node>, more: bool, cursor: Option<string>)

  /** The threads of the pages from a call and its cursor on, if they end within so many pages. The answer may depend
      on the call as well as on the cursor: a server need not answer a repeated cursor alike. */
  function Threads(answer: (nat, Option<string>) -> Page, call: nat, cursor: Option<string>, left: nat): Option<seq<Node>>
    decreases left
  {
    if left == 0 then None
    else
      var page := answer(call, cursor);
      if !page.more then Some(page.nodes)
      else if page.cursor.None? || page.cursor.value == "" then None
      else match Threads(answer, call + 1, page.cursor, left - 1)
        case None => None
        case Some(rest) => Some(page.nodes + rest)
  }

  /** The pagination of `_review_evidence`, which ends whatever the cursors are. */
  method ReadPages(answer: (nat, Option<string>) -> Page) returns (r: Result<seq<Node>>)
    ensures r.Ok? <==> Threads(answer, 0, None, MAX_PAGES).Some?
    ensures r.Ok? ==> r.value == Threads(answer, 0, None, MAX_PAGES).value
  {
    var nodes: seq<Node>, cursor: Option<string> := [], None;
    for i := 0 to MAX_PAGES
      invariant Threads(answer, 0, None, MAX_PAGES).Some? <==> Threads(answer, i, cursor, MAX_PAGES - i).Some?
      invariant Threads(answer, 0, None, MAX_PAGES).Some? ==>
                  Threads(answer, 0, None, MAX_PAGES).value == nodes + Threads(answer, i, cursor, MAX_PAGES - i).value
    {
      var page := answer(i, cursor);
      nodes := nodes + page.nodes;
      if !page.more { return Ok(nodes); }
      if page.cursor.None? || page.cursor.value == "" { return Err; }
      cursor := page.cursor;
    }
    return Err;
  }

  /** Pages that are linked, one cursor to the next, with nothing after the last. */
  ghost predicate Linked(answer: (nat, Option<string>) -> Page, call: nat, cursor: Option<string>, pages: seq<Page>)
    decreases |pages|
  {
    && pages != [] && pages[0] == answer(call, cursor)
    && if |pages| == 1 then !pages[0].more
       else pages[0].more && pages[0].cursor.Some? && pages[0].cursor.value != "" && Linked(answer, call + 1, pages[0].cursor, pages[1..])
  }

  function AllNodes(pages: seq<Page>): seq<Node> {
    if pages == [] then [] else pages[0].nodes + AllNodes(pages[1..])
  }

  /** The threads are read exactly if at most a hundred linked pages deliver them. */
  lemma {:induction false} ThreadsArePages(answer: (nat, Option<string>) -> Page, call: nat, cursor: Option<string>, left: nat)
    ensures Threads(answer, call, cursor, left).Some? <==> exists pages :: |pages| <= left && Linked(answer, call, cursor, pages)
    ensures forall pages :: |pages| <= left && Linked(answer, call, cursor, pages) ==> Threads(answer, call, cursor, left) == Some(AllNodes(pages))
    decreases left
  {
    if left > 0 {
      var page := answer(call, cursor);
      if !page.more {
        assert Linked(answer, call, cursor, [page]);
        forall pages | |pages| <= left && Linked(answer, call, cursor, pages)
          ensures Threads(answer, call, cursor, left) == Some(AllNodes(pages))
        {
          assert pages == [page] && AllNodes(pages[1..]) == [] && page.nodes + [] == page.nodes;
          assert AllNodes(pages) == page.nodes + AllNodes(pages[1..]);
        }
      } else if page.cursor.Some? && page.cursor.value != "" {
        ThreadsArePages(answer, call + 1, page.cursor, left - 1);
        if Threads(answer, call + 1, page.cursor, left - 1).Some? {
          var rest :| |rest| <= left - 1 && Linked(answer, call + 1, page.cursor, rest);
          assert ([page] + rest)[1..] == rest;
          assert Linked(answer, call, cursor, [page] + rest);
        }
        forall pages | |pages| <= left && Linked(answer, call, cursor, pages)
          ensures Threads(answer, call, cursor, left) == Some(AllNodes(pages))
        {
          assert Linked(answer, call + 1, page.cursor, pages[1..]);
        }
      }
    }
  }

  // ---------------------------------------------------------------- the shape of threads

  predicate CommentsShape(comments: seq<Comment>) {
    comments != [] && DistinctBy(comments, CommentKey()) && Ascending(comments, CommentKey())
  }

  predicate ThreadsShape(threads: seq<Thread>) {
    && DistinctBy(threads, ThreadKey()) && Ascending(threads, ThreadKey())
    && forall t :: t in threads ==> CommentsShape(t.comments)
  }

  /** One list of identities is unique and in order, as the validator establishes it. */
  method NormalizeIds<T>(list: seq<T>, key: T -> nat) returns (ok: bool)
    ensures ok <==> DistinctBy(list, key)
  {
    var ids: set<nat> := {};
    var i := 0;
    while i < |list|
      invariant 0 <= i <= |list|
      invariant forall x :: x in ids <==> exists j :: 0 <= j < i && key(list[j]) == x
      invariant forall j, k :: 0 <= j < k < i ==> key(list[j]) != key(list[k])
    {
      if key(list[i]) in ids { return false; }
      ids := ids + {key(list[i])};
      i := i + 1;
    }
    return true;
  }

  method ValidateThreads(threads: seq<Thread>) returns (ok: bool)
    ensures ok <==> ThreadsShape(threads)
  {
    ok := NormalizeIds(threads, ThreadKey());
    if !ok { return; }
    var i := 0;
    while i < |threads|
      invariant 0 <= i <= |threads|
      invariant forall k :: 0 <= k < i ==> CommentsShape(threads[k].comments)
    {
      var comments := threads[i].comments;
      assert threads[i] in threads;
      SortedFixed(comments, CommentKey());
      var unique := NormalizeIds(comments, CommentKey());
      if comments == [] || !unique || comments != SortedBy(comments, CommentKey()) { return false; }
      i := i + 1;
    }
    SortedFixed(threads, ThreadKey());
    ok := threads == SortedBy(threads, ThreadKey());
  }

  lemma CanonicalShape(t: Thread)
    requires t.comments != []
    ensures CommentsShape(CanonicalThread(t).comments) <==> DistinctBy(t.comments, CommentKey())
  {
    SortedKeeps(t.comments, CommentKey());
    SortedMembers(t.comments, CommentKey());
    assert t.comments[0] in SortedBy(t.comments, CommentKey());
  }

  /** Threads that were read are refused for their shape exactly when some identity was delivered twice. */
  lemma ThreadsRefused(nodes: seq<Node>)
    requires forall n :: n in nodes ==> Complete(n)
    ensures ThreadsShape(SortedBy(CanonicalThreads(nodes), ThreadKey())) <==>
              && DistinctBy(CanonicalThreads(nodes), ThreadKey())
              && forall n :: n in nodes ==> DistinctBy(n.thread.comments, CommentKey())
  {
    var threads := CanonicalThreads(nodes);
    hide DistinctBy, Ascending, CommentsShape, CanonicalThread, SortedBy;
    SortedKeeps(threads, ThreadKey());
    SortedMembers(threads, ThreadKey());
    forall i | 0 <= i < |nodes|
      ensures CommentsShape(threads[i].comments) <==> DistinctBy(nodes[i].thread.comments, CommentKey())
    {
      assert nodes[i] in nodes && threads[i] in threads;
      CanonicalShape(nodes[i].thread);
    }
    AllShapes(nodes, threads);
  }

  lemma AllShapes(nodes: seq<Node>, threads: seq<Thread>)
    requires |nodes| == |threads|
    requires forall i :: 0 <= i < |nodes| ==> (CommentsShape(threads[i].comments) <==> DistinctBy(nodes[i].thread.comments, CommentKey()))
    ensures (forall t :: t in threads ==> CommentsShape(t.comments)) <==> (forall n :: n in nodes ==> DistinctBy(n.thread.comments, CommentKey()))
  {
    hide CommentsShape, DistinctBy;
    if forall t :: t in threads ==> CommentsShape(t.comments) {
      forall n | n in nodes ensures DistinctBy(n.thread.comments, CommentKey()) {
        var i :| 0 <= i < |nodes| && nodes[i] == n;
        assert threads[i] in threads;
      }
    } else {
      var t :| t in threads && !CommentsShape(t.comments);
      var i :| 0 <= i < |threads| && threads[i] == t;
      assert nodes[i] in nodes;
    }
  }

  /** Neither the order of pages and threads nor that of comments within a thread matters. */
  lemma ThreadsOrderFree(a: seq<Node>, b: seq<Node>)
    requires multiset(CanonicalThreads(a)) == multiset(CanonicalThreads(b)) && DistinctBy(CanonicalThreads(a), ThreadKey())
    ensures SortedBy(CanonicalThreads(a), ThreadKey()) == SortedBy(CanonicalThreads(b), ThreadKey())
  {
    SortedOrderFree(CanonicalThreads(a), CanonicalThreads(b), ThreadKey());
  }

  lemma CommentsOrderFree(t: Thread, u: Thread)
    requires u == t.(comments := u.comments) && multiset(t.comments) == multiset(u.comments) && DistinctBy(t.comments, CommentKey())
    ensures CanonicalThread(t) == CanonicalThread(u)
  {
    SortedOrderFree(t.comments, u.comments, CommentKey());
  }

  // ---------------------------------------------------------------- issue comments

  /** The comments that are not the readiness pointer. */
  function Kept(posts: seq<Post>): seq<IssueComment> {
    if posts == [] then [] else
      Kept(posts[..|posts| - 1]) + if posts[|posts| - 1].pointer then [] else [posts[|posts| - 1].comment]
  }

  lemma KeptNext(posts: seq<Post>, i: nat)
    requires i < |posts|
    ensures Kept(posts[..i + 1]) == Kept(posts[..i]) + if posts[i].pointer then [] else [posts[i].comment]
  {
    assert posts[..i + 1][..i] == posts[..i];
  }

  lemma {:induction false} KeptPrefix(posts: seq<Post>, i: nat)
    requires i <= |posts|
    ensures Kept(posts[..i]) <= Kept(posts)
    decreases |posts| - i
  {
    if i == |posts| {
      assert posts[..i] == posts;
    } else {
      KeptNext(posts, i);
      KeptPrefix(posts, i + 1);
    }
  }

  /** Which comments are kept, by the posts themselves. */
  lemma {:induction false} KeptMeans(posts: seq<Post>)
    ensures forall c :: c in Kept(posts) <==> exists k :: 0 <= k < |posts| && !posts[k].pointer && posts[k].comment == c
    ensures DistinctBy(Kept(posts), IssueKey()) <==>
              forall i, j :: 0 <= i < j < |posts| && !posts[i].pointer && !posts[j].pointer ==> posts[i].comment.id != posts[j].comment.id
  {
    if posts != [] {
      var n := |posts| - 1;
      var front, kept := posts[..n], Kept(posts[..n]);
      KeptMeans(front);
      assert forall k :: 0 <= k < n ==> front[k] == posts[k];
      if posts[n].pointer {
        assert Kept(posts) == kept;
      } else {
        var c := posts[n].comment;
        assert Kept(posts) == kept + [c];
        OneKeptMore(front, kept, c);
      }
    }
  }

  lemma OneKeptMore(front: seq<Post>, kept: seq<IssueComment>, c: IssueComment)
    requires forall x :: x in kept <==> exists k :: 0 <= k < |front| && !front[k].pointer && front[k].comment == x
    ensures DistinctBy(kept + [c], IssueKey()) <==>
              DistinctBy(kept, IssueKey()) && forall k :: 0 <= k < |front| && !front[k].pointer ==> front[k].comment.id != c.id
  {
    var all, key := kept + [c], IssueKey();
    if DistinctBy(all, key) {
      forall i, j | 0 <= i < j < |kept| ensures key(kept[i]) != key(kept[j]) {
        assert all[i] == kept[i] && all[j] == kept[j];
      }
      forall k | 0 <= k < |front| && !front[k].pointer ensures front[k].comment.id != c.id {
        assert front[k].comment in kept;
        var i :| 0 <= i < |kept| && kept[i] == front[k].comment;
        assert key(all[i]) != key(all[|kept|]);
      }
    }
    if DistinctBy(kept, key) && forall k :: 0 <= k < |front| && !front[k].pointer ==> front[k].comment.id != c.id {
      forall i, j | 0 <= i < j < |all| ensures key(all[i]) != key(all[j]) {
        assert all[i] == kept[i] && kept[i] in kept;
      }
    }
  }

  /** The loop over issue comments of `_review_evidence`. */
  method ReadIssues(posts: seq<Post>) returns (r: Result<seq<IssueComment>>)
    ensures r.Ok? <==> DistinctBy(Kept(posts), IssueKey())
    ensures r.Ok? ==> r.value == SortedBy(Kept(posts), IssueKey())
  {
    var comments: seq<IssueComment>, ids: set<nat> := [], {};
    var i := 0;
    while i < |posts|
      invariant 0 <= i <= |posts| && comments == Kept(posts[..i])
      invariant forall x :: x in ids <==> exists j :: 0 <= j < |comments| && comments[j].id == x
      invariant forall j, k :: 0 <= j < k < |comments| ==> comments[j].id != comments[k].id
    {
      KeptNext(posts, i);
      KeptPrefix(posts, i + 1);
      if !posts[i].pointer {
        var c := posts[i].comment;
        if c.id in ids {
          var j :| 0 <= j < |comments| && comments[j].id == c.id;
          assert Kept(posts)[j] == comments[j] && Kept(posts)[|comments|] == c;
          assert IssueKey()(Kept(posts)[j]) == IssueKey()(Kept(posts)[|comments|]);
          return Err;
        }
        comments, ids := Noted(comments, ids, c);
      }
      i := i + 1;
    }
    assert posts[..i] == posts;
    return Ok(SortedBy(comments, IssueKey()));
  }

  method Noted(comments: seq<IssueComment>, ids: set<nat>, c: IssueComment) returns (more: seq<IssueComment>, known: set<nat>)
    requires (forall x :: x in ids <==> exists j :: 0 <= j < |comments| && comments[j].id == x) && c.id !in ids
    requires forall j, k :: 0 <= j < k < |comments| ==> comments[j].id != comments[k].id
    ensures more == comments + [c]
    ensures forall x :: x in known <==> exists j :: 0 <= j < |more| && more[j].id == x
    ensures forall j, k :: 0 <= j < k < |more| ==> more[j].id != more[k].id
  {
    more, known := comments + [c], ids + {c.id};
    forall x | x in known ensures exists j :: 0 <= j < |more| && more[j].id == x {
      if x in ids {
        var j :| 0 <= j < |comments| && comments[j].id == x;
        assert more[j].id == x;
      } else {
        assert more[|comments|].id == x;
      }
    }
  }

  predicate IssuesShape(comments: seq<IssueComment>) {
    DistinctBy(comments, IssueKey()) && Ascending(comments, IssueKey())
  }

  /** Issue comments that were read are never refused for their shape. */
  lemma IssuesShaped(posts: seq<Post>)
    requires DistinctBy(Kept(posts), IssueKey())
    ensures IssuesShape(SortedBy(Kept(posts), IssueKey()))
  {
    SortedKeeps(Kept(posts), IssueKey());
    SortedMembers(Kept(posts), IssueKey());
  }

  // ---------------------------------------------------------------- the whole evidence

  datatype Evidence = Evidence(reviews: Snapshot, threads: seq<Thread>, issues: seq<IssueComment>)

  /** Evidence with the digest it was published under. */
  datatype Sealed = Sealed(evidence: Evidence, digest: string)

  predicate OpenSerious(t: Thread) {
    !t.resolved && exists c :: c in t.comments && c.serious
  }

  predicate Shaped(e: Evidence) {
    WellFormed(e.reviews) && ThreadsShape(e.threads) && IssuesShape(e.issues)
  }

  predicate Settled(e: Evidence) {
    && Clean(e.reviews) && (forall t :: t in e.threads ==> !OpenSerious(t)) && forall c :: c in e.issues ==> !c.serious
  }

  /** `_validate_review_evidence`; `digestOf` is the hash of the canonical text. */
  method ValidateEvidence(s: Sealed, digestOf: Evidence -> string) returns (v: Verdict)
    ensures v.Malformed? <==> !Shaped(s.evidence) || s.digest != digestOf(s.evidence)
    ensures v.Accepted? <==> Shaped(s.evidence) && s.digest == digestOf(s.evidence) && Settled(s.evidence)
    ensures v.RequestedChanges? <==>
              && Shaped(s.evidence) && s.digest == digestOf(s.evidence)
              && exists r :: r in s.evidence.reviews.actionable && r.state == ChangesRequested
  {
    hide WellFormed, Clean, ThreadsShape;
    var e := s.evidence;
    v := Validate(e.reviews);
    if v.Malformed? { return; }
    var threads := ValidateThreads(e.threads);
    if !threads { return Malformed; }
    var unique := NormalizeIds(e.issues, IssueKey());
    SortedFixed(e.issues, IssueKey());
    if !unique || e.issues != SortedBy(e.issues, IssueKey()) { return Malformed; }
    if s.digest != digestOf(e) { return Malformed; }
    if !v.Accepted? { return; }
    if exists t :: t in e.threads && OpenSerious(t) { return SeriousFinding; }
    if exists c :: c in e.issues && c.serious { return SeriousFinding; }
  }

  /** What was read of a pull request, sorted and folded. */
  ghost predicate Gathered(raw: seq<Review>, nodes: seq<Node>, posts: seq<Post>, e: Evidence) {
    && NoRepeats(raw) && Describes(SetOf(raw), e.reviews)
    && (forall n :: n in nodes ==> Complete(n)) && e.threads == SortedBy(CanonicalThreads(nodes), ThreadKey())
    && DistinctBy(Kept(posts), IssueKey()) && e.issues == SortedBy(Kept(posts), IssueKey())
  }

  /** `_review_evidence` */
  method GatherEvidence(raw: seq<Review>, answer: (nat, Option<string>) -> Page, posts: seq<Post>, digestOf: Evidence -> string)
    returns (r: Result<Sealed>)
    ensures var nodes := Threads(answer, 0, None, MAX_PAGES);
      && (r.Ok? <==> NoRepeats(raw) && DistinctBy(Kept(posts), IssueKey()) && nodes.Some? && forall n :: n in nodes.value ==> Complete(n))
      && (r.Ok? ==> Gathered(raw, nodes.value, posts, r.value.evidence) && r.value.digest == digestOf(r.value.evidence))
  {
    hide Describes, NoRepeats, Threads;
    var reviews := ReviewEvidence.Evidence(raw);
    if reviews.Err? { return Err; }
    var issues := ReadIssues(posts);
    if issues.Err? { return Err; }
    var nodes := ReadPages(answer);
    if nodes.Err? { return Err; }
    var threads := ReadThreads(nodes.value);
    if threads.Err? { return Err; }
    var e := Evidence(reviews.value, threads.value, issues.value);
    return Ok(Sealed(e, digestOf(e)));
  }

  /** Gathered evidence is never refused for its shape, unless a thread or comment identity was delivered twice;
      otherwise it is refused exactly for what the pull request itself leaves open. */
  lemma RefusedForFindings(raw: seq<Review>, nodes: seq<Node>, posts: seq<Post>, e: Evidence)
    requires Gathered(raw, nodes, posts, e)
    ensures Shaped(e) <==>
              DistinctBy(CanonicalThreads(nodes), ThreadKey()) && forall n :: n in nodes ==> DistinctBy(n.thread.comments, CommentKey())
    ensures Settled(e) <==> NothingOpen(raw, nodes, posts)
  {
    hide WellFormed, Clean, ThreadsShape, IssuesShape, DistinctBy, Unresolved, LastActionable, Describes, OpenSerious, SortedBy, Identified, NoRepeats;
    DistinctReviews(raw);
    OnlyFindings(SetOf(raw), e.reviews);
    ThreadsRefused(nodes);
    IssuesShaped(posts);
    SortedMembers(Kept(posts), IssueKey());
    SameFindings(nodes);
  }

  /** Nothing is left open on the pull request. */
  ghost predicate NothingOpen(raw: seq<Review>, nodes: seq<Node>, posts: seq<Post>) {
    && (forall r :: LastActionable(SetOf(raw), r) ==> r.state != ChangesRequested)
    && (forall r :: !Unresolved(SetOf(raw), r))
    && (forall n :: n in nodes ==> !OpenSerious(n.thread))
    && (forall c :: c in Kept(posts) ==> !c.serious)
  }

  /** Nothing is left open, by the reviews, threads and comments themselves. */
  lemma NothingOpenMeans(raw: seq<Review>, nodes: seq<Node>, posts: seq<Post>)
    requires NoRepeats(raw)
    ensures NothingOpen(raw, nodes, posts) <==>
              && (forall r :: r in raw && r.state == ChangesRequested ==>
                    exists x :: x in raw && x.who == r.who && x.id > r.id && x.state in {Approved, ChangesRequested, Dismissed})
              && (forall r :: r in raw && r.serious && r.state !in {Approved, Dismissed} ==>
                    exists x :: x in raw && x.who == r.who && x.id > r.id && x.state in {Approved, Dismissed})
              && (forall n, c :: n in nodes && c in n.thread.comments && c.serious ==> n.thread.resolved)
              && (forall p :: p in posts && p.comment.serious ==> p.pointer)
  {
    DistinctReviews(raw);
    KeptMeans(posts);
    OpenReviews(raw);
    OpenPosts(posts);
    hide Kept, LastActionable, Unresolved;
  }

  lemma OpenPosts(posts: seq<Post>)
    ensures (forall c :: c in Kept(posts) ==> !c.serious) <==> forall p :: p in posts && p.comment.serious ==> p.pointer
  {
    KeptMeans(posts);
    forall p | p in posts && !p.pointer ensures p.comment in Kept(posts) {
      var k :| 0 <= k < |posts| && posts[k] == p;
    }
  }

  lemma OpenReviews(raw: seq<Review>)
    requires Identified(SetOf(raw))
    ensures (forall r :: LastActionable(SetOf(raw), r) ==> r.state != ChangesRequested) <==>
              forall r :: r in raw && r.state == ChangesRequested ==>
                exists x :: x in raw && x.who == r.who && x.id > r.id && x.state in {Approved, ChangesRequested, Dismissed}
    ensures (forall r :: !Unresolved(SetOf(raw), r)) <==>
              forall r :: r in raw && r.serious && r.state !in {Approved, Dismissed} ==>
                exists x :: x in raw && x.who == r.who && x.id > r.id && x.state in {Approved, Dismissed}
  {
    forall r | r in raw && r.state == ChangesRequested
      ensures !LastActionable(SetOf(raw), r) <==>
                exists x :: x in raw && x.who == r.who && x.id > r.id && x.state in {Approved, ChangesRequested, Dismissed}
    {
    }
    forall r | r in raw && r.serious && r.state !in {Approved, Dismissed}
      ensures !Unresolved(SetOf(raw), r) <==>
                exists x :: x in raw && x.who == r.who && x.id > r.id && x.state in {Approved, Dismissed}
    {
    }
  }

  /** Evidence is gathered and validated: it passes exactly if the threads end within a hundred pages, every one
      is complete, no identity comes twice, and nothing is left open: no author's last word requests changes, every
      serious review is followed by an approval or dismissal of its author, every thread with a serious comment is
      resolved, and no serious comment stands outside the threads but the readiness pointer. */
  method Assess(raw: seq<Review>, answer: (nat, Option<string>) -> Page, posts: seq<Post>, digestOf: Evidence -> string)
    returns (accepted: bool)
    ensures var nodes := Threads(answer, 0, None, MAX_PAGES);
      accepted <==>
        && nodes.Some?
        && (forall n :: n in nodes.value ==>
              && !n.more && n.thread.comments != []
              && forall i, j :: 0 <= i < j < |n.thread.comments| ==> n.thread.comments[i].id != n.thread.comments[j].id)
        && (forall i, j :: 0 <= i < j < |nodes.value| ==> nodes.value[i].thread.id != nodes.value[j].thread.id)
        && (forall i, j :: 0 <= i < j < |raw| ==> raw[i].id != raw[j].id)
        && (forall i, j :: 0 <= i < j < |posts| && !posts[i].pointer && !posts[j].pointer ==> posts[i].comment.id != posts[j].comment.id)
        && (forall r :: r in raw && r.state == ChangesRequested ==>
              exists x :: x in raw && x.who == r.who && x.id > r.id && x.state in {Approved, ChangesRequested, Dismissed})
        && (forall r :: r in raw && r.serious && r.state !in {Approved, Dismissed} ==>
              exists x :: x in raw && x.who == r.who && x.id > r.id && x.state in {Approved, Dismissed})
        && (forall n, c :: n in nodes.value && c in n.thread.comments && c.serious ==> n.thread.resolved)
        && (forall p :: p in posts && p.comment.serious ==> p.pointer)
  {
    hide Threads, Kept, NothingOpen, DistinctBy, NoRepeats;
    accepted := AssessEvidence(raw, answer, posts, digestOf);
    KeptMeans(posts);
    DistinctMeans(raw);
    var nodes := Threads(answer, 0, None, MAX_PAGES);
    if nodes.Some? {
      forall n | n in nodes.value
        ensures DistinctBy(n.thread.comments, CommentKey()) <==>
                  forall i, j :: 0 <= i < j < |n.thread.comments| ==> n.thread.comments[i].id != n.thread.comments[j].id
      {
        DistinctComments(n.thread.comments);
      }
      DistinctThreads(nodes.value);
      if NoRepeats(raw) { NothingOpenMeans(raw, nodes.value, posts); }
    }
  }

  lemma DistinctMeans(raw: seq<Review>)
    ensures NoRepeats(raw) <==> forall i, j :: 0 <= i < j < |raw| ==> raw[i].id != raw[j].id
  {
  }

  lemma DistinctComments(list: seq<Comment>)
    ensures DistinctBy(list, CommentKey()) <==> forall i, j :: 0 <= i < j < |list| ==> list[i].id != list[j].id
  {
  }

  lemma DistinctThreads(nodes: seq<Node>)
    ensures DistinctBy(CanonicalThreads(nodes), ThreadKey()) <==>
              forall i, j :: 0 <= i < j < |nodes| ==> nodes[i].thread.id != nodes[j].thread.id
  {
    var key := ThreadKey();
    assert forall i :: 0 <= i < |nodes| ==> key(CanonicalThreads(nodes)[i]) == nodes[i].thread.id;
  }

  /** The same in terms of what is gathered. */
  method AssessEvidence(raw: seq<Review>, answer: (nat, Option<string>) -> Page, posts: seq<Post>, digestOf: Evidence -> string)
    returns (accepted: bool)
    ensures var nodes := Threads(answer, 0, None, MAX_PAGES);
      accepted <==>
        && nodes.Some? && (forall n :: n in nodes.value ==> Complete(n) && DistinctBy(n.thread.comments, CommentKey()))
        && NoRepeats(raw) && DistinctBy(Kept(posts), IssueKey()) && DistinctBy(CanonicalThreads(nodes.value), ThreadKey())
        && NothingOpen(raw, nodes.value, posts)
  {
    hide Threads, NoRepeats, DistinctBy, Shaped, Settled, LastActionable, Unresolved, OpenSerious, Kept, SetOf, Complete;
    var gathered := GatherEvidence(raw, answer, posts, digestOf);
    if gathered.Err? { return false; }
    RefusedForFindings(raw, Threads(answer, 0, None, MAX_PAGES).value, posts, gathered.value.evidence);
    var v := ValidateEvidence(gathered.value, digestOf);
    return v.Accepted?;
  }

  /** Reviews, threads, comments and issue comments may be delivered in any order. */
  lemma EvidenceOrderFree(raw: seq<Review>, nodes: seq<Node>, posts: seq<Post>, e: Evidence,
                          raw': seq<Review>, nodes': seq<Node>, posts': seq<Post>, e': Evidence)
    requires Gathered(raw, nodes, posts, e) && Gathered(raw', nodes', posts', e')
    requires multiset(raw) == multiset(raw') && multiset(Kept(posts)) == multiset(Kept(posts'))
    requires multiset(CanonicalThreads(nodes)) == multiset(CanonicalThreads(nodes')) && DistinctBy(CanonicalThreads(nodes), ThreadKey())
    ensures e == e'
  {
    hide SortedBy, DistinctBy, Describes, NoRepeats, Complete, CanonicalThreads, Kept;
    OrderIndependent(raw, raw', e.reviews, e'.reviews);
    ThreadsOrderFree(nodes, nodes');
    SortedOrderFree(Kept(posts), Kept(posts'), IssueKey());
  }

  lemma DistinctReviews(raw: seq<Review>)
    requires NoRepeats(raw)
    ensures Identified(SetOf(raw))
  {
    DistinctIdentified(raw);
  }

  /** Sorting threads and comments neither hides nor invents a finding. */
  lemma SameFindings(nodes: seq<Node>)
    ensures (forall t :: t in SortedBy(CanonicalThreads(nodes), ThreadKey()) ==> !OpenSerious(t)) <==>
            (forall n :: n in nodes ==> !OpenSerious(n.thread))
  {
    var threads := CanonicalThreads(nodes);
    SortedMembers(threads, ThreadKey());
    hide SortedBy;
    forall i | 0 <= i < |nodes| ensures OpenSerious(threads[i]) <==> OpenSerious(nodes[i].thread) {
      SortedMembers(nodes[i].thread.comments, CommentKey());
    }
    if forall t :: t in threads ==> !OpenSerious(t) {
      forall n | n in nodes ensures !OpenSerious(n.thread) {
        var i :| 0 <= i < |nodes| && nodes[i] == n;
        assert threads[i] in threads;
      }
    } else {
      var t :| t in threads && OpenSerious(t);
      var i :| 0 <= i < |threads| && threads[i] == t;
      assert nodes[i] in nodes;
    }
  }
}
