/** Reassembly of log lines from chunks of a byte stream. A character stands for a byte. */
module LogLines {
  import opened Wrappers

  const LOG_READ_BYTES: nat := 65_536

  function Last(pieces: seq<string>): string
    requires pieces != []
  {
    pieces[|pieces| - 1]
  }

  function Front(pieces: seq<string>): seq<string>
    requires pieces != []
  {
    pieces[..|pieces| - 1]
  }

  function Extend(pieces: seq<string>, c: char): (r: seq<string>)
    requires pieces != []
    ensures r != []
  {
    if c == '\n' then pieces + [""] else Front(pieces) + [Last(pieces) + [c]]
  }

  /** `bytes.split(b"\n")` */
  function Split(s: string): (pieces: seq<string>)
    ensures pieces != []
  {
    if s == [] then [""] else Extend(Split(s[..|s| - 1]), s[|s| - 1])
  }

  /** `bytes.rstrip(b"\r")` */
  function Strip(s: string): string {
    if s != [] && s[|s| - 1] == '\r' then Strip(s[..|s| - 1]) else s
  }

  /** The pieces, with one newline between each two. */
  function Glue(pieces: seq<string>): string
    requires pieces != []
  {
    if |pieces| == 1 then pieces[0] else Glue(pieces[..|pieces| - 1]) + "\n" + pieces[|pieces| - 1]
  }

  /** These pieces are the text cut at its newlines. */
  ghost predicate Cut(text: string, pieces: seq<string>) {
    pieces != [] && Glue(pieces) == text && forall i :: 0 <= i < |pieces| ==> '\n' !in pieces[i]
  }

  /** The line is the text without the carriage returns at its end. */
  ghost predicate Trimmed(text: string, line: string) {
    && line <= text && (forall i :: |line| <= i < |text| ==> text[i] == '\r')
    && (line != "" ==> line[|line| - 1] != '\r')
  }

  function StripAll(pieces: seq<string>): (r: seq<string>)
    ensures |r| == |pieces| && forall i :: 0 <= i < |r| ==> r[i] == Strip(pieces[i])
  {
    seq(|pieces|, i requires 0 <= i < |pieces| => Strip(pieces[i]))
  }

  function Whole(chunks: seq<string>): string {
    if chunks == [] then [] else Whole(chunks[..|chunks| - 1]) + chunks[|chunks| - 1]
  }

  predicate Bounded(pieces: seq<string>) {
    forall p :: p in pieces ==> |p| <= LOG_READ_BYTES
  }

  predicate Open(s: string) {
    forall c :: c in s ==> c != '\n'
  }

  lemma SplitSnoc(s: string, c: char)
    ensures Split(s + [c]) == Extend(Split(s), c)
  {
    assert (s + [c])[..|s|] == s;
  }

  lemma ExtendPrefix(x: seq<string>, y: seq<string>, c: char)
    requires y != []
    ensures Extend(x + y, c) == x + Extend(y, c)
  {
    assert Front(x + y) == x + Front(y);
  }

  lemma {:induction false} LastOpen(s: string)
    ensures Open(Last(Split(s)))
  {
    if s != [] { LastOpen(s[..|s| - 1]); }
  }

  lemma {:induction false} SplitOpen(s: string)
    requires Open(s)
    ensures Split(s) == [s]
  {
    if s != [] {
      var front := s[..|s| - 1];
      assert s == front + [s[|s| - 1]] && forall c :: c in front ==> c in s;
      SplitOpen(front);
      assert Front([front]) == [] && s[|s| - 1] in s;
      assert Extend([front], s[|s| - 1]) == [front + [s[|s| - 1]]];
    }
  }

  /** The split cuts the text at its newlines. */
  lemma {:induction false} SplitCuts(s: string)
    ensures Cut(s, Split(s))
  {
    if s != [] {
      var front, c := s[..|s| - 1], s[|s| - 1];
      SplitCuts(front);
      var pieces, all := Split(front), Split(s);
      assert s == front + [c] && all == Extend(pieces, c);
      if c == '\n' {
        assert all[..|all| - 1] == pieces;
        assert Glue(all) == front + "\n" + "";
      } else {
        assert all[..|all| - 1] == Front(pieces);
        if |pieces| > 1 {
          assert Glue(Front(pieces)) + "\n" + (Last(pieces) + [c]) == (Glue(Front(pieces)) + "\n" + Last(pieces)) + [c];
        }
      }
    }
  }

  lemma NextPiece(s: string, front: seq<string>, last: string)
    requires Split(s) == front && Split(last) == [last]
    ensures Split(s + "\n" + last) == front + [last]
  {
    hide Split;
    var a := s + "\n";
    SplitSnoc(s, '\n');
    SplitAppend(a, last);
    assert Split(a) == front + [""];
    assert Front(Split(a)) == front && Last(Split(a)) + last == last;
  }

  /** There is only one such cut. */
  lemma {:induction false} CutUnique(s: string, pieces: seq<string>)
    requires Cut(s, pieces)
    ensures pieces == Split(s)
    decreases |pieces|
  {
    hide Split;
    var n := |pieces| - 1;
    var front, last := pieces[..n], pieces[n];
    SplitOpen(last);
    if n == 0 {
      assert pieces == [last];
    } else {
      CutUnique(Glue(front), front);
      NextPiece(Glue(front), front, last);
      assert pieces == front + [last];
    }
  }

  /** Stripping removes exactly the carriage returns at the end. */
  lemma {:induction false} StripTrims(s: string)
    ensures Trimmed(s, Strip(s)) && forall line :: Trimmed(s, line) ==> line == Strip(s)
  {
    if s != [] && s[|s| - 1] == '\r' {
      var front := s[..|s| - 1];
      StripTrims(front);
      forall line | Trimmed(s, line) ensures line == Strip(s) {
        assert line != s;
        assert Trimmed(front, line);
      }
    } else {
      forall line | Trimmed(s, line) ensures line == s {
        assert |s| - 1 < |line|;
      }
    }
  }

  lemma Trims(pieces: seq<string>, lines: seq<string>)
    requires lines <= StripAll(pieces)
    ensures |lines| <= |pieces| && forall i :: 0 <= i < |lines| ==> Trimmed(pieces[i], lines[i])
  {
    forall i | 0 <= i < |lines| ensures Trimmed(pieces[i], lines[i]) {
      StripTrims(pieces[i]);
      assert lines[i] == StripAll(pieces)[i];
    }
  }

  /** A split may be carried over a cut: only the last piece is still open. */
  lemma {:induction false} SplitAppend(a: string, b: string)
    ensures Split(a + b) == Front(Split(a)) + Split(Last(Split(a)) + b)
    decreases |b|
  {
    var last := Last(Split(a));
    if b == [] {
      LastOpen(a);
      SplitOpen(last);
      assert a + b == a && last + b == last;
    } else {
      var less, c := b[..|b| - 1], b[|b| - 1];
      SplitAppend(a, less);
      assert a + b == (a + less) + [c] && last + b == (last + less) + [c];
      SplitSnoc(a + less, c);
      SplitSnoc(last + less, c);
      ExtendPrefix(Front(Split(a)), Split(last + less), c);
    }
  }

  /** An oversized piece stays oversized, whatever follows. */
  lemma {:induction false} Overflow(a: string, b: string)
    requires !Bounded(Split(a))
    ensures !Bounded(Split(a + b))
    decreases |b|
  {
    if b == [] {
      assert a + b == a;
    } else {
      var less, c := b[..|b| - 1], b[|b| - 1];
      Overflow(a, less);
      assert a + b == (a + less) + [c];
      SplitSnoc(a + less, c);
      OverflowExtend(Split(a + less), c);
    }
  }

  lemma OverflowExtend(pieces: seq<string>, c: char)
    requires pieces != [] && !Bounded(pieces)
    ensures !Bounded(Extend(pieces, c))
  {
    var p :| p in pieces && |p| > LOG_READ_BYTES;
    if c == '\n' {
      assert p in Extend(pieces, c);
    } else if p == Last(pieces) {
      assert Last(pieces) + [c] in Extend(pieces, c);
    } else {
      assert p in Front(pieces);
      assert p in Extend(pieces, c);
    }
  }

  lemma {:induction false} WholePrefix(chunks: seq<string>, i: nat) returns (tail: string)
    requires i <= |chunks|
    ensures Whole(chunks) == Whole(chunks[..i]) + tail
    decreases |chunks| - i
  {
    if i == |chunks| {
      assert chunks[..i] == chunks;
      tail := "";
    } else {
      var more := WholePrefix(chunks, i + 1);
      assert chunks[..i + 1][..i] == chunks[..i];
      tail := chunks[i] + more;
    }
  }

  /** What one more chunk adds. */
  lemma NextChunk(chunks: seq<string>, i: nat, pieces: seq<string>)
    requires i < |chunks| && pieces == Split(Last(Split(Whole(chunks[..i]))) + chunks[i])
    ensures Split(Whole(chunks[..i + 1])) == Front(Split(Whole(chunks[..i]))) + pieces
    ensures Front(Split(Whole(chunks[..i + 1]))) == Front(Split(Whole(chunks[..i]))) + Front(pieces)
    ensures Last(Split(Whole(chunks[..i + 1]))) == Last(pieces)
  {
    assert chunks[..i + 1][..i] == chunks[..i];
    SplitAppend(Whole(chunks[..i]), chunks[i]);
  }

  /** What was delivered before an error stays a prefix of the stripped lines. */
  lemma Delivered(chunks: seq<string>, i: nat)
    requires i <= |chunks|
    ensures !Bounded(Split(Whole(chunks[..i]))) ==> !Bounded(Split(Whole(chunks)))
    ensures Front(Split(Whole(chunks[..i]))) <= Split(Whole(chunks))
  {
    var tail := WholePrefix(chunks, i);
    SplitAppend(Whole(chunks[..i]), tail);
    if !Bounded(Split(Whole(chunks[..i]))) { Overflow(Whole(chunks[..i]), tail); }
  }

  lemma BoundedParts(front: seq<string>, pieces: seq<string>)
    requires pieces != []
    ensures Bounded(front + pieces) <==> Bounded(front) && Bounded(Front(pieces)) && |Last(pieces)| <= LOG_READ_BYTES
    ensures Bounded(front + Front(pieces)) <==> Bounded(front) && Bounded(Front(pieces))
  {
    assert pieces == Front(pieces) + [Last(pieces)];
    forall p ensures p in pieces <==> p in Front(pieces) || p == Last(pieces) { }
    forall p ensures p in front + pieces <==> p in front || p in pieces { }
  }

  lemma FrontBounded(pieces: seq<string>)
    requires pieces != [] && Bounded(pieces)
    ensures Bounded(Front(pieces))
  {
    assert forall p :: p in Front(pieces) ==> p in pieces;
  }

  lemma StripPrefix(a: seq<string>, b: seq<string>)
    requires a <= b
    ensures StripAll(a) <= StripAll(b)
  {
  }

  lemma Beginning(chunks: seq<string>)
    ensures Last(Split(Whole(chunks[..0]))) == "" && Front(Split(Whole(chunks[..0]))) == [] && Bounded(Split(Whole(chunks[..0])))
  {
  }

  /** Completed pieces are delivered one by one until one is oversized. */
  method DeliverAll(pieces: seq<string>, before: seq<string>) returns (r: Status, lines: seq<string>)
    ensures r.Done? <==> Bounded(pieces)
    ensures before <= lines <= before + StripAll(pieces) && (r.Done? ==> lines == before + StripAll(pieces))
  {
    lines := before;
    var i := 0;
    while i < |pieces|
      invariant 0 <= i <= |pieces| && lines == before + StripAll(pieces[..i]) && Bounded(pieces[..i])
    {
      if |pieces[i]| > LOG_READ_BYTES {
        StripPrefix(pieces[..i], pieces);
        return Raised, lines;
      }
      assert pieces[..i + 1] == pieces[..i] + [pieces[i]];
      assert StripAll(pieces[..i + 1]) == StripAll(pieces[..i]) + [Strip(pieces[i])];
      lines := lines + [Strip(pieces[i])];
      i := i + 1;
    }
    assert pieces[..i] == pieces;
    return Done, lines;
  }

  /** `_stream_log_lines`: what is delivered depends on the bytes alone, never on how they were cut. It ends well
      exactly if no piece between newlines is oversized and the last one is empty. */
  method StreamLines(chunks: seq<string>) returns (r: Status, lines: seq<string>, ghost pieces: seq<string>)
    ensures Cut(Whole(chunks), pieces) && forall other :: Cut(Whole(chunks), other) ==> other == pieces
    ensures r.Done? <==> (forall p :: p in pieces ==> |p| <= LOG_READ_BYTES) && pieces[|pieces| - 1] == ""
    ensures |lines| <= |pieces| && forall i :: 0 <= i < |lines| ==> Trimmed(pieces[i], lines[i])
    ensures r.Done? ==> |lines| == |pieces| - 1
    ensures pieces == Split(Whole(chunks))
    ensures r.Done? ==> lines == StripAll(Front(Split(Whole(chunks))))
    ensures r.Raised? ==> lines <= StripAll(Split(Whole(chunks)))
  {
    hide Split, Whole, Strip, Cut, Trimmed;
    pieces := Split(Whole(chunks));
    SplitCuts(Whole(chunks));
    forall other | Cut(Whole(chunks), other) ensures other == pieces { CutUnique(Whole(chunks), other); }
    r, lines := StreamPieces(chunks);
    Trims(pieces, lines);
  }

  /** The same in terms of the split. */
  method StreamPieces(chunks: seq<string>) returns (r: Status, lines: seq<string>)
    ensures r.Done? <==> Bounded(Split(Whole(chunks))) && Last(Split(Whole(chunks))) == ""
    ensures r.Done? ==> lines == StripAll(Front(Split(Whole(chunks))))
    ensures r.Raised? ==> lines <= StripAll(Split(Whole(chunks)))
  {
    hide Split, Bounded, Front, Last, Whole, Strip;
    lines := [];
    var pending := "";
    var i := 0;
    Beginning(chunks);
    while i < |chunks|
      invariant 0 <= i <= |chunks|
      invariant pending == Last(Split(Whole(chunks[..i]))) && lines == StripAll(Front(Split(Whole(chunks[..i]))))
      invariant Bounded(Split(Whole(chunks[..i])))
    {
      ghost var front := Front(Split(Whole(chunks[..i])));
      var pieces := Split(pending + chunks[i]);
      NextChunk(chunks, i, pieces);
      FrontBounded(Split(Whole(chunks[..i])));
      BoundedParts(front, pieces);
      Delivered(chunks, i + 1);
      StripPrefix(front + Front(pieces), Split(Whole(chunks)));
      assert StripAll(front + Front(pieces)) == StripAll(front) + StripAll(Front(pieces));
      pending := Last(pieces);
      r, lines := DeliverAll(Front(pieces), lines);
      if r.Raised? { return; }
      if |pending| > LOG_READ_BYTES { return Raised, lines; }
      i := i + 1;
    }
    Delivered(chunks, i);
    StripPrefix(Front(Split(Whole(chunks[..i]))), Split(Whole(chunks)));
    assert chunks[..i] == chunks;
    if pending != "" { return Raised, lines; }
    return Done, lines;
  }
}
