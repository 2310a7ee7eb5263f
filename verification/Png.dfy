/** The structural check of preview screenshots: the chunk walk of sections 3.2, 3.4 and 4.1 of RFC 2083. */
module Png {

  newtype byte = x: int | 0 <= x < 256

  type Bytes = seq<byte>

  datatype Chunk = Chunk(kind: Bytes, data: Bytes)

  const SIGNATURE: Bytes := [0x89, 0x50, 0x4e, 0x47, 0x0d, 0x0a, 0x1a, 0x0a]
  const IHDR: Bytes := [0x49, 0x48, 0x44, 0x52]
  const IDAT: Bytes := [0x49, 0x44, 0x41, 0x54]
  const IEND: Bytes := [0x49, 0x45, 0x4e, 0x44]

  /** `int.from_bytes(…, "big")` of four bytes. */
  function Be32(b: Bytes): (n: nat)
    requires |b| == 4
    ensures n < 0x1_0000_0000
  {
    ((b[0] as int * 256 + b[1] as int) * 256 + b[2] as int) * 256 + b[3] as int
  }

  function Enc32(n: nat): (b: Bytes)
    requires n < 0x1_0000_0000
    ensures |b| == 4
  {
    [(n / 0x100_0000) as byte, (n / 0x1_0000 % 256) as byte, (n / 256 % 256) as byte, (n % 256) as byte]
  }

  lemma EncBe(n: nat)
    requires n < 0x1_0000_0000
    ensures Be32(Enc32(n)) == n
  {
  }

  lemma BeEnc(b: Bytes)
    requires |b| == 4
    ensures Enc32(Be32(b)) == b
  {
    var n := Be32(b);
    assert n / 256 == (b[0] as int * 256 + b[1] as int) * 256 + b[2] as int;
    assert n / 0x1_0000 == b[0] as int * 256 + b[1] as int;
    assert n / 0x100_0000 == b[0] as int;
  }

  predicate Letters(kind: Bytes) {
    |kind| == 4 && forall b :: b in kind ==> 65 <= b <= 90 || 97 <= b <= 122
  }

  ghost predicate Fits(c: Chunk, crc: Bytes -> nat) {
    Letters(c.kind) && |c.data| < 0x1_0000_0000 && crc(c.kind + c.data) < 0x1_0000_0000
  }

  /** Length, type, data and checksum. */
  ghost function Encode(c: Chunk, crc: Bytes -> nat): Bytes
    requires Fits(c, crc)
  {
    Enc32(|c.data|) + c.kind + c.data + Enc32(crc(c.kind + c.data))
  }

  ghost predicate AllFit(cs: seq<Chunk>, crc: Bytes -> nat) {
    forall c :: c in cs ==> Fits(c, crc)
  }

  ghost function EncodeAll(cs: seq<Chunk>, crc: Bytes -> nat): Bytes
    requires AllFit(cs, crc)
  {
    if cs == [] then [] else Encode(cs[0], crc) + EncodeAll(cs[1..], crc)
  }

  /** The legal bit depths of each colour type. */
  function LegalDepths(colour: byte): set<byte> {
    if colour == 0 then {1, 2, 4, 8, 16}
    else if colour == 3 then {1, 2, 4, 8}
    else if colour == 2 || colour == 4 || colour == 6 then {8, 16}
    else {}
  }

  predicate LegalHeader(data: Bytes) {
    && |data| == 13 && data[8] in LegalDepths(data[9]) && data[10] == 0 && data[11] == 0 && data[12] in {0, 1}
  }

  predicate LegalSize(data: Bytes)
    requires |data| == 13
  {
    1 <= Be32(data[..4]) <= 32_768 && 200 <= Be32(data[4..8]) <= 32_768
  }

  /** One leading legal header, image data, and an empty end chunk with nothing after it. */
  predicate Legal(cs: seq<Chunk>) {
    var n := |cs|;
    && n >= 3 && cs[0].kind == IHDR && LegalHeader(cs[0].data) && LegalSize(cs[0].data)
    && (forall i :: 0 < i < n ==> cs[i].kind != IHDR)
    && (exists i :: 0 < i < n - 1 && cs[i].kind == IDAT)
    && (forall i :: 0 <= i < n ==> (cs[i].kind == IEND <==> i == n - 1)) && cs[n - 1].data == []
  }

  // ---------------------------------------------------------------- the walk

  /** The variables of the walk. */
  datatype Walk = Walk(first: bool, sawIdat: bool, width: nat, height: nat)

  const START := Walk(true, false, 0, 0)

  /** The chunk that `rest` begins with, if its bounds, type and checksum are right. */
  predicate Heads(rest: Bytes, crc: Bytes -> nat) {
    && |rest| >= 12
    && 12 + Be32(rest[..4]) <= |rest|
    && Letters(rest[4..8])
    && crc(rest[4..8] + rest[8..8 + Be32(rest[..4])]) == Be32(rest[8 + Be32(rest[..4])..12 + Be32(rest[..4])])
  }

  function Head(rest: Bytes): Chunk
    requires |rest| >= 12 && 12 + Be32(rest[..4]) <= |rest|
  {
    Chunk(rest[4..8], rest[8..8 + Be32(rest[..4])])
  }

  function Tail(rest: Bytes): Bytes
    requires |rest| >= 12 && 12 + Be32(rest[..4]) <= |rest|
  {
    rest[12 + Be32(rest[..4])..]
  }

  /** A chunk may come next. */
  predicate Allowed(w: Walk, c: Chunk) {
    if w.first then c.kind == IHDR && LegalHeader(c.data) else c.kind != IHDR
  }

  function After(w: Walk, c: Chunk): Walk
    requires Allowed(w, c)
  {
    Walk(false, w.sawIdat || c.kind == IDAT,
         if w.first then Be32(c.data[..4]) else w.width, if w.first then Be32(c.data[4..8]) else w.height)
  }

  predicate Bounded(w: Walk) {
    1 <= w.width <= 32_768 && 200 <= w.height <= 32_768
  }

  /** Whether a walk in state `w` accepts the remaining bytes. */
  predicate Accepts(rest: Bytes, w: Walk, crc: Bytes -> nat)
    decreases |rest|
  {
    rest != [] && Heads(rest, crc) && Allowed(w, Head(rest)) &&
      var next := After(w, Head(rest));
      if Head(rest).kind == IEND then Head(rest).data == [] && next.sawIdat && Tail(rest) == [] && Bounded(next)
      else Accepts(Tail(rest), next, crc)
  }

  // ---------------------------------------------------------------- exactness

  /** Decoding the head of an encoded list gives its first chunk. */
  lemma HeadEncoded(c: Chunk, more: Bytes, crc: Bytes -> nat)
    requires Fits(c, crc)
    ensures var rest := Encode(c, crc) + more; Heads(rest, crc) && Head(rest) == c && Tail(rest) == more
  {
    hide Be32, Enc32, Letters;
    var rest := Encode(c, crc) + more;
    var n := |c.data|;
    KindLength(c, crc);
    EncBe(n);
    EncBe(crc(c.kind + c.data));
    Slices(Enc32(n), c.kind, c.data, Enc32(crc(c.kind + c.data)), more);
  }

  lemma KindLength(c: Chunk, crc: Bytes -> nat)
    requires Fits(c, crc)
    ensures |c.kind| == 4 && |c.data| < 0x1_0000_0000 && |Enc32(|c.data|)| == 4 && |Enc32(crc(c.kind + c.data))| == 4
  {
  }

  lemma Slices(a: Bytes, kind: Bytes, data: Bytes, sum: Bytes, more: Bytes)
    requires |a| == |kind| == |sum| == 4
    ensures var rest := a + kind + data + sum + more; var n := |data|;
            && |rest| == 12 + n + |more| && rest[..4] == a && rest[4..8] == kind && rest[8..8 + n] == data
            && rest[8 + n..12 + n] == sum && rest[12 + n..] == more
  {
  }

  /** A well-formed head is the encoding of its chunk. */
  lemma EncodedHead(rest: Bytes, crc: Bytes -> nat)
    requires Heads(rest, crc)
    ensures Fits(Head(rest), crc) && rest == Encode(Head(rest), crc) + Tail(rest)
  {
    var n := Be32(rest[..4]);
    var c := Head(rest);
    BeEnc(rest[..4]);
    BeEnc(rest[8 + n..12 + n]);
    assert |c.data| == n && crc(c.kind + c.data) == Be32(rest[8 + n..12 + n]);
    assert rest == rest[..4] + rest[4..8] + rest[8..8 + n] + rest[8 + n..12 + n] + rest[12 + n..];
  }

  /** Legality of the chunks a walk in state `w` still has to see. */
  ghost predicate LegalFrom(cs: seq<Chunk>, w: Walk) {
    cs != [] && Allowed(w, cs[0]) &&
      var next := After(w, cs[0]);
      if cs[0].kind == IEND then cs[0].data == [] && next.sawIdat && |cs| == 1 && Bounded(next)
      else LegalFrom(cs[1..], next)
  }

  lemma {:induction false} AcceptsEncoded(cs: seq<Chunk>, w: Walk, crc: Bytes -> nat)
    requires AllFit(cs, crc) && LegalFrom(cs, w)
    ensures Accepts(EncodeAll(cs, crc), w, crc)
    decreases |cs|
  {
    hide Heads, Head, Tail, Fits, Encode;
    assert cs[0] in cs && forall c :: c in cs[1..] ==> c in cs;
    HeadEncoded(cs[0], EncodeAll(cs[1..], crc), crc);
    NonemptyEncoding(cs[0], EncodeAll(cs[1..], crc), crc);
    if cs[0].kind == IEND {
      assert cs[1..] == [];
    } else {
      AcceptsEncoded(cs[1..], After(w, cs[0]), crc);
    }
  }

  lemma NonemptyEncoding(c: Chunk, more: Bytes, crc: Bytes -> nat)
    requires Fits(c, crc)
    ensures Encode(c, crc) + more != []
  {
    assert |Encode(c, crc)| >= 4;
  }

  lemma {:induction false} AcceptedChunks(rest: Bytes, w: Walk, crc: Bytes -> nat) returns (cs: seq<Chunk>)
    requires Accepts(rest, w, crc)
    ensures AllFit(cs, crc) && rest == EncodeAll(cs, crc) && LegalFrom(cs, w)
    decreases |rest|
  {
    hide Fits, Encode;
    var c := Head(rest);
    EncodedHead(rest, crc);
    if c.kind == IEND {
      cs := [c];
      assert cs[1..] == [] && EncodeAll([], crc) == [];
      assert Encode(c, crc) + [] == Encode(c, crc);
    } else {
      var more := AcceptedChunks(Tail(rest), After(w, c), crc);
      cs := [c] + more;
      assert cs[1..] == more;
    }
  }

  /** Legality step by step is legality as a whole. */
  lemma {:induction false} LegalLater(cs: seq<Chunk>, w: Walk)
    requires !w.first
    ensures LegalFrom(cs, w) <==>
              && cs != [] && (forall i :: 0 <= i < |cs| ==> cs[i].kind != IHDR)
              && (w.sawIdat || exists i :: 0 <= i < |cs| - 1 && cs[i].kind == IDAT)
              && (forall i :: 0 <= i < |cs| ==> (cs[i].kind == IEND <==> i == |cs| - 1)) && cs[|cs| - 1].data == [] && Bounded(w)
    decreases |cs|
  {
    if cs != [] && Allowed(w, cs[0]) && cs[0].kind != IEND {
      var more := cs[1..];
      LegalLater(more, After(w, cs[0]));
      assert forall i :: 0 < i < |cs| ==> cs[i] == more[i - 1];
      assert forall i :: 0 <= i < |more| ==> more[i] == cs[i + 1];
      assert more != [] ==> cs[|cs| - 1] == more[|more| - 1];
    }
  }

  lemma LegalIsLegal(cs: seq<Chunk>)
    ensures LegalFrom(cs, START) <==> Legal(cs)
  {
    if cs != [] && cs[0].kind == IHDR && LegalHeader(cs[0].data) {
      var more := cs[1..];
      LegalLater(more, After(START, cs[0]));
      assert forall i :: 0 < i < |cs| ==> cs[i] == more[i - 1];
      assert forall i :: 0 <= i < |more| ==> more[i] == cs[i + 1];
      assert more != [] ==> cs[|cs| - 1] == more[|more| - 1];
    }
  }

  /** A payload is accepted exactly when it is the signature followed by the encoding of a legal chunk list. */
  ghost predicate Encodes(payload: Bytes, cs: seq<Chunk>, crc: Bytes -> nat) {
    AllFit(cs, crc) && Legal(cs) && payload == SIGNATURE + EncodeAll(cs, crc)
  }

  lemma AcceptanceIsExact(payload: Bytes, crc: Bytes -> nat)
    ensures SIGNATURE <= payload && Accepts(payload[8..], START, crc) <==> exists cs :: Encodes(payload, cs, crc)
  {
    if SIGNATURE <= payload && Accepts(payload[8..], START, crc) {
      var cs := AcceptedChunks(payload[8..], START, crc);
      LegalIsLegal(cs);
      assert payload == SIGNATURE + payload[8..];
      assert Encodes(payload, cs, crc);
    }
    if cs :| Encodes(payload, cs, crc) {
      LegalIsLegal(cs);
      AcceptsEncoded(cs, START, crc);
      assert payload[8..] == EncodeAll(cs, crc);
    }
  }

  /** `_verify_png` */
  method VerifyPng(payload: Bytes, crc: Bytes -> nat) returns (ok: bool)
    ensures ok <==> exists cs :: Encodes(payload, cs, crc)
  {
    hide Be32, Letters, Encodes;
    AcceptanceIsExact(payload, crc);
    if !(SIGNATURE <= payload) { return false; }
    var offset := 8;
    var first, sawIdat, sawIend := true, false, false;
    var width, height := 0, 0;
    while offset < |payload|
      invariant 8 <= offset <= |payload| && !sawIend
      invariant Accepts(payload[8..], START, crc) == Accepts(payload[offset..], Walk(first, sawIdat, width, height), crc)
      decreases |payload| - offset
    {
      ghost var rest := payload[offset..];
      if |payload| - offset < 12 { return false; }
      assert rest[..4] == payload[offset..offset + 4] && rest[4..8] == payload[offset + 4..offset + 8];
      var length := Be32(payload[offset..offset + 4]);
      var kind := payload[offset + 4..offset + 8];
      var dataStart := offset + 8;
      var dataEnd := dataStart + length;
      var chunkEnd := dataEnd + 4;
      if chunkEnd > |payload| || !Letters(kind) { return false; }
      var data := payload[dataStart..dataEnd];
      assert rest[8..8 + length] == data && rest[8 + length..12 + length] == payload[dataEnd..chunkEnd];
      assert rest[12 + length..] == payload[chunkEnd..];
      if crc(kind + data) != Be32(payload[dataEnd..chunkEnd]) { return false; }
      assert Head(rest) == Chunk(kind, data) && Tail(rest) == payload[chunkEnd..];
      if first {
        if kind != IHDR || length != 13 { return false; }
        width, height := Be32(data[..4]), Be32(data[4..8]);
        if data[8] !in LegalDepths(data[9]) || data[10] != 0 || data[11] != 0 || data[12] !in {0, 1} { return false; }
        first := false;
      } else if kind == IHDR {
        return false;
      }
      if kind == IDAT { sawIdat := true; }
      if kind == IEND {
        if length != 0 || !sawIdat || chunkEnd != |payload| { return false; }
        sawIend := true;
        break;
      }
      offset := chunkEnd;
    }
    if first || !sawIend || !(1 <= width <= 32_768 && 200 <= height <= 32_768) { return false; }
    return true;
  }
}
