/** Cutting a message into fragments, on either side of the wire, and what the cut pieces spell. */
module Fragments {
  import opened Common

  const MAX_FRAGMENT_PART_BYTES: int := 2048
  const TWO_32: int := 0x1_0000_0000

  /** `index` and `count` are 32-bit on the wire. */
  datatype Fragment = Fragment(requestId: nat, index: nat, count: nat, part: Bytes)

  datatype Frame = Whole(body: Bytes) | Piece(fragment: Fragment)

  /** A conversion to uint32. */
  function U32(x: nat): (r: nat)
    ensures r < TWO_32 && (x < TWO_32 ==> r == x)
  {
    x % TWO_32
  }

  /** The server's part size: the negotiated budget, never past the ceiling. */
  function PartSize(budget: int): (size: int)
    ensures 1 <= size <= MAX_FRAGMENT_PART_BYTES
    ensures 1 <= budget <= MAX_FRAGMENT_PART_BYTES ==> size == budget
    ensures budget < 1 || MAX_FRAGMENT_PART_BYTES < budget ==> size == MAX_FRAGMENT_PART_BYTES
  {
    if budget <= 0 || MAX_FRAGMENT_PART_BYTES < budget then MAX_FRAGMENT_PART_BYTES else budget
  }

  /** How many parts of `p` octets a body of `n` takes. */
  function PartCount(n: nat, p: int): nat
    requires 1 <= p
  {
    (n + p - 1) / p
  }

  lemma PartCountBounds(n: nat, p: int)
    requires 1 <= p
    ensures (PartCount(n, p) - 1) * p < n <= PartCount(n, p) * p || (n == 0 && PartCount(n, p) == 0)
  {
    var c := PartCount(n, p);
    assert c * p + (n + p - 1) % p == n + p - 1;
    assert (c - 1) * p == c * p - p;
  }

  /** Where part `i` starts, cut at the end of the body. */
  function Offset(n: nat, p: int, i: nat): (o: nat)
    requires 1 <= p
    ensures o <= n
  {
    if i * p <= n then i * p else n
  }

  function PartOf(body: Bytes, p: int, i: nat): Bytes
    requires 1 <= p
  {
    OffsetMonotone(|body|, p, i, i + 1);
    body[Offset(|body|, p, i)..Offset(|body|, p, i + 1)]
  }

  lemma OffsetMonotone(n: nat, p: int, i: nat, j: nat)
    requires 1 <= p && i <= j
    ensures Offset(n, p, i) <= Offset(n, p, j)
    ensures Offset(n, p, i + 1) - Offset(n, p, i) <= p
  {
    ScaleUp(i, j, p);
    NextMultiple(i, p);
  }

  function PieceOf(body: Bytes, requestId: nat, p: int, i: nat): Fragment
    requires 1 <= p
  {
    Fragment(requestId, U32(i), U32(PartCount(|body|, p)), PartOf(body, p, i))
  }

  /** The pieces of a body that does not fit in one part. */
  function Pieces(body: Bytes, requestId: nat, p: int): (pieces: seq<Fragment>)
    requires 1 <= p
    ensures |pieces| == PartCount(|body|, p)
    ensures forall i :: 0 <= i < |pieces| ==> pieces[i] == PieceOf(body, requestId, p, i)
  {
    seq(PartCount(|body|, p), i requires 0 <= i < PartCount(|body|, p) => PieceOf(body, requestId, p, i))
  }

  function Frames(body: Bytes, requestId: nat, p: int): seq<Frame>
    requires 1 <= p
  {
    if |body| <= p then [Whole(body)]
    else seq(PartCount(|body|, p), i requires 0 <= i < PartCount(|body|, p) => Piece(PieceOf(body, requestId, p, i)))
  }

  /** One loop cuts for both sides: the server's over PartSize of its budget, the client's over its own part size. */
  method Cut(body: Bytes, requestId: nat, p: int) returns (frames: seq<Frame>)
    requires 1 <= p
    ensures frames == Frames(body, requestId, p)
  {
    if |body| <= p { return [Whole(body)]; }
    var count := (|body| + p - 1) / p;
    frames := [];
    for index := 0 to count
      invariant |frames| == index
      invariant forall i :: 0 <= i < index ==> frames[i] == Piece(PieceOf(body, requestId, p, i))
    {
      PieceFits(|body|, p, index);
      var end := if (index + 1) * p < |body| then (index + 1) * p else |body|;
      frames := frames + [Piece(Fragment(requestId, U32(index), U32(count), body[index * p..end]))];
    }
  }

  /** Every piece starts inside the body. */
  lemma PieceFits(n: nat, p: int, i: nat)
    requires 1 <= p && i < PartCount(n, p)
    ensures i * p < n
    ensures i * p <= (i + 1) * p
    ensures Offset(n, p, i) == i * p && Offset(n, p, i + 1) == if (i + 1) * p < n then (i + 1) * p else n
  {
    hide PartCount;
    PartCountBounds(n, p);
    ScaleUp(i, PartCount(n, p) - 1, p);
    NextMultiple(i, p);
  }

  function CutResponse(body: Bytes, requestId: nat, budget: int): seq<Frame> {
    Frames(body, requestId, PartSize(budget))
  }

  method ResponseFrames(body: Bytes, requestId: nat, budget: int) returns (frames: seq<Frame>)
    ensures frames == CutResponse(body, requestId, budget)
    ensures |body| <= PartSize(budget) ==> frames == [Whole(body)]
    ensures PartSize(budget) < |body| ==> AllPieces(frames) && FragmentsOf(frames) == Pieces(body, requestId, PartSize(budget))
  {
    frames := Cut(body, requestId, PartSize(budget));
    FramesAreThePieces(body, requestId, PartSize(budget));
  }

  /** The client's cutter: a part size of zero or less does not cut at all. */
  function CutRequest(body: Bytes, requestId: nat, partBytes: int): seq<Frame> {
    if partBytes <= 0 then [Whole(body)] else Frames(body, requestId, partBytes)
  }

  method RequestFrames(body: Bytes, requestId: nat, partBytes: int) returns (frames: seq<Frame>)
    ensures frames == CutRequest(body, requestId, partBytes)
    ensures partBytes <= 0 || |body| <= partBytes ==> frames == [Whole(body)]
    ensures 0 < partBytes < |body| ==> AllPieces(frames) && FragmentsOf(frames) == Pieces(body, requestId, partBytes)
  {
    if partBytes <= 0 { return [Whole(body)]; }
    frames := Cut(body, requestId, partBytes);
    FramesAreThePieces(body, requestId, partBytes);
  }

  // ---- what goes on the wire ----

  /** The fragments among these frames, in order. */
  function FragmentsOf(frames: seq<Frame>): seq<Fragment> {
    if |frames| == 0 then []
    else
      var rest, last := FragmentsOf(frames[..|frames| - 1]), frames[|frames| - 1];
      if last.Piece? then rest + [last.fragment] else rest
  }

  /** Whether every frame is a fragment. */
  predicate AllPieces(frames: seq<Frame>) {
    forall i :: 0 <= i < |frames| ==> frames[i].Piece?
  }

  lemma {:induction false} FragmentsInOrder(frames: seq<Frame>)
    requires AllPieces(frames)
    ensures |FragmentsOf(frames)| == |frames|
    ensures forall i :: 0 <= i < |frames| ==> FragmentsOf(frames)[i] == frames[i].fragment
  {
    if |frames| != 0 { FragmentsInOrder(frames[..|frames| - 1]); }
  }

  /** A body that fits goes out whole; one that does not goes out as its pieces, all of them, in order. */
  lemma FramesAreThePieces(body: Bytes, requestId: nat, p: int)
    requires 1 <= p
    ensures |body| <= p ==> Frames(body, requestId, p) == [Whole(body)]
    ensures p < |body| ==>
              && AllPieces(Frames(body, requestId, p))
              && FragmentsOf(Frames(body, requestId, p)) == Pieces(body, requestId, p)
              && |Frames(body, requestId, p)| == PartCount(|body|, p) >= 2
  {
    hide PieceOf, FragmentsOf;
    PartCountBounds(|body|, p);
    if p < |body| { FragmentsInOrder(Frames(body, requestId, p)); }
  }

  // ---- what the pieces spell ----

  /** The parts of a run of fragments, end to end. */
  function Joined(pieces: seq<Fragment>): Bytes {
    if |pieces| == 0 then [] else Joined(pieces[..|pieces| - 1]) + pieces[|pieces| - 1].part
  }

  lemma NoOffset(n: nat, p: int)
    requires 1 <= p
    ensures Offset(n, p, 0) == 0
  {
  }

  lemma PieceIsTheNext(body: Bytes, requestId: nat, p: int, i: nat)
    requires 1 <= p && i < PartCount(|body|, p)
    ensures Offset(|body|, p, i) <= Offset(|body|, p, i + 1) <= |body|
    ensures Pieces(body, requestId, p)[i].part == body[Offset(|body|, p, i)..Offset(|body|, p, i + 1)]
  {
    hide PartCount;
    OffsetMonotone(|body|, p, i, i + 1);
  }

  /** The first `k` pieces spell the body up to where the next part starts. */
  lemma {:induction false} PiecesSpellAPrefix(body: Bytes, requestId: nat, p: int, k: nat)
    requires 1 <= p && k <= PartCount(|body|, p)
    ensures Joined(Pieces(body, requestId, p)[..k]) == body[..Offset(|body|, p, k)]
  {
    hide Pieces, PieceOf, PartCount, Offset;
    NoOffset(|body|, p);
    var pieces := Pieces(body, requestId, p);
    if k != 0 {
      PiecesSpellAPrefix(body, requestId, p, k - 1);
      assert pieces[..k][..k - 1] == pieces[..k - 1];
      PieceIsTheNext(body, requestId, p, k - 1);
    }
  }

  /** Both cutters, for every body: one whole frame exactly when it is not to be cut, and else fragments that spell it. */
  lemma FramesSpellTheBody(body: Bytes, requestId: nat, size: int)
    ensures var frames := CutRequest(body, requestId, size);
            && (size <= 0 || |body| <= size <==> frames == [Whole(body)])
            && (0 < size < |body| ==> AllPieces(frames) && Joined(FragmentsOf(frames)) == body)
    ensures var frames := CutResponse(body, requestId, size);
            && (|body| <= PartSize(size) <==> frames == [Whole(body)])
            && (PartSize(size) < |body| ==> AllPieces(frames) && Joined(FragmentsOf(frames)) == body)
  {
    hide Frames, FragmentsOf, Joined, Pieces, PartCount;
    if 1 <= size { FramesAreThePieces(body, requestId, size); PiecesSpellTheBody(body, requestId, size); }
    FramesAreThePieces(body, requestId, PartSize(size));
    PiecesSpellTheBody(body, requestId, PartSize(size));
  }

  /** All the pieces of a body spell the body. */
  lemma PiecesSpellTheBody(body: Bytes, requestId: nat, p: int)
    requires 1 <= p
    ensures Joined(Pieces(body, requestId, p)) == body
  {
    var pieces := Pieces(body, requestId, p);
    PiecesSpellAPrefix(body, requestId, p, |pieces|);
    PartCountBounds(|body|, p);
    assert pieces[..|pieces|] == pieces;
    assert Offset(|body|, p, |pieces|) == |body|;
  }

  /** As many parts as `c`, each no longer than `p`, are no longer than `c` times `p`. */
  lemma JoinedWithin(pieces: seq<Fragment>, p: nat, c: nat)
    requires forall i :: 0 <= i < |pieces| ==> |pieces[i].part| <= p
    ensures |pieces| == c ==> |Joined(pieces)| <= c * p
  {
    hide Joined;
    if |pieces| == c { JoinedIsShort(pieces, p); }
  }

  /** A run of parts no longer than `p` is no longer than `p` times their number. */
  lemma {:induction false} JoinedIsShort(pieces: seq<Fragment>, p: nat)
    requires forall i :: 0 <= i < |pieces| ==> |pieces[i].part| <= p
    ensures |Joined(pieces)| <= |pieces| * p
  {
    if |pieces| != 0 {
      JoinedIsShort(pieces[..|pieces| - 1], p);
      assert |pieces| * p == (|pieces| - 1) * p + p;
    }
  }

  /** The count fits its 32 bits exactly while the body is at most 2^32 - 1 parts long. */
  lemma CountFitsExactly(n: nat, p: int)
    requires 1 <= p
    ensures PartCount(n, p) < TWO_32 <==> n <= (TWO_32 - 1) * p
  {
    hide PartCount;
    PartCountBounds(n, p);
    var c := PartCount(n, p);
    if c < TWO_32 { ScaleUp(c, TWO_32 - 1, p); } else { ScaleUp(TWO_32 - 1, c - 1, p); }
  }

  /** A count that wraps names too few parts to hold the body it was cut from. */
  lemma WrappedCountIsShort(n: nat, p: int)
    requires 1 <= p && TWO_32 <= PartCount(n, p)
    ensures U32(PartCount(n, p)) * p < n
  {
    hide PartCount;
    var c := PartCount(n, p);
    PartCountBounds(n, p);
    WrappedProduct(c, U32(c), p, n);
  }

  lemma ManyPartsAreCut(n: nat, p: int)
    requires 1 <= p && 2 <= PartCount(n, p)
    ensures p < n
  {
    hide PartCount;
    PartCountBounds(n, p);
    ScaleUp(1, PartCount(n, p) - 1, p);
  }

  lemma WrappedProduct(c: nat, w: nat, p: int, n: nat)
    requires 1 <= p && w < c && (c - 1) * p < n
    ensures w * p < n
  {
    assert (c - 1) * p == w * p + (c - 1 - w) * p;
    assert (c - 1 - w) * p >= 0;
  }

  /** Every piece is no longer than the part size and names the same count. */
  lemma PiecesAreShort(body: Bytes, requestId: nat, p: int)
    requires 1 <= p
    ensures forall i :: 0 <= i < |Pieces(body, requestId, p)| ==>
              && |Pieces(body, requestId, p)[i].part| <= p
              && Pieces(body, requestId, p)[i].count == U32(PartCount(|body|, p))
  {
    forall i | 0 <= i < |Pieces(body, requestId, p)| ensures |PartOf(body, p, i)| <= p { OffsetMonotone(|body|, p, i, i + 1); }
  }
}
