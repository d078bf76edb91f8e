/** The client's own joiner, written apart from the server's: in order, or aborted. */
module ClientJoiner {
  import opened Common
  import opened Fragments

  /** What each open response has been given, by request id. */
  type Journal = map<nat, seq<Fragment>>

  datatype Outcome = Aborted | More | Complete(body: Bytes)

  predicate Aborts(j: Journal, f: Fragment) {
    || f.count <= f.index
    || (f.requestId !in j && f.index != 0)
    || (f.requestId in j && f.index != |j[f.requestId]|)
    || (f.requestId in j && |j[f.requestId]| != 0 && f.count != j[f.requestId][0].count)
  }

  function Accept(j: Journal, f: Fragment): (Journal, Outcome) {
    if Aborts(j, f) then (j - {f.requestId}, Aborted)
    else
      var parts := (if f.requestId in j then j[f.requestId] else []) + [f];
      if |parts| < f.count then (j[f.requestId := parts], More) else (j - {f.requestId}, Complete(Joined(parts)))
  }

  datatype Partial = Partial(count: nat, next: nat, bytes: Bytes)

  /** The buffer holds these parts, and is still waiting for one. */
  ghost predicate Buffers(p: Partial, parts: seq<Fragment>) {
    && |parts| != 0 && p.next == |parts| < p.count == parts[0].count
    && p.bytes == Joined(parts)
  }

  /** What the abort test reads of a buffer is what the journal says. */
  lemma BufferAborts(p: Partial, j: Journal, f: Fragment)
    requires f.requestId in j && Buffers(p, j[f.requestId])
    ensures Aborts(j, f) <==> f.count <= f.index || f.index != p.next || f.count != p.count
  {
  }

  lemma BufferGrows(p: Partial, parts: seq<Fragment>, f: Fragment)
    requires Buffers(p, parts) || (parts == [] && p == Partial(f.count, 0, []))
    requires f.count == p.count
    ensures var p' := p.(bytes := p.bytes + f.part, next := p.next + 1);
            && p'.next == |parts + [f]| && p'.bytes == Joined(parts + [f])
            && (p'.next < p'.count ==> Buffers(p', parts + [f]))
  {
    JoinedAppend(parts, f);
  }

  class Client {
    var partial: map<nat, Partial>
    var aborted: nat
    ghost var journal: Journal

    ghost predicate Valid()
      reads this
    {
      && partial.Keys == journal.Keys
      && forall id :: id in partial ==> Buffers(partial[id], journal[id])
    }

    constructor ()
      ensures Valid() && journal == map[] && aborted == 0
    {
      partial, aborted, journal := map[], 0, map[];
    }

    /** One fragment: its body when it is the last, and the buffer freed on every abort. */
    method AcceptFragment(f: Fragment) returns (body: Bytes, complete: bool)
      requires Valid()
      modifies this
      ensures Valid()
      ensures var (j', outcome) := Accept(old(journal), f);
              && journal == j'
              && (complete <==> outcome.Complete?)
              && (complete ==> body == outcome.body)
              && aborted == old(aborted) + if outcome.Aborted? then 1 else 0
    {
      hide Joined, Buffers;
      var id := f.requestId;
      var isOpen := id in partial;
      ghost var outcome := Accept(journal, f);
      if isOpen { BufferAborts(partial[id], journal, f); }
      if f.count <= f.index || (!isOpen && f.index != 0) || (isOpen && f.index != partial[id].next)
         || (isOpen && f.count != partial[id].count) {
        partial := partial - {id};
        aborted := aborted + 1;
        journal := outcome.0;
        return [], false;
      }
      var current := if isOpen then partial[id] else Partial(f.count, 0, []);
      BufferGrows(current, if id in journal then journal[id] else [], f);
      current := current.(bytes := current.bytes + f.part, next := current.next + 1);
      if current.next < current.count {
        partial := partial[id := current];
        journal := outcome.0;
        return [], false;
      }
      partial := partial - {id};
      journal := outcome.0;
      return current.bytes, true;
    }
  }

  lemma JoinedAppend(parts: seq<Fragment>, f: Fragment)
    ensures Joined(parts + [f]) == Joined(parts) + f.part
    ensures Joined([]) == []
  {
    assert (parts + [f])[..|parts|] == parts;
  }

  // ---- cutting and then joining ----

  function Project(arrivals: seq<Fragment>, id: nat): seq<Fragment> {
    if |arrivals| == 0 then []
    else if arrivals[0].requestId == id then [arrivals[0]] + Project(arrivals[1..], id)
    else Project(arrivals[1..], id)
  }

  function OutcomesFor(j: Journal, arrivals: seq<Fragment>, id: nat): seq<Outcome>
    decreases |arrivals|
  {
    if |arrivals| == 0 then []
    else
      var (j', outcome) := Accept(j, arrivals[0]);
      if arrivals[0].requestId == id then [outcome] + OutcomesFor(j', arrivals[1..], id) else OutcomesFor(j', arrivals[1..], id)
  }

  function Answers(n: nat, body: Bytes): seq<Outcome>
    requires 1 <= n
  {
    seq(n - 1, i => More) + [Complete(body)]
  }

  ghost predicate Holds(j: Journal, id: nat, pieces: seq<Fragment>, done: nat)
    requires done <= |pieces|
  {
    if done == 0 then id !in j else id in j && j[id] == pieces[..done]
  }

  ghost predicate InSequence(pieces: seq<Fragment>, id: nat) {
    forall i :: 0 <= i < |pieces| ==> pieces[i].requestId == id && pieces[i].index == i && pieces[i].count == |pieces|
  }

  lemma NextPieceTaken(j: Journal, id: nat, pieces: seq<Fragment>, done: nat)
    requires done < |pieces| && Holds(j, id, pieces, done) && InSequence(pieces, id)
    ensures var (j', outcome) := Accept(j, pieces[done]);
            if done + 1 < |pieces| then outcome == More && Holds(j', id, pieces, done + 1)
            else outcome == Complete(Joined(pieces))
  {
    hide Joined;
    assert pieces[..done + 1] == pieces[..done] + [pieces[done]];
    assert !Aborts(j, pieces[done]);
    if done + 1 == |pieces| { assert pieces[..done + 1] == pieces; }
  }

  lemma {:induction false} NothingLeft(j: Journal, arrivals: seq<Fragment>, id: nat)
    requires Project(arrivals, id) == []
    ensures OutcomesFor(j, arrivals, id) == []
    decreases |arrivals|
  {
    if |arrivals| != 0 { NothingLeft(Accept(j, arrivals[0]).0, arrivals[1..], id); }
  }

  lemma {:induction false} JoinsInSequence(j: Journal, arrivals: seq<Fragment>, id: nat, pieces: seq<Fragment>, done: nat)
    requires done < |pieces| && InSequence(pieces, id) && Holds(j, id, pieces, done)
    requires Project(arrivals, id) == pieces[done..]
    ensures OutcomesFor(j, arrivals, id) == Answers(|pieces| - done, Joined(pieces))
    decreases |arrivals|
  {
    hide Joined, InSequence;
    var f := arrivals[0];
    var j' := Accept(j, f).0;
    if f.requestId != id {
      JoinsInSequence(j', arrivals[1..], id, pieces, done);
    } else {
      assert f == pieces[done] && Project(arrivals[1..], id) == pieces[done + 1..];
      NextPieceTaken(j, id, pieces, done);
      if done + 1 < |pieces| {
        JoinsInSequence(j', arrivals[1..], id, pieces, done + 1);
        assert Answers(|pieces| - done, Joined(pieces)) == [More] + Answers(|pieces| - done - 1, Joined(pieces));
      } else {
        NothingLeft(j', arrivals[1..], id);
      }
    }
  }

  /**
   The other direction: a response that fits goes out as one frame that is its body, and of one that
   does not, whatever other responses' fragments fall between them, the client answers the last of the
   fragments the server's cutter sends with the server's body, and none before it.
   */
  lemma ClientJoinsWhatWasCut(j: Journal, arrivals: seq<Fragment>, id: nat, body: Bytes, budget: int)
    requires PartCount(|body|, PartSize(budget)) < TWO_32 && id !in j
    requires Project(arrivals, id) == FragmentsOf(CutResponse(body, id, budget))
    ensures var frames := CutResponse(body, id, budget);
            if |body| <= PartSize(budget) then frames == [Whole(body)]
            else AllPieces(frames) && 1 <= |frames| && OutcomesFor(j, arrivals, id) == Answers(|frames|, body)
  {
    hide Frames, FragmentsOf, AllPieces, OutcomesFor, Answers, PartCount;
    var p := PartSize(budget);
    FramesAreThePieces(body, id, p);
    if p < |body| {
      var pieces := Pieces(body, id, p);
      PiecesSpellTheBody(body, id, p);
      assert pieces[0..] == pieces;
      JoinsInSequence(j, arrivals, id, pieces, 0);
    }
  }

  // ---- nothing is joined but what arrived ----

  function Fed(arrivals: seq<Fragment>): Journal {
    if |arrivals| == 0 then map[] else Accept(Fed(arrivals[..|arrivals| - 1]), arrivals[|arrivals| - 1]).0
  }

  lemma {:induction false} ProjectLast(arrivals: seq<Fragment>, f: Fragment, id: nat)
    ensures Project(arrivals + [f], id) == Project(arrivals, id) + if f.requestId == id then [f] else []
  {
    if |arrivals| == 0 {
      assert (arrivals + [f])[1..] == [] && Project([], id) == [];
    } else {
      ProjectLast(arrivals[1..], f, id);
      assert (arrivals + [f])[1..] == arrivals[1..] + [f];
    }
  }

  ghost predicate LastInOrder(came: seq<Fragment>, parts: seq<Fragment>, id: nat) {
    && |parts| <= |came| && came[|came| - |parts|..] == parts
    && (forall i :: 0 <= i < |parts| ==> parts[i].requestId == id && parts[i].index == i && parts[i].count == parts[0].count)
  }

  ghost predicate HoldsWhatCame(j: Journal, arrivals: seq<Fragment>) {
    forall id :: id in j ==> j[id] != [] && LastInOrder(Project(arrivals, id), j[id], id)
  }

  lemma PieceFollows(j: Journal, f: Fragment, came: seq<Fragment>)
    requires !Aborts(j, f) && (f.requestId in j ==> j[f.requestId] != [] && LastInOrder(came, j[f.requestId], f.requestId))
    ensures var parts := Held(j, f.requestId);
            LastInOrder(came + [f], parts + [f], f.requestId) && f.index == |parts| < f.count
  {
    var parts := Held(j, f.requestId);
    assert (came + [f])[|came| - |parts|..] == came[|came| - |parts|..] + [f];
  }

  lemma ArrivalKeepsWhatCame(j: Journal, arrivals: seq<Fragment>, f: Fragment)
    requires HoldsWhatCame(j, arrivals)
    ensures HoldsWhatCame(Accept(j, f).0, arrivals + [f])
  {
    hide LastInOrder, Joined, Aborts, Project;
    var j' := Accept(j, f).0;
    forall id | id in j' ensures j'[id] != [] && LastInOrder(Project(arrivals + [f], id), j'[id], id) {
      ProjectLast(arrivals, f, id);
      if id == f.requestId { PieceFollows(j, f, Project(arrivals, id)); }
      else { assert Project(arrivals, id) + [] == Project(arrivals, id); }
    }
  }

  lemma {:induction false} FedHoldsWhatCame(arrivals: seq<Fragment>)
    ensures HoldsWhatCame(Fed(arrivals), arrivals)
  {
    hide Accept;
    if |arrivals| != 0 {
      FedHoldsWhatCame(arrivals[..|arrivals| - 1]);
      ArrivalKeepsWhatCame(Fed(arrivals[..|arrivals| - 1]), arrivals[..|arrivals| - 1], arrivals[|arrivals| - 1]);
      assert arrivals[..|arrivals| - 1] + [arrivals[|arrivals| - 1]] == arrivals;
    }
  }

  /** Whatever arrives: a body the client completes is what the last fragments of its response spell, in sequence and all of them. */
  lemma CompletedIsWhatCame(arrivals: seq<Fragment>, f: Fragment)
    requires Accept(Fed(arrivals), f).1.Complete?
    ensures var body, came := Accept(Fed(arrivals), f).1.body, Project(arrivals + [f], f.requestId);
            && f.count <= |came| && InSequence(came[|came| - f.count..], f.requestId) && body == Joined(came[|came| - f.count..])
  {
    hide Fed, Joined, Aborts, Project, LastInOrder, InSequence;
    FedHoldsWhatCame(arrivals);
    ProjectLast(arrivals, f, f.requestId);
    PieceFollows(Fed(arrivals), f, Project(arrivals, f.requestId));
    LastAreAll(Project(arrivals + [f], f.requestId), Held(Fed(arrivals), f.requestId), f);
  }

  lemma LastAreAll(came: seq<Fragment>, parts: seq<Fragment>, f: Fragment)
    requires LastInOrder(came, parts + [f], f.requestId) && |parts| + 1 == f.count
    ensures f.count <= |came| && came[|came| - f.count..] == parts + [f] && InSequence(parts + [f], f.requestId)
  {
    assert (parts + [f])[|parts|] == f;
  }

  /** A fragment that is not the next of its response, of its count, aborts it and frees what it held; any other is kept or completes it. */
  lemma AbortedExactly(arrivals: seq<Fragment>, f: Fragment)
    ensures var j, parts := Fed(arrivals), Held(Fed(arrivals), f.requestId);
            var (j', outcome) := Accept(j, f);
            && (outcome.Aborted? <==> !(f.index == |parts| < f.count && forall i :: 0 <= i < |parts| ==> parts[i].count == f.count))
            && (outcome.Aborted? || outcome.Complete? <==> f.requestId !in j')
            && (outcome.More? ==> f.requestId in j' && j'[f.requestId] == parts + [f])
            && (forall id :: id != f.requestId ==> (id in j' <==> id in j) && (id in j ==> j'[id] == j[id]))
  {
    hide Fed, Joined;
    FedHoldsWhatCame(arrivals);
    assert f.requestId in Fed(arrivals) ==> LastInOrder(Project(arrivals, f.requestId), Fed(arrivals)[f.requestId], f.requestId);
  }

  ghost predicate ShortPieces(pieces: seq<Fragment>, p: nat, c: nat) {
    forall i :: 0 <= i < |pieces| ==> |pieces[i].part| <= p && pieces[i].count == c
  }

  ghost function Held(j: Journal, id: nat): seq<Fragment> {
    if id in j then j[id] else []
  }

  lemma CompletedIsShort(j: Journal, f: Fragment, p: nat, c: nat)
    requires ShortPieces(Held(j, f.requestId), p, c) && |f.part| <= p && f.count == c
    ensures var (j', outcome) := Accept(j, f);
            && (outcome.Complete? ==> |outcome.body| <= c * p)
            && ShortPieces(Held(j', f.requestId), p, c)
  {
    hide Joined;
    JoinedWithin(Held(j, f.requestId) + [f], p, c);
  }

  lemma {:induction false} ShortPiecesJoinShort(j: Journal, arrivals: seq<Fragment>, id: nat, p: nat, c: nat)
    requires ShortPieces(Held(j, id), p, c) && ShortPieces(Project(arrivals, id), p, c)
    ensures forall o :: o in OutcomesFor(j, arrivals, id) && o.Complete? ==> |o.body| <= c * p
    decreases |arrivals|
  {
    hide Joined;
    if |arrivals| != 0 {
      var f := arrivals[0];
      if f.requestId == id {
        assert Project(arrivals, id)[0] == f && Project(arrivals, id)[1..] == Project(arrivals[1..], id);
        CompletedIsShort(j, f, p, c);
      }
      ShortPiecesJoinShort(Accept(j, f).0, arrivals[1..], id, p, c);
    }
  }

  /** A cut whose count wraps is never joined back into its body: the condition on the count is exact. */
  lemma WrappedCountNeverJoins(j: Journal, arrivals: seq<Fragment>, id: nat, body: Bytes, budget: int)
    requires TWO_32 <= PartCount(|body|, PartSize(budget)) && id !in j
    requires Project(arrivals, id) == FragmentsOf(CutResponse(body, id, budget))
    ensures Complete(body) !in OutcomesFor(j, arrivals, id)
  {
    hide Pieces, PartCount, U32, Frames, FragmentsOf;
    var p := PartSize(budget);
    ManyPartsAreCut(|body|, p);
    FramesAreThePieces(body, id, p);
    PiecesAreShort(body, id, p);
    ShortPiecesJoinShort(j, arrivals, id, p, U32(PartCount(|body|, p)));
    WrappedCountIsShort(|body|, p);
  }
}
