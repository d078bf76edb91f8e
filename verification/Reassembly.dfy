/**
 Joining fragments, as plainly as it can be said: a journal of the fragments each open request has
 been given, expired by looking at every one of them. Reassembler.dfy is the server's own joiner,
 with its buffers, counters and expiry list, proved to do exactly this.
 */
module Reassembly {
  import opened Common
  import opened Records
  import opened Fragments

  datatype Key = Key(client: nat, requestId: nat)

  /** What one open request has been given, and when its first fragment came. */
  datatype Entry = Entry(started: Time, parts: seq<Fragment>)

  type Journal = map<Key, Entry>

  datatype Config = Config(maxRequestBytes: int, perClient: int, maxReassemblies: int, idle: int)

  datatype Outcome = Aborted(reason: Reason) | More | Complete(body: Bytes)

  /** Whether a reassembly begun at `started` has outlived the bound at `now`; an idle of 0 bounds nothing. */
  predicate Expired(config: Config, started: Time, now: Time) {
    config.idle != 0 && started < now - config.idle
  }

  /** The full scan: every reassembly past the bound goes. */
  function Expire(config: Config, j: Journal, now: Time): Journal {
    map k | k in j && !Expired(config, j[k].started, now) :: j[k]
  }

  function OpenFor(j: Journal, client: nat): set<Key> {
    set k | k in j && k.client == client
  }

  function PartsAt(j: Journal, key: Key): seq<Fragment> {
    if key in j then j[key].parts else []
  }

  /** The first abort a fragment meets, in the order they are asked. */
  function AbortOf(config: Config, j: Journal, key: Key, f: Fragment): Reason {
    var parts := PartsAt(j, key);
    if f.count <= f.index then ReasonRejected
    else if f.index != |parts| then ReasonRejected
    else if key in j && |parts| != 0 && f.count != parts[0].count then ReasonRejected
    else if key !in j && config.perClient <= |OpenFor(j, key.client)| then ReasonRejected
    else if key !in j && 0 < config.maxReassemblies <= |j| then ReasonRejected
    else if config.maxRequestBytes < |Joined(parts)| + |f.part| then ReasonOversize
    else ReasonOk
  }

  /** One fragment applied to what has not expired. */
  function ApplyPiece(config: Config, j: Journal, key: Key, f: Fragment, started: Time): (Journal, Outcome) {
    var reason := AbortOf(config, j, key, f);
    if reason != ReasonOk then (j - {key}, Aborted(reason))
    else
      var parts := PartsAt(j, key) + [f];
      if |parts| < f.count then (j[key := Entry(if key in j then j[key].started else started, parts)], More)
      else (j - {key}, Complete(Joined(parts)))
  }

  /** One fragment arriving: `now` is the expiry's reading of the clock, `started` the one a new buffer is stamped with. */
  function Accept(config: Config, j: Journal, client: nat, f: Fragment, now: Time, started: Time): (Journal, Outcome) {
    ApplyPiece(config, Expire(config, j, now), Key(client, f.requestId), f, started)
  }

  // ---- what every reachable journal satisfies ----

  /** Parts 0, 1, ... in order, all of one count that has not been reached, within the byte bound. */
  ghost predicate EntrySound(config: Config, e: Entry) {
    && |e.parts| != 0
    && (forall i :: 0 <= i < |e.parts| ==> e.parts[i].index == i && e.parts[i].count == e.parts[0].count)
    && |e.parts| < e.parts[0].count
    && |Joined(e.parts)| <= config.maxRequestBytes
  }

  ghost predicate JournalInv(config: Config, j: Journal, clock: Time) {
    && (forall k :: k in j ==> EntrySound(config, j[k]) && j[k].started <= clock)
    && (forall c :: OpenFor(j, c) == {} || |OpenFor(j, c)| <= config.perClient)
    && (0 < config.maxReassemblies ==> |j| <= config.maxReassemblies)
  }

  lemma ShrinkKeepsCaps(config: Config, j: Journal, j': Journal, clock: Time)
    requires JournalInv(config, j, clock)
    requires forall k :: k in j' ==> k in j && j'[k] == j[k]
    ensures JournalInv(config, j', clock)
  {
    forall c ensures OpenFor(j', c) == {} || |OpenFor(j', c)| <= config.perClient {
      CardMonotone(OpenFor(j', c), OpenFor(j, c));
    }
    CardMonotone(j'.Keys, j.Keys);
    assert |j'| == |j'.Keys| && |j| == |j.Keys|;
  }

  lemma CardMonotone<T>(a: set<T>, b: set<T>)
    requires a <= b
    ensures |a| <= |b|
  {
    assert b == a + (b - a);
  }

  lemma ApplyExtends(config: Config, j: Journal, key: Key, f: Fragment, started: Time, clock: Time)
    requires JournalInv(config, j, clock) && clock <= started
    requires AbortOf(config, j, key, f) == ReasonOk && |PartsAt(j, key)| + 1 < f.count
    ensures EntrySound(config, ApplyPiece(config, j, key, f, started).0[key])
  {
    var parts := PartsAt(j, key);
    assert key in j ==> EntrySound(config, j[key]);
    assert (parts + [f])[..|parts|] == parts;
  }

  lemma ApplyKeepsCaps(config: Config, j: Journal, key: Key, f: Fragment, started: Time, clock: Time)
    requires JournalInv(config, j, clock)
    requires AbortOf(config, j, key, f) == ReasonOk && |PartsAt(j, key)| + 1 < f.count
    ensures var j' := ApplyPiece(config, j, key, f, started).0;
            && (forall c :: OpenFor(j', c) == {} || |OpenFor(j', c)| <= config.perClient)
            && (0 < config.maxReassemblies ==> |j'| <= config.maxReassemblies)
  {
    hide EntrySound, Joined, AbortOf, OpenFor;
    var j' := ApplyPiece(config, j, key, f, started).0;
    OpensWithRoom(config, j, key, f);
    assert j'.Keys == j.Keys + {key} && |j'| == |j'.Keys| && |j| == |j.Keys|;
    forall c ensures OpenFor(j', c) == {} || |OpenFor(j', c)| <= config.perClient {
      OpenedOne(j, j', key, c);
    }
  }

  lemma OpenedOne(j: Journal, j': Journal, key: Key, c: nat)
    requires j'.Keys == j.Keys + {key}
    ensures OpenFor(j', c) == OpenFor(j, c) + if c == key.client then {key} else {}
    ensures |OpenFor(j', c)| == |OpenFor(j, c)| + if c == key.client && key !in j then 1 else 0
    ensures key in j && c == key.client ==> OpenFor(j, c) != {}
  {
    assert OpenFor(j', c) == OpenFor(j, c) + if c == key.client then {key} else {};
    if key in j && c == key.client { assert key in OpenFor(j, c) && OpenFor(j', c) == OpenFor(j, c); }
  }

  lemma OpensWithRoom(config: Config, j: Journal, key: Key, f: Fragment)
    requires AbortOf(config, j, key, f) == ReasonOk
    ensures key !in j ==> |OpenFor(j, key.client)| < config.perClient && (0 < config.maxReassemblies ==> |j| < config.maxReassemblies)
  {
  }

  lemma ApplyKeepsInv(config: Config, j: Journal, key: Key, f: Fragment, started: Time, clock: Time)
    requires JournalInv(config, j, clock) && clock <= started
    ensures JournalInv(config, ApplyPiece(config, j, key, f, started).0, started)
  {
    hide EntrySound, AbortOf, OpenFor, Joined;
    var j' := ApplyPiece(config, j, key, f, started).0;
    if AbortOf(config, j, key, f) == ReasonOk && |PartsAt(j, key)| + 1 < f.count {
      ApplyExtends(config, j, key, f, started, clock);
      ApplyKeepsCaps(config, j, key, f, started, clock);
    } else {
      ShrinkKeepsCaps(config, j, j', clock);
    }
  }

  /** Every fragment, whatever it holds, keeps both caps, the byte bound and the order of parts. */
  lemma AcceptKeepsInv(config: Config, j: Journal, client: nat, f: Fragment, now: Time, started: Time, clock: Time)
    requires JournalInv(config, j, clock) && clock <= now <= started
    ensures JournalInv(config, Accept(config, j, client, f, now, started).0, started)
  {
    hide JournalInv, ApplyPiece;
    ShrinkKeepsCaps(config, j, Expire(config, j, now), clock);
    ApplyKeepsInv(config, Expire(config, j, now), Key(client, f.requestId), f, started, clock);
  }

  // ---- cutting and then joining ----

  datatype Arrival = Arrival(client: nat, fragment: Fragment, now: Time, started: Time)

  function KeyOf(a: Arrival): Key {
    Key(a.client, a.fragment.requestId)
  }

  ghost predicate Timed(arrivals: seq<Arrival>, since: Time)
    decreases |arrivals|
  {
    |arrivals| == 0 || (since <= arrivals[0].now <= arrivals[0].started && Timed(arrivals[1..], arrivals[0].started))
  }

  /** The fragments of one key, in the order they arrive. */
  function Project(arrivals: seq<Arrival>, key: Key): seq<Fragment>
    decreases |arrivals|
  {
    if |arrivals| == 0 then []
    else if KeyOf(arrivals[0]) == key then [arrivals[0].fragment] + Project(arrivals[1..], key)
    else Project(arrivals[1..], key)
  }

  function After(config: Config, j: Journal, a: Arrival): Journal {
    Accept(config, j, a.client, a.fragment, a.now, a.started).0
  }

  /** What the joiner answered to the fragments of one key, in order. */
  function OutcomesFor(config: Config, j: Journal, arrivals: seq<Arrival>, key: Key): seq<Outcome>
    decreases |arrivals|
  {
    if |arrivals| == 0 then []
    else
      var rest := OutcomesFor(config, After(config, j, arrivals[0]), arrivals[1..], key);
      if KeyOf(arrivals[0]) == key
      then [Accept(config, j, arrivals[0].client, arrivals[0].fragment, arrivals[0].now, arrivals[0].started).1] + rest
      else rest
  }

  /** The fragment that would open `key` finds both caps unreached. */
  ghost predicate RoomToOpen(config: Config, j: Journal, arrivals: seq<Arrival>, key: Key)
    decreases |arrivals|
  {
    |arrivals| == 0 ||
    if KeyOf(arrivals[0]) == key then
      var open := Expire(config, j, arrivals[0].now);
      |OpenFor(open, key.client)| < config.perClient && (0 < config.maxReassemblies ==> |open| < config.maxReassemblies)
    else RoomToOpen(config, After(config, j, arrivals[0]), arrivals[1..], key)
  }

  /** No reading of the clock in the run passes the bound of a reassembly begun at `since`. */
  ghost predicate NoExpiry(config: Config, arrivals: seq<Arrival>, since: Time) {
    config.idle != 0 ==> forall i :: 0 <= i < |arrivals| ==> arrivals[i].now - config.idle <= since
  }

  /** The joiner holds exactly the first `done` pieces under `key`. */
  ghost predicate Holds(j: Journal, key: Key, pieces: seq<Fragment>, done: nat, since: Time)
    requires done <= |pieces|
  {
    if done == 0 then key !in j else key in j && j[key].parts == pieces[..done] && since <= j[key].started
  }

  /** Fragments 0, 1, ... of one count, as many as the count says. */
  ghost predicate InSequence(pieces: seq<Fragment>) {
    forall i :: 0 <= i < |pieces| ==> pieces[i].index == i && pieces[i].count == |pieces|
  }

  lemma OtherKeyUntouched(config: Config, j: Journal, a: Arrival, key: Key)
    requires KeyOf(a) != key
    ensures var e := Expire(config, j, a.now);
            var j' := After(config, j, a);
            (key in j' <==> key in e) && (key in e ==> j'[key] == e[key])
  {
    hide AbortOf, Joined;
  }

  lemma StillHeld(config: Config, j: Journal, key: Key, pieces: seq<Fragment>, done: nat, since: Time, now: Time)
    requires done <= |pieces| && Holds(j, key, pieces, done, since)
    requires config.idle != 0 ==> now - config.idle <= since
    ensures Holds(Expire(config, j, now), key, pieces, done, since)
  {
  }

  /** The next piece is taken: it completes the request if it is the last one, and never before. */
  lemma NextPieceTaken(config: Config, j: Journal, key: Key, pieces: seq<Fragment>, done: nat, since: Time, started: Time)
    requires done < |pieces| && Holds(j, key, pieces, done, since) && InSequence(pieces) && since <= started
    requires |Joined(pieces[..done + 1])| <= config.maxRequestBytes
    requires done == 0 ==> |OpenFor(j, key.client)| < config.perClient
    requires done == 0 && 0 < config.maxReassemblies ==> |j| < config.maxReassemblies
    ensures var (j', outcome) := ApplyPiece(config, j, key, pieces[done], started);
            if done + 1 < |pieces| then outcome == More && Holds(j', key, pieces, done + 1, since)
            else outcome == Complete(Joined(pieces))
  {
    assert pieces[..done + 1] == pieces[..done] + [pieces[done]];
    assert pieces[..done + 1][..done] == pieces[..done];
    assert PartsAt(j, key) == pieces[..done];
    assert AbortOf(config, j, key, pieces[done]) == ReasonOk;
    if done + 1 == |pieces| { assert pieces[..done + 1] == pieces; }
  }

  function Answers(n: nat, body: Bytes): seq<Outcome>
    requires 1 <= n
  {
    seq(n - 1, i => More) + [Complete(body)]
  }

  lemma {:induction false} JoinedPrefix(pieces: seq<Fragment>, k: nat)
    requires k <= |pieces|
    ensures |Joined(pieces[..k])| <= |Joined(pieces)|
    decreases |pieces| - k
  {
    if k == |pieces| {
      assert pieces[..k] == pieces;
    } else {
      JoinedPrefix(pieces, k + 1);
      assert pieces[..k + 1][..k] == pieces[..k];
    }
  }

  /**
   Pieces in sequence, arriving in order however the fragments of other keys fall between them, are
   answered "more" until the last, and the last with everything they spell.
   */
  lemma {:induction false} JoinsInSequence(config: Config, j: Journal, arrivals: seq<Arrival>, key: Key,
                                           pieces: seq<Fragment>, done: nat, since: Time, clock: Time)
    requires done < |pieces| && InSequence(pieces) && |Joined(pieces)| <= config.maxRequestBytes
    requires Holds(j, key, pieces, done, since) && since <= clock
    requires Timed(arrivals, clock) && NoExpiry(config, arrivals, since)
    requires done == 0 ==> RoomToOpen(config, j, arrivals, key)
    requires Project(arrivals, key) == pieces[done..]
    ensures OutcomesFor(config, j, arrivals, key) == Answers(|pieces| - done, Joined(pieces))
    decreases |arrivals|
  {
    hide Joined, ApplyPiece, InSequence, OpenFor;
    var a := arrivals[0];
    StillHeld(config, j, key, pieces, done, since, a.now);
    var j' := After(config, j, a);
    if KeyOf(a) != key {
      OtherKeyUntouched(config, j, a, key);
      JoinsInSequence(config, j', arrivals[1..], key, pieces, done, since, a.started);
    } else {
      JoinedPrefix(pieces, done + 1);
      assert a.fragment == pieces[done] && Project(arrivals[1..], key) == pieces[done + 1..];
      NextPieceTaken(config, Expire(config, j, a.now), key, pieces, done, since, a.started);
      if done + 1 < |pieces| {
        JoinsInSequence(config, j', arrivals[1..], key, pieces, done + 1, since, a.started);
        assert Answers(|pieces| - done, Joined(pieces)) == [More] + Answers(|pieces| - done - 1, Joined(pieces));
      } else {
        NothingLeft(config, j', arrivals[1..], key);
      }
    }
  }

  lemma {:induction false} NothingLeft(config: Config, j: Journal, arrivals: seq<Arrival>, key: Key)
    requires Project(arrivals, key) == []
    ensures OutcomesFor(config, j, arrivals, key) == []
    decreases |arrivals|
  {
    if |arrivals| != 0 { NothingLeft(config, After(config, j, arrivals[0]), arrivals[1..], key); }
  }

  /**
   Cutting and then joining is the identity, for every body and every part size the count of whose
   parts fits its 32 bits. A request that is not cut goes out as one frame that is its body; of one
   that is, the fragments the client's cutter sends, arriving in order however others fall between
   them, are answered "more" until the last and the last with the client's body, given that no cap is
   reached and nothing expires.
   */
  lemma ServerJoinsWhatWasCut(
    config: Config, j: Journal, arrivals: seq<Arrival>, key: Key, body: Bytes, partBytes: int, clock: Time)
    requires |body| <= config.maxRequestBytes && (1 <= partBytes ==> PartCount(|body|, partBytes) < TWO_32)
    requires key !in j && Timed(arrivals, clock) && NoExpiry(config, arrivals, clock)
    requires RoomToOpen(config, j, arrivals, key)
    requires Project(arrivals, key) == FragmentsOf(CutRequest(body, key.requestId, partBytes))
    ensures var frames := CutRequest(body, key.requestId, partBytes);
            if partBytes <= 0 || |body| <= partBytes then frames == [Whole(body)]
            else AllPieces(frames) && 1 <= |frames| && OutcomesFor(config, j, arrivals, key) == Answers(|frames|, body)
  {
    hide Frames, FragmentsOf, AllPieces, OutcomesFor, Answers, PartCount;
    if 1 <= partBytes {
      FramesAreThePieces(body, key.requestId, partBytes);
      if partBytes < |body| {
        var pieces := Pieces(body, key.requestId, partBytes);
        PiecesSpellTheBody(body, key.requestId, partBytes);
        assert pieces[0..] == pieces;
        JoinsInSequence(config, j, arrivals, key, pieces, 0, clock, clock);
      }
    }
  }

  // ---- nothing is joined but what arrived ----

  /** The joiner after these arrivals, from empty. */
  function Fed(config: Config, arrivals: seq<Arrival>): Journal {
    if |arrivals| == 0 then map[] else After(config, Fed(config, arrivals[..|arrivals| - 1]), arrivals[|arrivals| - 1])
  }

  lemma {:induction false} ProjectLast(arrivals: seq<Arrival>, a: Arrival, key: Key)
    ensures Project(arrivals + [a], key) == Project(arrivals, key) + if KeyOf(a) == key then [a.fragment] else []
    decreases |arrivals|
  {
    if |arrivals| == 0 {
      assert (arrivals + [a])[1..] == [] && Project([], key) == [];
    } else {
      ProjectLast(arrivals[1..], a, key);
      assert (arrivals + [a])[1..] == arrivals[1..] + [a];
    }
  }

  /** The last fragments that came under one key, 0, 1, ... of one count. */
  ghost predicate LastInOrder(came: seq<Fragment>, parts: seq<Fragment>) {
    && |parts| <= |came| && came[|came| - |parts|..] == parts
    && (forall i :: 0 <= i < |parts| ==> parts[i].index == i && parts[i].count == parts[0].count)
  }

  ghost predicate HoldsWhatCame(j: Journal, arrivals: seq<Arrival>) {
    forall key :: key in j ==> j[key].parts != [] && LastInOrder(Project(arrivals, key), j[key].parts)
  }

  lemma PieceFollows(config: Config, j: Journal, key: Key, f: Fragment, came: seq<Fragment>)
    requires AbortOf(config, j, key, f) == ReasonOk
    requires key in j ==> j[key].parts != [] && LastInOrder(came, j[key].parts)
    ensures LastInOrder(came + [f], PartsAt(j, key) + [f]) && f.index == |PartsAt(j, key)| < f.count
    ensures |Joined(PartsAt(j, key) + [f])| <= config.maxRequestBytes
  {
    var parts := PartsAt(j, key);
    assert (parts + [f])[..|parts|] == parts;
    assert (came + [f])[|came| - |parts|..] == came[|came| - |parts|..] + [f];
  }

  lemma ArrivalKeepsWhatCame(config: Config, j: Journal, arrivals: seq<Arrival>, a: Arrival)
    requires HoldsWhatCame(j, arrivals)
    ensures HoldsWhatCame(After(config, j, a), arrivals + [a])
  {
    hide LastInOrder, Joined, AbortOf, Project;
    var open, j' := Expire(config, j, a.now), After(config, j, a);
    forall key | key in j' ensures j'[key].parts != [] && LastInOrder(Project(arrivals + [a], key), j'[key].parts) {
      ProjectLast(arrivals, a, key);
      if key == KeyOf(a) {
        assert AbortOf(config, open, key, a.fragment) == ReasonOk;
        PieceFollows(config, open, key, a.fragment, Project(arrivals, key));
      } else {
        OtherKeyUntouched(config, j, a, key);
        assert Project(arrivals, key) + [] == Project(arrivals, key);
      }
    }
  }

  lemma {:induction false} FedHoldsWhatCame(config: Config, arrivals: seq<Arrival>)
    ensures HoldsWhatCame(Fed(config, arrivals), arrivals)
  {
    hide After, HoldsWhatCame;
    if |arrivals| == 0 {
      NothingHeld();
    } else {
      FedHoldsWhatCame(config, arrivals[..|arrivals| - 1]);
      ArrivalKeepsWhatCame(config, Fed(config, arrivals[..|arrivals| - 1]), arrivals[..|arrivals| - 1], arrivals[|arrivals| - 1]);
      assert arrivals[..|arrivals| - 1] + [arrivals[|arrivals| - 1]] == arrivals;
    }
  }

  lemma NothingHeld()
    ensures HoldsWhatCame(map[], [])
  {
  }

  /**
   Whatever arrives, in whatever order: a body the joiner completes is what the last fragments that
   came under its key spell, these being fragments 0, 1, ... of one count, as many as the count says,
   and no longer than a request may be.
   */
  lemma CompletedIsWhatCame(config: Config, arrivals: seq<Arrival>, a: Arrival)
    requires Accept(config, Fed(config, arrivals), a.client, a.fragment, a.now, a.started).1.Complete?
    ensures var body := Accept(config, Fed(config, arrivals), a.client, a.fragment, a.now, a.started).1.body;
            var came := Project(arrivals + [a], KeyOf(a));
            && a.fragment.count <= |came| && |body| <= config.maxRequestBytes
            && InSequence(came[|came| - a.fragment.count..]) && body == Joined(came[|came| - a.fragment.count..])
  {
    hide Fed, Joined, AbortOf, Project, LastInOrder, InSequence;
    FedHoldsWhatCame(config, arrivals);
    ProjectLast(arrivals, a, KeyOf(a));
    var open := Expire(config, Fed(config, arrivals), a.now);
    PieceFollows(config, open, KeyOf(a), a.fragment, Project(arrivals, KeyOf(a)));
    LastAreAll(Project(arrivals + [a], KeyOf(a)), PartsAt(open, KeyOf(a)), a.fragment);
  }

  lemma LastAreAll(came: seq<Fragment>, parts: seq<Fragment>, f: Fragment)
    requires LastInOrder(came, parts + [f]) && |parts| + 1 == f.count
    ensures f.count <= |came| && came[|came| - f.count..] == parts + [f] && InSequence(parts + [f])
  {
    assert (parts + [f])[|parts|] == f;
  }

  // ---- why a fragment is refused ----

  /** It is the next of what its key holds, of the same count. */
  predicate NextOf(parts: seq<Fragment>, f: Fragment) {
    f.index == |parts| < f.count && forall i :: 0 <= i < |parts| ==> parts[i].count == f.count
  }

  /** Its key is open, or neither the client nor the joiner holds its bound; a bound of zero on the whole is none. */
  predicate HasRoom(config: Config, j: Journal, key: Key) {
    key in j || (|OpenFor(j, key.client)| < config.perClient && (config.maxReassemblies <= 0 || |j| < config.maxReassemblies))
  }

  predicate Fits(config: Config, parts: seq<Fragment>, f: Fragment) {
    |Joined(parts)| + |f.part| <= config.maxRequestBytes
  }

  /** A fragment out of sequence or with no room is refused as malformed, one too long as too long; either frees what its key held. */
  lemma RefusedExactly(config: Config, j: Journal, key: Key, f: Fragment, started: Time, clock: Time)
    requires JournalInv(config, j, clock)
    ensures var (j', outcome) := ApplyPiece(config, j, key, f, started);
            var parts := PartsAt(j, key);
            && (outcome == Aborted(ReasonRejected) <==> !(NextOf(parts, f) && HasRoom(config, j, key)))
            && (outcome == Aborted(ReasonOversize) <==> NextOf(parts, f) && HasRoom(config, j, key) && !Fits(config, parts, f))
            && (outcome.Aborted? <==> !(NextOf(parts, f) && HasRoom(config, j, key) && Fits(config, parts, f)))
            && (outcome.Aborted? || outcome.Complete? <==> key !in j')
            && (outcome.More? ==> key in j' && j'[key] == Entry(if key in j then j[key].started else started, parts + [f]))
            && (forall k :: k != key ==> (k in j' <==> k in j) && (k in j ==> j'[k] == j[k]))
  {
    hide Joined, OpenFor;
    assert key in j ==> EntrySound(config, j[key]);
  }

  /** After any arrival, of other keys nothing past the bound is left, and nothing within it has gone. */
  lemma ExpiresExactly(config: Config, j: Journal, a: Arrival, k: Key)
    requires k != KeyOf(a)
    ensures k in After(config, j, a) <==> k in j && (config.idle == 0 || a.now - config.idle <= j[k].started)
    ensures k in After(config, j, a) && k in j ==> After(config, j, a)[k] == j[k]
  {
    OtherKeyUntouched(config, j, a, k);
  }

  // ---- a count that does not fit its 32 bits ----

  /** Every fragment held or still to come under `key` is short and names the count `c`. */
  ghost predicate ShortPieces(pieces: seq<Fragment>, p: nat, c: nat) {
    forall i :: 0 <= i < |pieces| ==> |pieces[i].part| <= p && pieces[i].count == c
  }

  lemma CompletedIsShort(config: Config, j: Journal, key: Key, f: Fragment, started: Time, p: nat, c: nat)
    requires ShortPieces(PartsAt(j, key), p, c) && |f.part| <= p && f.count == c
    ensures var (j', outcome) := ApplyPiece(config, j, key, f, started);
            && (outcome.Complete? ==> |outcome.body| <= c * p)
            && ShortPieces(PartsAt(j', key), p, c)
  {
    hide Joined;
    JoinedWithin(PartsAt(j, key) + [f], p, c);
  }

  lemma {:induction false} ShortPiecesJoinShort(config: Config, j: Journal, arrivals: seq<Arrival>, key: Key, p: nat, c: nat)
    requires ShortPieces(PartsAt(j, key), p, c) && ShortPieces(Project(arrivals, key), p, c)
    ensures forall o :: o in OutcomesFor(config, j, arrivals, key) && o.Complete? ==> |o.body| <= c * p
    decreases |arrivals|
  {
    hide ApplyPiece, Joined;
    if |arrivals| != 0 {
      var a := arrivals[0];
      var open, j' := Expire(config, j, a.now), After(config, j, a);
      assert PartsAt(open, key) == [] || PartsAt(open, key) == PartsAt(j, key);
      if KeyOf(a) == key {
        assert Project(arrivals, key)[0] == a.fragment;
        assert Project(arrivals, key)[1..] == Project(arrivals[1..], key);
        CompletedIsShort(config, open, key, a.fragment, a.started, p, c);
      } else {
        OtherKeyUntouched(config, j, a, key);
      }
      ShortPiecesJoinShort(config, j', arrivals[1..], key, p, c);
    }
  }

  /** A cut whose count wraps is never joined back into its body: the condition on the count is exact. */
  lemma WrappedCountNeverJoins(config: Config, j: Journal, arrivals: seq<Arrival>, key: Key, body: Bytes, p: int)
    requires 1 <= p && TWO_32 <= PartCount(|body|, p) && key !in j
    requires Project(arrivals, key) == FragmentsOf(CutRequest(body, key.requestId, p))
    ensures Complete(body) !in OutcomesFor(config, j, arrivals, key)
  {
    hide Pieces, PartCount, U32, Frames, FragmentsOf;
    ManyPartsAreCut(|body|, p);
    FramesAreThePieces(body, key.requestId, p);
    PiecesAreShort(body, key.requestId, p);
    ShortPiecesJoinShort(config, j, arrivals, key, p, U32(PartCount(|body|, p)));
    WrappedCountIsShort(|body|, p);
  }
}
