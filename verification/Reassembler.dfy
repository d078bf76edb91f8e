/**
 The server's joiner: a buffer per open request, a count per client, and the open requests in the
 order they began, so that expiry looks at what it drops and one more. It does exactly what the
 plain journal of Reassembly does with a scan of everything.
 */
module Reassembler {
  import opened Common
  import opened Records
  import opened Fragments
  import opened Reassembly

  datatype Partial = Partial(count: nat, next: nat, bytes: Bytes, started: Time)

  /** A buffer holds, end to end, the parts its journal entry lists. */
  ghost predicate Represents(p: Partial, e: Entry) {
    && |e.parts| != 0
    && p == Partial(e.parts[0].count, |e.parts|, Joined(e.parts), e.started)
  }

  ghost function OfClient(keys: set<Key>, client: nat): set<Key> {
    set k | k in keys && k.client == client
  }

  /** Each client is counted for exactly the requests it has open, and one with none is not counted at all. */
  ghost predicate CountsSound(counts: map<nat, nat>, keys: set<Key>) {
    && (forall c :: c in counts ==> counts[c] == |OfClient(keys, c)| && counts[c] != 0)
    && (forall k :: k in keys ==> k.client in counts)
  }

  ghost predicate Listed(order: seq<Key>, keys: set<Key>) {
    && (forall k :: k in order <==> k in keys)
    && (forall i, j :: 0 <= i < j < |order| ==> order[i] != order[j])
  }

  /** The list is in the order the requests began. */
  ghost predicate InStartOrder(order: seq<Key>, j: Journal) {
    forall a, b :: 0 <= a < b < |order| && order[a] in j && order[b] in j ==> j[order[a]].started <= j[order[b]].started
  }

  ghost predicate BuffersSound(inFlight: map<Key, Partial>, j: Journal) {
    && inFlight.Keys == j.Keys
    && (forall k :: k in inFlight ==> Represents(inFlight[k], j[k]))
  }

  function CountOf(counts: map<nat, nat>, client: nat): nat {
    if client in counts then counts[client] else 0
  }

  lemma CountIsOpen(counts: map<nat, nat>, j: Journal, client: nat)
    requires CountsSound(counts, j.Keys)
    ensures CountOf(counts, client) == |OpenFor(j, client)|
  {
    assert OpenFor(j, client) == OfClient(j.Keys, client);
  }

  /** One request fewer against its client. */
  function Released(counts: map<nat, nat>, client: nat): map<nat, nat> {
    if CountOf(counts, client) <= 1 then counts - {client} else counts[client := counts[client] - 1]
  }

  lemma ReleasedIsSound(counts: map<nat, nat>, keys: set<Key>, key: Key)
    requires CountsSound(counts, keys) && key in keys
    ensures CountsSound(Released(counts, key.client), keys - {key})
  {
    var counts', keys' := Released(counts, key.client), keys - {key};
    assert key in OfClient(keys, key.client);
    assert OfClient(keys', key.client) == OfClient(keys, key.client) - {key};
    assert |OfClient(keys', key.client)| == counts[key.client] - 1;
    forall c | c != key.client ensures OfClient(keys', c) == OfClient(keys, c) {}
    forall k | k in keys' ensures k.client in counts' {
      if k.client == key.client { assert k in OfClient(keys', key.client); }
    }
  }

  lemma AddedIsSound(counts: map<nat, nat>, keys: set<Key>, key: Key)
    requires CountsSound(counts, keys) && key !in keys
    ensures CountsSound(counts[key.client := CountOf(counts, key.client) + 1], keys + {key})
  {
    var keys' := keys + {key};
    assert OfClient(keys', key.client) == OfClient(keys, key.client) + {key};
    if key.client !in counts { assert OfClient(keys, key.client) == {}; }
    forall c | c != key.client ensures OfClient(keys', c) == OfClient(keys, c) {}
  }

  lemma RemovedIsListed(order: seq<Key>, keys: set<Key>, i: nat)
    requires Listed(order, keys) && i < |order|
    ensures Listed(order[..i] + order[i + 1..], keys - {order[i]})
  {
    var order' := order[..i] + order[i + 1..];
    forall k ensures k in order' <==> k in keys - {order[i]} {
      if k in keys && k != order[i] {
        var n :| 0 <= n < |order| && order[n] == k;
        assert order'[if n < i then n else n - 1] == k;
      }
    }
  }

  lemma RemovedInStartOrder(order: seq<Key>, j: Journal, i: nat, key: Key)
    requires InStartOrder(order, j) && i < |order|
    ensures InStartOrder(order[..i] + order[i + 1..], j - {key})
  {
  }

  lemma AppendedIsListed(order: seq<Key>, keys: set<Key>, key: Key)
    requires Listed(order, keys) && key !in keys
    ensures Listed(order + [key], keys + {key})
  {
  }

  /** A request begun no earlier than any open one goes at the end. */
  lemma AppendedInStartOrder(order: seq<Key>, j: Journal, key: Key, e: Entry)
    requires InStartOrder(order, j) && key !in order
    requires forall k :: k in j ==> j[k].started <= e.started
    ensures InStartOrder(order + [key], j[key := e])
  {
  }

  lemma UpdatedInStartOrder(order: seq<Key>, j: Journal, key: Key, e: Entry)
    requires InStartOrder(order, j) && key in j && e.started == j[key].started
    ensures InStartOrder(order, j[key := e])
  {
  }

  /** Buffers, counters and list agree with one another and with the journal. */
  ghost predicate IndexesAgree(inFlight: map<Key, Partial>, counts: map<nat, nat>, order: seq<Key>, j: Journal) {
    && BuffersSound(inFlight, j)
    && CountsSound(counts, j.Keys)
    && Listed(order, j.Keys)
    && InStartOrder(order, j)
  }

  lemma DropAgrees(inFlight: map<Key, Partial>, counts: map<nat, nat>, order: seq<Key>, j: Journal, key: Key, i: nat)
    requires IndexesAgree(inFlight, counts, order, j) && i < |order| && order[i] == key && key in j
    ensures IndexesAgree(inFlight - {key}, Released(counts, key.client), order[..i] + order[i + 1..], j - {key})
  {
    hide CountsSound, Listed, InStartOrder, Represents, Released;
    RemovedIsListed(order, j.Keys, i);
    RemovedInStartOrder(order, j, i, key);
    ReleasedIsSound(counts, j.Keys, key);
    assert (j - {key}).Keys == j.Keys - {key};
  }

  lemma OpenAgrees(inFlight: map<Key, Partial>, counts: map<nat, nat>, order: seq<Key>, j: Journal, key: Key, p: Partial, e: Entry)
    requires IndexesAgree(inFlight, counts, order, j) && key !in j && Represents(p, e)
    requires forall k :: k in j ==> j[k].started <= e.started
    ensures IndexesAgree(inFlight[key := p], counts[key.client := CountOf(counts, key.client) + 1], order + [key], j[key := e])
  {
    hide CountsSound, InStartOrder, Represents;
    AppendedIsListed(order, j.Keys, key);
    AppendedInStartOrder(order, j, key, e);
    AddedIsSound(counts, j.Keys, key);
    assert j[key := e].Keys == j.Keys + {key};
  }

  lemma ExtendAgrees(inFlight: map<Key, Partial>, counts: map<nat, nat>, order: seq<Key>, j: Journal, key: Key, p: Partial, e: Entry)
    requires IndexesAgree(inFlight, counts, order, j) && key in j && Represents(p, e) && e.started == j[key].started
    ensures IndexesAgree(inFlight[key := p], counts, order, j[key := e])
  {
    hide CountsSound, Listed, InStartOrder, Represents;
    UpdatedInStartOrder(order, j, key, e);
    assert j[key := e].Keys == j.Keys;
  }

  lemma EntryOf(inFlight: map<Key, Partial>, counts: map<nat, nat>, order: seq<Key>, j: Journal, key: Key)
    requires IndexesAgree(inFlight, counts, order, j)
    ensures (key in inFlight <==> key in j) && (key in order <==> key in j)
    ensures key in j ==> Represents(inFlight[key], j[key])
    ensures |inFlight| == |j| && CountOf(counts, key.client) == |OpenFor(j, key.client)|
  {
    CountIsOpen(counts, j, key.client);
    assert |inFlight| == |inFlight.Keys| && |j| == |j.Keys|;
  }

  lemma FrontIsOldest(config: Config, inFlight: map<Key, Partial>, counts: map<nat, nat>, order: seq<Key>, j: Journal, now: Time)
    requires IndexesAgree(inFlight, counts, order, j) && |order| != 0 && order[0] in j
    requires !Expired(config, j[order[0]].started, now)
    ensures forall k :: k in j ==> !Expired(config, j[k].started, now)
  {
    hide BuffersSound, CountsSound;
    forall k | k in j ensures !Expired(config, j[k].started, now) {
      var i :| 0 <= i < |order| && order[i] == k;
    }
  }

  lemma EmptyListNothingOpen(inFlight: map<Key, Partial>, counts: map<nat, nat>, order: seq<Key>, j: Journal)
    requires IndexesAgree(inFlight, counts, order, j) && |order| == 0
    ensures j == map[]
  {
    forall k ensures k !in j { assert k !in order; }
  }

  class Joiner {
    const config: Config
    var inFlight: map<Key, Partial>
    var counts: map<nat, nat>
    var order: seq<Key>
    var examined: nat
    ghost var journal: Journal
    ghost var clock: Time

    ghost predicate Agrees()
      reads this
    {
      IndexesAgree(inFlight, counts, order, journal)
    }

    /** The indexes agree, and the journal is one the joiner can reach: caps, byte bound, parts in order. */
    ghost predicate Valid()
      reads this
    {
      Agrees() && JournalInv(config, journal, clock)
    }

    constructor (config: Config, now: Time)
      ensures Valid() && journal == map[] && clock == now && this.config == config
    {
      this.config := config;
      inFlight, counts, order, examined := map[], map[], [], 0;
      journal, clock := map[], now;
    }

    /** One request's state released: its buffer, its place in the list and its client's slot. */
    method Drop(key: Key)
      requires Agrees()
      modifies `inFlight, `counts, `order, `journal
      ensures Agrees() && journal == old(journal) - {key}
    {
      hide IndexesAgree, Represents;
      EntryOf(inFlight, counts, order, journal, key);
      if key !in inFlight {
        assert journal - {key} == journal;
        return;
      }
      var i :| 0 <= i < |order| && order[i] == key;
      DropAgrees(inFlight, counts, order, journal, key, i);
      inFlight := inFlight - {key};
      order := order[..i] + order[i + 1..];
      counts := if CountOf(counts, key.client) <= 1 then counts - {key.client} else counts[key.client := counts[key.client] - 1];
      journal := journal - {key};
    }

    /**
     Everything past the bound, dropped from the front of the list: what a scan of every request
     would drop, at the cost of looking at those and at most one more.
     */
    method ExpireFront(now: Time) returns (dropped: nat)
      requires Agrees()
      modifies `inFlight, `counts, `order, `journal, `examined
      ensures Agrees() && journal == Expire(config, old(journal), now)
      ensures dropped + |journal| == |old(journal)|
      ensures examined <= old(examined) + dropped + 1
    {
      hide IndexesAgree;
      dropped := 0;
      if config.idle == 0 {
        assert Expire(config, journal, now) == journal;
        return;
      }
      var deadline := now - config.idle;
      while |order| != 0
        invariant Agrees()
        invariant dropped + |journal| == |old(journal)|
        invariant examined == old(examined) + dropped
        invariant forall k :: k in journal ==> k in old(journal) && journal[k] == old(journal)[k]
        invariant forall k :: k in old(journal) && k !in journal ==> Expired(config, old(journal)[k].started, now)
        decreases |journal|
      {
        var key := order[0];
        EntryOf(inFlight, counts, order, journal, key);
        examined := examined + 1;
        if !(inFlight[key].started < deadline) {
          FrontIsOldest(config, inFlight, counts, order, journal, now);
          assert journal == Expire(config, old(journal), now);
          return;
        }
        OneFewer(journal, key);
        Drop(key);
        dropped := dropped + 1;
      }
      EmptyListNothingOpen(inFlight, counts, order, journal);
      assert journal == Expire(config, old(journal), now);
    }

    /** The aborts, in the order they are asked. */
    method Refusal(key: Key, f: Fragment) returns (reason: Reason)
      requires Agrees()
      ensures reason == AbortOf(config, journal, key, f)
    {
      hide IndexesAgree, Joined, OpenFor;
      EntryOf(inFlight, counts, order, journal, key);
      JoinedNothing();
      var isOpen := key in inFlight;
      var next := if isOpen then inFlight[key].next else 0;
      var buffered := if isOpen then |inFlight[key].bytes| else 0;
      if f.count <= f.index { return ReasonRejected; }
      if f.index != next { return ReasonRejected; }
      if isOpen && f.count != inFlight[key].count { return ReasonRejected; }
      if !isOpen && config.perClient <= CountOf(counts, key.client) { return ReasonRejected; }
      if !isOpen && 0 < config.maxReassemblies && config.maxReassemblies <= |inFlight| { return ReasonRejected; }
      if config.maxRequestBytes < buffered + |f.part| { return ReasonOversize; }
      return ReasonOk;
    }

    /** A part appended to its buffer, the buffer opened first if this is the fragment that opens it. */
    method Append(key: Key, f: Fragment, started: Time)
      requires Agrees()
      requires forall k :: k in journal ==> journal[k].started <= started
      requires key in journal && |journal[key].parts| != 0 ==> f.count == journal[key].parts[0].count
      modifies `inFlight, `counts, `order, `journal
      ensures Agrees()
      ensures journal == old(journal)[key := Extended(old(journal), key, f, started)]
      ensures key in inFlight && Represents(inFlight[key], journal[key])
    {
      hide IndexesAgree, Joined;
      EntryOf(inFlight, counts, order, journal, key);
      JoinedOn(PartsAt(journal, key), f);
      JoinedNothing();
      ghost var entry := Extended(journal, key, f, started);
      if key in inFlight {
        var p := inFlight[key];
        p := p.(bytes := p.bytes + f.part, next := p.next + 1);
        ExtendAgrees(inFlight, counts, order, journal, key, p, entry);
        inFlight := inFlight[key := p];
      } else {
        var p := Partial(f.count, 1, f.part, started);
        OpenAgrees(inFlight, counts, order, journal, key, p, entry);
        inFlight := inFlight[key := p];
        order := order + [key];
        counts := counts[key.client := CountOf(counts, key.client) + 1];
      }
      journal := journal[key := entry];
    }

    /** What has not expired, given one more fragment. */
    method ApplyFragment(key: Key, f: Fragment, started: Time) returns (outcome: Outcome)
      requires Agrees() && JournalInv(config, journal, started)
      modifies `inFlight, `counts, `order, `journal
      ensures Agrees() && (journal, outcome) == ApplyPiece(config, old(journal), key, f, started)
    {
      hide IndexesAgree, JournalInv, AbortOf, Joined;
      var reason := Refusal(key, f);
      if reason != ReasonOk {
        Drop(key);
        return Aborted(reason);
      }
      Appendable(config, journal, key, f, started);
      Append(key, f, started);
      if inFlight[key].next < inFlight[key].count {
        return More;
      }
      var assembled := inFlight[key].bytes;
      Drop(key);
      assert journal == old(journal) - {key};
      return Complete(assembled);
    }

    /** One fragment: exactly what the journal would make of it after a scan of everything. */
    method AcceptFragment(client: nat, f: Fragment, now: Time, started: Time) returns (outcome: Outcome)
      requires Valid() && clock <= now <= started
      modifies this
      ensures Valid() && clock == started
      ensures (journal, outcome) == Accept(config, old(journal), client, f, now, started)
    {
      hide IndexesAgree, JournalInv, ApplyPiece;
      AcceptKeepsInv(config, journal, client, f, now, started, clock);
      ShrinkKeepsCaps(config, journal, Expire(config, journal, now), clock);
      LaterClock(config, Expire(config, journal, now), clock, started);
      var dropped := ExpireFront(now);
      outcome := ApplyFragment(Key(client, f.requestId), f, started);
      clock := started;
    }

    /** The same expiry with no fragment to hang it on: everything past the bound goes, and nothing else. */
    method Sweep(now: Time) returns (dropped: nat)
      requires Valid() && clock <= now
      modifies this
      ensures Valid() && clock == now
      ensures journal == Expire(config, old(journal), now) && dropped + |journal| == |old(journal)|
    {
      hide IndexesAgree, JournalInv;
      ShrinkKeepsCaps(config, journal, Expire(config, journal, now), clock);
      LaterClock(config, Expire(config, journal, now), clock, now);
      dropped := ExpireFront(now);
      clock := now;
    }
  }

  ghost function Extended(j: Journal, key: Key, f: Fragment, started: Time): Entry {
    Entry(if key in j then j[key].started else started, PartsAt(j, key) + [f])
  }

  lemma OneFewer(j: Journal, key: Key)
    requires key in j
    ensures |j - {key}| == |j| - 1
  {
    assert (j - {key}).Keys == j.Keys - {key};
    assert |j| == |j.Keys| && |j - {key}| == |(j - {key}).Keys|;
  }

  lemma JoinedOn(parts: seq<Fragment>, f: Fragment)
    ensures Joined(parts + [f]) == Joined(parts) + f.part
  {
    assert (parts + [f])[..|parts|] == parts;
  }

  lemma JoinedNothing()
    ensures Joined([]) == []
  {
  }

  lemma LaterClock(config: Config, j: Journal, clock: Time, later: Time)
    requires JournalInv(config, j, clock) && clock <= later
    ensures JournalInv(config, j, later)
  {
  }

  /** A fragment no abort meets names the count its request was opened with and comes after every open request began. */
  lemma Appendable(config: Config, j: Journal, key: Key, f: Fragment, clock: Time)
    requires JournalInv(config, j, clock) && AbortOf(config, j, key, f) == ReasonOk
    ensures forall k :: k in j ==> j[k].started <= clock
    ensures f.count != 0 && (key in j ==> |j[key].parts| != 0 && f.count == j[key].parts[0].count)
  {
    assert key in j ==> EntrySound(config, j[key]);
  }
}
